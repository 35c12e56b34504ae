/**
 * The product form schemas: `createOrUpdateProductSchema` (the client
 * form) and `createProductSchemaServer` (the action's input). Whether a
 * string is a well-formed URL is the parameter `isUrl`.
 */
module ProductSchemas {
  import opened Wrappers
  import opened Validation

  const TitleMessage: string := "Title is required"
  const PriceMessage: string := "Price is required"
  const CategoryMessage: string := "Category is required"
  const DescriptionMessage: string := "Description is required"
  const HeroImageMessage: string := "Hero image is required"
  const ImagesMessage: string := "At least one image is required"
  const IntentMessage: string := "Intent must be either create or update"
  const ImageUrlsMessage: string := "Images are required"

  // ---------------------------------------------------------------------
  // createOrUpdateProductSchema

  /** The client form; `images` is `None` when the input holds `null`. */
  datatype ProductForm = ProductForm(
    title: Option<string>,
    price: Option<string>,
    category: Option<string>,
    description: Option<string>,
    heroImage: FileInput,
    images: Option<FileInput>,
    intent: Option<string>,
    slug: Option<string>)

  /** The parsed client form: `images` has become an array of the chosen files. */
  datatype ProductInput = ProductInput(
    title: string,
    price: string,
    category: string,
    description: string,
    heroImage: FileInput,
    images: seq<File>,
    intent: Option<Intent>,
    slug: Option<string>)

  predicate NonEmpty(value: Option<string>)
  {
    value.Some? && value.value != []
  }

  /** `files instanceof FileList && files.length > 0` */
  predicate ImagesGiven(images: Option<FileInput>)
  {
    images.Some? && images.value.isFileList && |images.value.files| > 0
  }

  predicate ProductFormAccepts(f: ProductForm)
  {
    && NonEmpty(f.title) && NonEmpty(f.price) && NonEmpty(f.category) && NonEmpty(f.description)
    && |f.heroImage.files| == 1
    && ImagesGiven(f.images)
    && (f.intent.Some? ==> f.intent.value in {"create", "update"})
  }

  /** The `transform`: `files ? Array.from(files) : []`. */
  function ImagesArray(images: Option<FileInput>): (r: seq<File>)
    ensures images.Some? ==> |r| == |images.value.files| && forall k :: 0 <= k < |r| ==> r[k] == images.value.files[k]
    ensures images.None? ==> r == []
  {
    match images
    case None => []
    case Some(list) => seq(|list.files|, k requires 0 <= k < |list.files| => list.files[k])
  }

  /** The issues of the four text fields, in key order. */
  function TextFieldIssues(f: ProductForm): (issues: seq<Issue>)
    ensures issues == [] <==> NonEmpty(f.title) && NonEmpty(f.price) && NonEmpty(f.category) && NonEmpty(f.description)
    ensures forall j :: 0 <= j < |issues| ==>
      |issues[j].path| == 1 && issues[j].path[0] in {Field("title"), Field("price"), Field("category"), Field("description")}
  {
    MinLength("title", f.title, 1, TitleMessage)
    + MinLength("price", f.price, 1, PriceMessage)
    + MinLength("category", f.category, 1, CategoryMessage)
    + MinLength("description", f.description, 1, DescriptionMessage)
  }

  function ParseProductForm(f: ProductForm): (r: Parsed<ProductInput>)
    ensures r.Ok? <==> ProductFormAccepts(f)
    ensures r.Ok? ==> r.value == ProductInput(f.title.value, f.price.value, f.category.value, f.description.value,
      f.heroImage, f.images.value.files, ParsedIntent(f.intent), f.slug)
    ensures r.Invalid? ==> (Issue([Field("heroImage")], HeroImageMessage) in r.issues <==> |f.heroImage.files| != 1)
    ensures r.Invalid? ==> (Issue([Field("images")], ImagesMessage) in r.issues <==> !ImagesGiven(f.images))
    ensures r.Invalid? ==> (Issue([Field("intent")], IntentMessage) in r.issues <==>
      f.intent.Some? && f.intent.value !in {"create", "update"})
  {
    var issues :=
      TextFieldIssues(f)
      + Check("heroImage", |f.heroImage.files| == 1, HeroImageMessage)
      + Check("images", ImagesGiven(f.images), ImagesMessage)
      + IntentField("intent", f.intent, true, IntentMessage);
    if issues == [] then
      Ok(ProductInput(f.title.value, f.price.value, f.category.value, f.description.value,
        f.heroImage, ImagesArray(f.images), ParsedIntent(f.intent), f.slug))
    else Invalid(issues)
  }

  // ---------------------------------------------------------------------
  // createProductSchemaServer

  datatype ProductServerForm = ProductServerForm(
    title: Option<string>,
    price: Option<int>,
    category: Option<int>,
    description: Option<string>,
    heroImage: Option<string>,
    images: Option<seq<string>>)

  datatype ProductServerInput = ProductServerInput(
    title: string,
    price: int,
    category: int,
    description: string,
    heroImage: string,
    images: seq<string>)

  predicate ProductServerAccepts(f: ProductServerForm, isUrl: string -> bool)
  {
    && NonEmpty(f.title) && NonEmpty(f.description)
    && f.price.Some? && f.price.value > 0
    && f.category.Some? && f.category.value > 0
    && f.heroImage.Some? && isUrl(f.heroImage.value)
    && f.images.Some? && forall k :: 0 <= k < |f.images.value| ==> isUrl(f.images.value[k])
  }

  /** The issues of every field but `images`, in key order. */
  function ServerFieldIssues(f: ProductServerForm, isUrl: string -> bool): (issues: seq<Issue>)
    ensures issues == [] <==>
      && NonEmpty(f.title) && NonEmpty(f.description)
      && f.price.Some? && f.price.value > 0
      && f.category.Some? && f.category.value > 0
      && f.heroImage.Some? && isUrl(f.heroImage.value)
    ensures forall j :: 0 <= j < |issues| ==> |issues[j].path| == 1 && issues[j].path[0] != Field("images")
    ensures Issue([Field("price")], PriceMessage) in issues <==> f.price.Some? && f.price.value <= 0
  {
    MinLength("title", f.title, 1, TitleMessage)
    + Positive("price", f.price, PriceMessage)
    + Positive("category", f.category, CategoryMessage)
    + MinLength("description", f.description, 1, DescriptionMessage)
    + HeroImageUrlIssues(f.heroImage, isUrl)
  }

  /** `z.string().url({ message })` on `heroImage`: a missing value is reported as required. */
  function HeroImageUrlIssues(heroImage: Option<string>, isUrl: string -> bool): (issues: seq<Issue>)
    ensures issues == [] <==> heroImage.Some? && isUrl(heroImage.value)
    ensures heroImage.None? ==> issues == [Issue([Field("heroImage")], RequiredMessage)]
    ensures heroImage.Some? && !isUrl(heroImage.value) ==> issues == [Issue([Field("heroImage")], HeroImageMessage)]
  {
    match heroImage
    case None => Check("heroImage", false, RequiredMessage)
    case Some(u) => Check("heroImage", isUrl(u), HeroImageMessage)
  }

  /** The issues of `images`: required, and each element a URL. */
  function ImageUrlIssues(images: Option<seq<string>>, isUrl: string -> bool): (issues: seq<Issue>)
    ensures issues == [] <==> images.Some? && forall k :: 0 <= k < |images.value| ==> isUrl(images.value[k])
    ensures Issue([Field("images")], RequiredMessage) in issues <==> images.None?
    ensures forall k: nat :: Issue([Field("images"), Index(k)], ImageUrlsMessage) in issues <==>
      images.Some? && k < |images.value| && !isUrl(images.value[k])
  {
    match images
    case None => Check("images", false, RequiredMessage)
    case Some(urls) => UrlElements("images", urls, isUrl, ImageUrlsMessage, 0)
  }

  function ParseProductServer(f: ProductServerForm, isUrl: string -> bool): (r: Parsed<ProductServerInput>)
    ensures r.Ok? <==> ProductServerAccepts(f, isUrl)
    ensures r.Ok? ==> r.value == ProductServerInput(f.title.value, f.price.value, f.category.value,
      f.description.value, f.heroImage.value, f.images.value)
    // a missing array is reported as required; an empty one raises no issue
    ensures r.Invalid? ==> (Issue([Field("images")], RequiredMessage) in r.issues <==> f.images.None?)
    // exactly the images that are not URLs are reported, each at its position
    ensures r.Invalid? ==> forall k: nat :: Issue([Field("images"), Index(k)], ImageUrlsMessage) in r.issues <==>
      f.images.Some? && k < |f.images.value| && !isUrl(f.images.value[k])
    ensures r.Invalid? ==> (Issue([Field("price")], PriceMessage) in r.issues <==> f.price.Some? && f.price.value <= 0)
  {
    var fieldIssues := ServerFieldIssues(f, isUrl);
    var imageIssues := ImageUrlIssues(f.images, isUrl);
    var issues := fieldIssues + imageIssues;
    if issues == [] then
      Ok(ProductServerInput(f.title.value, f.price.value, f.category.value, f.description.value,
        f.heroImage.value, f.images.value))
    else Invalid(issues)
  }
}
