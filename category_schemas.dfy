/**
 * The category form schemas: `createCategorySchema` (the client form),
 * `CreateCategorySchemaServer` (the action's input) and
 * `updateCategorySchema`.
 */
module CategorySchemas {
  import opened Wrappers
  import opened Validation

  const ImageMessage: string := "image is required"
  const NameMessage: string := "Name must be at least 2 characters long"
  const IntentMessage: string := "Intent must be either create or update"
  const SlugMessage: string := "slug is required"

  // ---------------------------------------------------------------------
  // createCategorySchema

  datatype CategoryForm = CategoryForm(image: FileInput, name: Option<string>, intent: Option<string>, slug: Option<string>)

  datatype CreateCategory = CreateCategory(image: FileInput, name: string, intent: Option<Intent>, slug: Option<string>)

  /** The client form is acceptable: one image, a name of two or more characters, no intent or a known one. */
  predicate CreateCategoryAccepts(f: CategoryForm)
  {
    && |f.image.files| == 1
    && f.name.Some? && |f.name.value| >= 2
    && (f.intent.Some? ==> f.intent.value in {"create", "update"})
  }

  function CreateCategoryIssues(f: CategoryForm): seq<Issue>
  {
    Check("image", |f.image.files| == 1, ImageMessage)
    + MinLength("name", f.name, 2, NameMessage)
    + IntentField("intent", f.intent, true, IntentMessage)
  }

  function ParseCreateCategory(f: CategoryForm): (r: Parsed<CreateCategory>)
    ensures r.Ok? <==> CreateCategoryAccepts(f)
    ensures r.Ok? ==> r.value == CreateCategory(f.image, f.name.value, ParsedIntent(f.intent), f.slug)
    // one issue per failing field, with that field's message
    ensures r.Invalid? ==> (Issue([Field("image")], ImageMessage) in r.issues <==> |f.image.files| != 1)
    ensures r.Invalid? ==> (Issue([Field("name")], NameMessage) in r.issues <==> f.name.Some? && |f.name.value| < 2)
    ensures r.Invalid? ==> (Issue([Field("name")], RequiredMessage) in r.issues <==> f.name.None?)
    ensures r.Invalid? ==> (Issue([Field("intent")], IntentMessage) in r.issues <==>
      f.intent.Some? && f.intent.value !in {"create", "update"})
  {
    var issues := CreateCategoryIssues(f);
    if issues == [] then Ok(CreateCategory(f.image, f.name.value, ParsedIntent(f.intent), f.slug))
    else Invalid(issues)
  }

  // ---------------------------------------------------------------------
  // CreateCategorySchemaServer

  datatype CategoryServerForm = CategoryServerForm(imageUrl: Option<string>, name: Option<string>)

  datatype CreateCategoryServer = CreateCategoryServer(imageUrl: string, name: string)

  predicate CreateCategoryServerAccepts(f: CategoryServerForm)
  {
    f.imageUrl.Some? && f.imageUrl.value != [] && f.name.Some? && |f.name.value| >= 2
  }

  function ParseCreateCategoryServer(f: CategoryServerForm): (r: Parsed<CreateCategoryServer>)
    ensures r.Ok? <==> CreateCategoryServerAccepts(f)
    ensures r.Ok? ==> r.value == CreateCategoryServer(f.imageUrl.value, f.name.value)
    ensures r.Invalid? ==> (Issue([Field("imageUrl")], ImageMessage) in r.issues <==> f.imageUrl == Some(""))
    ensures r.Invalid? ==> (Issue([Field("name")], NameMessage) in r.issues <==> f.name.Some? && |f.name.value| < 2)
    ensures r.Invalid? ==> (Issue([Field("imageUrl")], RequiredMessage) in r.issues <==> f.imageUrl.None?)
    ensures r.Invalid? ==> (Issue([Field("name")], RequiredMessage) in r.issues <==> f.name.None?)
  {
    var issues := MinLength("imageUrl", f.imageUrl, 1, ImageMessage) + MinLength("name", f.name, 2, NameMessage);
    if issues == [] then Ok(CreateCategoryServer(f.imageUrl.value, f.name.value)) else Invalid(issues)
  }

  // ---------------------------------------------------------------------
  // updateCategorySchema (its image key is spelled `ImageUrl`)

  datatype CategoryUpdateForm = CategoryUpdateForm(
    imageUrl: Option<string>, name: Option<string>, intent: Option<string>, slug: Option<string>)

  datatype UpdateCategory = UpdateCategory(imageUrl: string, name: string, intent: Intent, slug: string)

  predicate UpdateCategoryAccepts(f: CategoryUpdateForm)
  {
    && f.imageUrl.Some? && f.imageUrl.value != []
    && f.name.Some? && |f.name.value| >= 2
    && f.intent.Some? && f.intent.value in {"create", "update"}
    && f.slug.Some? && f.slug.value != []
  }

  function ParseUpdateCategory(f: CategoryUpdateForm): (r: Parsed<UpdateCategory>)
    ensures r.Ok? <==> UpdateCategoryAccepts(f)
    ensures r.Ok? ==> r.value == UpdateCategory(f.imageUrl.value, f.name.value, ParseIntent(f.intent.value).value, f.slug.value)
    ensures r.Invalid? ==> (Issue([Field("intent")], IntentMessage) in r.issues <==>
      f.intent.None? || f.intent.value !in {"create", "update"})
    ensures r.Invalid? ==> (Issue([Field("slug")], SlugMessage) in r.issues <==> f.slug == Some(""))
    ensures r.Invalid? ==> (Issue([Field("slug")], RequiredMessage) in r.issues <==> f.slug.None?)
  {
    var issues :=
      MinLength("ImageUrl", f.imageUrl, 1, ImageMessage)
      + MinLength("name", f.name, 2, NameMessage)
      + IntentField("intent", f.intent, false, IntentMessage)
      + MinLength("slug", f.slug, 1, SlugMessage);
    if issues == [] then Ok(UpdateCategory(f.imageUrl.value, f.name.value, ParseIntent(f.intent.value).value, f.slug.value))
    else Invalid(issues)
  }
}
