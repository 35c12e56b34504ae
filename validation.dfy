/**
 * The acceptance rules the form schemas are built from, as zod applies
 * them: every field of an object schema is checked, each failing field
 * contributes one issue (its path and message) in the order of the
 * schema's keys, and the object parses only when there is no issue.
 */
module Validation {
  import opened Wrappers

  datatype PathKey = Field(name: string) | Index(i: nat)

  datatype Issue = Issue(path: seq<PathKey>, message: string)

  datatype Parsed<T> = Ok(value: T) | Invalid(issues: seq<Issue>)

  /** The message of a required value that is missing. */
  const RequiredMessage: string := "Required"

  datatype Intent = Create | Update

  /** `z.enum(['create', 'update'])` on a present value. */
  function ParseIntent(s: string): (r: Option<Intent>)
    ensures r == Some(Create) <==> s == "create"
    ensures r == Some(Update) <==> s == "update"
  {
    if s == "create" then Some(Create)
    else if s == "update" then Some(Update)
    else None
  }

  function IntentName(i: Intent): string
  {
    match i
    case Create => "create"
    case Update => "update"
  }

  lemma IntentRoundTrip(i: Intent, s: string)
    ensures ParseIntent(IntentName(i)) == Some(i)
    ensures ParseIntent(s) == Some(i) ==> s == IntentName(i)
  {
  }

  /** A file chosen in a form. */
  datatype File = File(name: string)

  /**
   * The value of a file input: its files, in order, and whether the value
   * is a browser `FileList` (an `instanceof` test the model does not interpret).
   */
  datatype FileInput = FileInput(isFileList: bool, files: seq<File>)

  /** The single issue of a field that fails a rule, or none. */
  function Check(field: string, ok: bool, message: string): (issues: seq<Issue>)
    ensures issues == [] <==> ok
    ensures !ok ==> issues == [Issue([Field(field)], message)]
  {
    if ok then [] else [Issue([Field(field)], message)]
  }

  /** `z.string().min(n, { message })`: a missing value is reported as required. */
  function MinLength(field: string, value: Option<string>, n: nat, message: string): (issues: seq<Issue>)
    ensures issues == [] <==> value.Some? && |value.value| >= n
    ensures value.None? ==> issues == [Issue([Field(field)], RequiredMessage)]
    ensures value.Some? && |value.value| < n ==> issues == [Issue([Field(field)], message)]
  {
    match value
    case None => Check(field, false, RequiredMessage)
    case Some(s) => Check(field, |s| >= n, message)
  }

  /** `z.number().positive({ message })`: a missing value is reported as required. */
  function Positive(field: string, value: Option<int>, message: string): (issues: seq<Issue>)
    ensures issues == [] <==> value.Some? && value.value > 0
    ensures value.None? ==> issues == [Issue([Field(field)], RequiredMessage)]
    ensures value.Some? && value.value <= 0 ==> issues == [Issue([Field(field)], message)]
  {
    match value
    case None => Check(field, false, RequiredMessage)
    case Some(x) => Check(field, x > 0, message)
  }

  /**
   * `z.enum(['create', 'update'], { message })`, optional or not. With a
   * custom message, zod reports a missing required value with that message too.
   */
  function IntentField(field: string, value: Option<string>, optional: bool, message: string): (issues: seq<Issue>)
    ensures issues == [] <==> if value.None? then optional else ParseIntent(value.value).Some?
    ensures issues != [] ==> issues == [Issue([Field(field)], message)]
  {
    match value
    case None => Check(field, optional, message)
    case Some(s) => Check(field, ParseIntent(s).Some?, message)
  }

  function ParsedIntent(value: Option<string>): Option<Intent>
  {
    match value
    case None => None
    case Some(s) => ParseIntent(s)
  }

  /** `z.array(z.string().url({ message }))` on the present array, from position `from` on. */
  function UrlElements(field: string, urls: seq<string>, isUrl: string -> bool, message: string, from: nat): (issues: seq<Issue>)
    ensures issues == [] <==> forall k :: 0 <= k < |urls| ==> isUrl(urls[k])
    ensures forall j :: 0 <= j < |issues| ==> |issues[j].path| == 2 && issues[j].message == message
    ensures forall k: nat :: Issue([Field(field), Index(k)], message) in issues <==>
      from <= k < from + |urls| && !isUrl(urls[k - from])
    decreases |urls|
  {
    if urls == [] then []
    else
      (if isUrl(urls[0]) then [] else [Issue([Field(field), Index(from)], message)])
      + UrlElements(field, urls[1..], isUrl, message, from + 1)
  }
}
