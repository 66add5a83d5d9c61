/**
 * The rule table `store` validates against: title `required|string|min:1|max:255`
 * and content `required|string|min:1|max:5000`, evaluated as the framework's
 * validator does (no `bail`, size in characters, `required` failing on a
 * string that trims to nothing).
 */
module Validation {

  /** A request field as the validator sees it. */
  datatype Input = Absent | Text(text: string) | NonText

  datatype PostRequest = PostRequest(title: Input, content: Input)

  /** One entry of the exception's `errors()`: a field and the rules it failed. */
  datatype FieldError = FieldError(field: string, rules: seq<string>)

  const TitleMin: nat := 1
  const TitleMax: nat := 255
  const ContentMin: nat := 1
  const ContentMax: nat := 5000

  /** The characters PHP's `trim` strips by default. */
  predicate IsTrimmed(c: char)
  {
    c == ' ' || c == '\t' || c == '\n' || c == '\r' || c == '\0' || c == 11 as char
  }

  predicate IsBlank(s: string)
  {
    forall i :: 0 <= i < |s| ==> IsTrimmed(s[i])
  }

  /** The field passes every rule of `required|string|min:lo|max:hi`. */
  predicate Accepted(f: Input, lo: nat, hi: nat)
  {
    f.Text? && !IsBlank(f.text) && lo <= |f.text| <= hi
  }

  /**
   * The rules a field fails. An absent or blank field fails `required` only:
   * the other rules are not applied to an empty value.
   */
  function FailedRules(f: Input, lo: nat, hi: nat): (rules: seq<string>)
    ensures rules == [] <==> Accepted(f, lo, hi)
    ensures f.Absent? ==> rules == ["required"]
    ensures f.Text? && IsBlank(f.text) ==> rules == ["required"]
  {
    match f
    case Absent => ["required"]
    case NonText => ["string"]
    case Text(s) =>
      if IsBlank(s) then ["required"]
      else (if |s| < lo then ["min"] else []) + (if |s| > hi then ["max"] else [])
  }

  function FieldErrors(name: string, f: Input, lo: nat, hi: nat): seq<FieldError>
  {
    var rules := FailedRules(f, lo, hi);
    if rules == [] then [] else [FieldError(name, rules)]
  }

  /** The rules the request's field `name` fails, with that field's length bounds. */
  function RulesFor(req: PostRequest, name: string): seq<string>
  {
    if name == "title" then FailedRules(req.title, TitleMin, TitleMax)
    else if name == "content" then FailedRules(req.content, ContentMin, ContentMax)
    else []
  }

  /**
   * The validator's verdict on a `store` request: no errors means it passes.
   * There is one entry per failing field, title first, listing exactly the
   * rules that field fails.
   */
  function ValidationErrors(req: PostRequest): (errors: seq<FieldError>)
    ensures errors == [] <==> Accepted(req.title, TitleMin, TitleMax) && Accepted(req.content, ContentMin, ContentMax)
    ensures forall i :: 0 <= i < |errors| ==>
      errors[i].field in {"title", "content"} && errors[i].rules != [] && errors[i].rules == RulesFor(req, errors[i].field)
    ensures RulesFor(req, "title") != [] <==> exists i :: 0 <= i < |errors| && errors[i].field == "title"
    ensures RulesFor(req, "content") != [] <==> exists i :: 0 <= i < |errors| && errors[i].field == "content"
    ensures forall i, j :: 0 <= i < j < |errors| ==> errors[i].field == "title" && errors[j].field == "content"
  {
    var t := FieldErrors("title", req.title, TitleMin, TitleMax);
    var c := FieldErrors("content", req.content, ContentMin, ContentMax);
    assert RulesFor(req, "title") != [] ==> (t + c)[0].field == "title";
    assert RulesFor(req, "content") != [] ==> (t + c)[|t|].field == "content";
    t + c
  }

  /** A request the validator passes has a title of 1..255 and a content of 1..5000 characters. */
  lemma AcceptedBounds(req: PostRequest)
    requires ValidationErrors(req) == []
    ensures req.title.Text? && 1 <= |req.title.text| <= 255
    ensures req.content.Text? && 1 <= |req.content.text| <= 5000
  {
  }

  /** An empty title and an empty content both fail `required`. */
  lemma EmptyFieldsRejected()
    ensures ValidationErrors(PostRequest(Text(""), Text("")))
      == [FieldError("title", ["required"]), FieldError("content", ["required"])]
  {
  }
}
