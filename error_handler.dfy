/** `Handler::render`: how an exception thrown by an action becomes a JSON response. */
module ErrorHandler {
  import opened Validation

  /** The exception kinds `render` tells apart. */
  datatype Exception =
    | ValidationException(errors: seq<FieldError>)
    | AuthenticationException
    | HttpException(statusCode: int, message: string)
    | GenericException(className: string, message: string)

  /** The JSON bodies `render` builds. */
  datatype ErrorBody =
    | WithDetails(error: string, details: seq<FieldError>)
    | Message(error: string)
    | WithType(error: string, typeName: string)

  datatype ErrorResponse = ErrorResponse(status: int, body: ErrorBody)

  const ValidationStatus: int := 422
  const UnauthorizedStatus: int := 401
  const ServerErrorStatus: int := 500

  /** The strings PHP's `?:` treats as false. */
  predicate Falsy(s: string)
  {
    s == "" || s == "0"
  }

  /** `class_basename`: what follows the last namespace separator. */
  function ClassBasename(name: string): (b: string)
    ensures '\\' !in b
    ensures |b| <= |name| && name[|name| - |b|..] == b
    ensures |b| < |name| ==> name[|name| - |b| - 1] == '\\'
  {
    if name == [] || name[|name| - 1] == '\\' then []
    else ClassBasename(name[..|name| - 1]) + [name[|name| - 1]]
  }

  lemma {:induction false} BasenameOfQualified(namespace: string, base: string)
    requires '\\' !in base
    ensures ClassBasename(namespace + "\\" + base) == base
  {
    var name := namespace + "\\" + base;
    if base != [] {
      var shorter := base[..|base| - 1];
      assert name[..|name| - 1] == namespace + "\\" + shorter;
      BasenameOfQualified(namespace, shorter);
    } else {
      assert name[|name| - 1] == '\\';
    }
  }

  /**
   * The kinds are tried in order: validation, authentication, HTTP, anything
   * else; the first that matches builds the one response.
   */
  function Render(e: Exception): (r: ErrorResponse)
    ensures r.status in {ValidationStatus, UnauthorizedStatus, ServerErrorStatus}
         || (e.HttpException? && r.status == e.statusCode)
    ensures r.body.WithDetails? <==> e.ValidationException?
    ensures r.body.WithType? <==> e.GenericException?
    ensures !e.GenericException? ==> r.body.error != ""
  {
    match e
    case ValidationException(errors) =>
      ErrorResponse(ValidationStatus, WithDetails("Validation failed", errors))
    case AuthenticationException =>
      ErrorResponse(UnauthorizedStatus, Message("Unauthorized"))
    case HttpException(code, msg) =>
      ErrorResponse(code, Message(if Falsy(msg) then "HTTP Error" else msg))
    case GenericException(className, msg) =>
      ErrorResponse(ServerErrorStatus, WithType(msg, ClassBasename(className)))
  }

  /** What each branch answers. */
  lemma RenderByKind(e: Exception)
    ensures e.ValidationException? ==>
      Render(e) == ErrorResponse(422, WithDetails("Validation failed", e.errors))
    ensures e.AuthenticationException? ==>
      Render(e) == ErrorResponse(401, Message("Unauthorized"))
    ensures e.HttpException? ==>
      Render(e).status == e.statusCode
      && Render(e).body == Message(if e.message == "" || e.message == "0" then "HTTP Error" else e.message)
    ensures e.GenericException? ==>
      Render(e).status == 500 && Render(e).body.error == e.message
      && Render(e).body.typeName == ClassBasename(e.className)
  {
  }
}
