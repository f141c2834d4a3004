/** The Express error handler of middleware/errorMiddleware.js: it starts
    from the error's own message and status, then runs a fixed sequence of
    `if` statements, each of which may overwrite them; the last one that
    applies wins. */
module ErrorMiddleware {
  import opened Common

  /** Which of the imported classes the error is an instance of. */
  datatype ErrorClass = NotFoundClass | ForbiddenClass | UnauthorizedClass | ConflictClass | OtherClass

  /** The parts of `err` the handler looks at. `message` and `statusCode`
      are `None` when absent; `fieldMessages` are the messages of
      `err.errors` in insertion order (used for a ValidationError). */
  datatype ErrorInput = ErrorInput(
    cls: ErrorClass,
    name: string,
    message: Option<string>,
    statusCode: Option<int>,
    code: Option<int>,
    fieldMessages: seq<string>)

  datatype ErrorResponse = ErrorResponse(status: int, success: bool, message: string)

  /** `err.message || 'Internal Server Error'`. */
  function DefaultMessage(err: ErrorInput): string
  {
    if err.message.Some? && err.message.value != "" then err.message.value else "Internal Server Error"
  }

  /** `err.statusCode || 500`. */
  function DefaultStatus(err: ErrorInput): int
  {
    if err.statusCode.Some? && err.statusCode.value != 0 then err.statusCode.value else 500
  }

  predicate IsJwtFailure(name: string)
  {
    name == "JsonWebTokenError" || name == "TokenExpiredError"
  }

  /** The reply read off by priority, highest first: the rule the handler
      runs last is the one checked first here. Only one name rule can apply
      to an error, and the duplicate-key code yields to every name rule but
      ValidationError. */
  function ExpectedStatus(err: ErrorInput): int
  {
    if IsJwtFailure(err.name) then 401
    else if err.name == "CastError" then 404
    else if err.code == Some(11000) then 409
    else if err.name == "ValidationError" then 400
    else match err.cls
      case NotFoundClass => 404
      case ForbiddenClass => 403
      case UnauthorizedClass => 401
      case ConflictClass => 409
      case OtherClass => DefaultStatus(err)
  }

  function ExpectedMessage(err: ErrorInput): string
  {
    if err.name == "TokenExpiredError" then "Token expired"
    else if err.name == "JsonWebTokenError" then "Invalid token"
    else if err.name == "CastError" then "Resource not found"
    else if err.code == Some(11000) then "Duplicate field value entered"
    else if err.name == "ValidationError" then Join(err.fieldMessages, ". ")
    else DefaultMessage(err)
  }

  /** The handler as written: a local error record overwritten step by
      step. Its reply is the priority reading above, and `success` is
      always false. */
  method HandleError(err: ErrorInput) returns (res: ErrorResponse)
    ensures res.success == false
    ensures res.status == ExpectedStatus(err)
    ensures res.message == ExpectedMessage(err)
  {
    var message := DefaultMessage(err);
    var statusCode := DefaultStatus(err);

    if err.cls == NotFoundClass {
      statusCode := 404;
    } else if err.cls == ForbiddenClass {
      statusCode := 403;
    } else if err.cls == UnauthorizedClass {
      statusCode := 401;
    } else if err.cls == ConflictClass {
      statusCode := 409;
    }

    if err.name == "ValidationError" {
      statusCode := 400;
      message := Join(err.fieldMessages, ". ");
    }

    if err.code == Some(11000) {
      statusCode := 409;
      message := "Duplicate field value entered";
    }

    if err.name == "CastError" {
      statusCode := 404;
      message := "Resource not found";
    }

    if err.name == "JsonWebTokenError" {
      statusCode := 401;
      message := "Invalid token";
    }
    if err.name == "TokenExpiredError" {
      statusCode := 401;
      message := "Token expired";
    }

    res := ErrorResponse(statusCode, false, message);
  }

  /** An error that matches no name or code rule keeps its own message (or
      the default), and its status comes from its class, or from its own
      `statusCode` (default 500) when it is of none of the four classes. */
  lemma PlainErrors(err: ErrorInput)
    requires !IsJwtFailure(err.name) && err.name != "CastError" && err.name != "ValidationError"
    requires err.code != Some(11000)
    ensures ExpectedMessage(err) == (if err.message.Some? && err.message.value != "" then err.message.value else "Internal Server Error")
    ensures err.cls == NotFoundClass ==> ExpectedStatus(err) == 404
    ensures err.cls == ForbiddenClass ==> ExpectedStatus(err) == 403
    ensures err.cls == UnauthorizedClass ==> ExpectedStatus(err) == 401
    ensures err.cls == ConflictClass ==> ExpectedStatus(err) == 409
    ensures err.cls == OtherClass ==> ExpectedStatus(err) == (if err.statusCode.Some? && err.statusCode.value != 0 then err.statusCode.value else 500)
  {
  }

  /** The name rules run after the class rules and override them: a JWT
      failure is 401 and a CastError 404 whatever class the error is. */
  lemma NameRulesOverrideClass(err: ErrorInput, cls: ErrorClass)
    ensures IsJwtFailure(err.name) ==> ExpectedStatus(err.(cls := cls)) == 401
    ensures err.name == "CastError" ==> ExpectedStatus(err.(cls := cls)) == 404 && ExpectedMessage(err.(cls := cls)) == "Resource not found"
    ensures err.name == "JsonWebTokenError" ==> ExpectedMessage(err) == "Invalid token"
    ensures err.name == "TokenExpiredError" ==> ExpectedMessage(err) == "Token expired"
  {
  }

  /** A ValidationError replies 400 with the field messages joined by
      ". ", unless it also carries the duplicate-key code, which runs later
      and turns it into 409 'Duplicate field value entered'. */
  lemma ValidationAndDuplicateKey(err: ErrorInput)
    requires err.name == "ValidationError"
    ensures err.code != Some(11000) ==> ExpectedStatus(err) == 400 && ExpectedMessage(err) == Join(err.fieldMessages, ". ")
    ensures err.code == Some(11000) ==> ExpectedStatus(err) == 409 && ExpectedMessage(err) == "Duplicate field value entered"
  {
  }

  /** An UnauthorizedError from utils/error.js carries statusCode 403, but
      the class rule rewrites it to 401. */
  lemma UnauthorizedClassIs401(message: string)
    ensures ExpectedStatus(ErrorInput(UnauthorizedClass, "UnauthorizedError", Some(message), Some(403), None, [])) == 401
  {
  }

  /** Joining field messages: one message is kept as it is, and each
      further message is added after the separator. */
  lemma {:induction false} JoinFieldMessages(ms: seq<string>, m: string, sep: string)
    ensures Join([m], sep) == m
    ensures ms != [] ==> Join(ms + [m], sep) == Join(ms, sep) + sep + m
    decreases |ms|
  {
    if |ms| > 1 {
      assert (ms + [m])[1..] == ms[1..] + [m];
      JoinFieldMessages(ms[1..], m, sep);
    }
  }
}
