/** The application's error classes (utils/error.js) and how the
    controllers' `catch` blocks turn anything thrown into a reply. */
module Errors {
  import opened Common

  /** The three exported classes. Each stores its constructor message
      unchanged and fixes its `name` and `statusCode`. There is no
      `ForbiddenError` among them. */
  datatype AppError =
    | NotFoundError(message: string)
    | ConflictError(message: string)
    | UnauthorizedError(message: string)
  {
    function Name(): string
    {
      match this
      case NotFoundError(_) => "NotFoundError"
      case ConflictError(_) => "ConflictError"
      case UnauthorizedError(_) => "UnauthorizedError"
    }

    function StatusCode(): int
    {
      match this
      case NotFoundError(_) => 404
      case ConflictError(_) => 409
      case UnauthorizedError(_) => 403
    }
  }

  /** Anything a handler's `try` block can throw: one of the application's
      errors, or an error raised by the runtime or a library, none of which
      carries a `statusCode`. */
  datatype Thrown =
    | App(error: AppError)
    | RuntimeTypeError(text: string)
    | RuntimeReferenceError(text: string)
    | Validation(model: string, paths: seq<Path>)

  /** `req.user._id` when the authentication middleware found no record. */
  const NullUser: Thrown := RuntimeTypeError("Cannot read properties of null (reading '_id')")

  /** `new ConflictError(...)` in a file that never imported it. */
  const ConflictErrorNotImported: Thrown := RuntimeReferenceError("ConflictError is not defined")

  /** `new ForbiddenError(...)` where the import gave `undefined`. */
  const ForbiddenErrorNotExported: Thrown := RuntimeTypeError("ForbiddenError is not a constructor")

  function MessageOf(t: Thrown): Message
  {
    match t
    case App(e) => Text(e.message)
    case RuntimeTypeError(m) => Text(m)
    case RuntimeReferenceError(m) => Text(m)
    case Validation(model, paths) => SchemaRejected(model, paths)
  }

  /** `res.status(error.statusCode || 500).json({ message: error.message })`. */
  function Caught<T>(t: Thrown): (r: Reply<T>)
    ensures r.Err?
    ensures r.message == MessageOf(t)
    ensures t.App? ==> r.status == t.error.StatusCode()
    ensures !t.App? ==> r.status == 500
  {
    Err(if t.App? then t.error.StatusCode() else 500, MessageOf(t))
  }

  /** The fixed names and status codes; note 403, not 401, for
      `UnauthorizedError`. */
  lemma ClassConstants(m: string)
    ensures NotFoundError(m).Name() == "NotFoundError" && NotFoundError(m).StatusCode() == 404
    ensures ConflictError(m).Name() == "ConflictError" && ConflictError(m).StatusCode() == 409
    ensures UnauthorizedError(m).Name() == "UnauthorizedError" && UnauthorizedError(m).StatusCode() == 403
    ensures NotFoundError(m).message == m && ConflictError(m).message == m && UnauthorizedError(m).message == m
  {
  }

  /** A caught application error becomes a reply whose status is the class's
      code and whose message is the constructor's argument, unchanged. */
  lemma CaughtAppError<T>(e: AppError)
    ensures Caught<T>(App(e)) == Err(e.StatusCode(), Text(e.message))
    ensures Caught<T>(App(e)).status in {403, 404, 409}
  {
  }
}
