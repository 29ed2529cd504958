/** Shared vocabulary: optional values, the HTTP error outcomes the handlers
    raise, pydantic's "field was sent" distinction and the clock type. */
module Common {

  datatype Option<+T> = None | Some(value: T) {
    function GetOr(default: T): T {
      match this
      case Some(v) => v
      case None => default
    }
  }

  /** The status codes the core raises (FastAPI's HTTPException, pydantic's
      request validation, and an unhandled exception). */
  datatype Code = BadRequest | Unauthorized | NotFound | Unprocessable | ServerError

  function StatusOf(c: Code): (n: int)
    ensures 400 <= n < 600
  {
    match c
    case BadRequest => 400
    case Unauthorized => 401
    case NotFound => 404
    case Unprocessable => 422
    case ServerError => 500
  }

  datatype HttpError = HttpError(code: Code, detail: string)

  datatype Result<+T> = Ok(value: T) | Err(error: HttpError) {
    predicate IsFailure() { Err? }
    function PropagateFailure<U>(): Result<U>
      requires Err?
    {
      Err(error)
    }
    function Extract(): T
      requires Ok?
    {
      value
    }
  }

  /** A payload field: absent from the request body (not in pydantic's
      `model_fields_set`) or sent with a value (which may itself be null). */
  datatype Field<+T> = Unset | Set(value: T) {
    /** What a `$set` of this field leaves in a stored value `current`. */
    function Or(current: T): T {
      match this
      case Set(v) => v
      case Unset => current
    }
  }

  /** A reading of the wall clock (`utcnow`). */
  type Time = int

  /** Python truthiness of an optional boolean: null and a missing key are false. */
  predicate Truthy(b: Option<bool>) {
    b == Some(true)
  }
}
