/** Vocabulary shared by every handler of the backend: document identifiers,
    optional values, validator messages, thrown errors and handler results. */
module Common {

  /** Document identifiers. MongoDB ObjectIds are modelled as naturals handed
      out by the store in creation order; `toString()` on an id is the id itself,
      so comparing a creator with `req.userId` compares canonical values. */
  type UserId = nat
  type PostId = nat

  datatype Option<T> = None | Some(value: T)

  /** One entry of express-validator's error list: the field and its message. */
  datatype FieldError = FieldError(param: string, msg: string)

  /** An `Error` as the handlers throw it. `statusCode` and `data` are plain
      properties that may be left unset. */
  datatype AppError = AppError(statusCode: Option<int>, message: string, data: Option<seq<FieldError>>)

  /** How a handler ends: a JSON response with its status, or an error handed to
      Express (`next(err)` or a throw). */
  datatype Result<T> = Ok(status: int, value: T) | Err(error: AppError)

  /** An error with a status code and no `data`, the shape most handlers throw. */
  function Fail<T>(code: int, message: string): Result<T>
  {
    Err(AppError(Some(code), message, None))
  }

  function Min(a: int, b: int): int { if a <= b then a else b }
}
