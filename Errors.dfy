/**
 * The error taxonomy of the task API and the translation of a caught error into the response
 * envelope { status, message, code }.
 */
module Errors {

  import opened Wrappers

  const ValidationCode := "VALIDATION_ERROR"
  const DuplicateCode := "DUPLICATE_ERROR"
  const NotFoundCode := "NOT_FOUND_ERROR"
  const InternalCode := "INTERNAL_ERROR"
  const InternalMessage := "Ocorreu um erro interno no servidor"

  /**
   * A thrown error. AppError is the base class constructed directly with its own code; the three
   * subclasses fix their code; PlainError is any error that is not an AppError (a bare Error).
   */
  datatype Error =
    | AppError(message: string, code: string)
    | ValidationError(message: string)
    | DuplicateError(message: string)
    | NotFoundError(message: string)
    | PlainError(message: string)

  /** `err instanceof AppError` */
  predicate IsAppError(e: Error) {
    !e.PlainError?
  }

  /** The `code` field each AppError carries. */
  function Code(e: Error): string
    requires IsAppError(e)
  {
    match e
    case AppError(_, c) => c
    case ValidationError(_) => ValidationCode
    case DuplicateError(_) => DuplicateCode
    case NotFoundError(_) => NotFoundCode
  }

  /** The outcome of a check that either returns normally or throws. */
  datatype Outcome = Pass | Fail(error: Error)

  /** The outcome of an operation that either returns a value or throws. */
  datatype Result<+T> = Success(value: T) | Failure(error: Error)

  /** A mutation's response; `code` is absent on the legacy success responses. */
  datatype Envelope = Envelope(status: string, message: string, code: Option<string>)

  /**
   * errorHandler: every error becomes an "error" envelope. An AppError passes its message and
   * code through; anything else yields the fixed internal message and code, whatever it says.
   */
  function ErrorHandler(err: Error): (env: Envelope)
    ensures env.status == "error"
    ensures IsAppError(err) ==> env.message == err.message && env.code == Some(Code(err))
    ensures !IsAppError(err) ==> env == Envelope("error", InternalMessage, Some(InternalCode))
  {
    if IsAppError(err) then Envelope("error", err.message, Some(Code(err)))
    else Envelope("error", InternalMessage, Some(InternalCode))
  }

  /** The three subclasses carry the codes VALIDATION_ERROR, DUPLICATE_ERROR and NOT_FOUND_ERROR. */
  lemma SubclassCodes(m: string)
    ensures Code(ValidationError(m)) == "VALIDATION_ERROR"
    ensures Code(DuplicateError(m)) == "DUPLICATE_ERROR"
    ensures Code(NotFoundError(m)) == "NOT_FOUND_ERROR"
  {
  }

  /**
   * For the errors the API raises (the three subclasses and plain errors) the envelope's code
   * tells the kind of error apart, and it is never the code of another kind.
   */
  lemma CodeIdentifiesKind(e: Error)
    requires !e.AppError?
    ensures ErrorHandler(e).code == Some(ValidationCode) <==> e.ValidationError?
    ensures ErrorHandler(e).code == Some(DuplicateCode) <==> e.DuplicateError?
    ensures ErrorHandler(e).code == Some(NotFoundCode) <==> e.NotFoundError?
    ensures ErrorHandler(e).code == Some(InternalCode) <==> e.PlainError?
  {
  }

  /** Nothing of an unclassified error's content reaches its envelope. */
  lemma InternalHidesDetail(e1: Error, e2: Error)
    requires !IsAppError(e1) && !IsAppError(e2)
    ensures ErrorHandler(e1) == ErrorHandler(e2)
  {
  }
}
