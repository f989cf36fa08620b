/**
 * The input rules of the add, update, delete and complete requests: a name of 3 to 100
 * characters, an id that is a safe integer of at least 1, and the message each violation
 * reports. The input object itself may be absent, which every schema accepts.
 */
module Schemas {

  import opened Wrappers
  import opened Errors

  // A field is None when its key is missing from the request, and so is the input object. A key set to null is not a
  // missing key for these rules (it fails their type check instead) and is not modelled.

  /** The `values` of an add request. */
  datatype AddTaskInput = AddTaskInput(name: Option<string>)

  /** The `values` of an update request. */
  datatype UpdateTaskInput = UpdateTaskInput(id: Option<int>, name: Option<string>)

  /** The argument of a delete or complete request. */
  datatype IdInput = IdInput(id: Option<int>)

  const NameRequiredMessage := "O nome é obrigatório"
  const NameEmptyMessage := "O nome não pode ficar em branco"
  const NameTooShortMessage := "O nome deve ter pelo menos 3 caracteres"
  const NameTooLongMessage := "O nome deve ter no máximo 100 caracteres"
  const IdRequiredMessage := "O ID é obrigatório"
  const IdTooSmallMessage := "O ID deve ser maior ou igual a 1"

  /** The message of the first name rule violated (required, not empty, min 3, max 100), if any. */
  function NameError(name: Option<string>): Option<string> {
    match name
    case None => Some(NameRequiredMessage)
    case Some(n) =>
      if n == "" then Some(NameEmptyMessage)
      else if |n| < 3 then Some(NameTooShortMessage)
      else if |n| > 100 then Some(NameTooLongMessage)
      else None
  }

  /** The largest integer a JavaScript number holds exactly, Number.MAX_SAFE_INTEGER. */
  const MaxSafeInteger := 0x1F_FFFF_FFFF_FFFF

  /** Joi's own message for a number outside the safe range; the schemas give none of their own. */
  const IdUnsafeMessage := "\"id\" must be a safe number"

  /**
   * The message of the first id rule violated, if any: required; then the number type's own
   * check that the value is a safe integer, which runs before the rules; then min 1.
   */
  function IdError(id: Option<int>): Option<string> {
    match id
    case None => Some(IdRequiredMessage)
    case Some(v) =>
      if v < -MaxSafeInteger || v > MaxSafeInteger then Some(IdUnsafeMessage)
      else if v < 1 then Some(IdTooSmallMessage)
      else None
  }

  /** The validation error a schema reports for its first violated rule. */
  function Report(message: Option<string>): Outcome {
    match message
    case None => Pass
    case Some(m) => Fail(ValidationError(m))
  }

  /** The id rule `number().integer().min(1).required()`: present, safe and at least 1. */
  predicate IdOk(id: Option<int>) {
    id.Some? && 1 <= id.value <= MaxSafeInteger
  }

  /**
   * validateAddTaskInput: passes exactly for an absent input (the object schema is optional)
   * or one whose name is present with 3 to 100 characters.
   */
  function ValidateAddTaskInput(input: Option<AddTaskInput>): (r: Outcome)
    ensures r.Pass? <==> input.None? || (input.value.name.Some? && 3 <= |input.value.name.value| <= 100)
    ensures r.Fail? ==> r.error.ValidationError?
  {
    match input
    case None => Pass
    case Some(i) => Report(NameError(i.name))
  }

  /**
   * validateUpdateTaskInput: passes exactly for an absent input, or when the id is a safe
   * integer of at least 1 and the name is 3 to 100 characters; the id is checked first, so a
   * bad id is the error reported even when the name is bad too.
   */
  function ValidateUpdateTaskInput(input: Option<UpdateTaskInput>): (r: Outcome)
    ensures r.Pass? <==> input.None? || (IdOk(input.value.id)
                         && input.value.name.Some? && 3 <= |input.value.name.value| <= 100)
    ensures r.Fail? ==> r.error.ValidationError?
    ensures input.Some? && input.value.id.None? ==> r == Fail(ValidationError("O ID é obrigatório"))
    ensures input.Some? && input.value.id.Some? && -MaxSafeInteger <= input.value.id.value < 1 ==>
              r == Fail(ValidationError("O ID deve ser maior ou igual a 1"))
    ensures input.Some? && input.value.id.Some? && !(-MaxSafeInteger <= input.value.id.value <= MaxSafeInteger) ==>
              r == Fail(ValidationError("\"id\" must be a safe number"))
  {
    match input
    case None => Pass
    case Some(i) => if IdError(i.id).Some? then Report(IdError(i.id)) else Report(NameError(i.name))
  }

  /** validateDeleteTaskInput: passes exactly for an absent input or a safe id of at least 1. */
  function ValidateDeleteTaskInput(input: Option<IdInput>): (r: Outcome)
    ensures r.Pass? <==> input.None? || IdOk(input.value.id)
    ensures r.Fail? ==> r.error.ValidationError?
  {
    match input
    case None => Pass
    case Some(i) => Report(IdError(i.id))
  }

  /** validateCompleteTaskInput: passes exactly for an absent input or a safe id of at least 1. */
  function ValidateCompleteTaskInput(input: Option<IdInput>): (r: Outcome)
    ensures r.Pass? <==> input.None? || IdOk(input.value.id)
    ensures r.Fail? ==> r.error.ValidationError?
  {
    match input
    case None => Pass
    case Some(i) => Report(IdError(i.id))
  }

  /** A name of one or two characters is reported as too short, with the limit in the message. */
  lemma ShortNameMessage(n: string)
    requires 1 <= |n| < 3
    ensures ValidateAddTaskInput(Some(AddTaskInput(Some(n)))) == Fail(ValidationError("O nome deve ter pelo menos 3 caracteres"))
    ensures ErrorHandler(ValidateAddTaskInput(Some(AddTaskInput(Some(n)))).error).code == Some("VALIDATION_ERROR")
  {
  }

  /** The other name and id messages: missing, empty and too long, each for the first rule it breaks. */
  lemma FieldMessages(n: string)
    requires |n| > 100
    ensures ValidateAddTaskInput(Some(AddTaskInput(None))) == Fail(ValidationError("O nome é obrigatório"))
    ensures ValidateAddTaskInput(Some(AddTaskInput(Some("")))) == Fail(ValidationError("O nome não pode ficar em branco"))
    ensures ValidateAddTaskInput(Some(AddTaskInput(Some(n)))) == Fail(ValidationError("O nome deve ter no máximo 100 caracteres"))
    ensures ValidateDeleteTaskInput(Some(IdInput(None))) == Fail(ValidationError("O ID é obrigatório"))
    ensures ValidateCompleteTaskInput(Some(IdInput(None))) == Fail(ValidationError("O ID é obrigatório"))
    ensures ValidateUpdateTaskInput(Some(UpdateTaskInput(Some(1), Some(n)))) == Fail(ValidationError("O nome deve ter no máximo 100 caracteres"))
  {
  }

  /** An id below 1, within the safe range, is reported as such by the three id-carrying checks. */
  lemma SmallIdMessage(id: int, name: Option<string>)
    requires -MaxSafeInteger <= id < 1
    ensures ValidateDeleteTaskInput(Some(IdInput(Some(id)))) == Fail(ValidationError("O ID deve ser maior ou igual a 1"))
    ensures ValidateCompleteTaskInput(Some(IdInput(Some(id)))) == Fail(ValidationError("O ID deve ser maior ou igual a 1"))
    ensures ValidateUpdateTaskInput(Some(UpdateTaskInput(Some(id), name))) == Fail(ValidationError("O ID deve ser maior ou igual a 1"))
  {
  }

  /** An id outside the safe range fails the number type's own check, before min 1 is looked at. */
  lemma UnsafeIdMessage(id: int, name: Option<string>)
    requires id < -MaxSafeInteger || id > MaxSafeInteger
    ensures ValidateDeleteTaskInput(Some(IdInput(Some(id)))) == Fail(ValidationError("\"id\" must be a safe number"))
    ensures ValidateCompleteTaskInput(Some(IdInput(Some(id)))) == Fail(ValidationError("\"id\" must be a safe number"))
    ensures ValidateUpdateTaskInput(Some(UpdateTaskInput(Some(id), name))) == Fail(ValidationError("\"id\" must be a safe number"))
    ensures ValidateDeleteTaskInput(Some(IdInput(Some(0x20_0000_0000_0000)))).Fail?
  {
  }

  /** The update rule needs both parts: a good id with a bad name fails, and so does the reverse. */
  lemma UpdateNeedsBoth(id: int, n: string)
    requires 1 <= id <= MaxSafeInteger && 3 <= |n| <= 100
    ensures ValidateUpdateTaskInput(Some(UpdateTaskInput(Some(id), Some(n)))).Pass?
    ensures ValidateUpdateTaskInput(Some(UpdateTaskInput(Some(id), Some(n[..2])))).Fail?
    ensures ValidateUpdateTaskInput(Some(UpdateTaskInput(Some(0), Some(n)))).Fail?
    ensures ValidateUpdateTaskInput(Some(UpdateTaskInput(None, Some(n)))).Fail?
  {
  }

  /** An absent input object passes all four checks: none of the object schemas is required. */
  lemma AbsentInputPasses()
    ensures ValidateAddTaskInput(None).Pass? && ValidateUpdateTaskInput(None).Pass?
    ensures ValidateDeleteTaskInput(None).Pass? && ValidateCompleteTaskInput(None).Pass?
  {
  }

  /** Every failure of the four checks is a validation error, whatever the input. */
  lemma FailuresAreValidation(a: Option<AddTaskInput>, u: Option<UpdateTaskInput>, d: Option<IdInput>)
    ensures ValidateAddTaskInput(a).Fail? ==> ErrorHandler(ValidateAddTaskInput(a).error).code == Some(ValidationCode)
    ensures ValidateUpdateTaskInput(u).Fail? ==> ErrorHandler(ValidateUpdateTaskInput(u).error).code == Some(ValidationCode)
    ensures ValidateDeleteTaskInput(d).Fail? ==> ErrorHandler(ValidateDeleteTaskInput(d).error).code == Some(ValidationCode)
    ensures ValidateCompleteTaskInput(d).Fail? ==> ErrorHandler(ValidateCompleteTaskInput(d).error).code == Some(ValidationCode)
  {
  }
}
