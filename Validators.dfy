/**
 * The checks that guard the store: the name-length rule, duplicate-name detection and
 * existence by id. Each reads the list it is given and either passes or names the error thrown.
 */
module Validators {

  import opened Wrappers
  import opened Errors
  import Strings
  import Sequences
  import opened Tasks

  const MinNameLength := 3
  const MaxNameLength := 100
  const NameLengthMessage := "Nome da tarefa deve ter entre 3 e 100 caracteres"
  const DuplicateMessage := "Já existe um item com esse nome"
  const NotFoundMessage := "Item não encontrado"

  /** The rule `string().min(3).max(100).required()`: present, and 3 to 100 characters long. */
  predicate NameLengthOk(name: Option<string>) {
    name.Some? && MinNameLength <= |name.value| <= MaxNameLength
  }

  /**
   * validateTaskName: passes exactly for a present name of length 3 to 100 (no trimming);
   * otherwise a validation error with the fixed message.
   */
  function ValidateTaskName(name: Option<string>): (r: Outcome)
    ensures r.Pass? <==> name.Some? && 3 <= |name.value| <= 100
    ensures r.Fail? ==> r.error == ValidationError("Nome da tarefa deve ter entre 3 e 100 caracteres")
  {
    if NameLengthOk(name) then Pass else Fail(ValidationError(NameLengthMessage))
  }

  /**
   * validateTaskExists: a duplicate error exactly when some stored name, lowercased, equals the
   * candidate trimmed and lowercased; otherwise the check passes.
   */
  function ValidateTaskExists(name: string, list: seq<Task>): (r: Outcome)
    ensures r.Fail? <==> exists i :: 0 <= i < |list| && Strings.Lower(list[i].name) == Strings.Lower(Strings.Trim(name))
    ensures r.Fail? ==> r.error == DuplicateError("Já existe um item com esse nome")
  {
    if NameTaken(list, name) then Fail(DuplicateError(DuplicateMessage)) else Pass
  }

  /** validateItemFound: a not-found error exactly when no record carries the id. */
  function ValidateItemFound(id: int, list: seq<Task>): (r: Outcome)
    ensures r.Fail? <==> forall i :: 0 <= i < |list| ==> list[i].id != id
    ensures r.Fail? ==> r.error == NotFoundError("Item não encontrado")
    ensures r.Pass? <==> HasId(list, id)
  {
    if Sequences.Find(list, WithId(id)).None? then Fail(NotFoundError(NotFoundMessage)) else Pass
  }

  /** The length rule at its edges: 3 and 100 characters pass, 2 and 101 do not. */
  lemma NameLengthBoundaries()
    ensures ValidateTaskName(Some(seq(3, _ => 'a'))).Pass?
    ensures ValidateTaskName(Some(seq(100, _ => 'a'))).Pass?
    ensures ValidateTaskName(Some(seq(2, _ => 'a'))).Fail?
    ensures ValidateTaskName(Some(seq(101, _ => 'a'))).Fail?
    ensures ValidateTaskName(None).Fail?
  {
  }

  /** A blank name of three spaces passes the length rule: it does not trim. */
  lemma BlankNameHasLength()
    ensures ValidateTaskName(Some("   ")).Pass?
  {
  }
}
