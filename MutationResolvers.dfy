/**
 * The legacy mutation resolvers: add, update and delete written directly against the context's
 * list, each answering with a response envelope. Their failures are bare errors, so the error
 * handler turns every one of them into the internal-error envelope; each method also returns
 * the error its try block raised, so the order of the checks shows in its contract.
 */
module MutationResolvers {

  import opened Wrappers
  import opened Errors
  import Strings
  import Sequences
  import opened Tasks
  import opened TaskRepository

  const EmptyNameMessage := "O nome do item não pode ser vazio"
  const DuplicateNameMessage := "Já existe um item com esse nome"
  const NotFoundMessage := "Item não encontrado"
  const NotFoundForRemovalMessage := "Item não encontrado para remoção"

  /** `!name || !name.trim()`: the name is missing, or nothing is left of it after trimming. */
  predicate Blank(name: Option<string>) {
    name.None? || Strings.Trim(name.value) == ""
  }

  /** The envelope every failure of these resolvers gets: the internal error, detail withheld. */
  const InternalEnvelope := Envelope("error", InternalMessage, Some(InternalCode))

  /**
   * addItem: a blank name fails first; then a name whose trimmed, lowercased form equals a stored
   * name lowercased (stored names are not trimmed) fails; otherwise { id: newId, name: trim(name) }
   * is appended, with no completed field, and the success envelope returned. `thrown` is the
   * error the try block raised, the one its catch block hands to the handler; failures leave the
   * list alone.
   */
  method AddItem(store: TaskStore, name: Option<string>, newId: int) returns (env: Envelope, thrown: Option<Error>)
    modifies store
    ensures Blank(name) ==> thrown == Some(PlainError("O nome do item não pode ser vazio"))
    ensures !Blank(name) && NameTaken(old(store.tasks), name.value) ==>
              thrown == Some(PlainError("Já existe um item com esse nome"))
    ensures thrown.Some? ==> env == ErrorHandler(thrown.value) && store.tasks == old(store.tasks)
    ensures !Blank(name) && !NameTaken(old(store.tasks), name.value) ==>
              thrown == None
              && store.tasks == old(store.tasks) + [Task(newId, Strings.Trim(name.value), None)]
              && env == Envelope("success", "Item adicionado com sucesso!", None)
    ensures env.status == "error" ==> env == InternalEnvelope
  {
    if Blank(name) {
      thrown := Some(PlainError(EmptyNameMessage));
      env := ErrorHandler(thrown.value);
      return;
    }
    var taken := Sequences.Any(store.tasks, SameName(NameKey(name.value)));
    if taken {
      thrown := Some(PlainError(DuplicateNameMessage));
      env := ErrorHandler(thrown.value);
      return;
    }
    store.tasks := store.tasks + [Task(newId, Strings.Trim(name.value), None)];
    env, thrown := Envelope("success", "Item adicionado com sucesso!", None), None;
  }

  /**
   * updateItem: the name is checked before the id, so a blank name is the error raised even for
   * an absent id; an id no record carries (or no id) fails next; otherwise only the first record
   * with the id gets the trimmed name. Failures leave the list alone.
   */
  method UpdateItem(store: TaskStore, id: Option<int>, name: Option<string>) returns (env: Envelope, thrown: Option<Error>)
    modifies store
    ensures Blank(name) ==> thrown == Some(PlainError("O nome do item não pode ser vazio"))
    ensures !Blank(name) && !(id.Some? && HasId(old(store.tasks), id.value)) ==>
              thrown == Some(PlainError("Item não encontrado"))
    ensures thrown.Some? ==> env == ErrorHandler(thrown.value) && store.tasks == old(store.tasks)
    ensures !Blank(name) && id.Some? && HasId(old(store.tasks), id.value) ==>
              thrown == None
              && store.tasks == Renamed(old(store.tasks), id.value, Strings.Trim(name.value))
              && env == Envelope("success", "Item atualizado com sucesso!", None)
    ensures env.status == "error" ==> env == InternalEnvelope
  {
    if Blank(name) {
      thrown := Some(PlainError(EmptyNameMessage));
      env := ErrorHandler(thrown.value);
      return;
    }
    // `item.id === undefined` holds of no stored record
    var idx := if id.None? then -1 else Sequences.FindIndex(store.tasks, WithId(id.value));
    if idx == -1 {
      thrown := Some(PlainError(NotFoundMessage));
      env := ErrorHandler(thrown.value);
      return;
    }
    store.tasks := store.tasks[idx := store.tasks[idx].(name := Strings.Trim(name.value))];
    env, thrown := Envelope("success", "Item atualizado com sucesso!", None), None;
  }

  /**
   * deleteItem: the list is rebuilt in place from the records whose id differs, so every record
   * with the id goes and the rest keep their order. When nothing was removed the list holds what
   * it held before and the resolver fails.
   */
  method DeleteItem(store: TaskStore, id: int) returns (env: Envelope, thrown: Option<Error>)
    modifies store
    ensures store.tasks == Sequences.Filter(old(store.tasks), WithoutId(id))
    ensures !HasId(store.tasks, id)
    ensures !HasId(old(store.tasks), id) ==>
              store.tasks == old(store.tasks) && thrown == Some(PlainError("Item não encontrado para remoção"))
    ensures thrown.Some? ==> env == ErrorHandler(thrown.value)
    ensures HasId(old(store.tasks), id) ==>
              thrown == None && env == Envelope("success", "Item removido com sucesso!", None)
    ensures env.status == "error" ==> env == InternalEnvelope
  {
    var before := |store.tasks|;
    var filtered := Sequences.Filter(store.tasks, WithoutId(id));
    Sequences.FilterLength(store.tasks, WithoutId(id));
    if !HasId(store.tasks, id) {
      Sequences.FilterKeepsAll(store.tasks, WithoutId(id));
    }
    store.tasks := [];
    store.tasks := store.tasks + filtered;
    if |filtered| == before {
      thrown := Some(PlainError(NotFoundForRemovalMessage));
      env := ErrorHandler(thrown.value);
      return;
    }
    env, thrown := Envelope("success", "Item removido com sucesso!", None), None;
  }

  /** How a resolver call ends: with an envelope, or with an error escaping the resolver. */
  datatype Reply = Returned(env: Envelope) | Raised(error: Error)

  /**
   * The catch blocks as written: the name they call is bound to the error module's exports
   * object rather than to its errorHandler function, and calling an object raises a TypeError
   * inside the catch block, so the failure escapes the resolver instead of becoming an envelope.
   */
  function CatchAsWritten(err: Error): (r: Reply)
    ensures r.Raised? && !IsAppError(r.error)
  {
    Raised(PlainError("errorHandler is not a function"))
  }

  /** No failure of these resolvers reaches the client as the envelope the handler would build. */
  lemma CatchAsWrittenLosesEnvelope(err: Error)
    ensures CatchAsWritten(err) != Returned(ErrorHandler(err))
    ensures forall env :: CatchAsWritten(err) != Returned(env)
  {
  }

  /**
   * addItem as written: the same try block, with the catch block calling the exports object, so
   * every failure escapes as an error and only a success returns an envelope.
   */
  method AddItemAsWritten(store: TaskStore, name: Option<string>, newId: int) returns (r: Reply)
    modifies store
    ensures r.Raised? <==> Blank(name) || NameTaken(old(store.tasks), name.value)
    ensures r.Raised? ==> !IsAppError(r.error) && store.tasks == old(store.tasks)
    ensures r.Returned? ==>
              r.env == Envelope("success", "Item adicionado com sucesso!", None)
              && store.tasks == old(store.tasks) + [Task(newId, Strings.Trim(name.value), None)]
    ensures name == Some("") ==> r.Raised?
  {
    var env, thrown := AddItem(store, name, newId);
    r := if thrown.Some? then CatchAsWritten(thrown.value) else Returned(env);
  }

  /** A name made only of whitespace, the empty name included, is blank. */
  lemma WhitespaceNameIsBlank(n: string)
    ensures Blank(Some(n)) <==> Strings.AllWhitespace(n)
  {
    Strings.TrimOfWhitespace(n);
  }
}
