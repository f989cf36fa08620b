/**
 * The task store: one explicitly owned, ordered list of task records, with the repository's
 * lookups as functions of it and its mutators as methods that update it in place.
 */
module TaskRepository {

  import opened Wrappers
  import opened Errors
  import Strings
  import Sequences
  import opened Tasks
  import Validators

  class TaskStore {

    /** The list of records, in insertion order adjusted by deletions. */
    var tasks: seq<Task>

    constructor (initial: seq<Task>)
      ensures tasks == initial
    {
      tasks := initial;
    }

    /** validateTaskExists over the store: a duplicate error exactly when the name is taken. */
    function ValidateTaskExists(name: string): (r: Outcome)
      reads this
      ensures r.Fail? <==> exists i :: 0 <= i < |tasks| && Strings.Lower(tasks[i].name) == Strings.Lower(Strings.Trim(name))
      ensures r.Fail? ==> r.error == DuplicateError("Já existe um item com esse nome")
    {
      Validators.ValidateTaskExists(name, tasks)
    }

    /** validateItemFound over the store: a not-found error exactly when no record has the id. */
    function ValidateItemFound(id: int): (r: Outcome)
      reads this
      ensures r.Fail? <==> forall i :: 0 <= i < |tasks| ==> tasks[i].id != id
      ensures r.Fail? ==> r.error == NotFoundError("Item não encontrado")
    {
      Validators.ValidateItemFound(id, tasks)
    }

    /**
     * addTask: appends { id: newId, name: trim(name), completed: false } and returns it; the
     * earlier records stay as they were. `newId` is the value the injected generator returned.
     */
    method AddTask(name: string, newId: int) returns (t: Task)
      modifies this
      ensures t == Task(newId, Strings.Trim(name), Some(false))
      ensures tasks == old(tasks) + [t]
    {
      t := Task(newId, Strings.Trim(name), Some(false));
      tasks := tasks + [t];
    }

    /**
     * updateTask: for an absent id a not-found error and no change; otherwise the first record
     * with the id gets the trimmed name and is returned.
     */
    method UpdateTask(id: int, name: string) returns (r: Result<Task>)
      modifies this
      ensures r.Failure? <==> !HasId(old(tasks), id)
      ensures r.Failure? ==> r.error == NotFoundError("Item não encontrado") && tasks == old(tasks)
      ensures r.Success? ==> tasks == Renamed(old(tasks), id, Strings.Trim(name))
                             && r.value == tasks[FirstWithId(old(tasks), id)]
    {
      var check := ValidateItemFound(id);
      if check.Fail? {
        return Failure(check.error);
      }
      var i := Sequences.FindIndex(tasks, WithId(id));
      tasks := tasks[i := tasks[i].(name := Strings.Trim(name))];
      r := Success(tasks[i]);
    }

    /**
     * completeTask: for an absent id a not-found error and no change; otherwise the first record
     * with the id is marked completed and returned.
     */
    method CompleteTask(id: int) returns (r: Result<Task>)
      modifies this
      ensures r.Failure? <==> !HasId(old(tasks), id)
      ensures r.Failure? ==> r.error == NotFoundError("Item não encontrado") && tasks == old(tasks)
      ensures r.Success? ==> tasks == Completed(old(tasks), id)
                             && r.value == tasks[FirstWithId(old(tasks), id)]
    {
      var check := ValidateItemFound(id);
      if check.Fail? {
        return Failure(check.error);
      }
      var i := Sequences.FindIndex(tasks, WithId(id));
      tasks := tasks[i := tasks[i].(completed := Some(true))];
      r := Success(tasks[i]);
    }

    /**
     * deleteTask: for an absent id a not-found error and no change; otherwise the first record
     * with the id is spliced out and returned.
     */
    method DeleteTask(id: int) returns (r: Result<Task>)
      modifies this
      ensures r.Failure? <==> !HasId(old(tasks), id)
      ensures r.Failure? ==> r.error == NotFoundError("Item não encontrado") && tasks == old(tasks)
      ensures r.Success? ==> tasks == RemovedFirst(old(tasks), id)
                             && r.value == old(tasks)[FirstWithId(old(tasks), id)]
    {
      var check := ValidateItemFound(id);
      if check.Fail? {
        return Failure(check.error);
      }
      var i := Sequences.FindIndex(tasks, WithId(id));
      r := Success(tasks[i]);
      tasks := tasks[..i] + tasks[i + 1..];
    }

    /**
     * getTasksByName: the records whose lowercased name contains the filter lowercased and
     * trimmed, in store order, each as often as it is stored; no other record.
     */
    function GetTasksByName(filterName: string): (r: seq<Task>)
      reads this
      ensures forall i :: 0 <= i < |r| ==> Strings.Contains(Strings.Lower(r[i].name), Strings.Trim(Strings.Lower(filterName)))
      ensures forall i :: 0 <= i < |tasks| && NameContains(SearchTerm(filterName))(tasks[i]) ==> tasks[i] in r
      ensures forall t :: multiset(r)[t] == if NameContains(SearchTerm(filterName))(t) then multiset(tasks)[t] else 0
      ensures Sequences.IsSubsequence(r, tasks)
    {
      var matches := NameContains(SearchTerm(filterName));
      Sequences.FilterKeepsMatches(tasks, matches);
      Sequences.FilterCounts(tasks, matches);
      Sequences.FilterIsSubsequence(tasks, matches);
      Sequences.Filter(tasks, matches)
    }
  }
}
