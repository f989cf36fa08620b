/**
 * The service layer: each mutation runs its business check against the store and then the
 * repository operation; the list query returns the store or its name-filtered records.
 */
module TaskService {

  import opened Wrappers
  import opened Errors
  import Strings
  import opened Tasks
  import opened TaskRepository

  /**
   * addTaskService: the duplicate check first; a taken name raises the duplicate error and
   * leaves the store alone, otherwise the task is added as addTask does.
   */
  method AddTaskService(store: TaskStore, name: string, newId: int) returns (r: Result<Task>)
    modifies store
    ensures r.Failure? <==> NameTaken(old(store.tasks), name)
    ensures r.Failure? ==> r.error == DuplicateError("Já existe um item com esse nome")
                           && store.tasks == old(store.tasks)
    ensures r.Success? ==> r.value == Task(newId, Strings.Trim(name), Some(false))
                           && store.tasks == old(store.tasks) + [r.value]
  {
    var check := store.ValidateTaskExists(name);
    if check.Fail? {
      return Failure(check.error);
    }
    var t := store.AddTask(name, newId);
    r := Success(t);
  }

  /** updateTaskService: not found for an absent id, with no change; otherwise updateTask. */
  method UpdateTaskService(store: TaskStore, id: int, name: string) returns (r: Result<Task>)
    modifies store
    ensures r.Failure? <==> !HasId(old(store.tasks), id)
    ensures r.Failure? ==> r.error == NotFoundError("Item não encontrado") && store.tasks == old(store.tasks)
    ensures r.Success? ==> store.tasks == Renamed(old(store.tasks), id, Strings.Trim(name))
                           && r.value == store.tasks[FirstWithId(old(store.tasks), id)]
  {
    var check := store.ValidateItemFound(id);
    if check.Fail? {
      return Failure(check.error);
    }
    r := store.UpdateTask(id, name);
  }

  /** completeTaskService: not found for an absent id, with no change; otherwise completeTask. */
  method CompleteTaskService(store: TaskStore, id: int) returns (r: Result<Task>)
    modifies store
    ensures r.Failure? <==> !HasId(old(store.tasks), id)
    ensures r.Failure? ==> r.error == NotFoundError("Item não encontrado") && store.tasks == old(store.tasks)
    ensures r.Success? ==> store.tasks == Completed(old(store.tasks), id)
                           && r.value == store.tasks[FirstWithId(old(store.tasks), id)]
  {
    var check := store.ValidateItemFound(id);
    if check.Fail? {
      return Failure(check.error);
    }
    r := store.CompleteTask(id);
  }

  /**
   * deleteTaskService: not found for an absent id, with no change; otherwise deleteTask. When the
   * ids were unique, no record with the id is left.
   */
  method DeleteTaskService(store: TaskStore, id: int) returns (r: Result<Task>)
    modifies store
    ensures r.Failure? <==> !HasId(old(store.tasks), id)
    ensures r.Failure? ==> r.error == NotFoundError("Item não encontrado") && store.tasks == old(store.tasks)
    ensures r.Success? ==> store.tasks == RemovedFirst(old(store.tasks), id)
                           && r.value == old(store.tasks)[FirstWithId(old(store.tasks), id)]
    ensures r.Success? && UniqueIds(old(store.tasks)) ==> !HasId(store.tasks, id)
  {
    var check := store.ValidateItemFound(id);
    if check.Fail? {
      return Failure(check.error);
    }
    r := store.DeleteTask(id);
    if UniqueIds(old(store.tasks)) {
      RemovedFirstDropsId(old(store.tasks), id);
    }
  }

  /**
   * getTasksService: with a non-empty filter name, the store's getTasksByName of it; with no
   * filter, no name or an empty one, the whole list as stored.
   */
  function GetTasksService(filter: Option<ItemFilter>, store: TaskStore): (r: seq<Task>)
    reads store
    ensures !NameFilterGiven(filter) ==> r == store.tasks
    ensures NameFilterGiven(filter) ==> r == store.GetTasksByName(filter.value.name.value)
  {
    if NameFilterGiven(filter) then store.GetTasksByName(filter.value.name.value) else store.tasks
  }
}
