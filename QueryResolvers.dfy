/** The list query: the whole store, or the records whose name contains the filter's name. */
module QueryResolvers {

  import opened Wrappers
  import Strings
  import Sequences
  import opened Tasks
  import opened TaskRepository
  import TaskService

  /**
   * todoList: with no filter, no name or an empty one, the list itself; otherwise the records
   * whose lowercased name contains the filter name lowercased and trimmed, in list order, each
   * as often as it is stored, and no other record.
   */
  function TodoList(filter: Option<ItemFilter>, list: seq<Task>): (r: seq<Task>)
    ensures !NameFilterGiven(filter) ==> r == list
    ensures NameFilterGiven(filter) ==>
              forall i :: 0 <= i < |r| ==>
                Strings.Contains(Strings.Lower(r[i].name), Strings.Trim(Strings.Lower(filter.value.name.value)))
    ensures NameFilterGiven(filter) ==>
              forall i :: 0 <= i < |list| && NameContains(SearchTerm(filter.value.name.value))(list[i]) ==> list[i] in r
    ensures NameFilterGiven(filter) ==>
              forall t :: multiset(r)[t] == if NameContains(SearchTerm(filter.value.name.value))(t) then multiset(list)[t] else 0
    ensures Sequences.IsSubsequence(r, list)
  {
    if NameFilterGiven(filter) then
      var matches := NameContains(SearchTerm(filter.value.name.value));
      Sequences.FilterKeepsMatches(list, matches);
      Sequences.FilterCounts(list, matches);
      Sequences.FilterIsSubsequence(list, matches);
      Sequences.Filter(list, matches)
    else
      Sequences.SubsequenceOfItself(list);
      list
  }

  /** A filter name of whitespace only trims to the empty term, which every name contains. */
  lemma WhitespaceFilterKeepsAll(f: string, list: seq<Task>)
    requires f != "" && Strings.AllWhitespace(f)
    ensures TodoList(Some(ItemFilter(Some(f))), list) == list
  {
    Strings.LowerKeepsWhitespace(f);
    Strings.TrimOfWhitespace(Strings.Lower(f));
    assert SearchTerm(f) == [];
    forall i | 0 <= i < |list| ensures NameContains(SearchTerm(f))(list[i]) {
      Strings.ContainsEmpty(Strings.Lower(list[i].name));
    }
    Sequences.FilterKeepsAll(list, NameContains(SearchTerm(f)));
  }

  /** The resolver and the service answer every filter alike on the store. */
  lemma AgreesWithService(filter: Option<ItemFilter>, store: TaskStore)
    ensures TodoList(filter, store.tasks) == TaskService.GetTasksService(filter, store)
  {
  }
}
