/**
 * The task record, the callbacks the store's lookups pass to the array builtins, and the
 * list transformations that specify the store's in-place updates.
 */
module Tasks {

  import opened Wrappers
  import Strings
  import Sequences

  /**
   * A stored record { id, name, completed }. `completed` is None for a record written without
   * that field (the legacy add resolver writes only { id, name }).
   */
  datatype Task = Task(id: int, name: string, completed: Option<bool>)

  /** The { name? } part of the list query's filter argument; its id is never read. */
  datatype ItemFilter = ItemFilter(name: Option<string>)

  /** `item => item.id === id` */
  function WithId(id: int): Task -> bool {
    (t: Task) => t.id == id
  }

  /** `item => item.id !== id` */
  function WithoutId(id: int): Task -> bool {
    (t: Task) => t.id != id
  }

  /** The key a candidate name is compared under: trimmed, then lowercased. */
  function NameKey(name: string): string {
    Strings.Lower(Strings.Trim(name))
  }

  /** `item => item.name.toLowerCase() === key`: stored names are lowercased but not trimmed. */
  function SameName(key: string): Task -> bool {
    (t: Task) => Strings.Lower(t.name) == key
  }

  /** The term a name filter searches for: lowercased, then trimmed. */
  function SearchTerm(filterName: string): string {
    Strings.Trim(Strings.Lower(filterName))
  }

  /** `item => item.name.toLowerCase().includes(term)` */
  function NameContains(term: string): Task -> bool {
    (t: Task) => Strings.Contains(Strings.Lower(t.name), term)
  }

  /** `filter?.name` is truthy: a filter with a non-empty name was given. */
  predicate NameFilterGiven(filter: Option<ItemFilter>) {
    filter.Some? && filter.value.name.Some? && filter.value.name.value != ""
  }

  predicate HasId(s: seq<Task>, id: int) {
    exists i :: 0 <= i < |s| && s[i].id == id
  }

  /** Some stored name, lowercased, equals the candidate trimmed and lowercased. */
  predicate NameTaken(s: seq<Task>, name: string) {
    Sequences.Any(s, SameName(NameKey(name)))
  }

  ghost predicate UniqueIds(s: seq<Task>) {
    forall i, j :: 0 <= i < j < |s| ==> s[i].id != s[j].id
  }

  /** The position findIndex reports for a present id: the first record carrying it. */
  function FirstWithId(s: seq<Task>, id: int): (k: nat)
    requires HasId(s, id)
    ensures k < |s| && s[k].id == id
    ensures forall j :: 0 <= j < k ==> s[j].id != id
  {
    Sequences.FindIndex(s, WithId(id))
  }

  /**
   * The list after renaming the task with this id: only the first record with the id changes,
   * and in it only the name; length, order, ids and completion flags stay.
   */
  function Renamed(s: seq<Task>, id: int, name: string): (r: seq<Task>)
    requires HasId(s, id)
    ensures |r| == |s|
    ensures forall j :: 0 <= j < |s| ==> r[j].id == s[j].id && r[j].completed == s[j].completed
    ensures r[FirstWithId(s, id)].name == name
    ensures forall j :: 0 <= j < |s| && j != FirstWithId(s, id) ==> r[j] == s[j]
  {
    var k := FirstWithId(s, id);
    s[k := s[k].(name := name)]
  }

  /**
   * The list after completing the task with this id: only the first record with the id changes,
   * and in it only the flag, which becomes true.
   */
  function Completed(s: seq<Task>, id: int): (r: seq<Task>)
    requires HasId(s, id)
    ensures |r| == |s|
    ensures forall j :: 0 <= j < |s| ==> r[j].id == s[j].id && r[j].name == s[j].name
    ensures r[FirstWithId(s, id)].completed == Some(true)
    ensures forall j :: 0 <= j < |s| && j != FirstWithId(s, id) ==> r[j] == s[j]
  {
    var k := FirstWithId(s, id);
    s[k := s[k].(completed := Some(true))]
  }

  /**
   * The list after splicing out the task with this id: the first record with the id is gone,
   * one record fewer, and the others keep their relative order.
   */
  function RemovedFirst(s: seq<Task>, id: int): (r: seq<Task>)
    requires HasId(s, id)
    ensures |r| == |s| - 1
    ensures forall j :: 0 <= j < |r| ==> r[j] == if j < FirstWithId(s, id) then s[j] else s[j + 1]
    ensures multiset(r) == multiset(s) - multiset{s[FirstWithId(s, id)]}
  {
    var k := FirstWithId(s, id);
    assert s == s[..k] + [s[k]] + s[k + 1..];
    s[..k] + s[k + 1..]
  }

  /** Completing is idempotent: a second completion of the same id changes nothing. */
  lemma CompletedIdempotent(s: seq<Task>, id: int)
    requires HasId(s, id)
    ensures HasId(Completed(s, id), id)
    ensures Completed(Completed(s, id), id) == Completed(s, id)
  {
    var r := Completed(s, id);
    var k := FirstWithId(s, id);
    assert r[k].id == id;
    assert FirstWithId(r, id) == k;
  }

  /** Once a record is completed, renaming, completing or removing others never clears its flag. */
  lemma CompletionIsMonotone(s: seq<Task>, id: int, name: string, j: int)
    requires HasId(s, id) && 0 <= j < |s| && s[j].completed == Some(true)
    ensures Renamed(s, id, name)[j].completed == Some(true)
    ensures Completed(s, id)[j].completed == Some(true)
    ensures j != FirstWithId(s, id) ==>
              RemovedFirst(s, id)[if j < FirstWithId(s, id) then j else j - 1].completed == Some(true)
  {
  }

  /** With unique ids, removing the first record with an id leaves no record with that id. */
  lemma RemovedFirstDropsId(s: seq<Task>, id: int)
    requires UniqueIds(s) && HasId(s, id)
    ensures !HasId(RemovedFirst(s, id), id)
  {
    var k := FirstWithId(s, id);
    var r := RemovedFirst(s, id);
    forall j | 0 <= j < |r| ensures r[j].id != id {
      if j < k {
        assert r[j] == s[j];
      } else {
        assert r[j] == s[j + 1];
      }
    }
  }

  /** Appending keeps the ids unique exactly when the new id is not in use yet. */
  lemma AppendKeepsUniqueIds(s: seq<Task>, t: Task)
    requires UniqueIds(s)
    ensures UniqueIds(s + [t]) <==> !HasId(s, t.id)
  {
    var r := s + [t];
    if HasId(s, t.id) {
      var i :| 0 <= i < |s| && s[i].id == t.id;
      assert r[i].id == r[|s|].id;
    } else {
      forall i, j | 0 <= i < j < |r| ensures r[i].id != r[j].id {
        if j == |s| {
          assert r[i] == s[i];
        } else {
          assert r[i] == s[i] && r[j] == s[j];
        }
      }
    }
  }

  /** A task appended under a fresh id and then renamed shows the new name, in the same place. */
  lemma RenameAfterAppend(s: seq<Task>, t: Task, name: string)
    requires !HasId(s, t.id)
    ensures HasId(s + [t], t.id)
    ensures Renamed(s + [t], t.id, name) == s + [t.(name := name)]
  {
    var r := s + [t];
    assert r[|s|].id == t.id;
    assert FirstWithId(r, t.id) == |s|;
  }
}
