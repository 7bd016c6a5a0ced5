/** Time entries as the UI holds them: mutable objects shared between an
    ObservableCollection and the code that edits them, compared by reference
    (TimeEntry does not override Equals). */
module Entries {
  import opened Common

  class EntryObject {
    var value: TimeEntry

    constructor (e: TimeEntry)
      ensures value == e
    {
      value := e;
    }
  }

  /** A call to ITimeEntryRepository.UpdateEntryProjectAsync(entryId, projectId). */
  datatype ProjectUpdate = ProjectUpdate(entryId: int, projectId: Option<int>)

  /** Collection.IndexOf: the first position holding this very object, or -1. */
  function IndexOf(list: seq<EntryObject>, e: EntryObject): (r: int)
    ensures -1 <= r < |list|
    ensures r >= 0 ==> list[r] == e && forall j :: 0 <= j < r ==> list[j] != e
    ensures r == -1 <==> e !in list
  {
    if |list| == 0 then -1
    else if list[0] == e then 0
    else var k := IndexOf(list[1..], e); if k == -1 then -1 else k + 1
  }

  /** Collection.RemoveAt: the items before the index stay in place, the ones
      after it move down by one, and exactly the removed item is gone. */
  function RemoveAt<T>(s: seq<T>, i: int): (r: seq<T>)
    requires 0 <= i < |s|
    ensures |r| == |s| - 1
    ensures forall j :: 0 <= j < i ==> r[j] == s[j]
    ensures forall j :: i <= j < |r| ==> r[j] == s[j + 1]
    ensures multiset(r) == multiset(s) - multiset{s[i]}
  {
    assert s == s[..i] + [s[i]] + s[i + 1..];
    s[..i] + s[i + 1..]
  }

  /** Collection.Insert: the item lands at the index, the items before it stay
      in place, the ones from the index on move up by one, and nothing else is
      added. */
  function Insert<T>(s: seq<T>, i: int, x: T): (r: seq<T>)
    requires 0 <= i <= |s|
    ensures |r| == |s| + 1 && r[i] == x
    ensures r[..i] == s[..i] && r[i + 1..] == s[i..]
    ensures multiset(r) == multiset(s) + multiset{x}
  {
    assert s == s[..i] + s[i..];
    s[..i] + [x] + s[i..]
  }

  /** Removing an item and inserting it back at the same index restores the list. */
  lemma {:induction false} ReinsertRestores<T>(s: seq<T>, i: int)
    requires 0 <= i < |s|
    ensures Insert(RemoveAt(s, i), i, s[i]) == s
  {
    var r := RemoveAt(s, i);
    assert r[..i] == s[..i] && r[i..] == s[i + 1..];
    assert s[..i] + [s[i]] + s[i + 1..] == s;
  }
}
