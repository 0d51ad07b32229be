/** Lists of client records keyed by their `_id`, as the admin reducers
    search and filter them. `idOf` reads a record's `_id`; a record
    without one has the empty id. */
module IdLists {
  import opened Seqs

  /** `list.findIndex(x => x._id === id)`: the first position holding
      that id, or -1. */
  function IndexOfId<T>(s: seq<T>, idOf: T -> string, id: string): (r: int)
    ensures -1 <= r < |s|
    ensures r >= 0 ==> idOf(s[r]) == id
    ensures r >= 0 ==> forall j :: 0 <= j < r ==> idOf(s[j]) != id
    ensures r == -1 <==> forall j :: 0 <= j < |s| ==> idOf(s[j]) != id
  {
    if s == [] then -1
    else if idOf(s[0]) == id then 0
    else
      var r := IndexOfId(s[1..], idOf, id);
      assert forall j :: 1 <= j < |s| ==> s[j] == s[1..][j - 1];
      if r == -1 then -1 else r + 1
  }

  /** `list.filter(x => x._id !== id)`. */
  function RemoveById<T>(s: seq<T>, idOf: T -> string, id: string): (r: seq<T>)
    ensures |r| <= |s|
    ensures forall x :: x in r ==> idOf(x) != id
    ensures forall x :: x in s && idOf(x) != id ==> x in r
    ensures forall x :: x in r ==> x in s
  {
    if s == [] then []
    else
      var rest := RemoveById(s[1..], idOf, id);
      assert forall x :: x in s ==> x == s[0] || x in s[1..];
      if idOf(s[0]) != id then [s[0]] + rest else rest
  }

  ghost predicate UniqueIds<T>(s: seq<T>, idOf: T -> string) {
    forall i, j :: 0 <= i < j < |s| ==> idOf(s[i]) != idOf(s[j])
  }

  /** The filter works piecewise, so the survivors keep their order. */
  lemma {:induction false} RemoveByIdAppend<T>(a: seq<T>, b: seq<T>, idOf: T -> string, id: string)
    ensures RemoveById(a + b, idOf, id) == RemoveById(a, idOf, id) + RemoveById(b, idOf, id)
  {
    if a != [] {
      assert (a + b)[1..] == a[1..] + b;
      RemoveByIdAppend(a[1..], b, idOf, id);
    } else {
      assert a + b == b;
    }
  }

  /** Filtering out an id that no record carries changes nothing. */
  lemma {:induction false} RemoveAbsentId<T>(s: seq<T>, idOf: T -> string, id: string)
    requires forall j :: 0 <= j < |s| ==> idOf(s[j]) != id
    ensures RemoveById(s, idOf, id) == s
  {
    if s != [] {
      assert forall j :: 0 <= j < |s[1..]| ==> s[1..][j] == s[j + 1];
      RemoveAbsentId(s[1..], idOf, id);
    }
  }

  /** With unique ids the filter removes exactly the one record found by
      `findIndex`, as a `splice` at that position would. */
  lemma {:induction false} RemoveUniqueId<T>(s: seq<T>, idOf: T -> string, id: string)
    requires UniqueIds(s, idOf)
    requires IndexOfId(s, idOf, id) >= 0
    ensures var i := IndexOfId(s, idOf, id);
      RemoveById(s, idOf, id) == s[..i] + s[i + 1..]
  {
    var i := IndexOfId(s, idOf, id);
    var tail := s[1..];
    HeadTail(s);
    if i == 0 {
      forall j | 0 <= j < |tail| ensures idOf(tail[j]) != id {
        assert tail[j] == s[j + 1];
      }
      RemoveAbsentId(tail, idOf, id);
      assert RemoveById(s, idOf, id) == RemoveById(tail, idOf, id);
    } else {
      forall a, b | 0 <= a < b < |tail| ensures idOf(tail[a]) != idOf(tail[b]) {
        assert tail[a] == s[a + 1] && tail[b] == s[b + 1];
      }
      assert IndexOfId(tail, idOf, id) == i - 1;
      RemoveUniqueId(tail, idOf, id);
      assert RemoveById(s, idOf, id) == [s[0]] + RemoveById(tail, idOf, id);
      TailAround(s, i);
    }
  }

  /** Filtering keeps ids unique. */
  lemma {:induction false} RemoveByIdUnique<T>(s: seq<T>, idOf: T -> string, id: string)
    requires UniqueIds(s, idOf)
    ensures UniqueIds(RemoveById(s, idOf, id), idOf)
  {
    if s != [] {
      assert forall a, b :: 0 <= a < b < |s[1..]| ==> s[1..][a] == s[a + 1] && s[1..][b] == s[b + 1];
      RemoveByIdUnique(s[1..], idOf, id);
      var rest := RemoveById(s[1..], idOf, id);
      if idOf(s[0]) != id {
        var r := [s[0]] + rest;
        forall a, b | 0 <= a < b < |r|
          ensures idOf(r[a]) != idOf(r[b])
        {
          assert r[b] == rest[b - 1];
          if a == 0 {
            assert r[b] in s[1..];
            var m :| 0 <= m < |s[1..]| && s[1..][m] == r[b];
            assert s[m + 1] == r[b];
          } else {
            assert r[a] == rest[a - 1];
          }
        }
      }
    }
  }

  /** Writing a record over the one with the same id keeps ids unique. */
  lemma ReplaceSameIdUnique<T>(s: seq<T>, idOf: T -> string, i: nat, x: T)
    requires UniqueIds(s, idOf) && i < |s| && idOf(x) == idOf(s[i])
    ensures UniqueIds(s[i := x], idOf)
  {
    var r := s[i := x];
    assert forall j :: 0 <= j < |r| ==> idOf(r[j]) == idOf(s[j]);
  }

  /** Appending a record whose id is new keeps ids unique. */
  lemma AppendNewIdUnique<T>(s: seq<T>, idOf: T -> string, x: T)
    requires UniqueIds(s, idOf)
    requires forall j :: 0 <= j < |s| ==> idOf(s[j]) != idOf(x)
    ensures UniqueIds(s + [x], idOf)
  {
    var r := s + [x];
    assert forall j :: 0 <= j < |s| ==> r[j] == s[j];
  }
}
