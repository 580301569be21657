/** Sorting by a total preorder, as the library sort the auditors call promises it. */
module Sorting {

  ghost predicate TotalPreorder<T(!new)>(le: (T, T) -> bool) {
    && (forall a, b :: le(a, b) || le(b, a))
    && (forall a, b, c :: le(a, b) && le(b, c) ==> le(a, c))
  }

  ghost predicate Sorted<T>(le: (T, T) -> bool, s: seq<T>) {
    forall i, j :: 0 <= i < j < |s| ==> le(s[i], s[j])
  }

  ghost predicate SortedCopy<T>(le: (T, T) -> bool, ordered: seq<T>, s: seq<T>) {
    Sorted(le, ordered) && multiset(ordered) == multiset(s)
  }

  lemma FollowsFrom<T(!new)>(le: (T, T) -> bool, done: seq<T>, x: T, k: nat)
    requires TotalPreorder(le) && Sorted(le, done) && k < |done| && !le(done[k], x)
    ensures forall i :: k <= i < |done| ==> le(x, done[i])
  {
    assert le(x, done[k]);
    forall i | k < i < |done|
      ensures le(x, done[i])
    {
      assert le(done[k], done[i]);
    }
  }

  lemma InsertBetween<T>(le: (T, T) -> bool, done: seq<T>, x: T, k: nat)
    requires Sorted(le, done) && k <= |done|
    requires forall i :: 0 <= i < k ==> le(done[i], x)
    requires forall i :: k <= i < |done| ==> le(x, done[i])
    ensures Sorted(le, done[..k] + [x] + done[k..])
  {
    var r := done[..k] + [x] + done[k..];
    forall i, j | 0 <= i < j < |r|
      ensures le(r[i], r[j])
    {
      assert i < k ==> r[i] == done[i];
      assert i > k ==> r[i] == done[i - 1];
      assert j < k ==> r[j] == done[j];
      assert j > k ==> r[j] == done[j - 1];
    }
  }

  lemma InsertSorted<T(!new)>(le: (T, T) -> bool, done: seq<T>, x: T, k: nat)
    requires TotalPreorder(le) && Sorted(le, done) && k <= |done|
    requires forall i :: 0 <= i < k ==> le(done[i], x)
    requires k < |done| ==> !le(done[k], x)
    ensures Sorted(le, done[..k] + [x] + done[k..])
    ensures multiset(done[..k] + [x] + done[k..]) == multiset(done) + multiset{x}
  {
    hide TotalPreorder, Sorted;
    if k < |done| {
      FollowsFrom(le, done, x, k);
    }
    InsertBetween(le, done, x, k);
    assert done == done[..k] + done[k..];
  }

  method Sort<T(!new)>(le: (T, T) -> bool, s: seq<T>) returns (ordered: seq<T>)
    requires TotalPreorder(le)
    ensures SortedCopy(le, ordered, s)
  {
    ordered := [];
    for n := 0 to |s|
      invariant SortedCopy(le, ordered, s[..n])
    {
      var k := FindSlot(le, ordered, s[n]);
      hide Sorted;
      InsertSorted(le, ordered, s[n], k);
      assert s[..n + 1] == s[..n] + [s[n]];
      ordered := ordered[..k] + [s[n]] + ordered[k..];
    }
    assert s[..|s|] == s;
  }

  /** The first place after everything not above `x`. */
  method FindSlot<T(!new)>(le: (T, T) -> bool, ordered: seq<T>, x: T) returns (k: nat)
    ensures k <= |ordered| && (forall i :: 0 <= i < k ==> le(ordered[i], x)) && (k < |ordered| ==> !le(ordered[k], x))
  {
    k := 0;
    while k < |ordered| && le(ordered[k], x)
      invariant 0 <= k <= |ordered|
      invariant forall i :: 0 <= i < k ==> le(ordered[i], x)
    {
      k := k + 1;
    }
  }

  ghost function Place<T>(le: (T, T) -> bool, done: seq<T>, x: T): (k: nat)
    ensures k <= |done|
    ensures forall i :: 0 <= i < k ==> le(done[i], x)
    ensures k < |done| ==> !le(done[k], x)
  {
    if done == [] || !le(done[0], x) then 0 else 1 + Place(le, done[1..], x)
  }

  lemma {:induction false} SortExists<T(!new)>(le: (T, T) -> bool, s: seq<T>) returns (ordered: seq<T>)
    requires TotalPreorder(le)
    ensures SortedCopy(le, ordered, s)
  {
    if s == [] {
      ordered := [];
    } else {
      var front, x := s[..|s| - 1], s[|s| - 1];
      var done := SortExists(le, front);
      var k := Place(le, done, x);
      InsertSorted(le, done, x, k);
      assert s == front + [x];
      ordered := done[..k] + [x] + done[k..];
    }
  }
}
