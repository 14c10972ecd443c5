/**
 The owning registry a class descriptor keeps its members in (`AllocStack`).
 Its own code lies outside this model; the class descriptor uses it only as an
 ordered collection with append (`pushAlloc`, modelled as `s + [x]`) and
 removal by pointer identity (`removeAlloc`). Freeing the removed element is
 not modelled.
 */
module AllocStack {

  /** Index of the first entry identical to `x`, or `|s|` when `x` is absent. */
  function IndexOf<T(==)>(s: seq<T>, x: T): (k: nat)
    ensures k <= |s|
    ensures k < |s| <==> x in s
    ensures k < |s| ==> s[k] == x
    ensures forall j :: 0 <= j < k ==> s[j] != x
  {
    if s == [] then 0
    else if s[0] == x then 0
    else 1 + IndexOf(s[1..], x)
  }

  /** No pointer is stored twice. */
  predicate Distinct<T(==)>(s: seq<T>) {
    forall i, j :: 0 <= i < j < |s| ==> s[i] != s[j]
  }

  /**
   `removeAlloc`: drops the first entry identical to `x`, keeping the others in
   order; a registry without `x` is left as it is.
   */
  function RemoveAlloc<T(==)>(s: seq<T>, x: T): (r: seq<T>)
    ensures x !in s ==> r == s
    ensures x in s ==> |r| == |s| - 1
    ensures multiset(r) == multiset(s) - multiset{x}
    ensures forall i :: 0 <= i < |r| ==> r[i] == s[if i < IndexOf(s, x) then i else i + 1]
  {
    var k := IndexOf(s, x);
    if k == |s| then s
    else
      RemoveAtFacts(s, k, s[..k] + s[k + 1..]);
      s[..k] + s[k + 1..]
  }

  /** What cutting out position `k` leaves: the other entries, in order. */
  lemma RemoveAtFacts<T>(s: seq<T>, k: nat, r: seq<T>)
    requires k < |s| && r == s[..k] + s[k + 1..]
    ensures |r| == |s| - 1
    ensures multiset(r) == multiset(s) - multiset{s[k]}
    ensures forall i :: 0 <= i < |r| ==> r[i] == s[if i < k then i else i + 1]
  {
    assert s == s[..k] + [s[k]] + s[k + 1..];
  }

  /** In a registry without repeated pointers, removal takes `x` out entirely. */
  lemma RemoveAllocOfDistinct<T>(s: seq<T>, x: T)
    requires Distinct(s)
    ensures x !in RemoveAlloc(s, x)
    ensures Distinct(RemoveAlloc(s, x))
  {
  }

  /** Removing a freshly appended pointer gives back the registry it was appended to. */
  lemma RemoveAllocUndoesAppend<T>(s: seq<T>, x: T)
    requires x !in s
    ensures RemoveAlloc(s + [x], x) == s
  {
  }
}
