/** Sequence operations the source performs with Array.prototype.filter
    and Array.prototype.findIndex. */
module Seqs {

  /** `s.filter(x => !drop(x))`: every element that `drop` rejects goes,
      everything else stays in its relative order. */
  function RemoveAll<T>(s: seq<T>, drop: T -> bool): (r: seq<T>)
    ensures |r| <= |s|
    ensures forall i :: 0 <= i < |r| ==> r[i] in s && !drop(r[i])
    ensures forall i :: 0 <= i < |s| && !drop(s[i]) ==> s[i] in r
    ensures (forall i :: 0 <= i < |s| ==> !drop(s[i])) ==> r == s
  {
    if s == [] then []
    else if drop(s[0]) then RemoveAll(s[1..], drop)
    else [s[0]] + RemoveAll(s[1..], drop)
  }

  /** Filtering distributes over concatenation, so the survivors of the
      front part come before the survivors of the back part: relative
      order is kept. */
  lemma {:induction false} RemoveAllAppend<T>(a: seq<T>, b: seq<T>, drop: T -> bool)
    ensures RemoveAll(a + b, drop) == RemoveAll(a, drop) + RemoveAll(b, drop)
  {
    if a == [] {
      assert a + b == b;
    } else {
      assert (a + b)[0] == a[0];
      assert (a + b)[1..] == a[1..] + b;
      RemoveAllAppend(a[1..], b, drop);
    }
  }

  /** Filtering twice with the same test is filtering once. */
  lemma {:induction false} RemoveAllIdempotent<T>(s: seq<T>, drop: T -> bool)
    ensures RemoveAll(RemoveAll(s, drop), drop) == RemoveAll(s, drop)
  {
    if s != [] {
      RemoveAllIdempotent(s[1..], drop);
    }
  }

  /** `s.findIndex(hit)`: the first index whose element matches, or -1. */
  function FindIndex<T>(s: seq<T>, hit: T -> bool): (r: int)
    ensures -1 <= r < |s|
    ensures r == -1 <==> forall i :: 0 <= i < |s| ==> !hit(s[i])
    ensures r >= 0 ==> hit(s[r]) && forall i :: 0 <= i < r ==> !hit(s[i])
  {
    if s == [] then -1
    else if hit(s[0]) then 0
    else
      var k := FindIndex(s[1..], hit);
      if k == -1 then -1 else k + 1
  }

  /** `s` with the elements at `i` and `j` exchanged. */
  function Swap<T>(s: seq<T>, i: nat, j: nat): (r: seq<T>)
    requires i < |s| && j < |s|
    ensures |r| == |s| && r[i] == s[j] && r[j] == s[i]
    ensures forall k :: 0 <= k < |s| && k != i && k != j ==> r[k] == s[k]
    ensures multiset(r) == multiset(s)
  {
    s[i := s[j]][j := s[i]]
  }

  /** The first match is where `FindIndex` stops. */
  lemma FindIndexAt<T>(s: seq<T>, hit: T -> bool, k: nat)
    requires k < |s| && hit(s[k]) && forall i :: 0 <= i < k ==> !hit(s[i])
    ensures FindIndex(s, hit) == k
  {
    assert FindIndex(s, hit) != -1;
  }

  /** Exchanging the same two places twice restores the sequence. */
  lemma SwapTwice<T>(s: seq<T>, i: nat, j: nat)
    requires i < |s| && j < |s|
    ensures Swap(Swap(s, i, j), j, i) == s
  {
    var t := Swap(Swap(s, i, j), j, i);
    assert forall k :: 0 <= k < |s| ==> t[k] == s[k];
  }
}
