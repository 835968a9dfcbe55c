/** First occurrences under a key: the shape shared by the SAN merges and the initial-cluster order. */
module Dedup {

  /** Whether an element of `s` has key `k`. */
  predicate HasKey<T, K(==)>(s: seq<T>, key: T -> K, k: K) { exists i :: 0 <= i < |s| && key(s[i]) == k }

  /** Keeps the first element of each key, in order. */
  function Firsts<T, K(==)>(s: seq<T>, key: T -> K): seq<T>
  {
    if s == [] then [] else
    var kept, last := Firsts(s[..|s| - 1], key), s[|s| - 1];
    if HasKey(kept, key, key(last)) then kept else kept + [last]
  }

  /** No two elements share a key. */
  predicate Distinct<T, K(==)>(s: seq<T>, key: T -> K)
  {
    forall i, j :: 0 <= i < j < |s| ==> key(s[i]) != key(s[j])
  }

  /** `at` lists positions of `s` in order. */
  predicate Increasing(at: seq<nat>, n: nat)
  {
    (forall i :: 0 <= i < |at| ==> at[i] < n) && forall i, j :: 0 <= i < j < |at| ==> at[i] < at[j]
  }

  /** Position `i` is the first one with its key. */
  predicate IsFirst<T, K(==)>(s: seq<T>, key: T -> K, i: nat)
    requires i < |s|
  {
    forall j :: 0 <= j < i ==> key(s[j]) != key(s[i])
  }

  lemma FirstsStep<T, K>(s: seq<T>, x: T, key: T -> K)
    ensures Firsts(s + [x], key) == if HasKey(Firsts(s, key), key, key(x)) then Firsts(s, key) else Firsts(s, key) + [x]
  {
    assert (s + [x])[..|s|] == s;
  }

  lemma {:induction false} FirstsDistinct<T, K>(s: seq<T>, key: T -> K)
    ensures Distinct(Firsts(s, key), key)
  {
    if s != [] { FirstsDistinct(s[..|s| - 1], key); }
  }

  /** Every key of the input is kept, and no other. */
  lemma {:induction false} FirstsKeys<T, K>(s: seq<T>, key: T -> K, k: K)
    ensures HasKey(Firsts(s, key), key, k) <==> HasKey(s, key, k)
  {
    if s != [] {
      var rest, last := s[..|s| - 1], s[|s| - 1];
      FirstsKeys(rest, key, k);
      FirstsKeys(rest, key, key(last));
      var kept := Firsts(rest, key);
      if i :| 0 <= i < |kept| && key(kept[i]) == k { assert Firsts(s, key)[i] == kept[i]; }
      if i :| 0 <= i < |rest| && key(rest[i]) == k { assert s[i] == rest[i]; }
      if key(last) == k {
        assert s[|s| - 1] == last;
        if !HasKey(kept, key, k) { assert Firsts(s, key)[|kept|] == last; }
      }
      if i :| 0 <= i < |s| && key(s[i]) == k && i < |rest| { assert rest[i] == s[i]; }
    }
  }

  lemma FirstInPrefix<T, K>(s: seq<T>, key: T -> K, i: nat)
    requires i < |s| - 1
    ensures IsFirst(s, key, i) <==> IsFirst(s[..|s| - 1], key, i)
  {
    assert forall j :: 0 <= j <= i ==> s[..|s| - 1][j] == s[j];
  }

  lemma LastIsFirst<T, K>(s: seq<T>, key: T -> K)
    requires s != []
    ensures IsFirst(s, key, |s| - 1) <==> !HasKey(Firsts(s[..|s| - 1], key), key, key(s[|s| - 1]))
  {
    var rest := s[..|s| - 1];
    FirstsKeys(rest, key, key(s[|s| - 1]));
    assert forall j :: 0 <= j < |rest| ==> rest[j] == s[j];
  }

  /** The first positions of the keys, in order. */
  function FirstAt<T, K(==)>(s: seq<T>, key: T -> K): (at: seq<nat>)
    ensures Increasing(at, |s|)
  {
    if s == [] then [] else
    FirstAt(s[..|s| - 1], key) + if IsFirst(s, key, |s| - 1) then [|s| - 1] else []
  }

  lemma {:induction false} FirstAtIsExact<T, K>(s: seq<T>, key: T -> K, i: nat)
    requires i < |s|
    ensures i in FirstAt(s, key) <==> IsFirst(s, key, i)
  {
    if i < |s| - 1 {
      FirstAtIsExact(s[..|s| - 1], key, i);
      FirstInPrefix(s, key, i);
    }
  }

  lemma {:induction false} FirstAtLength<T, K>(s: seq<T>, key: T -> K)
    ensures |FirstAt(s, key)| == |Firsts(s, key)|
  {
    if s != [] {
      FirstAtLength(s[..|s| - 1], key);
      LastIsFirst(s, key);
    }
  }

  /** The elements kept are exactly those at the first position of their key, in the original order. */
  lemma {:induction false} FirstsPositions<T, K>(s: seq<T>, key: T -> K, i: nat)
    requires i < |Firsts(s, key)|
    ensures |FirstAt(s, key)| == |Firsts(s, key)| && s[FirstAt(s, key)[i]] == Firsts(s, key)[i]
  {
    var rest := s[..|s| - 1];
    FirstAtLength(s, key);
    FirstAtLength(rest, key);
    LastIsFirst(s, key);
    if i < |Firsts(rest, key)| {
      FirstsPositions(rest, key, i);
      assert FirstAt(s, key)[i] == FirstAt(rest, key)[i] && Firsts(s, key)[i] == Firsts(rest, key)[i];
    } else {
      assert FirstAt(s, key)[i] == |s| - 1;
    }
  }

  /** A sequence without repeated keys is left as it is. */
  lemma {:induction false} FirstsOfDistinct<T, K>(s: seq<T>, key: T -> K)
    requires Distinct(s, key)
    ensures Firsts(s, key) == s
  {
    if s != [] {
      var rest, last := s[..|s| - 1], s[|s| - 1];
      FirstsOfDistinct(rest, key);
      assert s == rest + [last];
    }
  }
}
