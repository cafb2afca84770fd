/**
 * The gallery's two filtering steps are JavaScript's Array.prototype.filter:
 * a new array of the elements that pass a test, in their original order.
 * Keep models it once; the lemmas here are the facts the gallery relies on.
 */
module Sequences {

  /** The elements of `s` for which `f` holds, in their original order. */
  function Keep<T>(s: seq<T>, f: T -> bool): (r: seq<T>)
    ensures |r| <= |s|
    ensures forall i :: 0 <= i < |r| ==> r[i] in s && f(r[i])
    ensures forall j :: 0 <= j < |s| && f(s[j]) ==> s[j] in r
  {
    if s == [] then []
    else (if f(s[0]) then [s[0]] else []) + Keep(s[1..], f)
  }

  /** One step of Keep on a non-empty sequence. */
  lemma KeepStep<T>(s: seq<T>, f: T -> bool)
    requires s != []
    ensures Keep(s, f) == (if f(s[0]) then [s[0]] else []) + Keep(s[1..], f)
  {
  }

  /**
   * `idx` picks out `r` from `s`: one index of `s` per element of `r`, strictly
   * increasing, so `r` is a subsequence of `s` in its original relative order.
   */
  ghost predicate Selects<T>(r: seq<T>, s: seq<T>, idx: seq<int>)
  {
    |idx| == |r| &&
    (forall k :: 0 <= k < |idx| ==> 0 <= idx[k] < |s| && r[k] == s[idx[k]]) &&
    (forall k, l :: 0 <= k < l < |idx| ==> idx[k] < idx[l])
  }

  /**
   * Keep is a stable filter: its result is the subsequence of `s` made of exactly
   * the positions whose element passes `f`.
   */
  lemma {:induction false} KeepSelects<T>(s: seq<T>, f: T -> bool) returns (idx: seq<int>)
    ensures Selects(Keep(s, f), s, idx)
    ensures forall j :: 0 <= j < |s| ==> (f(s[j]) <==> j in idx)
  {
    if s == [] {
      idx := [];
    } else {
      var tail := KeepSelects(s[1..], f);
      var rest := Keep(s[1..], f);
      ShiftSelects(rest, s, tail);
      var shifted := Shift(tail);
      forall j | 1 <= j < |s|
        ensures f(s[j]) <==> j in shifted
      {
        assert s[1..][j - 1] == s[j];
        ShiftMember(tail, j);
      }
      if f(s[0]) {
        assert Keep(s, f) == [s[0]] + rest;
        idx := [0] + shifted;
        ConsSelects(rest, s, shifted);
      } else {
        assert Keep(s, f) == rest;
        idx := shifted;
      }
    }
  }

  /** Selecting the head of `s` in front of a selection from its tail. */
  lemma ConsSelects<T>(r: seq<T>, s: seq<T>, idx: seq<int>)
    requires s != [] && Selects(r, s, idx)
    requires forall k :: 0 <= k < |idx| ==> idx[k] >= 1
    ensures Selects([s[0]] + r, s, [0] + idx)
  {
  }

  /** Every index of `idx`, plus one. */
  function Shift(idx: seq<int>): (r: seq<int>)
    ensures |r| == |idx| && forall k :: 0 <= k < |idx| ==> r[k] == idx[k] + 1
  {
    seq(|idx|, k requires 0 <= k < |idx| => idx[k] + 1)
  }

  lemma ShiftMember(idx: seq<int>, j: int)
    ensures j in Shift(idx) <==> j - 1 in idx
  {
    if j - 1 in idx {
      var k :| 0 <= k < |idx| && idx[k] == j - 1;
      assert Shift(idx)[k] == j;
    }
  }

  /** Indices that pick `r` out of the tail of `s` pick it out of `s` once shifted. */
  lemma ShiftSelects<T>(r: seq<T>, s: seq<T>, idx: seq<int>)
    requires s != [] && Selects(r, s[1..], idx)
    ensures Selects(r, s, Shift(idx))
    ensures forall k :: 0 <= k < |idx| ==> Shift(idx)[k] >= 1
  {
  }

  /** Filtering twice is filtering once by a test that is both tests together. */
  lemma {:induction false} KeepKeep<T>(s: seq<T>, f: T -> bool, g: T -> bool, h: T -> bool)
    requires forall i :: 0 <= i < |s| ==> h(s[i]) == (f(s[i]) && g(s[i]))
    ensures Keep(Keep(s, f), g) == Keep(s, h)
  {
    if s != [] {
      KeepKeep(s[1..], f, g, h);
      var head := if f(s[0]) then [s[0]] else [];
      assert Keep(s, f) == head + Keep(s[1..], f);
      KeepAppend(head, Keep(s[1..], f), g);
    }
  }

  /** Filtering distributes over concatenation. */
  lemma {:induction false} KeepAppend<T>(a: seq<T>, b: seq<T>, f: T -> bool)
    ensures Keep(a + b, f) == Keep(a, f) + Keep(b, f)
  {
    if a == [] {
      assert a + b == b;
    } else {
      assert (a + b)[1..] == a[1..] + b;
      KeepAppend(a[1..], b, f);
    }
  }

  /** A test that every element passes removes nothing. */
  lemma {:induction false} KeepAll<T>(s: seq<T>, f: T -> bool)
    requires forall i :: 0 <= i < |s| ==> f(s[i])
    ensures Keep(s, f) == s
  {
    if s != [] {
      KeepAll(s[1..], f);
    }
  }

  /** Filtering an already filtered sequence by the same test changes nothing. */
  lemma KeepIdempotent<T>(s: seq<T>, f: T -> bool)
    ensures Keep(Keep(s, f), f) == Keep(s, f)
  {
    KeepAll(Keep(s, f), f);
  }
}
