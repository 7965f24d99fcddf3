/**
 * The part of JUCE's Array<T> the meters use.  Array::set overwrites an
 * element inside the array, appends when the index is at or past the end,
 * and leaves the array alone for a negative index; the meter ballistics
 * rely on the appending case to grow their per-channel arrays when they
 * are first reset.
 */
module JuceArray {

  function Set<T>(s: seq<T>, i: int, v: T): (r: seq<T>)
    ensures i < 0 ==> r == s
    ensures 0 <= i < |s| ==> r == s[i := v]
    ensures i >= |s| ==> r == s + [v]
  {
    if i < 0 then s else if i < |s| then s[i := v] else s + [v]
  }

  /** The array after set(c, v) for c = 0, 1, ..., n - 1. */
  function Filled<T>(s: seq<T>, n: nat, v: T): (r: seq<T>)
    ensures |r| == if |s| < n then n else |s|
    decreases n
  {
    if n == 0 then s else Set(Filled(s, n - 1, v), n - 1, v)
  }

  lemma {:induction false} FilledValues<T>(s: seq<T>, n: nat, v: T)
    ensures forall c :: 0 <= c < n ==> Filled(s, n, v)[c] == v
    ensures forall c :: n <= c < |s| ==> Filled(s, n, v)[c] == s[c]
  {
    if n > 0 {
      FilledValues(s, n - 1, v);
    }
  }

  /** Filling an array that already has n elements replaces every element. */
  lemma {:induction false} FilledOfLength<T>(s: seq<T>, n: nat, v: T)
    requires |s| == n
    ensures Filled(s, n, v) == seq(n, _ => v)
  {
    var r := Filled(s, n, v);
    FilledValues(s, n, v);
    assert forall c :: 0 <= c < n ==> r[c] == seq(n, _ => v)[c];
  }
}
