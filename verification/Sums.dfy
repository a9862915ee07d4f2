/** Sums over sequences of counters, and how one update changes them. */
module Sums {

  /** The sum of the first n entries. */
  function SumTo(v: seq<nat>, n: nat): nat
    requires n <= |v|
  {
    if n == 0 then 0 else SumTo(v, n - 1) + v[n - 1]
  }

  function Sum(v: seq<nat>): nat { SumTo(v, |v|) }

  lemma {:induction false} SumPrefix(v: seq<nat>, w: seq<nat>, n: nat)
    requires n <= |v| && n <= |w| && forall i :: 0 <= i < n ==> v[i] == w[i]
    ensures SumTo(v, n) == SumTo(w, n)
  {
    if n > 0 { SumPrefix(v, w, n - 1); }
  }

  lemma {:induction false} SumUpdateTo(v: seq<nat>, i: nat, x: nat, n: nat)
    requires i < n <= |v|
    ensures SumTo(v[i := x], n) + v[i] == SumTo(v, n) + x
  {
    if i == n - 1 { SumPrefix(v[i := x], v, n - 1); } else { SumUpdateTo(v, i, x, n - 1); }
  }

  lemma SumUpdate(v: seq<nat>, i: nat, x: nat)
    requires i < |v|
    ensures Sum(v[i := x]) + v[i] == Sum(v) + x
  {
    SumUpdateTo(v, i, x, |v|);
  }

  lemma SumAppend(v: seq<nat>, w: seq<nat>, x: nat)
    requires w == v + [x]
    ensures Sum(w) == Sum(v) + x
  {
    SumPrefix(v, w, |v|);
  }

  lemma {:induction false} SumAtLeast(v: seq<nat>, i: nat, n: nat)
    requires i < n <= |v|
    ensures v[i] <= SumTo(v, n)
  {
    if i < n - 1 { SumAtLeast(v, i, n - 1); }
  }

  lemma {:induction false} SumPositive(v: seq<nat>, n: nat) returns (i: nat)
    requires n <= |v| && SumTo(v, n) > 0
    ensures i < n && v[i] > 0
  {
    if v[n - 1] > 0 { i := n - 1; } else { i := SumPositive(v, n - 1); }
  }

  lemma {:induction false} SumZero(v: seq<nat>, n: nat)
    requires n <= |v| && forall i :: 0 <= i < n ==> v[i] == 0
    ensures SumTo(v, n) == 0
  {
    if n > 0 { SumZero(v, n - 1); }
  }
}
