/** Logs of event times, and the one quantitative fact that the timed protocols
    share: events of which every `m`-th lie `d` apart cannot crowd a window. */
module Spacing {

  ghost predicate Nondecreasing(ts: seq<int>)
  {
    forall i, j :: 0 <= i <= j < |ts| ==> ts[i] <= ts[j]
  }

  /** Any two events with at least `m - 1` others between them lie `d` apart. */
  ghost predicate Spaced(ts: seq<int>, m: nat, d: int)
  {
    forall i, j :: 0 <= i && i + m <= j < |ts| ==> ts[i] + d <= ts[j]
  }

  /** How many events fall into the closed interval [from, to]. */
  ghost function CountWithin(ts: seq<int>, from: int, to: int): nat
  {
    if ts == [] then 0
    else
      CountWithin(ts[..|ts| - 1], from, to)
      + if from <= ts[|ts| - 1] <= to then 1 else 0
  }

  lemma {:induction false} WithinIsContiguous(ts: seq<int>, from: int, to: int)
    returns (lo: nat, hi: nat)
    requires Nondecreasing(ts)
    ensures lo <= hi <= |ts|
    ensures forall i :: 0 <= i < |ts| ==> (from <= ts[i] <= to <==> lo <= i < hi)
    ensures CountWithin(ts, from, to) == hi - lo
  {
    if ts == [] {
      return 0, 0;
    }
    var n := |ts| - 1;
    assert Nondecreasing(ts[..n]);
    lo, hi := WithinIsContiguous(ts[..n], from, to);
    assert forall i :: 0 <= i < n ==> ts[..n][i] == ts[i];
    assert lo < hi < n ==> ts[lo] <= ts[hi] <= ts[n];
    if from <= ts[n] <= to {
      if lo == hi {
        lo := n;
      }
      hi := n + 1;
    }
  }

  lemma {:induction false} Stride(ts: seq<int>, m: nat, d: int, i: nat, k: nat)
    requires Spaced(ts, m, d) && m >= 1
    requires i + m * k < |ts|
    ensures ts[i] + k * d <= ts[i + m * k]
  {
    if k > 0 {
      assert m * k == m * (k - 1) + m;
      Stride(ts, m, d, i, k - 1);
      var j := i + m * (k - 1);
      assert ts[j] + d <= ts[j + m];
      assert k * d == (k - 1) * d + d;
    }
  }

  lemma NotCrowded(ts: seq<int>, m: nat, d: int, lo: nat, hi: nat, k: nat)
    requires Spaced(ts, m, d) && m >= 1 && lo <= hi <= |ts|
    requires forall i, j :: lo <= i < hi && lo <= j < hi ==> ts[j] - ts[i] < k * d
    ensures hi - lo <= m * k
  {
    if hi - lo > m * k {
      Stride(ts, m, d, lo, k);
    }
  }

  /** `m` events in each stretch of length `d` that fits into the window, and in one more. */
  function Quota(m: nat, d: nat, span: nat): nat
    requires d >= 1
  {
    m * (span / d + 1)
  }

  /** A closed window of length `span` holds at most m * (span / d + 1) events. */
  lemma WindowBound(ts: seq<int>, m: nat, d: int, from: int, span: nat)
    requires Nondecreasing(ts) && Spaced(ts, m, d) && m >= 1 && d >= 1
    ensures CountWithin(ts, from, from + span) <= Quota(m, d, span)
  {
    var lo, hi := WithinIsContiguous(ts, from, from + span);
    var k := span / d + 1;
    assert k * d > span by {
      assert span == (span / d) * d + span % d;
      assert k * d == (span / d) * d + d;
    }
    NotCrowded(ts, m, d, lo, hi, k);
  }

}
