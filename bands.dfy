/**
 * Threshold banding, the rule behind every classifier of the node: an
 * ascending list of thresholds cuts the readings into half-open bands, and
 * a reading falls in band k when it has reached exactly k thresholds. A
 * reading exactly on a threshold has reached it, so it belongs to the
 * higher band.
 */
module Bands {

  /** The thresholds are strictly increasing. */
  predicate Ascending(ts: seq<real>) {
    forall i, j :: 0 <= i < j < |ts| ==> ts[i] < ts[j]
  }

  /** The number of thresholds at or below `x`: the band `x` falls in. */
  function Reached(ts: seq<real>, x: real): (n: nat)
    ensures n <= |ts|
  {
    if ts == [] then 0
    else (if ts[0] <= x then 1 else 0) + Reached(ts[1..], x)
  }

  /** `x` lies in band `k`: at or above threshold k-1 (if any) and below threshold k (if any). */
  predicate InBand(ts: seq<real>, x: real, k: nat)
    requires k <= |ts|
  {
    (k == 0 || ts[k - 1] <= x) && (k == |ts| || x < ts[k])
  }

  /** Below every threshold, none has been reached. */
  lemma {:induction false} ReachedNone(ts: seq<real>, x: real)
    requires forall i :: 0 <= i < |ts| ==> x < ts[i]
    ensures Reached(ts, x) == 0
  {
    if ts != [] {
      ReachedNone(ts[1..], x);
    }
  }

  /** On ascending thresholds the count of reached thresholds is the band the reading lies in. */
  lemma {:induction false} ReachedIsBand(ts: seq<real>, x: real)
    requires Ascending(ts)
    ensures InBand(ts, x, Reached(ts, x))
  {
    if ts != [] {
      var tail := ts[1..];
      assert Ascending(tail);
      if ts[0] <= x {
        ReachedIsBand(tail, x);
      } else {
        ReachedNone(tail, x);
      }
    }
  }

  /** Bands of ascending thresholds do not overlap. */
  lemma BandUnique(ts: seq<real>, x: real, j: nat, k: nat)
    requires Ascending(ts) && j <= |ts| && k <= |ts|
    requires InBand(ts, x, j) && InBand(ts, x, k)
    ensures j == k
  {
  }

  /** Exactly one band applies: a reading is in band k if and only if it has reached k thresholds. */
  lemma BandIff(ts: seq<real>, x: real, k: nat)
    requires Ascending(ts) && k <= |ts|
    ensures Reached(ts, x) == k <==> InBand(ts, x, k)
  {
    ReachedIsBand(ts, x);
    if InBand(ts, x, k) {
      BandUnique(ts, x, k, Reached(ts, x));
    }
  }

  /** A larger reading never falls in a lower band. */
  lemma {:induction false} ReachedMonotone(ts: seq<real>, x: real, y: real)
    requires x <= y
    ensures Reached(ts, x) <= Reached(ts, y)
  {
    if ts != [] {
      ReachedMonotone(ts[1..], x, y);
    }
  }
}
