/** The per-antenna transmit strengths that the Tx sliders edit. */
module Gains {

  /** The updater that the Tx-antenna slider passes to `setAntennaStrengths`:
      copy the strengths, push 1 until there are `n`, then keep the first
      `n`. The result has exactly `n` entries, the old strengths come first
      as far as they reach, and every new entry is 1. */
  method ResizeStrengths(prev: seq<real>, n: nat) returns (r: seq<real>)
    ensures |r| == n
    ensures forall i :: 0 <= i < |r| && i < |prev| ==> r[i] == prev[i]
    ensures forall i :: |prev| <= i < |r| ==> r[i] == 1.0
  {
    var strengths := prev;
    while |strengths| < n
      invariant |prev| <= |strengths|
      invariant |strengths| <= n || strengths == prev
      invariant strengths[..|prev|] == prev
      invariant forall i :: |prev| <= i < |strengths| ==> strengths[i] == 1.0
      decreases n - |strengths|
    {
      strengths := strengths + [1.0];
    }
    r := strengths[..n];
  }

  /** The strength slider of antenna `idx`: a copy with entry `idx` set to
      `v` and every other entry as it was. */
  function WithStrength(s: seq<real>, idx: nat, v: real): (r: seq<real>)
    requires idx < |s|
    ensures |r| == |s|
    ensures r[idx] == v
    ensures forall j :: 0 <= j < |s| && j != idx ==> r[j] == s[j]
  {
    s[idx := v]
  }
}
