/** Counting ascending times inside a window of the clock. */
module Timeline {

  ghost predicate Ascending(ts: seq<int>) {
    forall i, j :: 0 <= i <= j < |ts| ==> ts[i] <= ts[j]
  }

  /** How many of the times lie in the half-open window from `lo` to `hi`. */
  function CountIn(ts: seq<int>, lo: int, hi: int): nat {
    if ts == [] then 0
    else CountIn(ts[..|ts| - 1], lo, hi) + if lo <= ts[|ts| - 1] < hi then 1 else 0
  }

  /** The times of a window are consecutive, starting at index `p`. */
  lemma {:induction false} WindowIsRun(ts: seq<int>, lo: int, hi: int) returns (p: nat)
    requires Ascending(ts) && lo <= hi
    ensures p + CountIn(ts, lo, hi) <= |ts|
    ensures forall i :: 0 <= i < p ==> ts[i] < lo
    ensures forall i :: p <= i < p + CountIn(ts, lo, hi) ==> lo <= ts[i] < hi
    ensures forall i :: p + CountIn(ts, lo, hi) <= i < |ts| ==> hi <= ts[i]
  {
    if ts == [] {
      p := 0;
    } else {
      var n := |ts| - 1;
      p := WindowIsRun(ts[..n], lo, hi);
      if ts[n] < lo {
        p := |ts|;
        assert forall i :: 0 <= i < n ==> ts[..n][i] <= ts[n];
      }
    }
  }
}
