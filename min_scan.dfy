/**
 * The running-minimum loop the game uses to pick the nearest waypoint,
 * racing-line point or boundary point: walk the candidates in order and
 * take one only when it is strictly smaller than the best so far, so the
 * first of several equal minima wins.
 */
module MinScan {

  /** (index, value) of the running minimum after the first n candidates, starting from (best, bestVal). */
  function RunMin(ds: seq<int>, n: nat, best: int, bestVal: int): (int, int)
    requires n <= |ds|
    decreases n
  {
    if n == 0 then (best, bestVal)
    else
      var p := RunMin(ds, n - 1, best, bestVal);
      if ds[n - 1] < p.1 then (n - 1, ds[n - 1]) else p
  }

  /**
   * Either nothing beat the starting value and the start is kept, or the
   * result is the first index holding the smallest candidate, which is
   * below the starting value.
   */
  lemma {:induction false} RunMinIsFirstMinimum(ds: seq<int>, n: nat, best: int, bestVal: int)
    requires n <= |ds|
    ensures var r := RunMin(ds, n, best, bestVal);
      r.1 <= bestVal && (forall k | 0 <= k < n :: r.1 <= ds[k]) &&
      ((r == (best, bestVal) && forall k | 0 <= k < n :: ds[k] >= bestVal) ||
       (0 <= r.0 < n && r.1 == ds[r.0] < bestVal && forall k | 0 <= k < r.0 :: ds[k] > r.1))
    decreases n
  {
    if n > 0 {
      RunMinIsFirstMinimum(ds, n - 1, best, bestVal);
    }
  }
}
