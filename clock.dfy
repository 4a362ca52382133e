/**
 * The per-tick input the game loop hands to every entity: the time delta
 * since the previous tick and whether the game is running (not paused).
 */
module Clock {

  datatype Tick = Tick(clockTick: real, running: bool)

  /** The sum of a sequence of deltas. */
  function Sum(ds: seq<real>): real
  {
    if ds == [] then 0.0 else Sum(ds[..|ds| - 1]) + ds[|ds| - 1]
  }

  /** All deltas are non-negative, as the host promises. */
  predicate NonNegative(ds: seq<real>)
  {
    forall i :: 0 <= i < |ds| ==> ds[i] >= 0.0
  }

  /** With non-negative deltas, every prefix sums to no more than the whole. */
  lemma {:induction false} SumMonotone(ds: seq<real>, k: nat)
    requires NonNegative(ds)
    requires k <= |ds|
    ensures 0.0 <= Sum(ds[..k]) <= Sum(ds)
  {
    if k < |ds| {
      var init := ds[..|ds| - 1];
      assert init[..k] == ds[..k];
      SumMonotone(init, k);
      assert Sum(ds) == Sum(init) + ds[|ds| - 1];
    } else {
      assert ds[..k] == ds;
      if ds != [] {
        var init := ds[..|ds| - 1];
        SumMonotone(init, |init|);
        assert init[..|init|] == init;
      }
    }
  }
}
