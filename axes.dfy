/** The fixed axis permutations between the caller's (x, y, tilt) layout and the
    engine's layout (src/builders/xray.py). Each is a chain of two `swapaxes`, written
    as the source writes it; the lemmas show which chains undo which. */
module AxisOrder {
  import opened Arrays3

  /** `vol.fvals.swapaxes(0, 1).swapaxes(0, 2)`: the last axis moves to the front. */
  function VolumeToEngine(a: Array3): (b: Array3)
    ensures b.shape == Shape3(a.shape.n2, a.shape.n0, a.shape.n1)
    ensures forall i, j, k :: InBounds(a.shape, i, j, k) ==> At(b, k, i, j) == At(a, i, j, k)
  {
    SwapAxes02(SwapAxes01(a))
  }

  /** `proj_fvals.swapaxes(1, 2).swapaxes(0, 1)`: the engine's (rows, tilts, cols)
      become (cols, rows, tilts). */
  function ProjectionFromEngine(p: Array3): (q: Array3)
    ensures q.shape == Shape3(p.shape.n2, p.shape.n0, p.shape.n1)
    ensures forall r, t, c :: InBounds(p.shape, r, t, c) ==> At(q, c, r, t) == At(p, r, t, c)
  {
    SwapAxes01(SwapAxes12(p))
  }

  /** `swapaxes(0, 2).swapaxes(0, 1)`: the first axis moves to the back. The backprojection
      applies this chain both to its input (to reach the engine layout) and to the
      engine's volume (to restore the caller's layout). */
  function CycleAxesLeft(a: Array3): (b: Array3)
    ensures b.shape == Shape3(a.shape.n1, a.shape.n2, a.shape.n0)
    ensures forall i, j, k :: InBounds(a.shape, i, j, k) ==> At(b, j, k, i) == At(a, i, j, k)
  {
    SwapAxes01(SwapAxes02(a))
  }

  /** The two different chains of the forward path are the same permutation. */
  lemma VolumeToEngineIsProjectionFromEngine(a: Array3)
    ensures VolumeToEngine(a) == ProjectionFromEngine(a)
  {
    var b, q := VolumeToEngine(a), ProjectionFromEngine(a);
    forall i, j, k | InBounds(b.shape, i, j, k)
      ensures At(b, i, j, k) == At(q, i, j, k)
    {
      assert InBounds(a.shape, j, k, i);
    }
    Extensionality(b, q);
  }

  /** Restoring the engine's volume undoes the forward volume permutation. */
  lemma VolumeRoundTrip(a: Array3)
    ensures CycleAxesLeft(VolumeToEngine(a)) == a
  {
    var b := CycleAxesLeft(VolumeToEngine(a));
    forall i, j, k | InBounds(a.shape, i, j, k)
      ensures At(b, i, j, k) == At(a, i, j, k)
    {
      assert InBounds(VolumeToEngine(a).shape, k, i, j);
    }
    Extensionality(b, a);
  }

  /** ... and the forward volume permutation undoes the restore. */
  lemma VolumeRoundTripEngine(b: Array3)
    ensures VolumeToEngine(CycleAxesLeft(b)) == b
  {
    var a := VolumeToEngine(CycleAxesLeft(b));
    forall i, j, k | InBounds(b.shape, i, j, k)
      ensures At(a, i, j, k) == At(b, i, j, k)
    {
      assert InBounds(CycleAxesLeft(b).shape, j, k, i);
    }
    Extensionality(a, b);
  }

  /** The backprojection's input permutation undoes the forward projection's restore. */
  lemma ProjectionRoundTrip(p: Array3)
    ensures CycleAxesLeft(ProjectionFromEngine(p)) == p
  {
    VolumeToEngineIsProjectionFromEngine(p);
    VolumeRoundTrip(p);
  }

  /** ... and the forward restore undoes the backprojection's input permutation. */
  lemma ProjectionRoundTripEngine(q: Array3)
    ensures ProjectionFromEngine(CycleAxesLeft(q)) == q
  {
    VolumeToEngineIsProjectionFromEngine(CycleAxesLeft(q));
    VolumeRoundTripEngine(q);
  }
}
