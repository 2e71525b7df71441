/** The per-frame interpolation: every z slot of the live buffer moves 5% of
    the way toward the same slot of the target buffer, while x and y slots
    stay as they are. Heights are real numbers here, so the contraction by
    0.95 per frame is exact. */
module Smoothing {

  import opened Scaling

  /** One frame for one height z pulled toward t. The new height lies
      between the old one and the target, its gap to the target is 95% of
      the old gap, and a height already at its target stays put. */
  function Approach(z: real, t: real): (z': real)
    ensures z <= t ==> z <= z' <= t
    ensures t <= z ==> t <= z' <= z
    ensures z' - t == 0.95 * (z - t)
    ensures z' == z <==> z == t
  {
    z + (t - z) * 0.05
  }

  /** The live buffer after one frame toward target. */
  function StepToward(cur: seq<real>, target: seq<real>): (r: seq<real>)
    requires |cur| == |target|
    ensures |r| == |cur|
    ensures forall i :: 0 <= i < |cur| && i % 3 != 2 ==> r[i] == cur[i]
  {
    seq(|cur|, i requires 0 <= i < |cur| =>
      if i % 3 == 2 then Approach(cur[i], target[i]) else cur[i])
  }

  /** A buffer whose heights all equal the target's is left as it is. */
  lemma StepAtTarget(cur: seq<real>, target: seq<real>)
    requires |cur| == |target|
    requires forall i :: 0 <= i < |cur| && i % 3 == 2 ==> cur[i] == target[i]
    ensures StepToward(cur, target) == cur
  {
    var r := StepToward(cur, target);
    forall i | 0 <= i < |cur|
      ensures r[i] == cur[i]
    {
    }
  }

  /** The live buffer after n frames toward a fixed target. */
  function Frames(cur: seq<real>, target: seq<real>, n: nat): (r: seq<real>)
    requires |cur| == |target|
    ensures |r| == |cur|
    ensures forall i :: 0 <= i < |cur| && i % 3 != 2 ==> r[i] == cur[i]
    decreases n
  {
    if n == 0 then cur else Frames(StepToward(cur, target), target, n - 1)
  }

  /** One more frame after n frames is frame n + 1: repeating the step
      method of the mesh n times yields Frames. */
  lemma {:induction false} FramesThenStep(cur: seq<real>, target: seq<real>, n: nat)
    requires |cur| == |target|
    ensures Frames(cur, target, n + 1) == StepToward(Frames(cur, target, n), target)
    decreases n
  {
    if n > 0 {
      FramesThenStep(StepToward(cur, target), target, n - 1);
    }
  }

  /** A single height after n frames toward a fixed target t. */
  function Settle(z: real, t: real, n: nat): real
    decreases n
  {
    if n == 0 then z else Settle(Approach(z, t), t, n - 1)
  }

  /** Frames move each z slot of the buffer on its own: after n frames a z
      slot holds its own height settled n times toward its own target. */
  lemma {:induction false} FramesAt(cur: seq<real>, target: seq<real>, n: nat, i: int)
    requires |cur| == |target| && 0 <= i < |cur| && i % 3 == 2
    ensures Frames(cur, target, n)[i] == Settle(cur[i], target[i], n)
    decreases n
  {
    if n > 0 {
      FramesAt(StepToward(cur, target), target, n - 1, i);
    }
  }

  /** 0.95 to the power n: what is left of a gap after n frames. */
  function Decay(n: nat): (d: real)
    ensures 0.0 < d <= 1.0
    ensures n > 0 ==> d < 1.0
  {
    if n == 0 then 1.0 else 0.95 * Decay(n - 1)
  }

  /** After n frames toward a fixed target, a height's gap to the target is
      the starting gap scaled by 0.95^n. */
  lemma {:induction false} SettleGap(z: real, t: real, n: nat)
    ensures Settle(z, t, n) - t == Decay(n) * (z - t)
    decreases n
  {
    if n > 0 {
      var next := Approach(z, t);
      SettleGap(next, t, n - 1);
      assert Settle(z, t, n) == Settle(next, t, n - 1);
      ScaleTwice(Decay(n - 1), next - t, z - t);
    }
  }

  /** Each frame strictly narrows a nonzero gap and never closes it: the
      height approaches its target monotonically and never reaches it. */
  lemma SettleApproachesStrictly(z: real, t: real, n: nat)
    requires z != t
    ensures Settle(z, t, n) != t
    ensures Abs(Settle(z, t, n + 1) - t) < Abs(Settle(z, t, n) - t)
  {
    SettleGap(z, t, n);
    SettleGap(z, t, n + 1);
    assert Decay(n + 1) == 0.95 * Decay(n);
    AbsScale(Decay(n), z - t);
    AbsScale(Decay(n + 1), z - t);
    ScaleStrict(Decay(n + 1), Decay(n), Abs(z - t));
  }

  /** 0.95^n * (1 + n / 20) <= 1, a Bernoulli-style bound. */
  lemma {:induction false} DecayBound(n: nat)
    ensures Decay(n) * (1.0 + n as real / 20.0) <= 1.0
  {
    if n > 0 {
      DecayBound(n - 1);
      var d := Decay(n - 1);
      var m := (n - 1) as real;
      assert d * (1.0 + m / 20.0) <= 1.0;
      calc {
        Decay(n) * (1.0 + n as real / 20.0);
        0.95 * d * (1.0 + m / 20.0) + 0.95 * d / 20.0;
      <=
        0.95 + 0.95 * d / 20.0;
      <=
        1.0;
      }
    }
  }

  /** 0.95^n eventually drops below any positive bound. */
  lemma DecayVanishes(eps: real)
    requires eps > 0.0
    ensures exists n: nat :: Decay(n) < eps
  {
    var n: nat := (20.0 / eps).Floor + 1;
    DecayBound(n);
    BelowReciprocal(eps, n as real, Decay(n));
  }

  /** Repeated frames toward a fixed target bring a height as close to the
      target as one likes. */
  lemma SettleConverges(z: real, t: real, eps: real)
    requires eps > 0.0
    ensures exists n: nat :: Abs(Settle(z, t, n) - t) < eps
  {
    if z == t {
      assert Settle(z, t, 0) - t == 0.0;
    } else {
      Quotient(eps, Abs(z - t));
      DecayVanishes(eps / Abs(z - t));
      var n: nat :| Decay(n) < eps / Abs(z - t);
      SettleGap(z, t, n);
      BelowAfterScaling(Settle(z, t, n) - t, Decay(n), z - t, eps);
    }
  }
}
