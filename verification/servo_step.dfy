/** One control tick of the servo (`UpdateForcesAndMoments`): the mode
    selects a reference, an error and the force written back to the joint.

    The joint is replaced by its three readings (`Measured`) and the force the
    tick returns. The PID controller is an opaque law `update(state, error,
    dt)` returning its output and its next state; nothing about it is assumed. */
module ServoStep {
  import opened Angles
  import opened ServoConfig

  /** `PID::Update`: (state, error, dt) to (output, next state). */
  type PidLaw<!S> = (S, real, real) -> (real, S)

  /** The commands last received for the joint. */
  datatype Refs = Refs(pos: real, vel: real, effort: real)

  /** The joint's position, velocity and applied force read at the tick. */
  datatype Measured = Measured(pos: real, vel: real, effort: real)

  /** The force written to the joint and the PID state after the tick. */
  datatype Tick<S> = Tick(force: real, pid: S)

  /** The position reference limited by `min(.., max)` then `max(.., min)`:
      never below the minimum, within the limits when they are ordered, and
      untouched when already inside them. With crossed limits it is always
      the minimum. */
  function ClampRef(ref: real, maxPos: real, minPos: real): (r: real)
    ensures r >= minPos
    ensures minPos <= maxPos ==> r <= maxPos
    ensures minPos <= ref <= maxPos ==> r == ref
    ensures minPos > maxPos ==> r == minPos
    ensures minPos <= maxPos && ref > maxPos ==> r == maxPos
    ensures minPos <= maxPos && ref < minPos ==> r == minPos
  {
    var upper := if ref < maxPos then ref else maxPos;
    if upper < minPos then minPos else upper
  }

  /** The reference "saturation" as written, `copysign(ref, min(|ref|,
      limit))`: the magnitude is that of the reference and the sign that of
      the bound. For a non-negative limit the result is |ref|, neither
      capped nor signed; for a negative limit it is -|ref|. */
  function SaturateAsWritten(ref: real, limit: real): (r: real)
    ensures Abs(r) == Abs(ref)
    ensures limit >= 0.0 ==> r == Abs(ref)
    ensures limit < 0.0 ==> r == -Abs(ref)
  {
    CopySign(ref, Min(Abs(ref), limit))
  }

  function Min(a: real, b: real): (r: real)
    ensures r <= a && r <= b
    ensures r == a || r == b
  {
    if a < b then a else b
  }

  /** The evidently intended saturation, `copysign(min(|ref|, limit), ref)`:
      the sign of the reference is kept; for a non-negative limit the
      magnitude is the smaller of |ref| and the limit, so a reference inside
      the limit passes through and one beyond it saturates to the limit. A
      negative limit (nothing forbids one) gives magnitude -limit. */
  function Saturate(ref: real, limit: real): (r: real)
    ensures ref >= 0.0 ==> r >= 0.0
    ensures ref < 0.0 ==> r <= 0.0
    ensures limit >= 0.0 ==> Abs(r) == Min(Abs(ref), limit)
    ensures limit >= 0.0 && Abs(ref) > limit ==> Abs(r) == limit
    ensures Abs(ref) <= limit ==> r == ref
    ensures limit < 0.0 ==> Abs(r) == -limit
  {
    CopySign(Min(Abs(ref), limit), ref)
  }

  /** A negative reference of -5 under a limit of 1: the code applies +5,
      the intended saturation -1. */
  lemma SaturationArgumentOrder()
    ensures SaturateAsWritten(-5.0, 1.0) == 5.0
    ensures Saturate(-5.0, 1.0) == -1.0
  {
  }

  /** Exactly where the two saturations agree: for a non-negative limit only
      on references in [0, limit]; for a negative limit only on the
      reference equal to the limit. */
  lemma SaturationAgreement(ref: real, limit: real)
    ensures limit >= 0.0 ==> (Saturate(ref, limit) == SaturateAsWritten(ref, limit) <==> 0.0 <= ref <= limit)
    ensures limit < 0.0 ==> (Saturate(ref, limit) == SaturateAsWritten(ref, limit) <==> ref == limit)
  {
  }

  /** `turning_direction_ * x`, written as the sign choice it amounts to
      for the two spin values. */
  function Turned(c: Config, x: real): (r: real)
    ensures Abs(r) == Abs(x)
  {
    if c.turningDirection == CW then -x else x
  }

  /** `Turned` is the product with the spin constant's integer value. */
  lemma TurnedIsProduct(c: Config, x: real)
    ensures Turned(c, x) == SpinValue(c.turningDirection) as real * x
  {
  }

  /** The force applied in force mode: the spin direction times the code's
      saturated effort reference, that is the direction times |effort| for a
      non-negative torque limit and its negation for a negative one. */
  function OpenLoopTorque(c: Config, effort: real): (f: real)
    ensures c.maxTorque >= 0.0 ==> f == Turned(c, Abs(effort))
    ensures c.maxTorque < 0.0 ==> f == Turned(c, -Abs(effort))
  {
    Turned(c, SaturateAsWritten(effort, c.maxTorque))
  }

  /** The error fed to the PID in the two closed-loop modes. In position mode
      it is the folded difference of the normalised measured angle and the
      normalised clamped reference; in velocity mode the measured velocity
      minus the saturated reference. */
  function TrackingError(c: Config, refs: Refs, meas: Measured): (err: real)
    requires c.mode != Force
    ensures c.mode == Position ==> -TwoPi < err <= Pi
    ensures c.mode == Position ==>
      err == PositionError(meas.pos, ClampRef(refs.pos, c.maxRotPosition, c.minRotPosition))
    ensures c.mode == Position ==>
      (NormalizeAngle(meas.pos) == NormalizeAngle(ClampRef(refs.pos, c.maxRotPosition, c.minRotPosition))
       ==> err == 0.0)
    ensures c.mode == Velocity && c.maxRotVelocity >= 0.0 ==> err == meas.vel - Abs(refs.vel)
    ensures c.mode == Velocity && c.maxRotVelocity < 0.0 ==> err == meas.vel + Abs(refs.vel)
  {
    if c.mode == Position then
      PositionError(meas.pos, ClampRef(refs.pos, c.maxRotPosition, c.minRotPosition))
    else
      meas.vel - SaturateAsWritten(refs.vel, c.maxRotVelocity)
  }

  /** `UpdateForcesAndMoments`. Force mode is open loop: the PID state is
      untouched and the force is the spin direction times |effort reference|,
      negated when the torque limit is negative. Both closed-loop modes apply the
      spin direction times the PID output for the tracking error, and adopt
      the PID's next state. */
  function Step<S>(c: Config, refs: Refs, meas: Measured, update: PidLaw<S>, s: S, dt: real): (t: Tick<S>)
    ensures c.mode == Force ==> t == Tick(OpenLoopTorque(c, refs.effort), s)
    ensures c.mode == Force && c.maxTorque >= 0.0 ==> t.force == Turned(c, Abs(refs.effort))
    ensures c.mode == Force && c.maxTorque < 0.0 ==> t.force == Turned(c, -Abs(refs.effort))
    ensures c.mode != Force ==>
      var out := update(s, TrackingError(c, refs, meas), dt);
      t.force == Turned(c, out.0) && t.pid == out.1
  {
    if c.mode == Force then
      Tick(OpenLoopTorque(c, refs.effort), s)
    else
      var (force, next) := update(s, TrackingError(c, refs, meas), dt);
      Tick(Turned(c, force), next)
  }

  /** The spin direction never changes the magnitude: the applied force has
      the magnitude of the PID output in the closed-loop modes and of the
      effort reference in force mode, whatever the sign of the torque limit. */
  lemma StepForceMagnitude<S>(c: Config, refs: Refs, meas: Measured, update: PidLaw<S>, s: S, dt: real)
    ensures c.mode != Force ==>
      Abs(Step(c, refs, meas, update, s, dt).force) == Abs(update(s, TrackingError(c, refs, meas), dt).0)
    ensures c.mode == Force ==>
      Abs(Step(c, refs, meas, update, s, dt).force) == Abs(refs.effort)
  {
  }

  /** The zero offset is read from the description but never used: two
      configurations that differ only in it behave identically. */
  lemma StepIgnoresZeroOffset<S>(c: Config, offset: real, refs: Refs, meas: Measured,
                                 update: PidLaw<S>, s: S, dt: real)
    ensures Step(c.(positionZeroOffset := offset), refs, meas, update, s, dt)
         == Step(c, refs, meas, update, s, dt)
  {
    var c' := c.(positionZeroOffset := offset);
    if c.mode != Force {
      assert TrackingError(c', refs, meas) == TrackingError(c, refs, meas);
    }
  }

  /** The measured joint force is read but never used. */
  lemma StepIgnoresMeasuredEffort<S>(c: Config, refs: Refs, meas: Measured, effort: real,
                                     update: PidLaw<S>, s: S, dt: real)
    ensures Step(c, refs, meas.(effort := effort), update, s, dt)
         == Step(c, refs, meas, update, s, dt)
  {
    if c.mode != Force {
      assert TrackingError(c, refs, meas.(effort := effort)) == TrackingError(c, refs, meas);
    }
  }

  /** In position mode the tick sees the position reference only through
      its clamped value. */
  lemma StepSeesClampedReference<S>(c: Config, refs: Refs, pos: real, meas: Measured,
                                    update: PidLaw<S>, s: S, dt: real)
    requires c.mode == Position
    requires ClampRef(refs.pos, c.maxRotPosition, c.minRotPosition)
          == ClampRef(pos, c.maxRotPosition, c.minRotPosition)
    ensures Step(c, refs, meas, update, s, dt) == Step(c, refs.(pos := pos), meas, update, s, dt)
  {
    assert TrackingError(c, refs, meas) == TrackingError(c, refs.(pos := pos), meas);
  }

  /** In position mode a reference beyond the ordered limits acts exactly like
      the nearer limit. */
  lemma StepClampsPositionReference<S>(c: Config, refs: Refs, meas: Measured,
                                       update: PidLaw<S>, s: S, dt: real)
    requires c.mode == Position && c.minRotPosition <= c.maxRotPosition
    ensures refs.pos > c.maxRotPosition ==>
      Step(c, refs, meas, update, s, dt) == Step(c, refs.(pos := c.maxRotPosition), meas, update, s, dt)
    ensures refs.pos < c.minRotPosition ==>
      Step(c, refs, meas, update, s, dt) == Step(c, refs.(pos := c.minRotPosition), meas, update, s, dt)
  {
    var lo, hi := c.minRotPosition, c.maxRotPosition;
    if refs.pos > hi {
      StepSeesClampedReference(c, refs, hi, meas, update, s, dt);
    } else if refs.pos < lo {
      StepSeesClampedReference(c, refs, lo, meas, update, s, dt);
    }
  }

  /** In position mode, a measured angle equal (after normalisation) to the
      clamped reference feeds the PID an error of exactly 0, whatever turn
      each angle is on. */
  lemma StepAtReference<S>(c: Config, refs: Refs, meas: Measured, update: PidLaw<S>, s: S, dt: real)
    requires c.mode == Position
    requires NormalizeAngle(meas.pos) ==
      NormalizeAngle(ClampRef(refs.pos, c.maxRotPosition, c.minRotPosition))
    ensures Step(c, refs, meas, update, s, dt) ==
      Tick(Turned(c, update(s, 0.0, dt).0), update(s, 0.0, dt).1)
  {
  }

  /** Velocity mode ignores the sign of the velocity reference: commanding
      -v and +v is the same tick. */
  lemma StepVelocitySignLost<S>(c: Config, refs: Refs, meas: Measured, update: PidLaw<S>, s: S, dt: real)
    requires c.mode == Velocity
    ensures Step(c, refs.(vel := -refs.vel), meas, update, s, dt) == Step(c, refs, meas, update, s, dt)
  {
  }

  /** The error the corrected tick feeds the PID: in position mode the
      shortest displacement, in (-pi, pi]; in velocity mode the measured
      velocity minus the sign-preserving saturated reference, so a reference
      inside the limit is tracked as given. */
  function IntendedTrackingError(c: Config, refs: Refs, meas: Measured): (err: real)
    requires c.mode != Force
    ensures c.mode == Position ==> -Pi < err <= Pi
    ensures c.mode == Position ==>
      err == ShortestPositionError(meas.pos, ClampRef(refs.pos, c.maxRotPosition, c.minRotPosition))
    ensures c.mode == Velocity ==> err == meas.vel - Saturate(refs.vel, c.maxRotVelocity)
    ensures c.mode == Velocity && Abs(refs.vel) <= c.maxRotVelocity ==> err == meas.vel - refs.vel
  {
    if c.mode == Position then
      ShortestPositionError(meas.pos, ClampRef(refs.pos, c.maxRotPosition, c.minRotPosition))
    else
      meas.vel - Saturate(refs.vel, c.maxRotVelocity)
  }

  /** The tick with the three corrections: shortest position error, and
      saturation that caps the magnitude and keeps the sign. In force mode
      the PID state is kept and, for a non-negative limit, the torque has
      magnitude min(|effort|, limit) and the sign of the turned effort
      reference. The closed-loop modes apply the turned PID output for the
      corrected error. */
  function StepIntended<S>(c: Config, refs: Refs, meas: Measured, update: PidLaw<S>, s: S, dt: real): (t: Tick<S>)
    ensures c.mode == Force ==> t.pid == s
    ensures c.mode == Force && c.maxTorque >= 0.0 ==> Abs(t.force) == Min(Abs(refs.effort), c.maxTorque)
    ensures c.mode == Force && c.maxTorque >= 0.0 && Turned(c, refs.effort) >= 0.0 ==> t.force >= 0.0
    ensures c.mode == Force && c.maxTorque >= 0.0 && Turned(c, refs.effort) < 0.0 ==> t.force <= 0.0
    ensures c.mode != Force ==>
      var out := update(s, IntendedTrackingError(c, refs, meas), dt);
      t == Tick(Turned(c, out.0), out.1)
  {
    if c.mode == Force then
      Tick(Turned(c, Saturate(refs.effort, c.maxTorque)), s)
    else
      var (force, next) := update(s, IntendedTrackingError(c, refs, meas), dt);
      Tick(Turned(c, force), next)
  }

  /** In velocity mode the corrected tick tracks a reference inside the
      limit with its sign. Where the code's position error already lies in
      (-pi, pi], or the effort reference is in [0, limit], the corrected and
      the code's ticks agree. */
  lemma StepIntendedAgreement<S>(c: Config, refs: Refs, meas: Measured, update: PidLaw<S>, s: S, dt: real)
    ensures c.mode == Velocity && Abs(refs.vel) <= c.maxRotVelocity ==>
      StepIntended(c, refs, meas, update, s, dt)
        == Tick(Turned(c, update(s, meas.vel - refs.vel, dt).0), update(s, meas.vel - refs.vel, dt).1)
    ensures c.mode == Position && TrackingError(c, refs, meas) > -Pi ==>
      StepIntended(c, refs, meas, update, s, dt) == Step(c, refs, meas, update, s, dt)
    ensures c.mode == Force && 0.0 <= refs.effort <= c.maxTorque ==>
      StepIntended(c, refs, meas, update, s, dt) == Step(c, refs, meas, update, s, dt)
  {
    if c.mode == Position && TrackingError(c, refs, meas) > -Pi {
      ShortestNeverLonger(meas.pos, ClampRef(refs.pos, c.maxRotPosition, c.minRotPosition));
    }
  }

  /** What the host supplies for one call of the tick: the references, the
      joint readings and the time step. */
  datatype TickInput = TickInput(refs: Refs, meas: Measured, dt: real)

  /** The forces written by a run of ticks, and the PID state before each
      tick and after the last one. */
  datatype Trace<S> = Trace(forces: seq<real>, states: seq<S>)

  /** Successive calls of the tick on one servo: the PID state a tick leaves
      behind is the state the next tick starts from. In force mode the PID
      state never changes and every force is the open-loop torque for the
      effort reference of its tick. */
  function Run<S>(c: Config, ticks: seq<TickInput>, update: PidLaw<S>, s: S): (r: Trace<S>)
    ensures |r.forces| == |ticks| && |r.states| == |ticks| + 1
    ensures r.states[0] == s
    ensures forall i :: 0 <= i < |ticks| ==>
      Step(c, ticks[i].refs, ticks[i].meas, update, r.states[i], ticks[i].dt)
        == Tick(r.forces[i], r.states[i + 1])
    ensures c.mode == Force ==> forall i :: 0 <= i <= |ticks| ==> r.states[i] == s
    ensures c.mode == Force ==>
      forall i :: 0 <= i < |ticks| ==> r.forces[i] == OpenLoopTorque(c, ticks[i].refs.effort)
    decreases |ticks|
  {
    if |ticks| == 0 then Trace([], [s])
    else
      var t := Step(c, ticks[0].refs, ticks[0].meas, update, s, ticks[0].dt);
      var rest := Run(c, ticks[1..], update, t.pid);
      var r := Trace([t.force] + rest.forces, [s] + rest.states);
      assert forall i :: 1 <= i < |ticks| ==>
        ticks[i] == ticks[1..][i - 1] && r.forces[i] == rest.forces[i - 1]
        && r.states[i] == rest.states[i - 1] && r.states[i + 1] == rest.states[i];
      r
  }

  /** A run's zero offset never matters, tick after tick. */
  lemma {:induction false} RunIgnoresZeroOffset<S>(c: Config, offset: real, ticks: seq<TickInput>,
                                                   update: PidLaw<S>, s: S)
    ensures Run(c.(positionZeroOffset := offset), ticks, update, s) == Run(c, ticks, update, s)
    decreases |ticks|
  {
    if |ticks| > 0 {
      StepIgnoresZeroOffset(c, offset, ticks[0].refs, ticks[0].meas, update, s, ticks[0].dt);
      var t := Step(c, ticks[0].refs, ticks[0].meas, update, s, ticks[0].dt);
      RunIgnoresZeroOffset(c, offset, ticks[1..], update, t.pid);
    }
  }
}
