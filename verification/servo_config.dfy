/** Configuration of the servo: how the optional elements of the motor's
    description resolve to a control mode, a spin direction, limits and the
    seven arguments handed to the PID controller's initialisation. */
module ServoConfig {
  import opened Options

  datatype ControlMode = Velocity | Position | Force

  /** `spin::CW` and `spin::CCW`, the only two values the turning direction
      ever holds. Every output force is multiplied by the spin value. */
  datatype Spin = CW | CCW

  /** The integer behind each spin constant. */
  function SpinValue(d: Spin): int {
    if d == CW then -1 else 1
  }

  /** The name under which each mode is selected. */
  function ModeKey(m: ControlMode): string {
    match m
    case Velocity => "velocity"
    case Position => "position"
    case Force => "force"
  }

  /** Arguments of `PID::Init`, in its order. */
  datatype PidGains = PidGains(p: real, i: real, d: real, iMax: real, iMin: real,
                               cmdMax: real, cmdMin: real)

  const ZeroGains: PidGains := PidGains(0.0, 0.0, 0.0, 0.0, 0.0, 0.0, 0.0)

  /** The children of a `joint_control_pid` element; an absent child is None. */
  datatype PidElement = PidElement(p: Option<real>, i: Option<real>, d: Option<real>,
                                   iMax: Option<real>, iMin: Option<real>,
                                   cmdMax: Option<real>, cmdMin: Option<real>)

  /** The motor element's children the servo reads; an absent child is None. */
  datatype MotorElement = MotorElement(
    controlMode: Option<string>,
    spinDirection: Option<string>,
    maxRotVelocity: Option<real>,
    maxRotPosition: Option<real>,
    minRotPosition: Option<real>,
    zeroOffset: Option<real>,
    jointControlPid: Option<PidElement>)

  /** The constructor's defaults for the numeric members. */
  datatype Defaults = Defaults(maxRotVelocity: real, maxTorque: real,
                               maxRotPosition: real, minRotPosition: real,
                               positionOffset: real)

  /** The resolved configuration of one servo. */
  datatype Config = Config(
    mode: ControlMode,
    turningDirection: Spin,
    maxRotVelocity: real,
    maxTorque: real,
    maxRotPosition: real,
    minRotPosition: real,
    positionZeroOffset: real,
    gains: PidGains)

  /** The control mode: a recognised name selects its mode; any other name,
      or no `controlMode` element, keeps the default position mode. */
  function ResolveMode(controlMode: Option<string>): (m: ControlMode)
    ensures m != Position ==> controlMode == Some(ModeKey(m))
    ensures controlMode.Some? && controlMode.value in {"velocity", "position", "force"} ==>
      ModeKey(m) == controlMode.value
  {
    match controlMode
    case None => Position
    case Some(name) =>
      if name == "velocity" then Velocity
      else if name == "position" then Position
      else if name == "force" then Force
      else Position
  }

  /** Every mode is selected by its own name. */
  lemma ResolveModeRoundTrip(m: ControlMode)
    ensures ResolveMode(Some(ModeKey(m))) == m
  {
  }

  /** The spin direction. Only "cw" changes the member; the "ccw" branch
      assigns to the local string instead, which leaves the member at its
      counter-clockwise default, as does any other name or no element. The
      outcome is the same as if "ccw" had been assigned to the member. */
  function ResolveSpin(spinDirection: Option<string>): (dir: Spin)
    ensures dir == CW <==> spinDirection == Some("cw")
  {
    if spinDirection == Some("cw") then CW else CCW
  }

  /** The seven PID arguments as the code reads them. Without the element all
      are 0. With it, the "iMax" child (0 when absent) is read into `p`, so it
      becomes the proportional gain, and `iMax` is passed on uninitialised:
      `uninitIMax` stands for whatever value that local happens to hold. */
  function ResolvePid(pid: Option<PidElement>, uninitIMax: real): (g: PidGains)
    ensures pid.None? ==> g == ZeroGains
    ensures pid.Some? ==> g.p == pid.value.iMax.GetOr(0.0) && g.iMax == uninitIMax
    ensures pid.Some? ==>
      && g.i == pid.value.i.GetOr(0.0)
      && g.d == pid.value.d.GetOr(0.0)
      && g.iMin == pid.value.iMin.GetOr(0.0)
      && g.cmdMax == pid.value.cmdMax.GetOr(0.0)
      && g.cmdMin == pid.value.cmdMin.GetOr(0.0)
  {
    match pid
    case None => ZeroGains
    case Some(e) =>
      PidGains(e.iMax.GetOr(0.0), e.i.GetOr(0.0), e.d.GetOr(0.0), uninitIMax,
               e.iMin.GetOr(0.0), e.cmdMax.GetOr(0.0), e.cmdMin.GetOr(0.0))
  }

  /** The element that writes every gain out explicitly. */
  function PidElementOf(g: PidGains): PidElement {
    PidElement(Some(g.p), Some(g.i), Some(g.d), Some(g.iMax), Some(g.iMin),
               Some(g.cmdMax), Some(g.cmdMin))
  }

  /** The "p" child is lost: two elements that differ only in it give the
      same arguments, and writing gains with p = 2 and iMax = 0.5 out
      explicitly yields a proportional gain of 0.5. */
  lemma PidPGainIgnored(e: PidElement, p1: real, p2: real, uninitIMax: real)
    ensures ResolvePid(Some(e.(p := Some(p1))), uninitIMax)
         == ResolvePid(Some(e.(p := Some(p2))), uninitIMax)
    ensures var g := PidGains(2.0, 0.0, 0.0, 0.5, 0.0, 0.0, 0.0);
      ResolvePid(Some(PidElementOf(g)), uninitIMax).p == 0.5 != g.p
  {
  }

  /** The evidently intended reading: each child into its own argument. */
  function ResolvePidIntended(pid: Option<PidElement>): (g: PidGains)
    ensures pid.None? ==> g == ZeroGains
    ensures pid.Some? ==> g.p == pid.value.p.GetOr(0.0) && g.iMax == pid.value.iMax.GetOr(0.0)
    ensures pid.Some? ==>
      && g.i == pid.value.i.GetOr(0.0)
      && g.d == pid.value.d.GetOr(0.0)
      && g.iMin == pid.value.iMin.GetOr(0.0)
      && g.cmdMax == pid.value.cmdMax.GetOr(0.0)
      && g.cmdMin == pid.value.cmdMin.GetOr(0.0)
  {
    match pid
    case None => ZeroGains
    case Some(e) =>
      PidGains(e.p.GetOr(0.0), e.i.GetOr(0.0), e.d.GetOr(0.0), e.iMax.GetOr(0.0),
               e.iMin.GetOr(0.0), e.cmdMax.GetOr(0.0), e.cmdMin.GetOr(0.0))
  }

  /** With the intended reading, gains written out explicitly are read back
      unchanged; the code's reading agrees with it exactly when p == iMax and
      the uninitialised local happens to hold iMax. */
  lemma PidRoundTrip(g: PidGains, uninitIMax: real)
    ensures ResolvePidIntended(Some(PidElementOf(g))) == g
    ensures ResolvePid(Some(PidElementOf(g)), uninitIMax) == g <==> g.p == g.iMax == uninitIMax
  {
  }

  /** `InitializeParams`: every field starts at its default and an element
      that is present overrides it. `maxTorque` has no element and always
      keeps its default; the mode always ends up one of the three modes and
      the direction one of the two spin constants. */
  function InitializeParams(motor: MotorElement, defaults: Defaults, uninitIMax: real): (c: Config)
    ensures c.mode == ResolveMode(motor.controlMode)
    ensures c.turningDirection == ResolveSpin(motor.spinDirection)
    ensures c.maxTorque == defaults.maxTorque
    ensures motor.maxRotVelocity.None? ==> c.maxRotVelocity == defaults.maxRotVelocity
    ensures motor.maxRotVelocity.Some? ==> c.maxRotVelocity == motor.maxRotVelocity.value
    ensures motor.maxRotPosition.None? ==> c.maxRotPosition == defaults.maxRotPosition
    ensures motor.maxRotPosition.Some? ==> c.maxRotPosition == motor.maxRotPosition.value
    ensures motor.minRotPosition.None? ==> c.minRotPosition == defaults.minRotPosition
    ensures motor.minRotPosition.Some? ==> c.minRotPosition == motor.minRotPosition.value
    ensures motor.zeroOffset.None? ==> c.positionZeroOffset == defaults.positionOffset
    ensures motor.zeroOffset.Some? ==> c.positionZeroOffset == motor.zeroOffset.value
    ensures c.gains == ResolvePid(motor.jointControlPid, uninitIMax)
  {
    Config(
      ResolveMode(motor.controlMode),
      ResolveSpin(motor.spinDirection),
      motor.maxRotVelocity.GetOr(defaults.maxRotVelocity),
      defaults.maxTorque,
      motor.maxRotPosition.GetOr(defaults.maxRotPosition),
      motor.minRotPosition.GetOr(defaults.minRotPosition),
      motor.zeroOffset.GetOr(defaults.positionOffset),
      ResolvePid(motor.jointControlPid, uninitIMax))
  }

  /** `InitializeParams` with the PID children read into their own arguments;
      everything else is as in the code. */
  function InitializeParamsIntended(motor: MotorElement, defaults: Defaults): (c: Config)
    ensures c.gains == ResolvePidIntended(motor.jointControlPid)
    ensures forall uninitIMax: real {:trigger InitializeParams(motor, defaults, uninitIMax)} ::
      c == InitializeParams(motor, defaults, uninitIMax).(gains := c.gains)
    ensures c.maxTorque == defaults.maxTorque
  {
    InitializeParams(motor, defaults, 0.0).(gains := ResolvePidIntended(motor.jointControlPid))
  }

  /** Nothing keeps the position limits ordered: both are taken as given, so
      a description may resolve to a minimum above the maximum. */
  lemma PositionLimitsMayCross(d: Defaults)
    ensures var motor := MotorElement(None, None, None, Some(-1.0), Some(1.0), None, None);
      InitializeParams(motor, d, 0.0).minRotPosition > InitializeParams(motor, d, 0.0).maxRotPosition
  {
  }
}
