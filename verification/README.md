# Servo actuator model (`MotorModelServo`)

A Dafny model of the servo motor plugin of the RotorS simulator: the class
`MotorModelServo` that sets up a single rotary joint from its motor element
and, on each simulation tick, writes a force to that joint. The model covers
three parts:

- **Configuration** (`ServoConfig`, from `InitializeParams`). Optional
  elements of the motor description resolve to a `Config`. That record holds
  the control mode, the spin direction, the limits, the zero offset and the
  seven arguments of `PID::Init`.
- **Angles** (`Angles`, from `NormalizeAngle` and the error folding in the
  position branch). These are defined over `real`. `Pi` is the exact value
  of the double `M_PI`, and `TwoPi` is twice it.
- **One tick** (`ServoStep`, from `UpdateForcesAndMoments`). It is a pure
  function from the configuration, the references, the measured joint state,
  the PID state and the time step to the applied force and the next PID
  state. The PID controller is an opaque function parameter.

Files: `options.dfy` (optional values), `angles.dfy`, `servo_config.dfy`,
`servo_step.dfy`.

Choices made while modelling:

- The constructor's defaults (`kDefault*`) are a `Defaults` record parameter.
  They live in headers that are not part of this model.
- `spin::CW` and `spin::CCW` are -1 and +1. The turning direction only ever
  holds one of them, so it is the two-valued type `Spin`, and multiplying by it
  is written as keeping or negating the force.
- The `iMax` local in `InitializeParams` is never initialised. It is the
  arbitrary parameter `uninitIMax`.
- A description element that is present overrides the member's default, and
  an absent one keeps it. This is how `getSdfParam` is called here.

Where the code and what its comments and names announce disagree, the model
follows the code:

- The position error is not kept in [-pi, pi). See Findings.
- The force and velocity "saturation" neither caps nor keeps the sign. See
  Findings.
- `iMax` is read into `p`. See Findings.
- Normalisation is neither idempotent nor periodic near the 2*pi snap.
  `Angles.NormalizeNotIdempotent` and `Angles.NormalizeNotPeriodic` exhibit
  this. Only the restricted forms hold.
- The position limits are not required to be ordered
  (`ServoConfig.PositionLimitsMayCross`).

## Model

| member | source | states |
|---|---|---|
| ServoConfig.ResolveMode | rotors_gazebo_plugins/include/rotors_gazebo_plugins/motor_model_servo.hpp:75-90 | a mode other than position is chosen only by its own name; each of the three names selects its mode; anything else, or no element, gives position |
| ServoConfig.ResolveModeRoundTrip | rotors_gazebo_plugins/include/rotors_gazebo_plugins/motor_model_servo.hpp:78-83 | every mode is reached by its name: resolving the name of m gives m back |
| ServoConfig.ResolveSpin | rotors_gazebo_plugins/include/rotors_gazebo_plugins/motor_model_servo.hpp:93-104 | the direction is one of the two spin constants, and it is CW exactly when the element is "cw"; "ccw", a bad name or no element all leave CCW |
| ServoConfig.ResolvePid | rotors_gazebo_plugins/include/rotors_gazebo_plugins/motor_model_servo.hpp:115-130 | without the PID element all seven arguments are 0; with it the proportional gain is the "iMax" value (0 if absent), `iMax` is the uninitialised local, and i, d, iMin, cmdMax, cmdMin are their own children or 0 |
| ServoConfig.PidPGainIgnored | rotors_gazebo_plugins/include/rotors_gazebo_plugins/motor_model_servo.hpp:118-121 | the "p" child never affects the arguments; explicit gains p=2, iMax=0.5 come out with proportional gain 0.5 |
| ServoConfig.ResolvePidIntended | rotors_gazebo_plugins/include/rotors_gazebo_plugins/motor_model_servo.hpp:115-127 | corrected reading: no element gives all zeros; otherwise each of the seven arguments comes from its own child, 0 when absent (p from "p", iMax from "iMax") |
| ServoConfig.PidRoundTrip | rotors_gazebo_plugins/include/rotors_gazebo_plugins/motor_model_servo.hpp:116-125 | gains written out explicitly are read back unchanged by the corrected reading; the code's reading returns them only when p, iMax and the uninitialised local coincide |
| ServoConfig.InitializeParams | rotors_gazebo_plugins/include/rotors_gazebo_plugins/motor_model_servo.hpp:73-131 | each limit and the zero offset is its element when present and its default otherwise; the torque limit always keeps its default; the mode is `ResolveMode` of the controlMode element and the direction `ResolveSpin` of the spinDirection element; the gains are the code's PID reading |
| ServoConfig.InitializeParamsIntended | rotors_gazebo_plugins/include/rotors_gazebo_plugins/motor_model_servo.hpp:115-125 | the configuration with the corrected PID reading; every other field (mode, direction, limits, offset, the default torque limit) is exactly what the code resolves |
| ServoConfig.PositionLimitsMayCross | rotors_gazebo_plugins/include/rotors_gazebo_plugins/motor_model_servo.hpp:107-110 | nothing orders the position limits: maxRotPosition=-1, minRotPosition=1 is accepted as given |
| Angles.CopySign | rotors_gazebo_plugins/include/rotors_gazebo_plugins/motor_model_servo.hpp:138 | the result has the magnitude of the first argument and the sign of the second |
| Angles.FmodTwoPi | rotors_gazebo_plugins/include/rotors_gazebo_plugins/motor_model_servo.hpp:137 | the remainder of a non-negative magnitude is in [0, 2*pi), no larger than the magnitude, and differs from it by whole turns |
| Angles.NormalizeAngle | rotors_gazebo_plugins/include/rotors_gazebo_plugins/motor_model_servo.hpp:135-152 | every real angle is mapped into [0, 2*pi) |
| Angles.NormalizeIsFloorMod | rotors_gazebo_plugins/include/rotors_gazebo_plugins/motor_model_servo.hpp:137-149 | the result equals the mathematical remainder modulo 2*pi (floor quotient), except for a non-negative angle whose remainder is within 1e-8 of 2*pi, which gives 0 |
| Angles.NormalizeFixedPoint | rotors_gazebo_plugins/include/rotors_gazebo_plugins/motor_model_servo.hpp:140-144 | an angle in [0, 2*pi) at least 1e-8 below 2*pi is returned unchanged |
| Angles.NormalizeSeam | rotors_gazebo_plugins/include/rotors_gazebo_plugins/motor_model_servo.hpp:141-144 | a non-negative angle whose remainder is within 1e-8 of 2*pi is returned as exactly 0 |
| Angles.NormalizePeriodicOnNonNegative | rotors_gazebo_plugins/include/rotors_gazebo_plugins/motor_model_servo.hpp:137-149 | adding any number of whole turns to a non-negative angle does not change its normalisation |
| Angles.NormalizeIdempotentAwayFromSeam | rotors_gazebo_plugins/include/rotors_gazebo_plugins/motor_model_servo.hpp:140-149 | normalising twice equals normalising once when the first result is at least 1e-8 below 2*pi |
| Angles.NormalizeNotIdempotent | rotors_gazebo_plugins/include/rotors_gazebo_plugins/motor_model_servo.hpp:141-149 | -0.5e-8 normalises to 2*pi - 0.5e-8, and normalising that again gives 0 |
| Angles.NormalizeNotPeriodic | rotors_gazebo_plugins/include/rotors_gazebo_plugins/motor_model_servo.hpp:141-149 | -0.5e-8 and that angle plus one turn normalise differently |
| Angles.PositionError | rotors_gazebo_plugins/include/rotors_gazebo_plugins/motor_model_servo.hpp:162-172 | the code's position error lies in (-2*pi, pi] and is 0 for equal normalised angles; the difference d of the normalised angles is kept when d <= pi - 1e-8, snapped to pi when within 1e-8 below pi, and reduced by one turn when above pi |
| Angles.PositionErrorBelowMinusPi | rotors_gazebo_plugins/include/rotors_gazebo_plugins/motor_model_servo.hpp:165-169 | measured 0.1 and reference 6.2 give an error of -6.1, below -pi, against the comment's [-pi, pi) |
| Angles.ShortestPositionError | rotors_gazebo_plugins/include/rotors_gazebo_plugins/motor_model_servo.hpp:165-172 | corrected error folded on both sides: in (-pi, pi], 0 for equal angles; the difference d is kept inside (-pi, pi - 1e-8], reduced by one turn above pi, raised by one turn at or below -pi - 1e-8, and snapped to pi within 1e-8 of +pi or -pi |
| Angles.ShortestNeverLonger | rotors_gazebo_plugins/include/rotors_gazebo_plugins/motor_model_servo.hpp:165-172 | the corrected error is never larger in magnitude than the code's, and equals it whenever the code's error is above -pi |
| Angles.ShortestPositionErrorWraps | rotors_gazebo_plugins/include/rotors_gazebo_plugins/motor_model_servo.hpp:165-172 | for measured 0.1 and reference 6.2 the corrected error is 0.1 - 6.2 + 2*pi, a small positive angle |
| ServoStep.ClampRef | rotors_gazebo_plugins/include/rotors_gazebo_plugins/motor_model_servo.hpp:160-161 | the clamped position reference is never below the minimum, is within ordered limits, is unchanged inside them, becomes the nearer limit outside them, and is the minimum when the limits cross |
| ServoStep.SaturateAsWritten | rotors_gazebo_plugins/include/rotors_gazebo_plugins/motor_model_servo.hpp:180-182 | the code's saturation keeps the magnitude of the reference and takes the sign of the bound: |ref| for a non-negative limit (uncapped), -|ref| for a negative one |
| ServoStep.Saturate | rotors_gazebo_plugins/include/rotors_gazebo_plugins/motor_model_servo.hpp:187-189 | corrected saturation keeps the sign of the reference; for a non-negative limit its magnitude is min(|ref|, limit), so a reference inside the limit passes through and one beyond it saturates to the limit; a negative limit gives magnitude -limit |
| ServoStep.SaturationArgumentOrder | rotors_gazebo_plugins/include/rotors_gazebo_plugins/motor_model_servo.hpp:180-182 | reference -5 with limit 1: the code gives +5, the corrected saturation -1 |
| ServoStep.SaturationAgreement | rotors_gazebo_plugins/include/rotors_gazebo_plugins/motor_model_servo.hpp:180-189 | for every input: with a non-negative limit the two saturations agree exactly on references in [0, limit]; with a negative limit exactly when the reference equals the limit |
| ServoStep.TrackingError | rotors_gazebo_plugins/include/rotors_gazebo_plugins/motor_model_servo.hpp:160-190 | in position mode the PID error is the code's position error of the measured angle against the reference clamped to the position limits, so it is in (-2*pi, pi] and 0 when the two normalise alike; in velocity mode it is measured velocity minus |reference| for a non-negative limit and plus |reference| for a negative one |
| ServoStep.Turned | rotors_gazebo_plugins/include/rotors_gazebo_plugins/motor_model_servo.hpp:175 | turning a force by the spin direction keeps its magnitude |
| ServoStep.TurnedIsProduct | rotors_gazebo_plugins/include/rotors_gazebo_plugins/motor_model_servo.hpp:175 | for every force, turning it equals multiplying it by the spin constant's integer value (-1 for CW, +1 for CCW), as `turning_direction_ * force` does |
| ServoStep.OpenLoopTorque | rotors_gazebo_plugins/include/rotors_gazebo_plugins/motor_model_servo.hpp:178-184 | the force-mode torque is the turned |effort reference| for a non-negative torque limit and the turned -|effort reference| for a negative one |
| ServoStep.Step | rotors_gazebo_plugins/include/rotors_gazebo_plugins/motor_model_servo.hpp:154-198 | force mode leaves the PID state alone and applies the open-loop torque (turned |effort|, negated for a negative limit); position and velocity modes apply the turned PID output for the tracking error and adopt the PID's next state |
| ServoStep.StepForceMagnitude | rotors_gazebo_plugins/include/rotors_gazebo_plugins/motor_model_servo.hpp:174-193 | the applied force has the magnitude of the PID output, or of the effort reference in force mode, for either spin direction and either sign of the torque limit |
| ServoStep.StepIgnoresZeroOffset | rotors_gazebo_plugins/include/rotors_gazebo_plugins/motor_model_servo.hpp:158-197 | the zero offset read at initialisation never changes a tick |
| ServoStep.StepIgnoresMeasuredEffort | rotors_gazebo_plugins/include/rotors_gazebo_plugins/motor_model_servo.hpp:157-197 | the joint force read at the start of the tick never changes its result |
| ServoStep.StepSeesClampedReference | rotors_gazebo_plugins/include/rotors_gazebo_plugins/motor_model_servo.hpp:160-163 | in position mode two references with the same clamped value give the same tick |
| ServoStep.StepClampsPositionReference | rotors_gazebo_plugins/include/rotors_gazebo_plugins/motor_model_servo.hpp:160-163 | with ordered limits, a position reference beyond a limit gives the same tick as that limit |
| ServoStep.StepAtReference | rotors_gazebo_plugins/include/rotors_gazebo_plugins/motor_model_servo.hpp:162-175 | when measured and clamped reference normalise to the same angle, the PID is fed exactly 0 |
| ServoStep.StepVelocitySignLost | rotors_gazebo_plugins/include/rotors_gazebo_plugins/motor_model_servo.hpp:186-193 | velocity references v and -v give the same tick, whatever the limit |
| ServoStep.Run | rotors_gazebo_plugins/include/rotors_gazebo_plugins/motor_model_servo.hpp:154-198 | successive calls on one servo: each force and next PID state is what the tick gives from the state the previous tick left (the `pid_` member persists across calls); in force mode the PID state never changes and each force is the open-loop torque for that tick's effort reference |
| ServoStep.RunIgnoresZeroOffset | rotors_gazebo_plugins/include/rotors_gazebo_plugins/motor_model_servo.hpp:111-112 | over any run of ticks the configured zero offset changes nothing |
| ServoStep.IntendedTrackingError | rotors_gazebo_plugins/include/rotors_gazebo_plugins/motor_model_servo.hpp:160-193 | corrected PID error: in position mode the shortest displacement, in (-pi, pi]; in velocity mode measured velocity minus the sign-preserving saturated reference, equal to measured minus reference when the reference is inside the limit |
| ServoStep.StepIntended | rotors_gazebo_plugins/include/rotors_gazebo_plugins/motor_model_servo.hpp:178-193 | corrected tick: in force mode the PID state is kept and, for a non-negative limit, the torque magnitude is min(|effort|, limit) with the sign of the turned effort reference; the closed-loop modes apply the turned PID output for the corrected error and adopt its next state |
| ServoStep.StepIntendedAgreement | rotors_gazebo_plugins/include/rotors_gazebo_plugins/motor_model_servo.hpp:159-193 | in velocity mode the corrected tick is exactly the turned PID output for measured minus reference when the reference is inside the limit; it equals the code's tick in position mode when the code's error is above -pi and in force mode for an effort reference in [0, limit] |

## Left out

- Joint access: the joint lookup by `jointName` in the constructor and the joint reads and writes (`Position`, `GetVelocity`, `GetForce`, `SetForce`) are host plumbing. Measured values are inputs and the force is the output.
- Description parsing: `HasElement`, `GetElement` and `getSdfParam` are replaced by `Option` fields. `getSdfParam` is defined in `common.h`, which is not part of this model.
- PID internals: `common::PID` belongs to an external library. `Init` is modelled only through the seven arguments it receives. `Update` is an arbitrary function of (state, error, dt), so nothing is claimed about its integral clamping, output clamping or behaviour at dt = 0.
- Default constants: `kDefault*` and the spin constants are defined in headers that are not part of this model.
- Floating point: NaN, infinities, signed zero and rounding are not modelled. `2 * M_PI` is exact in double, but `wrapped += 2 * M_PI` can round to 2*pi in double. The model uses exact reals.
- `Angles.NormalizeAngle`: the tolerance is the real 1e-8, not the nearest double.
- Logging (`gzwarn`, `gzerr`) and the empty `Publish` are not modelled.
- The `default` branch of the mode switch is not modelled. The resolved mode is always one of the three enumerators.

## Findings

| source | as written | input that shows it | evidently intended | confidence | as-written member | corrected member |
|---|---|---|---|---|---|---|
| rotors_gazebo_plugins/include/rotors_gazebo_plugins/motor_model_servo.hpp:121 | "iMax" is read into `p`, and `iMax` is passed to `Init` uninitialised | PID element with p=2, iMax=0.5: proportional gain 0.5 | "iMax" read into `iMax`, so `p` keeps the "p" value | high; not executed | ServoConfig.PidPGainIgnored | ServoConfig.PidRoundTrip |
| rotors_gazebo_plugins/include/rotors_gazebo_plugins/motor_model_servo.hpp:180-189 | `copysign(ref, min(abs(ref), limit))` takes its sign from the non-negative bound | effort reference -5, torque limit 1: force +5 | `copysign(min(abs(ref), limit), ref)` caps the magnitude and keeps the sign | high; not executed | ServoStep.SaturationArgumentOrder | ServoStep.Saturate |
| rotors_gazebo_plugins/include/rotors_gazebo_plugins/motor_model_servo.hpp:165-172 | only an error above pi is folded, so it stays in (-2*pi, pi] | measured 0.1, reference 6.2: error -6.1 | also fold errors at or below -pi, giving the shortest displacement in (-pi, pi] | high; not executed | Angles.PositionErrorBelowMinusPi | Angles.ShortestPositionError |

`ServoStep.Step` keeps the code's behaviour, so that it describes the plugin
as written. `ServoStep.StepIntended` and `ServoConfig.InitializeParamsIntended`
use the three corrections, and `ServoStep.StepIntendedAgreement` relates the
two ticks.
