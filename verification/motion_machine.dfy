/** One step of the activity's sensor callback and reset action: the current
    state and one input give the next state and the cues it starts. */
module MotionMachine {
  import opened MotionTypes

  /** x and y accelerations (m/s^2) must stay strictly below this for rest. */
  const TiltLimit: real := 0.5
  /** z acceleration (m/s^2) must exceed this for rest: gravity, device flat. */
  const GravityFloor: real := 9.5
  /** Rotation rate about z (rad/s) whose magnitude above this means moving. */
  const RotationLimit: real := 0.5

  /** A delivered sensor event: the first three entries of its values array,
      tagged by sensor type. A gyroscope event keeps all three axes even though
      only the third one is read. `OtherSensor` is an event from any sensor
      type other than these two; its values are never read. */
  datatype SensorEvent =
    | Accelerometer(x: real, y: real, z: real)
    | Gyroscope(x: real, y: real, z: real)
    | OtherSensor

  /** Everything that can drive the state: a callback with an event, a
      callback with a null event, or the reset button. */
  datatype Input =
    | SensorChanged(event: SensorEvent)
    | NullEvent
    | ResetPressed

  /** The state after a step and the cues started during it, in order. */
  datatype Outcome = Outcome(state: State, cues: seq<Cue>)

  function Abs(r: real): (a: real)
    ensures a >= 0.0
    ensures a == r || a == -r
  {
    if r < 0.0 then -r else r
  }

  /** The accelerometer's rest condition: z above the gravity floor, and x and
      y below the tilt limit. Only the positive side of x and y is bounded, so
      any negative x or y counts as at rest. */
  predicate AtRest(x: real, y: real, z: real)
  {
    x < TiltLimit && y < TiltLimit && z > GravityFloor
  }

  /** The gyroscope's motion condition on the z rotation rate. */
  predicate Rotating(z: real)
  {
    Abs(z) > RotationLimit
  }

  /** The state an accelerometer sample classifies the device into. */
  function Classify(x: real, y: real, z: real): (r: State)
    ensures r == Stable <==> x < 0.5 && y < 0.5 && z > 9.5
  {
    if AtRest(x, y, z) then Stable else Moving
  }

  /** Accelerometer branch: the state becomes the sample's classification,
      and a cue for the new state starts only when that differs from `s`. */
  function AccelStep(s: State, x: real, y: real, z: real): (o: Outcome)
    ensures o.state == Stable <==> AtRest(x, y, z)
    ensures o.cues == [] <==> o.state == s
    ensures o.state != s ==> o.cues == [CueFor(o.state)]
  {
    var next := Classify(x, y, z);
    if next != s then Outcome(next, [CueFor(next)]) else Outcome(s, [])
  }

  /** Gyroscope branch: a fast enough z rotation forces `Moving` and starts
      the moving cue, whether or not the state was already `Moving`. */
  function GyroStep(s: State, z: real): (o: Outcome)
    ensures o.state == (if Rotating(z) then Moving else s)
    ensures o.cues == [] || o.cues == [MovingCue]
    ensures o.cues == [MovingCue] <==> Rotating(z)
  {
    if Rotating(z) then Outcome(Moving, [MovingCue]) else Outcome(s, [])
  }

  /** One input applied to state `s`. Every step starts at most one cue,
      a cue always announces the state the step ends in, and the state never
      changes without a cue. */
  function Step(s: State, i: Input): (o: Outcome)
    ensures |o.cues| <= 1
    ensures o.cues != [] ==> o.cues[0] == CueFor(o.state)
    ensures o.state != s ==> o.cues != []
  {
    match i
    case NullEvent => Outcome(s, [])
    case ResetPressed => Outcome(Stable, [StableCue])
    case SensorChanged(e) =>
      match e
      case Accelerometer(x, y, z) => AccelStep(s, x, y, z)
      case Gyroscope(_, _, z) => GyroStep(s, z)
      case OtherSensor => Outcome(s, [])
  }

  /** An accelerometer sample yields `Stable` exactly when x < 0.5, y < 0.5
      and z > 9.5, whatever the state before it. */
  lemma AccelClassifies(s: State, t: State, x: real, y: real, z: real)
    ensures Step(s, SensorChanged(Accelerometer(x, y, z))).state == Stable
            <==> x < 0.5 && y < 0.5 && z > 9.5
    ensures Step(s, SensorChanged(Accelerometer(x, y, z))).state
            == Step(t, SensorChanged(Accelerometer(x, y, z))).state
  {
  }

  /** An accelerometer sample that changes the state starts exactly one cue,
      the one for the new state; one that does not change it starts none. */
  lemma AccelCuesOnlyOnChange(s: State, x: real, y: real, z: real)
    ensures var o := Step(s, SensorChanged(Accelerometer(x, y, z)));
            (o.state == s ==> o.cues == [])
            && (o.state != s ==> o.cues == [CueFor(o.state)])
  {
  }

  /** Feeding the same accelerometer sample twice: the second time nothing
      changes and no cue is started. */
  lemma AccelIdempotent(s: State, x: real, y: real, z: real)
    ensures var a := SensorChanged(Accelerometer(x, y, z));
            var o := Step(s, a);
            Step(o.state, a) == Outcome(o.state, [])
  {
  }

  /** A gyroscope sample with |z| > 0.5 always ends in `Moving` with exactly
      one moving cue, also when the state was already `Moving`. */
  lemma GyroOverThreshold(s: State, x: real, y: real, z: real)
    requires z > 0.5 || z < -0.5
    ensures Step(s, SensorChanged(Gyroscope(x, y, z))) == Outcome(Moving, [MovingCue])
  {
  }

  /** A gyroscope sample with |z| <= 0.5 changes nothing and is silent. */
  lemma GyroUnderThreshold(s: State, x: real, y: real, z: real)
    requires -0.5 <= z <= 0.5
    ensures Step(s, SensorChanged(Gyroscope(x, y, z))) == Outcome(s, [])
  {
  }

  /** A gyroscope sample never makes the device `Stable`, and its x and y
      components have no influence on the step. */
  lemma GyroNeverStabilizes(s: State, x: real, y: real, x': real, y': real, z: real)
    ensures Step(s, SensorChanged(Gyroscope(x, y, z))).state == Stable ==> s == Stable
    ensures Step(s, SensorChanged(Gyroscope(x, y, z)))
            == Step(s, SensorChanged(Gyroscope(x', y', z)))
  {
  }

  /** Reset always ends in `Stable` with exactly one stable cue, also when
      the state was already `Stable`. */
  lemma ResetForcesStable(s: State)
    ensures Step(s, ResetPressed) == Outcome(Stable, [StableCue])
  {
  }

  /** A null event, or an event from any other sensor, changes nothing. */
  lemma IgnoredInputsChangeNothing(s: State)
    ensures Step(s, NullEvent) == Outcome(s, [])
    ensures Step(s, SensorChanged(OtherSensor)) == Outcome(s, [])
  {
  }

  /** The asymmetry between the two sensors: while `Moving`, a moving
      accelerometer sample starts no cue but a rotating gyroscope sample
      starts the moving cue again. */
  lemma GyroRefiresWhileMoving(x: real, y: real, z: real, gx: real, gy: real, rate: real)
    requires !AtRest(x, y, z)
    requires Rotating(rate)
    ensures Step(Moving, SensorChanged(Accelerometer(x, y, z))) == Outcome(Moving, [])
    ensures Step(Moving, SensorChanged(Gyroscope(gx, gy, rate))) == Outcome(Moving, [MovingCue])
  {
  }

  /** The worked scenarios for a single step. */
  lemma Scenarios()
    ensures Step(Stable, SensorChanged(Accelerometer(0.1, 0.1, 9.8))) == Outcome(Stable, [])
    ensures Step(Stable, SensorChanged(Accelerometer(0.6, 0.1, 9.8))) == Outcome(Moving, [MovingCue])
    ensures Step(Moving, SensorChanged(Gyroscope(0.0, 0.0, 0.6))) == Outcome(Moving, [MovingCue])
    ensures Step(Moving, ResetPressed) == Outcome(Stable, [StableCue])
    ensures Step(Stable, SensorChanged(Accelerometer(0.5, 0.1, 9.8))) == Outcome(Moving, [MovingCue])
    ensures Step(Stable, SensorChanged(Accelerometer(0.1, 0.1, 9.5))) == Outcome(Moving, [MovingCue])
    ensures Step(Stable, SensorChanged(Gyroscope(0.0, 0.0, -0.6))) == Outcome(Moving, [MovingCue])
    ensures Step(Stable, SensorChanged(Gyroscope(9.0, 9.0, 0.5))) == Outcome(Stable, [])
    ensures Step(Moving, SensorChanged(Accelerometer(-5.0, -5.0, 9.8))) == Outcome(Stable, [StableCue])
  {
  }
}
