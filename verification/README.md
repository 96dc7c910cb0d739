# Motion state machine of the sensor screen

This project models the only logic in the sensor app, which lives in
`MainActivity`. The app classifies the device as **Stable** ("Estable") or
**Moving** ("En Movimiento") from accelerometer and gyroscope samples. It starts
a "stable" or "moving" sound as the state changes, and it offers a reset
button.

The model is a pure transition function:
`MotionMachine.Step(state, input) -> Outcome(state, cues)`. An input is one
of three things:

- a sensor callback carrying an accelerometer, gyroscope or other-sensor event;
- a callback with a null event;
- a press of the reset button.

A cue (`StableCue` or `MovingCue`) stands for a call to `start()` on the
matching sound. `MotionRuns.Run` applies a sequence of inputs one after another,
as the main thread does. `MotionRuns.Session` is the same thing written as a loop
over the mutable `isMoving` flag.

Modules:

- `MotionTypes` (motion_types.dfy): the state, the cues, the initial state and the on-screen label.
- `MotionMachine` (motion_machine.dfy): the thresholds, the inputs, one step, and the per-input properties.
- `MotionRuns` (motion_runs.dfy): sequences of inputs and the properties of whole sessions.

Two details of the code:

- The labels are the code's Spanish strings, "En Movimiento" and "Estable".
- The accelerometer branch starts a sound only when the state changes. The gyroscope branch does not check for a change. So a gyroscope sample over the threshold starts the moving sound every time, even when the state is already Moving.

## Model

| member | source | states |
|---|---|---|
| MotionTypes.InitialIsStable | app/src/main/java/com/example/sensorappcompose/MainActivity.kt:29 | the activity starts Stable, and the screen then shows "Estable" |
| MotionTypes.CueRoundTrip | app/src/main/java/com/example/sensorappcompose/MainActivity.kt:81-85 | each state has its own cue and each cue announces exactly one state |
| MotionTypes.Display | app/src/main/java/com/example/sensorappcompose/MainActivity.kt:114 | the label is "En Movimiento" exactly when the state is Moving and "Estable" exactly when it is Stable |
| MotionTypes.DisplayDistinguishes | app/src/main/java/com/example/sensorappcompose/MainActivity.kt:114 | two states show the same label only if they are the same state |
| MotionMachine.Classify | app/src/main/java/com/example/sensorappcompose/MainActivity.kt:76 | an accelerometer sample is classified Stable iff x < 0.5, y < 0.5 and z > 9.5, and Moving otherwise |
| MotionMachine.AccelStep | app/src/main/java/com/example/sensorappcompose/MainActivity.kt:70-87 | an accelerometer sample gives Stable iff it is at rest; no cue iff the state is unchanged; on a change, exactly the cue for the new state |
| MotionMachine.GyroStep | app/src/main/java/com/example/sensorappcompose/MainActivity.kt:88-94 | a gyroscope step ends Moving if abs(z) > 0.5 and otherwise keeps the state; it starts the moving cue iff abs(z) > 0.5, and no other cue |
| MotionMachine.Step | app/src/main/java/com/example/sensorappcompose/MainActivity.kt:67-97 | any input starts at most one cue; a cue always announces the state the step ends in; the state never changes silently |
| MotionMachine.AccelClassifies | app/src/main/java/com/example/sensorappcompose/MainActivity.kt:76 | an accelerometer sample ends Stable iff x < 0.5, y < 0.5 and z > 9.5; the outcome state does not depend on the prior state |
| MotionMachine.AccelCuesOnlyOnChange | app/src/main/java/com/example/sensorappcompose/MainActivity.kt:79-86 | a sample that keeps the state starts no cue; one that changes it starts exactly one cue, the one for the new state |
| MotionMachine.AccelIdempotent | app/src/main/java/com/example/sensorappcompose/MainActivity.kt:79-86 | delivering the same accelerometer sample a second time changes nothing and starts no cue |
| MotionMachine.GyroOverThreshold | app/src/main/java/com/example/sensorappcompose/MainActivity.kt:89-93 | a gyroscope sample with abs(z) > 0.5 ends Moving with exactly one moving cue, from either state |
| MotionMachine.GyroUnderThreshold | app/src/main/java/com/example/sensorappcompose/MainActivity.kt:90-94 | a gyroscope sample with abs(z) <= 0.5 keeps the state and starts no cue |
| MotionMachine.GyroNeverStabilizes | app/src/main/java/com/example/sensorappcompose/MainActivity.kt:88-94 | a gyroscope sample never leads from Moving to Stable, and its x and y components do not affect the step |
| MotionMachine.ResetForcesStable | app/src/main/java/com/example/sensorappcompose/MainActivity.kt:59-62 | reset ends Stable with exactly one stable cue, also when already Stable |
| MotionMachine.IgnoredInputsChangeNothing | app/src/main/java/com/example/sensorappcompose/MainActivity.kt:67-97 | a null event, or an event from any other sensor type, keeps the state and starts no cue |
| MotionMachine.GyroRefiresWhileMoving | app/src/main/java/com/example/sensorappcompose/MainActivity.kt:79-93 | while Moving, a moving accelerometer sample starts no cue but a rotating gyroscope sample starts the moving cue again |
| MotionMachine.Scenarios | app/src/main/java/com/example/sensorappcompose/MainActivity.kt:76-93 | concrete single steps, including the boundary values 0.5 and 9.5, which count as not at rest, and large negative x and y, which count as at rest |
| MotionRuns.Run | app/src/main/java/com/example/sensorappcompose/MainActivity.kt:67-97 | a run of n inputs starts at most n cues; a run that starts no cue leaves the state unchanged |
| MotionRuns.RunEndsOnLastCue | app/src/main/java/com/example/sensorappcompose/MainActivity.kt:59-93 | the last cue a run starts announces the state the run ends in |
| MotionRuns.RunAppend | app/src/main/java/com/example/sensorappcompose/MainActivity.kt:67-97 | running a then b is the same as running a + b: states chain and cues concatenate |
| MotionRuns.ScreenMatchesLastCue | app/src/main/java/com/example/sensorappcompose/MainActivity.kt:114 | from the initial state, the label on screen is the one announced by the last cue started, or "Estable" if none was started |
| MotionRuns.AccelRunAlternates | app/src/main/java/com/example/sensorappcompose/MainActivity.kt:76-86 | with only accelerometer samples, consecutive cues alternate, and the first cue announces leaving the starting state |
| MotionRuns.AccelRunFollowsLastSample | app/src/main/java/com/example/sensorappcompose/MainActivity.kt:76-80 | with only accelerometer samples, the final state is the classification of the last sample |
| MotionRuns.RotatingBurstRefires | app/src/main/java/com/example/sensorappcompose/MainActivity.kt:89-93 | n fast rotations in a row start the moving cue n times and end Moving |
| MotionRuns.ResetAfterAnything | app/src/main/java/com/example/sensorappcompose/MainActivity.kt:59-62 | reset after any history ends Stable, with one stable cue added to the cues started before |
| MotionRuns.AccelTwiceStartsOnce | app/src/main/java/com/example/sensorappcompose/MainActivity.kt:79-86 | the same accelerometer sample delivered twice in a row starts the same cues as delivering it once |
| MotionRuns.Session | app/src/main/java/com/example/sensorappcompose/MainActivity.kt:29-97 | the in-place loop over isMoving, starting false, computes the same run; with no cue it ends Stable, otherwise the last cue announces the final state |

## Left out

- Activity lifecycle and sensor plumbing (`onCreate`, listener registration and unregistration, `onDestroy`, `onAccuracyChanged`): these are platform I/O. A missing sensor only means that some kinds of input never arrive, and every input sequence is already covered.
- `MediaPlayer` creation, `start()` and `release()`: these are foreign calls. A cue is an emitted event. The players are treated as always present, so a null player that would skip its sound is not modelled. In the app, calling `start()` on a clip that is still playing does nothing you can hear. So a burst of cues during one clip is heard once. The model counts cues started, not sounds heard.
- Compose layout and styling: this is UI. Only the choice of label is kept.
- Races between a reset press and a sensor callback already in progress: the model is sequential, as the main thread is.
- Floating point: readings are mathematical reals compared with the constants. NaN is not modelled. In the app, an accelerometer NaN gives Moving, and a gyroscope NaN is ignored. Rounding is not modelled either.
- The event's `values` array is reduced to its first three entries. The platform always delivers at least three values for these two sensor types, so the out-of-bounds case is not modelled.
