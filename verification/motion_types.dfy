/** The two-state motion classification shown by the sensor screen, and the
    two audio cues that announce it. */
module MotionTypes {

  /** Whether the device is judged to be at rest. `Moving` is the activity's
      `isMoving == true`, `Stable` is `isMoving == false`. */
  datatype State = Stable | Moving

  /** The two sounds the activity can start: the "estable" clip and the
      "movimiento" clip. A cue is an emitted event; playback itself is not
      modelled. */
  datatype Cue = StableCue | MovingCue

  /** The state the activity starts in: `isMoving` is created as false. */
  const Initial: State := Stable

  /** The activity starts `Stable`, showing "Estable". */
  lemma InitialIsStable()
    ensures Initial == Stable
    ensures Display(Initial) == "Estable"
  {
  }

  /** The cue that announces entering state `s`. */
  function CueFor(s: State): Cue
  {
    match s
    case Stable => StableCue
    case Moving => MovingCue
  }

  /** The state a cue announces. */
  function Announced(c: Cue): State
  {
    match c
    case StableCue => Stable
    case MovingCue => Moving
  }

  /** Each state has its own cue, and a cue names exactly one state. */
  lemma CueRoundTrip(s: State, c: Cue)
    ensures Announced(CueFor(s)) == s
    ensures CueFor(Announced(c)) == c
    ensures CueFor(s) == c <==> Announced(c) == s
  {
  }

  /** The label the screen shows for a state. */
  function Display(s: State): (text: string)
    ensures text == "En Movimiento" <==> s == Moving
    ensures text == "Estable" <==> s == Stable
  {
    match s
    case Moving => "En Movimiento"
    case Stable => "Estable"
  }

  /** The screen never shows the same label for both states. */
  lemma DisplayDistinguishes(s: State, t: State)
    ensures Display(s) == Display(t) <==> s == t
  {
  }
}
