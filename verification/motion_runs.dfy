/** Sequences of inputs: the activity handles callbacks and reset presses one
    at a time, so a session is the left-to-right composition of steps. */
module MotionRuns {
  import opened MotionTypes
  import opened MotionMachine

  /** The inputs `ins` applied in order from state `s`; the cues of all the
      steps, in the order they were started. Each step starts at most one cue,
      and a run that starts none leaves the state where it was. */
  function Run(s: State, ins: seq<Input>): (o: Outcome)
    ensures |o.cues| <= |ins|
    ensures o.cues == [] ==> o.state == s
    decreases |ins|
  {
    if ins == [] then Outcome(s, [])
    else
      var first := Step(s, ins[0]);
      var rest := Run(first.state, ins[1..]);
      Outcome(rest.state, first.cues + rest.cues)
  }

  /** The last cue a run starts announces the state the run ends in. */
  lemma {:induction false} RunEndsOnLastCue(s: State, ins: seq<Input>)
    ensures var o := Run(s, ins);
            o.cues != [] ==> o.cues[|o.cues| - 1] == CueFor(o.state)
    decreases |ins|
  {
    if ins != [] {
      RunEndsOnLastCue(Step(s, ins[0]).state, ins[1..]);
    }
  }

  /** A run of one input is that input's step. */
  lemma RunOne(s: State, i: Input)
    ensures Run(s, [i]) == Step(s, i)
  {
    assert [i][1..] == [];
  }

  /** Running `a` and then `b` is running `a + b`. */
  lemma {:induction false} RunAppend(s: State, a: seq<Input>, b: seq<Input>)
    ensures var ra := Run(s, a);
            var rb := Run(ra.state, b);
            Run(s, a + b) == Outcome(rb.state, ra.cues + rb.cues)
    decreases |a|
  {
    if a == [] {
      assert a + b == b;
    } else {
      assert (a + b)[0] == a[0];
      assert (a + b)[1..] == a[1..] + b;
      var first := Step(s, a[0]);
      RunAppend(first.state, a[1..], b);
    }
  }

  /** From the initial state, the label on screen is the one announced by the
      last cue started, or "Estable" if no cue was started yet. */
  lemma ScreenMatchesLastCue(ins: seq<Input>)
    ensures var o := Run(Initial, ins);
            Display(o.state)
            == if o.cues == [] then "Estable" else Display(Announced(o.cues[|o.cues| - 1]))
  {
    var o := Run(Initial, ins);
    RunEndsOnLastCue(Initial, ins);
    CueRoundTrip(o.state, CueFor(o.state));
  }

  /** Every input is an accelerometer sample. */
  predicate AccelOnly(ins: seq<Input>)
  {
    forall k :: 0 <= k < |ins| ==> ins[k].SensorChanged? && ins[k].event.Accelerometer?
  }

  /** No two consecutive cues are the same. */
  predicate Alternating(cues: seq<Cue>)
  {
    forall k :: 0 <= k < |cues| - 1 ==> cues[k] != cues[k + 1]
  }

  /** With only the accelerometer, cues alternate between moving and stable,
      and the first one announces leaving the starting state. */
  lemma {:induction false} AccelRunAlternates(s: State, ins: seq<Input>)
    requires AccelOnly(ins)
    ensures var c := Run(s, ins).cues;
            Alternating(c) && (c != [] ==> c[0] != CueFor(s))
    decreases |ins|
  {
    if ins != [] {
      var first := Step(s, ins[0]);
      var rest := Run(first.state, ins[1..]);
      assert AccelOnly(ins[1..]) by {
        forall k | 0 <= k < |ins[1..]|
          ensures ins[1..][k].SensorChanged? && ins[1..][k].event.Accelerometer?
        {
          assert ins[1..][k] == ins[k + 1];
        }
      }
      AccelRunAlternates(first.state, ins[1..]);
      if first.cues != [] {
        var c := Run(s, ins).cues;
        assert c == first.cues + rest.cues;
        assert first.state != s;
        CueRoundTrip(first.state, CueFor(s));
        assert c[0] != CueFor(s);
        forall k | 0 <= k < |c| - 1
          ensures c[k] != c[k + 1]
        {
          if k > 0 {
            assert c[k] == rest.cues[k - 1] && c[k + 1] == rest.cues[k];
          }
        }
      }
    }
  }

  /** With only the accelerometer, the final state is the classification of
      the last sample: there is no memory of earlier samples. */
  lemma {:induction false} AccelRunFollowsLastSample(s: State, ins: seq<Input>)
    requires AccelOnly(ins) && ins != []
    ensures var e := ins[|ins| - 1].event;
            Run(s, ins).state == Classify(e.x, e.y, e.z)
    decreases |ins|
  {
    var first := Step(s, ins[0]);
    if |ins| > 1 {
      assert ins[1..][|ins[1..]| - 1] == ins[|ins| - 1];
      assert AccelOnly(ins[1..]) by {
        forall k | 0 <= k < |ins[1..]|
          ensures ins[1..][k].SensorChanged? && ins[1..][k].event.Accelerometer?
        {
          assert ins[1..][k] == ins[k + 1];
        }
      }
      AccelRunFollowsLastSample(first.state, ins[1..]);
    } else {
      assert ins[1..] == [];
    }
  }

  /** Every input is a gyroscope sample over the rotation threshold. */
  predicate RotatingBurst(ins: seq<Input>)
  {
    forall k :: 0 <= k < |ins| ==>
      ins[k].SensorChanged? && ins[k].event.Gyroscope? && Rotating(ins[k].event.z)
  }

  /** A burst of fast rotations starts the moving cue once per sample, however
      long the device has already been `Moving`. */
  lemma {:induction false} RotatingBurstRefires(s: State, ins: seq<Input>)
    requires RotatingBurst(ins)
    ensures Run(s, ins).cues == seq(|ins|, _ => MovingCue)
    ensures ins != [] ==> Run(s, ins).state == Moving
    decreases |ins|
  {
    if ins != [] {
      var first := Step(s, ins[0]);
      assert first == Outcome(Moving, [MovingCue]);
      assert RotatingBurst(ins[1..]) by {
        forall k | 0 <= k < |ins[1..]|
          ensures ins[1..][k].SensorChanged? && ins[1..][k].event.Gyroscope?
                  && Rotating(ins[1..][k].event.z)
        {
          assert ins[1..][k] == ins[k + 1];
        }
      }
      RotatingBurstRefires(Moving, ins[1..]);
      assert [MovingCue] + seq(|ins| - 1, _ => MovingCue) == seq(|ins|, _ => MovingCue);
    }
  }

  /** Pressing reset after any history ends `Stable`, with the stable cue
      appended to the cues started before. */
  lemma ResetAfterAnything(s: State, ins: seq<Input>)
    ensures Run(s, ins + [ResetPressed])
            == Outcome(Stable, Run(s, ins).cues + [StableCue])
  {
    RunAppend(s, ins, [ResetPressed]);
    RunOne(Run(s, ins).state, ResetPressed);
  }

  /** The same accelerometer sample delivered twice in a row starts at most
      one cue: the second delivery adds nothing. */
  lemma AccelTwiceStartsOnce(s: State, x: real, y: real, z: real)
    ensures var a := SensorChanged(Accelerometer(x, y, z));
            Run(s, [a, a]) == Step(s, a)
  {
    var a := SensorChanged(Accelerometer(x, y, z));
    RunAppend(s, [a], [a]);
    assert [a] + [a] == [a, a];
    RunOne(s, a);
    RunOne(Step(s, a).state, a);
    AccelIdempotent(s, x, y, z);
  }

  /** The activity's session: `isMoving` starts false and each callback or
      reset press updates it in place, collecting the cues it starts. */
  method Session(ins: seq<Input>) returns (state: State, cues: seq<Cue>)
    ensures Outcome(state, cues) == Run(Initial, ins)
    ensures |cues| <= |ins|
    ensures cues == [] ==> state == Stable
    ensures cues != [] ==> cues[|cues| - 1] == CueFor(state)
  {
    state := Initial;
    cues := [];
    var n := 0;
    while n < |ins|
      invariant 0 <= n <= |ins|
      invariant Outcome(state, cues) == Run(Initial, ins[..n])
    {
      var o := Step(state, ins[n]);
      RunAppend(Initial, ins[..n], [ins[n]]);
      RunOne(state, ins[n]);
      assert ins[..n] + [ins[n]] == ins[..n + 1];
      state, cues := o.state, cues + o.cues;
      n := n + 1;
    }
    assert ins[..n] == ins;
    RunEndsOnLastCue(Initial, ins);
  }
}
