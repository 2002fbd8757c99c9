/**
  The Simon Says round as a pure state machine over the game's state
  variables: the active command, the tilt, shake and motion flags, and the
  motion path.

  `Start` is a new round, `Observe` is the accelerometer listener's work on
  one sample, `Resolution` is the effect that reacts to the flags, and `Step`
  is one sample followed by that effect. The class in module Game performs
  the same updates in place.
 */
module RoundEngine {
  import opened Gestures

  datatype Outcome = Success | Failure

  /** The state variables of the game screen. */
  datatype Round = Round(command: Option<string>, tilt: bool, shake: bool, motion: bool, path: seq<Sample>)

  /** The state before the first round: no command, nothing detected, no path. */
  const Idle: Round := Round(None, false, false, false, [])

  /** At least one detection flag is set: `tiltDetected || shakeDetected || motionDetected`. */
  predicate Detected(st: Round) {
    st.tilt || st.shake || st.motion
  }

  /** No detection flag is set. */
  predicate Quiet(st: Round) {
    !Detected(st)
  }

  /**
    Quiet, and idle or running a catalog command. `Idle` and every `Start` are
    fresh, and every step keeps a fresh state fresh (`StepFromFresh`,
    `NoFailureEver`).
   */
  predicate Fresh(st: Round) {
    Quiet(st) && (st.command.None? || st.command.value in Commands)
  }

  /** `startGame`: a catalog command chosen by `random`, every flag cleared, the path emptied. */
  function Start(random: Random): (st: Round)
    ensures st.command.Some? && st.command.value in Commands
    ensures Quiet(st) && st.path == []
    ensures Fresh(st)
  {
    Round(Some(Commands[PickIndex(random)]), false, false, false, [])
  }

  /**
    The accelerometer listener on one sample: the shake, tilt and move-up
    tests, each gated on the command, then the sample appended to the path.
   */
  function Observe(st: Round, s: Sample): (next: Round)
    ensures next.command == st.command
    ensures next.path == st.path + [s]
    ensures (st.tilt ==> next.tilt) && (st.shake ==> next.shake) && (st.motion ==> next.motion)
    ensures next.shake != st.shake ==> st.command == Some(ShakeCommand) && IsShaking(s)
    ensures next.tilt != st.tilt ==>
              || (st.command == Some(TiltLeftCommand) && s.x < -TiltThreshold)
              || (st.command == Some(TiltRightCommand) && s.x > TiltThreshold)
    ensures next.motion != st.motion ==> st.command == Some(MoveUpCommand) && s.y < MoveUpThreshold
    ensures Target(st.command).None? ==> next == st.(path := st.path + [s])
  {
    var shake := IsShaking(s);
    var shakeDetected := if shake && st.command == Some(ShakeCommand) then true else st.shake;
    var tiltDetected :=
      if st.command == Some(TiltLeftCommand) && s.x < -TiltThreshold then true
      else if st.command == Some(TiltRightCommand) && s.x > TiltThreshold then true
      else st.tilt;
    var motionDetected := if st.command == Some(MoveUpCommand) && s.y < MoveUpThreshold then true else st.motion;
    Round(st.command, tiltDetected, shakeDetected, motionDetected, st.path + [s])
  }

  /** The sample shows the gesture that the command asks for. */
  predicate Shows(command: Option<string>, s: Sample) {
    Target(command).Some? && Target(command).value in Classify(s)
  }

  /**
    The listener raises a flag exactly when the sample shows the gesture the
    command asks for, and it raises that gesture's own flag.
   */
  lemma ObserveMatchesClassifier(st: Round, s: Sample)
    ensures Observe(st, s).shake <==> st.shake || (Target(st.command) == Some(Shake) && Shake in Classify(s))
    ensures Observe(st, s).tilt <==>
              || st.tilt
              || (Target(st.command) == Some(TiltLeft) && TiltLeft in Classify(s))
              || (Target(st.command) == Some(TiltRight) && TiltRight in Classify(s))
    ensures Observe(st, s).motion <==> st.motion || (Target(st.command) == Some(MoveUp) && MoveUp in Classify(s))
    ensures Detected(Observe(st, s)) <==> Detected(st) || Shows(st.command, s)
  {
  }

  /** The Simon Says effect's decision: a set flag is a success under Simon's command, a failure otherwise. */
  function Verdict(st: Round): (o: Option<Outcome>)
    ensures o.Some? <==> Detected(st)
    ensures o == Some(Success) <==> Detected(st) && SaysSimon(st.command)
    ensures o == Some(Failure) <==> Detected(st) && !SaysSimon(st.command)
  {
    if SaysSimon(st.command) then
      if Detected(st) then Some(Success) else None
    else if Detected(st) then Some(Failure)
    else None
  }

  /**
    The Simon Says effect: report the verdict and, if there is one, start a
    new round with `random`; otherwise leave the state alone.
   */
  function Resolution(st: Round, random: Random): (res: (Option<Outcome>, Round))
    ensures res.0 == Verdict(st)
    ensures res.0.Some? ==> res.1 == Start(random)
    ensures res.0.None? ==> res.1 == st
    ensures Quiet(res.1)
  {
    var o := Verdict(st);
    if o.Some? then (o, Start(random)) else (o, st)
  }

  /** One sample, then the effect reacting to any flag it set. */
  function Step(st: Round, s: Sample, random: Random): (res: (Option<Outcome>, Round))
    ensures Quiet(res.1)
  {
    Resolution(Observe(st, s), random)
  }

  /** A stream of samples fed one by one, each followed by the effect; `randoms` feeds the restarts. */
  function Run(st: Round, samples: seq<Sample>, randoms: seq<Random>): (res: (seq<Option<Outcome>>, Round))
    requires |randoms| == |samples|
    ensures |res.0| == |samples|
    decreases |samples|
  {
    if samples == [] then ([], st)
    else
      var (o, next) := Step(st, samples[0], randoms[0]);
      var (os, last) := Run(next, samples[1..], randoms[1..]);
      ([o] + os, last)
  }

  /** A run over two streams in a row is the run over the first, continued by the run over the second. */
  lemma {:induction false} RunAppend(st: Round, a: seq<Sample>, b: seq<Sample>, ra: seq<Random>, rb: seq<Random>)
    requires |ra| == |a| && |rb| == |b|
    ensures Run(st, a + b, ra + rb)
            == (Run(st, a, ra).0 + Run(Run(st, a, ra).1, b, rb).0, Run(Run(st, a, ra).1, b, rb).1)
    decreases |a|
  {
    if a == [] {
      assert a + b == b && ra + rb == rb;
      assert Run(st, a, ra) == ([], st);
      assert [] + Run(st, b, rb).0 == Run(st, b, rb).0;
    } else {
      assert (a + b)[0] == a[0] && (a + b)[1..] == a[1..] + b;
      assert (ra + rb)[0] == ra[0] && (ra + rb)[1..] == ra[1..] + rb;
      var (o, next) := Step(st, a[0], ra[0]);
      RunAppend(next, a[1..], b, ra[1..], rb);
      var (os, mid) := Run(next, a[1..], ra[1..]);
      assert Run(st, a, ra) == ([o] + os, mid);
      var (ps, last) := Run(mid, b, rb);
      assert Run(next, a[1..] + b, ra[1..] + rb) == (os + ps, last);
      assert Run(st, a + b, ra + rb) == ([o] + (os + ps), last);
      assert [o] + (os + ps) == ([o] + os) + ps;
    }
  }

  /** `n` samples that resolve nothing. */
  function NoOutcomes(n: nat): (os: seq<Option<Outcome>>)
    ensures |os| == n && forall i :: 0 <= i < n ==> os[i].None?
  {
    seq(n, _ => None)
  }

  /**
    While no sample shows the commanded gesture, nothing resolves: the command
    and the cleared flags stay, and every sample is appended to the path in
    arrival order.
   */
  lemma {:induction false} QuietRun(st: Round, samples: seq<Sample>, randoms: seq<Random>)
    requires Quiet(st) && |randoms| == |samples|
    requires forall i :: 0 <= i < |samples| ==> !Shows(st.command, samples[i])
    ensures Run(st, samples, randoms) == (NoOutcomes(|samples|), st.(path := st.path + samples))
    decreases |samples|
  {
    if samples == [] {
      assert st.path + samples == st.path;
    } else {
      ObserveMatchesClassifier(st, samples[0]);
      var next := st.(path := st.path + [samples[0]]);
      assert Step(st, samples[0], randoms[0]) == (None, next);
      QuietRun(next, samples[1..], randoms[1..]);
      assert next.path + samples[1..] == st.path + samples;
      assert [None] + NoOutcomes(|samples| - 1) == NoOutcomes(|samples|);
    }
  }

  /**
    Under "Do not Move", or before the first round, no sample ever resolves
    the round: the failure branch of the effect cannot be reached this way.
   */
  lemma HoldStillNeverResolves(st: Round, samples: seq<Sample>, randoms: seq<Random>)
    requires Quiet(st) && |randoms| == |samples|
    requires st.command == Some(DoNotMoveCommand) || st.command.None?
    ensures Run(st, samples, randoms) == (NoOutcomes(|samples|), st.(path := st.path + samples))
  {
    QuietRun(st, samples, randoms);
  }

  /**
    The round resolves on the first sample that shows the commanded gesture,
    as a success, after that sample was appended to the path; a new round
    follows at once.
   */
  lemma FirstShowResolves(st: Round, samples: seq<Sample>, s: Sample, randoms: seq<Random>, random: Random)
    requires Quiet(st) && |randoms| == |samples|
    requires forall i :: 0 <= i < |samples| ==> !Shows(st.command, samples[i])
    requires Shows(st.command, s)
    ensures Run(st, samples, randoms) == (NoOutcomes(|samples|), st.(path := st.path + samples))
    ensures Detected(Observe(Run(st, samples, randoms).1, s))
    ensures Observe(Run(st, samples, randoms).1, s).path == st.path + samples + [s]
    ensures Run(st, samples + [s], randoms + [random]) == (NoOutcomes(|samples|) + [Some(Success)], Start(random))
  {
    var before := st.(path := st.path + samples);
    QuietRun(st, samples, randoms);
    assert Run(st, samples, randoms) == (NoOutcomes(|samples|), before);
    ShowingStepSucceeds(before, s, random);
    RunSingle(before, s, random);
    assert Run(before, [s], [random]) == ([Some(Success)], Start(random));
    RunAppend(st, samples, [s], randoms, [random]);
  }

  /** A run over a single sample is one step. */
  lemma RunSingle(st: Round, s: Sample, random: Random)
    ensures Run(st, [s], [random]) == ([Step(st, s, random).0], Step(st, s, random).1)
  {
    var (o, next) := Step(st, s, random);
    assert [s][1..] == [] && [random][1..] == [];
    assert Run(next, [], []) == ([], next);
    assert [o] + [] == [o];
  }

  /** A sample showing the commanded gesture, taken in a quiet state, is a success and restarts the round. */
  lemma ShowingStepSucceeds(st: Round, s: Sample, random: Random)
    requires Quiet(st) && Shows(st.command, s)
    ensures Detected(Observe(st, s))
    ensures Step(st, s, random) == (Some(Success), Start(random))
  {
    ObserveMatchesClassifier(st, s);
    assert SaysSimon(st.command);
  }

  /** From a fresh state one step never fails, and the state stays fresh. */
  lemma StepFromFresh(st: Round, s: Sample, random: Random)
    requires Fresh(st)
    ensures Step(st, s, random).0 != Some(Failure)
    ensures Fresh(Step(st, s, random).1)
  {
    ObserveMatchesClassifier(st, s);
    if Shows(st.command, s) {
      assert SaysSimon(st.command);
    }
  }

  /** From the idle state or any fresh round, no stream of samples ever produces a failure. */
  lemma {:induction false} NoFailureEver(st: Round, samples: seq<Sample>, randoms: seq<Random>)
    requires Fresh(st) && |randoms| == |samples|
    ensures forall i :: 0 <= i < |samples| ==> Run(st, samples, randoms).0[i] != Some(Failure)
    ensures Fresh(Run(st, samples, randoms).1)
    decreases |samples|
  {
    if samples != [] {
      StepFromFresh(st, samples[0], randoms[0]);
      NoFailureEver(Step(st, samples[0], randoms[0]).1, samples[1..], randoms[1..]);
    }
  }

  /** A shake round: ten samples of magnitude 1 change nothing, and one of magnitude 2 resolves it on the eleventh. */
  lemma ShakeRoundExample(randoms: seq<Random>, random: Random)
    requires |randoms| == 10
    ensures var st := Round(Some(ShakeCommand), false, false, false, []);
            var calm := seq(10, _ => Sample(0.0, 0.0, 1.0));
            && Run(st, calm, randoms) == (NoOutcomes(10), st.(path := calm))
            && |Observe(Run(st, calm, randoms).1, Sample(0.0, 0.0, 2.0)).path| == 11
            && Run(st, calm + [Sample(0.0, 0.0, 2.0)], randoms + [random])
               == (NoOutcomes(10) + [Some(Success)], Start(random))
  {
    var st := Round(Some(ShakeCommand), false, false, false, []);
    var calm := seq(10, _ => Sample(0.0, 0.0, 1.0));
    var shake := Sample(0.0, 0.0, 2.0);
    assert forall i :: 0 <= i < |calm| ==> !Shows(st.command, calm[i]);
    FirstShowResolves(st, calm, shake, randoms, random);
    assert st.path + calm == calm;
    assert Run(st, calm, randoms).1 == st.(path := calm);
    assert |Observe(st.(path := calm), shake).path| == |calm| + 1;
  }

  /** Under "Do not Move" a tilt to the right (x = 0.3) resolves nothing. */
  lemma DoNotMoveTiltExample(random: Random)
    ensures var st := Round(Some(DoNotMoveCommand), false, false, false, []);
            Step(st, Sample(0.3, 0.0, 1.0), random) == (None, st.(path := [Sample(0.3, 0.0, 1.0)]))
  {
    var st := Round(Some(DoNotMoveCommand), false, false, false, []);
    assert Target(st.command).None?;
    assert st.path + [Sample(0.3, 0.0, 1.0)] == [Sample(0.3, 0.0, 1.0)];
  }
}
