/**
  The game screen's state variables and the three operations that change
  them in place: starting a round, taking one accelerometer sample, and the
  Simon Says effect that resolves a round. Each method is specified by the
  function of RoundEngine that it performs on the abstract state.
 */
module Game {
  import opened Gestures
  import opened RoundEngine

  class SimonSaysGame {
    var command: Option<string>
    var pathData: seq<Sample>
    var tiltDetected: bool
    var shakeDetected: bool
    var motionDetected: bool

    /** The state variables as one RoundEngine value. */
    function State(): Round
      reads this
    {
      Round(command, tiltDetected, shakeDetected, motionDetected, pathData)
    }

    /** The initial values: no command, no flag set, an empty path. */
    constructor ()
      ensures State() == Idle
    {
      command := None;
      pathData := [];
      tiltDetected := false;
      shakeDetected := false;
      motionDetected := false;
    }

    /**
      `startGame`: whatever the round in progress, pick a catalog command with
      `random`, clear the three flags and empty the path.
     */
    method StartGame(random: Random)
      modifies this
      ensures command == Some(Commands[PickIndex(random)])
      ensures !tiltDetected && !shakeDetected && !motionDetected
      ensures pathData == []
      ensures State() == Start(random)
    {
      command := Some(Commands[PickIndex(random)]);
      tiltDetected := false;
      shakeDetected := false;
      motionDetected := false;
      pathData := [];
    }

    /**
      The accelerometer listener: the shake, tilt and move-up tests gated on
      the current command, each of which may set its flag, then the sample
      appended to the path.
     */
    method OnSample(x: real, y: real, z: real)
      modifies this
      ensures command == old(command)
      ensures pathData == old(pathData) + [Sample(x, y, z)]
      ensures shakeDetected == (old(shakeDetected) || (command == Some(ShakeCommand) && IsShaking(Sample(x, y, z))))
      ensures tiltDetected == (|| old(tiltDetected)
                               || (command == Some(TiltLeftCommand) && x < -TiltThreshold)
                               || (command == Some(TiltRightCommand) && x > TiltThreshold))
      ensures motionDetected == (old(motionDetected) || (command == Some(MoveUpCommand) && y < MoveUpThreshold))
      ensures State() == Observe(old(State()), Sample(x, y, z))
    {
      var shake := IsShaking(Sample(x, y, z));
      if shake && command == Some(ShakeCommand) {
        shakeDetected := true;
      }
      if command == Some(TiltLeftCommand) && x < -TiltThreshold {
        tiltDetected := true;
      } else if command == Some(TiltRightCommand) && x > TiltThreshold {
        tiltDetected := true;
      }
      if command == Some(MoveUpCommand) && y < MoveUpThreshold {
        motionDetected := true;
      }
      pathData := pathData + [Sample(x, y, z)];
    }

    /**
      The Simon Says effect: with a flag set, report success under a command
      that starts with "Simon Says" and failure otherwise, then start a new
      round with `random`; with no flag set, do nothing.
     */
    method Resolve(random: Random) returns (outcome: Option<Outcome>)
      modifies this
      ensures outcome == Verdict(old(State()))
      ensures outcome.Some? ==> State() == Start(random)
      ensures outcome.None? ==> State() == old(State())
      ensures (outcome, State()) == Resolution(old(State()), random)
    {
      outcome := None;
      if SaysSimon(command) {
        if tiltDetected || shakeDetected || motionDetected {
          outcome := Some(Success);
          StartGame(random);
        }
      } else if tiltDetected || shakeDetected || motionDetected {
        outcome := Some(Failure);
        StartGame(random);
      }
    }
  }
}
