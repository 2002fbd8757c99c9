/**
  The command catalog and the gesture tests of the Simon Says game.

  Everything here is a pure function of a command and one accelerometer
  sample. The round state that these tests update lives in RoundEngine.
 */
module Gestures {

  /** A value that may be absent; the game's command is `None` before the first round. */
  datatype Option<T> = None | Some(value: T)

  /** One accelerometer reading `{x, y, z}`, in units of standard gravity. */
  datatype Sample = Sample(x: real, y: real, z: real)

  /** The values `Math.random()` can return: the half-open interval [0, 1). */
  type Random = r: real | 0.0 <= r < 1.0

  // The five commands of the catalog, in catalog order.
  const TiltLeftCommand: string := "Simon Says Tilt left"
  const TiltRightCommand: string := "Simon Says Tilt right"
  const ShakeCommand: string := "Simon Says Shake"
  const MoveUpCommand: string := "Simon Says Move up"
  const DoNotMoveCommand: string := "Do not Move"

  const Commands: seq<string> :=
    [TiltLeftCommand, TiltRightCommand, ShakeCommand, MoveUpCommand, DoNotMoveCommand]

  /** The prefix that marks a command Simon really said. */
  const SimonSays: string := "Simon Says"

  /** Magnitude above which a sample is a shake; compared squared, so no square root is taken. */
  const ShakeThreshold: real := 1.5
  /** |x| above which a sample is a tilt to the left (x < -0.2) or to the right (x > 0.2). */
  const TiltThreshold: real := 0.2
  /** y below which a sample is an upward move (y < -0.2). */
  const MoveUpThreshold: real := -0.2

  /** The catalog index `Math.floor(Math.random() * commands.length)`. */
  function PickIndex(random: Random): (k: nat)
    ensures k < |Commands|
  {
    (random * |Commands| as real).Floor
  }

  /** Each catalog entry owns an interval of width 1/5 of the random values: the pick is uniform. */
  lemma PickIndexInterval(random: Random, k: nat)
    ensures PickIndex(random) == k <==> k as real / 5.0 <= random < (k + 1) as real / 5.0
  {
  }

  /** JavaScript's `s.startsWith(prefix)`: `s` is `prefix` followed by the rest of `s`. */
  predicate StartsWith(s: string, prefix: string): (b: bool)
    ensures b <==> |prefix| <= |s| && s == prefix + s[|prefix|..]
  {
    |prefix| <= |s| && s[..|prefix|] == prefix
  }

  /** Every string made of `prefix` and some rest starts with `prefix`. */
  lemma StartsWithConcat(prefix: string, rest: string)
    ensures StartsWith(prefix + rest, prefix)
  {
    assert (prefix + rest)[..|prefix|] == prefix;
  }

  /**
    The test `command && command.startsWith("Simon Says")`. A null or empty
    command is falsy; the empty string never has the prefix anyway, so only
    the null check matters.
   */
  predicate SaysSimon(command: Option<string>): (b: bool)
    ensures b <==> command.Some? && StartsWith(command.value, SimonSays)
  {
    command.Some? && command.value != "" && StartsWith(command.value, SimonSays)
  }

  /** The first four catalog entries are Simon's commands; "Do not Move" is not. */
  lemma CatalogSaysSimon(k: nat)
    requires k < |Commands|
    ensures SaysSimon(Some(Commands[k])) <==> k < 4
  {
    if k < 4 {
      assert Commands[k][..|SimonSays|] == SimonSays;
    } else {
      assert Commands[k][0] != SimonSays[0];
    }
  }

  /**
    x² + y² + z² > 1.5², the listener's shake test. One axis beyond 1.5 on
    its own is a shake, and a shake has some axis beyond 1.5 / sqrt(3), whose
    square is 0.75.
   */
  predicate IsShaking(s: Sample): (b: bool)
    ensures s.x * s.x > 2.25 || s.y * s.y > 2.25 || s.z * s.z > 2.25 ==> b
    ensures b ==> s.x * s.x > 0.75 || s.y * s.y > 0.75 || s.z * s.z > 0.75
  {
    s.x * s.x + s.y * s.y + s.z * s.z > ShakeThreshold * ShakeThreshold
  }

  /** Comparing squares decides `sqrt(x² + y² + z²) > 1.5` for the non-negative root m. */
  lemma ShakeIsMagnitudeTest(s: Sample, m: real)
    requires m >= 0.0 && m * m == s.x * s.x + s.y * s.y + s.z * s.z
    ensures IsShaking(s) <==> m > ShakeThreshold
  {
    if m > 1.5 {
      assert m * m > 1.5 * m > 2.25;
    } else {
      assert m * m <= 1.5 * m <= 2.25;
    }
  }

  /** The shake test ignores the signs of the components. */
  lemma ShakeIgnoresSigns(s: Sample)
    ensures IsShaking(Sample(-s.x, -s.y, -s.z)) == IsShaking(s)
    ensures IsShaking(Sample(-s.x, s.y, s.z)) == IsShaking(s)
    ensures IsShaking(Sample(s.x, -s.y, s.z)) == IsShaking(s)
    ensures IsShaking(Sample(s.x, s.y, -s.z)) == IsShaking(s)
  {
  }

  /** The motion a sample shows, ignoring the command. */
  datatype Gesture = TiltLeft | TiltRight | Shake | MoveUp

  /**
    The listener's four threshold tests with their command gates taken away:
    a stateless classifier of one sample.
   */
  function Classify(s: Sample): (g: set<Gesture>)
    ensures Shake in g <==> IsShaking(s)
    ensures TiltLeft in g <==> s.x < -TiltThreshold
    ensures TiltRight in g <==> s.x > TiltThreshold
    ensures MoveUp in g <==> s.y < MoveUpThreshold
    ensures !(TiltLeft in g && TiltRight in g)
  {
    (if IsShaking(s) then {Shake} else {})
    + (if s.x < -TiltThreshold then {TiltLeft} else {})
    + (if s.x > TiltThreshold then {TiltRight} else {})
    + (if s.y < MoveUpThreshold then {MoveUp} else {})
  }

  /** The gesture whose detection a command asks for; "Do not Move" and no command ask for none. */
  function Target(command: Option<string>): (g: Option<Gesture>)
    ensures g.Some? ==> SaysSimon(command)
    ensures command == Some(DoNotMoveCommand) ==> g.None?
  {
    match command
    case None => None
    case Some(c) =>
      if c == TiltLeftCommand then Some(TiltLeft)
      else if c == TiltRightCommand then Some(TiltRight)
      else if c == ShakeCommand then Some(Shake)
      else if c == MoveUpCommand then Some(MoveUp)
      else None
  }
}
