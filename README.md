# Simon Says round state machine

A Dafny model of the game logic in `App.tsx`, the `SimonSaysGame` screen of a
React Native "Simon Says" app. The screen issues one of five fixed commands,
watches the accelerometer for the gesture the command asks for, and, once a
detection flag is set, tells the player whether Simon said so. Then it starts
a new round at once.

The model has three modules:

- `Gestures` (`gestures.dfy`) holds the pure parts. It has the command catalog,
  the thresholds (shake 1.5, compared squared as 2.25; tilt ±0.2; move-up
  −0.2), and the catalog pick `floor(random * 5)` with the random value passed
  in. It also has JavaScript's `startsWith`, and `Classify`, a stateless
  classifier of one sample made from the listener's four threshold tests
  without their command gates. `Target` names the gesture each command asks
  for.
- `RoundEngine` (`round_engine.dfy`) treats the screen's state variables
  (command, `tiltDetected`, `shakeDetected`, `motionDetected`, `pathData`) as
  one value, `Round`. Its functions are `Start` (`startGame`), `Observe` (the
  listener body on one sample), `Verdict` and `Resolution` (the Simon Says
  effect), and `Step` and `Run`, which feed one sample or a stream of samples,
  each followed by the effect. The lemmas about streams of samples are here.
- `Game` (`game.dfy`) holds the class `SimonSaysGame`. Its fields are the state
  variables. `StartGame`, `OnSample` and `Resolve` update them in place, and
  each method's contract says that it performs the matching `RoundEngine`
  function on the state.

Samples are `real` triples. `Math.random()` becomes a parameter of the subset
type `Random`, the interval [0, 1). A null command is `None`.

The rules of the game suggest that under "Do not Move" any gesture is a
failure. The model follows the code instead. In the code, every detection
test is gated on one of the four "Simon Says" commands, so no sample can set
a flag under "Do not Move" or before the first round. The effect's failure
branch (App.tsx:81-84) is therefore unreachable. `HoldStillNeverResolves`, `DoNotMoveTiltExample` and `NoFailureEver` prove
this. The model adds no "any gesture fails" rule.

## Model

| member | source | states |
|---|---|---|
| Gestures.PickIndex | App.tsx:25 | the index `floor(random * commands.length)` is below the catalog length for every `random` in [0, 1), so a started round always has a catalog command |
| Gestures.PickIndexInterval | App.tsx:25 | index k is picked exactly when random lies in [k/5, (k+1)/5), so each of the five commands gets an equal share |
| Gestures.StartsWith | App.tsx:76 | `s.startsWith(prefix)` holds exactly when `s` is `prefix` followed by the rest of `s` |
| Gestures.StartsWithConcat | App.tsx:76 | every string made of the prefix and any rest starts with the prefix |
| Gestures.SaysSimon | App.tsx:76 | `command && command.startsWith("Simon Says")` holds exactly when the command is present and starts with "Simon Says"; the empty-string falsiness adds nothing, since "" never has the prefix |
| Gestures.CatalogSaysSimon | App.tsx:15-21 | the first four catalog entries start with "Simon Says" and "Do not Move" does not |
| Gestures.IsShaking | App.tsx:37 | a single axis beyond ±1.5 is already a shake, and every shake has some axis whose square exceeds 0.75 (beyond 1.5/√3) |
| Gestures.ShakeIsMagnitudeTest | App.tsx:37 | for the non-negative root m of x²+y²+z², testing x²+y²+z² > 2.25 is the same as testing m > 1.5 |
| Gestures.ShakeIgnoresSigns | App.tsx:37 | negating any of the components never changes the shake test |
| Gestures.Classify | App.tsx:37-52 | the shake, tilt-left, tilt-right and move-up gestures are present exactly when their strict threshold tests hold, and tilt left and tilt right never occur together |
| Gestures.Target | App.tsx:38-52 | only a command that starts with "Simon Says" asks for a gesture, and "Do not Move" asks for none |
| RoundEngine.Start | App.tsx:24-30 | a new round has a catalog command, all three flags false and an empty path |
| RoundEngine.Observe | App.tsx:35-56 | one sample keeps the command and appends exactly that sample to the end of the path. No flag goes from true to false. The shake flag only rises under "Simon Says Shake" with x²+y²+z² > 2.25, the tilt flag only under Tilt left with x < −0.2 or Tilt right with x > 0.2, and the motion flag only under Move up with y < −0.2. A command that asks for no gesture leaves every flag unchanged |
| RoundEngine.ObserveMatchesClassifier | App.tsx:37-52 | each flag is raised exactly when the sample shows the gesture that the command asks for, and some flag is set after the sample exactly when one was set before or the sample shows the commanded gesture |
| RoundEngine.Verdict | App.tsx:76-84 | there is an outcome exactly when some flag is set (`Detected`, the test `tiltDetected \|\| shakeDetected \|\| motionDetected` of App.tsx:77 and 81 as written). It is Success exactly when, in addition, the command starts with "Simon Says", and Failure exactly when it does not |
| RoundEngine.Resolution | App.tsx:75-85 | the effect reports the verdict. If there is one, the state becomes a fresh round, and otherwise the state is untouched. Either way no flag is left set |
| RoundEngine.Step | App.tsx:35-85 | after a sample and its effect, no detection flag is set |
| RoundEngine.Run | App.tsx:35-85 | a stream of samples yields one outcome entry per sample |
| RoundEngine.RunAppend | App.tsx:35-85 | feeding two streams one after the other is the same as feeding their concatenation |
| RoundEngine.QuietRun | App.tsx:38-55 | while no sample shows the commanded gesture, nothing resolves, the command and the cleared flags stay, and the path grows by exactly the samples in arrival order |
| RoundEngine.HoldStillNeverResolves | App.tsx:38-55 | under "Do not Move" or with no command, no stream of samples ever resolves a round, and every sample is appended to the path |
| RoundEngine.FirstShowResolves | App.tsx:38-79 | the samples before the first one that shows the commanded gesture resolve nothing and leave their path; that sample, appended to the run's own path, sets a flag and resolves the round as Success, and a freshly started round follows |
| RoundEngine.ShowingStepSucceeds | App.tsx:76-79 | in a round with no flag set, a sample that shows the commanded gesture sets a flag, gives Success and restarts the round |
| RoundEngine.StepFromFresh | App.tsx:75-85 | from an idle state or a catalog round with no flag set, one step never gives Failure and again leaves an idle state or a catalog round with no flag set |
| RoundEngine.NoFailureEver | App.tsx:81-84 | from the initial state or any freshly started round, no stream of samples ever produces a Failure |
| RoundEngine.ShakeRoundExample | App.tsx:37-40 | under "Simon Says Shake", ten samples of magnitude 1 resolve nothing and leave a ten-entry path, and a sample of magnitude 2 resolves Success on the eleventh after the path reached eleven entries |
| RoundEngine.DoNotMoveTiltExample | App.tsx:43-47 | under "Do not Move", a sample with x = 0.3 sets no flag and resolves nothing |
| Game.SimonSaysGame.constructor | App.tsx:7-11 | the screen starts with no command, no flag set and an empty path |
| Game.SimonSaysGame.StartGame | App.tsx:24-30 | from any state, and so also mid-round or twice in a row, the command becomes the catalog entry picked by `random`, the three flags become false and the path becomes empty |
| Game.SimonSaysGame.OnSample | App.tsx:35-56 | the command is unchanged and the path gains exactly the sample at its end. Each flag becomes true exactly when it was already true or its gated strict threshold test holds. The whole new state is `Observe` of the old one |
| Game.SimonSaysGame.Resolve | App.tsx:75-85 | the returned outcome is the verdict on the old state. With an outcome, the new state is the round started by `random`, and without one the state is unchanged |

## Left out

- Rendering is not modelled: the JSX, the `LineChart` of the path's y values, its chart configuration and the style sheet (App.tsx:87-145). These are presentation only.
- The sensor wiring is not modelled: the accelerometer subscription, `subscribe`/`unsubscribe`, `setUpdateInterval(100)` and the mount effect (App.tsx:33-34, 57-72). This is foreign sensor I/O and component lifecycle.
- Game.SimonSaysGame.OnSample reads the current command. The real listener is registered once at mount and captures the command of the first render (null) in its closure. The model does not reproduce this stale-closure behaviour.
- React's asynchronous state batching and effect scheduling are not modelled. A sample followed by the resolution effect is one atomic sequential step (`Step`). The effect in the source runs when a flag changes. Running it after every sample is equivalent here, because after each step no flag is set (`Step`, `Resolution`), so an effect run without a change of flags finds nothing to resolve.
- `Alert.alert` and its texts (App.tsx:78, 82) are not modelled. The returned Success/Failure outcome takes their place.
- `Math.random` is a parameter in [0, 1). The model uses exact real arithmetic instead of IEEE doubles, both for `floor(random * 5)` and for the threshold tests. The square root is not taken: the squared magnitude is compared with 2.25 (`ShakeIsMagnitudeTest` shows that this is the same test).
- A path entry is the triple `Sample(x, y, z)`, not a three-element number array.
