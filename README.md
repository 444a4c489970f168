# Gesture media controller: finger counting and command dispatch

This project models the gesture-to-command core of `mediaPlayerController.py`,
a camera-driven media controller. Each camera frame yields zero or more hand
snapshots of 21 landmarks. The finger counter turns a snapshot into a count of
raised digits from 0 to 5. The control step edge-triggers on that code against
`last_finger_count` and dispatches one of five commands to the media player.

- `numbers.dfy` (module `Numbers`): the `min`/`max` clamps.
- `finger_counter.dfy` (module `FingerCounter`): landmarks as `Point(x, y)` over
  reals, the `Snapshot` type of exactly 21 points, the four finger-tip tests and
  the thumb test, the specification function `RaisedCount`, and the counting
  loops `CountRaisedFingers` (one hand) and `FrameGestureCode` (one frame).
- `media_control.dfy` (module `MediaControl`): the abstract player (paused flag,
  volume, position in ms), the specification functions `NextState`,
  `StepCommand`, `RunState`, `RunCommands`, and the class `Controller`. It holds
  `lastCount`, `paused`, `volume` and `timeMs`, updated in place by `Step`. The
  loops `RunCodes` (over codes) and `Run` (over frames) drive it.
- `media_control_props.dfy` (module `MediaControlProperties`): lemmas about
  edge triggering, holding a gesture, clamps, the range invariant and four
  end-to-end scenarios.

External inputs become parameters. A frame is the list of hand snapshots the
detector reported, plus a flag that says whether the player's volume calls
succeed in that frame. The initial volume and position are constructor
parameters.

## Model

| member | source | states |
|---|---|---|
| FingerCounter.TipsRaised | mediaPlayerController.py:89-91 | the number of raised finger tips among those visited is at most the number visited |
| FingerCounter.RaisedCount | mediaPlayerController.py:84-107 | the raised-digit count of a hand is at most 5 |
| FingerCounter.CountRaisedFingers | mediaPlayerController.py:76-107 | the counting loop returns exactly the specified count, which is at most 5 |
| FingerCounter.RaisedCountIsSumOfDigits | mediaPlayerController.py:84-102 | the count is the sum of the four strict tip-above-wrist-minus-0.1 tests and the thumb test |
| FingerCounter.ZeroIffNoDigitRaised | mediaPlayerController.py:84-107 | the count is 0 if and only if none of the five digit tests holds |
| FingerCounter.FiveIffAllDigitsRaised | mediaPlayerController.py:84-107 | the count is 5 if and only if all five digit tests hold |
| FingerCounter.TipsRaisedReadsOnlyY | mediaPlayerController.py:87-91 | the finger part of the count depends only on the wrist's y and the tips' y, never on an x |
| FingerCounter.CountReadsOnlyDigitCoordinates | mediaPlayerController.py:87-102 | hands agreeing on wrist y, tip y, thumb tip x and y, thumb IP x and thumb MCP y get the same count |
| FingerCounter.ThumbRuleNotMirrored | mediaPlayerController.py:101-102 | a raised thumb stops counting once the hand is reflected left to right, so the reflected hand counts one fewer |
| FingerCounter.FrameCode | mediaPlayerController.py:121-126 | a frame's code is at most 5, and 0 when no hand was detected |
| FingerCounter.FrameGestureCode | mediaPlayerController.py:121-126 | the per-frame loop over hands returns the specified frame code (last hand wins, clamped to 5) |
| FingerCounter.FrameCodeIsLastHandsCount | mediaPlayerController.py:123-126 | with a hand present, the clamp to 5 never changes the last hand's count |
| MediaControl.CommandFor | mediaPlayerController.py:136-161 | a code maps to a command if and only if it is one of 1 to 5 |
| MediaControl.RunSnoc | mediaPlayerController.py:110-162 | running one more frame applies one more control step and appends its command |
| MediaControl.Controller.constructor | mediaPlayerController.py:58-69 | the run starts with last count 0 and the player playing at the given volume and position |
| MediaControl.Controller.Step | mediaPlayerController.py:135-162 | the new state and dispatched command are those of the specified control step |
| MediaControl.Controller.RunCodes | mediaPlayerController.py:110-162 | feeding codes through Step ends in the specified run state and returns the specified command list |
| MediaControl.Controller.Run | mediaPlayerController.py:110-162 | counting each frame's fingers and stepping ends in the run state of those frames' codes |
| MediaControlProperties.FiresIffChanged | mediaPlayerController.py:135-161 | a command fires exactly when the code differs from the last one and is one of 1 to 5 |
| MediaControlProperties.StepRecordsCode | mediaPlayerController.py:162 | after every frame the last count equals that frame's code |
| MediaControlProperties.SameCodeIsNoOp | mediaPlayerController.py:135 | repeating the last code changes no field and dispatches nothing |
| MediaControlProperties.CommandDependsOnlyOnNewCode | mediaPlayerController.py:136-161 | on a change, the command depends only on the new code |
| MediaControlProperties.HoldingLastCodeIsNoOp | mediaPlayerController.py:135 | any number of frames still showing the last code leave the state alone and dispatch nothing |
| MediaControlProperties.HoldingGestureFiresOnce | mediaPlayerController.py:135-162 | holding one gesture for N frames acts exactly like its first frame alone |
| MediaControlProperties.AtMostOneCommandPerFrame | mediaPlayerController.py:110-162 | a run dispatches at most one command per frame |
| MediaControlProperties.ZeroCodeKeepsPlayer | mediaPlayerController.py:135-162 | a change to code 0 records the code, keeps the player and dispatches nothing |
| MediaControlProperties.CommandChangesOnlyItsField | mediaPlayerController.py:136-161 | only pause changes the paused flag, only a successful volume command the volume, only a seek the position |
| MediaControlProperties.VolumeUpSaturates | mediaPlayerController.py:140-141 | volume up adds 10 and saturates at 100 |
| MediaControlProperties.VolumeDownSaturates | mediaPlayerController.py:147-148 | volume down subtracts 10 and saturates at 0 |
| MediaControlProperties.FailedVolumeCallStillRecordsCode | mediaPlayerController.py:139-151 | a failed volume call leaves the player unchanged while the new code is still recorded |
| MediaControlProperties.SeekEffects | mediaPlayerController.py:152-160 | seek forward adds 10 s; seek backward subtracts 10 s but never goes below 0 |
| MediaControlProperties.StepKeepsInRange | mediaPlayerController.py:135-162 | one step keeps volume in 0..100 and position non-negative |
| MediaControlProperties.RunKeepsInRange | mediaPlayerController.py:110-162 | any run keeps volume in 0..100 and position non-negative |
| MediaControlProperties.NoHandFrameKeepsPlayer | mediaPlayerController.py:121-135 | a frame without a hand gives code 0, keeps the player and dispatches nothing |
| MediaControlProperties.ScenarioPauseThenVolumeUp | mediaPlayerController.py:135-162 | codes 0,0,1,1,0,2 dispatch exactly pause then volume up |
| MediaControlProperties.ScenarioVolumeClampsAt100 | mediaPlayerController.py:138-142 | from volume 95, codes 0,2,0,2 dispatch two volume-ups and end at volume 100 |
| MediaControlProperties.ScenarioSeekForward | mediaPlayerController.py:152-155 | code 4 at position 0 seeks to 10 s |
| MediaControlProperties.ScenarioSeekBackwardClamps | mediaPlayerController.py:157-160 | code 5 at position 3 s seeks to 0, not -7 s |

## Left out

- VLC library discovery and loading, the file dialog, and player creation and `play()` (lines 11-58): environment set-up and foreign-library calls. The constructor takes the initial volume and position instead.
- Hand detection, camera capture, image flip and colour conversion (lines 61-67, 111-119): device I/O and model inference. The model takes each frame's list of detected hand snapshots as input.
- All drawing and display (circles, landmark overlay, text, window): these do not affect the count.
- Frame-rate sleep, the ESC-key poll and the teardown in `finally` (lines 165-175): wall-clock timing, input polling and resource release. A run is a finite sequence of frames.
- `print` logging of commands and errors.
- Floating point: landmark coordinates are reals. Playback time is integer milliseconds. The conversion to seconds and the `int(...)` truncation at lines 154-155 and 159-160 are not reproduced; seek forward is `t + 10000` and seek backward `max(t - 10000, 0)`.
- `player.pause()` is an abstract toggle of the paused flag. Seeking past the end of the media is not modelled.
- Playback advancing between frames: the media plays (line 58), so `get_time()` at lines 154 and 159 returns a position that has moved on in real time since the last frame. The model stores the position and changes it only by seeks. Its `timeMs` is the position as of the last seek or start, and a seek is computed from that stored value, not from the live position. For example, codes 4, 0, 5 from position 0 end at 0 in the model, but in the source at the playing time that passed.
- Exceptions from `pause()`, `get_time()` and `set_time()` (lines 137, 154-155, 159-160): these calls are outside any `try`, so an exception ends the loop and runs the teardown. The model treats all three as always succeeding; only the volume calls (lines 139-151) have a failure path.
- Volume call failures are one boolean per frame. When it is false, the volume command leaves the volume unchanged. The model does not separate a failed read from a failed write.
- Volume reads: the model assumes `audio_get_volume` returns the last volume written (or the start volume), and that an `audio_set_volume` call that raises nothing takes effect. The `-1` that both calls return when there is no audio output is reproduced only as a start volume of `-1`; likewise a `-1` from `get_time` only as a start position.
