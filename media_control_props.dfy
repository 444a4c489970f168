/** Properties of the control step and of runs of frames. */
module MediaControlProperties {
  import opened Numbers
  import opened FingerCounter
  import opened MediaControl

  // ---------------------------------------------------------------------------
  // Edge triggering

  /** A command is dispatched exactly when the code changed and is one of 1 to 5. */
  lemma FiresIffChanged(s: Control, code: int)
    ensures StepCommand(s, code).Some? <==> code != s.lastCount && 1 <= code <= MaxCount
  {
  }

  /** After every frame the last count is that frame's code, whether or not anything fired. */
  lemma StepRecordsCode(s: Control, inp: Input)
    ensures NextState(s, inp).lastCount == inp.code
  {
  }

  /** Seeing the last code again changes nothing and dispatches nothing. */
  lemma SameCodeIsNoOp(s: Control, inp: Input)
    requires inp.code == s.lastCount
    ensures NextState(s, inp) == s
    ensures StepCommand(s, inp.code) == None
  {
  }

  /** The command dispatched depends only on the new code, not on the previous code or the player. */
  lemma CommandDependsOnlyOnNewCode(s: Control, t: Control, code: int)
    requires code != s.lastCount && code != t.lastCount
    ensures StepCommand(s, code) == StepCommand(t, code)
  {
  }

  predicate AllCodes(inputs: seq<Input>, code: int)
  {
    forall i :: 0 <= i < |inputs| ==> inputs[i].code == code
  }

  /** Frames that keep showing the last code leave the state alone and dispatch nothing. */
  lemma {:induction false} HoldingLastCodeIsNoOp(s: Control, inputs: seq<Input>)
    requires AllCodes(inputs, s.lastCount)
    ensures RunState(s, inputs) == s
    ensures RunCommands(s, inputs) == []
    decreases |inputs|
  {
    if inputs != [] {
      assert inputs[0].code == s.lastCount;
      assert AllCodes(inputs[1..], s.lastCount) by {
        forall i | 0 <= i < |inputs[1..]| ensures inputs[1..][i].code == s.lastCount {
          assert inputs[1..][i] == inputs[i + 1];
        }
      }
      HoldingLastCodeIsNoOp(s, inputs[1..]);
    }
  }

  /**
    Holding one gesture for any number of frames acts exactly like its first
    frame alone: at most one command, dispatched at the first change.
   */
  lemma HoldingGestureFiresOnce(s: Control, inputs: seq<Input>, code: int)
    requires inputs != [] && AllCodes(inputs, code)
    ensures RunState(s, inputs) == NextState(s, inputs[0])
    ensures RunCommands(s, inputs) == OptionToSeq(StepCommand(s, code))
  {
    var s1 := NextState(s, inputs[0]);
    assert s1.lastCount == code;
    assert AllCodes(inputs[1..], code) by {
      forall i | 0 <= i < |inputs[1..]| ensures inputs[1..][i].code == code {
        assert inputs[1..][i] == inputs[i + 1];
      }
    }
    HoldingLastCodeIsNoOp(s1, inputs[1..]);
  }

  /** At most one command per frame. */
  lemma {:induction false} AtMostOneCommandPerFrame(s: Control, inputs: seq<Input>)
    ensures |RunCommands(s, inputs)| <= |inputs|
    decreases |inputs|
  {
    if inputs != [] {
      AtMostOneCommandPerFrame(NextState(s, inputs[0]), inputs[1..]);
    }
  }

  // ---------------------------------------------------------------------------
  // Effects of each code on the player

  /** Code 0 (including "no hand") on a change records the code and leaves the player alone. */
  lemma ZeroCodeKeepsPlayer(s: Control, volumeOk: bool)
    ensures NextState(s, Input(0, volumeOk)) == Control(0, s.player)
    ensures StepCommand(s, 0) == None
  {
  }

  /** Every command changes only its own player field. */
  lemma CommandChangesOnlyItsField(cmd: Command, p: Player, volumeOk: bool)
    ensures Apply(cmd, p, volumeOk).paused != p.paused <==> cmd == TogglePause
    ensures Apply(cmd, p, volumeOk).volume != p.volume ==> volumeOk && (cmd == VolumeUp || cmd == VolumeDown)
    ensures Apply(cmd, p, volumeOk).timeMs != p.timeMs ==> cmd == SeekForward || cmd == SeekBackward
  {
  }

  /** Raising the volume adds the step, saturating at 100. */
  lemma VolumeUpSaturates(p: Player)
    ensures Apply(VolumeUp, p, true).volume <= MaxVolume
    ensures p.volume <= MaxVolume - VolumeStep ==> Apply(VolumeUp, p, true).volume == p.volume + VolumeStep
    ensures p.volume >= MaxVolume - VolumeStep ==> Apply(VolumeUp, p, true).volume == MaxVolume
  {
  }

  /** Lowering the volume subtracts the step, saturating at 0. */
  lemma VolumeDownSaturates(p: Player)
    ensures Apply(VolumeDown, p, true).volume >= MinVolume
    ensures p.volume >= MinVolume + VolumeStep ==> Apply(VolumeDown, p, true).volume == p.volume - VolumeStep
    ensures p.volume <= MinVolume + VolumeStep ==> Apply(VolumeDown, p, true).volume == MinVolume
  {
  }

  /** A failed volume call leaves the volume as it was, yet the new code is still recorded. */
  lemma FailedVolumeCallStillRecordsCode(s: Control, code: int)
    requires code != s.lastCount && (code == 2 || code == 3)
    ensures NextState(s, Input(code, false)) == Control(code, s.player)
    ensures StepCommand(s, code).Some?
  {
  }

  /** Seeking forward moves 10 s ahead; seeking backward moves 10 s back but never below 0. */
  lemma SeekEffects(p: Player)
    ensures Apply(SeekForward, p, true).timeMs == p.timeMs + SkipStepMs
    ensures Apply(SeekBackward, p, true).timeMs >= 0
    ensures p.timeMs >= SkipStepMs ==> Apply(SeekBackward, p, true).timeMs == p.timeMs - SkipStepMs
    ensures p.timeMs <= SkipStepMs ==> Apply(SeekBackward, p, true).timeMs == 0
  {
  }

  // ---------------------------------------------------------------------------
  // An invariant of runs

  /** Volume within 0..100 and a non-negative playback position. */
  predicate InRange(p: Player)
  {
    MinVolume <= p.volume <= MaxVolume && 0 <= p.timeMs
  }

  lemma StepKeepsInRange(s: Control, inp: Input)
    requires InRange(s.player)
    ensures InRange(NextState(s, inp).player)
  {
  }

  /** Any run of frames keeps the volume in 0..100 and the position non-negative. */
  lemma {:induction false} RunKeepsInRange(s: Control, inputs: seq<Input>)
    requires InRange(s.player)
    ensures InRange(RunState(s, inputs).player)
    decreases |inputs|
  {
    if inputs != [] {
      StepKeepsInRange(s, inputs[0]);
      RunKeepsInRange(NextState(s, inputs[0]), inputs[1..]);
    }
  }

  // ---------------------------------------------------------------------------
  // The pipeline from frames

  /** A frame without a hand yields code 0, so it dispatches nothing and keeps the player. */
  lemma NoHandFrameKeepsPlayer(s: Control, volumeOk: bool)
    ensures Inputs([Frame([], volumeOk)]) == [Input(0, volumeOk)]
    ensures RunState(s, Inputs([Frame([], volumeOk)])) == Control(0, s.player)
    ensures RunCommands(s, Inputs([Frame([], volumeOk)])) == []
  {
  }

  // ---------------------------------------------------------------------------
  // End-to-end scenarios

  /** Frames showing the given codes, with every volume call succeeding. */
  function Codes(codes: seq<int>): seq<Input>
  {
    seq(|codes|, i requires 0 <= i < |codes| => Input(codes[i], true))
  }

  /** Codes 0,0,1,1,0,2 from the start dispatch exactly a pause and then a volume-up. */
  lemma ScenarioPauseThenVolumeUp(p: Player)
    ensures RunCommands(Control(0, p), Codes([0, 0, 1, 1, 0, 2])) == [TogglePause, VolumeUp]
  {
  }

  /** From volume 95, codes 0,2,0,2 raise the volume twice and it ends at 100. */
  lemma ScenarioVolumeClampsAt100(paused: bool, t: int)
    ensures RunState(Control(0, Player(paused, 95, t)), Codes([0, 2, 0, 2])).player.volume == 100
    ensures RunCommands(Control(0, Player(paused, 95, t)), Codes([0, 2, 0, 2])) == [VolumeUp, VolumeUp]
  {
  }

  /** Code 4 from the start at position 0 seeks to 10 s. */
  lemma ScenarioSeekForward(paused: bool, v: int)
    ensures RunState(Control(0, Player(paused, v, 0)), Codes([4])) == Control(4, Player(paused, v, 10000))
    ensures RunCommands(Control(0, Player(paused, v, 0)), Codes([4])) == [SeekForward]
  {
  }

  /** Code 5 from the start at position 3 s seeks to 0, not to -7 s. */
  lemma ScenarioSeekBackwardClamps(paused: bool, v: int)
    ensures RunState(Control(0, Player(paused, v, 3000)), Codes([5])) == Control(5, Player(paused, v, 0))
    ensures RunCommands(Control(0, Player(paused, v, 3000)), Codes([5])) == [SeekBackward]
  {
  }
}
