/**
  The control step: the per-frame gesture code is edge-triggered against the
  last code seen, and a change dispatches one command to the media player.
  Player state is abstracted to three fields: the paused flag, the volume
  (0..100 in normal use) and the playback position in milliseconds.
 */
module MediaControl {
  import opened Numbers
  import opened FingerCounter

  const VolumeStep: int := 10
  const MaxVolume: int := 100
  const MinVolume: int := 0
  /** The skip step of 10 seconds, in the player's millisecond time unit. */
  const SkipStepMs: int := 10000

  datatype Option<T> = None | Some(value: T)

  /** The commands a gesture change can dispatch. */
  datatype Command = TogglePause | VolumeUp | VolumeDown | SeekForward | SeekBackward

  /** The part of the media player the commands act on. */
  datatype Player = Player(paused: bool, volume: int, timeMs: int)

  /** The last gesture code seen, together with the player. */
  datatype Control = Control(lastCount: int, player: Player)

  /** One frame's gesture code and whether the player's volume calls would succeed. */
  datatype Input = Input(code: int, volumeOk: bool)

  /** One frame's detected hands (none, or the detector's snapshots) and the volume-call outcome. */
  datatype Frame = Frame(hands: seq<Snapshot>, volumeOk: bool)

  /** The command mapped to a gesture code; codes other than 1 to 5 map to none. */
  function CommandFor(code: int): (cmd: Option<Command>)
    ensures cmd.None? <==> !(1 <= code <= MaxCount)
  {
    if code == 1 then Some(TogglePause)
    else if code == 2 then Some(VolumeUp)
    else if code == 3 then Some(VolumeDown)
    else if code == 4 then Some(SeekForward)
    else if code == 5 then Some(SeekBackward)
    else None
  }

  /** The effect of one command on the player; a failed volume call leaves the player as it was. */
  function Apply(cmd: Command, p: Player, volumeOk: bool): Player
  {
    match cmd
    case TogglePause => p.(paused := !p.paused)
    case VolumeUp => if volumeOk then p.(volume := Min(p.volume + VolumeStep, MaxVolume)) else p
    case VolumeDown => if volumeOk then p.(volume := Max(p.volume - VolumeStep, MinVolume)) else p
    case SeekForward => p.(timeMs := p.timeMs + SkipStepMs)
    case SeekBackward => p.(timeMs := Max(p.timeMs - SkipStepMs, 0))
  }

  /** The command a frame dispatches: one only when the code differs from the last one. */
  function StepCommand(s: Control, code: int): Option<Command>
  {
    if code != s.lastCount then CommandFor(code) else None
  }

  /** The state after one frame. */
  function NextState(s: Control, inp: Input): Control
  {
    if inp.code == s.lastCount then s
    else
      var p := match CommandFor(inp.code)
               case Some(cmd) => Apply(cmd, s.player, inp.volumeOk)
               case None => s.player;
      Control(inp.code, p)
  }

  /** The state after a run of frames. */
  function RunState(s: Control, inputs: seq<Input>): Control
    decreases |inputs|
  {
    if inputs == [] then s else RunState(NextState(s, inputs[0]), inputs[1..])
  }

  function OptionToSeq(o: Option<Command>): seq<Command>
  {
    match o
    case Some(c) => [c]
    case None => []
  }

  /** The commands a run of frames dispatches, in frame order. */
  function RunCommands(s: Control, inputs: seq<Input>): seq<Command>
    decreases |inputs|
  {
    if inputs == [] then []
    else OptionToSeq(StepCommand(s, inputs[0].code)) + RunCommands(NextState(s, inputs[0]), inputs[1..])
  }

  /** The gesture codes (with volume outcomes) that a sequence of frames produces. */
  function Inputs(frames: seq<Frame>): (inputs: seq<Input>)
    ensures |inputs| == |frames|
  {
    seq(|frames|, i requires 0 <= i < |frames| => Input(FrameCode(frames[i].hands), frames[i].volumeOk))
  }

  /** Running one more frame extends the run by one step. */
  lemma {:induction false} RunSnoc(s: Control, inputs: seq<Input>, x: Input)
    ensures RunState(s, inputs + [x]) == NextState(RunState(s, inputs), x)
    ensures RunCommands(s, inputs + [x])
            == RunCommands(s, inputs) + OptionToSeq(StepCommand(RunState(s, inputs), x.code))
    decreases |inputs|
  {
    if inputs == [] {
      assert [] + [x] == [x];
    } else {
      assert (inputs + [x])[0] == inputs[0];
      assert (inputs + [x])[1..] == inputs[1..] + [x];
      RunSnoc(NextState(s, inputs[0]), inputs[1..], x);
    }
  }

  /**
    The controller of the main loop: the last finger count and the player
    fields it changes in place.
   */
  class Controller {
    var lastCount: int
    var paused: bool
    var volume: int
    var timeMs: int

    /** The abstract value of the controller. */
    function State(): Control
      reads this
    {
      Control(lastCount, Player(paused, volume, timeMs))
    }

    /** Start of the run: last count 0, player playing at the given volume and position. */
    constructor (volume0: int, time0: int)
      ensures State() == Control(0, Player(false, volume0, time0))
    {
      lastCount := 0;
      paused := false;
      volume := volume0;
      timeMs := time0;
    }

    /** The change-detect and dispatch block for one frame's gesture code. */
    method Step(code: int, volumeOk: bool) returns (issued: Option<Command>)
      modifies this
      ensures State() == NextState(old(State()), Input(code, volumeOk))
      ensures issued == StepCommand(old(State()), code)
    {
      issued := None;
      if code != lastCount {
        if code == 1 {
          paused := !paused;
          issued := Some(TogglePause);
        } else if code == 2 {
          if volumeOk {
            volume := Min(volume + VolumeStep, MaxVolume);
          }
          issued := Some(VolumeUp);
        } else if code == 3 {
          if volumeOk {
            volume := Max(volume - VolumeStep, MinVolume);
          }
          issued := Some(VolumeDown);
        } else if code == 4 {
          timeMs := timeMs + SkipStepMs;
          issued := Some(SeekForward);
        } else if code == 5 {
          timeMs := Max(timeMs - SkipStepMs, 0);
          issued := Some(SeekBackward);
        }
        lastCount := code;
      }
    }

    /** Feeds a sequence of gesture codes through Step, collecting the dispatched commands. */
    method RunCodes(inputs: seq<Input>) returns (issued: seq<Command>)
      modifies this
      ensures State() == RunState(old(State()), inputs)
      ensures issued == RunCommands(old(State()), inputs)
    {
      issued := [];
      for i := 0 to |inputs|
        invariant State() == RunState(old(State()), inputs[..i])
        invariant issued == RunCommands(old(State()), inputs[..i])
      {
        RunSnoc(old(State()), inputs[..i], inputs[i]);
        assert inputs[..i + 1] == inputs[..i] + [inputs[i]];
        var cmd := Step(inputs[i].code, inputs[i].volumeOk);
        issued := issued + OptionToSeq(cmd);
      }
      assert inputs[..|inputs|] == inputs;
    }

    /**
      The main loop: count the fingers of each frame, then run the control step
      on that code. It keeps its own loop rather than calling RunCodes because
      the source counts and steps frame by frame, interleaved.
     */
    method Run(frames: seq<Frame>) returns (issued: seq<Command>)
      modifies this
      ensures State() == RunState(old(State()), Inputs(frames))
      ensures issued == RunCommands(old(State()), Inputs(frames))
    {
      issued := [];
      ghost var inputs := Inputs(frames);
      for i := 0 to |frames|
        invariant State() == RunState(old(State()), inputs[..i])
        invariant issued == RunCommands(old(State()), inputs[..i])
      {
        var code := FrameGestureCode(frames[i].hands);
        RunSnoc(old(State()), inputs[..i], inputs[i]);
        assert inputs[..i + 1] == inputs[..i] + [inputs[i]];
        var cmd := Step(code, frames[i].volumeOk);
        issued := issued + OptionToSeq(cmd);
      }
      assert inputs[..|frames|] == inputs;
    }
  }
}
