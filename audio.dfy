/**
 * The reflex-training loop (src/audio.rs): a single pending-cue slot, an
 * integer score and a repeating 3-second timer, driven by two systems that
 * run every frame while the application is in `JuegoActivo`.
 *
 * Time is counted in nanoseconds, the resolution of Bevy's `Duration`. The
 * random draw and the arrow-key edges of a frame are parameters.
 */
module Audio {
  import Wrappers
  import opened GameState

  /** The pending-cue slot; `None` means no cue is awaiting an answer. */
  datatype AudioCommand = None | Left | Right | Jump

  /** The period of the repeating cue timer: 3 seconds, in nanoseconds. */
  const Interval: nat := 3_000_000_000

  /** What one tick of the repeating timer leaves behind. */
  datatype Ticked = Ticked(elapsed: nat, justFinished: bool)

  /**
   * `Timer::tick` in repeating mode: the delta is added, and when the period
   * is reached the elapsed time drops by as many whole periods as fit.
   */
  function TimerTick(elapsed: nat, delta: nat): (r: Ticked)
    ensures r.justFinished <==> elapsed + delta >= Interval
    ensures r.elapsed == (elapsed + delta) % Interval
  {
    var total := elapsed + delta;
    if total >= Interval then
      var times := total / Interval;
      Ticked(total - Interval * times, true)
    else
      Ticked(total, false)
  }

  /** The cue picked by the random draw `rng.gen_range(0..3)`. */
  function CommandFor(choice: int): (c: AudioCommand)
    ensures c != None
    ensures c == Left <==> choice == 0
    ensures c == Right <==> choice == 1
  {
    if choice == 0 then Left else if choice == 1 then Right else Jump
  }

  /** The clip played with the cue picked by `choice`. */
  function SoundFor(choice: int): (clip: string)
    ensures clip == "audio/left.ogg" <==> CommandFor(choice) == Left
    ensures clip == "audio/right.ogg" <==> CommandFor(choice) == Right
    ensures clip == "audio/jump.ogg" <==> CommandFor(choice) == Jump
  {
    if choice == 0 then "audio/left.ogg" else if choice == 1 then "audio/right.ogg" else "audio/jump.ogg"
  }

  /** Every cue is the outcome of one of the three draws of `gen_range(0..3)`. */
  lemma DrawsCoverCues(c: AudioCommand)
    requires c != None
    ensures exists choice :: 0 <= choice < 3 && CommandFor(choice) == c
  {
    var choice := if c == Left then 0 else if c == Right then 1 else 2;
    assert CommandFor(choice) == c;
  }

  /** The three resources the loop owns, as one value. */
  datatype Snapshot = Snapshot(cmd: AudioCommand, score: int, elapsed: nat)

  /** The session as it starts: no cue, score 0, timer at 0. */
  const Fresh: Snapshot := Snapshot(None, 0, 0)

  /** What `audio_command_system` does to the resources in one frame. */
  function AudioCommandStep(s: Snapshot, delta: nat, choice: int): (r: Snapshot)
    ensures r.score == s.score
    ensures s.cmd != None ==> r == s
    ensures r.cmd != s.cmd <==> s.cmd == None && s.elapsed + delta >= Interval
    ensures r.cmd != s.cmd ==> r.cmd == CommandFor(choice) && r.cmd != None
    ensures s.cmd == None && s.elapsed + delta < Interval ==> r == s.(elapsed := s.elapsed + delta)
    ensures s.cmd == None ==> r.elapsed == (s.elapsed + delta) % Interval
    ensures s.elapsed < Interval ==> r.elapsed < Interval
  {
    if s.cmd != None then s
    else
      var t := TimerTick(s.elapsed, delta);
      if t.justFinished then s.(cmd := CommandFor(choice), elapsed := t.elapsed)
      else s.(elapsed := t.elapsed)
  }

  /** The arrow key that decides a frame: Up over Right over Left. */
  function PressedKey(left: bool, right: bool, up: bool): Wrappers.Option<AudioCommand> {
    if up then Wrappers.Some(Jump)
    else if right then Wrappers.Some(Right)
    else if left then Wrappers.Some(Left)
    else Wrappers.None
  }

  /**
   * The `pressed_key` local of `scoring_system`: three checks in turn, each
   * overwriting the previous one, so the last key checked wins.
   */
  method DetectPressedKey(left: bool, right: bool, up: bool) returns (pressed: Wrappers.Option<AudioCommand>)
    ensures pressed.Some? <==> left || right || up
    ensures pressed.Some? ==> pressed.value != None
    ensures pressed == Wrappers.Some(Jump) <==> up
    ensures pressed == Wrappers.Some(Right) <==> right && !up
    ensures pressed == Wrappers.Some(Left) <==> left && !right && !up
    ensures pressed == PressedKey(left, right, up)
  {
    pressed := Wrappers.None;
    if left {
      pressed := Wrappers.Some(Left);
    }
    if right {
      pressed := Wrappers.Some(Right);
    }
    if up {
      pressed := Wrappers.Some(Jump);
    }
  }

  /** What `scoring_system` does to the resources in one frame. */
  function ScoringStep(s: Snapshot, left: bool, right: bool, up: bool): (r: Snapshot)
    ensures r.elapsed == s.elapsed
    ensures s.cmd == None || !(left || right || up) ==> r == s
    ensures s.cmd != None && (left || right || up) ==> r.cmd == None
    ensures r.score == s.score + 1 <==> s.cmd != None && PressedKey(left, right, up) == Wrappers.Some(s.cmd)
    ensures r.score == s.score - 1 <==>
      s.cmd != None && (left || right || up) && PressedKey(left, right, up) != Wrappers.Some(s.cmd)
    ensures s.score - 1 <= r.score <= s.score + 1
    ensures r.score != s.score ==> r.cmd == None
  {
    if s.cmd == None then s
    else
      var key := PressedKey(left, right, up);
      if key.Some? then
        s.(score := if key.value == s.cmd then s.score + 1 else s.score - 1, cmd := None)
      else s
  }

  /** With Left pending, Left and Right pressed together count as a Right answer: a miss. */
  lemma LeftAndRightAgainstLeft(elapsed: nat)
    ensures ScoringStep(Snapshot(Left, 0, elapsed), true, true, false) == Snapshot(None, -1, elapsed)
  {
  }

  /**
   * The timer keeps what it ran past the period, and that remainder waits
   * frozen while the cue is pending: a cue emitted at 2.9 s + 0.2 s leaves
   * 0.1 s, so after the answer 2.9 s of play bring the next cue.
   */
  lemma RemainderShortensNextWait(choice: int, next: int)
    ensures AudioCommandStep(Snapshot(None, 0, 2_900_000_000), 200_000_000, choice)
      == Snapshot(CommandFor(choice), 0, 100_000_000)
    ensures AudioCommandStep(Snapshot(CommandFor(choice), 0, 100_000_000), 5_000_000_000, next)
      == Snapshot(CommandFor(choice), 0, 100_000_000)
    ensures AudioCommandStep(Snapshot(None, 1, 100_000_000), 2_900_000_000, next).cmd == CommandFor(next)
  {
  }

  /** The order in which Bevy happens to run the two unchained systems in a frame. */
  datatype SystemOrder = AudioFirst | ScoringFirst

  /** What the outside world supplies in one frame. */
  datatype Input = Input(delta: nat, choice: int, left: bool, right: bool, up: bool, order: SystemOrder)

  /** One frame of the loop, gated on the application state. */
  function TickStep(s: Snapshot, state: AppState, i: Input): (r: Snapshot)
    ensures state != JuegoActivo ==> r == s
    ensures s.cmd != None && !(i.left || i.right || i.up) ==> r == s
    ensures s.elapsed < Interval ==> r.elapsed < Interval
    ensures s.score - 1 <= r.score <= s.score + 1
  {
    if state != JuegoActivo then s
    else match i.order
      case AudioFirst => ScoringStep(AudioCommandStep(s, i.delta, i.choice), i.left, i.right, i.up)
      case ScoringFirst => AudioCommandStep(ScoringStep(s, i.left, i.right, i.up), i.delta, i.choice)
  }

  /** The `Score`, `AudioCommand` and `AudioCommandTimer` resources, updated in place. */
  class Session {
    var cmd: AudioCommand
    var score: int
    var elapsed: nat

    /** The timer never holds a whole period. */
    ghost predicate Valid()
      reads this
    {
      elapsed < Interval
    }

    /** The resources as a value. */
    function Snap(): Snapshot
      reads this
    {
      Snapshot(cmd, score, elapsed)
    }

    /** `init_resource` for the score and the cue, and a fresh 3-second repeating timer. */
    constructor ()
      ensures Valid()
      ensures Snap() == Fresh
    {
      cmd := None;
      score := 0;
      elapsed := 0;
    }

    /** `audio_command_system`; returns the clip it starts playing, if any. */
    method AudioCommandSystem(delta: nat, choice: int) returns (sound: Wrappers.Option<string>)
      requires Valid()
      modifies this`cmd, this`elapsed
      ensures Valid()
      ensures Snap() == AudioCommandStep(old(Snap()), delta, choice)
      ensures sound == (if cmd != old(cmd) then Wrappers.Some(SoundFor(choice)) else Wrappers.None)
    {
      sound := Wrappers.None;
      if cmd != None {
        return;
      }
      var t := TimerTick(elapsed, delta);
      elapsed := t.elapsed;
      if t.justFinished {
        cmd := CommandFor(choice);
        sound := Wrappers.Some(SoundFor(choice));
      }
    }

    /** `scoring_system`. */
    method ScoringSystem(left: bool, right: bool, up: bool)
      requires Valid()
      modifies this`cmd, this`score
      ensures Valid()
      ensures Snap() == ScoringStep(old(Snap()), left, right, up)
    {
      if cmd == None {
        return;
      }
      var pressed := DetectPressedKey(left, right, up);
      if pressed.Some? {
        if pressed.value == cmd {
          score := score + 1;
        } else {
          score := score - 1;
        }
        cmd := None;
      }
    }

    /** One frame: both systems run, in the given order, only while the game is active. */
    method Tick(state: AppState, i: Input) returns (sound: Wrappers.Option<string>)
      requires Valid()
      modifies this
      ensures Valid()
      ensures Snap() == TickStep(old(Snap()), state, i)
      ensures state != JuegoActivo ==> cmd == old(cmd) && score == old(score) && elapsed == old(elapsed)
      ensures state != JuegoActivo ==> sound == Wrappers.None
      ensures state == JuegoActivo ==>
        var before := if i.order == AudioFirst then old(Snap()) else ScoringStep(old(Snap()), i.left, i.right, i.up);
        sound == (if AudioCommandStep(before, i.delta, i.choice).cmd != before.cmd
                  then Wrappers.Some(SoundFor(i.choice)) else Wrappers.None)
    {
      sound := Wrappers.None;
      if state == JuegoActivo {
        match i.order
        case AudioFirst =>
          sound := AudioCommandSystem(i.delta, i.choice);
          ScoringSystem(i.left, i.right, i.up);
        case ScoringFirst =>
          ScoringSystem(i.left, i.right, i.up);
          sound := AudioCommandSystem(i.delta, i.choice);
      }
    }
  }
}
