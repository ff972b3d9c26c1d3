/**
 * The two plugins frame by frame: the state machine decides whether the
 * training loop runs, and the loop's resources persist across every state.
 *
 * In each frame the state requested in the previous frame has already become
 * current; the loop runs (or not) in that state, and the menu systems request
 * the state of the next frame.
 */
module Game {
  import opened GameState
  import opened Audio

  /** The application state together with the loop's resources. */
  datatype World = World(state: AppState, session: Snapshot)

  /** One frame's inputs: the Enter and P edges and the loop's inputs. */
  datatype FrameInput = FrameInput(enter: bool, p: bool, play: Input)

  /** Where the application starts. */
  const Start: World := World(InitialState, Fresh)

  /** One frame. */
  function Step(w: World, f: FrameInput): World {
    World(Transition(w.state, f.enter, f.p), TickStep(w.session, w.state, f.play))
  }

  /** A sequence of frames, the first one first. */
  function Run(w: World, fs: seq<FrameInput>): (r: World)
    ensures w.session.elapsed < Interval ==> r.session.elapsed < Interval
    ensures w.session.score - |fs| <= r.session.score <= w.session.score + |fs|
    ensures w.state != Inicio ==> r.state != Inicio
    decreases |fs|
  {
    if fs == [] then w else Run(Step(w, fs[0]), fs[1..])
  }

  /** How much time the training loop is offered over the frames: the deltas of the active frames. */
  function ActiveTime(w: World, fs: seq<FrameInput>): nat
    decreases |fs|
  {
    if fs == [] then 0
    else (if w.state == JuegoActivo then fs[0].play.delta else 0) + ActiveTime(Step(w, fs[0]), fs[1..])
  }

  /** The number of P edges over the frames. */
  function CountP(fs: seq<FrameInput>): nat
    decreases |fs|
  {
    if fs == [] then 0 else (if fs[0].p then 1 else 0) + CountP(fs[1..])
  }

  /**
   * While the application is outside the game and no request leaves the
   * current state, nothing of the loop changes: no cue, no score, no time.
   */
  lemma {:induction false} InactiveRunFreezes(w: World, fs: seq<FrameInput>)
    requires w.state != JuegoActivo
    requires forall k :: 0 <= k < |fs| ==> Requested(w.state, fs[k].enter, fs[k].p) == Unchanged
    ensures Run(w, fs) == w
    decreases |fs|
  {
    if fs != [] {
      assert Step(w, fs[0]) == w;
      InactiveRunFreezes(w, fs[1..]);
    }
  }

  /** Until the first Enter edge the application stays in its start menu and the loop does not move. */
  lemma {:induction false} StartWaitsForEnter(fs: seq<FrameInput>)
    requires forall k :: 0 <= k < |fs| ==> !fs[k].enter
    ensures Run(Start, fs) == Start
  {
    InactiveRunFreezes(Start, fs);
  }

  /**
   * Pausing keeps the round exactly: after any number of paused frames
   * without P, a P edge resumes the game with cue, score and timer as they were.
   */
  lemma {:induction false} ResumeKeepsRound(w: World, idle: seq<FrameInput>, resume: FrameInput)
    requires w.state == Pausa
    requires forall k :: 0 <= k < |idle| ==> !idle[k].p
    requires resume.p
    ensures Run(w, idle + [resume]) == World(JuegoActivo, w.session)
    decreases |idle|
  {
    if idle == [] {
      assert Run(w, [resume]) == Run(Step(w, resume), []);
    } else {
      assert (idle + [resume])[0] == idle[0];
      assert (idle + [resume])[1..] == idle[1..] + [resume];
      assert Step(w, idle[0]) == w;
      ResumeKeepsRound(w, idle[1..], resume);
    }
  }

  /** Once the game has started, each P edge toggles between the game and the pause. */
  lemma {:induction false} PauseToggles(w: World, fs: seq<FrameInput>)
    requires w.state != Inicio
    ensures Run(w, fs).state == (if (CountP(fs) % 2 == 0) == (w.state == JuegoActivo) then JuegoActivo else Pausa)
    decreases |fs|
  {
    if fs != [] {
      PauseToggles(Step(w, fs[0]), fs[1..]);
    }
  }

  /**
   * With no cue pending, none appears until the timer, counting from its
   * current value, reaches a whole period; until then it holds its current
   * value plus the active time.
   */
  lemma {:induction false} NoCueBeforeInterval(w: World, fs: seq<FrameInput>)
    requires w.session.cmd == None
    requires w.session.elapsed + ActiveTime(w, fs) < Interval
    ensures Run(w, fs).session.cmd == None
    ensures Run(w, fs).session.elapsed == w.session.elapsed + ActiveTime(w, fs)
    ensures Run(w, fs).session.score == w.session.score
    decreases |fs|
  {
    if fs != [] {
      var w' := Step(w, fs[0]);
      assert w'.session == w.session.(elapsed := w.session.elapsed + (if w.state == JuegoActivo then fs[0].play.delta else 0));
      NoCueBeforeInterval(w', fs[1..]);
    }
  }

  /**
   * A cue nobody answers stays pending for ever: no new cue, no score
   * change, and the timer does not move, whatever the state and the time.
   */
  lemma {:induction false} UnansweredCueStays(w: World, fs: seq<FrameInput>)
    requires w.session.cmd != None
    requires forall k :: 0 <= k < |fs| ==> !(fs[k].play.left || fs[k].play.right || fs[k].play.up)
    ensures Run(w, fs).session == w.session
    decreases |fs|
  {
    if fs != [] {
      UnansweredCueStays(Step(w, fs[0]), fs[1..]);
    }
  }
}
