# Reflex-training loop and menu/pause state machine

A Dafny model of the core of a small Bevy mini-game in which the player
answers spoken cues ("left", "right", "jump") with the arrow keys.

- `audio.dfy` (module `Audio`) models `src/audio.rs`: the single pending-cue
  slot `AudioCommand` (`None`/`Left`/`Right`/`Jump`), the integer `Score`, and
  the repeating 3-second `AudioCommandTimer`. The class `Session` holds the
  three resources as fields `cmd`, `score` and `elapsed` and has one method per
  system: `AudioCommandSystem` (tick the timer, emit a random cue) and
  `ScoringSystem` (match the arrow-key edge against the cue, add or subtract a
  point, clear the cue), plus `Tick`, which runs both only in `JuegoActivo`.
  Each method is proved against a pure step function (`AudioCommandStep`,
  `ScoringStep`, `TickStep`) whose contract states the behaviour.
- `gamestate.dfy` (module `GameState`) models `src/gamestate.rs`: the states
  `Inicio`, `JuegoActivo`, `Pausa`, Bevy's `NextState` resource, the three
  input systems `menu_inicio_input`, `menu_pausa_input`, `check_pause_input`
  with their run conditions (class `StateMachine`), and the pure transition
  function they implement together (`Requested`, `Transition`).
- `game.dfy` (module `Game`) runs both over a sequence of frames and proves
  the multi-frame properties: pausing freezes the round, resuming restores it
  exactly, P toggles game and pause, `Inicio` is never re-entered, nothing
  happens before the first Enter, no cue appears before the timer, counting
  from its current value, reaches 3 seconds, and an unanswered cue stays.
- `wrappers.dfy` holds an `Option` datatype.

Time is counted in nanoseconds, the resolution of Bevy's `Duration`, so the
period is `Interval == 3_000_000_000`. The random draw `rng.gen_range(0..3)`,
the frame delta and the key edges of each frame are parameters.

The model follows the code on four points:

- While a cue is pending, `audio_command_system` returns before ticking the
  timer (`src/audio.rs:100-105`), so the timer is frozen, not advancing.
- The repeating timer keeps the remainder past 3 s when it fires
  (`src/audio.rs:17, 105`), and that remainder stays frozen while the cue is
  pending. The next cue after an answer therefore comes after 3 s minus that
  remainder of active time, not after a full 3 s
  (`RemainderShortensNextWait`).
- The three `if`s that build `pressed_key` (`src/audio.rs:139-141`) overwrite
  one another, so when several arrow keys are pressed in one frame the last
  one checked decides: Up over Right over Left. With `Left` pending, Left and
  Right pressed together therefore cost a point (`LeftAndRightAgainstLeft`).
- The two systems sit in an unchained tuple (`src/audio.rs:24-28`), so their
  order within a frame is a parameter (`SystemOrder`), not a fixed sequence.

## Model

| member | source | states |
|---|---|---|
| `Audio.TimerTick` | src/audio.rs:105 | the repeating timer finishes exactly when elapsed plus delta reaches 3 s, and keeps the remainder modulo the period |
| `Audio.CommandFor` | src/audio.rs:106-112 | a draw never yields `None`; 0 gives Left, 1 gives Right, anything else Jump |
| `Audio.DrawsCoverCues` | src/audio.rs:107-112 | every cue is the result of one of the three draws 0, 1, 2 |
| `Audio.AudioCommandStep` | src/audio.rs:98-115 | score untouched; with a cue pending nothing changes (timer frozen); a cue is set exactly when none was pending and the timer finished, and it is the drawn cue, never `None`; otherwise only elapsed time advances; elapsed stays below 3 s |
| `Audio.DetectPressedKey` | src/audio.rs:137-141 | some key is detected iff some arrow edge occurred; Up beats Right beats Left (last write wins); agrees with the priority function `Audio.PressedKey`, which `ScoringStep` uses |
| `Audio.ScoringStep` | src/audio.rs:132-156 | timer untouched; no cue or no edge changes nothing; with a cue and an edge the cue is cleared and the score moves +1 iff the decisive key's cue equals the pending cue, -1 otherwise; the score moves by at most one and only together with clearing the cue |
| `Audio.RemainderShortensNextWait` | src/audio.rs:100-115 | a cue emitted at 2.9 s + 0.2 s leaves 0.1 s on the timer, which stays frozen while the cue is pending; after the answer, 2.9 s more active time is enough for the next cue |
| `Audio.LeftAndRightAgainstLeft` | src/audio.rs:138-141 | with Left pending, Left and Right pressed together give -1 and clear the cue |
| `Audio.TickStep` | src/audio.rs:23-29 | outside `JuegoActivo` nothing changes; a pending cue with no arrow edge changes nothing; elapsed stays below 3 s; score moves by at most one per frame |
| `Audio.Session.constructor` | src/audio.rs:15-17 | a new session has no cue, score 0 and an empty timer |
| `Audio.Session.AudioCommandSystem` | src/audio.rs:90-124 | the new resources are `AudioCommandStep` of the old ones; a clip is played exactly when a cue is emitted, and it is the drawn cue's clip, `Audio.SoundFor`, whose contract pairs each clip with the cue `CommandFor` draws for the same choice (the single match at src/audio.rs:108-112) |
| `Audio.Session.ScoringSystem` | src/audio.rs:127-157 | the new resources are `ScoringStep` of the old ones |
| `Audio.Session.Tick` | src/audio.rs:23-29 | the new resources are `TickStep` of the old ones; outside `JuegoActivo` cue, score and timer are untouched and nothing plays; in an active frame the drawn cue's clip plays exactly when the audio step, run on the resources it sees in the chosen order, sets a new cue |
| `GameState.Requested` | src/gamestate.rs:60-103 | combines the writes of the three systems under their run conditions (`GameState.MenuInicioRequest`, `GameState.MenuPausaRequest`, `GameState.CheckPauseRequest`, from src/gamestate.rs:15, 20, 24); every system that writes writes the same request, so their order is irrelevant; a request is made iff Enter in `Inicio` or P elsewhere; no request names `Inicio` or the current state |
| `GameState.Transition` | src/gamestate.rs:13-24 | from `Inicio` Enter leads to `JuegoActivo` and nothing else leaves; P pauses the game and resumes from the pause; only `Inicio` can lead to `Inicio` |
| `GameState.StateMachine.constructor` | src/gamestate.rs:10-11 | the application starts in `Inicio` with no request queued |
| `GameState.StateMachine.MenuInicioInput` | src/gamestate.rs:60-67 | an Enter edge requests `JuegoActivo`; otherwise the request is unchanged |
| `GameState.StateMachine.MenuPausaInput` | src/gamestate.rs:84-92 | a P edge requests `JuegoActivo`; otherwise the request is unchanged |
| `GameState.StateMachine.CheckPauseInput` | src/gamestate.rs:95-104 | a P edge requests `Pausa` only while the current state is `JuegoActivo` |
| `GameState.StateMachine.Update` | src/gamestate.rs:15-24 | running the three systems under their run conditions leaves exactly `Requested` queued, if it requests anything |
| `GameState.StateMachine.ApplyTransition` | src/gamestate.rs:10 | Bevy's own state transition, installed by `init_state`: a queued state becomes current and the queue is emptied |
| `GameState.StateMachine.Frame` | src/gamestate.rs:13-24 | one frame moves the current state to `Transition` of the old state and the edges |
| `Game.Run` | src/audio.rs:23-29 | runs `Game.Step` (one frame of both plugins: `TickStep` in the current state, then `Transition`) frame by frame; over any frames elapsed stays below 3 s, the score moves by at most one per frame, and a state other than `Inicio` never returns to `Inicio` |
| `Game.StartWaitsForEnter` | src/gamestate.rs:10-15 | from the initial world (`Inicio`, no cue, score 0, timer 0), frames without an Enter edge change nothing |
| `Game.InactiveRunFreezes` | src/audio.rs:23-29 | frames outside the game that request no transition change neither the state nor cue, score and timer |
| `Game.ResumeKeepsRound` | src/gamestate.rs:84-103 | from `Pausa`, any paused frames followed by a P edge return to `JuegoActivo` with cue, score and timer exactly as before |
| `Game.PauseToggles` | src/gamestate.rs:84-103 | once out of `Inicio`, the state is `JuegoActivo` or `Pausa` according to the parity of the P edges |
| `Game.NoCueBeforeInterval` | src/audio.rs:100-115 | with no cue pending, no cue appears and the score does not move until the timer, counting from its current value, reaches 3 s; meanwhile it holds its current value plus the active time |
| `Game.UnansweredCueStays` | src/audio.rs:98-102 | a pending cue with no arrow edges stays pending, with score and timer unchanged, for any frames |

## Left out

- `src/player.rs` (gravity, velocity and ground clamping in `f32` over Bevy transforms) and `src/main.rs` (plugin registration): not part of this model.
- `setup_score_ui` and `update_score_ui` (`src/audio.rs:58-87`): text layout and Bevy change detection.
- Sound playback and asset loading: `AudioCommandSystem` only returns the path of the clip it would spawn; `println!` logging is dropped.
- `setup_menu_inicio`, `setup_menu_pausa` and `cleanup_menu` (`src/gamestate.rs:43-58, 70-82, 107-111`): entity spawning and despawning.
- The WyRand generator behind `GlobalEntropy`: each draw is an input value, so seeded reproducibility of the cue sequence is not modelled.
- Bevy's scheduler: the order of the two loop systems is a parameter; the order among the three menu systems is shown to be irrelevant; a requested state is taken as the next frame's state.
- `set_state(AppState::Inicio)` (`src/gamestate.rs:11`) requests the state that `init_state` already makes current; it is modelled as no queued request.
- Bevy's `Timer` beyond what `just_finished` needs: pausing a timer, its `finished` flag and the count of periods completed in one tick.
- `Audio.ScoringStep`: the score is an unbounded integer; the `i32` overflow of `score.value` is not modelled.
- `Audio.Session.ScoringSystem`: same unbounded score as `Audio.ScoringStep`.
