/**
 * The menu/pause state machine of the game (src/gamestate.rs).
 *
 * Three input systems run every frame, each only in the states its run
 * condition allows, and each may write Bevy's `NextState` resource. The
 * requested state becomes the current state at the start of the next frame.
 */
module GameState {

  /** The application's states. `Inicio` is the default. */
  datatype AppState = Inicio | JuegoActivo | Pausa

  /** Bevy's `NextState<AppState>`: no transition queued, or one queued. */
  datatype NextState = Unchanged | Pending(state: AppState)

  /** The state the application starts in. */
  const InitialState: AppState := Inicio

  /** What `menu_inicio_input` writes in one frame; it only runs in `Inicio`. */
  function MenuInicioRequest(current: AppState, enter: bool): NextState {
    if current == Inicio && enter then Pending(JuegoActivo) else Unchanged
  }

  /** What `menu_pausa_input` writes in one frame; it only runs in `Pausa`. */
  function MenuPausaRequest(current: AppState, p: bool): NextState {
    if current == Pausa && p then Pending(JuegoActivo) else Unchanged
  }

  /** What `check_pause_input` writes in one frame; it runs in every state but guards on `JuegoActivo`. */
  function CheckPauseRequest(current: AppState, p: bool): NextState {
    if p && current == JuegoActivo then Pending(Pausa) else Unchanged
  }

  /**
   * The request the three systems leave behind in one frame. The systems are
   * unordered, but every system that writes writes this same value, so the
   * outcome does not depend on the order in which they run.
   */
  function Requested(current: AppState, enter: bool, p: bool): (r: NextState)
    ensures MenuInicioRequest(current, enter).Pending? ==> r == MenuInicioRequest(current, enter)
    ensures MenuPausaRequest(current, p).Pending? ==> r == MenuPausaRequest(current, p)
    ensures CheckPauseRequest(current, p).Pending? ==> r == CheckPauseRequest(current, p)
    ensures r.Pending? <==> (current == Inicio && enter) || (current != Inicio && p)
    ensures r.Pending? ==> r.state != Inicio && r.state != current
  {
    var inicio := MenuInicioRequest(current, enter);
    var pausa := MenuPausaRequest(current, p);
    if inicio.Pending? then inicio
    else if pausa.Pending? then pausa
    else CheckPauseRequest(current, p)
  }

  /** The state of the next frame, once the request of this frame is applied. */
  function Transition(current: AppState, enter: bool, p: bool): (next: AppState)
    ensures current == Inicio ==> (next == JuegoActivo <==> enter) && (next == Inicio <==> !enter)
    ensures current == JuegoActivo ==> next == (if p then Pausa else JuegoActivo)
    ensures current == Pausa ==> next == (if p then JuegoActivo else Pausa)
    ensures next == Inicio ==> current == Inicio
  {
    match Requested(current, enter, p)
    case Pending(s) => s
    case Unchanged => current
  }

  /** The `State<AppState>` and `NextState<AppState>` resources, updated in place by the systems. */
  class StateMachine {
    var current: AppState
    var next: NextState

    /** `init_state` with the default `Inicio`; `set_state(Inicio)` asks for the state already current. */
    constructor ()
      ensures current == InitialState && next == Unchanged
    {
      current := InitialState;
      next := Unchanged;
    }

    /** `menu_inicio_input`: an Enter edge asks for the game. */
    method MenuInicioInput(enter: bool)
      modifies this`next
      ensures next == (if enter then Pending(JuegoActivo) else old(next))
    {
      if enter {
        next := Pending(JuegoActivo);
      }
    }

    /** `menu_pausa_input`: a P edge asks to resume the game. */
    method MenuPausaInput(p: bool)
      modifies this`next
      ensures next == (if p then Pending(JuegoActivo) else old(next))
    {
      if p {
        next := Pending(JuegoActivo);
      }
    }

    /** `check_pause_input`: a P edge pauses, but only while the game is active. */
    method CheckPauseInput(p: bool)
      modifies this`next
      ensures next == (if p && current == JuegoActivo then Pending(Pausa) else old(next))
    {
      if p && current == JuegoActivo {
        next := Pending(Pausa);
      }
    }

    /** One `Update` pass of the three systems, each behind its run condition. */
    method Update(enter: bool, p: bool)
      modifies this`next
      ensures next == (if Requested(current, enter, p).Pending? then Requested(current, enter, p) else old(next))
    {
      if current == Inicio {
        MenuInicioInput(enter);
      }
      if current == Pausa {
        MenuPausaInput(p);
      }
      CheckPauseInput(p);
    }

    /** Bevy's state transition at the start of a frame: a queued state becomes current. */
    method ApplyTransition()
      modifies this
      ensures next == Unchanged
      ensures current == (if old(next).Pending? then old(next).state else old(current))
    {
      if next.Pending? {
        current := next.state;
      }
      next := Unchanged;
    }

    /** A whole frame's effect on the state: the request of `Update`, applied. */
    method Frame(enter: bool, p: bool)
      requires next == Unchanged
      modifies this
      ensures next == Unchanged
      ensures current == Transition(old(current), enter, p)
    {
      Update(enter, p);
      ApplyTransition();
    }
  }
}
