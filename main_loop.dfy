/**
 * main.py: the game-mode state machine and the per-frame input handling. Every event of a
 * frame is offered, in order, to the handlers the current mode lists; the first close
 * event ends the session before later events and walking are looked at.
 */
module MainLoop {
  import opened Menus
  import opened World

  datatype GameState = MENU | GAME | MAP

  /** The handler functions a mode can list. */
  datatype Handler = MenuClickHandler | PauseHandler | MapHandler

  /** Game.game_state_events: the handlers each mode runs, in order. */
  const GameStateEvents: map<GameState, seq<Handler>> := map[
    GAME := [PauseHandler, MapHandler],
    MAP := [PauseHandler, MapHandler],
    MENU := [MenuClickHandler, PauseHandler]]

  lemma EveryModeHasHandlers(mode: GameState)
    ensures mode in GameStateEvents && |GameStateEvents[mode]| == 2
    ensures PauseHandler in GameStateEvents[mode]
    ensures MapHandler in GameStateEvents[mode] <==> mode != MENU
    ensures MenuClickHandler in GameStateEvents[mode] <==> mode == MENU
  {
  }

  datatype KeyCode = KeyP | KeyM | KeyEscape | OtherKey(code: int)

  /**
   * A pygame event. For the mouse events, cursor is what pygame.mouse.get_pos() reports
   * while the event is handled.
   */
  datatype Event =
    | Quit
    | KeyDown(key: KeyCode)
    | KeyUp(key: KeyCode)
    | MouseButtonDown(cursor: (int, int))
    | MouseButtonUp(cursor: (int, int))
    | OtherEvent

  class Game {
    var gameState: GameState
    const gameStateEvents: map<GameState, seq<Handler>>

    constructor (gameState: GameState := GAME)
      ensures this.gameState == gameState && gameStateEvents == GameStateEvents
    {
      this.gameState := gameState;
      gameStateEvents := GameStateEvents;
    }
  }

  /** set_game_state: requesting the active mode returns to GAME, any other request is granted. */
  function Toggled(current: GameState, requested: GameState): GameState
  {
    if current == requested then GAME else requested
  }

  /** Toggling is never a stack: the second of two equal requests always lands on GAME. */
  lemma ToggledTwice(current: GameState, requested: GameState)
    requires current == GAME && requested != GAME
    ensures Toggled(current, requested) == requested
    ensures Toggled(Toggled(current, requested), requested) == GAME
  {
  }

  method SetGameState(game: Game, newState: GameState)
    modifies game
    ensures game.gameState == Toggled(old(game.gameState), newState)
  {
    if game.gameState == newState {
      game.gameState := GAME;
    } else {
      game.gameState := newState;
    }
  }

  /** handle_game_close_events: false when the session should end. */
  function HandleGameCloseEvents(e: Event): (keepRunning: bool)
  {
    !(e.Quit? || (e.KeyDown? && e.key == KeyEscape))
  }

  function PauseStep(mode: GameState, e: Event): GameState
  {
    if e.KeyDown? && e.key == KeyP then Toggled(mode, MENU) else mode
  }

  function MapStep(mode: GameState, e: Event): GameState
  {
    if e.KeyDown? && e.key == KeyM then Toggled(mode, MAP) else mode
  }

  method HandlePauseEvent(e: Event, game: Game)
    modifies game
    ensures game.gameState == PauseStep(old(game.gameState), e)
  {
    if e.KeyDown? && e.key == KeyP {
      SetGameState(game, MENU);
    }
  }

  method HandleMapEvent(e: Event, game: Game)
    modifies game
    ensures game.gameState == MapStep(old(game.gameState), e)
  {
    if e.KeyDown? && e.key == KeyM {
      SetGameState(game, MAP);
    }
  }

  /** Mouse-down: every button of the group under the cursor gets focus, in group order. */
  function FocusDown(focus: map<MenuButton, bool>, group: seq<MenuButton>, cursor: (int, int)): map<MenuButton, bool>
    decreases |group|
  {
    if group == [] then focus
    else FocusDown(
      if Contains(group[0].rect, cursor.0, cursor.1) then focus[group[0] := true] else focus,
      group[1..], cursor)
  }

  /** One button of a mouse-up: clicked if under the cursor and focused, then unfocused. */
  function ReleaseButton(v: MenuView, b: MenuButton, cursor: (int, int)): MenuView
  {
    var clicked := if Contains(b.rect, cursor.0, cursor.1) && b in v.focus && v.focus[b]
      then OnClickView(v, b.kind) else v;
    clicked.(focus := clicked.focus[b := false])
  }

  /** Mouse-up over a whole group, in group order. */
  function ReleaseAll(v: MenuView, group: seq<MenuButton>, cursor: (int, int)): MenuView
    decreases |group|
  {
    if group == [] then v else ReleaseAll(ReleaseButton(v, group[0], cursor), group[1..], cursor)
  }

  /** Mouse-down focuses exactly the group's buttons under the cursor; every other flag is kept. */
  lemma {:induction false} FocusDownMeaning(focus: map<MenuButton, bool>, group: seq<MenuButton>, cursor: (int, int))
    ensures FocusDown(focus, group, cursor).Keys
      == focus.Keys + (set b | b in group && Contains(b.rect, cursor.0, cursor.1))
    ensures forall b :: b in group && Contains(b.rect, cursor.0, cursor.1) ==> FocusDown(focus, group, cursor)[b]
    ensures forall b :: b in focus && !(b in group && Contains(b.rect, cursor.0, cursor.1)) ==>
      FocusDown(focus, group, cursor)[b] == focus[b]
    decreases |group|
  {
    if group != [] {
      var head, tail := group[0], group[1..];
      var next := if Contains(head.rect, cursor.0, cursor.1) then focus[head := true] else focus;
      FocusDownMeaning(next, tail, cursor);
      assert forall b :: b in group <==> b == head || b in tail;
    }
  }

  /** Mouse-up clears the focus of every button of the group and of no other; the groups stay. */
  lemma {:induction false} ReleaseAllFocus(v: MenuView, group: seq<MenuButton>, cursor: (int, int))
    ensures ReleaseAll(v, group, cursor).focus.Keys == v.focus.Keys + (set b | b in group)
    ensures forall b :: b in group ==> !ReleaseAll(v, group, cursor).focus[b]
    ensures forall b :: b in v.focus && b !in group ==> ReleaseAll(v, group, cursor).focus[b] == v.focus[b]
    ensures ReleaseAll(v, group, cursor).groups == v.groups
    decreases |group|
  {
    if group != [] {
      var head, tail := group[0], group[1..];
      var next := ReleaseButton(v, head, cursor);
      assert next.focus == v.focus[head := false];
      ReleaseAllFocus(next, tail, cursor);
      assert forall b :: b in group <==> b == head || b in tail;
    }
  }

  /** The mixer calls of the action buttons under the cursor that had focus before the mouse-up, in group order. */
  function ReleasedCalls(focus: map<MenuButton, bool>, group: seq<MenuButton>, cursor: (int, int)): seq<Action>
    decreases |group|
  {
    if group == [] then []
    else
      var b := group[0];
      (if Contains(b.rect, cursor.0, cursor.1) && b in focus && focus[b] && b.kind.Act?
       then MixerCalls(b.kind.action) else [])
      + ReleasedCalls(focus, group[1..], cursor)
  }

  /** A flag of a button outside the group does not change which of the group's buttons are clicked. */
  lemma {:induction false} ReleasedCallsFrame(focus: map<MenuButton, bool>, group: seq<MenuButton>, cursor: (int, int), b: MenuButton)
    requires b !in group
    ensures ReleasedCalls(focus[b := false], group, cursor) == ReleasedCalls(focus, group, cursor)
    decreases |group|
  {
    if group != [] {
      assert group[0] != b;
      ReleasedCallsFrame(focus, group[1..], cursor, b);
    }
  }

  /**
   * Over a group without repeats, mouse-up makes the mixer calls of exactly the action buttons
   * that were under the cursor and focused when it began: unfocusing one button never
   * affects a later one.
   */
  lemma {:induction false} ReleaseAllCalls(v: MenuView, group: seq<MenuButton>, cursor: (int, int))
    requires Distinct(group)
    ensures ReleaseAll(v, group, cursor).calls == v.calls + ReleasedCalls(v.focus, group, cursor)
    decreases |group|
  {
    if group != [] {
      var head, tail := group[0], group[1..];
      var next := ReleaseButton(v, head, cursor);
      assert next.focus == v.focus[head := false];
      assert Distinct(tail) by {
        forall i, j | 0 <= i < j < |tail| ensures tail[i] != tail[j] {
          assert tail[i] == group[i + 1] && tail[j] == group[j + 1];
        }
      }
      assert head !in tail by {
        forall j | 0 <= j < |tail| ensures tail[j] != head {
          assert tail[j] == group[j + 1];
        }
      }
      ReleaseAllCalls(next, tail, cursor);
      ReleasedCallsFrame(v.focus, tail, cursor, head);
    }
  }

  /** The page after clicking, in group order, the switch buttons under the cursor that had focus before the mouse-up. */
  function ReleasedPage(page: MenuPage, focus: map<MenuButton, bool>, group: seq<MenuButton>, cursor: (int, int)): MenuPage
    decreases |group|
  {
    if group == [] then page
    else
      var b := group[0];
      ReleasedPage(
        if Contains(b.rect, cursor.0, cursor.1) && b in focus && focus[b] && b.kind.Switch?
        then SwitchOnClick(page, b.kind.target) else page,
        focus, group[1..], cursor)
  }

  /** A flag of a button outside the group does not change which of the group's switches are clicked. */
  lemma {:induction false} ReleasedPageFrame(page: MenuPage, focus: map<MenuButton, bool>, group: seq<MenuButton>, cursor: (int, int), b: MenuButton)
    requires b !in group
    ensures ReleasedPage(page, focus[b := false], group, cursor) == ReleasedPage(page, focus, group, cursor)
    decreases |group|
  {
    if group != [] {
      var c := group[0];
      assert c != b;
      var next := if Contains(c.rect, cursor.0, cursor.1) && c in focus && focus[c] && c.kind.Switch?
        then SwitchOnClick(page, c.kind.target) else page;
      ReleasedPageFrame(next, focus, group[1..], cursor, b);
    }
  }

  /**
   * Over a group without repeats, mouse-up leaves the page that clicking, in group order, the
   * switch buttons under the cursor and focused when it began leads to.
   */
  lemma {:induction false} ReleaseAllPage(v: MenuView, group: seq<MenuButton>, cursor: (int, int))
    requires Distinct(group)
    ensures ReleaseAll(v, group, cursor).page == ReleasedPage(v.page, v.focus, group, cursor)
    decreases |group|
  {
    if group != [] {
      var head, tail := group[0], group[1..];
      var next := ReleaseButton(v, head, cursor);
      assert next.focus == v.focus[head := false];
      assert next.page == if Contains(head.rect, cursor.0, cursor.1) && head in v.focus && v.focus[head] && head.kind.Switch?
        then SwitchOnClick(v.page, head.kind.target) else v.page;
      assert Distinct(tail) by {
        forall i, j | 0 <= i < j < |tail| ensures tail[i] != tail[j] {
          assert tail[i] == group[i + 1] && tail[j] == group[j + 1];
        }
      }
      assert head !in tail by {
        forall j | 0 <= j < |tail| ensures tail[j] != head {
          assert tail[j] == group[j + 1];
        }
      }
      ReleaseAllPage(next, tail, cursor);
      ReleasedPageFrame(next.page, v.focus, tail, cursor, head);
    }
  }

  function CurrentGroup(v: MenuView): seq<MenuButton>
  {
    if v.page in v.groups then v.groups[v.page] else []
  }

  /** handle_mouse_events on the menu's view. */
  function MouseStep(v: MenuView, e: Event): MenuView
  {
    if e.MouseButtonDown? then v.(focus := FocusDown(v.focus, CurrentGroup(v), e.cursor))
    else if e.MouseButtonUp? then ReleaseAll(v, CurrentGroup(v), e.cursor)
    else v
  }

  /** What the game's mode and the menu look like between two handler calls. */
  datatype Session = Session(mode: GameState, menu: MenuView)

  function ApplyHandler(h: Handler, s: Session, e: Event): Session
  {
    match h
    case MenuClickHandler => s.(menu := MouseStep(s.menu, e))
    case PauseHandler => s.(mode := PauseStep(s.mode, e))
    case MapHandler => s.(mode := MapStep(s.mode, e))
  }

  /** Run a handler list in order; each handler sees what the previous ones left. */
  function ApplyAll(hs: seq<Handler>, s: Session, e: Event): Session
    decreases |hs|
  {
    if hs == [] then s else ApplyAll(hs[1..], ApplyHandler(hs[0], s, e), e)
  }

  /** One event: the handler list is the one of the mode current when the event is reached. */
  function Dispatch(s: Session, e: Event): Session
  {
    EveryModeHasHandlers(s.mode);
    ApplyAll(GameStateEvents[s.mode], s, e)
  }

  /** The event loop of check_user_action: the session it leaves and whether to keep running. */
  function Drain(s: Session, events: seq<Event>): (Session, bool)
    decreases |events|
  {
    if events == [] then (s, true)
    else
      var next := Dispatch(s, events[0]);
      if !HandleGameCloseEvents(events[0]) then (next, false) else Drain(next, events[1..])
  }

  /** Pressing p: GAME and MAP go to MENU, MENU goes back to GAME; the menu is untouched. */
  lemma PauseKeyToggles(s: Session)
    ensures Dispatch(s, KeyDown(KeyP)).mode == (if s.mode == MENU then GAME else MENU)
    ensures Dispatch(s, KeyDown(KeyP)).menu == s.menu
  {
    EveryModeHasHandlers(s.mode);
    var hs := GameStateEvents[s.mode];
    assert hs[1..][1..] == [];
  }

  /** Pressing m: GAME and MAP swap; in MENU, whose list has no map handler, nothing happens. */
  lemma MapKeyToggles(s: Session)
    ensures Dispatch(s, KeyDown(KeyM)).mode == match s.mode
      case GAME => MAP
      case MAP => GAME
      case MENU => MENU
    ensures Dispatch(s, KeyDown(KeyM)).menu == s.menu
  {
    EveryModeHasHandlers(s.mode);
    var hs := GameStateEvents[s.mode];
    assert hs[1..][1..] == [];
  }

  /** A close event (QUIT or ESCAPE) changes neither the mode nor the menu. */
  lemma CloseEventChangesNothing(s: Session, e: Event)
    requires !HandleGameCloseEvents(e)
    ensures Dispatch(s, e) == s
  {
    EveryModeHasHandlers(s.mode);
    var hs := GameStateEvents[s.mode];
    assert hs[1..][1..] == [];
  }

  /** The loop keeps running exactly when no event of the frame is a close event. */
  lemma {:induction false} DrainKeepsRunning(s: Session, events: seq<Event>)
    ensures Drain(s, events).1 <==> forall i :: 0 <= i < |events| ==> HandleGameCloseEvents(events[i])
    decreases |events|
  {
    if events != [] {
      DrainKeepsRunning(Dispatch(s, events[0]), events[1..]);
      assert forall i :: 1 <= i < |events| ==> events[i] == events[1..][i - 1];
    }
  }

  /** Events after the first close event are never looked at. */
  lemma {:induction false} DrainStopsAtClose(s: Session, events: seq<Event>, k: nat)
    requires k < |events| && !HandleGameCloseEvents(events[k])
    ensures Drain(s, events) == Drain(s, events[..k + 1])
    ensures !Drain(s, events).1
    decreases k
  {
    if HandleGameCloseEvents(events[0]) {
      assert k > 0;
      DrainStopsAtClose(Dispatch(s, events[0]), events[1..], k - 1);
      assert events[..k + 1][1..] == events[1..][..k];
    }
  }

  /** The mouse-down half of handle_mouse_events, over the group of the current page. */
  method FocusUnderCursor(cursor: (int, int), menu: Menu, group: seq<MenuButton>)
    requires menu.Valid() && group == menu.currentPage.buttonGroup
    modifies menu.buttons
    ensures menu.Focus() == FocusDown(old(menu.Focus()), group, cursor)
    ensures forall b :: b in menu.buttons ==>
      b.focus == ((b in group && Contains(b.rect, cursor.0, cursor.1)) || old(b.focus))
  {
    ghost var start := menu.Focus();
    var i := 0;
    while i < |group|
      invariant 0 <= i <= |group|
      invariant FocusDown(menu.Focus(), group[i..], cursor) == FocusDown(old(menu.Focus()), group, cursor)
    {
      var b := group[i];
      assert b in menu.buttons;
      ghost var before := menu.Focus();
      assert group[i..][1..] == group[i + 1..];
      if Contains(b.rect, cursor.0, cursor.1) {
        b.focus := true;
        assert menu.Focus() == before[b := true];
      }
      i := i + 1;
    }
    assert group[|group|..] == [];
    FocusDownMeaning(start, group, cursor);
  }

  /** One button of the mouse-up half of handle_mouse_events. */
  method Release(b: MenuButton, cursor: (int, int), menu: Menu)
    requires menu.Valid() && b in menu.buttons
    modifies menu, menu.mixer, b
    ensures menu.Valid()
    ensures menu.View() == ReleaseButton(old(menu.View()), b, cursor)
  {
    if Contains(b.rect, cursor.0, cursor.1) && b.focus {
      b.OnClick(menu);
    }
    ghost var clicked := menu.View();
    b.focus := false;
    assert menu.Groups() == clicked.groups;
    assert menu.Focus() == clicked.focus[b := false];
  }

  /** The mouse-up half of handle_mouse_events, over the group the current page had when it began. */
  method ReleaseUnderCursor(cursor: (int, int), menu: Menu, group: seq<MenuButton>)
    requires menu.Valid() && forall b :: b in group ==> b in menu.buttons
    modifies menu, menu.mixer, menu.buttons
    ensures menu.Valid()
    ensures menu.View() == ReleaseAll(old(menu.View()), group, cursor)
    ensures forall b :: b in group ==> !b.focus
    ensures Distinct(group) ==> menu.mixer.calls == old(menu.mixer.calls) + ReleasedCalls(old(menu.View()).focus, group, cursor)
    ensures Distinct(group) ==> menu.currentPage == ReleasedPage(old(menu.currentPage), old(menu.View()).focus, group, cursor)
  {
    ghost var start := menu.View();
    var i := 0;
    while i < |group|
      invariant 0 <= i <= |group|
      invariant menu.Valid()
      invariant ReleaseAll(menu.View(), group[i..], cursor) == ReleaseAll(old(menu.View()), group, cursor)
    {
      assert group[i..][1..] == group[i + 1..];
      Release(group[i], cursor, menu);
      i := i + 1;
    }
    assert group[|group|..] == [];
    ReleaseAllFocus(start, group, cursor);
    if Distinct(group) {
      ReleaseAllCalls(start, group, cursor);
      ReleaseAllPage(start, group, cursor);
    }
  }

  /** handle_mouse_events. */
  method HandleMouseEvents(e: Event, menu: Menu)
    requires menu.Valid()
    modifies menu, menu.mixer, menu.buttons
    ensures menu.Valid()
    ensures menu.View() == MouseStep(old(menu.View()), e)
  {
    var group := menu.currentPage.buttonGroup;
    assert CurrentGroup(menu.View()) == group;
    if e.MouseButtonDown? {
      FocusUnderCursor(e.cursor, menu, group);
    } else if e.MouseButtonUp? {
      ReleaseUnderCursor(e.cursor, menu, group);
    }
  }

  /** menu_click_events. */
  method MenuClickEvents(e: Event, menu: Menu)
    requires menu.Valid()
    modifies menu, menu.mixer, menu.buttons
    ensures menu.Valid()
    ensures menu.View() == MouseStep(old(menu.View()), e)
  {
    HandleMouseEvents(e, menu);
  }

  /** event_function(event, game, menu) for one entry of a handler list. */
  method RunHandler(h: Handler, e: Event, game: Game, menu: Menu)
    requires menu.Valid()
    modifies game, menu, menu.mixer, menu.buttons
    ensures menu.Valid()
    ensures Session(game.gameState, menu.View()) == ApplyHandler(h, Session(old(game.gameState), old(menu.View())), e)
  {
    match h
    case MenuClickHandler => MenuClickEvents(e, menu);
    case PauseHandler => HandlePauseEvent(e, game);
    case MapHandler => HandleMapEvent(e, game);
  }

  /** handle_walking: LSHIFT picks the movement type, then one step per held movement key. */
  method HandleWalking(world: GameWorld, held: set<Key>, shift: bool)
    requires world.currentStage.character != null
    modifies world.currentStage.character
    ensures var c := world.currentStage.character;
      && c.movementType == (if shift then Sprint else Walk)
      && c.rect == WalkHeld(old(c.rect), c.movementType, held, ScancodeOrder)
      && c.walkDirection == old(c.walkDirection)
  {
    var c := world.currentStage.character;
    c.movementType := if shift then Sprint else Walk;
    ghost var r0 := c.rect;
    var i := 0;
    while i < |ScancodeOrder|
      invariant 0 <= i <= |ScancodeOrder|
      invariant c.movementType == (if shift then Sprint else Walk)
      invariant c.walkDirection == old(c.walkDirection)
      invariant WalkHeld(c.rect, c.movementType, held, ScancodeOrder[i..])
        == WalkHeld(r0, c.movementType, held, ScancodeOrder)
    {
      var key := ScancodeOrder[i];
      assert ScancodeOrder[i..][1..] == ScancodeOrder[i + 1..];
      if key in held {
        c.SolveForWalking(MappedWalking(key), held);
      }
      i := i + 1;
    }
  }

  /** handle_keyboard_events: walking happens in GAME mode only. */
  method HandleKeyboardEvents(world: GameWorld, game: Game, held: set<Key>, shift: bool)
    requires world.currentStage.character != null
    modifies world.currentStage.character
    ensures var c := world.currentStage.character;
      if game.gameState == GAME then
        && c.movementType == (if shift then Sprint else Walk)
        && c.rect == WalkHeld(old(c.rect), c.movementType, held, ScancodeOrder)
        && c.walkDirection == old(c.walkDirection)
      else
        c.rect == old(c.rect) && c.movementType == old(c.movementType) && c.walkDirection == old(c.walkDirection)
  {
    if game.gameState == GAME {
      HandleWalking(world, held, shift);
    }
  }

  /** One event: each handler of the current mode's list is called in turn with the event, the game and the menu. */
  method ProcessEvent(e: Event, game: Game, menu: Menu)
    requires menu.Valid() && game.gameStateEvents == GameStateEvents
    modifies game, menu, menu.mixer, menu.buttons
    ensures menu.Valid()
    ensures Session(game.gameState, menu.View()) == Dispatch(Session(old(game.gameState), old(menu.View())), e)
  {
    EveryModeHasHandlers(game.gameState);
    var handlers := game.gameStateEvents[game.gameState];
    ghost var s0 := Session(game.gameState, menu.View());
    var j := 0;
    while j < |handlers|
      invariant 0 <= j <= |handlers|
      invariant menu.Valid()
      invariant ApplyAll(handlers[j..], Session(game.gameState, menu.View()), e) == ApplyAll(handlers, s0, e)
    {
      assert handlers[j..][1..] == handlers[j + 1..];
      RunHandler(handlers[j], e, game, menu);
      j := j + 1;
    }
    assert handlers[|handlers|..] == [];
  }

  /** The event loop of check_user_action: handlers first, then the close check. */
  method DrainEvents(events: seq<Event>, game: Game, menu: Menu) returns (keepRunning: bool)
    requires menu.Valid() && game.gameStateEvents == GameStateEvents
    modifies game, menu, menu.mixer, menu.buttons
    ensures menu.Valid()
    ensures Drain(Session(old(game.gameState), old(menu.View())), events)
      == (Session(game.gameState, menu.View()), keepRunning)
  {
    ghost var s0 := Session(game.gameState, menu.View());
    var i := 0;
    while i < |events|
      invariant 0 <= i <= |events|
      invariant menu.Valid()
      invariant Drain(Session(game.gameState, menu.View()), events[i..]) == Drain(s0, events)
    {
      var e := events[i];
      assert events[i..][1..] == events[i + 1..];
      ProcessEvent(e, game, menu);
      if !HandleGameCloseEvents(e) {
        return false;
      }
      i := i + 1;
    }
    assert events[|events|..] == [];
    return true;
  }

  /**
   * check_user_action. The frame's queued events, the held movement keys and the LSHIFT
   * state are what pygame.event.get() and pygame.key.get_pressed() report.
   */
  method CheckUserAction(events: seq<Event>, menu: Menu, world: GameWorld, game: Game, held: set<Key>, shift: bool)
    returns (keepRunning: bool)
    requires menu.Valid() && game.gameStateEvents == GameStateEvents
    requires world.currentStage.character != null
    modifies game, menu, menu.mixer, menu.buttons, world.currentStage.character
    ensures menu.Valid()
    ensures keepRunning <==> forall i :: 0 <= i < |events| ==> HandleGameCloseEvents(events[i])
    ensures Drain(Session(old(game.gameState), old(menu.View())), events)
      == (Session(game.gameState, menu.View()), keepRunning)
    ensures var c := world.currentStage.character;
      if keepRunning && game.gameState == GAME then
        && c.movementType == (if shift then Sprint else Walk)
        && c.rect == WalkHeld(old(c.rect), c.movementType, held, ScancodeOrder)
        && c.walkDirection == old(c.walkDirection)
      else
        c.rect == old(c.rect) && c.movementType == old(c.movementType) && c.walkDirection == old(c.walkDirection)
  {
    DrainKeepsRunning(Session(game.gameState, menu.View()), events);
    var c := world.currentStage.character;
    ghost var rect, movementType, walkDirection := c.rect, c.movementType, c.walkDirection;
    keepRunning := DrainEvents(events, game, menu);
    assert world.currentStage.character == c;
    assert c.rect == rect && c.movementType == movementType && c.walkDirection == walkDirection;
    if keepRunning {
      HandleKeyboardEvents(world, game, held, shift);
    }
  }
}
