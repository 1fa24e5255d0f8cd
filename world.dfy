/**
 * game_world.py: the player character, its movement rules and the stages of the world.
 * The character moves one held key at a time; a move is refused whenever any held key
 * would push its rectangle past the window border.
 */
module World {
  import opened Menus

  /** GAME_FPS, WALKING_TARGET_FPS and their ratio, which divides both walking speeds exactly. */
  const GameFps: int := 60
  const WalkingTargetFps: int := 30
  const GameWalkingFpsRatio: int := GameFps / WalkingTargetFps

  /** MainChar.WALK_SPEED and MainChar.SPRINT_SPEED, in pixels per walking-target frame. */
  const WalkSpeed: int := 4
  const SprintSpeed: int := 6

  datatype MovementType = Walk | Sprint

  datatype WalkDirection = NoDirection | Right | Down | Up | Left | UpLeft | UpRight | DownLeft | DownRight

  /** The movement keys, standing for both their scancodes and their keycodes. */
  datatype Key = W | A | S | D

  /** MainChar.MAPPED_WALKING: the name of the walk_ method each key selects. */
  function MappedWalking(k: Key): string
  {
    match k
    case W => "top"
    case D => "right"
    case A => "left"
    case S => "down"
  }

  /** The order in which enumerating the pressed-key table meets the keys (scancodes 4, 7, 22, 26). */
  const ScancodeOrder: seq<Key> := [A, D, S, W]

  /** get_current_speed. The division by the ratio loses nothing, so the speed is an integer. */
  function Speed(m: MovementType): (r: int)
    ensures r * GameWalkingFpsRatio == (if m == Sprint then SprintSpeed else WalkSpeed)
    ensures r == (if m == Sprint then 3 else 2)
  {
    (if m == Sprint then SprintSpeed else WalkSpeed) / GameWalkingFpsRatio
  }

  /** The rectangle lies inside the window. */
  predicate OnScreen(r: Rect)
  {
    0 <= r.x && r.x + r.w <= ScreenWidth && 0 <= r.y && r.y + r.h <= ScreenHeight
  }

  /** wall_collision_check: some held key would carry the rectangle past the border it faces. */
  predicate WallCollision(r: Rect, speed: int, held: set<Key>)
  {
    if r.x + r.w + speed > ScreenWidth && D in held then true
    else if r.y + r.h + speed > ScreenHeight && S in held then true
    else if r.x - speed < 0 && A in held then true
    else if r.y - speed < 0 && W in held then true
    else false
  }

  /** The walk_<name> method, if the character has one: each moves one coordinate by the speed. */
  function Walked(r: Rect, speed: int, name: string): (q: Rect)
    ensures name == "top" ==> q == r.(y := r.y - speed)
    ensures name == "down" ==> q == r.(y := r.y + speed)
    ensures name == "left" ==> q == r.(x := r.x - speed)
    ensures name == "right" ==> q == r.(x := r.x + speed)
    ensures name !in {"top", "down", "left", "right"} ==> q == r
  {
    if name == "top" then r.(y := r.y - speed)
    else if name == "right" then r.(x := r.x + speed)
    else if name == "left" then r.(x := r.x - speed)
    else if name == "down" then r.(y := r.y + speed)
    else r
  }

  /** solve_for_walking: no step while the collision check holds, otherwise the named step. */
  function SolvedForWalking(r: Rect, m: MovementType, held: set<Key>, name: string): Rect
  {
    if WallCollision(r, Speed(m), held) then r else Walked(r, Speed(m), name)
  }

  /** A blocked character stays put whatever direction name it is given. */
  lemma BlockedStaysPut(r: Rect, m: MovementType, held: set<Key>, name: string)
    requires WallCollision(r, Speed(m), held)
    ensures SolvedForWalking(r, m, held, name) == r
  {
  }

  /** A walk named after a held key keeps an on-screen character on screen. */
  lemma SolveKeepsOnScreen(r: Rect, m: MovementType, held: set<Key>, k: Key)
    requires OnScreen(r) && k in held
    ensures OnScreen(SolvedForWalking(r, m, held, MappedWalking(k)))
  {
  }

  /** A name without a walk_ method (walk_direction is no method) changes nothing. */
  lemma UnknownNameStaysPut(r: Rect, m: MovementType, held: set<Key>, name: string)
    requires name !in {"top", "down", "left", "right"}
    ensures SolvedForWalking(r, m, held, name) == r
  {
  }

  /** One solve_for_walking per key of keys that is held, in the order of keys. */
  function WalkHeld(r: Rect, m: MovementType, held: set<Key>, keys: seq<Key>): Rect
    decreases |keys|
  {
    if keys == [] then r
    else WalkHeld(
      if keys[0] in held then SolvedForWalking(r, m, held, MappedWalking(keys[0])) else r,
      m, held, keys[1..])
  }

  /** The on-screen invariant survives any number of held-key steps. */
  lemma {:induction false} WalkHeldKeepsOnScreen(r: Rect, m: MovementType, held: set<Key>, keys: seq<Key>)
    requires OnScreen(r)
    ensures OnScreen(WalkHeld(r, m, held, keys))
    decreases |keys|
  {
    if keys != [] {
      var next := if keys[0] in held then SolvedForWalking(r, m, held, MappedWalking(keys[0])) else r;
      if keys[0] in held {
        SolveKeepsOnScreen(r, m, held, keys[0]);
      }
      WalkHeldKeepsOnScreen(next, m, held, keys[1..]);
    }
  }

  /** With no key held nothing moves. */
  lemma {:induction false} WalkNothingHeld(r: Rect, m: MovementType, keys: seq<Key>)
    ensures WalkHeld(r, m, {}, keys) == r
    decreases |keys|
  {
    if keys != [] {
      WalkNothingHeld(r, m, keys[1..]);
    }
  }

  /** MainChar._counter, shared by every character built. */
  class CharCounter {
    var count: nat

    constructor ()
      ensures count == 0
    {
      count := 0;
    }
  }

  class MainChar {
    const id: nat
    var rect: Rect
    var walkDirection: WalkDirection
    var movementType: MovementType

    /** MainChar(pos): width and height come from the character image. */
    constructor (pos: (int, int), width: nat, height: nat, counter: CharCounter)
      modifies counter
      ensures counter.count == old(counter.count) + 1 && id == counter.count
      ensures rect == Rect(pos.0, pos.1, width, height)
      ensures walkDirection == NoDirection && movementType == Walk
    {
      counter.count := counter.count + 1;
      id := counter.count;
      rect := Rect(pos.0, pos.1, width, height);
      walkDirection := NoDirection;
      movementType := Walk;
    }

    method WalkTop()
      modifies this
      ensures rect == old(rect).(y := old(rect).y - Speed(movementType))
      ensures movementType == old(movementType) && walkDirection == old(walkDirection)
    {
      rect := rect.(y := rect.y - Speed(movementType));
    }

    method WalkRight()
      modifies this
      ensures rect == old(rect).(x := old(rect).x + Speed(movementType))
      ensures movementType == old(movementType) && walkDirection == old(walkDirection)
    {
      rect := rect.(x := rect.x + Speed(movementType));
    }

    method WalkLeft()
      modifies this
      ensures rect == old(rect).(x := old(rect).x - Speed(movementType))
      ensures movementType == old(movementType) && walkDirection == old(walkDirection)
    {
      rect := rect.(x := rect.x - Speed(movementType));
    }

    method WalkDown()
      modifies this
      ensures rect == old(rect).(y := old(rect).y + Speed(movementType))
      ensures movementType == old(movementType) && walkDirection == old(walkDirection)
    {
      rect := rect.(y := rect.y + Speed(movementType));
    }

    /** solve_for_walking(name), with the keys held at this moment. */
    method SolveForWalking(name: string, held: set<Key>)
      modifies this
      ensures rect == SolvedForWalking(old(rect), movementType, held, name)
      ensures movementType == old(movementType) && walkDirection == old(walkDirection)
    {
      if WallCollision(rect, Speed(movementType), held) {
        return;
      }
      if name == "top" {
        WalkTop();
      } else if name == "right" {
        WalkRight();
      } else if name == "left" {
        WalkLeft();
      } else if name == "down" {
        WalkDown();
      }
    }
  }

  class GameStage {
    const name: string
    /** The stage's sprite group: a group holding at most one character. */
    const character: MainChar?
    var topStage: GameStage?
    var bottomStage: GameStage?
    var rightStage: GameStage?
    var leftStage: GameStage?

    /** GameStage(sprite_group, name): a new stage has no neighbour in any direction. */
    constructor (character: MainChar?, name: string)
      ensures this.character == character && this.name == name
      ensures topStage == null && bottomStage == null && rightStage == null && leftStage == null
    {
      this.character := character;
      this.name := name;
      topStage, bottomStage, rightStage, leftStage := null, null, null, null;
    }
  }

  class GameWorld {
    const stages: seq<GameStage>
    var currentStage: GameStage

    /** GameWorld(stages): the first stage is the current one. */
    constructor (stages: seq<GameStage>)
      requires |stages| > 0
      ensures this.stages == stages && currentStage == stages[0]
    {
      this.stages := stages;
      currentStage := stages[0];
    }
  }

  /** create_game_world: one stage, "Start Level", holding a character created at (0, 200). */
  method CreateGameWorld(width: nat, height: nat, counter: CharCounter) returns (world: GameWorld)
    modifies counter
    ensures fresh(world) && |world.stages| == 1 && world.currentStage == world.stages[0]
    ensures world.currentStage.name == "Start Level" && world.currentStage.character != null
    ensures fresh(world.currentStage.character)
    ensures var c := world.currentStage.character;
      && c.rect == Rect(0, 200, width, height) && c.movementType == Walk && c.walkDirection == NoDirection
      && c.id == counter.count == old(counter.count) + 1
  {
    var mainChar := new MainChar((0, 200), width, height, counter);
    var start := new GameStage(mainChar, "Start Level");
    world := new GameWorld([start]);
  }
}
