/** The parts of the game's object events (overworld actors) that the trainer-sight code reads
    or writes, and the collision and movement oracles it consults. */
module Objects {
  import opened Fixed

  /** Number of object-event slots (`OBJECT_EVENTS_COUNT`). */
  const ObjectEventsCount := 16

  /** The collision code `GetCollisionAtCoords` reports for a tile occupied by an object event. */
  const CollisionObjectEvent := 4

  /** The four cardinal directions; the game numbers them south 1, north 2, west 3, east 4. */
  datatype Direction = South | North | West | East

  function DirectionCode(d: Direction): (c: int)
    ensures 1 <= c <= 4
  {
    match d
    case South => 1
    case North => 2
    case West => 3
    case East => 4
  }

  function DirectionOfCode(c: int): (d: Direction)
    requires 1 <= c <= 4
    ensures DirectionCode(d) == c
  {
    if c == 1 then South else if c == 2 then North else if c == 3 then West else East
  }

  /** `GetOppositeDirection` on the cardinal directions. */
  function Opposite(d: Direction): (r: Direction)
    ensures r != d
  {
    match d
    case South => North
    case North => South
    case West => East
    case East => West
  }

  /** A tile position: `currentCoords`, or the player's destination coordinates. */
  datatype Pos = Pos(x: s16, y: s16)

  /** The movement types the approach sequence distinguishes; all others are carried by code. */
  datatype MovementType = TreeDisguise | MountainDisguise | Hidden | OtherMovementType(code: int)

  predicate IsDisguise(m: MovementType) {
    m == TreeDisguise || m == MountainDisguise
  }

  /** Movement actions the sequence hands to the held-movement engine. The engine's action tables
      (`GetFaceDirectionMovementAction` and friends) are left uninterpreted: an action is its name. */
  datatype MovementAction =
    | FaceDirection(dir: Direction)
    | WalkNormal(dir: Direction)
    | JumpInPlace(dir: Direction)
    | FacePlayer
    | RevealTrainer
    | StepEnd

  /** A snapshot of the object-event fields this model reads. */
  datatype ObjectView = ObjectView(
    active: bool,
    trainerType: int,
    facing: Direction,
    coords: Pos,
    trainerRange: u8,
    rangeX: nybble,
    rangeY: nybble,
    movementType: MovementType,
    localId: int,
    mapNum: int,
    mapGroup: int)

  /** One slot of `gObjectEvents`; the fields are updated in place by the engine and, for the two
      range nybbles, briefly by the path check. */
  class ObjectEvent {
    var active: bool
    var trainerType: int
    var facing: Direction
    var coords: Pos
    var trainerRange: u8
    var rangeX: nybble
    var rangeY: nybble
    var movementType: MovementType
    var localId: int
    var mapNum: int
    var mapGroup: int

    constructor (v: ObjectView)
      ensures View() == v
    {
      active, trainerType, facing, coords := v.active, v.trainerType, v.facing, v.coords;
      trainerRange, rangeX, rangeY := v.trainerRange, v.rangeX, v.rangeY;
      movementType, localId, mapNum, mapGroup := v.movementType, v.localId, v.mapNum, v.mapGroup;
    }

    function View(): ObjectView
      reads this
    {
      ObjectView(active, trainerType, facing, coords, trainerRange, rangeX, rangeY,
                 movementType, localId, mapNum, mapGroup)
    }
  }

  /** The collision and coordinate services of the field engine, which this model does not define:
      `MoveCoords`, `GetCollisionFlagsAtCoords` and `GetCollisionAtCoords`. The two collision queries
      see the trainer object as it is at the moment of the call. */
  datatype World = World(
    move: (Direction, Pos) -> Pos,
    collisionFlags: (ObjectView, Pos, Direction) -> bv8,
    collisionAt: (ObjectView, Pos, Direction) -> u8)
}
