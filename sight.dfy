/** The visibility scanner: the four directional distance functions, the path check between a
    trainer and the player, and the dispatch that picks the directions a trainer can see in
    (src/trainer_see.c, `GetTrainerApproachDistance` down to `CheckPathBetweenTrainerAndPlayer`). */
module Sight {
  import opened Fixed
  import opened Objects

  // ---------------------------------------------------------------------------------------------
  // Directional distance

  /** The tile k steps from p along dir, in unbounded arithmetic (the C comparisons are made on
      promoted ints, so they do not wrap). */
  function Shift(dir: Direction, p: Pos, k: int): (int, int)
  {
    match dir
    case South => (p.x, p.y + k)
    case North => (p.x, p.y - k)
    case West => (p.x - k, p.y)
    case East => (p.x + k, p.y)
  }

  /** Reference definition of sight: the player at q stands exactly k tiles from the trainer at t
      along dir, and k is between 1 and the trainer's range. */
  predicate SeesAt(dir: Direction, t: Pos, range: int, q: Pos, k: int)
  {
    1 <= k <= range && Shift(dir, t, k) == (q.x, q.y)
  }

  /** `GetTrainerApproachDistanceSouth`. */
  function DistanceSouth(t: Pos, range: u8, q: Pos): (d: u8)
    ensures d != 0 ==> SeesAt(South, t, range, q, d)
    ensures forall k :: SeesAt(South, t, range, q, k) ==> d == k
    ensures d <= range
  {
    if t.x == q.x && q.y > t.y && q.y <= t.y + range then q.y - t.y else 0
  }

  /** `GetTrainerApproachDistanceNorth`. */
  function DistanceNorth(t: Pos, range: u8, q: Pos): (d: u8)
    ensures d != 0 ==> SeesAt(North, t, range, q, d)
    ensures forall k :: SeesAt(North, t, range, q, k) ==> d == k
    ensures d <= range
  {
    if t.x == q.x && q.y < t.y && q.y >= t.y - range then t.y - q.y else 0
  }

  /** `GetTrainerApproachDistanceWest`. */
  function DistanceWest(t: Pos, range: u8, q: Pos): (d: u8)
    ensures d != 0 ==> SeesAt(West, t, range, q, d)
    ensures forall k :: SeesAt(West, t, range, q, k) ==> d == k
    ensures d <= range
  {
    if t.y == q.y && q.x < t.x && q.x >= t.x - range then t.x - q.x else 0
  }

  /** `GetTrainerApproachDistanceEast`. */
  function DistanceEast(t: Pos, range: u8, q: Pos): (d: u8)
    ensures d != 0 ==> SeesAt(East, t, range, q, d)
    ensures forall k :: SeesAt(East, t, range, q, k) ==> d == k
    ensures d <= range
  {
    if t.y == q.y && q.x > t.x && q.x <= t.x + range then q.x - t.x else 0
  }

  /** The table `sDirectionalApproachDistanceFuncs`, indexed by direction. */
  function Distance(dir: Direction, t: Pos, range: u8, q: Pos): (d: u8)
    ensures d != 0 ==> SeesAt(dir, t, range, q, d)
    ensures forall k :: SeesAt(dir, t, range, q, k) ==> d == k
    ensures d <= range
  {
    match dir
    case South => DistanceSouth(t, range, q)
    case North => DistanceNorth(t, range, q)
    case West => DistanceWest(t, range, q)
    case East => DistanceEast(t, range, q)
  }

  /** The player can be in sight along at most one of the four directions. */
  lemma AtMostOneDirection(t: Pos, range: u8, q: Pos, d1: Direction, d2: Direction)
    requires Distance(d1, t, range, q) != 0 && Distance(d2, t, range, q) != 0
    ensures d1 == d2
  {
  }

  /** Order in which an all-direction trainer is scanned (directions 1 to 4). */
  const SightOrder: seq<Direction> := [South, North, West, East]

  lemma SightOrderIsCodeOrder(i: int)
    requires 0 <= i < 4
    ensures SightOrder[i] == DirectionOfCode(i + 1)
    ensures SightOrder[DirectionCode(SightOrder[i]) - 1] == SightOrder[i]
  {
  }

  // ---------------------------------------------------------------------------------------------
  // Path check

  /** The tile k calls of `MoveCoords` away from p along dir. */
  function Ahead(w: World, dir: Direction, p: Pos, k: nat): Pos
  {
    if k == 0 then p else w.move(dir, Ahead(w, dir, p, k - 1))
  }

  /** `collision != 0 && (collision & COLLISION_MASK)`, with `COLLISION_MASK` being `~1`. */
  predicate Blocking(flags: bv8)
  {
    flags != 0 && flags & 0xFE != 0
  }

  /** A tile blocks exactly when its flags have some bit other than bit 0 set. */
  lemma BlockingIsAnyBitButBitZero(flags: bv8)
    ensures Blocking(flags) <==> flags as int >= 2
  {
  }

  /** The trainer as the final-tile query sees it: both range nybbles cleared. */
  function ProbeView(t: ObjectView): ObjectView
  {
    t.(rangeX := 0, rangeY := 0)
  }

  /** None of the d - 1 tiles from one step ahead of the trainer up to the tile before the
      player blocks. */
  predicate PathClear(t: ObjectView, d: int, dir: Direction, w: World)
  {
    forall i :: 1 <= i < d ==> !Blocking(w.collisionFlags(t, Ahead(w, dir, t.coords, i), dir))
  }

  /** What `CheckPathBetweenTrainerAndPlayer` returns for a trainer whose fields are t. */
  function PathCheck(t: ObjectView, d: u8, dir: Direction, w: World): u8
  {
    if d != 0 && PathClear(t, d, dir, w)
       && w.collisionAt(ProbeView(t), Ahead(w, dir, t.coords, d), dir) == CollisionObjectEvent
    then d
    else 0
  }

  /** A blocking tile strictly between the trainer and the player rejects the sighting whatever
      the final tile holds. */
  lemma BlockedTileRejects(t: ObjectView, d: u8, dir: Direction, w: World, i: int)
    requires 1 <= i < d
    requires Blocking(w.collisionFlags(t, Ahead(w, dir, t.coords, i), dir))
    ensures PathCheck(t, d, dir, w) == 0
  {
  }

  /** `CheckPathBetweenTrainerAndPlayer`: walks the d - 1 intermediate tiles, then asks about the
      final tile with the trainer's range nybbles zeroed, and restores them. */
  method CheckPathBetweenTrainerAndPlayer(trainer: ObjectEvent, d: u8, dir: Direction, w: World)
    returns (r: u8)
    modifies trainer`rangeX, trainer`rangeY
    ensures trainer.rangeX == old(trainer.rangeX) && trainer.rangeY == old(trainer.rangeY)
    ensures trainer.View() == old(trainer.View())
    ensures r == 0 || r == d
    ensures r == PathCheck(old(trainer.View()), d, dir, w)
  {
    if d == 0 {
      return 0;
    }
    ghost var t := trainer.View();
    var p := w.move(dir, trainer.coords);
    var i := 0;
    while i < d - 1
      invariant 0 <= i <= d - 1
      invariant trainer.View() == t
      invariant p == Ahead(w, dir, t.coords, i + 1)
      invariant forall k :: 1 <= k <= i ==> !Blocking(w.collisionFlags(t, Ahead(w, dir, t.coords, k), dir))
    {
      var flags := w.collisionFlags(trainer.View(), p, dir);
      if flags != 0 && flags & 0xFE != 0 {
        assert Blocking(w.collisionFlags(t, Ahead(w, dir, t.coords, i + 1), dir));
        return 0;
      }
      i := i + 1;
      p := w.move(dir, p);
    }
    var savedX, savedY := trainer.rangeX, trainer.rangeY;
    trainer.rangeX, trainer.rangeY := 0, 0;
    var collision := w.collisionAt(trainer.View(), p, dir);
    trainer.rangeX, trainer.rangeY := savedX, savedY;
    if collision == CollisionObjectEvent {
      return d;
    }
    return 0;
  }

  // ---------------------------------------------------------------------------------------------
  // Dispatch

  /** The loop of an all-direction trainer, from table entry i on. */
  function FirstInSight(t: ObjectView, q: Pos, w: World, i: nat): (r: u8)
    requires i <= 4
    ensures r <= t.trainerRange
    decreases 4 - i
  {
    if i == 4 then 0
    else
      var d := Distance(SightOrder[i], t.coords, t.trainerRange, q);
      if PathCheck(t, d, DirectionOfCode(i + 1), w) != 0 then d else FirstInSight(t, q, w, i + 1)
  }

  /** What `GetTrainerApproachDistance` returns for a trainer t and the player's destination q. */
  function ApproachDistance(t: ObjectView, q: Pos, w: World): (r: u8)
    ensures r <= t.trainerRange
  {
    if t.trainerType == 1 then
      PathCheck(t, Distance(SightOrder[DirectionCode(t.facing) - 1], t.coords, t.trainerRange, q), t.facing, w)
    else
      FirstInSight(t, q, w, 0)
  }

  /** The one direction, if any, along which the player stands within the trainer's range. */
  function SightLine(t: Pos, range: u8, q: Pos): (r: Option<Direction>)
    ensures r.Some? ==> Distance(r.value, t, range, q) != 0
    ensures r.None? ==> forall dir :: Distance(dir, t, range, q) == 0
  {
    if Distance(South, t, range, q) != 0 then Some(South)
    else if Distance(North, t, range, q) != 0 then Some(North)
    else if Distance(West, t, range, q) != 0 then Some(West)
    else if Distance(East, t, range, q) != 0 then Some(East)
    else None
  }

  /** A single-direction trainer (type 1) looks only along its facing direction; any other trainer
      gets the distance along the one direction that sees the player, if that direction also passes
      the path check. The fixed south, north, west, east scan order therefore never matters. */
  lemma ApproachDistanceCharacterised(t: ObjectView, q: Pos, w: World)
    ensures t.trainerType == 1 ==>
      ApproachDistance(t, q, w) == PathCheck(t, Distance(t.facing, t.coords, t.trainerRange, q), t.facing, w)
    ensures t.trainerType != 1 ==>
      ApproachDistance(t, q, w) ==
        match SightLine(t.coords, t.trainerRange, q)
        case None => 0
        case Some(dir) => PathCheck(t, Distance(dir, t.coords, t.trainerRange, q), dir, w)
  {
    SightOrderIsCodeOrder(DirectionCode(t.facing) - 1);
    assert SightOrder[DirectionCode(t.facing) - 1] == t.facing;
    if t.trainerType != 1 {
      var line := SightLine(t.coords, t.trainerRange, q);
      forall i | 0 <= i < 4
        ensures SightOrder[i] == DirectionOfCode(i + 1)
      {
        SightOrderIsCodeOrder(i);
      }
      forall i | 0 <= i < 4 && line != Some(SightOrder[i])
        ensures Distance(SightOrder[i], t.coords, t.trainerRange, q) == 0
      {
        if Distance(SightOrder[i], t.coords, t.trainerRange, q) != 0 {
          AtMostOneDirection(t.coords, t.trainerRange, q, SightOrder[i], line.value);
        }
      }
    }
  }

  /** A nonzero approach distance always passed the path check, along a direction in which the
      player stands exactly that many tiles away; for a type-1 trainer it is its facing direction. */
  lemma ApproachDistanceSound(t: ObjectView, q: Pos, w: World) returns (dir: Direction)
    requires ApproachDistance(t, q, w) != 0
    ensures SeesAt(dir, t.coords, t.trainerRange, q, ApproachDistance(t, q, w))
    ensures PathCheck(t, ApproachDistance(t, q, w), dir, w) == ApproachDistance(t, q, w)
    ensures t.trainerType == 1 ==> dir == t.facing
  {
    ApproachDistanceCharacterised(t, q, w);
    if t.trainerType == 1 {
      dir := t.facing;
    } else {
      dir := SightLine(t.coords, t.trainerRange, q).value;
    }
  }

  /** `GetTrainerApproachDistance`, given the player's destination coordinates q. */
  method GetTrainerApproachDistance(trainer: ObjectEvent, q: Pos, w: World) returns (r: u8)
    modifies trainer`rangeX, trainer`rangeY
    ensures trainer.View() == old(trainer.View())
    ensures r == ApproachDistance(old(trainer.View()), q, w)
  {
    ghost var t := trainer.View();
    if trainer.trainerType == 1 {
      var d := Distance(SightOrder[DirectionCode(trainer.facing) - 1], trainer.coords, trainer.trainerRange, q);
      r := CheckPathBetweenTrainerAndPlayer(trainer, d, trainer.facing, w);
      return;
    }
    var i := 0;
    while i < 4
      invariant 0 <= i <= 4
      invariant trainer.View() == t
      invariant FirstInSight(t, q, w, i) == ApproachDistance(t, q, w)
    {
      var d := Distance(SightOrder[i], trainer.coords, trainer.trainerRange, q);
      var passed := CheckPathBetweenTrainerAndPlayer(trainer, d, DirectionOfCode(i + 1), w);
      if passed != 0 {
        return d;
      }
      i := i + 1;
    }
    return 0;
  }

  // ---------------------------------------------------------------------------------------------
  // Worked cases on an open map

  /** `MoveCoords` with the game's unit vectors, wrapping at the `s16` bounds. */
  function UnitMove(dir: Direction, p: Pos): Pos
  {
    match dir
    case South => Pos(p.x, WrapS16(p.y + 1))
    case North => Pos(p.x, WrapS16(p.y - 1))
    case West => Pos(WrapS16(p.x - 1), p.y)
    case East => Pos(WrapS16(p.x + 1), p.y)
  }

  /** A type-1 trainer at (5, 5) facing south with range 4. */
  predicate SouthLooker(t: ObjectView)
  {
    t.trainerType == 1 && t.facing == South && t.coords == Pos(5, 5) && t.trainerRange == 4
  }

  /** Player at (5, 8), nothing in between, the final tile reports the player: distance 3. */
  lemma SeenThreeTilesSouth(t: ObjectView, w: World)
    requires SouthLooker(t)
    requires forall dir, p :: w.move(dir, p) == UnitMove(dir, p)
    requires forall p :: w.collisionFlags(t, p, South) == 0
    requires w.collisionAt(ProbeView(t), Pos(5, 8), South) == CollisionObjectEvent
    ensures ApproachDistance(t, Pos(5, 8), w) == 3
  {
    assert Ahead(w, South, t.coords, 1) == Pos(5, 6);
    assert Ahead(w, South, t.coords, 2) == Pos(5, 7);
    assert Ahead(w, South, t.coords, 3) == Pos(5, 8);
  }

  /** The range is inclusive: the player at (5, 9) is in the line of sight, 4 tiles away. */
  lemma EdgeOfRangeSouth(t: ObjectView)
    requires SouthLooker(t)
    ensures Distance(South, t.coords, t.trainerRange, Pos(5, 9)) == 4
  {
  }

  /** Player at (5, 10), one tile beyond the range: not seen, whatever the map holds. */
  lemma OutOfRangeSouth(t: ObjectView, w: World)
    requires SouthLooker(t)
    ensures ApproachDistance(t, Pos(5, 10), w) == 0
  {
    assert SightOrder[DirectionCode(t.facing) - 1] == South;
  }

  /** Player at (5, 7) with a blocking tile at (5, 6): not seen, although within range. */
  lemma BlockedSouth(t: ObjectView, w: World)
    requires SouthLooker(t)
    requires forall dir, p :: w.move(dir, p) == UnitMove(dir, p)
    requires Blocking(w.collisionFlags(t, Pos(5, 6), South))
    ensures ApproachDistance(t, Pos(5, 7), w) == 0
  {
    assert Ahead(w, South, t.coords, 1) == Pos(5, 6);
  }
}
