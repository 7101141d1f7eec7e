/** Trainer detection and the approach bookkeeping around it: the scan over all object events,
    the per-trainer check, the battle set-up that follows, the cursor over the (at most two)
    approaching trainers, and the player's turn after the battle
    (src/trainer_see.c, `CheckForTrainersWantingBattle`, `CheckTrainer`, `TrainerApproachPlayer`,
    `sub_80B40C8`, `EndTrainerApproach`, `TryPrepareSecondApproachingTrainer`, the two id lookups
    and `PlayerFaceTrainerAfterBattle`). */
module Detection {
  import opened Fixed
  import opened Objects
  import opened Sight
  import opened Approach

  /** Battle types whose trainer fights together with a second one (`TRAINER_BATTLE_DOUBLE`,
      `TRAINER_BATTLE_CONTINUE_SCRIPT_DOUBLE`, `TRAINER_BATTLE_REMATCH_DOUBLE`). */
  const TrainerBattleDouble := 4
  const TrainerBattleContinueScriptDouble := 6
  const TrainerBattleRematchDouble := 7

  /** `OBJ_EVENT_ID_PLAYER`. */
  const ObjEventIdPlayer := 0xFF

  /** A trainer script: where it is, and its second byte, the battle type. */
  datatype TrainerScript = TrainerScript(address: int, battleType: int)

  predicate IsDoubleBattle(s: TrainerScript)
  {
    s.battleType == TrainerBattleDouble || s.battleType == TrainerBattleRematchDouble
    || s.battleType == TrainerBattleContinueScriptDouble
  }

  /** The answers of the game's other subsystems during one scan. */
  datatype Context = Context(
    player: Pos,                        // PlayerGetDestCoords
    world: World,
    inTrainerHill: bool,                // InTrainerHill() == TRUE
    inBattlePyramid: bool,              // InBattlePyramid()
    hillScript: TrainerScript,          // GetTrainerHillTrainerScript()
    scriptOf: int -> TrainerScript,     // GetObjectEventScriptPointerByObjectEventId
    pyramidFlag: int -> bool,           // GetBattlePyramidTrainerFlag
    hillFlag: int -> bool,              // GetHillTrainerFlag
    scriptFlag: TrainerScript -> bool,  // GetTrainerFlagFromScriptPointer
    noDoubles: bool)                    // GetMonsStateToDoubles_2() != 0

  /** A trainer that saw the player: the fields of `gApproachingTrainers` that `CheckTrainer` writes. */
  datatype Sighting = Sighting(objectEventId: int, script: TrainerScript, radius: u8)

  /** `CheckTrainer`'s verdict: 0, or 1 or 2 with the sighting it records. */
  datatype Check = NotFound | Found(s: Sighting, double: bool)

  /** Inside the Trainer Hill the script comes from the hill, elsewhere from the object event. */
  function ScriptFor(c: Context, id: int): TrainerScript
  {
    if c.inTrainerHill then c.hillScript else c.scriptOf(id)
  }

  /** Whether the trainer's flag says it has already been fought; each facility has its own flags. */
  predicate Defeated(c: Context, id: int)
  {
    if c.inBattlePyramid then c.pyramidFlag(id)
    else if c.inTrainerHill then c.hillFlag(id)
    else c.scriptFlag(ScriptFor(c, id))
  }

  /** `CheckTrainer` on the object's state. A trainer is recorded when it has not been fought, sees
      the player, and is not a double-battle trainer at a time when a double battle is impossible. */
  function CheckTrainerSpec(c: Context, v: ObjectView, id: int): (r: Check)
    ensures r.Found? <==>
      !Defeated(c, id) && ApproachDistance(v, c.player, c.world) != 0
      && !(IsDoubleBattle(ScriptFor(c, id)) && c.noDoubles)
    ensures r.Found? ==>
      (r.s.objectEventId == id && r.s.script == ScriptFor(c, id)
       && r.s.radius == ApproachDistance(v, c.player, c.world) && 1 <= r.s.radius <= v.trainerRange
       && (r.double <==> IsDoubleBattle(r.s.script)))
  {
    var script := ScriptFor(c, id);
    if Defeated(c, id) then NotFound
    else
      var d := ApproachDistance(v, c.player, c.world);
      if d == 0 then NotFound
      else if IsDoubleBattle(script) then
        if c.noDoubles then NotFound else Found(Sighting(id, script, d), true)
      else Found(Sighting(id, script, d), false)
  }

  /** Only active objects of trainer type 1 (`TRAINER_TYPE_NORMAL`) or 3 (`TRAINER_TYPE_BURIED`)
      are checked. */
  predicate IsCandidate(v: ObjectView)
  {
    v.active && (v.trainerType == 1 || v.trainerType == 3)
  }

  /** What `CheckTrainer` would answer for each slot the scan reaches; a slot that is not a
      candidate is skipped, which the scan treats like a 0. */
  function Verdict(c: Context, v: ObjectView, id: int): Check
  {
    if IsCandidate(v) then CheckTrainerSpec(c, v, id) else NotFound
  }

  function Verdicts(c: Context, views: seq<ObjectView>): (r: seq<Check>)
    ensures |r| == |views| && forall k :: 0 <= k < |views| ==> r[k] == Verdict(c, views[k], k)
  {
    seq(|views|, k requires 0 <= k < |views| => Verdict(c, views[k], k))
  }

  /** Slot `id` holds a trainer the scan would record. */
  predicate Sees(c: Context, views: seq<ObjectView>, id: int)
    requires 0 <= id < |views|
  {
    IsCandidate(views[id]) && CheckTrainerSpec(c, views[id], id).Found?
  }

  /** The loop of `CheckForTrainersWantingBattle` from slot i on, over the slots' verdicts, with
      `found` recorded so far: a double-battle trainer stops the scan, and so does a second trainer,
      or a first one when no double battle is possible. */
  function ScanFrom(checks: seq<Check>, noDoubles: bool, i: nat, found: seq<Sighting>): seq<Sighting>
    requires |checks| == ObjectEventsCount && i <= ObjectEventsCount && |found| < 2
    decreases ObjectEventsCount - i
  {
    if i == ObjectEventsCount then found
    else
      match checks[i]
      case NotFound => ScanFrom(checks, noDoubles, i + 1, found)
      case Found(s, double) =>
        var f := found + [s];
        if double || |f| > 1 || noDoubles then f else ScanFrom(checks, noDoubles, i + 1, f)
  }

  function Scan(c: Context, views: seq<ObjectView>): seq<Sighting>
    requires |views| == ObjectEventsCount
  {
    ScanFrom(Verdicts(c, views), c.noDoubles, 0, [])
  }

  /** Every verdict that records a trainer records the trainer of its own slot. */
  predicate WellIndexed(checks: seq<Check>)
  {
    forall id :: 0 <= id < |checks| && checks[id].Found? ==> checks[id].s.objectEventId == id
  }

  /** What the scan from slot i adds: at most two trainers in all, each one the verdict of its own
      slot, in slot order, a double-battle trainer only last, and a second trainer only when a
      double battle is possible. */
  lemma {:induction false} ScanFromShape(checks: seq<Check>, nd: bool, i: nat, found: seq<Sighting>)
    requires |checks| == ObjectEventsCount && i <= ObjectEventsCount && |found| < 2 && WellIndexed(checks)
    decreases ObjectEventsCount - i
    ensures var r := ScanFrom(checks, nd, i, found);
      |found| <= |r| <= 2 && r[..|found|] == found
      && (forall k :: |found| <= k < |r| ==>
            i <= r[k].objectEventId < ObjectEventsCount
            && checks[r[k].objectEventId].Found? && checks[r[k].objectEventId].s == r[k])
      && (forall k, l :: |found| <= k < l < |r| ==> r[k].objectEventId < r[l].objectEventId)
      && (forall k :: |found| <= k < |r| && checks[r[k].objectEventId].double ==> k == |r| - 1)
      && (|r| > |found| + 1 ==> !nd)
  {
    if i < ObjectEventsCount {
      match checks[i]
      case NotFound =>
        ScanFromShape(checks, nd, i + 1, found);
      case Found(s, double) =>
        var f := found + [s];
        if !(double || |f| > 1 || nd) {
          ScanFromShape(checks, nd, i + 1, f);
          var r := ScanFrom(checks, nd, i + 1, f);
          assert r[..|found|] == r[..|f|][..|found|];
        }
    }
  }

  /** No slot the scan from i passed over would have been recorded: none at all when it added no
      trainer, none before the first one it added, and none between the two when it added two. */
  lemma {:induction false} ScanFromComplete(checks: seq<Check>, nd: bool, i: nat, found: seq<Sighting>)
    requires |checks| == ObjectEventsCount && i <= ObjectEventsCount && |found| < 2 && WellIndexed(checks)
    decreases ObjectEventsCount - i
    ensures var r := ScanFrom(checks, nd, i, found);
      |r| >= |found|
      && (|r| == |found| ==> forall id :: i <= id < ObjectEventsCount ==> checks[id].NotFound?)
      && (|r| > |found| ==>
            forall id :: i <= id < ObjectEventsCount && id < r[|found|].objectEventId ==> checks[id].NotFound?)
      && (|r| == |found| + 2 ==>
            forall id :: i <= id < ObjectEventsCount && r[|found|].objectEventId < id < r[|found| + 1].objectEventId
              ==> checks[id].NotFound?)
  {
    ScanFromShape(checks, nd, i, found);
    if i < ObjectEventsCount {
      match checks[i]
      case NotFound =>
        ScanFromComplete(checks, nd, i + 1, found);
      case Found(s, double) =>
        var f := found + [s];
        if !(double || |f| > 1 || nd) {
          ScanFromComplete(checks, nd, i + 1, f);
          ScanFromShape(checks, nd, i + 1, f);
        }
    }
  }

  /** When the first trainer found is an ordinary one and a double battle is possible, the scan goes
      on, so a lone trainer means no later slot records one. */
  lemma {:induction false} LoneTrainerFrom(checks: seq<Check>, nd: bool, i: nat, found: seq<Sighting>)
    requires |checks| == ObjectEventsCount && i <= ObjectEventsCount && |found| < 2 && WellIndexed(checks)
    requires !nd
    decreases ObjectEventsCount - i
    ensures var r := ScanFrom(checks, nd, i, found);
      |r| == |found| + 1 && |r| < 2
      && 0 <= r[|found|].objectEventId < ObjectEventsCount && checks[r[|found|].objectEventId].Found?
      && !checks[r[|found|].objectEventId].double ==>
        forall id :: r[|found|].objectEventId < id < ObjectEventsCount ==> checks[id].NotFound?
  {
    ScanFromShape(checks, nd, i, found);
    if i < ObjectEventsCount {
      match checks[i]
      case NotFound =>
        LoneTrainerFrom(checks, nd, i + 1, found);
      case Found(s, double) =>
        var f := found + [s];
        if !(double || |f| > 1) {
          ScanFromShape(checks, nd, i + 1, f);
          ScanFromComplete(checks, nd, i + 1, f);
        }
    }
  }

  /** The verdicts of a scan are those of `CheckTrainer` on the candidates. */
  lemma VerdictsMeaning(c: Context, views: seq<ObjectView>)
    ensures var checks := Verdicts(c, views);
      WellIndexed(checks)
      && forall id :: 0 <= id < |views| ==>
           (checks[id].Found? <==> Sees(c, views, id))
           && (checks[id].Found? ==>
                 checks[id].s == CheckTrainerSpec(c, views[id], id).s
                 && (checks[id].double <==> IsDoubleBattle(checks[id].s.script)))
  {
  }

  /** The scan as a whole: at most two trainers, each a trainer that sees the player and may fight
      now, in slot order, a double-battle trainer only as the last one; two trainers only when a
      double battle is possible; the first trainer is the lowest slot that sees the player, no slot
      between the two recorded ones does, and none at all does when nobody is recorded. */
  lemma ScanProperties(c: Context, views: seq<ObjectView>)
    requires |views| == ObjectEventsCount
    ensures var r := Scan(c, views);
      |r| <= 2
      && (forall k :: 0 <= k < |r| ==>
            0 <= r[k].objectEventId < ObjectEventsCount && Sees(c, views, r[k].objectEventId)
            && CheckTrainerSpec(c, views[r[k].objectEventId], r[k].objectEventId).s == r[k])
      && (|r| == 2 ==> r[0].objectEventId < r[1].objectEventId && !IsDoubleBattle(r[0].script) && !c.noDoubles)
      && (|r| == 0 <==> forall id :: 0 <= id < ObjectEventsCount ==> !Sees(c, views, id))
      && (|r| > 0 ==> forall id :: 0 <= id < r[0].objectEventId ==> !Sees(c, views, id))
      && (|r| == 2 ==> forall id :: r[0].objectEventId < id < r[1].objectEventId ==> !Sees(c, views, id))
  {
    var checks := Verdicts(c, views);
    VerdictsMeaning(c, views);
    ScanFromShape(checks, c.noDoubles, 0, []);
    ScanFromComplete(checks, c.noDoubles, 0, []);
  }

  /** A lone ordinary trainer when a double battle was possible means nobody after it sees the player. */
  lemma LoneTrainerMeansNoOther(c: Context, views: seq<ObjectView>)
    requires |views| == ObjectEventsCount
    ensures var r := Scan(c, views);
      |r| == 1 && !IsDoubleBattle(r[0].script) && !c.noDoubles ==>
        forall id :: 0 <= id < ObjectEventsCount && r[0].objectEventId < id ==> !Sees(c, views, id)
  {
    if !c.noDoubles {
      var checks := Verdicts(c, views);
      VerdictsMeaning(c, views);
      ScanFromShape(checks, c.noDoubles, 0, []);
      LoneTrainerFrom(checks, c.noDoubles, 0, []);
    }
  }

  /** The calls into the battle set-up, script and object-freezing code this part makes. */
  datatype Call =
    | ResetTrainerOpponentIds
    | ConfigureAndSetUpOneTrainerBattle(objectEventId: int, script: TrainerScript)
    | ConfigureTwoTrainersBattle(cursor: int, objectEventId: int, script: TrainerScript)
    | SetUpTwoTrainersBattle
    | UnfreezeObjectEvents
    | FreezeObjectEventsExceptOne(objectEventId: int)
    | StartObjectMovementScript(localId: int, mapNum: int, mapGroup: int)
    | SetMovingNpcId(objectEventId: int)

  /** The battle the scan's result sets up: one trainer, two trainers (configured with the cursor
      at 0, then at 1), or none. */
  function BattleSetup(found: seq<Sighting>): (r: seq<Call>)
    ensures |found| == 0 || |found| > 2 <==> r == []
    ensures |found| == 1 ==> r == [ResetTrainerOpponentIds,
      ConfigureAndSetUpOneTrainerBattle(found[0].objectEventId, found[0].script)]
    ensures |found| == 2 ==>
      (|r| == 4 && r[0] == ResetTrainerOpponentIds && r[3] == SetUpTwoTrainersBattle
       && forall k :: 0 <= k < 2 ==> r[k + 1] == ConfigureTwoTrainersBattle(k, found[k].objectEventId, found[k].script))
  {
    if |found| == 1 then
      [ResetTrainerOpponentIds, ConfigureAndSetUpOneTrainerBattle(found[0].objectEventId, found[0].script)]
    else if |found| == 2 then
      [ResetTrainerOpponentIds,
       ConfigureTwoTrainersBattle(0, found[0].objectEventId, found[0].script),
       ConfigureTwoTrainersBattle(1, found[1].objectEventId, found[1].script),
       SetUpTwoTrainersBattle]
    else []
  }

  /** A recorded trainer always battles with the player; two are set up as one two-trainer battle. */
  lemma EverySightingBattles(c: Context, views: seq<ObjectView>)
    requires |views| == ObjectEventsCount
    ensures var r := Scan(c, views);
      forall k :: 0 <= k < |r| ==>
        ConfigureAndSetUpOneTrainerBattle(r[k].objectEventId, r[k].script) in BattleSetup(r)
        || ConfigureTwoTrainersBattle(k, r[k].objectEventId, r[k].script) in BattleSetup(r)
  {
    ScanProperties(c, views);
    var r := Scan(c, views);
    if |r| == 2 {
      assert BattleSetup(r)[1] == ConfigureTwoTrainersBattle(0, r[0].objectEventId, r[0].script);
      assert BattleSetup(r)[2] == ConfigureTwoTrainersBattle(1, r[1].objectEventId, r[1].script);
    }
  }

  /** `TryPrepareSecondApproachingTrainer` on (count, cursor): the new cursor and `gSpecialVar_Result`. */
  function PrepareSecond(count: int, cursor: int): (r: (int, bool))
    ensures r.1 <==> count == 2 && cursor == 0
    ensures count != 2 ==> r.0 == cursor
    ensures count == 2 ==> r.0 == (if cursor == 0 then 1 else 0)
  {
    if count == 2 then
      if cursor == 0 then (1, true) else (0, false)
    else (cursor, false)
  }

  /** With two trainers, the calls alternate: the first reports a second trainer and moves to it,
      the next reports none and moves back; with fewer, nothing is ever reported. */
  lemma PrepareSecondAlternates(count: int, cursor: int)
    requires cursor == 0 || cursor == 1
    ensures var r1 := PrepareSecond(count, cursor); var r2 := PrepareSecond(count, r1.0);
      (count == 2 ==> r1.1 != r2.1 && r2.0 == cursor)
      && (count != 2 ==> !r1.1 && !r2.1 && r2.0 == cursor)
  {
  }

  /** One entry of `gApproachingTrainers`; the task id is the task itself. */
  datatype Slot = Slot(objectEventId: int, script: TrainerScript, radius: u8, task: ApproachTask?)

  function SightingOf(s: Slot): Sighting
  {
    Sighting(s.objectEventId, s.script, s.radius)
  }

  /** The slot holds the sighting and a task started for it: waiting at its no-op entry with
      `radius - 1` tiles to walk, following the trainer's object. */
  predicate StartedFor(slot: Slot, s: Sighting)
    reads slot.task
  {
    SightingOf(slot) == s && slot.task != null
    && slot.task.Data() == TaskData(Idle, s.radius as int - 1, 0) && slot.task.trainerId == s.objectEventId
  }

  /** `views` is what the object events hold now. */
  predicate ViewsAre(objects: array<ObjectEvent>, views: seq<ObjectView>)
    reads objects, objects[..]
  {
    objects.Length == |views| && forall k :: 0 <= k < |views| ==> objects[k].View() == views[k]
  }

  /** The file's globals. */
  class TrainerSee {
    const approaching: array<Slot>                // gApproachingTrainers
    var count: int                               // gNoOfApproachingTrainers
    var cursor: int                              // gApproachingTrainerId
    var approached: bool                         // gTrainerApproachedPlayer
    const postBattleScript: array<MovementAction> // gPostBattleMovementScript

    predicate Valid()
      reads this
    {
      approaching.Length == 2 && postBattleScript.Length == 4
      && 0 <= count <= 2 && (cursor == 0 || cursor == 1)
    }

    /** The globals as the game starts: all zero. */
    constructor ()
      ensures Valid() && fresh(approaching) && fresh(postBattleScript)
      ensures count == 0 && cursor == 0 && !approached
      ensures approaching[..] == [Slot(0, TrainerScript(0, 0), 0, null), Slot(0, TrainerScript(0, 0), 0, null)]
    {
      approaching := new Slot[2](_ => Slot(0, TrainerScript(0, 0), 0, null));
      postBattleScript := new MovementAction[4](_ => FaceDirection(South));
      count, cursor, approached := 0, 0, false;
    }

    /** `TrainerApproachPlayer`: a new approach task for the trainer in the current slot, waiting at
        its no-op entry, with `range` tiles to walk. */
    method TrainerApproachPlayer(range: u8)
      requires Valid() && count < 2
      modifies approaching
      ensures var t := approaching[count].task;
        t != null && fresh(t) && t.Data() == TaskData(Idle, range, 0)
        && t.trainerId == old(approaching[count].objectEventId) && t.followup == NoFollowup && !t.handedOff
      ensures approaching[count] == old(approaching[count]).(task := approaching[count].task)
      ensures forall k :: 0 <= k < 2 && k != count ==> approaching[k] == old(approaching[k])
    {
      var t := new ApproachTask(range, approaching[count].objectEventId);
      approaching[count] := approaching[count].(task := t);
    }

    /** `CheckTrainer`: records the trainer in slot `count` and starts its task when the check finds
        it; returns 0, 1, or 2 for a double-battle trainer. */
    method CheckTrainer(objects: array<ObjectEvent>, id: int, c: Context) returns (ret: int)
      requires Valid() && count < 2 && objects.Length == ObjectEventsCount && 0 <= id < ObjectEventsCount
      modifies this`count, approaching, objects[id]
      ensures Valid()
      ensures objects[id].View() == old(objects[id].View())
      ensures var r := CheckTrainerSpec(c, old(objects[id].View()), id);
        ret == (if r.NotFound? then 0 else if r.double then 2 else 1)
        && count == old(count) + (if r.Found? then 1 else 0)
        && (r.NotFound? ==> approaching[..] == old(approaching[..]))
        && (r.Found? ==>
              StartedFor(approaching[old(count)], r.s) && fresh(approaching[old(count)].task)
              && approaching[old(count)].task.followup == NoFollowup && !approaching[old(count)].task.handedOff
              && forall k :: 0 <= k < 2 && k != old(count) ==> approaching[k] == old(approaching[k]))
    {
      var script := if c.inTrainerHill then c.hillScript else c.scriptOf(id);
      if c.inBattlePyramid {
        if c.pyramidFlag(id) {
          return 0;
        }
      } else if c.inTrainerHill {
        if c.hillFlag(id) {
          return 0;
        }
      } else {
        if c.scriptFlag(script) {
          return 0;
        }
      }
      var d := GetTrainerApproachDistance(objects[id], c.player, c.world);
      if d != 0 {
        ret := 1;
        if IsDoubleBattle(script) {
          if c.noDoubles {
            return 0;
          }
          ret := 2;
        }
        approaching[count] := Slot(id, script, d, approaching[count].task);
        TrainerApproachPlayer(d - 1);
        count := count + 1;
        return ret;
      }
      return 0;
    }

    /** `CheckForTrainersWantingBattle`: scans every object event, records the trainers that saw the
        player and starts their tasks, and sets up the battle. */
    method CheckForTrainersWantingBattle(objects: array<ObjectEvent>, c: Context, ghost views: seq<ObjectView>)
      returns (battle: bool, calls: seq<Call>)
      requires Valid() && objects.Length == ObjectEventsCount && ViewsAre(objects, views)
      modifies this, approaching, objects[..]
      ensures Valid() && ViewsAre(objects, views)
      ensures var r := Scan(c, views);
        count == |r| && battle == (|r| != 0) && approached == battle && cursor == 0
        && calls == BattleSetup(r)
        && (forall k :: 0 <= k < |r| ==> StartedFor(approaching[k], r[k]))
        && (forall k :: |r| <= k < 2 ==> approaching[k] == old(approaching[k]))
    {
      count, cursor := 0, 0;
      ghost var found := ScanObjectEvents(objects, c, views);
      battle, calls := SetUpBattle(found);
    }

    /** The loop of `CheckForTrainersWantingBattle`, run from an empty list of approaching trainers. */
    method ScanObjectEvents(objects: array<ObjectEvent>, c: Context, ghost views: seq<ObjectView>) returns (ghost found: seq<Sighting>)
      requires Valid() && objects.Length == ObjectEventsCount && count == 0
      requires |views| == ObjectEventsCount && ViewsAre(objects, views)
      modifies this`count, approaching, objects[..]
      ensures Valid() && found == Scan(c, views) && count == |found|
      ensures ViewsAre(objects, views)
      ensures forall k :: 0 <= k < count ==> StartedFor(approaching[k], found[k])
      ensures forall k :: count <= k < 2 ==> approaching[k] == old(approaching[k])
    {
      ghost var checks := Verdicts(c, views);
      ghost var init := approaching[..];
      found := [];
      var i := 0;
      while i < ObjectEventsCount
        invariant Valid() && 0 <= i <= ObjectEventsCount && count == |found| < 2
        invariant ViewsAre(objects, views)
        invariant ScanFrom(checks, c.noDoubles, i, found) == ScanFrom(checks, c.noDoubles, 0, [])
        invariant forall k :: 0 <= k < count ==> StartedFor(approaching[k], found[k])
        invariant forall k :: count <= k < 2 ==> approaching[k] == init[k]
      {
        var stop;
        stop, found := ScanSlot(objects, c, views, checks, i, found, init);
        if stop {
          break;
        }
        i := i + 1;
      }
      assert found == ScanFrom(checks, c.noDoubles, 0, []);
    }

    /** One turn of that loop, for slot i: skip a non-candidate; otherwise check the trainer, and
        stop after a double-battle trainer, after a second trainer, or after a first one when no
        double battle is possible. */
    method ScanSlot(objects: array<ObjectEvent>, c: Context, ghost views: seq<ObjectView>, ghost checks: seq<Check>,
                    i: int, ghost found: seq<Sighting>, ghost init: seq<Slot>) returns (stop: bool, ghost found': seq<Sighting>)
      requires Valid() && objects.Length == ObjectEventsCount && 0 <= i < ObjectEventsCount && count == |found| < 2
      requires |views| == ObjectEventsCount && ViewsAre(objects, views)
      requires checks == Verdicts(c, views)
      modifies this`count, approaching, objects[i]
      ensures Valid() && count == |found'| && |found| <= count && found'[..|found|] == found
      ensures ViewsAre(objects, views)
      ensures stop ==> found' == ScanFrom(checks, c.noDoubles, i, found)
      ensures !stop ==> |found'| < 2 && ScanFrom(checks, c.noDoubles, i + 1, found') == ScanFrom(checks, c.noDoubles, i, found)
      requires |init| == 2
      requires forall k :: 0 <= k < count ==> StartedFor(approaching[k], found[k])
      requires forall k :: count <= k < 2 ==> approaching[k] == init[k]
      ensures forall k :: 0 <= k < count ==> StartedFor(approaching[k], found'[k])
      ensures forall k :: count <= k < 2 ==> approaching[k] == init[k]
    {
      found' := found;
      if !objects[i].active || (objects[i].trainerType != 1 && objects[i].trainerType != 3) {
        return false, found';
      }
      ghost var check := CheckTrainerSpec(c, views[i], i);
      var ret := CheckTrainer(objects, i, c);
      if check.Found? {
        found' := found + [check.s];
      }
      if ret == 2 {
        return true, found';
      }
      if ret == 0 {
        return false, found';
      }
      if count > 1 {
        return true, found';
      }
      if c.noDoubles {
        return true, found';
      }
      return false, found';
    }

    /** The second half of `CheckForTrainersWantingBattle`: set up a battle with the one or two
        trainers recorded, passing the cursor along the two, and note whether one approached. */
    method SetUpBattle(ghost found: seq<Sighting>) returns (battle: bool, calls: seq<Call>)
      requires Valid() && |found| == count && cursor == 0
      requires forall k :: 0 <= k < count ==> SightingOf(approaching[k]) == found[k]
      modifies this`cursor, this`approached
      ensures Valid() && cursor == 0
      ensures battle == (count != 0) && approached == battle && calls == BattleSetup(found)
    {
      if count == 1 {
        calls := [ResetTrainerOpponentIds,
                  ConfigureAndSetUpOneTrainerBattle(approaching[count - 1].objectEventId, approaching[count - 1].script)];
        approached := true;
        return true, calls;
      } else if count == 2 {
        calls := [ResetTrainerOpponentIds];
        assert calls == BattleSetup(found)[..1];
        var k := 0;
        while k < count
          invariant 0 <= k <= 2 && cursor == k
          invariant calls == BattleSetup(found)[..k + 1]
        {
          calls := calls + [ConfigureTwoTrainersBattle(cursor, approaching[k].objectEventId, approaching[k].script)];
          k, cursor := k + 1, cursor + 1;
        }
        calls := calls + [SetUpTwoTrainersBattle];
        cursor := 0;
        approached := true;
        return true, calls;
      } else {
        approached := false;
        return false, [];
      }
    }

    /** `sub_80B40C8`: restart the current trainer's task at the exclamation mark with a follow-up. */
    method RunApproachTask(f: Followup, e: Env) returns (cmds: seq<Command>)
      requires Valid() && approaching[cursor].task != null
      modifies approaching[cursor].task
      ensures var t := approaching[cursor].task;
        t.followup == f && t.trainerId == old(t.trainerId)
        && t.Data() == Tick(old(t.Data()).(step := Exclaim), e).data
        && cmds == Tick(old(t.Data()).(step := Exclaim), e).cmds
        && (t.handedOff <==> SwitchToFollowup in cmds)
    {
      var t := if cursor == 0 then approaching[0].task else approaching[1].task;
      cmds := t.Restart(f, e);
    }

    /** `EndTrainerApproach`: the current trainer's task, still for the same trainer, restarts at step 1
        with `Task_DestroyTrainerApproachTask` as its follow-up, which on hand-over destroys the task
        and then re-enables both script contexts. */
    method EndTrainerApproach(e: Env) returns (cmds: seq<Command>)
      requires Valid() && approaching[cursor].task != null
      modifies approaching[cursor].task
      ensures var t := approaching[cursor].task;
        t.followup == DestroyTrainerApproachTask && t.trainerId == old(t.trainerId)
        && FollowupCommands(t.followup) == [DestroyTask, EnableBothScriptContexts]
        && t.Data() == Tick(old(t.Data()).(step := Exclaim), e).data
        && cmds == Tick(old(t.Data()).(step := Exclaim), e).cmds
        && (t.handedOff <==> SwitchToFollowup in cmds)
    {
      cmds := RunApproachTask(DestroyTrainerApproachTask, e);
    }

    /** `TryPrepareSecondApproachingTrainer`: returns `gSpecialVar_Result`, and when it moves to the
        second trainer, unfreezes everyone and freezes all but that trainer. */
    method TryPrepareSecondApproachingTrainer() returns (result: bool, calls: seq<Call>)
      requires Valid()
      modifies this`cursor
      ensures Valid()
      ensures (cursor, result) == PrepareSecond(count, old(cursor))
      ensures calls == if result then [UnfreezeObjectEvents, FreezeObjectEventsExceptOne(approaching[1].objectEventId)] else []
    {
      if count == 2 {
        if cursor == 0 {
          cursor := cursor + 1;
          return true, [UnfreezeObjectEvents, FreezeObjectEventsExceptOne(approaching[1].objectEventId)];
        } else {
          cursor := 0;
          return false, [];
        }
      } else {
        return false, [];
      }
    }

    /** `GetCurrentApproachingTrainerObjectEventId`. */
    function CurrentApproachingTrainerObjectEventId(): (id: int)
      requires Valid()
      reads this, approaching
      ensures id == approaching[cursor].objectEventId
    {
      if cursor == 0 then approaching[0].objectEventId else approaching[1].objectEventId
    }

    /** `GetChosenApproachingTrainerObjectEventId`: 0 for an index past the array. */
    function ChosenApproachingTrainerObjectEventId(arrayId: u8): (id: int)
      requires Valid()
      reads this, approaching
      ensures arrayId >= 2 ==> id == 0
      ensures arrayId < 2 ==> id == approaching[arrayId].objectEventId
    {
      if arrayId >= 2 then 0
      else if arrayId == 0 then approaching[0].objectEventId
      else approaching[1].objectEventId
    }

    /** Choosing the slot the cursor is on gives the current trainer. */
    lemma ChosenAtCursorIsCurrent()
      requires Valid()
      ensures ChosenApproachingTrainerObjectEventId(cursor) == CurrentApproachingTrainerObjectEventId()
    {
    }

    /** `PlayerFaceTrainerAfterBattle`: builds a two-action script that turns the player (toward the
        trainer after an approach, else keeps the player's facing), starts it, and marks the player
        as the moving object. */
    method PlayerFaceTrainerAfterBattle(objects: array<ObjectEvent>, playerObjectId: int, whichTrainer: int,
                                        mapNum: int, mapGroup: int) returns (calls: seq<Call>)
      requires Valid() && objects.Length == ObjectEventsCount && 0 <= playerObjectId < ObjectEventsCount
      requires approached ==> 0 <= whichTrainer < 2 && 0 <= approaching[whichTrainer].objectEventId < ObjectEventsCount
      modifies postBattleScript
      ensures postBattleScript[..] ==
        [FaceDirection(FacingAfterBattle(approached,
            if approached then objects[approaching[whichTrainer].objectEventId].facing else South,
            objects[playerObjectId].facing)),
         StepEnd] + old(postBattleScript[2..])
      ensures calls == [StartObjectMovementScript(ObjEventIdPlayer, mapNum, mapGroup), SetMovingNpcId(ObjEventIdPlayer)]
    {
      if approached {
        var obj := objects[approaching[whichTrainer].objectEventId];
        postBattleScript[0] := FaceDirection(Opposite(obj.facing));
        postBattleScript[1] := StepEnd;
      } else {
        var obj := objects[playerObjectId];
        postBattleScript[0] := FaceDirection(obj.facing);
        postBattleScript[1] := StepEnd;
      }
      calls := [StartObjectMovementScript(ObjEventIdPlayer, mapNum, mapGroup), SetMovingNpcId(ObjEventIdPlayer)];
    }
  }

  /** The direction the player turns to after the battle. */
  function FacingAfterBattle(approached: bool, trainerFacing: Direction, playerFacing: Direction): (d: Direction)
    ensures approached ==> d != trainerFacing && d == Opposite(trainerFacing) && Opposite(d) == trainerFacing
    ensures !approached ==> d == playerFacing
  {
    if approached then Opposite(trainerFacing) else playerFacing
  }

  /** A trainer that saw the player k tiles ahead and walked its k - 1 tiles stands on the tile the
      player faces once turned after the battle; looking back k tiles the player sees where the
      trainer started. */
  lemma PlayerTurnsTowardTrainer(dir: Direction, t: Pos, range: u8, q: Pos, k: int, playerFacing: Direction)
    requires SeesAt(dir, t, range, q, k)
    ensures var back := FacingAfterBattle(true, dir, playerFacing);
      Shift(back, q, 1) == Shift(dir, t, k - 1) && Shift(back, q, k) == (t.x, t.y)
  {
  }
}
