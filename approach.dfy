/** The approach state machine each approaching trainer's task runs, one step function per table
    entry, and the stand-alone task that reveals a hidden trainer
    (src/trainer_see.c, `Task_RunTrainerSeeFuncList`, the twelve step functions, `sub_80B44C8`). */
module Approach {
  import opened Fixed
  import opened Objects

  /** The entries of `sTrainerSeeFuncList`, in table order; `Index` gives the value of `data[0]`. */
  datatype Step =
    | Idle            // sub_80B4178
    | Exclaim         // TrainerExclamationMark
    | WaitExclaim     // WaitTrainerExclamationMark
    | Walk            // TrainerMoveToPlayer
    | PlayerFace      // PlayerFaceApproachingTrainer
    | WaitPlayerFace  // WaitPlayerFaceApproachingTrainer
    | Reveal          // RevealDisguisedTrainer
    | WaitReveal      // WaitRevealDisguisedTrainer
    | FaceHidden      // RevealHiddenTrainer
    | PopOut          // PopOutOfAshHiddenTrainer
    | Jump            // JumpInPlaceHiddenTrainer
    | WaitHidden      // WaitRevealHiddenTrainer

  function Index(s: Step): (i: int)
    ensures 0 <= i < 12
  {
    match s
    case Idle => 0
    case Exclaim => 1
    case WaitExclaim => 2
    case Walk => 3
    case PlayerFace => 4
    case WaitPlayerFace => 5
    case Reveal => 6
    case WaitReveal => 7
    case FaceHidden => 8
    case PopOut => 9
    case Jump => 10
    case WaitHidden => 11
  }

  function StepAt(i: int): (s: Step)
    requires 0 <= i < 12
    ensures Index(s) == i
  {
    if i == 0 then Idle else if i == 1 then Exclaim else if i == 2 then WaitExclaim
    else if i == 3 then Walk else if i == 4 then PlayerFace else if i == 5 then WaitPlayerFace
    else if i == 6 then Reveal else if i == 7 then WaitReveal else if i == 8 then FaceHidden
    else if i == 9 then PopOut else if i == 10 then Jump else WaitHidden
  }

  /** How a step function writes `tFuncId`: not at all, `tFuncId++`, or `tFuncId = n`. */
  datatype Transition = Stay | Advance | JumpTo(index: int)

  function Apply(i: int, tr: Transition): int
  {
    match tr
    case Stay => i
    case Advance => i + 1
    case JumpTo(n) => n
  }

  datatype Actor = Trainer | Player

  datatype FieldEffect = ExclamationMarkIcon | PopOutOfAsh

  /** Calls into the engine that the steps make, in the order they make them. */
  datatype Command =
    | StartFieldEffect(effect: FieldEffect, args: seq<int>)   // gFieldEffectArguments, FieldEffectStart
    | SetHeldMovement(actor: Actor, action: MovementAction)  // ObjectEventSetHeldMovement
    | ClearHeldMovementIfFinished(actor: Actor)              // ObjectEventClearHeldMovementIfFinished
    | SetFacingMovementType(dir: Direction)                  // SetTrainerMovementType(.., GetTrainerFacingDirectionMovementType(dir))
    | TryOverrideTemplateCoords(dir: Direction)              // TryOverrideTemplateCoordsForObjectEvent
    | OverrideTemplateCoords                                 // OverrideTemplateCoordsForObjectEvent
    | ResetPlayerAvatar                                      // sub_808BCE8
    | ClearFixedPriority                                     // trainerObj->fixedPriority = 0
    | EnableGroundEffects                                    // trainerObj->triggerGroundEffectsOnMove = 1
    | SetSpritePriority(priority: int)                       // sprite->oam.priority
    | SwitchToFollowup                                       // SwitchTaskToFollowupFunc
    | ClearHeldMovement                                      // ObjectEventClearHeldMovement
    | ResetHeldMovementFinished                              // objEvent->heldMovementFinished = 0
    | DestroyTask                                            // DestroyTask
    | EnableBothScriptContexts                               // EnableBothScriptContexts

  /** What the engine answers during one tick: the trainer object as it is, and one answer per query. */
  datatype Env = Env(
    trainer: ObjectView,
    exclamationActive: bool,   // FieldEffectActiveListContains(FLDEFF_EXCLAMATION_MARK_ICON)
    trainerOverridden: bool,   // ObjectEventIsMovementOverridden(trainerObj)
    trainerFinished: bool,     // ObjectEventClearHeldMovementIfFinished(trainerObj) != 0
    trainerHeldStatus: bool,   // ObjectEventCheckHeldMovementStatus(trainerObj) != 0
    playerOverridden: bool,    // the same two queries for the player's object
    playerFinished: bool,
    newAshSpriteId: u8,        // what FieldEffectStart(FLDEFF_POP_OUT_OF_ASH) returns
    animCmdIndex: int -> int,  // gSprites[id].animCmdIndex
    ashActive: bool,           // FieldEffectActiveListContains(FLDEFF_POP_OUT_OF_ASH)
    trainerSubpriority: int)   // gSprites[trainerObj->spriteId].subpriority

  /** `!ObjectEventIsMovementOverridden(o) || ObjectEventClearHeldMovementIfFinished(o)`: the
      clearing call is made, and logged, only when the movement is overridden. */
  function MovementIdle(who: Actor, overridden: bool, finished: bool): (bool, seq<Command>)
  {
    if !overridden then (true, []) else (finished, [ClearHeldMovementIfFinished(who)])
  }

  /** What one step function does: its write to `tFuncId`, the new `tTrainerRange` and
      `tOutOfAshSpriteId`, its return value, and the engine calls it made. */
  datatype Outcome = Outcome(tr: Transition, walkLeft: s16, ashSpriteId: u8, again: bool, cmds: seq<Command>)

  // ---------------------------------------------------------------------------------------------
  // The step functions; w is `tTrainerRange`, a is `tOutOfAshSpriteId`.

  /** `sub_80B4178`: returns FALSE and leaves the step where it is. */
  function NoOp(w: s16, a: u8, e: Env): Outcome
  {
    Outcome(Stay, w, a, false, [])
  }

  /** Step 1: the exclamation mark over the trainer and a turn to its facing direction; the next
      step runs in the same tick. */
  function TrainerExclamationMark(w: s16, a: u8, e: Env): Outcome
  {
    Outcome(Advance, w, a, true,
      [StartFieldEffect(ExclamationMarkIcon, [e.trainer.localId, e.trainer.mapNum, e.trainer.mapGroup]),
       SetHeldMovement(Trainer, FaceDirection(e.trainer.facing))])
  }

  /** Step 2: nothing while the exclamation mark is showing, then the branch on the movement type. */
  function WaitTrainerExclamationMark(w: s16, a: u8, e: Env): Outcome
  {
    if e.exclamationActive then Outcome(Stay, w, a, false, [])
    else
      var tr := if e.trainer.movementType == Hidden then JumpTo(8)
                else if IsDisguise(e.trainer.movementType) then JumpTo(6)
                else Advance;
      Outcome(tr, w, a, true, [])
  }

  /** Step 3: while the trainer is busy nothing is given; a free trainer is given a walking step in
      its facing direction while the counter is nonzero, lowering it, and the face-player movement
      once it is 0, moving on. Never the reveal. */
  function TrainerMoveToPlayer(w: s16, a: u8, e: Env): Outcome
  {
    var (idle, c) := MovementIdle(Trainer, e.trainerOverridden, e.trainerFinished);
    if !idle then Outcome(Stay, w, a, false, c)
    else if w != 0 then
      Outcome(Stay, WrapS16(w - 1), a, false, c + [SetHeldMovement(Trainer, WalkNormal(e.trainer.facing))])
    else
      Outcome(Advance, w, a, false, c + [SetHeldMovement(Trainer, FacePlayer)])
  }

  /** Step 4: while the trainer is busy nothing else happens; once it is free its facing movement
      type is made permanent, and once the player is free too the player is turned to face the
      trainer and the task moves on. The trainer is given no movement. */
  function PlayerFaceApproachingTrainer(w: s16, a: u8, e: Env): Outcome
  {
    var (trainerIdle, c1) := MovementIdle(Trainer, e.trainerOverridden, e.trainerFinished);
    if !trainerIdle then Outcome(Stay, w, a, false, c1)
    else
      var f := e.trainer.facing;
      var c2 := c1 + [SetFacingMovementType(f), TryOverrideTemplateCoords(f), OverrideTemplateCoords];
      var (playerIdle, c3) := MovementIdle(Player, e.playerOverridden, e.playerFinished);
      if !playerIdle then Outcome(Stay, w, a, false, c2 + c3)
      else Outcome(Advance, w, a, false,
                   c2 + c3 + [ResetPlayerAvatar, SetHeldMovement(Player, FaceDirection(Opposite(f)))])
  }

  /** Step 5: hands over to the follow-up once the player's turn is done. */
  function WaitPlayerFaceApproachingTrainer(w: s16, a: u8, e: Env): Outcome
  {
    var (playerIdle, c) := MovementIdle(Player, e.playerOverridden, e.playerFinished);
    Outcome(Stay, w, a, false, if playerIdle then c + [SwitchToFollowup] else c)
  }

  /** Step 6: a free trainer is given the reveal movement, once, and the task moves on. */
  function RevealDisguisedTrainer(w: s16, a: u8, e: Env): Outcome
  {
    var (idle, c) := MovementIdle(Trainer, e.trainerOverridden, e.trainerFinished);
    if idle then Outcome(Advance, w, a, false, c + [RevealCommand])
    else Outcome(Stay, w, a, false, c)
  }

  /** Step 7: back to the walk (step 3) once the reveal has finished. */
  function WaitRevealDisguisedTrainer(w: s16, a: u8, e: Env): Outcome
  {
    Outcome(if e.trainerFinished then JumpTo(3) else Stay, w, a, false, [ClearHeldMovementIfFinished(Trainer)])
  }

  function RevealHiddenTrainer(w: s16, a: u8, e: Env): Outcome
  {
    var (idle, c) := MovementIdle(Trainer, e.trainerOverridden, e.trainerFinished);
    if idle then Outcome(Advance, w, a, false, c + [SetHeldMovement(Trainer, FacePlayer)])
    else Outcome(Stay, w, a, false, c)
  }

  function PopOutOfAshHiddenTrainer(w: s16, a: u8, e: Env): Outcome
  {
    if e.trainerHeldStatus then
      Outcome(Advance, w, e.newAshSpriteId, false,
        [StartFieldEffect(PopOutOfAsh, [e.trainer.coords.x, e.trainer.coords.y, e.trainerSubpriority - 1, 2])])
    else Outcome(Stay, w, a, false, [])
  }

  function JumpInPlaceHiddenTrainer(w: s16, a: u8, e: Env): Outcome
  {
    if e.animCmdIndex(a) == 2 then
      Outcome(Advance, w, a, false,
        [ClearFixedPriority, EnableGroundEffects, SetSpritePriority(2), ClearHeldMovementIfFinished(Trainer),
         SetHeldMovement(Trainer, JumpInPlace(e.trainer.facing))])
    else Outcome(Stay, w, a, false, [])
  }

  function WaitRevealHiddenTrainer(w: s16, a: u8, e: Env): Outcome
  {
    Outcome(if !e.ashActive then JumpTo(3) else Stay, w, a, false, [])
  }

  /** The table `sTrainerSeeFuncList`. */
  function SeeFunc(s: Step, w: s16, a: u8, e: Env): (o: Outcome)
    ensures 0 <= Apply(Index(s), o.tr) < 12
    ensures o.again ==> s == Exclaim || s == WaitExclaim
    ensures SwitchToFollowup in o.cmds ==> s == WaitPlayerFace
  {
    match s
    case Idle => NoOp(w, a, e)
    case Exclaim => TrainerExclamationMark(w, a, e)
    case WaitExclaim => WaitTrainerExclamationMark(w, a, e)
    case Walk => TrainerMoveToPlayer(w, a, e)
    case PlayerFace => PlayerFaceApproachingTrainer(w, a, e)
    case WaitPlayerFace => WaitPlayerFaceApproachingTrainer(w, a, e)
    case Reveal => RevealDisguisedTrainer(w, a, e)
    case WaitReveal => WaitRevealDisguisedTrainer(w, a, e)
    case FaceHidden => RevealHiddenTrainer(w, a, e)
    case PopOut => PopOutOfAshHiddenTrainer(w, a, e)
    case Jump => JumpInPlaceHiddenTrainer(w, a, e)
    case WaitHidden => WaitRevealHiddenTrainer(w, a, e)
  }

  // ---------------------------------------------------------------------------------------------
  // One tick of Task_RunTrainerSeeFuncList

  /** The task's `data[0]`, `data[3]` and `data[4]`. */
  datatype TaskData = TaskData(step: Step, walkLeft: s16, ashSpriteId: u8)

  datatype StepResult = StepResult(data: TaskData, again: bool, cmds: seq<Command>)

  /** How many more steps can run in the same tick after this one: only the exclamation mark and
      its wait return TRUE. */
  function Rank(s: Step): nat
  {
    if s == Exclaim then 2 else if s == WaitExclaim then 1 else 0
  }

  /** One call of the step function the task's current step selects from `sTrainerSeeFuncList`,
      with the task and its trainer's object. */
  function RunStep(d: TaskData, e: Env): (r: StepResult)
    ensures r.again ==> Rank(r.data.step) < Rank(d.step)
  {
    var o := SeeFunc(d.step, d.walkLeft, d.ashSpriteId, e);
    StepResult(TaskData(StepAt(Apply(Index(d.step), o.tr)), o.walkLeft, o.ashSpriteId), o.again, o.cmds)
  }

  /** The effect of a tick: the new task data, the engine calls, and how many step functions ran. */
  datatype TickResult = TickResult(data: TaskData, cmds: seq<Command>, steps: nat)

  /** The loop of `Task_RunTrainerSeeFuncList`: the current step function is called again for as
      long as it returns TRUE. */
  function Chain(d: TaskData, e: Env): (r: TickResult)
    ensures 1 <= r.steps <= Rank(d.step) + 1
    decreases Rank(d.step)
  {
    var s := RunStep(d, e);
    if s.again then
      var rest := Chain(s.data, e);
      TickResult(rest.data, s.cmds + rest.cmds, rest.steps + 1)
    else
      TickResult(s.data, s.cmds, 1)
  }

  /** The engine calls of a tick that already made `done` before reaching the rest of the chain. */
  function After(done: seq<Command>, rest: TickResult): seq<Command>
  {
    done + rest.cmds
  }

  /** One turn of the `while`: a step that returns TRUE is followed by the rest of the chain. */
  lemma ChainUnfold(d: TaskData, e: Env, r: StepResult, done: seq<Command>)
    requires r == RunStep(d, e)
    ensures r.again ==> Chain(d, e).data == Chain(r.data, e).data
    ensures r.again ==> After(done, Chain(d, e)) == After(done + r.cmds, Chain(r.data, e))
    ensures !r.again ==> Chain(d, e).data == r.data && After(done, Chain(d, e)) == done + r.cmds
  {
    if r.again {
      assert After(done, Chain(d, e)) == done + (r.cmds + Chain(r.data, e).cmds);
    }
  }

  /** `Task_RunTrainerSeeFuncList`: an inactive trainer hands over to the follow-up at once;
      otherwise steps run until one returns FALSE, which is at most three in one tick. */
  function Tick(d: TaskData, e: Env): (r: TickResult)
    ensures r.steps <= 3
  {
    if !e.trainer.active then TickResult(d, [SwitchToFollowup], 0) else Chain(d, e)
  }

  /** Within one tick, only a chain that starts at step 5 can hand over: the steps that let the
      next one run (1 and 2) never lead to step 5. */
  lemma {:induction false} ChainHandOff(d: TaskData, e: Env)
    ensures SwitchToFollowup in Chain(d, e).cmds <==>
      d.step == WaitPlayerFace && MovementIdle(Player, e.playerOverridden, e.playerFinished).0
    decreases Rank(d.step)
  {
    var s := RunStep(d, e);
    if s.again {
      ChainHandOff(s.data, e);
      assert s.data.step != WaitPlayerFace;
    }
  }

  /** Control passes to the follow-up exactly when the trainer is inactive, or when the task is
      waiting for the player's turn and the player's movement is done. */
  lemma HandOffOnlyFromWaitPlayerFace(d: TaskData, e: Env)
    ensures SwitchToFollowup in Tick(d, e).cmds <==>
      !e.trainer.active || (d.step == WaitPlayerFace && MovementIdle(Player, e.playerOverridden, e.playerFinished).0)
  {
    if e.trainer.active {
      ChainHandOff(d, e);
    }
  }

  /** When the exclamation mark has gone, step 2 moves to the disguise reveal for a tree or
      mountain disguise, to the hidden-trainer reveal for a hidden trainer, and to walking
      otherwise, and lets the next step run in the same tick. */
  lemma WaitExclaimBranches(d: TaskData, e: Env)
    requires d.step == WaitExclaim && !e.exclamationActive
    ensures RunStep(d, e).again
    ensures RunStep(d, e).data.step ==
      if e.trainer.movementType == Hidden then FaceHidden
      else if IsDisguise(e.trainer.movementType) then Reveal
      else Walk
  {
  }

  /** Both reveal branches end by going back to the walk (step 3), or wait where they are. */
  lemma RevealsReturnToWalk(d: TaskData, e: Env)
    requires d.step == WaitReveal || d.step == WaitHidden
    ensures RunStep(d, e).data.step in {d.step, Walk}
    ensures RunStep(d, e).data.step == Walk <==>
      (if d.step == WaitReveal then e.trainerFinished else !e.ashActive)
  {
  }

  /** Several ticks in a row; once control has passed to the follow-up, the list is not run again. */
  function RunTicks(d: TaskData, envs: seq<Env>): TickResult
    decreases |envs|
  {
    if envs == [] then TickResult(d, [], 0)
    else
      var r := Tick(d, envs[0]);
      if SwitchToFollowup in r.cmds then r
      else
        var rest := RunTicks(r.data, envs[1..]);
        TickResult(rest.data, r.cmds + rest.cmds, r.steps + rest.steps)
  }

  function Repeat<T>(x: T, n: nat): (r: seq<T>)
    ensures |r| == n && forall i :: 0 <= i < n ==> r[i] == x
  {
    if n == 0 then [] else [x] + Repeat(x, n - 1)
  }

  /** The movements handed to the trainer's object among the engine calls `cmds`, in order. */
  function TrainerMoves(cmds: seq<Command>): seq<MovementAction>
  {
    if cmds == [] then []
    else (if cmds[0].SetHeldMovement? && cmds[0].actor == Trainer then [cmds[0].action] else [])
         + TrainerMoves(cmds[1..])
  }

  lemma {:induction false} TrainerMovesAppend(a: seq<Command>, b: seq<Command>)
    ensures TrainerMoves(a + b) == TrainerMoves(a) + TrainerMoves(b)
    decreases |a|
  {
    if a == [] {
      assert a + b == b;
    } else {
      assert (a + b)[1..] == a[1..] + b;
      TrainerMovesAppend(a[1..], b);
    }
  }

  lemma {:induction false} NoTrainerMoves(cmds: seq<Command>)
    requires forall j :: 0 <= j < |cmds| ==> !(cmds[j].SetHeldMovement? && cmds[j].actor == Trainer)
    ensures TrainerMoves(cmds) == []
    decreases |cmds|
  {
    if cmds != [] {
      NoTrainerMoves(cmds[1..]);
    }
  }

  /** The trainer is free for its next movement on this tick: the guard of steps 3, 4, 6 and 8. */
  predicate TrainerIdle(e: Env)
  {
    MovementIdle(Trainer, e.trainerOverridden, e.trainerFinished).0
  }

  /** How many of the ticks find the trainer free. */
  function IdleTicks(envs: seq<Env>): (n: nat)
    ensures n <= |envs|
  {
    if envs == [] then 0 else (if TrainerIdle(envs[0]) then 1 else 0) + IdleTicks(envs[1..])
  }

  /** A last tick that finds the trainer free is counted. */
  lemma {:induction false} IdleTicksLast(envs: seq<Env>)
    requires |envs| > 0 && TrainerIdle(envs[|envs| - 1])
    ensures IdleTicks(envs) > 0
    decreases |envs|
  {
    if |envs| > 1 && !TrainerIdle(envs[0]) {
      assert envs[1..][|envs[1..]| - 1] == envs[|envs| - 1];
      IdleTicksLast(envs[1..]);
    }
  }

  /** What `TrainerMoveToPlayer` gives the trainer: nothing while it is busy, a walking step in its
      facing direction while the counter is nonzero, the face-player movement once it is 0. */
  lemma WalkStepMoves(w: s16, a: u8, e: Env)
    ensures TrainerMoves(TrainerMoveToPlayer(w, a, e).cmds) ==
      if !TrainerIdle(e) then [] else if w != 0 then [WalkNormal(e.trainer.facing)] else [FacePlayer]
  {
    var c := MovementIdle(Trainer, e.trainerOverridden, e.trainerFinished).1;
    NoTrainerMoves(c);
    var x := if w != 0 then WalkNormal(e.trainer.facing) else FacePlayer;
    assert TrainerMoves([SetHeldMovement(Trainer, x)]) == [x];
    TrainerMovesAppend(c, [SetHeldMovement(Trainer, x)]);
  }

  /** One tick at the walk step (`TrainerMoveToPlayer`): a busy trainer is given nothing and the
      task waits; a free one is given one walking step in its facing direction while the counter is
      nonzero, and the face-player movement, moving on to step 4, once it is 0. The finished
      movement is cleared exactly when it was overridden, and the task never hands over here. */
  lemma WalkTick(d: TaskData, e: Env)
    requires d.step == Walk && e.trainer.active
    ensures SwitchToFollowup !in Tick(d, e).cmds
    ensures ClearHeldMovementIfFinished(Trainer) in Tick(d, e).cmds <==> e.trainerOverridden
    ensures !TrainerIdle(e) ==> Tick(d, e).data == d && TrainerMoves(Tick(d, e).cmds) == []
    ensures TrainerIdle(e) && d.walkLeft != 0 ==>
      Tick(d, e).data == d.(walkLeft := WrapS16(d.walkLeft - 1))
      && TrainerMoves(Tick(d, e).cmds) == [WalkNormal(e.trainer.facing)]
    ensures TrainerIdle(e) && d.walkLeft == 0 ==>
      Tick(d, e).data == d.(step := PlayerFace) && TrainerMoves(Tick(d, e).cmds) == [FacePlayer]
  {
    assert Tick(d, e) == TickResult(RunStep(d, e).data, RunStep(d, e).cmds, 1);
    WalkStepMoves(d.walkLeft, d.ashSpriteId, e);
  }

  /** `WalkTick` for a counter that is not negative, as it always is when counting down from a
      distance: the decrement needs no wrap-around. */
  lemma WalkTickCounting(d: TaskData, e: Env)
    requires d.step == Walk && d.walkLeft >= 0 && e.trainer.active
    ensures SwitchToFollowup !in Tick(d, e).cmds
    ensures !TrainerIdle(e) ==> Tick(d, e).data == d && TrainerMoves(Tick(d, e).cmds) == []
    ensures TrainerIdle(e) && d.walkLeft > 0 ==>
      Tick(d, e).data == d.(walkLeft := d.walkLeft - 1)
      && TrainerMoves(Tick(d, e).cmds) == [WalkNormal(e.trainer.facing)]
    ensures TrainerIdle(e) && d.walkLeft == 0 ==>
      Tick(d, e).data == d.(step := PlayerFace) && TrainerMoves(Tick(d, e).cmds) == [FacePlayer]
  {
    WalkTick(d, e);
  }

  /** Ticks at the walk step that find the trainer free at most n times, n the counter: each free
      tick lowers the counter by one and gives one walking step, the busy ones give nothing, and
      the task neither leaves the step nor hands over. */
  lemma {:induction false} WalkPhase(d: TaskData, envs: seq<Env>, dir: Direction)
    requires d.step == Walk && d.walkLeft >= 0 && IdleTicks(envs) <= d.walkLeft
    requires forall k :: 0 <= k < |envs| ==> envs[k].trainer.active && envs[k].trainer.facing == dir
    ensures RunTicks(d, envs).data == d.(walkLeft := d.walkLeft - IdleTicks(envs))
    ensures TrainerMoves(RunTicks(d, envs).cmds) == Repeat(WalkNormal(dir), IdleTicks(envs))
    ensures SwitchToFollowup !in RunTicks(d, envs).cmds
    decreases |envs|
  {
    if envs != [] {
      var r := Tick(d, envs[0]);
      WalkTickCounting(d, envs[0]);
      WalkPhase(r.data, envs[1..], dir);
      var rest := RunTicks(r.data, envs[1..]);
      TrainerMovesAppend(r.cmds, rest.cmds);
      if TrainerIdle(envs[0]) {
        assert Repeat(WalkNormal(dir), IdleTicks(envs))
          == [WalkNormal(dir)] + Repeat(WalkNormal(dir), IdleTicks(envs[1..]));
      }
    }
  }

  /** From the walk step with counter n, ticks in which the trainer is free n + 1 times, the last
      tick being one of them, give the trainer exactly n walking steps in its facing direction and
      then the face-player movement, and bring the task to step 4; busy ticks in between give
      nothing. A trainer started with counter distance - 1 thus stops next to the player. */
  lemma {:induction false} WalkThenFacePlayer(d: TaskData, envs: seq<Env>, dir: Direction)
    requires d.step == Walk && d.walkLeft >= 0 && |envs| > 0
    requires forall k :: 0 <= k < |envs| ==> envs[k].trainer.active && envs[k].trainer.facing == dir
    requires IdleTicks(envs) == d.walkLeft + 1 && TrainerIdle(envs[|envs| - 1])
    ensures RunTicks(d, envs).data == TaskData(PlayerFace, 0, d.ashSpriteId)
    ensures TrainerMoves(RunTicks(d, envs).cmds) == Repeat(WalkNormal(dir), d.walkLeft) + [FacePlayer]
    decreases |envs|, 1
  {
    if |envs| > 1 {
      assert envs[1..][|envs[1..]| - 1] == envs[|envs| - 1];
      IdleTicksLast(envs[1..]);
    }
    if TrainerIdle(envs[0]) && d.walkLeft == 0 {
      if |envs| > 1 {
        assert false;
      }
      FacePlayerTick(d, envs);
    } else {
      if |envs| == 1 {
        assert false;
      }
      if TrainerIdle(envs[0]) {
        StepThenFacePlayer(d, envs, dir);
      } else {
        BusyThenFacePlayer(d, envs, dir);
      }
    }
  }

  /** The last free tick of `WalkThenFacePlayer`, with counter 0. */
  lemma FacePlayerTick(d: TaskData, envs: seq<Env>)
    requires d.step == Walk && d.walkLeft == 0 && |envs| == 1
    requires envs[0].trainer.active && TrainerIdle(envs[0])
    ensures RunTicks(d, envs).data == TaskData(PlayerFace, 0, d.ashSpriteId)
    ensures TrainerMoves(RunTicks(d, envs).cmds) == [FacePlayer]
  {
    WalkTickCounting(d, envs[0]);
    assert envs[1..] == [];
    assert Tick(d, envs[0]).cmds + [] == Tick(d, envs[0]).cmds;
  }

  /** A tick of `WalkThenFacePlayer` that finds the trainer busy, followed by the rest. */
  lemma {:induction false} BusyThenFacePlayer(d: TaskData, envs: seq<Env>, dir: Direction)
    requires d.step == Walk && d.walkLeft >= 0 && |envs| > 1
    requires forall k :: 0 <= k < |envs| ==> envs[k].trainer.active && envs[k].trainer.facing == dir
    requires IdleTicks(envs) == d.walkLeft + 1 && TrainerIdle(envs[|envs| - 1])
    requires !TrainerIdle(envs[0])
    ensures RunTicks(d, envs).data == TaskData(PlayerFace, 0, d.ashSpriteId)
    ensures TrainerMoves(RunTicks(d, envs).cmds) == Repeat(WalkNormal(dir), d.walkLeft) + [FacePlayer]
    decreases |envs|, 0
  {
    var r := Tick(d, envs[0]);
    WalkTickCounting(d, envs[0]);
    assert envs[1..][|envs[1..]| - 1] == envs[|envs| - 1];
    WalkThenFacePlayer(d, envs[1..], dir);
    TrainerMovesAppend(r.cmds, RunTicks(d, envs[1..]).cmds);
  }

  /** A tick of `WalkThenFacePlayer` that gives a walking step, followed by the rest. */
  lemma {:induction false} StepThenFacePlayer(d: TaskData, envs: seq<Env>, dir: Direction)
    requires d.step == Walk && d.walkLeft > 0 && |envs| > 1
    requires forall k :: 0 <= k < |envs| ==> envs[k].trainer.active && envs[k].trainer.facing == dir
    requires IdleTicks(envs) == d.walkLeft + 1 && TrainerIdle(envs[|envs| - 1])
    requires TrainerIdle(envs[0])
    ensures RunTicks(d, envs).data == TaskData(PlayerFace, 0, d.ashSpriteId)
    ensures TrainerMoves(RunTicks(d, envs).cmds) == Repeat(WalkNormal(dir), d.walkLeft) + [FacePlayer]
    decreases |envs|, 0
  {
    var r := Tick(d, envs[0]);
    WalkTickCounting(d, envs[0]);
    assert envs[1..][|envs[1..]| - 1] == envs[|envs| - 1];
    WalkThenFacePlayer(r.data, envs[1..], dir);
    TrainerMovesAppend(r.cmds, RunTicks(r.data, envs[1..]).cmds);
    assert Repeat(WalkNormal(dir), d.walkLeft) == [WalkNormal(dir)] + Repeat(WalkNormal(dir), d.walkLeft - 1);
  }

  /** Step 4 (`PlayerFaceApproachingTrainer`): while the trainer is busy nothing else happens; once
      it is free its facing movement type is made permanent, and once the player is free too the
      player is turned to face the trainer and the task moves on to step 5. The trainer itself is
      given no movement. */
  lemma PlayerFaceOutcome(w: s16, a: u8, e: Env)
    ensures var o := PlayerFaceApproachingTrainer(w, a, e);
      !o.again && o.walkLeft == w && o.ashSpriteId == a
      && (o.tr == Advance <==> TrainerIdle(e) && MovementIdle(Player, e.playerOverridden, e.playerFinished).0)
      && (o.tr != Advance ==> o.tr == Stay)
      && (SetFacingMovementType(e.trainer.facing) in o.cmds <==> TrainerIdle(e))
      && (SetHeldMovement(Player, FaceDirection(Opposite(e.trainer.facing))) in o.cmds <==> o.tr == Advance)
      && (o.tr == Advance ==>
            o.cmds[|o.cmds| - 1] == SetHeldMovement(Player, FaceDirection(Opposite(e.trainer.facing)))
            && SetFacingMovementType(e.trainer.facing) in o.cmds[..|o.cmds| - 1])
      && forall c :: c in o.cmds ==> !(c.SetHeldMovement? && c.actor == Trainer)
  {
    var o := PlayerFaceApproachingTrainer(w, a, e);
    if o.tr == Advance {
      var f := e.trainer.facing;
      var c1 := MovementIdle(Trainer, e.trainerOverridden, e.trainerFinished).1;
      var c3 := MovementIdle(Player, e.playerOverridden, e.playerFinished).1;
      assert o.cmds[..|o.cmds| - 1] ==
        c1 + [SetFacingMovementType(f), TryOverrideTemplateCoords(f), OverrideTemplateCoords] + c3 + [ResetPlayerAvatar];
    }
  }

  /** Step 0 (`sub_80B4178`): a task there never moves on and, while its trainer is active, makes
      no engine call, however many ticks run. */
  lemma {:induction false} IdleTaskWaits(d: TaskData, envs: seq<Env>)
    requires d.step == Idle
    requires forall k :: 0 <= k < |envs| ==> envs[k].trainer.active
    ensures RunTicks(d, envs).data == d && RunTicks(d, envs).cmds == []
    decreases |envs|
  {
    if envs != [] {
      assert Tick(d, envs[0]) == TickResult(d, [], 1);
      IdleTaskWaits(d, envs[1..]);
    }
  }

  // ---------------------------------------------------------------------------------------------
  // The disguised trainer: the reveal comes before any walk

  /** The reveal movement given to the trainer. */
  const RevealCommand := SetHeldMovement(Trainer, RevealTrainer)

  predicate IsTrainerWalk(c: Command)
  {
    c.SetHeldMovement? && c.actor == Trainer && c.action.WalkNormal?
  }

  /** Every walking step the trainer was given comes after a reveal. */
  predicate WalksAfterReveal(cmds: seq<Command>)
  {
    forall j :: 0 <= j < |cmds| && IsTrainerWalk(cmds[j]) ==> RevealCommand in cmds[..j]
  }

  /** How many reveals a disguised trainer's task has given once it reaches step s: none up to step
      6, one from step 7 on; 2 marks step 0 and the hidden-trainer steps, which a disguised trainer
      started at step 1 never reaches. */
  function Phase(s: Step): nat
  {
    if s == Exclaim || s == WaitExclaim || s == Reveal then 0
    else if s == WaitReveal || s == Walk || s == PlayerFace || s == WaitPlayerFace then 1
    else 2
  }

  /** The engine calls made so far, `cmds`, fit a disguised trainer whose task has reached step s:
      the reveal given as many times as the phase says, and never a walk before it. */
  predicate RevealOrder(s: Step, cmds: seq<Command>)
  {
    WalksAfterReveal(cmds) && Phase(s) <= 1 && multiset(cmds)[RevealCommand] == Phase(s)
  }

  lemma AppendKeepsWalksAfterReveal(done: seq<Command>, t: seq<Command>)
    requires WalksAfterReveal(done)
    requires forall j :: 0 <= j < |t| && IsTrainerWalk(t[j]) ==> RevealCommand in done
    ensures WalksAfterReveal(done + t)
  {
    forall j | 0 <= j < |done + t| && IsTrainerWalk((done + t)[j])
      ensures RevealCommand in (done + t)[..j]
    {
      if j < |done| {
        assert (done + t)[..j] == done[..j];
      } else {
        assert (done + t)[..j] == done + t[..j - |done|];
        assert RevealCommand in done;
      }
    }
  }

  /** Calls that give the reveal exactly as many times as the phase goes up, and a walk only once
      the reveal has been given, keep the order. */
  lemma OrderAfter(s: Step, done: seq<Command>, s2: Step, t: seq<Command>)
    requires RevealOrder(s, done) && Phase(s2) <= 1
    requires multiset(t)[RevealCommand] == Phase(s2) - Phase(s)
    requires forall c :: c in t && IsTrainerWalk(c) ==> Phase(s) == 1
    ensures RevealOrder(s2, done + t)
  {
    assert forall j :: 0 <= j < |t| ==> t[j] in t;
    if Phase(s) == 1 {
      assert RevealCommand in multiset(done);
    }
    AppendKeepsWalksAfterReveal(done, t);
    assert multiset(done + t) == multiset(done) + multiset(t);
  }

  /** Steps 1 and 2, for a disguised trainer: no walk and no reveal, and the task stays in the
      reveal phase. */
  lemma WaitingStepOrder(d: TaskData, e: Env)
    requires d.step == Exclaim || d.step == WaitExclaim
    requires IsDisguise(e.trainer.movementType)
    ensures Phase(RunStep(d, e).data.step) == 0
    ensures forall c :: c in RunStep(d, e).cmds ==> !IsTrainerWalk(c) && c != RevealCommand
  {
  }

  /** Step 6: the reveal is given, once, exactly when the task moves on to step 7, and no walk. */
  lemma RevealStepOrder(d: TaskData, e: Env)
    requires d.step == Reveal
    ensures Phase(RunStep(d, e).data.step) <= 1
    ensures multiset(RunStep(d, e).cmds)[RevealCommand] == Phase(RunStep(d, e).data.step)
    ensures forall c :: c in RunStep(d, e).cmds ==> !IsTrainerWalk(c)
  {
    var c := MovementIdle(Trainer, e.trainerOverridden, e.trainerFinished).1;
    assert multiset(c + [RevealCommand]) == multiset(c) + multiset{RevealCommand};
  }

  /** Steps 1, 2 and 6, for a disguised trainer: no walk, the reveal only from step 6 to a free
      trainer, and the reveal phase is never left. */
  lemma EarlyStepOrder(d: TaskData, e: Env)
    requires Phase(d.step) == 0
    requires d.step == Exclaim || d.step == WaitExclaim ==> IsDisguise(e.trainer.movementType)
    ensures Phase(RunStep(d, e).data.step) <= 1
    ensures multiset(RunStep(d, e).cmds)[RevealCommand] == Phase(RunStep(d, e).data.step)
    ensures forall c :: c in RunStep(d, e).cmds ==> !IsTrainerWalk(c)
  {
    if d.step == Reveal {
      RevealStepOrder(d, e);
    } else {
      WaitingStepOrder(d, e);
      assert RevealCommand !in multiset(RunStep(d, e).cmds);
    }
  }

  /** Steps 7, 3, 4 and 5 give no reveal and lead only to one another. */
  lemma LateStepOrder(d: TaskData, e: Env)
    requires Phase(d.step) == 1
    ensures Phase(RunStep(d, e).data.step) == 1
    ensures RevealCommand !in RunStep(d, e).cmds
  {
    if d.step == PlayerFace {
      PlayerFaceOutcome(d.walkLeft, d.ashSpriteId, e);
    }
  }

  /** One step function keeps the order, given a disguised trainer whenever step 2 (or step 1,
      which runs into it) is run. */
  lemma StepKeepsRevealOrder(d: TaskData, e: Env, done: seq<Command>)
    requires RevealOrder(d.step, done)
    requires d.step == Exclaim || d.step == WaitExclaim ==> IsDisguise(e.trainer.movementType)
    ensures RevealOrder(RunStep(d, e).data.step, done + RunStep(d, e).cmds)
  {
    var s := RunStep(d, e);
    if Phase(d.step) == 0 {
      EarlyStepOrder(d, e);
    } else {
      LateStepOrder(d, e);
    }
    OrderAfter(d.step, done, s.data.step, s.cmds);
  }

  lemma {:induction false} ChainKeepsRevealOrder(d: TaskData, e: Env, done: seq<Command>)
    requires RevealOrder(d.step, done)
    requires d.step == Exclaim || d.step == WaitExclaim ==> IsDisguise(e.trainer.movementType)
    ensures RevealOrder(Chain(d, e).data.step, done + Chain(d, e).cmds)
    decreases Rank(d.step)
  {
    var s := RunStep(d, e);
    StepKeepsRevealOrder(d, e, done);
    ChainUnfold(d, e, s, done);
    if s.again {
      ChainKeepsRevealOrder(s.data, e, done + s.cmds);
    }
  }

  lemma TickKeepsRevealOrder(d: TaskData, e: Env, done: seq<Command>)
    requires RevealOrder(d.step, done)
    requires d.step == Exclaim || d.step == WaitExclaim ==> IsDisguise(e.trainer.movementType)
    ensures RevealOrder(Tick(d, e).data.step, done + Tick(d, e).cmds)
  {
    if e.trainer.active {
      ChainKeepsRevealOrder(d, e, done);
    } else {
      OrderAfter(d.step, done, d.step, [SwitchToFollowup]);
    }
  }

  /** The engine calls of several ticks, in order. */
  function Flatten(cs: seq<seq<Command>>): seq<Command>
  {
    if cs == [] then [] else Flatten(cs[..|cs| - 1]) + cs[|cs| - 1]
  }

  /** `ds` holds the task data before each of the ticks `envs` and after the last, and `cs` the
      engine calls of each tick. */
  predicate IsRun(ds: seq<TaskData>, cs: seq<seq<Command>>, envs: seq<Env>)
  {
    |ds| == |envs| + 1 && |cs| == |envs|
    && forall k {:trigger Tick(ds[k], envs[k])} :: 0 <= k < |envs| ==>
      ds[k + 1] == Tick(ds[k], envs[k]).data && cs[k] == Tick(ds[k], envs[k]).cmds
  }

  /** The trainer is disguised whenever a tick starts at step 0, 1 or 2, which is when step 2 may
      decide the branch; step 4 later replaces the movement type, so later ticks are left free. */
  predicate DisguisedWhileWaiting(ds: seq<TaskData>, envs: seq<Env>)
    requires |ds| == |envs| + 1
  {
    forall k :: 0 <= k < |envs| && Index(ds[k].step) <= 2 ==> IsDisguise(envs[k].trainer.movementType)
  }

  /** Tick k of a run keeps the order. */
  lemma RunTickKeepsRevealOrder(ds: seq<TaskData>, cs: seq<seq<Command>>, envs: seq<Env>, k: nat, done: seq<Command>)
    requires IsRun(ds, cs, envs) && DisguisedWhileWaiting(ds, envs) && k < |envs|
    requires RevealOrder(ds[k].step, done)
    ensures RevealOrder(ds[k + 1].step, done + cs[k])
  {
    TickKeepsRevealOrder(ds[k], envs[k], done);
  }

  lemma {:induction false} RunKeepsRevealOrder(ds: seq<TaskData>, cs: seq<seq<Command>>, envs: seq<Env>, n: nat)
    requires IsRun(ds, cs, envs) && DisguisedWhileWaiting(ds, envs)
    requires RevealOrder(ds[0].step, []) && n <= |envs|
    ensures RevealOrder(ds[n].step, Flatten(cs[..n]))
    decreases n
  {
    if n == 0 {
      assert cs[..0] == [];
    } else {
      RunKeepsRevealOrder(ds, cs, envs, n - 1);
      assert cs[..n][..n - 1] == cs[..n - 1] && cs[..n][n - 1] == cs[n - 1];
      RunTickKeepsRevealOrder(ds, cs, envs, n - 1, Flatten(cs[..n - 1]));
    }
  }

  /** A disguised trainer started at step 1, over any ticks whatever the engine answers: it is never
      given a walking step before the reveal movement, never given the reveal twice, and has been
      given it exactly when the task is past step 6; it never takes the hidden-trainer branch. */
  lemma DisguisedTrainerRevealsBeforeWalking(ds: seq<TaskData>, cs: seq<seq<Command>>, envs: seq<Env>)
    requires IsRun(ds, cs, envs) && DisguisedWhileWaiting(ds, envs) && ds[0].step == Exclaim
    ensures WalksAfterReveal(Flatten(cs))
    ensures Phase(ds[|envs|].step) <= 1
    ensures multiset(Flatten(cs))[RevealCommand] == Phase(ds[|envs|].step)
  {
    assert WalksAfterReveal([]);
    RunKeepsRevealOrder(ds, cs, envs, |envs|);
    assert cs[..|envs|] == cs;
  }

  /** A tick at step 1 while the exclamation mark is still showing: the icon is started, the
      trainer turned, and step 2 then waits for the icon. */
  lemma ExclaimTick(d: TaskData, e: Env)
    requires d.step == Exclaim && e.trainer.active && e.exclamationActive
    ensures Tick(d, e).steps == 2 && Tick(d, e).data == d.(step := WaitExclaim)
    ensures Tick(d, e).cmds ==
      [StartFieldEffect(ExclamationMarkIcon, [e.trainer.localId, e.trainer.mapNum, e.trainer.mapGroup]),
       SetHeldMovement(Trainer, FaceDirection(e.trainer.facing))]
  {
    var s1 := RunStep(d, e);
    assert s1.again && s1.data == d.(step := WaitExclaim);
    var s2 := RunStep(s1.data, e);
    assert !s2.again && s2.data == s1.data && s2.cmds == [];
    assert Chain(s1.data, e) == TickResult(s2.data, s2.cmds, 1);
    assert Tick(d, e) == TickResult(s1.data, s1.cmds + [], 2);
  }

  /** A tick at step 2 for a disguised trainer once the icon has gone and the facing turn has
      finished: step 6 runs in the same tick, clears the turn and gives the reveal. */
  lemma WaitExclaimRevealTick(d: TaskData, e: Env)
    requires d.step == WaitExclaim && e.trainer.active && !e.exclamationActive
    requires IsDisguise(e.trainer.movementType) && e.trainerOverridden && e.trainerFinished
    ensures Tick(d, e).steps == 2 && Tick(d, e).data == d.(step := WaitReveal)
    ensures Tick(d, e).cmds == [ClearHeldMovementIfFinished(Trainer), RevealCommand]
  {
    var u1 := RunStep(d, e);
    assert u1.again && u1.data == d.(step := Reveal) && u1.cmds == [];
    var u2 := RunStep(u1.data, e);
    assert !u2.again && u2.data == d.(step := WaitReveal);
    assert u2.cmds == [ClearHeldMovementIfFinished(Trainer), RevealCommand];
    assert Chain(u1.data, e) == TickResult(u2.data, u2.cmds, 1);
    assert Tick(d, e) == TickResult(u2.data, [] + u2.cmds, 2);
  }

  /** A tick at step 7 once the reveal has finished: back to walking. */
  lemma WaitRevealDoneTick(d: TaskData, e: Env)
    requires d.step == WaitReveal && e.trainer.active && e.trainerFinished
    ensures Tick(d, e).data == d.(step := Walk) && Tick(d, e).cmds == [ClearHeldMovementIfFinished(Trainer)]
  {
    assert Tick(d, e) == TickResult(RunStep(d, e).data, RunStep(d, e).cmds, 1);
  }

  /** A tick at step 4 with trainer and player both free: on to step 5. */
  lemma PlayerFaceDoneTick(d: TaskData, e: Env)
    requires d.step == PlayerFace && e.trainer.active && TrainerIdle(e)
    requires MovementIdle(Player, e.playerOverridden, e.playerFinished).0
    ensures Tick(d, e).data == d.(step := WaitPlayerFace)
  {
    PlayerFaceOutcome(d.walkLeft, d.ashSpriteId, e);
    assert Tick(d, e) == TickResult(RunStep(d, e).data, RunStep(d, e).cmds, 1);
  }

  /** A disguised trainer the engine keeps busy: on the first tick the exclamation mark is still
      showing, so steps 1 and 2 run; on the second the facing turn has finished and step 2 runs into
      the reveal; on the third the reveal has finished and the task goes back to walking, with its
      counter and ash sprite as they were. */
  lemma DisguisedTrainerTrace(d: TaskData, e1: Env, e2: Env, e3: Env)
    requires d.step == Exclaim
    requires e1.trainer.active && e1.exclamationActive
    requires e2.trainer.active && !e2.exclamationActive && IsDisguise(e2.trainer.movementType)
    requires e2.trainerOverridden && e2.trainerFinished
    requires e3.trainer.active && e3.trainerFinished
    ensures Tick(d, e1).steps == 2 && Tick(d, e1).data == d.(step := WaitExclaim)
    ensures RunTicks(d, [e1, e2, e3]).data == d.(step := Walk)
    ensures RunTicks(d, [e1, e2, e3]).cmds ==
      [StartFieldEffect(ExclamationMarkIcon, [e1.trainer.localId, e1.trainer.mapNum, e1.trainer.mapGroup]),
       SetHeldMovement(Trainer, FaceDirection(e1.trainer.facing)),
       ClearHeldMovementIfFinished(Trainer),
       RevealCommand,
       ClearHeldMovementIfFinished(Trainer)]
  {
    ExclaimTick(d, e1);
    var d1 := d.(step := WaitExclaim);
    WaitExclaimRevealTick(d1, e2);
    var d2 := d.(step := WaitReveal);
    WaitRevealDoneTick(d2, e3);
    assert [e1, e2, e3][1..] == [e2, e3] && [e2, e3][1..] == [e3] && [e3][1..] == [];
    assert RunTicks(d2, [e3]) == TickResult(d.(step := Walk), Tick(d2, e3).cmds + [], 1);
    assert RunTicks(d1, [e2, e3]).cmds == Tick(d1, e2).cmds + Tick(d2, e3).cmds;
  }

  /** Tick k of a run, for the engine answers that let the current movement finish. */
  lemma CooperativeRunTick(ds: seq<TaskData>, cs: seq<seq<Command>>, envs: seq<Env>, k: nat)
    requires IsRun(ds, cs, envs) && k < |envs| && envs[k].trainer.active
    ensures ds[k].step == Exclaim && envs[k].exclamationActive ==> ds[k + 1] == ds[k].(step := WaitExclaim)
    ensures (ds[k].step == WaitExclaim && !envs[k].exclamationActive && IsDisguise(envs[k].trainer.movementType)
             && envs[k].trainerOverridden && envs[k].trainerFinished)
      ==> ds[k + 1] == ds[k].(step := WaitReveal)
    ensures ds[k].step == WaitReveal && envs[k].trainerFinished ==> ds[k + 1] == ds[k].(step := Walk)
    ensures ds[k].step == Walk && ds[k].walkLeft == 0 && TrainerIdle(envs[k]) ==> ds[k + 1] == ds[k].(step := PlayerFace)
    ensures (ds[k].step == PlayerFace && TrainerIdle(envs[k])
             && MovementIdle(Player, envs[k].playerOverridden, envs[k].playerFinished).0)
      ==> ds[k + 1] == ds[k].(step := WaitPlayerFace)
    ensures ds[k].step == WaitPlayerFace ==> ds[k + 1] == ds[k]
    ensures SwitchToFollowup in cs[k] <==>
      ds[k].step == WaitPlayerFace && MovementIdle(Player, envs[k].playerOverridden, envs[k].playerFinished).0
  {
    var d, e := ds[k], envs[k];
    assert ds[k + 1] == Tick(d, e).data && cs[k] == Tick(d, e).cmds;
    HandOffOnlyFromWaitPlayerFace(d, e);
    if d.step == Exclaim && e.exclamationActive {
      ExclaimTick(d, e);
    } else if d.step == WaitExclaim && !e.exclamationActive && IsDisguise(e.trainer.movementType)
      && e.trainerOverridden && e.trainerFinished {
      WaitExclaimRevealTick(d, e);
    } else if d.step == WaitReveal && e.trainerFinished {
      WaitRevealDoneTick(d, e);
    } else if d.step == Walk && d.walkLeft == 0 && TrainerIdle(e) {
      WalkTickCounting(d, e);
    } else if d.step == PlayerFace && TrainerIdle(e) && MovementIdle(Player, e.playerOverridden, e.playerFinished).0 {
      PlayerFaceDoneTick(d, e);
    } else if d.step == WaitPlayerFace {
      assert Tick(d, e) == TickResult(RunStep(d, e).data, RunStep(d, e).cmds, 1);
    }
  }

  /** A disguised trainer next to the player (counter 0), over six ticks in which the engine lets
      each movement finish: the "!" tick, the reveal tick, the end of the reveal, the face-player
      movement, the player's turn, and the hand-over. The run reaches the follow-up on its sixth
      tick and not before, having given the reveal exactly once and no walk before it. */
  lemma DisguisedTrainerRunCompletes(ds: seq<TaskData>, cs: seq<seq<Command>>, envs: seq<Env>)
    requires IsRun(ds, cs, envs) && |envs| == 6 && ds[0].step == Exclaim && ds[0].walkLeft == 0
    requires forall k :: 0 <= k < 6 ==> envs[k].trainer.active
    requires envs[0].exclamationActive && IsDisguise(envs[0].trainer.movementType)
    requires !envs[1].exclamationActive && IsDisguise(envs[1].trainer.movementType)
    requires envs[1].trainerOverridden && envs[1].trainerFinished
    requires envs[2].trainerFinished
    requires TrainerIdle(envs[3]) && TrainerIdle(envs[4])
    requires MovementIdle(Player, envs[4].playerOverridden, envs[4].playerFinished).0
    requires MovementIdle(Player, envs[5].playerOverridden, envs[5].playerFinished).0
    ensures SwitchToFollowup in cs[5]
    ensures forall k :: 0 <= k < 5 ==> SwitchToFollowup !in cs[k]
    ensures WalksAfterReveal(Flatten(cs)) && multiset(Flatten(cs))[RevealCommand] == 1
  {
    var d := ds[0];
    CooperativeRunTick(ds, cs, envs, 0);
    CooperativeRunTick(ds, cs, envs, 1);
    CooperativeRunTick(ds, cs, envs, 2);
    CooperativeRunTick(ds, cs, envs, 3);
    CooperativeRunTick(ds, cs, envs, 4);
    CooperativeRunTick(ds, cs, envs, 5);
    assert ds[6] == d.(step := WaitPlayerFace);
    assert DisguisedWhileWaiting(ds, envs);
    DisguisedTrainerRevealsBeforeWalking(ds, cs, envs);
  }

  /** The `while` of `Task_RunTrainerSeeFuncList`: call the current entry until one returns FALSE. */
  method RunSeeFuncList(start: TaskData, e: Env) returns (d: TaskData, cmds: seq<Command>)
    ensures d == Chain(start, e).data && cmds == Chain(start, e).cmds
  {
    d, cmds := start, [];
    var again := true;
    while again
      invariant again ==> Chain(start, e).data == Chain(d, e).data && After([], Chain(start, e)) == After(cmds, Chain(d, e))
      invariant !again ==> Chain(start, e).data == d && After([], Chain(start, e)) == cmds
      decreases if again then Rank(d.step) + 1 else 0
    {
      var r := RunStep(d, e);
      ChainUnfold(d, e, r, cmds);
      d, cmds, again := r.data, cmds + r.cmds, r.again;
    }
    assert After([], Chain(start, e)) == Chain(start, e).cmds;
  }

  // ---------------------------------------------------------------------------------------------
  // The approach task

  /** The follow-up a task hands over to; only `EndTrainerApproach` sets one in this file. */
  datatype Followup = NoFollowup | DestroyTrainerApproachTask

  /** What the follow-up does when control reaches it: `Task_DestroyTrainerApproachTask` ends the
      task and lets both script contexts run again. */
  function FollowupCommands(f: Followup): (r: seq<Command>)
    ensures DestroyTask in r <==> f == DestroyTrainerApproachTask
    ensures EnableBothScriptContexts in r ==> DestroyTask in r
    ensures f == DestroyTrainerApproachTask ==> r == [DestroyTask, EnableBothScriptContexts]
    ensures f == NoFollowup ==> r == []
  {
    match f
    case NoFollowup => []
    case DestroyTrainerApproachTask => [DestroyTask, EnableBothScriptContexts]
  }

  /** A task running `Task_RunTrainerSeeFuncList` for one approaching trainer. */
  class ApproachTask {
    var step: Step             // tFuncId (data[0])
    var walkLeft: s16          // tTrainerRange (data[3])
    var ashSpriteId: u8        // tOutOfAshSpriteId (data[4])
    var trainerId: int         // tTrainerObjectEventId (data[7])
    var followup: Followup
    var handedOff: bool        // SwitchTaskToFollowupFunc has run

    /** `CreateTask(Task_RunTrainerSeeFuncList, 0x50)` with zeroed data, then the two writes of
        `TrainerApproachPlayer`. */
    constructor (range: u8, objectEventId: int)
      ensures Data() == TaskData(Idle, range, 0)
      ensures trainerId == objectEventId && followup == NoFollowup && !handedOff
    {
      step, walkLeft, ashSpriteId := Idle, range, 0;
      trainerId, followup, handedOff := objectEventId, NoFollowup, false;
    }

    function Data(): TaskData
      reads this
    {
      TaskData(step, walkLeft, ashSpriteId)
    }

    /** `Task_RunTrainerSeeFuncList`, one tick. */
    method Run(e: Env) returns (cmds: seq<Command>)
      requires !handedOff
      modifies this
      ensures Data() == Tick(old(Data()), e).data
      ensures cmds == Tick(old(Data()), e).cmds
      ensures handedOff <==> SwitchToFollowup in cmds
      ensures trainerId == old(trainerId) && followup == old(followup)
    {
      if !e.trainer.active {
        handedOff := true;
        return [SwitchToFollowup];
      }
      var d;
      d, cmds := RunSeeFuncList(Data(), e);
      step, walkLeft, ashSpriteId := d.step, d.walkLeft, d.ashSpriteId;
      handedOff := SwitchToFollowup in cmds;
    }

    /** The part of `sub_80B40C8` that acts on the task: install the follow-up, set `tFuncId`
        to 1, and run the list once at once. */
    method Restart(f: Followup, e: Env) returns (cmds: seq<Command>)
      modifies this
      ensures followup == f && trainerId == old(trainerId)
      ensures Data() == Tick(old(Data()).(step := Exclaim), e).data
      ensures cmds == Tick(old(Data()).(step := Exclaim), e).cmds
      ensures handedOff <==> SwitchToFollowup in cmds
    {
      followup, handedOff, step := f, false, Exclaim;
      cmds := Run(e);
    }
  }

  // ---------------------------------------------------------------------------------------------
  // The hidden-trainer reveal task (sub_80B44C8)

  /** `sTrainerSeeFuncList2`: the four hidden-trainer entries of the main table, shared with it.
      The task's `data[3]` is never written and stays 0. */
  function HiddenFunc(i: int, a: u8, e: Env): (o: Outcome)
    requires 0 <= i < 4
    ensures 0 <= Apply(i, o.tr) < 4
    ensures !o.again
  {
    SeeFunc(StepAt(8 + i), 0, a, e)
  }

  /** The reveal task's `data[0]`, whether `data[7]` is set, and `data[4]`. */
  datatype RevealData = RevealData(index: int, cleared: bool, ashSpriteId: u8)

  datatype RevealResult = RevealResult(data: RevealData, destroyed: bool, cmds: seq<Command>)

  /** One tick of `sub_80B44C8`. */
  function RevealTick(d: RevealData, e: Env): (r: RevealResult)
    requires 0 <= d.index < 4
    ensures 0 <= r.data.index < 4 && r.data.cleared
    ensures ClearHeldMovement in r.cmds <==> !d.cleared
    ensures r.destroyed ==> r.data.index == 3 && !e.ashActive
    ensures r.destroyed <==> DestroyTask in r.cmds
  {
    var c0 := if d.cleared then [] else [ClearHeldMovement];
    var o := HiddenFunc(d.index, d.ashSpriteId, e);
    var i := Apply(d.index, o.tr);
    var f := e.trainer.facing;
    if i == 3 && !e.ashActive then
      RevealResult(RevealData(i, true, o.ashSpriteId), true,
                   c0 + o.cmds + [SetFacingMovementType(f), TryOverrideTemplateCoords(f), DestroyTask])
    else
      RevealResult(RevealData(i, true, o.ashSpriteId), false, c0 + o.cmds + [ResetHeldMovementFinished])
  }

  /** How a tick of the reveal task ends: once the entry has reached 3 and the ash effect is over,
      the trainer's movement type is set back to its facing direction's, made permanent, and the
      task destroys itself; on every other tick the held movement is marked unfinished again. */
  lemma RevealTickEnds(d: RevealData, e: Env)
    requires 0 <= d.index < 4
    ensures var r := RevealTick(d, e);
      (r.destroyed <==> r.data.index == 3 && !e.ashActive)
      && (r.destroyed ==>
            |r.cmds| >= 3 && r.cmds[|r.cmds| - 3..] ==
              [SetFacingMovementType(e.trainer.facing), TryOverrideTemplateCoords(e.trainer.facing), DestroyTask])
      && (!r.destroyed ==> |r.cmds| >= 1 && r.cmds[|r.cmds| - 1] == ResetHeldMovementFinished)
  {
  }

  /** A freshly created reveal task with a cooperative engine: the trainer turns to face the
      player, the ash effect starts, the trainer jumps at the effect's third frame, and the task
      ends, restoring the trainer's movement type, once the effect is over. */
  lemma HiddenRevealCompletes(e1: Env, e2: Env, e3: Env, e4: Env)
    requires !e1.trainerOverridden && e2.trainerHeldStatus
    requires e3.animCmdIndex(e2.newAshSpriteId) == 2 && e3.ashActive && !e4.ashActive
    ensures var r1 := RevealTick(RevealData(0, false, 0), e1);
            var r2 := RevealTick(r1.data, e2);
            var r3 := RevealTick(r2.data, e3);
            var r4 := RevealTick(r3.data, e4);
            !r1.destroyed && !r2.destroyed && !r3.destroyed && r4.destroyed
            && r1.cmds == [ClearHeldMovement, SetHeldMovement(Trainer, FacePlayer), ResetHeldMovementFinished]
            && r2.data.ashSpriteId == e2.newAshSpriteId
            && StartFieldEffect(PopOutOfAsh, [e2.trainer.coords.x, e2.trainer.coords.y, e2.trainerSubpriority - 1, 2]) in r2.cmds
            && SetHeldMovement(Trainer, JumpInPlace(e3.trainer.facing)) in r3.cmds
            && SetFacingMovementType(e4.trainer.facing) in r4.cmds
            && TryOverrideTemplateCoords(e4.trainer.facing) in r4.cmds
  {
    var r1 := RevealTick(RevealData(0, false, 0), e1);
    assert r1.data == RevealData(1, true, 0);
    var r2 := RevealTick(r1.data, e2);
    assert r2.data == RevealData(2, true, e2.newAshSpriteId);
    var r3 := RevealTick(r2.data, e3);
    assert r3.data.index == 3;
  }

  /** The task created by `sub_80B4578` for one trainer object. */
  class RevealTask {
    const target: ObjectEvent  // the pointer stored in data[1..2]
    var index: int             // data[0]
    var cleared: bool          // data[7] != 0
    var ashSpriteId: u8        // data[4]
    var destroyed: bool

    /** `sub_80B4578`: a task with zeroed data that remembers the object. */
    constructor (obj: ObjectEvent)
      ensures target == obj && Data() == RevealData(0, false, 0) && !destroyed
    {
      target := obj;
      index, cleared, ashSpriteId, destroyed := 0, false, 0, false;
    }

    function Data(): RevealData
      reads this
    {
      RevealData(index, cleared, ashSpriteId)
    }

    /** `sub_80B44C8`, one tick. */
    method Run(e: Env) returns (cmds: seq<Command>)
      requires 0 <= index < 4 && !destroyed
      requires e.trainer == target.View()
      modifies this
      ensures 0 <= index < 4
      ensures Data() == RevealTick(old(Data()), e).data
      ensures destroyed == RevealTick(old(Data()), e).destroyed
      ensures cmds == RevealTick(old(Data()), e).cmds
    {
      cmds := [];
      if !cleared {
        cmds := [ClearHeldMovement];
        cleared := true;
      }
      var o := HiddenFunc(index, ashSpriteId, e);
      index, ashSpriteId := Apply(index, o.tr), o.ashSpriteId;
      cmds := cmds + o.cmds;
      if index == 3 && !e.ashActive {
        var f := target.facing;
        cmds := cmds + [SetFacingMovementType(f), TryOverrideTemplateCoords(f), DestroyTask];
        destroyed := true;
      } else {
        cmds := cmds + [ResetHeldMovementFinished];
      }
    }
  }
}
