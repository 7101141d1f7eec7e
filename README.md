# Trainer sight in pokeemerald, modelled in Dafny

This project models `src/trainer_see.c` of the pokeemerald decompilation: the code that decides
whether an overworld trainer has seen the player, records at most two such trainers, runs the
state machine that walks each trainer up to the player, and animates the "!", "?" and heart
icons above them.

The files:

- `fixed.dfy` (`Fixed`): the C integer widths (`u8`, `s16`, 4-bit fields) and `s16` wrap-around.
- `objects.dfy` (`Objects`): the object-event fields the code reads and writes (`ObjectView`, and
  the `ObjectEvent` class that holds them), directions, tiles, movement actions. It also holds the
  `World` oracles standing for `MoveCoords`, `GetCollisionFlagsAtCoords` and `GetCollisionAtCoords`.
- `sight.dfy` (`Sight`): the four directional distance functions and `CheckPathBetweenTrainerAndPlayer`.
  It also has `GetTrainerApproachDistance`, with a reference definition of sight (`SeesAt`).
- `approach.dfy` (`Approach`): the twelve step functions of `sTrainerSeeFuncList` and one tick of
  `Task_RunTrainerSeeFuncList`. The approach task is a class. There is also the hidden-trainer reveal
  task (`sub_80B44C8`, `sub_80B4578`).
- `detection.dfy` (`Detection`): the file's globals as the class `TrainerSee`, with
  `CheckForTrainersWantingBattle`, `CheckTrainer` and `TrainerApproachPlayer`. It also holds the
  battle set-up, the cursor over the two trainers, the two lookups and `PlayerFaceTrainerAfterBattle`.
- `icons.dfy` (`Icons`): the three icon field effects, `SetIconSpriteData` and the hop made by
  `SpriteCB_TrainerIcons`.

State that the C code updates in place is in classes:

- `ObjectEvent`: its range nybbles are overwritten and then restored.
- `ApproachTask` and `RevealTask`: the task data.
- `TrainerSee`: `gApproachingTrainers`, the counters, the cursor and the post-battle movement script.
- `TrainerIcon`: the sprite data.

Each method is proved against a pure function of the old state, and the properties are lemmas
about those functions.

The rest of the game is reached through parameters:

- `World` for the map;
- `Env` for the engine's answers during one task tick, where `Env.trainer` is the view of the object event the task's `trainerId` names (the `trainerObj` that `Task_RunTrainerSeeFuncList` looks up);
- `Context` for the facility flags, scripts and the doubles check during a scan.

The calls the code makes into the engine are returned as logged `Command` and `Call` values.

The sight range is inclusive. A range-4 trainer at (5, 5) facing south sees a player at (5, 9),
four tiles away (`Sight.EdgeOfRangeSouth`). The first tile out of sight is (5, 10)
(`Sight.OutOfRangeSouth`). This follows the comparison `y <= ty + range` in
src/trainer_see.c:315.

## Model

| member | source | states |
|---|---|---|
| Sight.DistanceSouth | src/trainer_see.c:311-319 | Nonzero only when the player is in the trainer's column, 1 to range tiles south, and then it is that number of tiles. Whenever the player is k tiles south within range, it is k. Never above the range. |
| Sight.DistanceNorth | src/trainer_see.c:322-330 | The same, for the player north of the trainer. |
| Sight.DistanceWest | src/trainer_see.c:333-341 | The same, for the player west of the trainer in the same row. |
| Sight.DistanceEast | src/trainer_see.c:344-352 | The same, for the player east of the trainer in the same row. |
| Sight.Distance | src/trainer_see.c:65-71 | The table entry for a direction has the same exact characterisation, along that direction. |
| Sight.AtMostOneDirection | src/trainer_see.c:311-352 | At most one of the four directions gives a nonzero distance for a pair of positions. |
| Sight.SightOrderIsCodeOrder | src/trainer_see.c:299-303 | Table entry i of the all-direction loop is the direction with code i + 1 (south 1, north 2, west 3, east 4). |
| Sight.BlockingIsAnyBitButBitZero | src/trainer_see.c:373-374 | A tile stops the sight line exactly when its collision flags have a bit other than bit 0 set. |
| Sight.BlockedTileRejects | src/trainer_see.c:370-375 | A blocking tile strictly between trainer and player makes the path check return 0, whatever the final tile holds. |
| Sight.CheckPathBetweenTrainerAndPlayer | src/trainer_see.c:356-392 | Returns `PathCheck` of the trainer's old fields: 0 for distance 0 or a blocked intermediate tile; otherwise the distance exactly when the final tile, queried with both range nybbles cleared, reports an object event (4). So the result is 0 or the distance. The range nybbles and every other field end as they were. |
| Sight.FirstInSight | src/trainer_see.c:299-305 | The all-direction loop from entry i never returns more than the trainer's range. |
| Sight.ApproachDistance | src/trainer_see.c:285-308 | What `GetTrainerApproachDistance` returns; never more than the trainer's range. |
| Sight.ApproachDistanceCharacterised | src/trainer_see.c:285-308 | A type-1 trainer uses only its facing direction. Any other trainer gets the path-checked distance along the one direction in which the player stands within range, or 0 when there is none. So the scan order never changes the answer. |
| Sight.ApproachDistanceSound | src/trainer_see.c:285-308 | A nonzero result is the exact number of tiles to the player along some direction, and that direction passed the path check. For a type-1 trainer it is the facing direction. |
| Sight.GetTrainerApproachDistance | src/trainer_see.c:285-308 | The method returns `ApproachDistance` of the trainer's old fields and leaves the trainer as it was. |
| Sight.SeenThreeTilesSouth | src/trainer_see.c:311-392 | Worked case on an open map: a range-4 south-facing trainer at (5, 5) sees the player at (5, 8) at distance 3. |
| Sight.EdgeOfRangeSouth | src/trainer_see.c:311-319 | The same trainer sees (5, 9) at distance 4: the range is inclusive. |
| Sight.OutOfRangeSouth | src/trainer_see.c:311-319 | The same trainer does not see (5, 10), whatever the map holds. |
| Sight.BlockedSouth | src/trainer_see.c:356-375 | A blocking tile at (5, 6) hides a player at (5, 7). |
| Approach.SeeFunc | src/trainer_see.c:440-592 | The table of the twelve step functions `Approach.NoOp`, `TrainerExclamationMark`, `WaitTrainerExclamationMark`, `TrainerMoveToPlayer`, `PlayerFaceApproachingTrainer`, `WaitPlayerFaceApproachingTrainer`, `RevealDisguisedTrainer`, `WaitRevealDisguisedTrainer`, `RevealHiddenTrainer`, `PopOutOfAshHiddenTrainer`, `JumpInPlaceHiddenTrainer` and `WaitRevealHiddenTrainer`. Every one leaves a valid table index. Only steps 1 and 2 return TRUE, and only step 5 switches to the follow-up. |
| Approach.IdleTaskWaits | src/trainer_see.c:440-443 | A task at step 0 never moves on, however many ticks run. While its trainer is active it makes no engine call. |
| Approach.WalkStepMoves | src/trainer_see.c:474-490 | Step 3 gives a busy trainer nothing. A free trainer gets one walking step in its facing direction while the counter is nonzero, and FACE_PLAYER once it is 0. |
| Approach.WalkTick | src/trainer_see.c:474-490 | One tick at step 3. A busy trainer gets nothing and the task waits. A free one gets a walk and the 16-bit counter drops by one, wrapping as an `s16` does, or, at counter 0, gets FACE_PLAYER and the task moves to step 4. The finished movement is cleared exactly when it was overridden, and the task never hands over. |
| Approach.WalkPhase | src/trainer_see.c:474-490 | Over ticks at step 3 that find the trainer free at most n times, n being the counter: each free tick gives one walk and lowers the counter. Busy ticks give nothing. The task stays at step 3 and does not hand over. |
| Approach.RunStep | src/trainer_see.c:436 | One call of the current entry; when it returns TRUE, the next entry is ranked lower, so the chain is finite. |
| Approach.Chain | src/trainer_see.c:436 | The `while` loop runs between 1 and Rank + 1 step functions. |
| Approach.Tick | src/trainer_see.c:425-438 | One tick of `Task_RunTrainerSeeFuncList` runs at most three step functions. |
| Approach.ChainHandOff | src/trainer_see.c:513-521 | Within one tick's chain, `SwitchTaskToFollowupFunc` is called exactly when the chain starts at step 5 and the player's movement is done. |
| Approach.HandOffOnlyFromWaitPlayerFace | src/trainer_see.c:425-438 | A tick hands over to the follow-up exactly when the trainer object is inactive, or the task is at step 5 and the player's movement is done. |
| Approach.WaitExclaimBranches | src/trainer_see.c:457-472 | Once the exclamation mark is gone, step 2 goes to 8 for a hidden trainer, to 6 for a tree or mountain disguise, else to 3, and returns TRUE. |
| Approach.RevealsReturnToWalk | src/trainer_see.c:534-592 | Steps 7 and 11 either stay or go back to step 3. Step 7 goes back when the trainer's movement finished; step 11 when the ash effect is over. |
| Approach.WalkThenFacePlayer | src/trainer_see.c:474-490 | From step 3 with counter n, take ticks that find the trainer free n + 1 times, the last tick being one of them; busy ticks may come in between. The movements given to the trainer are then exactly n walking steps in its facing direction followed by FACE_PLAYER. The task ends at step 4 with the counter at 0. |
| Approach.PlayerFaceOutcome | src/trainer_see.c:492-511 | Step 4 does nothing else while the trainer is busy. Once the trainer is free, its facing movement type is set. Once the player is free too, the player is turned to face the opposite of the trainer's facing, as the last call after the movement type, and the task moves to step 5. The trainer itself is given no movement. |
| Approach.WaitingStepOrder | src/trainer_see.c:445-472 | For a disguised trainer, steps 1 and 2 give neither a walk nor the reveal, and the task stays at steps 1, 2 or 6. |
| Approach.RevealStepOrder | src/trainer_see.c:523-532 | Step 6 gives no walk; it gives the reveal exactly once when it moves on to step 7, and not at all while it waits at step 6. |
| Approach.EarlyStepOrder | src/trainer_see.c:445-532 | For a disguised trainer, steps 1, 2 and 6 give no walk and never lead to step 0 or to the hidden-trainer steps. The reveal is given, once, exactly when the step leads past step 6. |
| Approach.LateStepOrder | src/trainer_see.c:474-540 | Steps 7, 3, 4 and 5 give no reveal and lead only to one another. |
| Approach.StepKeepsRevealOrder | src/trainer_see.c:445-540 | One step function keeps the reveal order for a disguised trainer: no reveal before step 7, exactly one from then on, and no walk before the reveal. |
| Approach.TickKeepsRevealOrder | src/trainer_see.c:425-438 | One tick, with all its chained steps, keeps the reveal order. |
| Approach.RunKeepsRevealOrder | src/trainer_see.c:425-540 | Every prefix of a run keeps the reveal order. |
| Approach.DisguisedTrainerRevealsBeforeWalking | src/trainer_see.c:445-540 | For a disguised trainer started at step 1, over any ticks whatever the engine answers: no walking step is ever given before the reveal, and the reveal is never given twice. It has been given exactly when the task is past step 6, and the hidden-trainer branch is never taken. |
| Approach.ExclaimTick | src/trainer_see.c:445-463 | A tick at step 1 while the "!" shows runs two step functions: the icon is started and the trainer turned, then step 2 waits at step 2. Nothing else in the task data changes. |
| Approach.WaitExclaimRevealTick | src/trainer_see.c:457-532 | Once the "!" has gone, a disguised trainer whose turn has finished gets, in one tick of two step functions, the clear and then the reveal, and the task moves to step 7 with its counter kept. |
| Approach.WaitRevealDoneTick | src/trainer_see.c:534-540 | Once the reveal has finished, step 7 clears it and sends the task back to step 3, keeping the counter. |
| Approach.PlayerFaceDoneTick | src/trainer_see.c:492-511 | A tick at step 4 with trainer and player both free moves the task to step 5, keeping the counter. |
| Approach.CooperativeRunTick | src/trainer_see.c:425-540 | For any tick k of a run, each of the transitions above holds when the engine answers that way, and step 5 leaves the data unchanged. The tick hands over exactly at step 5 with the player free. |
| Approach.DisguisedTrainerTrace | src/trainer_see.c:445-540 | On the first tick the "!" is still showing, so steps 1 and 2 run. On the second the turn has finished and step 2 runs into the reveal. On the third the reveal has finished and the task is back at step 3 with its counter and ash sprite unchanged, so the walk lemmas apply to it. The calls are the icon, the turn, a clear, the reveal and a clear. |
| Approach.DisguisedTrainerRunCompletes | src/trainer_see.c:425-540 | A disguised trainer next to the player (counter 0) gets six ticks in which the engine lets each movement finish. The run reaches the follow-up on the sixth tick and on no earlier tick. It gives the reveal exactly once, and no walk comes before it. |
| Approach.RunSeeFuncList | src/trainer_see.c:436 | The `while` loop as a method: its final step and commands are those of `Chain`. |
| Approach.FollowupCommands | src/trainer_see.c:634-638 | The destroy follow-up calls `DestroyTask` and then `EnableBothScriptContexts`, in that order. No follow-up makes no call. There is no re-enable without a destroy. |
| Approach.ApproachTask.constructor | src/trainer_see.c:399-407 | A new task is at step 0 with `tTrainerRange` = range, the trainer's object id, and no follow-up. |
| Approach.ApproachTask.Run | src/trainer_see.c:425-438 | New task data and commands are those of `Tick`. The task is marked handed over exactly when it called `SwitchTaskToFollowupFunc`. |
| Approach.ApproachTask.Restart | src/trainer_see.c:419-422 | `sub_80B40C8` on the task: installs the follow-up, sets `tFuncId` to 1, and runs one tick from there. |
| Approach.HiddenFunc | src/trainer_see.c:89-95 | The four entries of `sTrainerSeeFuncList2` keep the index within the short table and never return TRUE. |
| Approach.RevealTick | src/trainer_see.c:599-622 | The index stays in range. The held movement is cleared exactly on the first tick. The task is destroyed only at index 3 with no ash effect active, and exactly when it calls `DestroyTask`. |
| Approach.RevealTickEnds | src/trainer_see.c:613-621 | A tick destroys the task exactly when the entry has reached 3 and the ash effect is over. It then ends with setting the trainer's movement type back to its facing direction's, making that permanent, and `DestroyTask`, in that order. Every other tick ends by marking the held movement unfinished. |
| Approach.HiddenRevealCompletes | src/trainer_see.c:599-622 | With a cooperative engine, the reveal task first turns the trainer. It then starts the ash effect at the trainer's coordinates and keeps the sprite id it returns, and makes the trainer jump at the effect's frame 2. On the fourth tick it restores the trainer's movement type and is destroyed. |
| Approach.RevealTask.constructor | src/trainer_see.c:624-627 | `sub_80B4578` creates a zeroed task that remembers the trainer object. |
| Approach.RevealTask.Run | src/trainer_see.c:599-622 | New data, destruction and commands are those of `RevealTick`. |
| Detection.CheckTrainerSpec | src/trainer_see.c:232-283 | A trainer is recorded exactly when three things hold: its facility's flag (Pyramid, Hill or script) is clear; its approach distance is nonzero; and it is not a double-battle trainer when no double battle is possible. It is then recorded with its object id, its script (the Hill's inside the Trainer Hill) and its radius, from 1 to its range. The result is 2 exactly for a double-battle script. |
| Detection.VerdictsMeaning | src/trainer_see.c:186-283 | A slot's verdict records a trainer exactly when the object is active, has trainer type 1 or 3, and would be recorded; it records the slot's own object id. |
| Detection.ScanFromShape | src/trainer_see.c:182-202 | From slot i, the loop adds trainers (at most two in all), each the verdict of its own slot, in slot order. A double-battle trainer comes only last. A second trainer only when double battles are possible. |
| Detection.ScanFromComplete | src/trainer_see.c:182-202 | No slot the loop passed over records a trainer: none when it adds nobody, none before its first trainer, none between its two. |
| Detection.LoneTrainerFrom | src/trainer_see.c:198-201 | When double battles are possible and the loop adds one ordinary trainer only, no later slot records one. |
| Detection.ScanProperties | src/trainer_see.c:175-202 | The whole scan holds at most two trainers, each one that sees the player and may fight now, in slot order. When there are two, the first is not a double-battle trainer and double battles are possible. The scan is empty exactly when nobody sees the player. The first trainer is the lowest slot that sees the player, and no slot between the two does. |
| Detection.LoneTrainerMeansNoOther | src/trainer_see.c:198-201 | A single ordinary trainer while double battles were possible means no later slot sees the player. |
| Detection.BattleSetup | src/trainer_see.c:204-229 | One trainer gives a reset and a one-trainer battle with slot 0. Two give a reset, both slots configured in order with the cursor at 0 and then 1, and `SetUpTwoTrainersBattle`. None gives no call. |
| Detection.EverySightingBattles | src/trainer_see.c:204-229 | Every recorded trainer is set up in the battle. |
| Detection.PrepareSecond | src/trainer_see.c:640-661 | The result is TRUE exactly for count 2 and cursor 0. With count 2 the cursor toggles; otherwise it is unchanged. |
| Detection.PrepareSecondAlternates | src/trainer_see.c:640-661 | With two trainers, two calls answer TRUE then FALSE, or FALSE then TRUE, and bring the cursor back. With fewer, both answer FALSE and the cursor stays. |
| Detection.TrainerSee.constructor | src/trainer_see.c:51-58 | The globals start zeroed, with no task. |
| Detection.TrainerSee.TrainerApproachPlayer | src/trainer_see.c:399-407 | Starts a fresh task for the trainer in slot `count`, at step 0 with `range` tiles to walk. No other slot changes. |
| Detection.TrainerSee.CheckTrainer | src/trainer_see.c:232-283 | Returns 0, 1 or 2 as `CheckTrainerSpec` decides. On a find, records the sighting in slot `count`, starts its task with radius - 1, and increments the count. On 0, the registry is untouched. |
| Detection.TrainerSee.CheckForTrainersWantingBattle | src/trainer_see.c:175-229 | Count and cursor end as the scan and set-up decide: the count is the scan's length, the cursor is 0. The approached flag and the result are "someone was found". The calls are `BattleSetup` of the scan. Each recorded slot holds its sighting and a started task; the other slots are untouched. The objects end as they were. |
| Detection.TrainerSee.ScanObjectEvents | src/trainer_see.c:182-202 | The loop records exactly `Scan` of the objects' fields, one started task per recorded slot. |
| Detection.TrainerSee.ScanSlot | src/trainer_see.c:186-201 | One turn of the loop skips a non-candidate. When it stops, the recorded list is the scan's final answer; when it goes on, the rest of the scan from the next slot gives the same answer. Every recorded slot keeps a task started for its trainer, and the slots not yet recorded keep what they held before the scan. |
| Detection.TrainerSee.SetUpBattle | src/trainer_see.c:204-229 | Makes exactly the `BattleSetup` calls, sets the approached flag to "count is nonzero", and leaves the cursor at 0. |
| Detection.TrainerSee.RunApproachTask | src/trainer_see.c:409-423 | The cursor's task gets the follow-up and runs one tick from step 1, as `Tick` says. |
| Detection.TrainerSee.EndTrainerApproach | src/trainer_see.c:629-632 | The same, with `Task_DestroyTrainerApproachTask` as the follow-up: the task keeps its trainer. Its follow-up destroys the task and then re-enables both script contexts. |
| Detection.TrainerSee.TryPrepareSecondApproachingTrainer | src/trainer_see.c:640-661 | Cursor and `gSpecialVar_Result` as `PrepareSecond` says. Moving to the second trainer unfreezes everyone and freezes all but it. |
| Detection.TrainerSee.CurrentApproachingTrainerObjectEventId | src/trainer_see.c:750-756 | The object id in the slot under the cursor. |
| Detection.TrainerSee.ChosenApproachingTrainerObjectEventId | src/trainer_see.c:758-766 | The object id in slot `arrayId`, or the literal 0 for an index past the array. |
| Detection.TrainerSee.ChosenAtCursorIsCurrent | src/trainer_see.c:750-766 | Choosing the cursor's slot gives the current trainer. |
| Detection.TrainerSee.PlayerFaceTrainerAfterBattle | src/trainer_see.c:768-788 | The script becomes "face the direction opposite the trainer's facing" after an approach, else "face the player's own direction", followed by STEP_END. The rest of the script is untouched. Then it is started for the player, and the player becomes the moving object. |
| Detection.FacingAfterBattle | src/trainer_see.c:775-783 | After an approach the player faces the direction opposite the trainer's facing, never the trainer's own facing. Otherwise the player keeps its facing. |
| Detection.PlayerTurnsTowardTrainer | src/trainer_see.c:768-788 | A trainer that saw the player k tiles away and walked k - 1 tiles stands on the tile the player faces after turning. |
| Icons.BounceFollowsTrace | src/trainer_see.c:713-739 | The hop after 0 to 11 ticks: offsets 0, -5, -9, -12, -14, -15, -15, -14, -12, -9, -5, 0, with the step climbing from -5 to 5. |
| Icons.BounceSettles | src/trainer_see.c:723-739 | From tick 11 on, step and offset stay at the fixed point (0, 0). |
| Icons.BounceBounded | src/trainer_see.c:713-739 | The offset always lies in [-15, 0] and the step in [-5, 5]. |
| Icons.BounceLevelExactly | src/trainer_see.c:713-739 | The offset is 0 exactly before the first tick and from tick 11 on. |
| Icons.TrainerIcon.constructor | src/trainer_see.c:705-717 | Priority 1, coordinate offset on, the three field-effect arguments truncated to 16 bits, `data[3]` = -5, and the effect id and animation given. |
| Icons.TrainerIcon.Callback | src/trainer_see.c:719-741 | Stops the field effect, changing nothing else, when the lookup fails or the animation has ended. Otherwise it advances the hop by one `BounceTick`, puts the icon 16 pixels above the trainer's sprite and `data[4]` higher in `pos2.y`, and keeps the offset in [-15, 0]. |
| Icons.ExclamationMarkIconEffect | src/trainer_see.c:670-678 | With a free sprite, a "!" icon at subpriority 0x53 with animation 0; without one, no icon. Returns 0. |
| Icons.QuestionMarkIconEffect | src/trainer_see.c:680-688 | With a free sprite, a "?" icon at subpriority 0x52 with animation 1. Returns 0. |
| Icons.HeartIconEffect | src/trainer_see.c:690-703 | With a free sprite, a heart icon at subpriority 0x52 with animation 0 and palette 2. Returns 0. |

## Left out

- Graphics, OAM data, sprite templates and animation tables (src/trainer_see.c:61-172): constant data with no behaviour. Only the template palette 0 and the two animation numbers are used.
- The engine as oracles. `MoveCoords`, the collision queries, the held-movement engine, field-effect start/active/stop, facility flags, script pointers and `GetMonsStateToDoubles_2` are parameters. Their implementations are not part of this model.
- Engine answers are a snapshot per tick: the steps chained in one tick see the same answers.
- The task scheduler. `CreateTask`, `SetTaskFuncWithFollowupFunc`, `SwitchTaskToFollowupFunc` and `DestroyTask` become a flag and logged commands. A task id is modelled as the task object itself.
- The follow-up function: only whether it is the destroy function is modelled. A task created by `TrainerApproachPlayer` has no follow-up until `sub_80B40C8` installs one.
- `StoreWordInTwoHalfwords`/`LoadWordFromTwoHalfwords` (src/trainer_see.c:605, 626): the stored object pointer is a field holding the object.
- The direction and movement-action tables, `sub_808BCE8` and `SetTrainerMovementType`: actions are named values. `GetOppositeDirection` is defined outside this file; it is modelled as `Objects.Opposite` on the four cardinal directions.
- New tasks and sprites start with zeroed data, as the engine's allocators give them.
- `facingDirection` is one of the four cardinal directions. The table index `facingDirection - 1` is outside this file's control for other values.
- Freezing, unfreezing and script contexts appear only as logged calls.
- Detection.TrainerSee.ScanObjectEvents: only `CheckTrainer` states that a recorded slot's task is fresh; the scan-level contract does not repeat it.
- Detection.TrainerSee.PlayerFaceTrainerAfterBattle: requires `gWhichTrainerToFaceAfterBattle` to be 0 or 1 after an approach, because the C code would read past `gApproachingTrainers` otherwise. It also requires that slot's object event id to be below 16, the number of object events; `CheckTrainer` only ever records such ids, but `Valid()` does not carry that bound.
- Icons.TrainerIcon.Callback: requires that the sprite has not been stopped. A stopped icon's sprite is freed and its callback never runs again.
- Sprite positions other than the ones the callback writes, and the animation engine's `animEnded`, are inputs.
