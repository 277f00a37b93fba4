# Chao Garden behaviour engine, modelled in Dafny

This project models the webview core of the Chao Garden VS Code extension.
In that core, small creatures ("chao") walk, fly, sit, fall and watch code
inside a panel. A roster keeps the chao on the panel and persists it.

The model covers these parts of the core:

- **Tuning constants** (`Constants`): probabilities and durations, proved to
  be consistent with one another.
- **State tags and directions** (`ChaoStates`).
- **The nine behaviour states** (`StateVariants`). Each state is a value that
  carries its own data: the idle start time, the moving steps, the fall
  direction and whether the chao can still move while falling. The module
  also gives each state's gif asset name, its mirror scale and its one-step
  move.
- **The gif URI table** (`GifUriHelper`, `ChaoGifs`). The module-level
  singletons become small classes.
- **The pure part of a chao** (`ChaoSpec`): the position clamp, sizes, type
  selection, name normalisation and the random start position.
- **The movement engine** (`MovementSpec`). `Tick` is a function for one
  100 ms tick, and `AfterFallingTimer` and its siblings are functions for
  each timer callback. Lemmas about them state the behaviour the engine
  promises.
- **The two mutable classes** (`ChaoAgent`): `Chao` and `ChaoMovement`.
  Their methods update fields in place and are proved equal to the functions
  of `MovementSpec`. For example, `UpdatePosition` leaves the chao and its
  movement record equal to `Tick` of their old values.
- **The panel roster** (`Panel`, with the pure roster functions in
  `RosterSpec`): spawning, the ten-chao cap, deletion, loading, patching
  against saved records, and listing.

## How the outside world enters the model

- **Random draws.** Every `Math.random()` value the code draws is an explicit
  input: `Draws` for one tick, and `typeDraw` / `positionDraw` for a created
  chao.
- **Time.** The current time `now` is an input. All `Date.now()` calls within
  one tick are assumed to read the same value.
- **Widths.** The window width and the rendered gif width come in as a
  `Viewport`.
- **Sidebar side.** The explorer sidebar side is an input string. The code
  reads it from `getSidebarPosition`, which `src/panel/main.ts` does not
  export.
- **Code-watch constants.** `CODE_WATCH_PROBABILITY` and
  `PAUSE_BETWEEN_CODE_WATCH_MS` are imported by `src/chao/chaoMovement.ts`,
  but `src/calculationConstants.ts` does not define them. The model takes
  them as a `CodeWatch` parameter whose two fields are optional.
  `CodeWatchAsWritten` leaves both undefined, as the code has them; then the
  code-watch block never runs (`CodeWatchNeverRunsAsWritten`).
- **Timers.** A `setTimeout` handle is modelled as an optional deadline. A
  callback is a `Fire…` method that acts only when its deadline is due.
  Clearing a timer empties its slot.
- **Falsy values.** JavaScript's falsy `||` defaults are written out:
  - `Elapsed` counts a start time of 0 or none as zero elapsed time;
  - `NormalizeName` turns an empty name into none;
  - `InitialChaoType` treats an empty type as "pick at random".
- **Animation interval.** The interval is a flag. A ghost counter of live
  intervals shows that start and stop never leave two intervals running.

### Behaviour kept as written

The missing asset hook is not kept: it is a finding (see "## Findings"), and
the model uses the setter as intended.

- **Position clamp.** The setter clamps to `[0, innerWidth - gifWidth]` by
  testing `< 0` first and `> max` second. When `max` is negative, a
  non-negative value therefore lands on the negative `max`, and a negative
  value lands on 0. The model keeps this
  (`ClampHasNoFloorBelowNegativeMax`, `ReclampIsIdempotentIffRangeNonNegative`).
- **Duplicate ids in the change test.** `patchChaoState` tests for changes
  with a length comparison plus one-way inclusion. With duplicate ids on the
  roster, this test can miss a record (`DuplicateIdsHideAMissingRecord`).
  With distinct ids, the patch leaves exactly the record ids on the roster
  (`PatchSynchronisesIds`).

## Model

| member | source | states |
|---|---|---|
| Constants.ConstantsAreConsistent | src/calculationConstants.ts:3-24 | every chance and step increase is a probability, each base is at most its cap, step intervals are positive, the minimum walking time before a fall is below the minimum walking time, and the fall movement window ends before the fall |
| ChaoStates.EightDistinctTags | src/chao/chaoState.ts:2-11 | the enum lists exactly eight tags, no two equal, and every tag is among them |
| ChaoStates.DirectionValue | src/chao/chaoState.ts:13-16 | a direction's string value is "left" exactly for Left, and "right" otherwise |
| GifUriHelper.GenerateGifUri | src/gifUriHelper.ts:17-35 | the stored URI when the table is initialised and holds the type and the state name; otherwise the empty string |
| GifUriHelper.GeneratedUriIsStored | src/gifUriHelper.ts:17-35 | a non-empty generated URI is one of the URIs stored for that chao type |
| GifUriHelper.GifUriRegistry.constructor | src/gifUriHelper.ts:7 | the global table starts uninitialised |
| GifUriHelper.GifUriRegistry.InitializeGifUris | src/gifUriHelper.ts:13-15 | the global table becomes the given table |
| ChaoGifs.GifUri | src/chao/chaoGifs.ts:25-28 | `createGifUri`: `base/type/type_file.gif`; its table properties are stated by `TypeGifsContents` |
| ChaoGifs.ReplaceFirst | src/chao/chaoGifs.ts:30-32 | `String.replace` with a string pattern: the first occurrence is replaced; `ReplaceFirstWithoutOccurrence` states that a string without the pattern is unchanged |
| ChaoGifs.ReplaceFirstWithoutOccurrence | src/chao/chaoGifs.ts:30-32 | `replace` leaves a string without the pattern unchanged |
| ChaoGifs.MissingFirstCharacter | src/chao/chaoGifs.ts:30-32 | a string lacking the pattern's first character does not contain the pattern |
| ChaoGifs.ExtractStateName | src/chao/chaoGifs.ts:30-32 | `extractStateName`: the file name with its first ".gif" removed; `StateNamesAreFileNames` states it is the identity on the listed files |
| ChaoGifs.StateNamesAreFileNames | src/chao/chaoGifs.ts:3-11 | stripping ".gif" from every listed gif file leaves the file name itself |
| ChaoGifs.TypeGifs | src/chao/chaoGifs.ts:35-39 | the inner `reduce` over the gif files; its contents are stated by `TypeGifsContents` |
| ChaoGifs.TypeTable | src/chao/chaoGifs.ts:34-41 | the outer `reduce` over the chao types; its contents are stated by `TypeTableContents` |
| ChaoGifs.BuildChaoTypeUris | src/chao/chaoGifs.ts:34-41 | the table for all chao types and gif files; its shape is stated by `ChaoTypeUrisShape` |
| ChaoGifs.TypeGifsContents | src/chao/chaoGifs.ts:35-39 | the per-type reduce maps exactly the listed files, each to `base/type/type_file.gif` |
| ChaoGifs.TypeTableContents | src/chao/chaoGifs.ts:34-41 | the outer reduce maps exactly the listed chao types, each to its per-type table |
| ChaoGifs.ChaoTypeUrisShape | src/chao/chaoGifs.ts:17-43 | the built table has the three chao types, each with the seven gif names, each mapped to its URI |
| ChaoGifs.GeneratedUrisFromBuiltTable | src/chao/chaoGifs.ts:3-11 | generating from the built table gives the file URI for a listed gif, and "" for the code-watch gifs, which are not listed |
| ChaoGifs.CodeWatchGifsAreNotListed | src/chao/chaoGifs.ts:3-11 | neither code-watch gif name is among the listed gif files |
| ChaoGifs.ChaoGifCache.constructor | src/chao/chaoGifs.ts:15 | the singleton starts empty |
| ChaoGifs.ChaoGifCache.CreateChaoTypeUris | src/chao/chaoGifs.ts:17-43 | the first call builds and stores the table; later calls return the stored one whatever the base URL |
| ChaoSpec.Clamp | src/chao/chao.ts:48-62 | a negative value gives 0; a non-negative value above max gives max; a value in `[0, max]` is kept; with a non-negative max the result lies in `[0, max]` |
| ChaoSpec.ClampHasNoFloorBelowNegativeMax | src/chao/chao.ts:55-61 | when max is negative, a non-negative value is set to the negative max |
| ChaoSpec.ReclampIsIdempotentIffRangeNonNegative | src/chao/chao.ts:205-207 | re-applying the position is a no-op for every position exactly when max is non-negative |
| ChaoSpec.ReclampAfterResize | src/chao/chao.ts:205-207 | after a resize to a non-negative max, the position is in range, and it is unchanged exactly when it was already in range |
| ChaoSpec.SizePx | src/chao/chao.ts:123-132 | small is 25 px, large is 60 px and medium is 40 px, each in both directions |
| ChaoSpec.SizeOrDefault | src/chao/chao.ts:139-146 | a given size is kept, and a missing one becomes the 40 px medium |
| ChaoSpec.NormalizeName | src/chao/chao.ts:29 | `name \|\| null`: never the empty string, and a non-empty name is kept |
| ChaoSpec.SelectRandomChaoType | src/chao/chao.ts:74-84 | for a draw in `[0,1)` the result is one of the chao types |
| ChaoSpec.EveryChaoTypeIsSelectable | src/chao/chao.ts:82-83 | every chao type is picked by some draw |
| ChaoSpec.InitialChaoType | src/chao/chao.ts:28 | a non-empty given type is used; otherwise a random valid type is chosen |
| ChaoSpec.RandomPosition | src/chao/chao.ts:170-181 | the position lies within `[0, max]`, and equals draw × max when the canvas is the window |
| StateVariants.Tag | src/chao/state/LookAtCodeToLeftState.ts:7-9 | both code-watch states carry the tag lookingAtCode, and no other state does |
| StateVariants.TagIdentifiesClassExceptLookingAtCode | src/chao/state/AbstractChaoState.ts:5-10 | apart from lookingAtCode, the tag determines the state class |
| StateVariants.AssetNameHookMismatch | src/chao/state/AbstractChaoState.ts:16-27 | each state class names its asset through exactly one of `getGifStateName` and `getStateName`, and exactly Idle, MovingLeft and MovingRight lack `getGifStateName` |
| StateVariants.GifStateName | src/chao/state/SittingState.ts:14-16 | the `getGifStateName` each class defines, absent for Idle, MovingLeft and MovingRight; `AssetNameHookMismatch` states which |
| StateVariants.DeclaredStateName | src/chao/state/IdleState.ts:16-18 | the `getStateName` that Idle ("idle") and both walks ("walking") declare, and no other class; `AssetNameHookMismatch` states it |
| StateVariants.IntendedGifStateName | src/chao/state/IdleState.ts:16-18 | the asset name each class declares, through either method: it agrees with `getGifStateName` where defined and with `getStateName` where that is defined |
| StateVariants.AssetName | src/chao/state/IdleState.ts:25-30 | the state name `getGif` requests: standing_happy or sitting_happy when hovered Idle or Sitting, otherwise the class name; `HoverSwapsOnlyIdleAndSittingAssets` states the hover cases |
| StateVariants.GetGifAsWritten | src/chao/state/AbstractChaoState.ts:24-27 | `getGif` as written: no URI (the TypeError) exactly for unhovered Idle, MovingLeft and MovingRight; any URI it yields comes from a defined hook or a hover override |
| StateVariants.GetGif | src/chao/state/AbstractChaoState.ts:24-27 | with the hook as intended: the table entry for the type and the asset name when it exists; wherever the code as written yields a URI, the same URI |
| StateVariants.EveryStateShowsItsGif | src/chao/chaoGifs.ts:3-11 | with the built table and a known type, every state except the two look-at-code states gets the URI of its listed gif file; those two get "" |
| StateVariants.HoverSwapsOnlyIdleAndSittingAssets | src/chao/state/SittingState.ts:23-28 | hovering changes the requested asset of Idle and Sitting only: idle becomes standing_happy and sitting becomes sitting_happy |
| StateVariants.ScaleForGif | src/chao/state/AbstractChaoState.ts:34-36 | `getScaleForGif` with each override; `MirrorFollowsDirection` states the values |
| StateVariants.MirrorFollowsDirection | src/chao/state/FallingState.ts:29-31 | scale 1 for left-facing states and both code-watch states; -1 for a right fall; the base "-1" text otherwise |
| StateVariants.Moved | src/chao/state/FallingState.ts:19-27 | non-moving states keep the position, left movers never move right and right movers never move left, and the result stays in range |
| StateVariants.MoveIsOneStep | src/chao/state/MovingLeftState.ts:14-16 | away from the walls, a move is exactly ± speed |
| MovementSpec.Elapsed | src/chao/chaoMovement.ts:194-195 | `now - (start \|\| now)`: zero for a missing or 0 start, otherwise now - start |
| MovementSpec.DynamicProbability | src/chao/chaoMovement.ts:288-295 | `min(base + floor(steps / interval) * increase, max)`; `DynamicProbabilityIsMonotone` and `DynamicProbabilityIsBounded` state its growth and bounds |
| MovementSpec.DynamicProbabilityIsMonotone | src/chao/chaoMovement.ts:284-295 | the stepped probability never decreases as steps grow |
| MovementSpec.DynamicProbabilityIsBounded | src/chao/chaoMovement.ts:288-295 | the stepped probability stays between the base and the cap |
| MovementSpec.IdleProbability | src/chao/chaoMovement.ts:284-295 | the idle probability with its constants; stated by `IdleProbabilityGrowsToItsCap` |
| MovementSpec.StopSittingProbability | src/chao/chaoMovement.ts:252-264 | the stop-sitting probability with its constants; stated by `StopSittingProbabilityGrowsToItsCap` |
| MovementSpec.IdleProbabilityGrowsToItsCap | src/chao/chaoMovement.ts:284-295 | the idle probability starts at 1%, grows monotonically to 25%, and reaches the cap exactly from 480 steps on |
| MovementSpec.StopSittingProbabilityGrowsToItsCap | src/chao/chaoMovement.ts:252-264 | the stop-sitting probability starts at 2%, is 3.5% at 30 steps, grows monotonically to 50%, and reaches the cap exactly from 960 steps on |
| MovementSpec.WantsToIdle | src/chao/chaoMovement.ts:284-303 | `shouldIdle`: a draw below the idle probability after 7 s of moving; `NoIdleWithoutMovingStart` and `ChaoMovement.ShouldIdle` state it |
| MovementSpec.NoIdleWithoutMovingStart | src/chao/chaoMovement.ts:297-302 | without a moving start time, the elapsed time is 0 and the chao never decides to idle |
| MovementSpec.AssignStateAsWritten | src/chao/chao.ts:68-71 | the setter as written: the state is always replaced and the position kept; it stops short exactly for unhovered Idle and the two walks, leaving asset and mirror unchanged |
| MovementSpec.MissingHookAbortsAsWritten | src/chao/chao.ts:170-181 | as written, an unhovered chao entering Idle (every new chao, in `setRandomPosition`) and an idle chao setting off on foot both hit the missing hook |
| MovementSpec.AssignState | src/chao/chao.ts:68-71 | the setter with the hook as intended: the state is replaced and the position kept, the asset is the intended gif and the mirror is the state's scale; wherever the setter as written completes, it agrees |
| MovementSpec.FallTimersArmed | src/chao/chaoMovement.ts:306-331 | `startFallingTimer` on the engine state; stated by `RestartedFallReplacesTheEarlierOne` and `FallTimeline` |
| MovementSpec.LookTimerArmed | src/chao/chaoMovement.ts:333-343 | `startLookingAtCodeTimer` on the movement record; stated by `RestartedLookReplacesTheEarlierOne` and `LookTimeline` |
| MovementSpec.TimersCleared | src/chao/chaoMovement.ts:345-358 | `stop` on the movement record; stated by `StoppedTimersNeverFire` |
| MovementSpec.AfterFallingMovementTimer | src/chao/chaoMovement.ts:317-320 | the 1.3 s callback; stated by `TimersFireOnce` and `FallTimeline` |
| MovementSpec.AfterFallingTimer | src/chao/chaoMovement.ts:325-330 | the 8.5 s callback; stated by `TimersFireOnce` and `FallTimeline` |
| MovementSpec.AfterLookAtCodeTimer | src/chao/chaoMovement.ts:339-342 | the 11.5 s callback; stated by `TimersFireOnce` and `LookTimeline` |
| MovementSpec.CodeWatchChoice | src/chao/chaoMovement.ts:103-137 | the look-at-code state an idle chao enters this tick, if any; stated by `LookLeftGuard` and `LookRightGuard` |
| MovementSpec.DrawAfterCodeWatch | src/chao/chaoMovement.ts:103-146 | the value of `random` tested against the departure chance, after the code-watch block may have redrawn it; stated by `DepartureNeedsMinimumIdleTime` |
| MovementSpec.CodeWatchNeverRunsAsWritten | src/chao/chaoMovement.ts:103-137 | with both constants undefined, as imported, no look at code ever starts and the departure test uses the first draw |
| MovementSpec.Departure | src/chao/chaoMovement.ts:146-183 | the walk or flight an idle chao sets off in; stated by `DepartureLeavesTheWall` |
| MovementSpec.DepartureLeavesTheWall | src/chao/chaoMovement.ts:146-183 | a departure is a walk or a flight with zero steps, heads right at the left wall and left at the right wall, and is a flight exactly when the fly draw is below the flying chance |
| MovementSpec.IdleTransition | src/chao/chaoMovement.ts:89-185 | the idle branch of `updateState`: sit, else look at code, else depart; stated by `SittingOnlyOncePerIdleEpisode`, `LookLeftGuard`, `LookRightGuard` and `DepartureNeedsMinimumIdleTime` |
| MovementSpec.WalkTransition | src/chao/chaoMovement.ts:187-224 | the walking branch; stated by `WalkingTickOutcomes` and `FallsRespectTheCooldown` |
| MovementSpec.FlyTransition | src/chao/chaoMovement.ts:225-240 | the flying branch; stated by `FlyingNeverCountsSteps` |
| MovementSpec.SitTransition | src/chao/chaoMovement.ts:241-273 | the sitting branch; stated by `SittingTickOutcomes` |
| MovementSpec.StateTransition | src/chao/chaoMovement.ts:82-282 | `updateState`: dispatch on the state; stated by `TimedStatesIgnoreTicks` and the branch lemmas |
| MovementSpec.Tick | src/chao/chaoMovement.ts:54-80 | `updatePosition` for one tick; stated by `WallAheadStopsTheChao`, `TickKeepsPositionInRange` and the branch lemmas |
| MovementSpec.WallAheadStopsTheChao | src/chao/chaoMovement.ts:59-74 | a chao moving into the wall it touches becomes Idle, keeps its position and leaves the movement record as it was |
| MovementSpec.TickKeepsPositionInRange | src/chao/chaoMovement.ts:54-80 | a tick keeps an in-range position in range and moves it by at most the speed |
| MovementSpec.WalkingTickOutcomes | src/chao/chaoMovement.ts:187-224 | a walking tick either counts a step, or starts a fall in the walking direction with both timers armed, or stops the chao; it falls exactly when the draw, the cooldown and the minimum walking time all allow it |
| MovementSpec.FallsRespectTheCooldown | src/chao/chaoMovement.ts:192-211 | only walking chao start to fall, only after the 30 s cooldown, and the fall time is recorded |
| MovementSpec.FlyingNeverCountsSteps | src/chao/chaoMovement.ts:225-240 | a flying tick keeps the state unchanged (no steps counted) or stops the chao, and it stops exactly when `shouldIdle` holds |
| MovementSpec.TimedStatesIgnoreTicks | src/chao/chaoMovement.ts:275-280 | ticks leave a falling or code-watching chao's state, asset and movement record alone |
| MovementSpec.SittingOnlyOncePerIdleEpisode | src/chao/chaoMovement.ts:89-101 | a chao sits down only from Idle, only if it has not sat in this idle episode, and only on a draw below 1%; the sat flag, sitting start and zero steps are then recorded |
| MovementSpec.SatFlagClearedAtEpisodeBoundaries | src/chao/chaoMovement.ts:180-222 | a tick clears the sat flag only when an idle chao departs or a travelling chao stops |
| MovementSpec.SittingTickOutcomes | src/chao/chaoMovement.ts:241-273 | a sitting tick counts a step or stands the chao up and resets the sitting record; it stands up exactly after 10 s and a draw below the stepped probability; the position never changes |
| MovementSpec.LookLeftGuard | src/chao/chaoMovement.ts:103-127 | looking at code to the left happens only from Idle, in the leftmost 20% with the sidebar on the right, once the pause is over and the look draw is below the code-watch probability; the look timer is then armed |
| MovementSpec.LookRightGuard | src/chao/chaoMovement.ts:129-136 | the mirror image: rightmost 20%, sidebar on the left, the same pause and the second look draw |
| MovementSpec.DepartureNeedsMinimumIdleTime | src/chao/chaoMovement.ts:139-184 | an idle chao departs only after 7 s idle and with the draw below the 30% movement chance (`MovementChanceAfterIdle`); its new state is exactly `Departure` of its position and draws, with zero steps, a recorded moving start and a cleared sat flag |
| MovementSpec.IdleChaoSetsOffToTheLeft | src/chao/chaoMovement.ts:139-185 | worked example: after 8 s idle in mid-panel, draws 0.2 / 0.9 / 0.3 make the chao walk left by one pixel |
| MovementSpec.RestartedFallReplacesTheEarlierOne | src/chao/chaoMovement.ts:306-331 | restarting the fall timers cancels the earlier deadlines entirely |
| MovementSpec.RestartedLookReplacesTheEarlierOne | src/chao/chaoMovement.ts:333-343 | restarting the look timer cancels the earlier deadline entirely |
| MovementSpec.StoppedTimersNeverFire | src/chao/chaoMovement.ts:345-358 | after `stop`, no timer callback changes anything |
| MovementSpec.TimersFireOnce | src/chao/chaoMovement.ts:317-342 | each timer callback empties its slot, so a second firing changes nothing |
| MovementSpec.FallTimeline | src/chao/chaoMovement.ts:306-331 | nothing fires early; at 1.3 s the fall stops moving, and at 8.5 s the chao is Idle where it fell, with both slots empty and the sat flag cleared |
| MovementSpec.LookTimeline | src/chao/chaoMovement.ts:333-343 | nothing fires early; at 11.5 s the chao is Idle again and the slot is empty |
| ChaoAgent.Chao.constructor | src/chao/chao.ts:22-42 | the given or random type, the normalised name, position 0, Idle since now, speed 1, not hovered, no interval, the idle gif, no mirror transform written, and fresh movement fields |
| ChaoAgent.Chao.SetPosition | src/chao/chao.ts:48-62 | the stored position is the clamped value |
| ChaoAgent.Chao.UpdateGifForState | src/chao/chao.ts:187-198 | the image becomes the intended gif of the current state and hover, and the mirror its scale |
| ChaoAgent.Chao.SetState | src/chao/chao.ts:68-71 | the chao's runtime part becomes `AssignState` of the old one |
| ChaoAgent.Chao.SetHovered | src/chao/chao.ts:93-111 | the hover flag is set; an Idle or Sitting chao re-applies its state, and any other chao is unchanged |
| ChaoAgent.Chao.MoveBasedOnState | src/chao/state/FallingState.ts:19-27 | the position becomes `Moved` of the old one |
| ChaoAgent.Chao.SetGifSize | src/chao/chao.ts:139-146 | the gif size becomes the given size or medium |
| ChaoAgent.Chao.StartAnimation | src/chao/chao.ts:148-156 | exactly one interval is live afterwards, even on a restart |
| ChaoAgent.Chao.StopAnimation | src/chao/chao.ts:158-168 | no interval is live, the hover flag is cleared, and every movement timer is cancelled; nothing else in the movement record changes |
| ChaoAgent.Chao.SetRandomPosition | src/chao/chao.ts:170-181 | the position is the random one in range, then the state becomes Idle through the setter |
| ChaoAgent.Chao.AdjustPositionAfterResize | src/chao/chao.ts:205-207 | the position is re-clamped, so it is in range whenever the range is non-negative |
| ChaoAgent.Chao.Serialize | src/chao/chao.ts:209-215 | the record holds the element id, the type and the name |
| ChaoAgent.Chao.RestoreState | src/chao/chao.ts:217-234 | serialising afterwards gives back the record (with an empty name as none), at a random in-range position, Idle |
| ChaoAgent.ChaoMovement.constructor | src/chao/chaoMovement.ts:36-51 | all fields start at their declared initial values |
| ChaoAgent.ChaoMovement.UpdatePosition | src/chao/chaoMovement.ts:54-80 | the chao and movement record become `Tick` of their old values |
| ChaoAgent.ChaoMovement.UpdateState | src/chao/chaoMovement.ts:82-282 | the chao and movement record become `StateTransition` of their old values |
| ChaoAgent.ChaoMovement.UpdateIdle | src/chao/chaoMovement.ts:89-185 | the idle branch equals `IdleTransition` |
| ChaoAgent.ChaoMovement.WatchCode | src/chao/chaoMovement.ts:103-137 | when `CodeWatchChoice` picks a direction, the chao looks that way and the look timer is armed; otherwise nothing changes. The draw handed on to the departure test is `DrawAfterCodeWatch` |
| ChaoAgent.ChaoMovement.UpdateWalking | src/chao/chaoMovement.ts:187-224 | the walking branch equals `WalkTransition` |
| ChaoAgent.ChaoMovement.UpdateFlying | src/chao/chaoMovement.ts:225-240 | the flying branch equals `FlyTransition` |
| ChaoAgent.ChaoMovement.UpdateSitting | src/chao/chaoMovement.ts:241-273 | the sitting branch equals `SitTransition` |
| ChaoAgent.ChaoMovement.ShouldIdle | src/chao/chaoMovement.ts:284-303 | true exactly when the draw is below the stepped idle probability and the chao has moved for 7 s; a true result implies a draw below 25% and a recorded moving start |
| ChaoAgent.ChaoMovement.StartFallingTimer | src/chao/chaoMovement.ts:306-331 | both fall deadlines are re-armed, the fall time is recorded, and the fall may move |
| ChaoAgent.ChaoMovement.StartLookingAtCodeTimer | src/chao/chaoMovement.ts:333-343 | the look deadline is re-armed and the look time recorded |
| ChaoAgent.ChaoMovement.Stop | src/chao/chaoMovement.ts:345-358 | all three timer slots are emptied and nothing else changes |
| ChaoAgent.ChaoMovement.FireFallingMovementTimer | src/chao/chaoMovement.ts:317-320 | when due, the fall stops moving and the slot empties |
| ChaoAgent.ChaoMovement.FireFallingTimer | src/chao/chaoMovement.ts:325-330 | when due, the chao becomes Idle, the sat flag is cleared and the slot empties |
| ChaoAgent.ChaoMovement.FireLookAtCodeTimer | src/chao/chaoMovement.ts:339-342 | when due, the chao becomes Idle and the slot empties |
| RosterSpec.Ids | src/panel/main.ts:259 | one id per chao, in roster order |
| RosterSpec.RecordIds | src/panel/main.ts:260 | one id per record, in record order |
| RosterSpec.FirstIndex | src/panel/main.ts:220-222 | `findIndex`: the first position holding the id, or none exactly when the id is absent |
| RosterSpec.FirstIndexAt | src/panel/main.ts:220-222 | an index holding the id, with no earlier occurrence, is the one `findIndex` returns |
| RosterSpec.Select | src/panel/main.ts:279-281 | `filter` returns elements of the roster and is no longer than it; `SelectPicksKeptPositions` states which elements and in what order |
| RosterSpec.KeptPositions | src/panel/main.ts:279-281 | the positions `filter` keeps: in bounds and strictly increasing |
| RosterSpec.KeptPositionsMembers | src/panel/main.ts:279-281 | a position is kept exactly when its id is in the records |
| RosterSpec.SelectPicksKeptPositions | src/panel/main.ts:279-281 | the filtered roster is the roster at the kept positions, in increasing order: exactly the chao whose id is recorded, in their order |
| RosterSpec.SelectedIds | src/panel/main.ts:279-283 | the ids of the filtered roster are the filtered ids |
| RosterSpec.FilterIds | src/panel/main.ts:271-281 | the ids of the chao `filter` keeps; `FilterIdsMembers` states which |
| RosterSpec.FilterIdsMembers | src/panel/main.ts:271-281 | an id survives the filter exactly when it is on the roster and in the records, and distinct ids stay distinct |
| RosterSpec.HasChanges | src/panel/main.ts:263-265 | the change test: different lengths, or a roster id missing from the records; stated by `UnchangedRosterHoldsEveryRecord` and `DuplicateIdsHideAMissingRecord` |
| RosterSpec.ToLoad | src/panel/main.ts:285-292 | the records the `forEach` loads, in order; stated by `ToLoadStep` and `ToLoadContents` |
| RosterSpec.Normalized | src/chao/chao.ts:217-231 | a record as a restored chao serialises it: id and type kept, an empty name as none; a record with a non-empty or no name is unchanged |
| RosterSpec.ToLoadStep | src/panel/main.ts:285-292 | one more record is appended to the loaded records exactly when its id is neither on the roster nor already loaded, and otherwise nothing is added |
| RosterSpec.ToLoadContents | src/panel/main.ts:285-292 | the loaded records are records that were absent, their ids are distinct, and together with the roster they cover every record id |
| RosterSpec.PatchedIds | src/panel/main.ts:255-293 | the roster ids after a patch; stated by `PatchSynchronisesIds` |
| RosterSpec.UnchangedRosterHoldsEveryRecord | src/panel/main.ts:263-269 | with distinct roster ids, "no changes" means that every record id is on the roster |
| RosterSpec.PatchSynchronisesIds | src/panel/main.ts:255-293 | with distinct ids before, the patched roster has distinct ids, and they are exactly the record ids |
| RosterSpec.DuplicateIdsHideAMissingRecord | src/panel/main.ts:263-265 | with ids ["a","a"] against records "a","b", no change is detected and "b" is never loaded |
| Panel.SpawnName | src/panel/main.ts:144-146 | the pending name if it is non-empty, otherwise "Sammy" |
| Panel.ChaoPanel.constructor | src/panel/main.ts:19-23 | the roster is empty, there is no pending name, and the given gif size is used |
| Panel.ChaoPanel.SetSpawnName | src/panel/main.ts:76 | the pending name is the message name, with an empty name as none |
| Panel.ChaoPanel.ShowMaxChaoWarning | src/panel/main.ts:185-196 | the warning is posted, and true returned, exactly when ten or more chao exist |
| Panel.ChaoPanel.CreateRandomChao | src/panel/main.ts:138-157 | at the cap, only the warning is posted. Below it, one fresh chao is appended: named by the pending name or "Sammy", with a random valid type, a random position, Idle and animated. The pending name is then cleared. |
| Panel.ChaoPanel.CreateSpecificChao | src/panel/main.ts:160-183 | as above, but named by the pending name (none if missing) and of the given type, or of a random valid type when the given type is empty |
| Panel.ChaoPanel.Push | src/panel/main.ts:154 | `activeChaoObjects.push(chao)`: the chao is appended and the roster stays valid |
| Panel.ChaoPanel.DeleteChaoById | src/panel/main.ts:219-233 | the first chao with the id is stopped (its timers cleared) and spliced out, and true is returned; with no such chao the roster is unchanged and false is returned; every other chao keeps its interval, hover flag and movement record |
| Panel.ChaoPanel.LoadChaoFromState | src/panel/main.ts:235-254 | a fresh animated Idle chao whose serialisation is the record is appended, with no cap |
| Panel.ChaoPanel.PatchChaoState | src/panel/main.ts:255-293 | the roster ids become `PatchedIds`. When no change is detected, no chao changes at all. Otherwise the recorded chao keep their order and their activity in front, followed by animated chao that serialise to the missing records in order, and every chao without a record is stopped with its timers cleared. |
| Panel.ChaoPanel.DropUnrecorded | src/panel/main.ts:271-283 | the chao without a record are stopped, the recorded ones keep their activity, and the roster becomes the filtered roster |
| Panel.ChaoPanel.StopUnrecorded | src/panel/main.ts:271-277 | every chao whose id is not recorded is stopped with its timers cleared, and every recorded chao keeps its interval, hover flag and movement record |
| Panel.ChaoPanel.KeepRecorded | src/panel/main.ts:279-283 | the roster becomes its recorded chao, in order |
| Panel.ChaoPanel.LoadMissing | src/panel/main.ts:285-292 | the roster keeps its prefix and gains, in record order, one animated chao per record in `ToLoad`, each serialising to its record (an empty name as none) |
| Panel.ChaoPanel.LoadIfMissing | src/panel/main.ts:286-291 | a record is loaded exactly when its id is not on the roster; the loaded chao is animated, serialises to the record and carries its id at the end |
| Panel.ChaoPanel.SerializeChaoState | src/panel/main.ts:207-209 | one record per chao, in order, with the record ids equal to the roster ids |
| Panel.ChaoPanel.GetActiveChaoList | src/panel/main.ts:211-217 | one entry per chao, in order, with a falsy name listed as none; on a valid roster it equals the serialised state |

## Findings

| source | as written | input that shows it | evidently intended | confidence | as-written member | corrected member |
|---|---|---|---|---|---|---|
| src/chao/state/AbstractChaoState.ts:24-27 | `getGif` calls `this.getGifStateName()`, which `IdleState`, `MovingLeftState` and `MovingRightState` do not define (they define `getStateName`), so the state setter throws a TypeError after storing the new state and before writing the image and mirror | a new chao: `setRandomPosition` assigns an unhovered Idle (src/chao/chao.ts:179), so every spawn and load stops before `startAnimation` and the push; likewise an idle chao whose departure is a walk | each class's declared name: "idle" for Idle and "walking" for both walks | high, not executed | MovementSpec.AssignStateAsWritten | MovementSpec.AssignState |

## Left out

- Rendering and the DOM are not modelled. This covers `createDomElement`, `position`, `setDimensions`, the element's style, `element.remove()`, `initCanvas` and the resize listener. The image source is the asset URI, without the `?t=` cache-busting suffix.
- `getGifWidth` reads the rendered width. The model takes the width as part of the `Viewport` input.
- MovementSpec.CodeWatchChoice: the code-watch probability and pause are imported but not defined in `src/calculationConstants.ts`, so as written both comparisons are false: the code-watch branch never runs and `getSidebarPosition` is never called (`CodeWatchNeverRunsAsWritten`, with `CodeWatchAsWritten`). The model also takes defined values as parameters, so that the branch can be stated.
- `getSidebarPosition` is not exported by `src/panel/main.ts`. The sidebar side is an input.
- The abort that the missing asset hook causes as written is exhibited only at the setter (`AssignStateAsWritten`, `MissingHookAbortsAsWritten`). The rest of the model uses the hook as intended. This covers `RestoreState`, the chao creation methods, `PatchChaoState`, the `Update…` methods and the timer callbacks. It also covers `ChaoAgent.Chao.SetHovered` and `ChaoAgent.Chao.UpdateGifForState`, which call `getGif` directly (src/chao/chao.ts:103-111, 187-198). As written, a `mouseleave` on an Idle chao clears `isHovered` and then throws, so `standing_happy` stays on screen.
- ChaoAgent.ChaoMovement.UpdatePosition: all `Date.now()` readings within one tick are taken as one `now`.
- Numbers are modelled as exact reals, not IEEE-754 doubles. Rounding is not captured.
- ChaoAgent.Chao.constructor: `chaoTypeUris[type]` for an unknown type makes the real constructor throw when it reads `.idle`. The model stores the empty URI instead.
- `src/chao/chaoTypes.ts` and `src/chao/chaoSaveState.ts` are not part of this model. The chao type values are taken from `src/constants.ts`.
- The element id `'chao-' + Date.now() + '-' + random` is not modelled. It is an input string.
- The `message` listener of `chaoPanelApp` is not modelled as a dispatcher. This includes the `loadChaoState` and `updateGifSize` branches, `saveChaoState`/`loadChaoState` and the VS Code state API. The operations it calls are modelled one by one.
- Timers are deadline slots, and callbacks run only through the `Fire…` methods. Interleaving with the event loop is not modelled.
- Panel.ChaoPanel.PatchChaoState: a fresh `CreationInput` is supplied per record, even for records that are not loaded.
- Panel.ChaoPanel.PatchChaoState: the contract does not state that the loaded chao are new objects. It states only that they are animated and carry the missing record ids.
- Panel.ChaoPanel.LoadMissing: the contract does not state that the loaded chao are new objects.
- Neither `loadChaoFromState` nor `patchChaoState` enforces the ten-chao cap, and the model keeps that.
- The state objects' back-reference to their chao (`IdleState.chao`) is not modelled. The hover flag is passed explicitly.
