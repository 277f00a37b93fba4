/**
 * The two stateful classes of the engine: `Chao` (src/chao/chao.ts), which
 * holds the clamped position and the current state object, and
 * `ChaoMovement` (src/chao/chaoMovement.ts), which steps the state machine.
 * Every method is proved to change its objects exactly as the matching
 * function of `MovementSpec` or `ChaoSpec` says.
 *
 * The DOM element is reduced to what the engine writes into it: its id, the
 * requested asset (`src` without the cache-busting suffix) and the mirror
 * argument of `scaleX`. Widths, time and random draws are parameters.
 */
module ChaoAgent {
  import opened Wrappers
  import opened Constants
  import ChaoStates
  import opened ChaoTypes
  import opened ChaoSpec
  import opened GifUriHelper
  import opened StateVariants
  import opened MovementSpec

  class Chao {
    /** `element.id`. */
    var id: string
    var name: Option<string>
    var chaoType: string
    var currentPosition: real
    var isHovered: bool
    var speed: real
    var state: ChaoStateVariant
    var gifSize: ChaoSize
    /** The asset last written to `element.src`. */
    var asset: string
    /** The argument last written to `scaleX(...)`, or None while no transform has been written. */
    var mirror: Option<Scale>
    /** `animationInterval !== null`. */
    var animationInterval: bool
    /** How many 100 ms intervals are currently driving this chao. */
    ghost var liveIntervals: nat
    const movement: ChaoMovement

    /** Names are never empty, and at most the one stored interval is live. */
    ghost predicate Valid()
      reads this
    {
      name != Some("") && liveIntervals == (if animationInterval then 1 else 0)
    }

    /** The part of the chao a tick may change. */
    function Runtime(): ChaoRuntime
      reads this
    {
      ChaoRuntime(currentPosition, state, asset, mirror)
    }

    /** What `stopAnimation` leaves: no interval, not hovered, no pending movement timer. */
    ghost predicate Stopped()
      reads this, movement
    {
      && !animationInterval && liveIntervals == 0 && !isHovered
      && movement.fallingTimer.None? && movement.fallingMovementTimer.None? && movement.lookAtCodeTimer.None?
    }

    /** The part of the chao `stopAnimation` may change: interval, hover flag and movement fields. */
    ghost function Activity(): (bool, nat, bool, MovementFields)
      reads this, movement
    {
      (animationInterval, liveIntervals, isHovered, movement.Fields())
    }

    /** The part of the chao (and the URI table) a tick only reads. */
    function Traits(registry: GifUriRegistry): ChaoTraits
      reads this, registry
    {
      ChaoTraits(chaoType, isHovered, speed, registry.globalChaoTypeUris)
    }

    /**
     * The constructor: the given type or a random one, the name or none,
     * position 0, Idle since `now`, speed 1, no interval, not hovered, the
     * type's idle asset and no transform. `elementId` stands for the generated
     * `'chao-' + Date.now() + '-' + random` id.
     */
    constructor (chaoTypeUris: ChaoTypeUris, gifSize: ChaoSize, specificType: Option<string>,
                 name: Option<string>, now: int, typeDraw: real, elementId: string)
      requires 0.0 <= typeDraw < 1.0
      ensures Valid() && fresh(movement)
      ensures chaoType == InitialChaoType(specificType, typeDraw)
      ensures this.name == NormalizeName(name)
      ensures currentPosition == 0.0 && state == Idle(now) && speed == 1.0
      ensures !isHovered && !animationInterval && this.gifSize == gifSize && id == elementId
      ensures asset == GenerateGifUri(Some(chaoTypeUris), chaoType, "idle") && mirror.None?
      ensures movement.Fields() == InitialMovement
    {
      var t := InitialChaoType(specificType, typeDraw);
      chaoType := t;
      this.name := NormalizeName(name);
      currentPosition := 0.0;
      state := Idle(now);
      speed := 1.0;
      animationInterval := false;
      liveIntervals := 0;
      isHovered := false;
      this.gifSize := gifSize;
      id := elementId;
      asset := GenerateGifUri(Some(chaoTypeUris), t, "idle");
      mirror := None;
      movement := new ChaoMovement();
    }

    /** The `currentPosition` setter. */
    method SetPosition(value: real, view: Viewport)
      modifies this`currentPosition
      ensures currentPosition == Clamp(value, view.MaxPosition())
    {
      var maxPosition := view.innerWidth - view.gifWidth;
      if value < 0.0 {
        currentPosition := 0.0;
      } else if value > maxPosition {
        currentPosition := maxPosition;
      } else {
        currentPosition := value;
      }
    }

    /**
     * `updateGifForState`, with the state classes' hook as intended: the current
     * variant's asset and mirror are written.
     */
    method UpdateGifForState(registry: GifUriRegistry)
      modifies this`asset, this`mirror
      ensures asset == GetGif(state, chaoType, isHovered, registry.globalChaoTypeUris)
      ensures mirror == Some(ScaleForGif(state))
    {
      asset := GetGif(state, chaoType, isHovered, registry.globalChaoTypeUris);
      mirror := Some(ScaleForGif(state));
    }

    /** The `state` setter: the variant is replaced, then the gif refreshed. */
    method SetState(v: ChaoStateVariant, registry: GifUriRegistry)
      modifies this`state, this`asset, this`mirror
      ensures Runtime() == AssignState(old(Runtime()), v, Traits(registry))
    {
      state := v;
      UpdateGifForState(registry);
    }

    /**
     * The `mouseenter` / `mouseleave` handlers: the hover flag is set and an
     * Idle or Sitting chao refreshes its gif.
     */
    method SetHovered(hovered: bool, registry: GifUriRegistry)
      modifies this`isHovered, this`asset, this`mirror
      ensures isHovered == hovered
      ensures Runtime() == if state.Idle? || state.Sitting? then AssignState(old(Runtime()), state, Traits(registry))
                           else old(Runtime())
    {
      isHovered := hovered;
      if state.Idle? || state.Sitting? {
        UpdateGifForState(registry);
      }
    }

    /** The current variant's `moveBasedOnState`: ±speed through the setter, or nothing. */
    method MoveBasedOnState(view: Viewport)
      modifies this`currentPosition
      ensures currentPosition == Moved(state, old(currentPosition), speed, view.MaxPosition())
    {
      match state
      case MovingLeft(_) => SetPosition(currentPosition - speed, view);
      case FlyingLeft(_) => SetPosition(currentPosition - speed, view);
      case MovingRight(_) => SetPosition(currentPosition + speed, view);
      case FlyingRight(_) => SetPosition(currentPosition + speed, view);
      case Falling(direction, canMove) =>
        if canMove {
          if direction == ChaoStates.Left {
            SetPosition(currentPosition - speed, view);
          } else {
            SetPosition(currentPosition + speed, view);
          }
        }
      case _ =>
    }

    /** `setGifSize`: an absent size falls back to medium. */
    method SetGifSize(newSize: Option<ChaoSize>)
      modifies this`gifSize
      ensures gifSize == SizeOrDefault(newSize)
    {
      if newSize.Some? {
        gifSize := newSize.value;
      } else {
        gifSize := Medium;
      }
    }

    /** `startAnimation`: any running interval is cleared first, so exactly one drives the chao. */
    method StartAnimation()
      requires Valid()
      modifies this`animationInterval, this`liveIntervals
      ensures Valid() && animationInterval && liveIntervals == 1
    {
      if animationInterval {
        liveIntervals := liveIntervals - 1;
      }
      animationInterval := true;
      liveIntervals := liveIntervals + 1;
    }

    /** `stopAnimation`: the interval is cleared, the movement timers stopped and the hover flag reset. */
    method StopAnimation()
      requires Valid()
      modifies this`animationInterval, this`liveIntervals, this`isHovered,
               movement`fallingTimer, movement`fallingMovementTimer, movement`lookAtCodeTimer
      ensures Valid() && Stopped()
      ensures movement.Fields() == TimersCleared(old(movement.Fields()))
    {
      if animationInterval {
        liveIntervals := liveIntervals - 1;
        animationInterval := false;
      }
      movement.Stop();
      isHovered := false;
    }

    /** `setRandomPosition`: a random spot across the window, then a fresh Idle. */
    method SetRandomPosition(draw: real, view: Viewport, registry: GifUriRegistry, now: int)
      modifies this`currentPosition, this`state, this`asset, this`mirror
      ensures currentPosition == RandomPosition(draw, view.innerWidth, view)
      ensures Runtime() == AssignState(old(Runtime()).(position := currentPosition), Idle(now), Traits(registry))
    {
      var range := if view.innerWidth - view.gifWidth < 0.0 then 0.0 else view.innerWidth - view.gifWidth;
      SetPosition(draw * range, view);
      SetState(Idle(now), registry);
    }

    /** `adjustPositionAfterResize`: the position is written back through the setter. */
    method AdjustPositionAfterResize(view: Viewport)
      modifies this`currentPosition
      ensures currentPosition == Clamp(old(currentPosition), view.MaxPosition())
      ensures 0.0 <= view.MaxPosition() ==> 0.0 <= currentPosition <= view.MaxPosition()
    {
      SetPosition(currentPosition, view);
    }

    /** `serialize`: the persisted identity, no runtime state. */
    function Serialize(): (s: ChaoSaveState)
      reads this
      ensures s.id == id && s.chaoType == chaoType && s.name == name
    {
      ChaoSaveState(id, chaoType, name)
    }

    /**
     * `restoreState`: the id is taken over, the chao is placed at random
     * across the container (or the window when there is none) and becomes Idle
     * (while still of its old type), then type and name are taken over.
     */
    method RestoreState(data: ChaoSaveState, containerWidth: Option<real>, view: Viewport, draw: real,
                        registry: GifUriRegistry, now: int)
      requires Valid()
      modifies this`id, this`currentPosition, this`state, this`asset, this`mirror, this`chaoType, this`name
      ensures Valid()
      ensures Serialize() == ChaoSaveState(data.id, data.chaoType, NormalizeName(data.name))
      ensures data.name != Some("") ==> Serialize() == data
      ensures currentPosition == RandomPosition(draw, containerWidth.GetOr(view.innerWidth), view)
      ensures Runtime() == AssignState(old(Runtime()).(position := currentPosition), Idle(now), old(Traits(registry)))
    {
      id := data.id;
      var canvasWidth := if containerWidth.Some? then containerWidth.value else view.innerWidth;
      var range := if canvasWidth - view.gifWidth < 0.0 then 0.0 else canvasWidth - view.gifWidth;
      SetPosition(draw * range, view);
      assert canvasWidth == containerWidth.GetOr(view.innerWidth);
      assert currentPosition == RandomPosition(draw, canvasWidth, view);
      SetState(Idle(now), registry);
      chaoType := data.chaoType;
      name := NormalizeName(data.name);
    }
  }

  class ChaoMovement {
    var sittingStartTime: Option<int>
    var sittingSteps: nat
    var hasSatDuringIdle: bool
    /** Deadline of the pending end-of-fall callback. */
    var fallingTimer: Option<int>
    /** Deadline of the pending end-of-sideways-fall callback. */
    var fallingMovementTimer: Option<int>
    var lastFallTime: int
    /** Deadline of the pending end-of-look callback. */
    var lookAtCodeTimer: Option<int>
    var lastLookAtCodeTime: int
    var movingStartTime: Option<int>

    function Fields(): MovementFields
      reads this
    {
      MovementFields(sittingStartTime, sittingSteps, hasSatDuringIdle, fallingTimer, fallingMovementTimer,
                     lastFallTime, lookAtCodeTimer, lastLookAtCodeTime, movingStartTime)
    }

    constructor ()
      ensures Fields() == InitialMovement
    {
      sittingStartTime := None;
      sittingSteps := 0;
      hasSatDuringIdle := false;
      fallingTimer := None;
      fallingMovementTimer := None;
      lastFallTime := 0;
      lookAtCodeTimer := None;
      lastLookAtCodeTime := 0;
      movingStartTime := None;
    }

    /**
     * `updatePosition`, the body of the 100 ms interval: one step of the
     * engine, as `Tick` specifies.
     */
    method UpdatePosition(chao: Chao, registry: GifUriRegistry, input: TickInput)
      modifies this, chao`currentPosition, chao`state, chao`asset, chao`mirror
      ensures EngineState(chao.Runtime(), Fields())
              == Tick(old(EngineState(chao.Runtime(), Fields())), chao.Traits(registry), input)
    {
      var maxPosition := input.view.innerWidth - input.view.gifWidth;
      var atLeftBoundary := chao.currentPosition <= 0.0;
      var atRightBoundary := chao.currentPosition >= maxPosition;
      var wasMovingLeft := chao.state.MovingLeft? || chao.state.FlyingLeft?;
      var wasMovingRight := chao.state.MovingRight? || chao.state.FlyingRight?;
      if (atLeftBoundary && wasMovingLeft) || (atRightBoundary && wasMovingRight) {
        chao.SetState(Idle(input.now), registry);
      } else {
        UpdateState(chao, registry, input);
        chao.MoveBasedOnState(input.view);
      }
    }

    /** `updateState`: the transition of the current state, as `StateTransition` specifies. */
    method UpdateState(chao: Chao, registry: GifUriRegistry, input: TickInput)
      modifies this, chao`state, chao`asset, chao`mirror
      ensures EngineState(chao.Runtime(), Fields())
              == StateTransition(old(EngineState(chao.Runtime(), Fields())), chao.Traits(registry), input)
    {
      match chao.state
      case Idle(_) => UpdateIdle(chao, registry, input);
      case MovingLeft(_) => UpdateWalking(chao, registry, input);
      case MovingRight(_) => UpdateWalking(chao, registry, input);
      case FlyingLeft(_) => UpdateFlying(chao, registry, input);
      case FlyingRight(_) => UpdateFlying(chao, registry, input);
      case Sitting => UpdateSitting(chao, registry, input);
      case Falling(_, _) =>
      case LookAtCodeToLeft(_) =>
      case LookAtCodeToRight(_) =>
    }

    /** The idle case of `updateState`: sit, look at the code, set off, or stay. */
    method UpdateIdle(chao: Chao, registry: GifUriRegistry, input: TickInput)
      requires chao.state.Idle?
      modifies this, chao`state, chao`asset, chao`mirror
      ensures EngineState(chao.Runtime(), Fields())
              == IdleTransition(old(EngineState(chao.Runtime(), Fields())), chao.Traits(registry), input)
    {
      var random := input.draws.first;
      var now := input.now;
      if random < SittingChanceWhileIdle && !hasSatDuringIdle {
        chao.SetState(Sitting, registry);
        hasSatDuringIdle := true;
        sittingStartTime := Some(now);
        sittingSteps := 0;
        return;
      }
      var watched;
      watched, random := WatchCode(chao, registry, input);
      if watched {
        return;
      }
      var idleStart := chao.state.idleStartTime;
      var idleDuration := now - (if idleStart != 0 then idleStart else now);
      if idleDuration >= MinIdleTimeMs && random < MovementChanceAfterIdle {
        var maxPosition := input.view.innerWidth - input.view.gifWidth;
        var shouldFly := input.draws.fly < FlyingChanceAfterIdle;
        var next: ChaoStateVariant;
        if chao.currentPosition <= 0.0 {
          next := if shouldFly then FlyingRight(0) else MovingRight(0);
        } else if chao.currentPosition >= maxPosition {
          next := if shouldFly then FlyingLeft(0) else MovingLeft(0);
        } else if shouldFly {
          next := if input.draws.direction < 0.5 then FlyingLeft(0) else FlyingRight(0);
        } else {
          next := if input.draws.direction < 0.5 then MovingLeft(0) else MovingRight(0);
        }
        chao.SetState(next, registry);
        movingStartTime := Some(now);
        hasSatDuringIdle := false;
      }
    }

    /**
     * The code-watch block of the idle case: after the pause, a chao in the
     * outer fifth of the panel facing the sidebar may start looking at the code.
     * `random` is the draw the rest of the idle case goes on with.
     */
    method WatchCode(chao: Chao, registry: GifUriRegistry, input: TickInput) returns (watched: bool, random: real)
      modifies this`lastLookAtCodeTime, this`lookAtCodeTimer, chao`state, chao`asset, chao`mirror
      ensures random == DrawAfterCodeWatch(old(chao.Runtime()), old(Fields()), input)
      ensures watched == CodeWatchChoice(old(chao.Runtime()), old(Fields()), input).Some?
      ensures watched ==>
                chao.Runtime() == AssignState(old(chao.Runtime()), CodeWatchChoice(old(chao.Runtime()), old(Fields()), input).value,
                                              chao.Traits(registry))
                && Fields() == LookTimerArmed(old(Fields()), input.now)
      ensures !watched ==> chao.Runtime() == old(chao.Runtime()) && Fields() == old(Fields())
    {
      random := input.draws.first;
      watched := false;
      var now := input.now;
      if input.watch.pauseMs.Some? && now - lastLookAtCodeTime >= input.watch.pauseMs.value {
        var maxPosition := input.view.innerWidth - input.view.gifWidth;
        var isOnLeftSide := chao.currentPosition <= maxPosition * 0.2;
        var isOnRightSide := chao.currentPosition >= maxPosition * 0.8;
        if isOnLeftSide && input.sidebar == "right" {
          random := input.draws.lookLeft;
          if input.watch.probability.Some? && random < input.watch.probability.value {
            chao.SetState(LookAtCodeToLeft(0), registry);
            StartLookingAtCodeTimer(now);
            watched := true;
            return;
          }
        }
        if isOnRightSide && input.sidebar == "left" {
          random := input.draws.lookRight;
          if input.watch.probability.Some? && random < input.watch.probability.value {
            chao.SetState(LookAtCodeToRight(0), registry);
            StartLookingAtCodeTimer(now);
            watched := true;
            return;
          }
        }
      }
    }

    /** The walking case of `updateState`: count the step in place, then maybe fall, maybe idle. */
    method UpdateWalking(chao: Chao, registry: GifUriRegistry, input: TickInput)
      requires chao.state.MovingLeft? || chao.state.MovingRight?
      modifies this, chao`state, chao`asset, chao`mirror
      ensures EngineState(chao.Runtime(), Fields())
              == WalkTransition(old(EngineState(chao.Runtime(), Fields())), chao.Traits(registry), input)
    {
      var now := input.now;
      chao.state := chao.state.(movingSteps := chao.state.movingSteps + 1);
      var timeSinceLastFall := now - lastFallTime;
      var timeMoving := now - (if movingStartTime.Some? && movingStartTime.value != 0 then movingStartTime.value else now);
      if input.draws.first < FallingChanceWhileMoving && timeSinceLastFall >= FallCooldownMs
         && timeMoving >= MinMovingTimeBeforeFallingMs {
        var fallingDirection := if chao.state.MovingLeft? then ChaoStates.Left else ChaoStates.Right;
        chao.SetState(Falling(fallingDirection, true), registry);
        StartFallingTimer(chao, now);
        return;
      }
      var shouldIdle := ShouldIdle(chao.state.movingSteps, now, input.draws.idle);
      if shouldIdle {
        chao.SetState(Idle(now), registry);
        movingStartTime := None;
        hasSatDuringIdle := false;
      }
    }

    /** The flying case of `updateState`: no step is counted; maybe idle. */
    method UpdateFlying(chao: Chao, registry: GifUriRegistry, input: TickInput)
      requires chao.state.FlyingLeft? || chao.state.FlyingRight?
      modifies this, chao`state, chao`asset, chao`mirror
      ensures EngineState(chao.Runtime(), Fields())
              == FlyTransition(old(EngineState(chao.Runtime(), Fields())), chao.Traits(registry), input)
    {
      var shouldIdle := ShouldIdle(chao.state.movingSteps, input.now, input.draws.idle);
      if shouldIdle {
        chao.SetState(Idle(input.now), registry);
        movingStartTime := None;
        hasSatDuringIdle := false;
      }
    }

    /** The sitting case of `updateState`: count the tick, and after the minimum time maybe stand up. */
    method UpdateSitting(chao: Chao, registry: GifUriRegistry, input: TickInput)
      requires chao.state.Sitting?
      modifies this, chao`state, chao`asset, chao`mirror
      ensures EngineState(chao.Runtime(), Fields())
              == SitTransition(old(EngineState(chao.Runtime(), Fields())), chao.Traits(registry), input)
    {
      sittingSteps := sittingSteps + 1;
      var now := input.now;
      var timeSitting := now - (if sittingStartTime.Some? && sittingStartTime.value != 0 then sittingStartTime.value else now);
      if timeSitting >= MinSittingTimeMs {
        var stepIncrease := (sittingSteps / StopSittingProbabilityStepInterval) as real * StopSittingProbabilityStepIncrease;
        var probability := Min(BaseStopSittingProbability + stepIncrease, MaxStopSittingProbability);
        if input.draws.first < probability {
          chao.SetState(Idle(now), registry);
          sittingStartTime := None;
          sittingSteps := 0;
        }
      }
    }

    /**
     * `shouldIdle`: the walk or flight ends when a fresh draw falls below the
     * step-dependent idle probability after the minimum moving time.
     */
    method ShouldIdle(movingSteps: nat, currentTime: int, draw: real) returns (b: bool)
      ensures b <==> draw < IdleProbability(movingSteps)
                     && Elapsed(currentTime, movingStartTime) >= MinMovingTimeMs
      ensures b ==> draw < MaxIdleProbability && movingStartTime.Some?
    {
      var stepIncrease := (movingSteps / IdleProbabilityStepInterval) as real * IdleProbabilityStepIncrease;
      var currentIdleProbability := Min(BaseIdleProbability + stepIncrease, MaxIdleProbability);
      var movingDuration := currentTime - (if movingStartTime.Some? && movingStartTime.value != 0
                                           then movingStartTime.value else currentTime);
      b := draw < currentIdleProbability && movingDuration >= MinMovingTimeMs;
    }

    /**
     * `startFallingTimer`: both fall slots are cancelled and re-armed, the
     * fall time recorded, and a falling state may move sideways again.
     */
    method StartFallingTimer(chao: Chao, now: int)
      modifies this`lastFallTime, this`fallingTimer, this`fallingMovementTimer, chao`state
      ensures EngineState(chao.Runtime(), Fields()) == FallTimersArmed(old(EngineState(chao.Runtime(), Fields())), now)
    {
      fallingTimer := None;
      fallingMovementTimer := None;
      lastFallTime := now;
      if chao.state.Falling? {
        chao.state := chao.state.(canMoveWhileFalling := true);
      }
      fallingMovementTimer := Some(now + FallingMovementMs);
      fallingTimer := Some(now + FallingDurationMs);
    }

    /** `startLookingAtCodeTimer`: the look slot is cancelled and re-armed. */
    method StartLookingAtCodeTimer(now: int)
      modifies this`lastLookAtCodeTime, this`lookAtCodeTimer
      ensures Fields() == LookTimerArmed(old(Fields()), now)
    {
      lookAtCodeTimer := None;
      lastLookAtCodeTime := now;
      lookAtCodeTimer := Some(now + LookAtCodeDurationMs);
    }

    /** `stop`: all three slots are cancelled. */
    method Stop()
      modifies this`fallingTimer, this`fallingMovementTimer, this`lookAtCodeTimer
      ensures Fields() == TimersCleared(old(Fields()))
    {
      if fallingTimer.Some? {
        fallingTimer := None;
      }
      if fallingMovementTimer.Some? {
        fallingMovementTimer := None;
      }
      if lookAtCodeTimer.Some? {
        lookAtCodeTimer := None;
      }
    }

    /** The 1.3 s callback, run when its deadline has come. */
    method FireFallingMovementTimer(chao: Chao, now: int)
      modifies this`fallingMovementTimer, chao`state
      ensures EngineState(chao.Runtime(), Fields())
              == AfterFallingMovementTimer(old(EngineState(chao.Runtime(), Fields())), now)
    {
      if fallingMovementTimer.Some? && fallingMovementTimer.value <= now {
        if chao.state.Falling? {
          chao.state := chao.state.(canMoveWhileFalling := false);
        }
        fallingMovementTimer := None;
      }
    }

    /** The 8.5 s callback, run when its deadline has come. */
    method FireFallingTimer(chao: Chao, registry: GifUriRegistry, now: int)
      modifies this`fallingTimer, this`hasSatDuringIdle, chao`state, chao`asset, chao`mirror
      ensures EngineState(chao.Runtime(), Fields())
              == AfterFallingTimer(old(EngineState(chao.Runtime(), Fields())), chao.Traits(registry), now)
    {
      if fallingTimer.Some? && fallingTimer.value <= now {
        chao.SetState(Idle(now), registry);
        hasSatDuringIdle := false;
        fallingTimer := None;
      }
    }

    /** The 11.5 s callback, run when its deadline has come. */
    method FireLookAtCodeTimer(chao: Chao, registry: GifUriRegistry, now: int)
      modifies this`lookAtCodeTimer, chao`state, chao`asset, chao`mirror
      ensures EngineState(chao.Runtime(), Fields())
              == AfterLookAtCodeTimer(old(EngineState(chao.Runtime(), Fields())), chao.Traits(registry), now)
    {
      if lookAtCodeTimer.Some? && lookAtCodeTimer.value <= now {
        chao.SetState(Idle(now), registry);
        lookAtCodeTimer := None;
      }
    }
  }
}
