/**
 * The behaviour engine of src/chao/chaoMovement.ts as functions on values:
 * one tick (`updatePosition`), the transition choice (`updateState`), the
 * dynamic probabilities, the timer slots and their firing. The class
 * `ChaoAgent.ChaoMovement` is proved to do exactly what these functions say.
 *
 * Inputs the source reads from its environment are explicit: the time `now`
 * (one value per tick), the window and gif widths, the sidebar side, the
 * random draws of the tick, and the two code-watch constants that
 * src/calculationConstants.ts does not define.
 */
module MovementSpec {
  import opened Wrappers
  import opened Constants
  import ChaoStates
  import opened ChaoSpec
  import opened GifUriHelper
  import opened StateVariants

  /** The fields of a `ChaoMovement`. A timer slot holds the deadline of its pending callback. */
  datatype MovementFields = MovementFields(
    sittingStartTime: Option<int>,
    sittingSteps: nat,
    hasSatDuringIdle: bool,
    fallingTimer: Option<int>,
    fallingMovementTimer: Option<int>,
    lastFallTime: int,
    lookAtCodeTimer: Option<int>,
    lastLookAtCodeTime: int,
    movingStartTime: Option<int>)

  /** A freshly constructed `ChaoMovement`. */
  const InitialMovement: MovementFields :=
    MovementFields(None, 0, false, None, None, 0, None, 0, None)

  /**
   * The parts of a `Chao` a tick may change: position, state object, shown
   * asset and mirror (None until a `scaleX` transform is first written).
   */
  datatype ChaoRuntime = ChaoRuntime(position: real, state: ChaoStateVariant, asset: string, mirror: Option<Scale>)

  /** The parts of a `Chao` and its surroundings a tick only reads. */
  datatype ChaoTraits = ChaoTraits(chaoType: string, hovered: bool, speed: real, uris: Option<ChaoTypeUris>)

  datatype EngineState = EngineState(chao: ChaoRuntime, movement: MovementFields)

  /**
   * The `Math.random()` values of one tick: the first draw, the redraws for
   * the two code-watch cases, the flying draw, the direction draw and the
   * draw inside `shouldIdle`. A tick consumes only those its branch reaches.
   */
  datatype Draws = Draws(first: real, lookLeft: real, lookRight: real, fly: real, direction: real, idle: real)

  /**
   * The values of `CODE_WATCH_PROBABILITY` and `PAUSE_BETWEEN_CODE_WATCH_MS`,
   * None where the import is `undefined`; a comparison with `undefined` is false.
   */
  datatype CodeWatch = CodeWatch(probability: Option<real>, pauseMs: Option<int>)

  /**
   * src/calculationConstants.ts exports neither constant, so as written both
   * imports are `undefined`.
   */
  const CodeWatchAsWritten: CodeWatch := CodeWatch(None, None)

  /** `now - last >= PAUSE_BETWEEN_CODE_WATCH_MS`. */
  predicate PauseOver(now: int, last: int, w: CodeWatch) {
    w.pauseMs.Some? && now - last >= w.pauseMs.value
  }

  /** `random < CODE_WATCH_PROBABILITY`. */
  predicate WatchDrawWins(draw: real, w: CodeWatch) {
    w.probability.Some? && draw < w.probability.value
  }

  datatype TickInput = TickInput(now: int, view: Viewport, sidebar: string, draws: Draws, watch: CodeWatch)

  /** `now - (start || now)`: a missing or zero start time counts as no time elapsed. */
  function Elapsed(now: int, start: Option<int>): (d: int)
    ensures start.None? || start == Some(0) ==> d == 0
    ensures start.Some? && start.value != 0 ==> d + start.value == now
  {
    if start.Some? && start.value != 0 then now - start.value else 0
  }

  function Min(a: real, b: real): real {
    if a <= b then a else b
  }

  // ---------------------------------------------------------------------------
  // Dynamic probabilities
  // ---------------------------------------------------------------------------

  /** `min(base + floor(steps / interval) * increase, max)`. */
  function DynamicProbability(base: real, increase: real, interval: nat, max: real, steps: nat): real
    requires interval > 0
  {
    Min(base + (steps / interval) as real * increase, max)
  }

  /** The probability grows with the step count. */
  lemma {:induction false} DynamicProbabilityIsMonotone(
    base: real, increase: real, interval: nat, max: real, steps: nat, later: nat)
    requires interval > 0 && 0.0 <= increase && steps <= later
    ensures DynamicProbability(base, increase, interval, max, steps)
            <= DynamicProbability(base, increase, interval, max, later)
  {
    var k, l := steps / interval, later / interval;
    DivisionIsMonotone(steps, later, interval);
    ScalingIsMonotone(k as real, l as real, increase);
    var x, y := base + (k as real) * increase, base + (l as real) * increase;
    assert x <= y;
    assert Min(x, max) <= Min(y, max);
  }

  lemma ScalingIsMonotone(x: real, y: real, c: real)
    requires x <= y && 0.0 <= c
    ensures x * c <= y * c
  {
    assert y * c - x * c == (y - x) * c;
    assert 0.0 <= (y - x) * c;
  }

  lemma DivisionIsMonotone(a: nat, b: nat, d: nat)
    requires d > 0 && a <= b
    ensures a / d <= b / d
  {
    var k, l := a / d, b / d;
    assert a == d * k + a % d && 0 <= a % d;
    assert b == d * l + b % d && b % d < d;
    assert d * k < d * (l + 1);
    ProductOrder(d, k, l + 1);
  }

  /** Multiplying by a positive factor keeps the strict order of the factors. */
  lemma ProductOrder(d: int, x: int, y: int)
    requires d > 0 && d * x < d * y
    ensures x < y
  {
    assert d * (y - x) == d * y - d * x;
    assert d * (y - x) > 0;
    assert y - x > 0;
  }

  /** The probability never drops below its base nor exceeds its cap. */
  lemma DynamicProbabilityIsBounded(base: real, increase: real, interval: nat, max: real, steps: nat)
    requires interval > 0 && 0.0 <= increase && base <= max
    ensures base <= DynamicProbability(base, increase, interval, max, steps) <= max
  {
    assert 0.0 <= (steps / interval) as real * increase;
  }

  /** The idle probability of a walk or flight after `steps` counted steps. */
  function IdleProbability(steps: nat): real {
    DynamicProbability(BaseIdleProbability, IdleProbabilityStepIncrease, IdleProbabilityStepInterval,
                       MaxIdleProbability, steps)
  }

  /** The probability that a sitting chao gets up after `steps` sitting ticks. */
  function StopSittingProbability(steps: nat): real {
    DynamicProbability(BaseStopSittingProbability, StopSittingProbabilityStepIncrease,
                       StopSittingProbabilityStepInterval, MaxStopSittingProbability, steps)
  }

  /** The idle probability starts at 0.01, never falls, and reaches its 0.25 cap exactly from floor(steps/10) = 48. */
  lemma IdleProbabilityGrowsToItsCap(steps: nat, later: nat)
    requires steps <= later
    ensures IdleProbability(0) == BaseIdleProbability
    ensures BaseIdleProbability <= IdleProbability(steps) <= IdleProbability(later) <= MaxIdleProbability
    ensures IdleProbability(steps) == MaxIdleProbability <==> steps / 10 >= 48
  {
    DynamicProbabilityIsMonotone(BaseIdleProbability, IdleProbabilityStepIncrease, IdleProbabilityStepInterval,
                                 MaxIdleProbability, steps, later);
    DynamicProbabilityIsBounded(BaseIdleProbability, IdleProbabilityStepIncrease, IdleProbabilityStepInterval,
                                MaxIdleProbability, steps);
    DynamicProbabilityIsBounded(BaseIdleProbability, IdleProbabilityStepIncrease, IdleProbabilityStepInterval,
                                MaxIdleProbability, later);
  }

  /** The stop-sitting probability starts at 0.02, never falls, and reaches its 0.5 cap exactly from floor(steps/10) = 96. */
  lemma StopSittingProbabilityGrowsToItsCap(steps: nat, later: nat)
    requires steps <= later
    ensures StopSittingProbability(0) == BaseStopSittingProbability
    ensures BaseStopSittingProbability <= StopSittingProbability(steps) <= StopSittingProbability(later)
            <= MaxStopSittingProbability
    ensures StopSittingProbability(steps) == MaxStopSittingProbability <==> steps / 10 >= 96
    ensures StopSittingProbability(30) == 0.035
  {
    DynamicProbabilityIsMonotone(BaseStopSittingProbability, StopSittingProbabilityStepIncrease,
                                 StopSittingProbabilityStepInterval, MaxStopSittingProbability, steps, later);
    DynamicProbabilityIsBounded(BaseStopSittingProbability, StopSittingProbabilityStepIncrease,
                                StopSittingProbabilityStepInterval, MaxStopSittingProbability, steps);
    DynamicProbabilityIsBounded(BaseStopSittingProbability, StopSittingProbabilityStepIncrease,
                                StopSittingProbabilityStepInterval, MaxStopSittingProbability, later);
  }

  /**
   * `shouldIdle`: a fresh draw below the idle probability, after at least
   * `MinMovingTimeMs` of moving.
   */
  function WantsToIdle(m: MovementFields, movingSteps: nat, now: int, draw: real): bool {
    draw < IdleProbability(movingSteps) && Elapsed(now, m.movingStartTime) >= MinMovingTimeMs
  }

  /** A walk that never recorded its start time can never choose to idle. */
  lemma NoIdleWithoutMovingStart(m: MovementFields, movingSteps: nat, now: int, draw: real)
    requires m.movingStartTime.None? || m.movingStartTime == Some(0)
    ensures !WantsToIdle(m, movingSteps, now, draw)
  {
  }

  // ---------------------------------------------------------------------------
  // The state setter and the timers
  // ---------------------------------------------------------------------------

  /**
   * What the `Chao.state` setter as written leaves behind. The state object is
   * always replaced; `completed` is false when `updateGifForState` threw on the
   * missing hook, and then neither the asset nor the mirror is written.
   */
  datatype Assignment = Assignment(chao: ChaoRuntime, completed: bool)

  /** The `Chao.state` setter as written. */
  function AssignStateAsWritten(c: ChaoRuntime, v: ChaoStateVariant, traits: ChaoTraits): (a: Assignment)
    ensures a.chao.state == v && a.chao.position == c.position
    ensures !a.completed <==> (v.Idle? && !traits.hovered) || v.MovingLeft? || v.MovingRight?
    ensures !a.completed ==> a.chao.asset == c.asset && a.chao.mirror == c.mirror
  {
    match GetGifAsWritten(v, traits.chaoType, traits.hovered, traits.uris)
    case Some(src) => Assignment(c.(state := v, asset := src, mirror := Some(ScaleForGif(v))), true)
    case None => Assignment(c.(state := v), false)
  }

  /**
   * As written, the setter throws for an unhovered Idle and for both walks. A
   * new chao is not hovered, so its `setRandomPosition` (and `restoreState`)
   * throws before `startAnimation` and the push onto the roster; an idle chao
   * setting off on foot throws inside `updateState`, before the walk's start
   * time is recorded.
   */
  lemma MissingHookAbortsAsWritten(c: ChaoRuntime, traits: ChaoTraits, now: int, view: Viewport, d: Draws)
    requires !traits.hovered
    ensures !AssignStateAsWritten(c, Idle(now), traits).completed
    ensures d.fly >= FlyingChanceAfterIdle ==> !AssignStateAsWritten(c, Departure(c.position, view, d), traits).completed
  {
  }

  /**
   * The `Chao.state` setter with the hook as intended: the whole state object is
   * replaced, then the asset and the mirror are written from the new variant.
   * Wherever the setter as written completes, it agrees with this one.
   */
  function AssignState(c: ChaoRuntime, v: ChaoStateVariant, traits: ChaoTraits): (r: ChaoRuntime)
    ensures r.state == v && r.position == c.position
    ensures r.asset == GetGif(v, traits.chaoType, traits.hovered, traits.uris) && r.mirror == Some(ScaleForGif(v))
    ensures AssignStateAsWritten(c, v, traits).completed ==> r == AssignStateAsWritten(c, v, traits).chao
  {
    c.(state := v, asset := GetGif(v, traits.chaoType, traits.hovered, traits.uris), mirror := Some(ScaleForGif(v)))
  }

  /**
   * `startFallingTimer`: both fall slots are re-armed (cancelling whatever they
   * held), the fall time is recorded and the falling state may move again.
   */
  function FallTimersArmed(e: EngineState, now: int): EngineState {
    var c := if e.chao.state.Falling? then e.chao.(state := e.chao.state.(canMoveWhileFalling := true)) else e.chao;
    EngineState(c, e.movement.(lastFallTime := now,
                               fallingMovementTimer := Some(now + FallingMovementMs),
                               fallingTimer := Some(now + FallingDurationMs)))
  }

  /** `startLookingAtCodeTimer`: the look slot is re-armed and the look time recorded. */
  function LookTimerArmed(m: MovementFields, now: int): MovementFields {
    m.(lastLookAtCodeTime := now, lookAtCodeTimer := Some(now + LookAtCodeDurationMs))
  }

  /** `stop`: all three slots are emptied. */
  function TimersCleared(m: MovementFields): MovementFields {
    m.(fallingTimer := None, fallingMovementTimer := None, lookAtCodeTimer := None)
  }

  /** A slot holds a callback whose deadline has come. */
  predicate Due(slot: Option<int>, now: int) {
    slot.Some? && slot.value <= now
  }

  /** The 1.3 s callback: a falling state stops moving sideways; the slot empties. */
  function AfterFallingMovementTimer(e: EngineState, now: int): EngineState {
    if Due(e.movement.fallingMovementTimer, now) then
      var c := if e.chao.state.Falling? then e.chao.(state := e.chao.state.(canMoveWhileFalling := false)) else e.chao;
      EngineState(c, e.movement.(fallingMovementTimer := None))
    else e
  }

  /** The 8.5 s callback: the chao becomes Idle, a new idle episode begins; the slot empties. */
  function AfterFallingTimer(e: EngineState, traits: ChaoTraits, now: int): EngineState {
    if Due(e.movement.fallingTimer, now) then
      EngineState(AssignState(e.chao, Idle(now), traits),
                  e.movement.(hasSatDuringIdle := false, fallingTimer := None))
    else e
  }

  /** The 11.5 s callback: the chao becomes Idle; the slot empties. */
  function AfterLookAtCodeTimer(e: EngineState, traits: ChaoTraits, now: int): EngineState {
    if Due(e.movement.lookAtCodeTimer, now) then
      EngineState(AssignState(e.chao, Idle(now), traits), e.movement.(lookAtCodeTimer := None))
    else e
  }

  // ---------------------------------------------------------------------------
  // updateState
  // ---------------------------------------------------------------------------

  /** The code-watch case that fires this tick, if any (lines 103-137). */
  function CodeWatchChoice(c: ChaoRuntime, m: MovementFields, input: TickInput): Option<ChaoStateVariant> {
    if PauseOver(input.now, m.lastLookAtCodeTime, input.watch) then
      var max := input.view.MaxPosition();
      var onLeftSide := c.position <= max * 0.2;
      var onRightSide := c.position >= max * 0.8;
      if onLeftSide && input.sidebar == "right" && WatchDrawWins(input.draws.lookLeft, input.watch) then
        Some(LookAtCodeToLeft(0))
      else if onRightSide && input.sidebar == "left" && WatchDrawWins(input.draws.lookRight, input.watch) then
        Some(LookAtCodeToRight(0))
      else None
    else None
  }

  /** The value `random` holds after the code-watch block when no look started: it may have been redrawn. */
  function DrawAfterCodeWatch(c: ChaoRuntime, m: MovementFields, input: TickInput): real {
    if PauseOver(input.now, m.lastLookAtCodeTime, input.watch) then
      var max := input.view.MaxPosition();
      var r1 := if c.position <= max * 0.2 && input.sidebar == "right" then input.draws.lookLeft else input.draws.first;
      if c.position >= max * 0.8 && input.sidebar == "left" then input.draws.lookRight else r1
    else input.draws.first
  }

  /**
   * With the constants as the source imports them the code-watch block never
   * runs: no look starts and the first draw is never replaced.
   */
  lemma CodeWatchNeverRunsAsWritten(c: ChaoRuntime, m: MovementFields, input: TickInput)
    requires input.watch == CodeWatchAsWritten
    ensures CodeWatchChoice(c, m, input).None?
    ensures DrawAfterCodeWatch(c, m, input) == input.draws.first
  {
  }

  /**
   * The walk or flight an idle chao sets off in: away from a wall it touches,
   * otherwise left or right by the direction draw; flying by the fly draw.
   */
  function Departure(position: real, view: Viewport, d: Draws): ChaoStateVariant {
    var shouldFly := d.fly < FlyingChanceAfterIdle;
    if position <= 0.0 then (if shouldFly then FlyingRight(0) else MovingRight(0))
    else if position >= view.MaxPosition() then (if shouldFly then FlyingLeft(0) else MovingLeft(0))
    else if shouldFly then (if d.direction < 0.5 then FlyingLeft(0) else FlyingRight(0))
    else if d.direction < 0.5 then MovingLeft(0) else MovingRight(0)
  }

  /** The walk/flight variants. */
  predicate IsTravelling(v: ChaoStateVariant) {
    v.MovingLeft? || v.MovingRight? || v.FlyingLeft? || v.FlyingRight?
  }

  /** A departure is a fresh walk or flight, heading away from a wall it touches. */
  lemma DepartureLeavesTheWall(position: real, view: Viewport, d: Draws)
    ensures IsTravelling(Departure(position, view, d)) && Departure(position, view, d).movingSteps == 0
    ensures position <= 0.0 ==> Departure(position, view, d).MovingRight? || Departure(position, view, d).FlyingRight?
    ensures 0.0 < position && position >= view.MaxPosition() ==>
              Departure(position, view, d).MovingLeft? || Departure(position, view, d).FlyingLeft?
    ensures (Departure(position, view, d).FlyingLeft? || Departure(position, view, d).FlyingRight?)
            <==> d.fly < FlyingChanceAfterIdle
  {
  }

  /** The idle branch of `updateState`. */
  function IdleTransition(e: EngineState, traits: ChaoTraits, input: TickInput): EngineState
    requires e.chao.state.Idle?
  {
    var c, m, now := e.chao, e.movement, input.now;
    if input.draws.first < SittingChanceWhileIdle && !m.hasSatDuringIdle then
      EngineState(AssignState(c, Sitting, traits),
                  m.(hasSatDuringIdle := true, sittingStartTime := Some(now), sittingSteps := 0))
    else if CodeWatchChoice(c, m, input).Some? then
      EngineState(AssignState(c, CodeWatchChoice(c, m, input).value, traits), LookTimerArmed(m, now))
    else if Elapsed(now, Some(c.state.idleStartTime)) >= MinIdleTimeMs
            && DrawAfterCodeWatch(c, m, input) < MovementChanceAfterIdle then
      EngineState(AssignState(c, Departure(c.position, input.view, input.draws), traits),
                  m.(movingStartTime := Some(now), hasSatDuringIdle := false))
    else e
  }

  /** The walking branch: count the step, maybe fall, maybe idle. */
  function WalkTransition(e: EngineState, traits: ChaoTraits, input: TickInput): EngineState
    requires e.chao.state.MovingLeft? || e.chao.state.MovingRight?
  {
    var m, now := e.movement, input.now;
    var steps := e.chao.state.movingSteps + 1;
    var c := e.chao.(state := e.chao.state.(movingSteps := steps));
    if input.draws.first < FallingChanceWhileMoving
       && now - m.lastFallTime >= FallCooldownMs
       && Elapsed(now, m.movingStartTime) >= MinMovingTimeBeforeFallingMs then
      var direction := if c.state.MovingLeft? then ChaoStates.Left else ChaoStates.Right;
      FallTimersArmed(EngineState(AssignState(c, Falling(direction, true), traits), m), now)
    else if WantsToIdle(m, steps, now, input.draws.idle) then
      EngineState(AssignState(c, Idle(now), traits), m.(movingStartTime := None, hasSatDuringIdle := false))
    else EngineState(c, m)
  }

  /** The flying branch: no step is counted; maybe idle. */
  function FlyTransition(e: EngineState, traits: ChaoTraits, input: TickInput): EngineState
    requires e.chao.state.FlyingLeft? || e.chao.state.FlyingRight?
  {
    if WantsToIdle(e.movement, e.chao.state.movingSteps, input.now, input.draws.idle) then
      EngineState(AssignState(e.chao, Idle(input.now), traits),
                  e.movement.(movingStartTime := None, hasSatDuringIdle := false))
    else e
  }

  /** The sitting branch: count the tick, maybe get up. */
  function SitTransition(e: EngineState, traits: ChaoTraits, input: TickInput): EngineState
    requires e.chao.state.Sitting?
  {
    var m := e.movement;
    var steps := m.sittingSteps + 1;
    if Elapsed(input.now, m.sittingStartTime) >= MinSittingTimeMs
       && input.draws.first < StopSittingProbability(steps) then
      EngineState(AssignState(e.chao, Idle(input.now), traits),
                  m.(sittingSteps := 0, sittingStartTime := None))
    else EngineState(e.chao, m.(sittingSteps := steps))
  }

  /** `updateState`: Falling and the look-at-code variants wait for their timers. */
  function StateTransition(e: EngineState, traits: ChaoTraits, input: TickInput): EngineState {
    match e.chao.state
    case Idle(_) => IdleTransition(e, traits, input)
    case MovingLeft(_) => WalkTransition(e, traits, input)
    case MovingRight(_) => WalkTransition(e, traits, input)
    case FlyingLeft(_) => FlyTransition(e, traits, input)
    case FlyingRight(_) => FlyTransition(e, traits, input)
    case Sitting => SitTransition(e, traits, input)
    case Falling(_, _) => e
    case LookAtCodeToLeft(_) => e
    case LookAtCodeToRight(_) => e
  }

  // ---------------------------------------------------------------------------
  // updatePosition
  // ---------------------------------------------------------------------------

  /** The chao is at the wall it is walking or flying towards. */
  predicate AtWallAhead(c: ChaoRuntime, view: Viewport) {
    (c.position <= 0.0 && (c.state.MovingLeft? || c.state.FlyingLeft?))
    || (c.position >= view.MaxPosition() && (c.state.MovingRight? || c.state.FlyingRight?))
  }

  /**
   * `updatePosition`: at the wall ahead the chao becomes Idle and nothing else
   * happens; otherwise `updateState` runs and the (possibly new) state moves it.
   */
  function Tick(e: EngineState, traits: ChaoTraits, input: TickInput): EngineState {
    if AtWallAhead(e.chao, input.view) then
      EngineState(AssignState(e.chao, Idle(input.now), traits), e.movement)
    else
      var u := StateTransition(e, traits, input);
      EngineState(u.chao.(position := Moved(u.chao.state, u.chao.position, traits.speed, input.view.MaxPosition())),
                  u.movement)
  }

  // ---------------------------------------------------------------------------
  // Properties of one tick
  // ---------------------------------------------------------------------------

  /** At the wall ahead a tick only makes the chao Idle: no move, no draw, no timer. */
  lemma WallAheadStopsTheChao(e: EngineState, traits: ChaoTraits, input: TickInput)
    requires AtWallAhead(e.chao, input.view)
    ensures Tick(e, traits, input).chao.state == Idle(input.now)
    ensures Tick(e, traits, input).chao.position == e.chao.position
    ensures Tick(e, traits, input).movement == e.movement
  {
  }

  /** A chao inside the track stays inside it, and moves at most `speed` per tick. */
  lemma TickKeepsPositionInRange(e: EngineState, traits: ChaoTraits, input: TickInput)
    requires 0.0 <= e.chao.position <= input.view.MaxPosition()
    requires 0.0 <= traits.speed
    ensures 0.0 <= Tick(e, traits, input).chao.position <= input.view.MaxPosition()
    ensures e.chao.position - traits.speed <= Tick(e, traits, input).chao.position <= e.chao.position + traits.speed
  {
    if !AtWallAhead(e.chao, input.view) {
      var u := StateTransition(e, traits, input);
      assert u.chao.position == e.chao.position by {
        match e.chao.state
        case Idle(_) =>
        case MovingLeft(_) =>
        case MovingRight(_) =>
        case FlyingLeft(_) =>
        case FlyingRight(_) =>
        case Sitting =>
        case Falling(_, _) =>
        case LookAtCodeToLeft(_) =>
        case LookAtCodeToRight(_) =>
      }
    }
  }

  /**
   * A walking tick away from the wall has three outcomes: the walk continues
   * one step further, the chao falls in its walking direction with both fall
   * timers armed, or a new idle episode begins and the walk's start is forgotten.
   */
  lemma WalkingTickOutcomes(e: EngineState, traits: ChaoTraits, input: TickInput)
    requires e.chao.state.MovingLeft? || e.chao.state.MovingRight?
    requires !AtWallAhead(e.chao, input.view)
    ensures var r := Tick(e, traits, input);
      || (r.chao.state == e.chao.state.(movingSteps := e.chao.state.movingSteps + 1) && r.movement == e.movement)
      || (r.chao.state.Falling? && r.chao.state.canMoveWhileFalling
          && (r.chao.state.fallingDirection == ChaoStates.Left <==> e.chao.state.MovingLeft?)
          && r.movement.lastFallTime == input.now
          && r.movement.fallingTimer == Some(input.now + FallingDurationMs)
          && r.movement.fallingMovementTimer == Some(input.now + FallingMovementMs))
      || (r.chao.state == Idle(input.now) && r.movement.movingStartTime.None? && !r.movement.hasSatDuringIdle)
    ensures var r := Tick(e, traits, input);
      r.chao.state.Falling? <==>
        input.draws.first < FallingChanceWhileMoving
        && input.now - e.movement.lastFallTime >= FallCooldownMs
        && Elapsed(input.now, e.movement.movingStartTime) >= MinMovingTimeBeforeFallingMs
  {
  }

  /** Falls are at least the cooldown apart: a fall needs 30 s since the last recorded one. */
  lemma FallsRespectTheCooldown(e: EngineState, traits: ChaoTraits, input: TickInput)
    requires !e.chao.state.Falling? && Tick(e, traits, input).chao.state.Falling?
    ensures e.chao.state.MovingLeft? || e.chao.state.MovingRight?
    ensures input.now - e.movement.lastFallTime >= FallCooldownMs
    ensures Tick(e, traits, input).movement.lastFallTime == input.now
  {
  }

  /** A flight never counts steps: it goes on unchanged or ends in a new idle episode. */
  lemma FlyingNeverCountsSteps(e: EngineState, traits: ChaoTraits, input: TickInput)
    requires e.chao.state.FlyingLeft? || e.chao.state.FlyingRight?
    requires !AtWallAhead(e.chao, input.view)
    ensures var r := Tick(e, traits, input);
      (r.chao.state == e.chao.state && r.movement == e.movement)
      || (r.chao.state == Idle(input.now) && r.movement.movingStartTime.None? && !r.movement.hasSatDuringIdle)
    ensures Tick(e, traits, input).chao.state == Idle(input.now)
            <==> WantsToIdle(e.movement, e.chao.state.movingSteps, input.now, input.draws.idle)
  {
  }

  /** Falling and looking at code are ended by their timers only: a tick leaves state and fields alone. */
  lemma TimedStatesIgnoreTicks(e: EngineState, traits: ChaoTraits, input: TickInput)
    requires e.chao.state.Falling? || e.chao.state.LookAtCodeToLeft? || e.chao.state.LookAtCodeToRight?
    ensures Tick(e, traits, input).chao.state == e.chao.state
    ensures Tick(e, traits, input).chao.asset == e.chao.asset
    ensures Tick(e, traits, input).movement == e.movement
  {
  }

  /**
   * A chao sits down only out of an idle episode in which it has not sat yet;
   * the sitting clock starts then.
   */
  lemma SittingOnlyOncePerIdleEpisode(e: EngineState, traits: ChaoTraits, input: TickInput)
    requires !e.chao.state.Sitting? && Tick(e, traits, input).chao.state.Sitting?
    ensures e.chao.state.Idle? && !e.movement.hasSatDuringIdle
    ensures input.draws.first < SittingChanceWhileIdle
    ensures Tick(e, traits, input).movement.hasSatDuringIdle
    ensures Tick(e, traits, input).movement.sittingStartTime == Some(input.now)
    ensures Tick(e, traits, input).movement.sittingSteps == 0
  {
  }

  /** The sat-flag is cleared only where an idle episode begins or ends at a tick. */
  lemma SatFlagClearedAtEpisodeBoundaries(e: EngineState, traits: ChaoTraits, input: TickInput)
    requires e.movement.hasSatDuringIdle && !Tick(e, traits, input).movement.hasSatDuringIdle
    ensures || (e.chao.state.Idle? && IsTravelling(Tick(e, traits, input).chao.state))
            || (IsTravelling(e.chao.state) && Tick(e, traits, input).chao.state == Idle(input.now))
  {
  }

  /**
   * A sitting tick counts one more step and then either the chao stays seated
   * or, after the minimum sitting time, it stands up and the sitting record is
   * reset; the sat-flag survives, so it cannot sit again in the next idle episode.
   */
  lemma SittingTickOutcomes(e: EngineState, traits: ChaoTraits, input: TickInput)
    requires e.chao.state.Sitting?
    ensures var r := Tick(e, traits, input);
      || (r.chao.state == Sitting && r.movement == e.movement.(sittingSteps := e.movement.sittingSteps + 1))
      || (r.chao.state == Idle(input.now) && r.movement.sittingSteps == 0 && r.movement.sittingStartTime.None?
          && r.movement.hasSatDuringIdle == e.movement.hasSatDuringIdle)
    ensures Tick(e, traits, input).chao.state.Idle? <==>
      Elapsed(input.now, e.movement.sittingStartTime) >= MinSittingTimeMs
      && input.draws.first < StopSittingProbability(e.movement.sittingSteps + 1)
    ensures Tick(e, traits, input).chao.position == e.chao.position
  {
  }

  /**
   * Looking at code to the left happens only to an idle chao in the left fifth
   * of the track, with the sidebar on the right, after the pause since the last
   * look, and it arms the look timer.
   */
  lemma LookLeftGuard(e: EngineState, traits: ChaoTraits, input: TickInput)
    requires !e.chao.state.LookAtCodeToLeft? && Tick(e, traits, input).chao.state.LookAtCodeToLeft?
    ensures e.chao.state.Idle? && !AtWallAhead(e.chao, input.view)
    ensures input.sidebar == "right" && e.chao.position <= input.view.MaxPosition() * 0.2
    ensures PauseOver(input.now, e.movement.lastLookAtCodeTime, input.watch)
    ensures WatchDrawWins(input.draws.lookLeft, input.watch)
    ensures Tick(e, traits, input).movement == LookTimerArmed(e.movement, input.now)
  {
  }

  /** The mirror image of `LookLeftGuard`. */
  lemma LookRightGuard(e: EngineState, traits: ChaoTraits, input: TickInput)
    requires !e.chao.state.LookAtCodeToRight? && Tick(e, traits, input).chao.state.LookAtCodeToRight?
    ensures e.chao.state.Idle? && !AtWallAhead(e.chao, input.view)
    ensures input.sidebar == "left" && e.chao.position >= input.view.MaxPosition() * 0.8
    ensures PauseOver(input.now, e.movement.lastLookAtCodeTime, input.watch)
    ensures WatchDrawWins(input.draws.lookRight, input.watch)
    ensures Tick(e, traits, input).movement == LookTimerArmed(e.movement, input.now)
  {
  }

  /**
   * An idle chao sets off only after the minimum idle time and on a draw below
   * the movement chance, and then on the departure its position and draws
   * choose, a fresh walk or flight with its start time recorded.
   */
  lemma DepartureNeedsMinimumIdleTime(e: EngineState, traits: ChaoTraits, input: TickInput)
    requires e.chao.state.Idle? && IsTravelling(Tick(e, traits, input).chao.state)
    ensures Elapsed(input.now, Some(e.chao.state.idleStartTime)) >= MinIdleTimeMs
    ensures DrawAfterCodeWatch(e.chao, e.movement, input) < MovementChanceAfterIdle
    ensures Tick(e, traits, input).chao.state == Departure(e.chao.position, input.view, input.draws)
    ensures Tick(e, traits, input).chao.state.movingSteps == 0
    ensures Tick(e, traits, input).movement.movingStartTime == Some(input.now)
    ensures !Tick(e, traits, input).movement.hasSatDuringIdle
  {
  }

  /**
   * A scenario: an idle chao in mid-track that has sat already, after 8 s of
   * idling, with draws 0.2 (move), 0.9 (walk) and 0.3 (left), with the sidebar
   * hidden, walks one pixel to the left.
   */
  lemma IdleChaoSetsOffToTheLeft(m: MovementFields, c: ChaoRuntime, traits: ChaoTraits)
    requires c.state == Idle(1000) && c.position == 50.0 && m.hasSatDuringIdle
    requires traits.speed == 1.0
    ensures var input := TickInput(9000, Viewport(140.0, 40.0), "", Draws(0.2, 0.0, 0.0, 0.9, 0.3, 0.0), CodeWatch(Some(0.1), Some(0)));
      var r := Tick(EngineState(c, m), traits, input);
      r.chao.state == MovingLeft(0) && r.chao.position == 49.0
      && r.movement == m.(movingStartTime := Some(9000), hasSatDuringIdle := false)
  {
  }

  // ---------------------------------------------------------------------------
  // Properties of the timers
  // ---------------------------------------------------------------------------

  /** Starting a fall again cancels the earlier one: only the latest start is remembered. */
  lemma RestartedFallReplacesTheEarlierOne(e: EngineState, t1: int, t2: int)
    ensures FallTimersArmed(FallTimersArmed(e, t1), t2) == FallTimersArmed(e, t2)
  {
  }

  /** Restarting the look timer likewise replaces the pending look. */
  lemma RestartedLookReplacesTheEarlierOne(m: MovementFields, t1: int, t2: int)
    ensures LookTimerArmed(LookTimerArmed(m, t1), t2) == LookTimerArmed(m, t2)
  {
  }

  /** After `stop` no timer callback does anything. */
  lemma StoppedTimersNeverFire(e: EngineState, traits: ChaoTraits, now: int)
    ensures var s := EngineState(e.chao, TimersCleared(e.movement));
      AfterFallingMovementTimer(s, now) == s
      && AfterFallingTimer(s, traits, now) == s
      && AfterLookAtCodeTimer(s, traits, now) == s
  {
  }

  /** A callback fires at most once: once it has run, a second firing finds its slot empty. */
  lemma TimersFireOnce(e: EngineState, traits: ChaoTraits, now: int, later: int)
    ensures Due(e.movement.fallingTimer, now) ==>
      var f := AfterFallingTimer(e, traits, now); AfterFallingTimer(f, traits, later) == f
    ensures Due(e.movement.fallingMovementTimer, now) ==>
      var f := AfterFallingMovementTimer(e, now); AfterFallingMovementTimer(f, later) == f
    ensures Due(e.movement.lookAtCodeTimer, now) ==>
      var f := AfterLookAtCodeTimer(e, traits, now); AfterLookAtCodeTimer(f, traits, later) == f
  {
  }

  /**
   * The fall timeline: a fall started at `t` moves sideways until `t + 1300`,
   * stops moving then, and turns into a new idle episode at `t + 8500`.
   */
  lemma FallTimeline(e: EngineState, traits: ChaoTraits, t: int, dir: ChaoStates.MovingDirection)
    requires e.chao.state == Falling(dir, true)
    ensures var f := FallTimersArmed(e, t);
      AfterFallingMovementTimer(f, t + FallingMovementMs - 1) == f
      && AfterFallingTimer(f, traits, t + FallingDurationMs - 1) == f
    ensures var g := AfterFallingMovementTimer(FallTimersArmed(e, t), t + FallingMovementMs);
      g.chao.state == Falling(dir, false) && g.movement.fallingMovementTimer.None?
      && g.movement.fallingTimer == Some(t + FallingDurationMs)
    ensures var h := AfterFallingTimer(AfterFallingMovementTimer(FallTimersArmed(e, t), t + FallingMovementMs),
                                       traits, t + FallingDurationMs);
      h.chao.state == Idle(t + FallingDurationMs) && h.chao.position == e.chao.position
      && !h.movement.hasSatDuringIdle && h.movement.fallingTimer.None? && h.movement.fallingMovementTimer.None?
  {
  }

  /** The look timeline: a look started at `t` ends in a new idle state at `t + 11500`, not before. */
  lemma LookTimeline(e: EngineState, traits: ChaoTraits, t: int)
    ensures var f := EngineState(e.chao, LookTimerArmed(e.movement, t));
      AfterLookAtCodeTimer(f, traits, t + LookAtCodeDurationMs - 1) == f
    ensures var h := AfterLookAtCodeTimer(EngineState(e.chao, LookTimerArmed(e.movement, t)), traits,
                                          t + LookAtCodeDurationMs);
      h.chao.state == Idle(t + LookAtCodeDurationMs) && h.movement.lookAtCodeTimer.None?
      && h.movement.lastLookAtCodeTime == t
  {
  }
}
