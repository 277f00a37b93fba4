/**
 * The probability, threshold and time constants of the behaviour engine
 * (src/calculationConstants.ts), with the timer durations that
 * src/chao/chaoMovement.ts and src/chao/chao.ts write inline.
 * Probabilities are reals; times are whole milliseconds.
 */
module Constants {

  const SittingChanceWhileIdle: real := 0.01
  const MovementChanceAfterIdle: real := 0.3
  const FlyingChanceAfterIdle: real := 0.005

  const FallingChanceWhileMoving: real := 0.001

  const BaseIdleProbability: real := 0.01
  const IdleProbabilityStepIncrease: real := 0.005
  const MaxIdleProbability: real := 0.25

  const MinIdleTimeMs: int := 7000
  const MinMovingTimeMs: int := 7000
  const IdleProbabilityStepInterval: nat := 10

  const MinMovingTimeBeforeFallingMs: int := 2000
  const FallCooldownMs: int := 30000

  const MinSittingTimeMs: int := 10000
  const BaseStopSittingProbability: real := 0.02
  const StopSittingProbabilityStepIncrease: real := 0.005
  const MaxStopSittingProbability: real := 0.5
  const StopSittingProbabilityStepInterval: nat := 10

  /** After this long a fall stops carrying the chao sideways. */
  const FallingMovementMs: int := 1300
  /** Length of the falling animation; the fall then ends in Idle. */
  const FallingDurationMs: int := 8500
  /** Length of a code-watching episode; it then ends in Idle. */
  const LookAtCodeDurationMs: int := 11500
  /** Period of the animation interval that drives the engine. */
  const TickPeriodMs: int := 100

  predicate IsProbability(p: real) {
    0.0 <= p <= 1.0
  }

  /** What the constants promise one another. */
  lemma ConstantsAreConsistent()
    ensures IsProbability(SittingChanceWhileIdle) && IsProbability(MovementChanceAfterIdle)
    ensures IsProbability(FlyingChanceAfterIdle) && IsProbability(FallingChanceWhileMoving)
    ensures IsProbability(BaseIdleProbability) && IsProbability(IdleProbabilityStepIncrease)
    ensures IsProbability(MaxIdleProbability)
    ensures IsProbability(BaseStopSittingProbability) && IsProbability(StopSittingProbabilityStepIncrease)
    ensures IsProbability(MaxStopSittingProbability)
    ensures BaseIdleProbability <= MaxIdleProbability
    ensures BaseStopSittingProbability <= MaxStopSittingProbability
    ensures IdleProbabilityStepInterval > 0 && StopSittingProbabilityStepInterval > 0
    ensures 0 <= MinMovingTimeBeforeFallingMs < MinMovingTimeMs
    ensures 0 <= MinIdleTimeMs && 0 <= FallCooldownMs && 0 <= MinSittingTimeMs
    ensures 0 < FallingMovementMs < FallingDurationMs
  {
  }
}
