/**
 * The tag enum `ChaoState` and the `MovingDirection` enum (src/chao/chaoState.ts).
 */
module ChaoStates {

  /** A numeric TypeScript enum; the engine only compares tags for equality. */
  datatype ChaoState =
    | Idle
    | MovingLeft
    | MovingRight
    | Falling
    | Sitting
    | FlyingLeft
    | FlyingRight
    | LookingAtCode

  const AllTags: seq<ChaoState> :=
    [Idle, MovingLeft, MovingRight, Falling, Sitting, FlyingLeft, FlyingRight, LookingAtCode]

  /** The enum has exactly eight tags, each listed once. */
  lemma EightDistinctTags(s: ChaoState)
    ensures |AllTags| == 8 && s in AllTags
    ensures forall i, j :: 0 <= i < j < |AllTags| ==> AllTags[i] != AllTags[j]
  {
  }

  /** A string TypeScript enum. */
  datatype MovingDirection = Left | Right

  /** The string each direction stands for. */
  function DirectionValue(d: MovingDirection): (s: string)
    ensures s == "left" || s == "right"
    ensures (s == "left") == (d == Left)
  {
    match d
    case Left => "left"
    case Right => "right"
  }
}
