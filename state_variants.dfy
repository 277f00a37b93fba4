/**
 * The state classes (the files under src/chao/state) as one tagged union. Each variant
 * carries the data its class declares and supplies a tag, an asset name, a
 * mirror value and a movement rule.
 */
module StateVariants {
  import opened Wrappers
  import ChaoStates
  import opened ChaoSpec
  import opened GifUriHelper
  import opened ChaoTypes
  import opened ChaoGifs

  /** The argument of `scaleX(...)`: a string ('-1' by default) or a number. */
  datatype Scale = ScaleText(text: string) | ScaleNumber(number: int)

  /** `AbstractChaoState.getScaleForGif`: the string '-1', not the number. */
  const DefaultScale: Scale := ScaleText("-1")

  /**
   * One state object. `movingSteps` is the counter of `AbstractMovingState`,
   * shared by the walk, fly and look-at-code variants; `idleStartTime` is the
   * creation time of an `IdleState`.
   */
  datatype ChaoStateVariant =
    | Idle(idleStartTime: int)
    | Sitting
    | MovingLeft(movingSteps: nat)
    | MovingRight(movingSteps: nat)
    | FlyingLeft(movingSteps: nat)
    | FlyingRight(movingSteps: nat)
    | Falling(fallingDirection: ChaoStates.MovingDirection, canMoveWhileFalling: bool)
    | LookAtCodeToLeft(movingSteps: nat)
    | LookAtCodeToRight(movingSteps: nat)

  /** The classes derived from `AbstractMovingState`. */
  predicate IsMovingFamily(v: ChaoStateVariant) {
    v.MovingLeft? || v.MovingRight? || v.FlyingLeft? || v.FlyingRight?
    || v.LookAtCodeToLeft? || v.LookAtCodeToRight?
  }

  /** The tag each class passes to its base constructor. */
  function Tag(v: ChaoStateVariant): (s: ChaoStates.ChaoState)
    ensures s == ChaoStates.LookingAtCode <==> v.LookAtCodeToLeft? || v.LookAtCodeToRight?
  {
    match v
    case Idle(_) => ChaoStates.Idle
    case Sitting => ChaoStates.Sitting
    case MovingLeft(_) => ChaoStates.MovingLeft
    case MovingRight(_) => ChaoStates.MovingRight
    case FlyingLeft(_) => ChaoStates.FlyingLeft
    case FlyingRight(_) => ChaoStates.FlyingRight
    case Falling(_, _) => ChaoStates.Falling
    case LookAtCodeToLeft(_) => ChaoStates.LookingAtCode
    case LookAtCodeToRight(_) => ChaoStates.LookingAtCode
  }

  /** Each tag except lookingAtCode identifies its class; the look direction lives only in the class. */
  lemma TagIdentifiesClassExceptLookingAtCode(v: ChaoStateVariant, w: ChaoStateVariant)
    requires Tag(v) == Tag(w) && Tag(v) != ChaoStates.LookingAtCode
    ensures v.Idle? == w.Idle? && v.Sitting? == w.Sitting? && v.Falling? == w.Falling?
    ensures v.MovingLeft? == w.MovingLeft? && v.MovingRight? == w.MovingRight?
    ensures v.FlyingLeft? == w.FlyingLeft? && v.FlyingRight? == w.FlyingRight?
  {
  }

  /**
   * The `getGifStateName` hook the base `getGif` calls, as the classes define
   * it. `IdleState`, `MovingLeftState` and `MovingRightState` do not define it
   * (they define `getStateName` instead), so for them the hook is absent.
   */
  function GifStateName(v: ChaoStateVariant): Option<string> {
    match v
    case Idle(_) => None
    case MovingLeft(_) => None
    case MovingRight(_) => None
    case Sitting => Some("sitting")
    case FlyingLeft(_) => Some("flying")
    case FlyingRight(_) => Some("flying")
    case Falling(_, _) => Some("falling")
    case LookAtCodeToLeft(_) => Some("code_watch_to_left")
    case LookAtCodeToRight(_) => Some("code_watch_to_right")
  }

  /** The `getStateName` method that `IdleState` and the two walking classes define. */
  function DeclaredStateName(v: ChaoStateVariant): Option<string> {
    match v
    case Idle(_) => Some("idle")
    case MovingLeft(_) => Some("walking")
    case MovingRight(_) => Some("walking")
    case _ => None
  }

  /**
   * Every class names its asset through exactly one of the two methods, and the
   * three that use `getStateName` are those the base `getGif` cannot serve.
   */
  lemma AssetNameHookMismatch(v: ChaoStateVariant)
    ensures GifStateName(v).Some? != DeclaredStateName(v).Some?
    ensures GifStateName(v).None? <==> v.Idle? || v.MovingLeft? || v.MovingRight?
  {
  }

  /**
   * The hook as evidently intended: the name each class declares, whichever of
   * the two methods declares it.
   */
  function IntendedGifStateName(v: ChaoStateVariant): (s: string)
    ensures GifStateName(v).Some? ==> s == GifStateName(v).value
    ensures DeclaredStateName(v).Some? ==> s == DeclaredStateName(v).value
  {
    match v
    case Idle(_) => "idle"
    case MovingLeft(_) => "walking"
    case MovingRight(_) => "walking"
    case Sitting => "sitting"
    case FlyingLeft(_) => "flying"
    case FlyingRight(_) => "flying"
    case Falling(_, _) => "falling"
    case LookAtCodeToLeft(_) => "code_watch_to_left"
    case LookAtCodeToRight(_) => "code_watch_to_right"
  }

  /**
   * The state name `getGif` asks `generateGifUri` for, with the hook as
   * intended. Idle and Sitting ask for their "happy" asset while hovered.
   */
  function AssetName(v: ChaoStateVariant, hovered: bool): string {
    match v
    case Idle(_) => if hovered then "standing_happy" else IntendedGifStateName(v)
    case Sitting => if hovered then "sitting_happy" else IntendedGifStateName(v)
    case _ => IntendedGifStateName(v)
  }

  /**
   * `getGif(chaoType)` as written: None where it calls the missing hook, which
   * throws a TypeError, and the looked-up URI otherwise.
   */
  function GetGifAsWritten(v: ChaoStateVariant, chaoType: string, hovered: bool, uris: Option<ChaoTypeUris>)
    : (r: Option<string>)
    ensures r.None? <==> (v.Idle? && !hovered) || v.MovingLeft? || v.MovingRight?
    ensures r.Some? && !v.Idle? && !(v.Sitting? && hovered) ==> GifStateName(v).Some?
  {
    if v.Idle? && hovered then Some(GenerateGifUri(uris, chaoType, "standing_happy"))
    else if v.Sitting? && hovered then Some(GenerateGifUri(uris, chaoType, "sitting_happy"))
    else match GifStateName(v)
      case None => None
      case Some(name) => Some(GenerateGifUri(uris, chaoType, name))
  }

  /**
   * `getGif(chaoType)` with the hook as intended. Wherever the code as written
   * gets a URI, this is the same URI.
   */
  function GetGif(v: ChaoStateVariant, chaoType: string, hovered: bool, uris: Option<ChaoTypeUris>): (r: string)
    ensures GetGifAsWritten(v, chaoType, hovered, uris).Some? ==> r == GetGifAsWritten(v, chaoType, hovered, uris).value
    ensures uris.Some? && chaoType in uris.value && AssetName(v, hovered) in uris.value[chaoType]
            ==> r == uris.value[chaoType][AssetName(v, hovered)]
  {
    GenerateGifUri(uris, chaoType, AssetName(v, hovered))
  }

  /**
   * With the table `createChaoTypeUris` builds, the intended `getGif` shows every
   * state of a known type its own listed gif file; only the two look-at-code
   * states, whose files are not listed, get ''.
   */
  lemma EveryStateShowsItsGif(baseUrl: string, v: ChaoStateVariant, chaoType: string, hovered: bool)
    requires chaoType in ChaoTypeValues
    ensures !(v.LookAtCodeToLeft? || v.LookAtCodeToRight?) ==>
              AssetName(v, hovered) in GifFiles
              && GetGif(v, chaoType, hovered, Some(BuildChaoTypeUris(baseUrl)))
                 == GifUri(baseUrl, chaoType, AssetName(v, hovered))
    ensures v.LookAtCodeToLeft? || v.LookAtCodeToRight? ==>
              GetGif(v, chaoType, hovered, Some(BuildChaoTypeUris(baseUrl))) == ""
  {
    var name := AssetName(v, hovered);
    GeneratedUrisFromBuiltTable(baseUrl, chaoType, name);
    if !(v.LookAtCodeToLeft? || v.LookAtCodeToRight?) {
      assert GifFiles[0] == "idle" && GifFiles[1] == "walking" && GifFiles[2] == "falling";
      assert GifFiles[3] == "sitting" && GifFiles[4] == "standing_happy" && GifFiles[5] == "sitting_happy";
      assert GifFiles[6] == "flying";
    }
  }

  /** Hover changes the requested asset only for Idle and Sitting. */
  lemma HoverSwapsOnlyIdleAndSittingAssets(v: ChaoStateVariant)
    ensures AssetName(v, true) != AssetName(v, false) <==> v.Idle? || v.Sitting?
    ensures v.Sitting? ==> AssetName(v, true) == "sitting_happy" && AssetName(v, false) == "sitting"
    ensures v.Idle? ==> AssetName(v, true) == "standing_happy" && AssetName(v, false) == "idle"
  {
  }

  /** `getScaleForGif`. */
  function ScaleForGif(v: ChaoStateVariant): Scale {
    match v
    case MovingLeft(_) => ScaleNumber(1)
    case FlyingLeft(_) => ScaleNumber(1)
    case LookAtCodeToLeft(_) => ScaleNumber(1)
    case LookAtCodeToRight(_) => ScaleNumber(1)
    case Falling(d, _) => if d == ChaoStates.Left then ScaleNumber(1) else ScaleNumber(-1)
    case _ => DefaultScale
  }

  /** The gif is shown unmirrored (1) exactly for left-facing travel and for both look-at-code variants. */
  lemma MirrorFollowsDirection(v: ChaoStateVariant)
    ensures ScaleForGif(v) == ScaleNumber(1) <==>
              v.MovingLeft? || v.FlyingLeft? || v.LookAtCodeToLeft? || v.LookAtCodeToRight?
              || (v.Falling? && v.fallingDirection == ChaoStates.Left)
    ensures ScaleForGif(v) == DefaultScale <==> v.Idle? || v.Sitting? || v.MovingRight? || v.FlyingRight?
    ensures ScaleForGif(v) == ScaleNumber(-1) <==> v.Falling? && v.fallingDirection == ChaoStates.Right
  {
  }

  /** The variants whose `moveBasedOnState` carries the chao leftward / rightward this tick. */
  predicate MovesLeft(v: ChaoStateVariant) {
    v.MovingLeft? || v.FlyingLeft? || (v.Falling? && v.canMoveWhileFalling && v.fallingDirection == ChaoStates.Left)
  }

  predicate MovesRight(v: ChaoStateVariant) {
    v.MovingRight? || v.FlyingRight? || (v.Falling? && v.canMoveWhileFalling && v.fallingDirection == ChaoStates.Right)
  }

  /**
   * The position after `moveBasedOnState`: ±speed written through the clamping
   * setter, or no write at all for Idle, Sitting, the look-at-code variants and
   * a fall whose sideways movement has stopped.
   */
  function Moved(v: ChaoStateVariant, position: real, speed: real, maxPosition: real): (r: real)
    ensures !MovesLeft(v) && !MovesRight(v) ==> r == position
    ensures 0.0 <= maxPosition && 0.0 <= position <= maxPosition ==> 0.0 <= r <= maxPosition
    ensures 0.0 <= speed && 0.0 <= position <= maxPosition && MovesLeft(v) ==> r <= position
    ensures 0.0 <= speed && 0.0 <= position <= maxPosition && MovesRight(v) ==> position <= r
  {
    if MovesLeft(v) then Clamp(position - speed, maxPosition)
    else if MovesRight(v) then Clamp(position + speed, maxPosition)
    else position
  }

  /** Inside the range, a move is exactly a step of `speed` unless a wall stops it. */
  lemma MoveIsOneStep(v: ChaoStateVariant, position: real, speed: real, maxPosition: real)
    requires 0.0 <= speed && speed <= position && position + speed <= maxPosition
    ensures MovesLeft(v) ==> Moved(v, position, speed, maxPosition) == position - speed
    ensures MovesRight(v) ==> Moved(v, position, speed, maxPosition) == position + speed
  {
  }
}
