/**
 * The value types of the capture controller and the pure decisions it makes
 * while setting up: which direction a stored code stands for, which lens to
 * open, and which of the two target aspect ratios suits the screen.
 */
module CameraTypes {
  import opened Wrappers

  // ---------------------------------------------------------------------------
  // Camera direction
  // ---------------------------------------------------------------------------

  /** The lens the caller asks for. `Any` prefers the front lens. */
  datatype CameraDirection = Any | Front | Back {
    /** The integer each direction is stored as in the fragment's arguments. */
    function Code(): int {
      match this
      case Any => 0
      case Front => 1
      case Back => 2
    }
  }

  /** Decodes a stored direction code; every unknown code means `Any`. */
  function GenerateByCode(code: int): (d: CameraDirection)
    ensures d == CameraDirection.Any <==> code != CameraDirection.Front.Code() && code != CameraDirection.Back.Code()
    ensures d.Code() == code <==> 0 <= code <= 2
  {
    if code == CameraDirection.Front.Code() then CameraDirection.Front
    else if code == CameraDirection.Back.Code() then CameraDirection.Back
    else CameraDirection.Any
  }

  /** Encoding a direction and decoding the code gives the direction back. */
  lemma GenerateByCodeInvertsCode(d: CameraDirection)
    ensures GenerateByCode(d.Code()) == d
  {
  }

  // ---------------------------------------------------------------------------
  // States, operations and results
  // ---------------------------------------------------------------------------

  /** The single guarded state of the controller; `Image` and `Video` are busy. */
  datatype CameraState = Idle | Preview | Image | Video

  /** The capture operation a result reports on. */
  datatype CameraOp = Image | Video

  /** Which user-facing message a failed operation carries. */
  datatype FailureMessage =
    | OutputUriNotFound
    | CaptureImageFail(exception: string)
    | CaptureVideoFail(message: string)

  type Uri = string

  /** What the controller reports to its listener when a capture completes. */
  datatype CameraOpResult =
    | Success(op: CameraOp, uri: Uri)
    | Failure(op: CameraOp, msg: FailureMessage)
  {
    function Op(): CameraOp {
      match this
      case Success(op, _) => op
      case Failure(op, _) => op
    }
  }

  // ---------------------------------------------------------------------------
  // Lens selection
  // ---------------------------------------------------------------------------

  /** The lens the pipeline is built for; `NullFacing` means "no lens found". */
  datatype LensFacing = FrontFacing | BackFacing | NullFacing

  /** True when `lens` names a real lens that the device reports. */
  predicate LensPresent(lens: LensFacing, hasFront: bool, hasBack: bool) {
    match lens
    case FrontFacing => hasFront
    case BackFacing => hasBack
    case NullFacing => false
  }

  /** The lens picked for `Any`: the front one if present, else the back one. */
  function SuitableLensFacing(hasFront: bool, hasBack: bool): (lens: LensFacing)
    ensures lens == NullFacing <==> !hasFront && !hasBack
    ensures lens != NullFacing ==> LensPresent(lens, hasFront, hasBack)
    ensures hasFront ==> lens == FrontFacing
  {
    if hasFront then FrontFacing
    else if hasBack then BackFacing
    else NullFacing
  }

  /**
   * The lens `setup` settles on for a requested direction, or `None` when
   * setup gives up because no matching camera exists.
   */
  function ResolveLens(direction: CameraDirection, hasFront: bool, hasBack: bool): (r: Option<LensFacing>)
    ensures r.Some? ==> LensPresent(r.value, hasFront, hasBack)
    ensures direction == CameraDirection.Front ==> (r.Some? <==> hasFront) && (r.Some? ==> r.value == FrontFacing)
    ensures direction == CameraDirection.Back ==> (r.Some? <==> hasBack) && (r.Some? ==> r.value == BackFacing)
    ensures direction == CameraDirection.Any ==> (r.None? <==> !hasFront && !hasBack)
    ensures direction == CameraDirection.Any && hasFront ==> r == Some(FrontFacing)
  {
    match direction
    case Front => if hasFront then Some(FrontFacing) else None
    case Back => if hasBack then Some(BackFacing) else None
    case Any =>
      var lens := SuitableLensFacing(hasFront, hasBack);
      if lens == NullFacing then None else Some(lens)
  }

  // ---------------------------------------------------------------------------
  // Aspect ratio
  // ---------------------------------------------------------------------------

  /** The two target aspect ratios the pipeline can ask for. */
  datatype AspectRatio = Ratio4x3 | Ratio16x9

  function Max(a: int, b: int): int { if a >= b then a else b }

  function Min(a: int, b: int): int { if a <= b then a else b }

  function Abs(x: int): int { if x < 0 then -x else x }

  /**
   * The aspect ratio nearest to the screen's long/short ratio L/S, as the
   * double comparison |L/S - 4/3| <= |L/S - 16/9| decides it. For S != 0 the
   * comparison is multiplied through by 9|S|. The one integer ratio where the
   * two distances are equal in exact arithmetic, L/S == 14/9, is not a tie in
   * doubles: the rounded quotient lies nearer the rounded 16/9, so 16:9 wins,
   * and the comparison below is strict to say so. For S == 0 < L both sides
   * are infinite and equal, so 4:3 is chosen; when both are 0 the ratio is
   * not a number, the comparison is false and 16:9 is chosen.
   */
  function SuitableAspectRatio(width: int, height: int): (r: AspectRatio)
    ensures Min(width, height) > 0 ==>
      (r == Ratio4x3 <==> 9 * Max(width, height) < 14 * Min(width, height))
  {
    var long, short := Max(width, height), Min(width, height);
    if short == 0 then (if long == 0 then Ratio16x9 else Ratio4x3)
    else if Abs(9 * long - 12 * short) < Abs(9 * long - 16 * short) then Ratio4x3
    else Ratio16x9
  }

  /** Only the shape of the screen matters, not its orientation. */
  lemma SuitableAspectRatioSymmetric(width: int, height: int)
    ensures SuitableAspectRatio(width, height) == SuitableAspectRatio(height, width)
  {
  }

  /**
   * A screen whose ratio is exactly midway between 4:3 and 16:9 gets 16:9,
   * as the rounded double comparison decides it.
   */
  lemma SuitableAspectRatioTieIs16x9(k: int)
    requires k > 0
    ensures SuitableAspectRatio(9 * k, 14 * k) == Ratio16x9
    ensures SuitableAspectRatio(14 * k, 9 * k) == Ratio16x9
  {
  }

  /** Exact 4:3 and 16:9 screens get their own ratio. */
  lemma SuitableAspectRatioExact(k: int)
    requires k > 0
    ensures SuitableAspectRatio(4 * k, 3 * k) == Ratio4x3
    ensures SuitableAspectRatio(16 * k, 9 * k) == Ratio16x9
  {
  }
}
