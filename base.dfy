/**
 * Shared vocabulary of the geometry model: optional values and results,
 * three-vectors, the decimal rendering of indices used as device names,
 * the device classes, Euler-angle specifications, the rows of the layout
 * tables and the placement dictionaries derived from them.
 *
 * Floating-point numbers are modelled as exact reals.  The trigonometric
 * and rotation primitives the tables and the frame walk rely on are not
 * modelled; they are supplied as an oracle value of type `Numerics`.
 */
module Base {

  datatype Option<T> = None | Some(value: T)
  {
    function GetOr(default: T): (r: T)
      ensures this.Some? ==> r == this.value
      ensures this.None? ==> r == default
    {
      match this
      case Some(v) => v
      case None => default
    }
  }

  datatype Result<T, E> = Ok(value: T) | Err(error: E)

  /** A point or direction in a Cartesian frame (units: mm). */
  datatype Vec3 = Vec3(x: real, y: real, z: real)

  const Zero: Vec3 := Vec3(0.0, 0.0, 0.0)
  const XAxis: Vec3 := Vec3(1.0, 0.0, 0.0)
  const ZAxis: Vec3 := Vec3(0.0, 0.0, 1.0)

  function Add(a: Vec3, b: Vec3): Vec3 {
    Vec3(a.x + b.x, a.y + b.y, a.z + b.z)
  }

  function Sub(a: Vec3, b: Vec3): Vec3 {
    Vec3(a.x - b.x, a.y - b.y, a.z - b.z)
  }

  function Scale(k: real, a: Vec3): Vec3 {
    Vec3(k * a.x, k * a.y, k * a.z)
  }

  /** numpy's value of pi. */
  const Pi: real := 3.141592653589793

  /** The device classes of the detector hierarchy. */
  datatype DeviceType = WCD | SM | MPMT | PMT | LED

  /** The Python class name, as it appears in error messages. */
  function ClassName(t: DeviceType): string {
    match t
    case WCD => "WCD"
    case SM => "SM"
    case MPMT => "MPMT"
    case PMT => "PMT"
    case LED => "LED"
  }

  // ---------------------------------------------------------------------
  // Decimal rendering of a natural number (Python's str on a non-negative int)
  // ---------------------------------------------------------------------

  function Digit(d: nat): char
    requires d < 10
  {
    ('0' as int + d) as char
  }

  function Str(n: nat): (s: string)
    ensures |s| >= 1
    ensures n < 10 <==> |s| == 1
    decreases n
  {
    if n < 10 then [Digit(n)] else Str(n / 10) + [Digit(n % 10)]
  }

  /** Different indices are rendered as different names. */
  lemma {:induction false} StrInjective(a: nat, b: nat)
    requires Str(a) == Str(b)
    ensures a == b
    decreases a
  {
    if a >= 10 && b >= 10 {
      var sa, sb := Str(a), Str(b);
      assert sa[|sa| - 1] == Digit(a % 10) && sb[|sb| - 1] == Digit(b % 10);
      assert Str(a / 10) == sa[..|sa| - 1] == sb[..|sb| - 1] == Str(b / 10);
      StrInjective(a / 10, b / 10);
    }
  }

  // ---------------------------------------------------------------------
  // Euler angles and the rows of the layout tables
  // ---------------------------------------------------------------------

  /**
   * The 'rot_angles' value of a placement: a single angle for a one-axis
   * rotation, a list of angles for a sequence of axes.
   */
  datatype Angles = Scalar(angle: real) | Sequence(angles: seq<real>)

  /**
   * One row of a layout table: the optional 'name' key, 'kind', 'loc',
   * 'loc_sig', 'rot_axes', 'rot_angles' and 'rot_angles_sig'.
   */
  datatype LayoutEntry = LayoutEntry(
    name: Option<string>,
    kind: string,
    loc: Vec3,
    locSig: Vec3,
    rotAxes: string,
    rotAngles: Angles,
    rotAnglesSig: Angles)

  /**
   * The shape the placement code relies on: several axes come with a list
   * of angles and at least as many standard deviations; a single axis comes
   * with a scalar angle and a scalar deviation, or with a list of angles and
   * a list of as many deviations (drawn element by element, as numpy
   * broadcasts them); and no deviation is negative.
   */
  predicate EntryOk(e: LayoutEntry) {
    (|e.rotAxes| > 1 ==>
       e.rotAngles.Sequence? && e.rotAnglesSig.Sequence? &&
       SigmasCover(e.rotAngles.angles, e.rotAnglesSig.angles)) &&
    (|e.rotAxes| <= 1 ==>
       (e.rotAngles.Scalar? && e.rotAnglesSig.Scalar? && e.rotAnglesSig.angle >= 0.0) ||
       (e.rotAngles.Sequence? && e.rotAnglesSig.Sequence? &&
        |e.rotAnglesSig.angles| == |e.rotAngles.angles| &&
        SigmasCover(e.rotAngles.angles, e.rotAnglesSig.angles))) &&
    e.locSig.x >= 0.0 && e.locSig.y >= 0.0 && e.locSig.z >= 0.0
  }

  /** A deviation, never negative, for each angle. */
  predicate SigmasCover(angles: seq<real>, sigs: seq<real>) {
    |sigs| >= |angles| && forall i :: 0 <= i < |angles| ==> sigs[i] >= 0.0
  }

  /** The name a placed device receives: the entry's name, or the empty string. */
  function NameOf(e: LayoutEntry): string {
    e.name.GetOr("")
  }

  /**
   * A placement dictionary with its three possible keys 'loc', 'rot_axes'
   * and 'rot_angles'; a missing key is None.
   */
  datatype Placement = Placement(loc: Option<Vec3>, rotAxes: Option<string>, rotAngles: Option<Angles>)

  /** The empty dictionary `{}`. */
  const NoPlacement: Placement := Placement(None, None, None)

  /** The design placement given to a device placed from a table row. */
  function DesignPlacement(e: LayoutEntry): Placement
  {
    Placement(Some(e.loc), Some(e.rotAxes), Some(e.rotAngles))
  }

  /**
   * The floating-point primitives the source takes from numpy and scipy:
   * `rotate(axes, angles, v)` is `Rotation.from_euler(axes, angles).apply(v)`,
   * `unit(v)` is `v / norm(v)`, and the elementary functions.
   */
  datatype Numerics = Numerics(
    rotate: (string, Angles, Vec3) -> Vec3,
    unit: Vec3 -> Vec3,
    sqrt: real -> real,
    cos: real -> real,
    sin: real -> real,
    atan2: (real, real) -> real)
}
