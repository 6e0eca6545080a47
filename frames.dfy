/**
 * The coordinate-frame arithmetic behind `Device.get_placement`: the frame
 * of a device in its container's coordinates, and the step that carries a
 * frame from one container's coordinates into the next container's.
 *
 * A frame is a location and two directions (the device's x and z axes).
 * The rotation and the division by the norm are the oracles of
 * `Base.Numerics`; the lemmas here say what the walk does whatever they are,
 * and what it does when the rotation is linear and the normalisation is
 * scale-invariant.
 */
module Frames {
  import opened Base

  datatype Frame = Frame(location: Vec3, directionX: Vec3, directionZ: Vec3)

  /** A device's frame in its own coordinates. */
  const Identity: Frame := Frame(Zero, XAxis, ZAxis)

  /** What `getattr(device, 'place_' + variant, None)` returns. */
  datatype PlaceAttr =
    | NoAttribute               // no such attribute: None
    | Record(place: Placement)  // one of the placement dictionaries
    | BoundMethod               // 'place_devices' is a method, not a dictionary

  /** The exceptions the frame walk raises. */
  datatype PlacementError =
    | NotContained(device: string, container: string)  // ValueError: not in the specified container
    | NoPlacementInfo(device: string, variant: string) // ValueError: no such placement information
    | KeyMissing(key: string)                          // KeyError on the placement dictionary
    | NotADictionary                                   // TypeError: a bound method used as a dictionary

  /** Length of the axis vectors whose tips are carried through each container. */
  const DistHead: real := 100.0

  /**
   * The frame of a device in its container's coordinates, read from its own
   * placement: 'loc' is the location, and the rotation given by 'rot_axes'
   * and 'rot_angles' turns the unit x and z axes into its directions.
   * The keys are read in the order 'loc', 'rot_axes', 'rot_angles'.
   */
  function OwnFrame(attr: PlaceAttr, tag: string, variant: string, num: Numerics): (r: Result<Frame, PlacementError>)
    ensures attr.NoAttribute? ==> r == Err(NoPlacementInfo(tag, variant))
    ensures r.Ok? <==>
      attr.Record? && attr.place.loc.Some? && attr.place.rotAxes.Some? && attr.place.rotAngles.Some?
    ensures r.Ok? ==> r.value.location == attr.place.loc.value
  {
    match attr
    case NoAttribute => Err(NoPlacementInfo(tag, variant))
    case BoundMethod => Err(NotADictionary)
    case Record(p) =>
      if p.loc.None? then Err(KeyMissing("loc"))
      else if p.rotAxes.None? then Err(KeyMissing("rot_axes"))
      else if p.rotAngles.None? then Err(KeyMissing("rot_angles"))
      else
        var axes, angles := p.rotAxes.value, p.rotAngles.value;
        Ok(Frame(p.loc.value, num.rotate(axes, angles, XAxis), num.rotate(axes, angles, ZAxis)))
  }

  /**
   * One step of the walk: the frame `f`, given in the coordinates of a
   * container whose placement is `attr`, expressed in the coordinates of
   * that container's own container.  The location and the tips of the two
   * direction vectors (at distance DistHead) are rotated when the placement
   * has 'rot_axes', the location is translated by 'loc' (zero when absent),
   * and the new directions are the normalised differences.
   */
  function Lift(f: Frame, attr: PlaceAttr, tag: string, variant: string, num: Numerics): (r: Result<Frame, PlacementError>)
    ensures attr.NoAttribute? ==> r == Err(NoPlacementInfo(tag, variant))
    ensures r.Ok? <==>
      attr.Record? && (attr.place.rotAxes.Some? ==> attr.place.rotAngles.Some?)
  {
    match attr
    case NoAttribute => Err(NoPlacementInfo(tag, variant))
    case BoundMethod => Err(NotADictionary)
    case Record(p) =>
      var tailX := Add(f.location, Scale(DistHead, f.directionX));
      var tailZ := Add(f.location, Scale(DistHead, f.directionZ));
      if p.rotAxes.Some? && p.rotAngles.None? then Err(KeyMissing("rot_angles"))
      else
        var (rotHead, rotTailX, rotTailZ) :=
          if p.rotAxes.Some? then
            var rot := (v: Vec3) => num.rotate(p.rotAxes.value, p.rotAngles.value, v);
            (rot(f.location), rot(tailX), rot(tailZ))
          else (f.location, tailX, tailZ);
        Ok(Frame(Add(rotHead, p.loc.GetOr(Zero)),
                 num.unit(Sub(rotTailX, rotHead)),
                 num.unit(Sub(rotTailZ, rotHead))))
  }

  /**
   * A container on the walk: its placement attribute and the tag its
   * error message uses (the container's class with the queried device's name).
   */
  datatype Level = Level(attr: PlaceAttr, tag: string)

  /** The walk through a sequence of containers, innermost first; the first failing step ends it. */
  function Compose(f: Frame, levels: seq<Level>, variant: string, num: Numerics): (r: Result<Frame, PlacementError>)
    ensures levels == [] ==> r == Ok(f)
    ensures r.Err? ==> !r.error.NotContained?
    ensures forall j :: 0 <= j < |levels| && levels[j].attr.BoundMethod? ==> r.Err?
    ensures (forall j :: 0 <= j < |levels| ==> levels[j].attr.Record?) && r.Err? ==> r.error.KeyMissing?
    decreases |levels|
  {
    if levels == [] then Ok(f)
    else
      match Lift(f, levels[0].attr, levels[0].tag, variant, num)
      case Err(e) => Err(e)
      case Ok(g) => Compose(g, levels[1..], variant, num)
  }

  // ---------------------------------------------------------------------
  // Errors on the walk
  // ---------------------------------------------------------------------

  /** A step that cannot fail. */
  predicate Liftable(l: Level) {
    l.attr.Record? && (l.attr.place.rotAxes.Some? ==> l.attr.place.rotAngles.Some?)
  }

  /**
   * A container with no placement of the requested variant stops the walk
   * with ValueError, provided every container before it could be applied.
   */
  lemma {:induction false} MissingVariantStopsWalk(f: Frame, levels: seq<Level>, k: nat, variant: string, num: Numerics)
    requires k < |levels| && levels[k].attr.NoAttribute?
    requires forall j :: 0 <= j < k ==> Liftable(levels[j])
    ensures Compose(f, levels, variant, num) == Err(NoPlacementInfo(levels[k].tag, variant))
    decreases k
  {
    if k > 0 {
      var g := Lift(f, levels[0].attr, levels[0].tag, variant, num);
      assert Liftable(levels[0]);
      MissingVariantStopsWalk(g.value, levels[1..], k - 1, variant, num);
    }
  }

  /** The walk succeeds exactly when every container on it can be applied. */
  lemma {:induction false} ComposeSucceeds(f: Frame, levels: seq<Level>, variant: string, num: Numerics)
    ensures Compose(f, levels, variant, num).Ok? <==> forall j :: 0 <= j < |levels| ==> Liftable(levels[j])
    decreases |levels|
  {
    if levels != [] {
      var g := Lift(f, levels[0].attr, levels[0].tag, variant, num);
      if g.Ok? {
        ComposeSucceeds(g.value, levels[1..], variant, num);
        assert forall j :: 1 <= j < |levels| ==> levels[j] == levels[1..][j - 1];
      }
    }
  }

  // ---------------------------------------------------------------------
  // Containers without rotation: the translation-sum law
  // ---------------------------------------------------------------------

  /** Division by the norm depends only on the direction, and normalising twice changes nothing. */
  ghost predicate UnitLaws(unit: Vec3 -> Vec3) {
    (forall v, k :: k > 0.0 ==> unit(Scale(k, v)) == unit(v)) &&
    (forall v :: unit(unit(v)) == unit(v))
  }

  /** Every container on the walk has a placement without 'rot_axes'. */
  predicate TranslationOnly(levels: seq<Level>) {
    forall j :: 0 <= j < |levels| ==> levels[j].attr.Record? && levels[j].attr.place.rotAxes.None?
  }

  /** The sum of the containers' 'loc' values, zero for a missing 'loc'. */
  function SumLocs(levels: seq<Level>): Vec3
    requires TranslationOnly(levels)
    decreases |levels|
  {
    if levels == [] then Zero else Add(levels[0].attr.place.loc.GetOr(Zero), SumLocs(levels[1..]))
  }

  /** A container without rotation moves the location by its 'loc' and keeps both directions. */
  lemma TranslationStep(f: Frame, l: Level, variant: string, num: Numerics)
    requires UnitLaws(num.unit)
    requires l.attr.Record? && l.attr.place.rotAxes.None?
    ensures Lift(f, l.attr, l.tag, variant, num) ==
      Ok(Frame(Add(f.location, l.attr.place.loc.GetOr(Zero)), num.unit(f.directionX), num.unit(f.directionZ)))
  {
    var tailX := Add(f.location, Scale(DistHead, f.directionX));
    var tailZ := Add(f.location, Scale(DistHead, f.directionZ));
    assert Sub(tailX, f.location) == Scale(DistHead, f.directionX);
    assert Sub(tailZ, f.location) == Scale(DistHead, f.directionZ);
  }

  /**
   * Through containers that have no rotation the location is the start
   * location plus the sum of their 'loc' values, and each direction keeps
   * its direction (it is normalised once at least one container was applied).
   */
  lemma {:induction false} TranslationSum(f: Frame, levels: seq<Level>, variant: string, num: Numerics)
    requires UnitLaws(num.unit)
    requires TranslationOnly(levels)
    ensures Compose(f, levels, variant, num) ==
      if levels == [] then Ok(f)
      else Ok(Frame(Add(f.location, SumLocs(levels)), num.unit(f.directionX), num.unit(f.directionZ)))
    decreases |levels|
  {
    if levels != [] {
      TranslationStep(f, levels[0], variant, num);
      var g := Frame(Add(f.location, levels[0].attr.place.loc.GetOr(Zero)), num.unit(f.directionX), num.unit(f.directionZ));
      var rest := levels[1..];
      assert TranslationOnly(rest) by {
        assert forall j :: 0 <= j < |rest| ==> rest[j] == levels[j + 1];
      }
      TranslationSum(g, rest, variant, num);
      if rest != [] {
        assert num.unit(num.unit(f.directionX)) == num.unit(f.directionX);
        assert num.unit(num.unit(f.directionZ)) == num.unit(f.directionZ);
      }
    }
  }

  // ---------------------------------------------------------------------
  // Containers with a linear rotation
  // ---------------------------------------------------------------------

  /** The rotation for these axes and angles is a linear map. */
  ghost predicate Linear(num: Numerics, axes: string, angles: Angles) {
    (forall u, v :: num.rotate(axes, angles, Add(u, v)) == Add(num.rotate(axes, angles, u), num.rotate(axes, angles, v))) &&
    (forall k, v :: num.rotate(axes, angles, Scale(k, v)) == Scale(k, num.rotate(axes, angles, v)))
  }

  /**
   * A container with a linear rotation R and translation t moves the
   * location l to R(l) + t and turns each direction d into the direction
   * of R(d).
   */
  lemma RotationStep(f: Frame, l: Level, variant: string, num: Numerics)
    requires UnitLaws(num.unit)
    requires l.attr.Record? && l.attr.place.rotAxes.Some? && l.attr.place.rotAngles.Some?
    requires Linear(num, l.attr.place.rotAxes.value, l.attr.place.rotAngles.value)
    ensures var rot := (v: Vec3) => num.rotate(l.attr.place.rotAxes.value, l.attr.place.rotAngles.value, v);
      Lift(f, l.attr, l.tag, variant, num) ==
      Ok(Frame(Add(rot(f.location), l.attr.place.loc.GetOr(Zero)),
               num.unit(rot(f.directionX)), num.unit(rot(f.directionZ))))
  {
    var axes, angles := l.attr.place.rotAxes.value, l.attr.place.rotAngles.value;
    var rot := (v: Vec3) => num.rotate(axes, angles, v);
    var tailX := Add(f.location, Scale(DistHead, f.directionX));
    var tailZ := Add(f.location, Scale(DistHead, f.directionZ));
    assert rot(tailX) == Add(rot(f.location), Scale(DistHead, rot(f.directionX)));
    assert rot(tailZ) == Add(rot(f.location), Scale(DistHead, rot(f.directionZ)));
    assert Sub(rot(tailX), rot(f.location)) == Scale(DistHead, rot(f.directionX));
    assert Sub(rot(tailZ), rot(f.location)) == Scale(DistHead, rot(f.directionZ));
  }
}
