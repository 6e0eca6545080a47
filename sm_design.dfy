/**
 * The class-level layout tables of a super module (SM): the kinds of
 * super module and, for each, the mPMTs placed in it.
 *
 * 'SSM' is a 3 x 2 test pattern; 'bottom' and 'top' are the endcaps of the
 * WCTE, a centre mPMT surrounded by its 8 neighbours and the 12 non-corner
 * points of the next ring of a square grid; 'wall' is 4 rows of 16 mPMTs
 * on the cylinder.  Each table is built by the loops of the class body;
 * the builder methods are proved to produce the closed-form tables, and
 * the lemmas state their shape.
 */
module SMDesign {
  import opened Base

  /** mm separation of mPMT centres on top and bottom (x and y the same). */
  const TbPitch: real := 580.0
  /** mm separation of mPMT baseplates at opposite wall locations. */
  const WcteDiameter: real := 3422.166
  /** mm separation of the rows of wall mPMTs. */
  const WallVerticalPitch: real := 580.0
  /** mm positioning accuracy. */
  const LocSig: Vec3 := Vec3(1.0, 1.0, 1.0)
  /** radians. */
  const RotAngleSig: real := 0.01

  // ---------------------------------------------------------------------
  // 'SSM': a 3 x 2 rectangular test pattern of 'MR' mPMTs
  // ---------------------------------------------------------------------

  /** The SSM mPMT at column i and row j, named n. */
  function SsmEntry(i: int, j: int, n: nat): LayoutEntry {
    LayoutEntry(Some(Str(n)), "MR", Vec3(600.0 * i as real, 600.0 * (j as real + 0.5), -100.0),
                LocSig, "XZ", Sequence([0.0, 0.0]), Sequence([0.01, 0.01]))
  }

  /** `ssm_mpmts` in closed form: entry k is at column k / 2 - 1 and row k % 2 - 1. */
  function Ssm(): seq<LayoutEntry> {
    seq(6, k => SsmEntry(k / 2 - 1, k % 2 - 1, if k < 0 then 0 else k))
  }

  /** The position in `ssm_mpmts` of the mPMT at column i and row j. */
  function SsmPos(i: int, j: int): int {
    2 * (i + 1) + (j + 1)
  }

  lemma SsmAt(i: int, j: int)
    requires -1 <= i <= 1 && -1 <= j <= 0
    ensures var k := SsmPos(i, j); 0 <= k < 6 && Ssm()[k] == SsmEntry(i, j, k)
  {
  }

  /** The class-body loops that build `ssm_mpmts`; each name is the length of the list so far. */
  method BuildSsm() returns (t: seq<LayoutEntry>)
    ensures t == Ssm()
  {
    t := [];
    for i := -1 to 2
      invariant t == Ssm()[..2 * (i + 1)]
    {
      for j := -1 to 1
        invariant t == Ssm()[..SsmPos(i, j)]
      {
        SsmAt(i, j);
        t := t + [SsmEntry(i, j, |t|)];
      }
    }
  }

  /**
   * `ssm_mpmts` has 6 'MR' mPMTs named '0'..'5' in creation order, with
   * pairwise distinct names, at x in {-600, 0, 600}, y in {-300, 300} and
   * z = -100.
   */
  lemma SsmShape()
    ensures var t := Ssm();
      |t| == 6 &&
      (forall k :: 0 <= k < 6 ==>
         t[k].name == Some(Str(k)) && t[k].kind == "MR" && t[k].rotAxes == "XZ" && EntryOk(t[k]) &&
         t[k].loc.z == -100.0) &&
      (forall i, j :: -1 <= i <= 1 && -1 <= j <= 0 ==>
         t[SsmPos(i, j)].loc == Vec3(600.0 * i as real, 600.0 * j as real + 300.0, -100.0)) &&
      (forall k, m :: 0 <= k < m < 6 ==> t[k].name != t[m].name)
  {
    var t := Ssm();
    forall i, j | -1 <= i <= 1 && -1 <= j <= 0
      ensures t[SsmPos(i, j)].loc == Vec3(600.0 * i as real, 600.0 * j as real + 300.0, -100.0)
    {
      SsmAt(i, j);
    }
    forall k, m | 0 <= k < m < 6 ensures t[k].name != t[m].name {
      if Str(k) == Str(m) {
        StrInjective(k, m);
      }
    }
  }

  // ---------------------------------------------------------------------
  // 'bottom' and 'top': the endcaps
  // ---------------------------------------------------------------------

  /** Grid offsets of the first ring, and of the second ring. */
  const InnerOffs: seq<real> := [-TbPitch, 0.0, TbPitch]
  const OuterOffs: seq<real> := [-2.0 * TbPitch, -TbPitch, 0.0, TbPitch, 2.0 * TbPitch]

  /** Indices into the offsets, per mPMT of each ring: x, then y of the bottom and of the top. */
  const InnerX: seq<nat> := [2, 2, 1, 0, 0, 0, 1, 2]
  const BottomInnerY: seq<nat> := [1, 2, 2, 2, 1, 0, 0, 0]
  const TopInnerY: seq<nat> := [1, 0, 0, 0, 1, 2, 2, 2]
  const OuterX: seq<nat> := [4, 4, 3, 2, 1, 0, 0, 0, 1, 2, 3, 4]
  const BottomOuterY: seq<nat> := [2, 3, 4, 4, 4, 3, 2, 1, 0, 0, 0, 1]
  const TopOuterY: seq<nat> := [2, 1, 0, 0, 0, 1, 2, 3, 4, 4, 4, 3]

  /** Rotation about z of each endcap mPMT, in multiples of pi, before the shift of one half. */
  const BottomYRots: seq<real> := [0.0, 1.0, 1.0, 1.0, 1.0, 1.0, 0.0, 0.0, 0.0, 0.0, 0.0,
                                   1.0, 1.0, 1.0, 1.0, 1.0, 1.0, 0.0, 0.0, 0.0, 0.0]
  const TopYRots: seq<real> := [0.0, 1.0, 1.0, 0.5, 0.5, 0.0, 0.0, 1.5, 1.5, 1.0, 1.0,
                                1.0, 0.5, 0.5, 0.5, 0.0, 0.0, 0.0, 1.5, 1.5, 1.5]

  /** The shape of a pair of y index tables. */
  predicate IndexTablesOk(innerY: seq<nat>, outerY: seq<nat>) {
    |innerY| == 8 && |outerY| == 12 &&
    (forall i :: 0 <= i < 8 ==> innerY[i] < 3) &&
    (forall i :: 0 <= i < 12 ==> outerY[i] < 5)
  }

  /** The offsets of an endcap: the centre, then the first ring, then the second. */
  function EndcapOffsets(innerY: seq<nat>, outerY: seq<nat>): (o: seq<Vec3>)
    requires IndexTablesOk(innerY, outerY)
    ensures |o| == 21
  {
    [Zero] +
    seq(8, i requires 0 <= i < 8 => Vec3(InnerOffs[InnerX[i]], InnerOffs[innerY[i]], 0.0)) +
    seq(12, i requires 0 <= i < 12 => Vec3(OuterOffs[OuterX[i]], OuterOffs[outerY[i]], 0.0))
  }

  /** The class-body loops that build the offsets of an endcap. */
  method BuildOffsets(innerY: seq<nat>, outerY: seq<nat>) returns (offsets: seq<Vec3>)
    requires IndexTablesOk(innerY, outerY)
    ensures offsets == EndcapOffsets(innerY, outerY)
  {
    offsets := [Zero];
    for i := 0 to 8
      invariant offsets == EndcapOffsets(innerY, outerY)[..1 + i]
    {
      offsets := offsets + [Vec3(InnerOffs[InnerX[i]], InnerOffs[innerY[i]], 0.0)];
    }
    for i := 0 to 12
      invariant offsets == EndcapOffsets(innerY, outerY)[..9 + i]
    {
      offsets := offsets + [Vec3(OuterOffs[OuterX[i]], OuterOffs[outerY[i]], 0.0)];
    }
  }

  /** An endcap mPMT at `offset`, turned about z by (yRot + shift) pi. */
  function EndcapEntry(offset: Vec3, yRot: real, shift: real): LayoutEntry {
    LayoutEntry(None, "ME", offset, LocSig, "z", Scalar((yRot + shift) * Pi), Scalar(RotAngleSig))
  }

  function Min(a: nat, b: nat): nat {
    if a <= b then a else b
  }

  /** The rows built from `zip(offsets, y_rots)`: as many as the shorter list has. */
  function Endcap(offsets: seq<Vec3>, yRots: seq<real>, shift: real): (t: seq<LayoutEntry>)
    ensures |t| == Min(|offsets|, |yRots|)
  {
    seq(Min(|offsets|, |yRots|), i requires 0 <= i < Min(|offsets|, |yRots|) => EndcapEntry(offsets[i], yRots[i], shift))
  }

  /** The class-body loop over `zip(offsets, y_rots)`. */
  method BuildEndcap(offsets: seq<Vec3>, yRots: seq<real>, shift: real) returns (t: seq<LayoutEntry>)
    ensures t == Endcap(offsets, yRots, shift)
  {
    t := [];
    for i := 0 to Min(|offsets|, |yRots|)
      invariant t == Endcap(offsets, yRots, shift)[..i]
    {
      t := t + [EndcapEntry(offsets[i], yRots[i], shift)];
    }
  }

  /** `bottom_mpmts` and `top_mpmts` in closed form. */
  function Bottom(): seq<LayoutEntry> {
    Endcap(EndcapOffsets(BottomInnerY, BottomOuterY), BottomYRots, 0.5)
  }

  function Top(): seq<LayoutEntry> {
    Endcap(EndcapOffsets(TopInnerY, TopOuterY), TopYRots, -0.5)
  }

  method BuildBottom() returns (t: seq<LayoutEntry>)
    ensures t == Bottom()
  {
    var offsets := BuildOffsets(BottomInnerY, BottomOuterY);
    t := BuildEndcap(offsets, BottomYRots, 0.5);
  }

  method BuildTop() returns (t: seq<LayoutEntry>)
    ensures t == Top()
  {
    var offsets := BuildOffsets(TopInnerY, TopOuterY);
    t := BuildEndcap(offsets, TopYRots, -0.5);
  }

  // The endcap grid: mPMT k sits at (GridX(k), GridY(top, k)) times the pitch.

  function InnerY(top: bool): seq<nat> {
    if top then TopInnerY else BottomInnerY
  }

  function OuterY(top: bool): seq<nat> {
    if top then TopOuterY else BottomOuterY
  }

  lemma EndcapTablesOk(top: bool)
    ensures IndexTablesOk(InnerY(top), OuterY(top))
  {
  }

  function GridX(k: nat): int
    requires k < 21
  {
    if k == 0 then 0 else if k <= 8 then InnerX[k - 1] as int - 1 else OuterX[k - 9] as int - 2
  }

  function GridYIn(innerY: seq<nat>, outerY: seq<nat>, k: nat): int
    requires IndexTablesOk(innerY, outerY) && k < 21
  {
    if k == 0 then 0 else if k <= 8 then innerY[k - 1] as int - 1 else outerY[k - 9] as int - 2
  }

  /** The location of endcap mPMT k, for a pair of y index tables. */
  function GridPointIn(innerY: seq<nat>, outerY: seq<nat>, k: nat): Vec3
    requires IndexTablesOk(innerY, outerY) && k < 21
  {
    Vec3(TbPitch * GridX(k) as real, TbPitch * GridYIn(innerY, outerY, k) as real, 0.0)
  }

  /** The location of endcap mPMT k. */
  function GridPoint(top: bool, k: nat): Vec3
    requires k < 21
  {
    EndcapTablesOk(top);
    GridPointIn(InnerY(top), OuterY(top), k)
  }

  lemma GridPointIs(top: bool, k: nat)
    requires k < 21
    ensures GridPoint(top, k) == Vec3(TbPitch * GridX(k) as real, TbPitch * GridY(top, k) as real, 0.0)
  {
  }

  function GridY(top: bool, k: nat): int
    requires k < 21
  {
    EndcapTablesOk(top);
    GridYIn(InnerY(top), OuterY(top), k)
  }

  /** The square ring a grid point lies on: its larger coordinate in absolute value. */
  function Ring(x: int, y: int): (r: nat)
    ensures r >= x && r >= -x && r >= y && r >= -y
  {
    var ax, ay := if x < 0 then -x else x, if y < 0 then -y else y;
    if ax < ay then ay else ax
  }

  /** Which mPMT sits at each point of the 5 x 5 grid (-1 at the four corners, which stay empty). */
  const BottomIndex: seq<seq<int>> := [
    [-1, 16, 15, 14, -1],
    [17, 6, 5, 4, 13],
    [18, 7, 0, 3, 12],
    [19, 8, 1, 2, 11],
    [-1, 20, 9, 10, -1]
  ]
  const TopIndex: seq<seq<int>> := [
    [-1, 14, 15, 16, -1],
    [13, 4, 5, 6, 17],
    [12, 3, 0, 7, 18],
    [11, 2, 1, 8, 19],
    [-1, 10, 9, 20, -1]
  ]

  function GridIndex(top: bool): seq<seq<int>> {
    if top then TopIndex else BottomIndex
  }

  /** The grid index table inverts the position of every endcap mPMT. */
  lemma GridIndexOfPosition(top: bool, k: nat)
    requires k < 21
    ensures -2 <= GridX(k) <= 2 && -2 <= GridY(top, k) <= 2
    ensures GridIndex(top)[GridX(k) + 2][GridY(top, k) + 2] == k
  {
    EndcapTablesOk(top);
    if k == 0 {
    } else if k <= 8 {
      InnerIndexAt(top, k - 1);
    } else {
      OuterIndexAt(top, k - 9);
    }
  }

  /** mPMT k lies on ring 1 for k in 1..8, and on ring 2 off its corners for k in 9..20. */
  lemma RingAt(top: bool, k: nat)
    requires k < 21
    ensures 1 <= k <= 8 ==> Ring(GridX(k), GridY(top, k)) == 1
    ensures 9 <= k ==> Ring(GridX(k), GridY(top, k)) == 2 && GridX(k) != GridY(top, k) && GridX(k) != -GridY(top, k)
  {
    EndcapTablesOk(top);
    if 1 <= k <= 8 {
      InnerIndexAt(top, k - 1);
    } else if 9 <= k {
      OuterIndexAt(top, k - 9);
    }
  }

  /** Entry i of the first ring, as read from the index tables. */
  lemma InnerIndexAt(top: bool, i: nat)
    requires i < 8
    ensures var x, y := InnerX[i] as int - 1, InnerY(top)[i] as int - 1;
      -1 <= x <= 1 && -1 <= y <= 1 && Ring(x, y) == 1 && GridIndex(top)[x + 2][y + 2] == i + 1
  {
    assert i == 0 || i == 1 || i == 2 || i == 3 || i == 4 || i == 5 || i == 6 || i == 7;
  }

  /** Entry i of the second ring, as read from the index tables. */
  lemma OuterIndexAt(top: bool, i: nat)
    requires i < 12
    ensures var x, y := OuterX[i] as int - 2, OuterY(top)[i] as int - 2;
      -2 <= x <= 2 && -2 <= y <= 2 && Ring(x, y) == 2 && x != y && x != -y && GridIndex(top)[x + 2][y + 2] == i + 9
  {
    assert i == 0 || i == 1 || i == 2 || i == 3 || i == 4 || i == 5 || i == 6 || i == 7 ||
           i == 8 || i == 9 || i == 10 || i == 11;
  }

  /** Every non-corner point of the 5 x 5 grid holds the mPMT the index table names. */
  lemma PositionOfGridIndex(top: bool, x: int, y: int)
    requires -2 <= x <= 2 && -2 <= y <= 2 && Ring(x, y) == 2 ==> x != y && x != -y
    requires -2 <= x <= 2 && -2 <= y <= 2
    ensures var k := GridIndex(top)[x + 2][y + 2];
      0 <= k < 21 && GridX(k) == x && GridY(top, k) == y
  {
    assert x == -2 || x == -1 || x == 0 || x == 1 || x == 2;
    assert y == -2 || y == -1 || y == 0 || y == 1 || y == 2;
  }

  /**
   * The endcap positions: mPMT 0 at the centre, mPMTs 1..8 on the first
   * ring, mPMTs 9..20 on the second ring but off its corners; different
   * mPMTs at different points, and every such point occupied.  The top
   * endcap is the bottom one mirrored in y.
   */
  lemma EndcapGrid(top: bool)
    ensures GridX(0) == 0 && GridY(top, 0) == 0
    ensures forall k :: 1 <= k <= 8 ==> Ring(GridX(k), GridY(top, k)) == 1
    ensures forall k :: 9 <= k < 21 ==>
      Ring(GridX(k), GridY(top, k)) == 2 && GridX(k) != GridY(top, k) && GridX(k) != -GridY(top, k)
    ensures forall k, m :: 0 <= k < m < 21 ==> GridX(k) != GridX(m) || GridY(top, k) != GridY(top, m)
    ensures forall x, y :: -2 <= x <= 2 && -2 <= y <= 2 && (Ring(x, y) == 2 ==> x != y && x != -y) ==>
      exists k :: 0 <= k < 21 && GridX(k) == x && GridY(top, k) == y
    ensures forall k :: 0 <= k < 21 ==> GridY(true, k) == -GridY(false, k)
  {
    GridRings(top);
    GridPointsSeparate(top);
    GridCovered(top);
    forall k | 0 <= k < 21 ensures GridY(true, k) == -GridY(false, k) {
      GridMirrorAt(k);
    }
  }

  lemma GridRings(top: bool)
    ensures GridX(0) == 0 && GridY(top, 0) == 0
    ensures forall k :: 1 <= k <= 8 ==> Ring(GridX(k), GridY(top, k)) == 1
    ensures forall k :: 9 <= k < 21 ==>
      Ring(GridX(k), GridY(top, k)) == 2 && GridX(k) != GridY(top, k) && GridX(k) != -GridY(top, k)
  {
    forall k | 0 <= k < 21
      ensures 1 <= k <= 8 ==> Ring(GridX(k), GridY(top, k)) == 1
      ensures 9 <= k ==> Ring(GridX(k), GridY(top, k)) == 2 && GridX(k) != GridY(top, k) && GridX(k) != -GridY(top, k)
    {
      RingAt(top, k);
    }
  }

  lemma GridPointsSeparate(top: bool)
    ensures forall k, m :: 0 <= k < m < 21 ==> GridX(k) != GridX(m) || GridY(top, k) != GridY(top, m)
  {
    forall k, m | 0 <= k < m < 21 ensures GridX(k) != GridX(m) || GridY(top, k) != GridY(top, m) {
      GridDistinct(top, k, m);
    }
  }

  lemma GridCovered(top: bool)
    ensures forall x, y :: -2 <= x <= 2 && -2 <= y <= 2 && (Ring(x, y) == 2 ==> x != y && x != -y) ==>
      exists k :: 0 <= k < 21 && GridX(k) == x && GridY(top, k) == y
  {
    forall x, y | -2 <= x <= 2 && -2 <= y <= 2 && (Ring(x, y) == 2 ==> x != y && x != -y)
      ensures exists k :: 0 <= k < 21 && GridX(k) == x && GridY(top, k) == y
    {
      PositionOfGridIndex(top, x, y);
    }
  }

  /** The top endcap's y index tables mirror the bottom's. */
  lemma GridMirrorAt(k: nat)
    requires k < 21
    ensures GridY(true, k) == -GridY(false, k)
  {
    assert k == 0 || k == 1 || k == 2 || k == 3 || k == 4 || k == 5 || k == 6 || k == 7 ||
           k == 8 || k == 9 || k == 10 || k == 11 || k == 12 || k == 13 || k == 14 || k == 15 ||
           k == 16 || k == 17 || k == 18 || k == 19 || k == 20;
  }

  lemma InnerOffsAt(i: nat)
    requires i < 3
    ensures InnerOffs[i] == TbPitch * (i as int - 1) as real
  {
  }

  lemma OuterOffsAt(i: nat)
    requires i < 5
    ensures OuterOffs[i] == TbPitch * (i as int - 2) as real
  {
  }

  /** The offset of endcap mPMT k is its grid position times the pitch, in the plane z = 0. */
  lemma OffsetAtGrid(innerY: seq<nat>, outerY: seq<nat>, k: nat)
    requires IndexTablesOk(innerY, outerY) && k < 21
    ensures EndcapOffsets(innerY, outerY)[k] ==
      Vec3(TbPitch * GridX(k) as real, TbPitch * GridYIn(innerY, outerY, k) as real, 0.0)
  {
    var inner := seq(8, i requires 0 <= i < 8 => Vec3(InnerOffs[InnerX[i]], InnerOffs[innerY[i]], 0.0));
    var outer := seq(12, i requires 0 <= i < 12 => Vec3(OuterOffs[OuterX[i]], OuterOffs[outerY[i]], 0.0));
    var o := EndcapOffsets(innerY, outerY);
    assert o == [Zero] + inner + outer;
    if k == 0 {
      assert o[k] == Zero;
    } else if k <= 8 {
      var i := k - 1;
      assert o[k] == inner[i];
      InnerOffsAt(InnerX[i]);
      InnerOffsAt(innerY[i]);
    } else {
      var i := k - 9;
      assert o[k] == outer[i];
      OuterOffsAt(OuterX[i]);
      OuterOffsAt(outerY[i]);
    }
  }

  function EndcapTable(top: bool): seq<LayoutEntry> {
    if top then Top() else Bottom()
  }

  function YRots(top: bool): seq<real> {
    if top then TopYRots else BottomYRots
  }

  function Shift(top: bool): real {
    if top then -0.5 else 0.5
  }

  /** Row k of an endcap table built from index tables of the right shape and 21 rotations. */
  lemma EndcapRow(innerY: seq<nat>, outerY: seq<nat>, yRots: seq<real>, shift: real, k: nat)
    requires IndexTablesOk(innerY, outerY) && |yRots| == 21 && k < 21
    ensures |Endcap(EndcapOffsets(innerY, outerY), yRots, shift)| == 21
    ensures Endcap(EndcapOffsets(innerY, outerY), yRots, shift)[k] ==
      EndcapEntry(GridPointIn(innerY, outerY, k), yRots[k], shift)
  {
    OffsetAtGrid(innerY, outerY, k);
  }

  /** The endcap tables are built from the grid tables of their side. */
  lemma EndcapTableIs(top: bool)
    ensures IndexTablesOk(InnerY(top), OuterY(top)) && |YRots(top)| == 21
    ensures EndcapTable(top) == Endcap(EndcapOffsets(InnerY(top), OuterY(top)), YRots(top), Shift(top))
  {
  }

  /** Endcap mPMT k: unnamed, 'ME', turned about z by (y_rot + shift) pi, at its grid point. */
  lemma EndcapAt(top: bool, k: nat)
    requires k < 21
    ensures |EndcapTable(top)| == 21
    ensures EndcapTable(top)[k] ==
      EndcapEntry(GridPoint(top, k), YRots(top)[k], Shift(top))
  {
    EndcapTableIs(top);
    EndcapRow(InnerY(top), OuterY(top), YRots(top), Shift(top), k);
  }

  lemma EndcapEntryShape(top: bool, k: nat)
    requires k < 21
    ensures var t := EndcapTable(top);
      |t| == 21 &&
      t[k].name.None? && t[k].kind == "ME" && t[k].rotAxes == "z" && EntryOk(t[k]) &&
      t[k].rotAngles == Scalar((YRots(top)[k] + Shift(top)) * Pi) &&
      t[k].loc == GridPoint(top, k)
  {
    EndcapAt(top, k);
  }

  /** Different endcap mPMTs sit at different points. */
  lemma GridPointsDistinct(top: bool, k: nat, m: nat)
    requires k < m < 21
    ensures GridPoint(top, k) != GridPoint(top, m)
  {
    GridPointIs(top, k);
    GridPointIs(top, m);
    GridDistinct(top, k, m);
    PitchCancels(GridX(k), GridX(m));
    PitchCancels(GridY(top, k), GridY(top, m));
  }

  lemma GridDistinct(top: bool, k: nat, m: nat)
    requires k < m < 21
    ensures GridX(k) != GridX(m) || GridY(top, k) != GridY(top, m)
  {
    GridIndexOfPosition(top, k);
    GridIndexOfPosition(top, m);
  }

  /**
   * Each endcap has 21 unnamed 'ME' mPMTs with a single rotation about z
   * by (y_rot + 1/2) pi on the bottom and (y_rot - 1/2) pi on the top; the
   * first is at the origin; all lie in the plane z = 0 on the grid of
   * `EndcapGrid`, so at pairwise distinct locations.
   */
  lemma EndcapShape(top: bool)
    ensures var t := EndcapTable(top);
      |t| == 21 &&
      (forall k :: 0 <= k < 21 ==>
         t[k].name.None? && t[k].kind == "ME" && t[k].rotAxes == "z" && EntryOk(t[k]) &&
         t[k].rotAngles == Scalar((YRots(top)[k] + Shift(top)) * Pi) &&
         t[k].loc == GridPoint(top, k)) &&
      t[0].loc == Zero &&
      (forall k, m :: 0 <= k < m < 21 ==> t[k].loc != t[m].loc)
  {
    EndcapEntryShape(top, 0);
    forall k | 0 <= k < 21
      ensures var t := EndcapTable(top);
        t[k].name.None? && t[k].kind == "ME" && t[k].rotAxes == "z" && EntryOk(t[k]) &&
        t[k].rotAngles == Scalar((YRots(top)[k] + Shift(top)) * Pi) &&
        t[k].loc == GridPoint(top, k)
    {
      EndcapEntryShape(top, k);
    }
    forall k, m | 0 <= k < m < 21 ensures EndcapTable(top)[k].loc != EndcapTable(top)[m].loc {
      EndcapEntryShape(top, k);
      EndcapEntryShape(top, m);
      GridPointsDistinct(top, k, m);
    }
  }

  lemma PitchCancels(a: int, b: int)
    ensures TbPitch * a as real == TbPitch * b as real ==> a == b
  {
  }

  /** The top endcap is the bottom endcap mirrored in y, mPMT by mPMT. */
  lemma TopMirrorsBottom()
    ensures |Top()| == |Bottom()| == 21
    ensures forall k :: 0 <= k < 21 ==> Top()[k].loc == Vec3(Bottom()[k].loc.x, -Bottom()[k].loc.y, 0.0)
  {
    EndcapAt(true, 0);
    EndcapAt(false, 0);
    forall k | 0 <= k < 21 ensures Top()[k].loc == Vec3(Bottom()[k].loc.x, -Bottom()[k].loc.y, 0.0) {
      MirrorAt(k);
    }
  }

  lemma MirrorAt(k: nat)
    requires k < 21
    ensures |Top()| == |Bottom()| == 21
    ensures Top()[k].loc == Vec3(Bottom()[k].loc.x, -Bottom()[k].loc.y, 0.0)
  {
    EndcapAt(true, k);
    EndcapAt(false, k);
    assert Top()[k].loc == GridPoint(true, k);
    assert Bottom()[k].loc == GridPoint(false, k);
    GridPointMirror(k);
  }

  lemma GridPointMirror(k: nat)
    requires k < 21
    ensures GridPoint(true, k) == Vec3(GridPoint(false, k).x, -GridPoint(false, k).y, 0.0)
  {
    GridPointIs(true, k);
    GridPointIs(false, k);
    GridMirrorAt(k);
    PitchNegates(GridY(false, k));
  }

  lemma PitchNegates(y: int)
    ensures TbPitch * (-y) as real == -(TbPitch * y as real)
  {
  }

  // ---------------------------------------------------------------------
  // 'wall': 4 rows of 16 mPMTs on the cylinder
  // ---------------------------------------------------------------------

  const WallColumns: nat := 16

  /** The azimuth of wall column j. */
  function WallPhi(j: int): real {
    2.0 * Pi * j as real / WallColumns as real
  }

  /**
   * The wall mPMT in row `row` (-1..2) and column j: the point on the
   * cylinder at azimuth 0 and height row * pitch turned about Z by the
   * column's azimuth, facing the axis.
   */
  function WallEntry(row: int, j: int, num: Numerics): LayoutEntry {
    var phi := WallPhi(j);
    var loc := Vec3(WcteDiameter / 2.0, 0.0, row as real * WallVerticalPitch);
    LayoutEntry(None, "ME", num.rotate("Z", Scalar(phi), loc), LocSig, "ZYX",
                Sequence([Pi, Pi / 2.0, -phi]), Sequence([RotAngleSig, RotAngleSig, RotAngleSig]))
  }

  /** `wall_mpmts` in closed form: entry k is in row k / 16 - 1 and column k % 16. */
  function Wall(num: Numerics): seq<LayoutEntry> {
    seq(64, k => WallEntry(k / 16 - 1, k % 16, num))
  }

  function WallPos(row: int, j: int): int {
    16 * (row + 1) + j
  }

  lemma WallAt(row: int, j: int, num: Numerics)
    requires -1 <= row <= 2 && 0 <= j < 16
    ensures var k := WallPos(row, j); 0 <= k < 64 && Wall(num)[k] == WallEntry(row, j, num)
  {
  }

  /** The class-body loops that build `wall_mpmts`, row by row. */
  method BuildWall(num: Numerics) returns (t: seq<LayoutEntry>)
    ensures t == Wall(num)
  {
    t := [];
    for row := -1 to 3
      invariant t == Wall(num)[..WallPos(row, 0)]
    {
      for j := 0 to WallColumns
        invariant t == Wall(num)[..WallPos(row, j)]
      {
        WallAt(row, j, num);
        t := t + [WallEntry(row, j, num)];
      }
    }
  }

  /** A rotation about Z keeps the height and the distance from the axis. */
  ghost predicate TurnsAboutZ(num: Numerics) {
    forall phi, v :: var w := num.rotate("Z", Scalar(phi), v);
      w.z == v.z && w.x * w.x + w.y * w.y == v.x * v.x + v.y * v.y
  }

  /**
   * `wall_mpmts` has 64 unnamed 'ME' mPMTs with three rotations 'ZYX' by
   * [pi, pi/2, -phi], phi being 2 pi j / 16 for column j.  When the
   * rotation about Z keeps height and radius, each mPMT lies on the
   * cylinder of diameter 3422.166 mm, row r at height r * 580 mm.
   */
  lemma WallShape(num: Numerics)
    ensures var t := Wall(num);
      |t| == 64 &&
      forall row, j :: -1 <= row <= 2 && 0 <= j < 16 ==>
        var e := t[WallPos(row, j)];
        e.name.None? && e.kind == "ME" && e.rotAxes == "ZYX" && EntryOk(e) &&
        e.rotAngles == Sequence([Pi, Pi / 2.0, -WallPhi(j)]) &&
        (TurnsAboutZ(num) ==>
           e.loc.z == row as real * WallVerticalPitch &&
           e.loc.x * e.loc.x + e.loc.y * e.loc.y == (WcteDiameter / 2.0) * (WcteDiameter / 2.0))
  {
    forall row, j | -1 <= row <= 2 && 0 <= j < 16
      ensures var e := Wall(num)[WallPos(row, j)];
        e.name.None? && e.kind == "ME" && e.rotAxes == "ZYX" && EntryOk(e) &&
        e.rotAngles == Sequence([Pi, Pi / 2.0, -WallPhi(j)]) &&
        (TurnsAboutZ(num) ==>
           e.loc.z == row as real * WallVerticalPitch &&
           e.loc.x * e.loc.x + e.loc.y * e.loc.y == (WcteDiameter / 2.0) * (WcteDiameter / 2.0))
    {
      WallAt(row, j, num);
      var e := WallEntry(row, j, num);
      assert EntryOk(e);
    }
  }

  // ---------------------------------------------------------------------
  // `SM.devices_design`
  // ---------------------------------------------------------------------

  const Kinds: set<string> := {"SSM", "bottom", "top", "wall"}

  /** The layout table of an SM kind; None for a kind the class does not define. */
  function DevicesDesign(kind: string, num: Numerics): (r: Option<seq<LayoutEntry>>)
    ensures r.Some? <==> kind in Kinds
    ensures kind == "SSM" ==> r == Some(Ssm())
    ensures kind == "bottom" ==> r == Some(Bottom())
    ensures kind == "top" ==> r == Some(Top())
    ensures kind == "wall" ==> r == Some(Wall(num))
  {
    if kind == "SSM" then Some(Ssm())
    else if kind == "bottom" then Some(Bottom())
    else if kind == "top" then Some(Top())
    else if kind == "wall" then Some(Wall(num))
    else None
  }

  /** Every row of every SM table has the shape the placement code relies on. */
  lemma LayoutsOk(kind: string, num: Numerics)
    ensures var r := DevicesDesign(kind, num);
      r.Some? ==> forall k :: 0 <= k < |r.value| ==> EntryOk(r.value[k])
  {
    if kind == "SSM" {
      SsmShape();
    } else if kind == "bottom" {
      EndcapShape(false);
    } else if kind == "top" {
      EndcapShape(true);
    } else if kind == "wall" {
      WallShape(num);
      forall k | 0 <= k < 64 ensures EntryOk(Wall(num)[k]) {
        assert k == WallPos(k / 16 - 1, k % 16);
      }
    }
  }
}
