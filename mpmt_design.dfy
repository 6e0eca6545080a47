/**
 * The class-level design data of a multi-PMT module (mPMT): the property
 * tables of its kinds, the layout tables of the PMTs and LEDs placed in it,
 * and the outlines (baseplate, feedthrough, survey holes) drawn on its
 * baseplate plane, with the selection among them by feature name.
 *
 * The tables are built by counted loops; each builder method is proved to
 * produce the closed-form table given by a function, and the lemmas state
 * the shape of those tables.
 */
module MPMTDesign {
  import opened Base
  import opened Sampling

  // ---------------------------------------------------------------------
  // Property tables
  // ---------------------------------------------------------------------

  const DefDesignMean: map<string, real> := map["clock_offset" := 0.0, "adc_cf" := 2.0, "size" := 500.0]
  const DefDesignScale: map<string, real> := map["clock_offset" := 100.0, "adc_cf" := 0.1, "size" := 0.5]
  const DefDesignVar: map<string, string> := map["clock_offset" := "uniform"]

  /** Both the rectangular ('MR') and the dome ('ME', 'MI') kinds use 2.2 ADC channels per mV. */
  const MrDesignMean: map<string, real> := DefDesignMean["adc_cf" := 2.2]
  const MdDesignMean: map<string, real> := DefDesignMean["adc_cf" := 2.2]

  const Kinds: set<string> := {"MR", "ME", "MI"}

  /** `MPMT.design_mean`, `design_scale` and `design_var`. */
  function Tables(): (t: DesignTables)
    ensures t.mean.Keys == t.scale.Keys == t.variation.Keys == Kinds
  {
    DesignTables(
      map["MR" := MrDesignMean, "ME" := MdDesignMean, "MI" := MdDesignMean],
      map["MR" := DefDesignScale, "ME" := DefDesignScale, "MI" := DefDesignScale],
      map["MR" := DefDesignVar, "ME" := DefDesignVar, "MI" := DefDesignVar])
  }

  /**
   * The three kinds share one set of tables: the default means with an ADC
   * conversion of 2.2, the default scales, and a uniform clock offset.
   * They satisfy everything the property draw needs.
   */
  lemma KindsShareTables(kind: string)
    requires kind in Kinds
    ensures var t := Tables();
      t.mean[kind] == t.mean["MR"] && t.scale[kind] == DefDesignScale && t.variation[kind] == DefDesignVar &&
      t.mean[kind].Keys == DefDesignMean.Keys &&
      t.mean[kind]["adc_cf"] == 2.2 &&
      (forall key :: key in t.mean[kind] && key != "adc_cf" ==> t.mean[kind][key] == DefDesignMean[key])
    ensures TablesOk(Tables(), kind)
  {
    KindTables(kind);
    SharedMeans();
    SharedTablesOk();
  }

  lemma KindTables(kind: string)
    requires kind in Kinds
    ensures var t := Tables();
      t.mean[kind] == t.mean["MR"] == MrDesignMean && t.scale[kind] == DefDesignScale && t.variation[kind] == DefDesignVar
  {
    assert kind == "MR" || kind == "ME" || kind == "MI";
  }

  lemma SharedMeans()
    ensures MrDesignMean.Keys == DefDesignMean.Keys && MrDesignMean["adc_cf"] == 2.2
    ensures forall key :: key in MrDesignMean && key != "adc_cf" ==> MrDesignMean[key] == DefDesignMean[key]
  {
  }

  lemma SharedTablesOk()
    ensures forall key :: key in MrDesignMean ==>
      key in DefDesignScale && (key in DefDesignVar ==> DefDesignVar[key] == "uniform")
  {
    forall key | key in MrDesignMean
      ensures key in DefDesignScale && (key in DefDesignVar ==> DefDesignVar[key] == "uniform")
    {
      assert key == "clock_offset" || key == "adc_cf" || key == "size";
    }
  }

  /**
   * The clock offset of every mPMT kind varies uniformly over [-100, 100] ns;
   * the other properties vary normally around their means.
   */
  lemma ClockOffsetUniform(kind: string)
    requires kind in Kinds
    ensures var t := Tables();
      "clock_offset" in t.mean[kind] && "clock_offset" in t.scale[kind] &&
      VarType(t.variation[kind], "clock_offset") == "uniform" &&
      SamplingDistribution(t.mean[kind]["clock_offset"], t.scale[kind]["clock_offset"],
                           VarType(t.variation[kind], "clock_offset")) == Uniform(-100.0, 200.0)
    ensures var t := Tables();
      "adc_cf" in t.mean[kind] && "adc_cf" in t.scale[kind] &&
      VarType(t.variation[kind], "adc_cf") == "norm" &&
      SamplingDistribution(t.mean[kind]["adc_cf"], t.scale[kind]["adc_cf"],
                           VarType(t.variation[kind], "adc_cf")) == Normal(2.2, 0.1)
  {
    KindTables(kind);
    assert "adc_cf" !in DefDesignVar;
  }

  // ---------------------------------------------------------------------
  // Rectangular pattern of PMTs and LEDs (kind 'MR')
  // ---------------------------------------------------------------------

  const UnitSig: Vec3 := Vec3(1.0, 1.0, 1.0)
  const AngleSig2: Angles := Sequence([0.01, 0.01])

  /** The PMT at grid position (i, j) of the 3 x 3 pattern, named `n`. */
  function RectPmt(i: int, j: int, n: nat): LayoutEntry {
    LayoutEntry(Some(Str(n)), "P3", Vec3(100.0 * i as real, 100.0 * j as real, 200.0),
                UnitSig, "XZ", Sequence([0.0, 0.0]), AngleSig2)
  }

  /** `def_pmts` in closed form: entry k sits at grid position (k / 3 - 1, k % 3 - 1). */
  function DefPmts(): seq<LayoutEntry> {
    seq(9, k => RectPmt(k / 3 - 1, k % 3 - 1, if k < 0 then 0 else k))
  }

  /** The filter of the loop, `i * j != 10`, holds on the whole 3 x 3 grid. */
  lemma {:induction false} GridFilterAlwaysTrue(i: int, j: int)
    requires -1 <= i <= 1 && -1 <= j <= 1
    ensures i * j != 10
  {
    if i == 0 || j == 0 {
    } else {
      assert i == 1 || i == -1;
      assert i * j == j || i * j == -j;
    }
  }

  /** The position in `def_pmts` of the PMT at grid position (i, j). */
  function GridPos(i: int, j: int): int {
    3 * (i + 1) + (j + 1)
  }

  lemma GridIndex(i: int, j: int)
    requires -1 <= i <= 1 && -1 <= j <= 1
    ensures var k := GridPos(i, j); 0 <= k < 9 && k / 3 - 1 == i && k % 3 - 1 == j
  {
  }

  /** The class-body loops that build `def_pmts`. */
  method BuildDefPmts() returns (t: seq<LayoutEntry>)
    ensures t == DefPmts()
  {
    t := [];
    for i := -1 to 2
      invariant t == DefPmts()[..3 * (i + 1)]
    {
      for j := -1 to 2
        invariant t == DefPmts()[..GridPos(i, j)]
      {
        GridFilterAlwaysTrue(i, j);
        if i * j != 10 {
          GridIndex(i, j);
          DefPmtAt(|t|);
          t := t + [RectPmt(i, j, |t|)];
        }
      }
    }
  }

  /** Entry k of `def_pmts` is named k and sits at grid position (k / 3 - 1, k % 3 - 1). */
  lemma DefPmtAt(k: nat)
    requires k < 9
    ensures DefPmts()[k] == RectPmt(k / 3 - 1, k % 3 - 1, k)
  {
  }

  /** Different entries of `def_pmts` sit at different grid positions and have different names. */
  lemma DefPmtsDistinct(k: nat, m: nat)
    requires k < m < 9
    ensures DefPmts()[k].loc != DefPmts()[m].loc && DefPmts()[k].name != DefPmts()[m].name
  {
    DefPmtAt(k);
    DefPmtAt(m);
    if Str(k) == Str(m) {
      StrInjective(k, m);
    }
    assert k == 3 * (k / 3) + k % 3 && m == 3 * (m / 3) + m % 3;
    assert k / 3 != m / 3 || k % 3 != m % 3;
  }

  /**
   * `def_pmts` has 9 PMTs of kind 'P3' named '0'..'8' in order, at
   * (100 i, 100 j, 200) for every i, j in {-1, 0, 1}, at pairwise distinct
   * places and with pairwise distinct names.
   */
  lemma DefPmtsShape()
    ensures var t := DefPmts();
      |t| == 9 &&
      (forall k :: 0 <= k < 9 ==> t[k].name == Some(Str(k)) && t[k].kind == "P3" && EntryOk(t[k])) &&
      (forall i, j :: -1 <= i <= 1 && -1 <= j <= 1 ==>
         t[GridPos(i, j)].loc == Vec3(100.0 * i as real, 100.0 * j as real, 200.0)) &&
      (forall k, m :: 0 <= k < m < 9 ==> t[k].loc != t[m].loc && t[k].name != t[m].name)
  {
    var t := DefPmts();
    forall k | 0 <= k < 9 ensures t[k].name == Some(Str(k)) && t[k].kind == "P3" && EntryOk(t[k]) {
      DefPmtAt(k);
    }
    forall i, j | -1 <= i <= 1 && -1 <= j <= 1
      ensures t[GridPos(i, j)].loc == Vec3(100.0 * i as real, 100.0 * j as real, 200.0)
    {
      GridIndex(i, j);
      DefPmtAt(GridPos(i, j));
    }
    forall k, m | 0 <= k < m < 9 ensures t[k].loc != t[m].loc && t[k].name != t[m].name {
      DefPmtsDistinct(k, m);
    }
  }

  /** `def_leds`: one diffuser LED 'LD0' and one collimator LED 'LC0'. */
  const DefLeds: seq<LayoutEntry> := [
    LayoutEntry(Some("LD0"), "LD", Vec3(50.0, 0.0, 200.0), UnitSig, "XZ", Sequence([0.0, 0.0]), AngleSig2),
    LayoutEntry(Some("LC0"), "LC", Vec3(0.0, 50.0, 200.0), UnitSig, "XZ", Sequence([0.0, 0.0]), AngleSig2)
  ]

  // ---------------------------------------------------------------------
  // Dome pattern of PMTs (kinds 'ME' and 'MI')
  // ---------------------------------------------------------------------

  const NumberByRow: seq<nat> := [1, 6, 12]
  const AngleByRow: seq<real> := [0.0, -0.297, -0.593]
  const DzByRow: seq<real> := [0.0, -14.242, -55.724]
  const DistanceByRow: seq<real> := [0.0, 96.355, 190.594]
  /** mm from the baseplate top surface to PMT 0. */
  const DzToPmt0: real := 246.8

  /** Index of the first PMT of each row, and the total after the last row. */
  const PmtRowStart: seq<nat> := [0, 1, 7, 19]

  function TransverseRadius(row: nat, num: Numerics): real
    requires row < 3
  {
    num.sqrt(DistanceByRow[row] * DistanceByRow[row] - DzByRow[row] * DzByRow[row])
  }

  /** PMT number `i` of dome row `row`, named `n`. */
  function DomePmt(row: nat, i: nat, n: nat, num: Numerics): LayoutEntry
    requires row < 3
  {
    if row == 0 then
      LayoutEntry(Some(Str(n)), "P3", Vec3(0.0, 0.0, DzToPmt0), UnitSig, "xz", Sequence([0.0, 0.0]), AngleSig2)
    else
      var phi := 2.0 * Pi * i as real / NumberByRow[row] as real;
      var loc := num.rotate("Z", Scalar(phi), Vec3(0.0, TransverseRadius(row, num), DzByRow[row] + DzToPmt0));
      LayoutEntry(Some(Str(n)), "P3", loc, UnitSig, "xz", Sequence([AngleByRow[row], phi]), AngleSig2)
  }

  /** The dome row that PMT number k (0 <= k < 19) belongs to. */
  function PmtRowOf(k: nat): (row: nat)
    ensures row < 3
    ensures k < 19 ==> PmtRowStart[row] <= k < PmtRowStart[row + 1]
  {
    if k < 1 then 0 else if k < 7 then 1 else 2
  }

  /** `dome_pmts` in closed form. */
  function DomePmts(num: Numerics): seq<LayoutEntry> {
    seq(19, k => var n: nat := if k < 0 then 0 else k;
                 var row := PmtRowOf(n);
                 DomePmt(row, n - PmtRowStart[row], n, num))
  }

  lemma DomePmtAt(row: nat, i: nat, num: Numerics)
    requires row < 3 && i < NumberByRow[row]
    ensures var k := PmtRowStart[row] + i;
      k < 19 && PmtRowOf(k) == row && DomePmts(num)[k] == DomePmt(row, i, k, num)
  {
  }

  /** The class-body loops that build `dome_pmts`, row by row. */
  method BuildDomePmts(num: Numerics) returns (t: seq<LayoutEntry>)
    ensures t == DomePmts(num)
  {
    t := [];
    for row := 0 to 3
      invariant t == DomePmts(num)[..PmtRowStart[row]]
    {
      if row == 0 {
        DomePmtAt(0, 0, num);
        t := t + [DomePmt(0, 0, |t|, num)];
      } else {
        for i := 0 to NumberByRow[row]
          invariant t == DomePmts(num)[..PmtRowStart[row] + i]
        {
          DomePmtAt(row, i, num);
          t := t + [DomePmt(row, i, |t|, num)];
        }
      }
    }
  }

  /**
   * `dome_pmts` has 1 + 6 + 12 = 19 PMTs named '0'..'18' in creation order,
   * all of kind 'P3' with axes 'xz'; the first is on the axis at
   * (0, 0, 246.8) with angles [0, 0], and row r holds entries
   * PmtRowStart[r] .. PmtRowStart[r+1]-1.
   */
  lemma DomePmtsShape(num: Numerics)
    ensures var t := DomePmts(num);
      |t| == NumberByRow[0] + NumberByRow[1] + NumberByRow[2] == 19 &&
      (forall k :: 0 <= k < 19 ==>
         t[k].name == Some(Str(k)) && t[k].kind == "P3" && t[k].rotAxes == "xz" && EntryOk(t[k])) &&
      t[0].loc == Vec3(0.0, 0.0, DzToPmt0) && t[0].rotAngles == Sequence([0.0, 0.0]) &&
      (forall k :: 0 <= k < 19 ==>
         t[k].rotAngles.Sequence? && |t[k].rotAngles.angles| == 2 && t[k].rotAngles.angles[0] == AngleByRow[PmtRowOf(k)])
  {
    var t := DomePmts(num);
    forall k | 0 <= k < 19
      ensures t[k].name == Some(Str(k)) && t[k].kind == "P3" && t[k].rotAxes == "xz" && EntryOk(t[k])
      ensures t[k].rotAngles.Sequence? && |t[k].rotAngles.angles| == 2 && t[k].rotAngles.angles[0] == AngleByRow[PmtRowOf(k)]
    {
      var row := PmtRowOf(k);
      DomePmtAt(row, k - PmtRowStart[row], num);
    }
    DomePmtAt(0, 0, num);
  }

  // ---------------------------------------------------------------------
  // Dome pattern of LEDs (kinds 'ME' and 'MI')
  // ---------------------------------------------------------------------

  /** mm of the outer top flat surface of the matrix. */
  const MatrixZ: real := 115.85
  /** mm from the matrix surface to the end of the diffuser holder. */
  const DiffuserHolderLength: real := 66.7
  const LedNumberByRow: seq<nat> := [3, 3, 6]
  const LedAngleByRow: seq<real> := [0.17, 0.388, 0.707]
  const LedDzByRow: seq<real> := [68.709, 52.644, 8.504]
  const LedXmByRow: seq<real> := [39.221, 0.0, 167.804]
  const LedYmByRow: seq<real> := [22.645, 101.328, 44.963]
  const LedRowStart: seq<nat> := [0, 3, 6, 12]

  /** The first row holds the collimated LEDs, the others the diffuse ones. */
  function LedKind(row: nat): string {
    if row == 0 then "LC" else "LD"
  }

  /** LED number `i` of row `row`, named `n`. */
  function DomeLed(row: nat, i: nat, n: nat, num: Numerics): LayoutEntry
    requires row < 3
  {
    var radius := num.sqrt(LedXmByRow[row] * LedXmByRow[row] + LedYmByRow[row] * LedYmByRow[row]);
    var phi0 := num.atan2(LedYmByRow[row], LedXmByRow[row]);
    var rotLoc := num.rotate("Y", Scalar(LedAngleByRow[row]), Vec3(0.0, 0.0, DiffuserHolderLength));
    var transLoc := Vec3(rotLoc.x + radius, rotLoc.y, rotLoc.z + MatrixZ + LedDzByRow[row]);
    var phi := 2.0 * Pi * i as real / LedNumberByRow[row] as real + phi0 + Pi / 2.0;
    var loc := num.rotate("Z", Scalar(phi), transLoc);
    LayoutEntry(Some(Str(n)), LedKind(row), loc, UnitSig, "yz", Sequence([LedAngleByRow[row], phi]), AngleSig2)
  }

  function LedRowOf(k: nat): (row: nat)
    ensures row < 3
    ensures k < 12 ==> LedRowStart[row] <= k < LedRowStart[row + 1]
  {
    if k < 3 then 0 else if k < 6 then 1 else 2
  }

  /** `dome_leds` in closed form. */
  function DomeLeds(num: Numerics): seq<LayoutEntry> {
    seq(12, k => var n: nat := if k < 0 then 0 else k;
                 var row := LedRowOf(n);
                 DomeLed(row, n - LedRowStart[row], n, num))
  }

  lemma DomeLedAt(row: nat, i: nat, num: Numerics)
    requires row < 3 && i < LedNumberByRow[row]
    ensures var k := LedRowStart[row] + i;
      k < 12 && LedRowOf(k) == row && DomeLeds(num)[k] == DomeLed(row, i, k, num)
  {
  }

  /** The class-body loops that build `dome_leds`, row by row. */
  method BuildDomeLeds(num: Numerics) returns (t: seq<LayoutEntry>)
    ensures t == DomeLeds(num)
  {
    t := [];
    for row := 0 to 3
      invariant t == DomeLeds(num)[..LedRowStart[row]]
    {
      for i := 0 to LedNumberByRow[row]
        invariant t == DomeLeds(num)[..LedRowStart[row] + i]
      {
        DomeLedAt(row, i, num);
        t := t + [DomeLed(row, i, |t|, num)];
      }
    }
  }

  /**
   * `dome_leds` has 3 + 3 + 6 = 12 LEDs named '0'..'11' with axes 'yz';
   * the first row (entries 0..2) is of kind 'LC', the others of kind 'LD'.
   */
  lemma DomeLedsShape(num: Numerics)
    ensures var t := DomeLeds(num);
      |t| == LedNumberByRow[0] + LedNumberByRow[1] + LedNumberByRow[2] == 12 &&
      (forall k :: 0 <= k < 12 ==> t[k].name == Some(Str(k)) && t[k].rotAxes == "yz" && EntryOk(t[k])) &&
      (forall k :: 0 <= k < 12 ==> (t[k].kind == "LC" <==> k < 3) && (t[k].kind == "LD" <==> k >= 3))
  {
    var t := DomeLeds(num);
    forall k | 0 <= k < 12
      ensures t[k].name == Some(Str(k)) && t[k].rotAxes == "yz" && EntryOk(t[k])
      ensures (t[k].kind == "LC" <==> k < 3) && (t[k].kind == "LD" <==> k >= 3)
    {
      var row := LedRowOf(k);
      DomeLedAt(row, k - LedRowStart[row], num);
    }
  }

  // ---------------------------------------------------------------------
  // Layout tables per kind
  // ---------------------------------------------------------------------

  /** `MPMT.pmts_design[kind]`, None for a kind without a table. */
  function PmtsDesign(kind: string, num: Numerics): (r: Option<seq<LayoutEntry>>)
    ensures r.Some? <==> kind in Kinds
    ensures kind == "MR" ==> r == Some(DefPmts())
    ensures kind == "ME" || kind == "MI" ==> r == Some(DomePmts(num))
  {
    if kind == "MR" then Some(DefPmts())
    else if kind == "ME" || kind == "MI" then Some(DomePmts(num))
    else None
  }

  /** `MPMT.leds_design[kind]`, None for a kind without a table. */
  function LedsDesign(kind: string, num: Numerics): (r: Option<seq<LayoutEntry>>)
    ensures r.Some? <==> kind in Kinds
    ensures kind == "MR" ==> r == Some(DefLeds)
    ensures kind == "ME" || kind == "MI" ==> r == Some(DomeLeds(num))
  {
    if kind == "MR" then Some(DefLeds)
    else if kind == "ME" || kind == "MI" then Some(DomeLeds(num))
    else None
  }

  /** Every row of every mPMT layout table has the shape placement relies on. */
  lemma LayoutsOk(kind: string, num: Numerics)
    ensures var t := PmtsDesign(kind, num); t.Some? ==> forall i :: 0 <= i < |t.value| ==> EntryOk(t.value[i])
    ensures var t := LedsDesign(kind, num); t.Some? ==> forall i :: 0 <= i < |t.value| ==> EntryOk(t.value[i])
  {
    if kind == "MR" {
      DefPmtsShape();
    } else if kind == "ME" || kind == "MI" {
      DomePmtsShape(num);
      DomeLedsShape(num);
    }
  }

  // ---------------------------------------------------------------------
  // Outlines on the baseplate plane
  // ---------------------------------------------------------------------

  /** mm length of the long edge of the baseplate. */
  const LongEdge: real := 314.88
  /** mm separation of the long edges. */
  const LongEdgeSeparation: real := 528.0
  const Halfs: seq<real> := [LongEdgeSeparation / 2.0, LongEdge / 2.0]
  const Signs: seq<real> := [1.0, -1.0]
  const BaseXHalf: seq<nat> := [0, 1, 1, 0, 0, 1, 1, 0]
  const BaseXSign: seq<nat> := [0, 0, 1, 1, 1, 1, 0, 0]
  const BaseYHalf: seq<nat> := [1, 0, 0, 1, 1, 0, 0, 1]
  const BaseYSign: seq<nat> := [1, 1, 1, 1, 0, 0, 0, 0]

  function BasePoint(i: nat): Vec3
    requires i < 8
  {
    Vec3(Halfs[BaseXHalf[i]] * Signs[BaseXSign[i]], Halfs[BaseYHalf[i]] * Signs[BaseYSign[i]], 0.0)
  }

  /** `base_xy_points` in closed form. */
  function BaseOutline(): seq<Vec3> {
    seq(8, i => if 0 <= i < 8 then BasePoint(i) else Zero)
  }

  method BuildBaseOutline() returns (t: seq<Vec3>)
    ensures t == BaseOutline()
  {
    t := [];
    for i := 0 to 8
      invariant t == BaseOutline()[..i]
    {
      t := t + [BasePoint(i)];
    }
  }

  function Abs(x: real): real {
    if x < 0.0 then -x else x
  }

  /**
   * The baseplate outline is an octagon of 8 distinct points in the plane
   * z = 0; at each corner one coordinate is +-264 (half the separation of
   * the long edges) and the other +-157.44 (half a long edge).
   */
  lemma BaseOutlineShape()
    ensures var t := BaseOutline();
      |t| == 8 &&
      (forall i :: 0 <= i < 8 ==>
         t[i].z == 0.0 &&
         ((Abs(t[i].x) == 264.0 && Abs(t[i].y) == 157.44) || (Abs(t[i].x) == 157.44 && Abs(t[i].y) == 264.0))) &&
      (forall i, j :: 0 <= i < j < 8 ==> t[i] != t[j])
  {
  }

  /**
   * The elementary functions the outlines use: cosine and sine of the same
   * angle are the coordinates of a point on the unit circle.
   */
  ghost predicate TrigLaws(num: Numerics) {
    forall theta :: num.cos(theta) * num.cos(theta) + num.sin(theta) * num.sin(theta) == 1.0
  }

  /** Point i of n on the circle of the given radius around (cx, cy) in the plane z = 0. */
  function CirclePoint(cx: real, cy: real, radius: real, i: nat, n: nat, num: Numerics): Vec3
    requires n > 0
  {
    var theta := 2.0 * Pi * i as real / n as real;
    Vec3(cx + radius * num.cos(theta), cy + radius * num.sin(theta), 0.0)
  }

  function Circle(cx: real, cy: real, radius: real, n: nat, num: Numerics): (c: seq<Vec3>)
    requires n > 0
    ensures |c| == n
  {
    seq(n, i => if 0 <= i < n then CirclePoint(cx, cy, radius, i, n, num) else Zero)
  }

  /** `p` lies in the plane z = 0 at distance `radius` from (cx, cy). */
  predicate OnCircle(p: Vec3, cx: real, cy: real, radius: real) {
    p.z == 0.0 && (p.x - cx) * (p.x - cx) + (p.y - cy) * (p.y - cy) == radius * radius
  }

  /** Every point of a circle outline lies in the plane z = 0 at the given radius from its centre. */
  lemma {:induction false} CircleRadius(cx: real, cy: real, radius: real, n: nat, num: Numerics)
    requires n > 0 && TrigLaws(num)
    ensures forall i :: 0 <= i < n ==> OnCircle(Circle(cx, cy, radius, n, num)[i], cx, cy, radius)
  {
    forall i | 0 <= i < n ensures OnCircle(Circle(cx, cy, radius, n, num)[i], cx, cy, radius) {
      CirclePointRadius(cx, cy, radius, i, n, num);
    }
  }

  lemma CirclePointRadius(cx: real, cy: real, radius: real, i: nat, n: nat, num: Numerics)
    requires n > 0 && TrigLaws(num)
    ensures OnCircle(CirclePoint(cx, cy, radius, i, n, num), cx, cy, radius)
  {
    var theta := 2.0 * Pi * i as real / n as real;
    var c, s := num.cos(theta), num.sin(theta);
    assert c * c + s * s == 1.0;
    calc {
      (radius * c) * (radius * c) + (radius * s) * (radius * s);
      radius * radius * (c * c + s * s);
      radius * radius;
    }
  }

  /** mm centre of the feedthrough hole. */
  const FeedthroughX: real := 195.26
  const FeedthroughY: real := -43.29
  /** mm diameter of the feedthrough hole. */
  const FeedthroughDiameter: real := 43.0
  const FeedthroughPoints: nat := 20

  /** `feedthough_xy_points` in closed form. */
  function FeedthroughOutline(num: Numerics): seq<Vec3> {
    Circle(FeedthroughX, FeedthroughY, FeedthroughDiameter / 2.0, FeedthroughPoints, num)
  }

  method BuildFeedthroughOutline(num: Numerics) returns (t: seq<Vec3>)
    ensures t == FeedthroughOutline(num)
  {
    t := [];
    for i := 0 to FeedthroughPoints
      invariant t == FeedthroughOutline(num)[..i]
    {
      t := t + [CirclePoint(FeedthroughX, FeedthroughY, FeedthroughDiameter / 2.0, i, FeedthroughPoints, num)];
    }
  }

  /** mm: the fiducials' x and y coordinates are +- this value. */
  const SurveyC: real := 196.58
  const FiducialZOffset: real := -30.0

  /** The centres of the corner-cube reflectors C1..C4. */
  const Fiducials: seq<Vec3> := [
    Vec3(-SurveyC, -SurveyC, FiducialZOffset),
    Vec3(-SurveyC, SurveyC, FiducialZOffset),
    Vec3(SurveyC, -SurveyC, FiducialZOffset),
    Vec3(SurveyC, SurveyC, FiducialZOffset)
  ]

  /** mm diameter of the survey holes. */
  const SurveyHoleDiameter: real := 8.0
  const SurveyHolePoints: nat := 20

  /** `survey_holes_xy_points` in closed form: one circle around each fiducial. */
  function SurveyHoles(num: Numerics): seq<seq<Vec3>> {
    seq(4, k => if 0 <= k < 4 then Circle(Fiducials[k].x, Fiducials[k].y, SurveyHoleDiameter / 2.0, SurveyHolePoints, num)
                else [])
  }

  /** The class-body loops that build the survey-hole outlines, one fiducial at a time. */
  method BuildSurveyHoles(num: Numerics) returns (t: seq<seq<Vec3>>)
    ensures t == SurveyHoles(num)
  {
    t := [];
    for k := 0 to |Fiducials|
      invariant t == SurveyHoles(num)[..k]
    {
      var xs, ys := Fiducials[k].x, Fiducials[k].y;
      var hole := [];
      for i := 0 to SurveyHolePoints
        invariant hole == Circle(xs, ys, SurveyHoleDiameter / 2.0, SurveyHolePoints, num)[..i]
      {
        hole := hole + [CirclePoint(xs, ys, SurveyHoleDiameter / 2.0, i, SurveyHolePoints, num)];
      }
      assert hole == SurveyHoles(num)[k];
      t := t + [hole];
    }
  }

  /** Every point of survey hole k lies in the plane z = 0 at 4 mm from fiducial k. */
  lemma SurveyHoleShape(k: nat, num: Numerics)
    requires k < 4 && TrigLaws(num)
    ensures var h := SurveyHoles(num)[k]; var c := Fiducials[k];
      |h| == 20 && Abs(c.x) == SurveyC && Abs(c.y) == SurveyC &&
      forall i :: 0 <= i < 20 ==> OnCircle(h[i], c.x, c.y, 4.0)
  {
    var c, h := Fiducials[k], SurveyHoles(num)[k];
    assert h == Circle(c.x, c.y, 4.0, 20, num);
    FiducialCorner(k);
    forall i | 0 <= i < 20 ensures OnCircle(h[i], c.x, c.y, 4.0) {
      assert h[i] == CirclePoint(c.x, c.y, 4.0, i, 20, num);
      CirclePointRadius(c.x, c.y, 4.0, i, 20, num);
    }
  }

  /** The fiducials sit at the four corners (+-196.58, +-196.58). */
  lemma FiducialCorner(k: nat)
    requires k < 4
    ensures Abs(Fiducials[k].x) == SurveyC && Abs(Fiducials[k].y) == SurveyC
  {
  }

  /**
   * There are 4 survey holes of 20 points each; every point of hole k lies
   * in the plane z = 0 at 4 mm from fiducial k, whose x and y are +-196.58.
   */
  lemma SurveyHolesShape(num: Numerics)
    requires TrigLaws(num)
    ensures |SurveyHoles(num)| == 4
    ensures forall k :: 0 <= k < 4 ==>
      var h := SurveyHoles(num)[k]; var c := Fiducials[k];
      |h| == 20 && Abs(c.x) == SurveyC && Abs(c.y) == SurveyC &&
      forall i :: 0 <= i < 20 ==> OnCircle(h[i], c.x, c.y, 4.0)
  {
    forall k | 0 <= k < 4
      ensures var h := SurveyHoles(num)[k]; var c := Fiducials[k];
        |h| == 20 && Abs(c.x) == SurveyC && Abs(c.y) == SurveyC &&
        forall i :: 0 <= i < 20 ==> OnCircle(h[i], c.x, c.y, 4.0)
    {
      SurveyHoleShape(k, num);
    }
  }

  // ---------------------------------------------------------------------
  // Feature selection of get_xy_points
  // ---------------------------------------------------------------------

  /** The outline a feature name selects. */
  datatype Outline = BaseOutlineSel | FeedthroughSel | SurveyHoleSel(index: nat)

  /** The exceptions feature selection raises. */
  datatype FeatureError =
    | IndexError   // 'survey_c' without a digit, or a hole number above 4
    | ValueError   // the character after 'survey_c' is not a digit

  predicate StartsWith(s: string, prefix: string) {
    |s| >= |prefix| && s[..|prefix|] == prefix
  }

  function DigitValue(c: char): Option<nat> {
    if '0' <= c <= '9' then Some(c as int - '0' as int) else None
  }

  /**
   * The choice `get_xy_points` makes: 'feedthrough' selects the feedthrough
   * hole; a name starting with 'survey_c' selects survey hole N-1 for the
   * digit N at index 8, Python's negative indexing making N = 0 the last
   * hole; anything else selects the baseplate outline.
   */
  function SelectOutline(feature: string): Result<Outline, FeatureError> {
    if feature == "feedthrough" then Ok(FeedthroughSel)
    else if StartsWith(feature, "survey_c") then
      if |feature| <= 8 then Err(IndexError)
      else match DigitValue(feature[8])
        case None => Err(ValueError)
        case Some(n) =>
          if n == 0 then Ok(SurveyHoleSel(3))
          else if n <= 4 then Ok(SurveyHoleSel(n - 1))
          else Err(IndexError)
    else Ok(BaseOutlineSel)
  }

  /** The points of a selected outline. */
  function OutlinePoints(o: Outline, num: Numerics): seq<Vec3>
    requires o.SurveyHoleSel? ==> o.index < 4
  {
    match o
    case BaseOutlineSel => BaseOutline()
    case FeedthroughSel => FeedthroughOutline(num)
    case SurveyHoleSel(k) => SurveyHoles(num)[k]
  }

  /**
   * `get_xy_points` up to the coordinate transformation: the list of points
   * in the mPMT's own coordinates that the feature name selects.
   */
  function GetXYPoints(feature: string, num: Numerics): (r: Result<seq<Vec3>, FeatureError>)
    ensures r.Ok? <==> SelectOutline(feature).Ok?
    ensures r.Ok? ==> |r.value| == 8 || |r.value| == 20
  {
    match SelectOutline(feature)
    case Err(e) => Err(e)
    case Ok(o) =>
      assert o.SurveyHoleSel? ==> o.index < 4;
      Ok(OutlinePoints(o, num))
  }

  /**
   * Feature names: 'survey_cN' with N in 1..4 selects hole N-1 and
   * 'survey_c0' the last hole; N in 5..9 is an index error, and so is
   * 'survey_c' itself; a non-digit after the prefix is a value error;
   * any name not starting with 'survey_c' other than 'feedthrough' selects
   * the baseplate outline.
   */
  lemma SelectOutlineCases(feature: string, rest: string)
    ensures forall n :: 1 <= n <= 4 ==>
      SelectOutline("survey_c" + [Digit(n)] + rest) == Ok(SurveyHoleSel(n - 1))
    ensures SelectOutline("survey_c0" + rest) == Ok(SurveyHoleSel(3))
    ensures forall n :: 5 <= n <= 9 ==> SelectOutline("survey_c" + [Digit(n)] + rest) == Err(IndexError)
    ensures SelectOutline("survey_c") == Err(IndexError)
    ensures forall c :: !('0' <= c <= '9') ==> SelectOutline("survey_c" + [c] + rest) == Err(ValueError)
    ensures feature != "feedthrough" && !StartsWith(feature, "survey_c") ==> SelectOutline(feature) == Ok(BaseOutlineSel)
  {
    forall n | 1 <= n <= 9
      ensures var f := "survey_c" + [Digit(n)] + rest;
        StartsWith(f, "survey_c") && |f| > 8 && f[8] == Digit(n) && DigitValue(Digit(n)) == Some(n)
    {
      var f := "survey_c" + [Digit(n)] + rest;
      assert f[..8] == "survey_c";
    }
    forall c | !('0' <= c <= '9')
      ensures SelectOutline("survey_c" + [c] + rest) == Err(ValueError)
    {
      var f := "survey_c" + [c] + rest;
      assert f[..8] == "survey_c" && f[8] == c && f[0] == 's';
    }
    var f0 := "survey_c0" + rest;
    assert f0[..8] == "survey_c" && f0[8] == '0';
  }
}
