/**
 * The class-level data of a water Cherenkov detector (WCD): the property
 * tables of its kinds, the mPMT layouts of the detectors built directly
 * from mPMTs ('W1', 'W2', 'W3') and the super-module layout of the WCTE.
 *
 * The property tables are `prop_mean`, `prop_scale` and `prop_var`, not
 * `design_mean`: a WCD is therefore created without design or true
 * properties, and the tables are only reachable by name.
 */
module WCDDesign {
  import opened Base
  import opened Sampling
  import SMDesign

  /** Speed of light in vacuum, mm/ns. */
  const LightVelocity: real := 299.792

  // ---------------------------------------------------------------------
  // Property tables
  // ---------------------------------------------------------------------

  const DefPropMean: map<string, real> :=
    map["clock_offset" := 0.0, "refraction_index" := 1.4, "absorption_length" := 80000.0]
  const DefPropScale: map<string, real> :=
    map["clock_offset" := 0.0, "refraction_index" := 0.0, "absorption_length" := 1000.0]
  const DefPropVar: map<string, string> := map[]

  /** The WCD in air: no refraction and practically no absorption. */
  const W2PropMean: map<string, real> := DefPropMean["refraction_index" := 1.0]["absorption_length" := 80000000.0]

  const PropKinds: set<string> := {"W1", "W2", "W3", "WCTE"}

  /** `WCD.prop_mean`, `prop_scale` and `prop_var`. */
  function PropTables(): (t: DesignTables)
    ensures t.mean.Keys == t.scale.Keys == t.variation.Keys == PropKinds
  {
    DesignTables(
      map["W1" := DefPropMean, "W3" := DefPropMean, "W2" := W2PropMean, "WCTE" := DefPropMean],
      map["W1" := DefPropScale, "W3" := DefPropScale, "W2" := DefPropScale, "WCTE" := DefPropScale],
      map["W1" := DefPropVar, "W3" := DefPropVar, "W2" := DefPropVar, "WCTE" := DefPropVar])
  }

  /** 'W2' differs from 'W1' only in its mean refraction index (1.0) and absorption length (80 km). */
  lemma W2DiffersFromW1Only()
    ensures var t := PropTables();
      t.mean["W2"].Keys == t.mean["W1"].Keys &&
      (forall key :: key in t.mean["W1"] && key != "refraction_index" && key != "absorption_length" ==>
         t.mean["W2"][key] == t.mean["W1"][key]) &&
      t.mean["W2"]["refraction_index"] == 1.0 && t.mean["W1"]["refraction_index"] == 1.4 &&
      t.mean["W2"]["absorption_length"] == 80000000.0 && t.mean["W1"]["absorption_length"] == 80000.0
  {
    var t := PropTables();
    assert t.mean["W1"] == DefPropMean && t.mean["W2"] == W2PropMean;
  }

  /**
   * All kinds share the scales (only the absorption length varies, by
   * 1 m) and the empty distribution table, and the tables meet what
   * drawing from them needs.
   */
  lemma PropTablesOk()
    ensures var t := PropTables();
      (forall kind :: kind in PropKinds ==> t.scale[kind] == DefPropScale && t.variation[kind] == map[]) &&
      (forall kind :: kind in PropKinds ==> TablesOk(t, kind))
  {
    forall kind | kind in PropKinds
      ensures PropTables().scale[kind] == DefPropScale && PropTables().variation[kind] == map[]
      ensures TablesOk(PropTables(), kind)
    {
      PropTablesOkFor(kind);
    }
  }

  lemma PropTablesOkFor(kind: string)
    requires kind in PropKinds
    ensures PropTables().scale[kind] == DefPropScale && PropTables().variation[kind] == map[]
    ensures TablesOk(PropTables(), kind)
  {
    PropKindTables(kind);
    PropMeansKeys();
  }

  lemma PropKindTables(kind: string)
    requires kind in PropKinds
    ensures var t := PropTables();
      t.scale[kind] == DefPropScale && t.variation[kind] == map[] &&
      (t.mean[kind] == DefPropMean || t.mean[kind] == W2PropMean)
  {
    assert kind == "W1" || kind == "W2" || kind == "W3" || kind == "WCTE";
  }

  lemma PropMeansKeys()
    ensures DefPropMean.Keys == W2PropMean.Keys == DefPropScale.Keys
  {
  }

  // ---------------------------------------------------------------------
  // mPMT layouts 'W1', 'W2' and 'W3'
  // ---------------------------------------------------------------------

  const UnitSig: Vec3 := Vec3(1.0, 1.0, 1.0)
  const AngleSig3: Angles := Sequence([0.01, 0.01, 0.01])

  /** The mPMT of `def_mpmts` on side i (x negative for 0, positive for 1) and end j of the z axis. */
  function DefMpmt(i: int, j: int): LayoutEntry {
    var signX := 2 * i - 1;
    LayoutEntry(None, "M1", Vec3(signX as real * 4000.0, 0.0, (2 * j - 1) as real * 1000.0), UnitSig,
                "XYZ", Sequence([Pi / 2.0, -1.0 * signX as real * Pi / 2.0, 0.0]), AngleSig3)
  }

  /** `def_mpmts` in closed form: entry k is on side k / 2 and end k % 2. */
  function DefMpmts(): seq<LayoutEntry> {
    seq(4, k => DefMpmt(k / 2, k % 2))
  }

  lemma DefMpmtAt(i: int, j: int)
    requires 0 <= i < 2 && 0 <= j < 2
    ensures 2 * i + j < 4 && DefMpmts()[2 * i + j] == DefMpmt(i, j)
  {
  }

  /** The class-body loops that build `def_mpmts`. */
  method BuildDefMpmts() returns (t: seq<LayoutEntry>)
    ensures t == DefMpmts()
  {
    t := [];
    for i := 0 to 2
      invariant t == DefMpmts()[..2 * i]
    {
      for j := 0 to 2
        invariant t == DefMpmts()[..2 * i + j]
      {
        DefMpmtAt(i, j);
        t := t + [DefMpmt(i, j)];
      }
    }
  }

  /** The two further pairs of `def3_mpmts`, on the z axis and on the y axis. */
  const Def3Extra: seq<LayoutEntry> := [
    LayoutEntry(None, "M1", Vec3(0.0, 0.0, -4000.0), UnitSig, "XYZ", Sequence([0.0, 0.0, 0.0]), AngleSig3),
    LayoutEntry(None, "M1", Vec3(0.0, 0.0, 4000.0), UnitSig, "XYZ", Sequence([Pi, 0.0, 0.0]), AngleSig3),
    LayoutEntry(None, "M1", Vec3(0.0, -4000.0, 0.0), UnitSig, "XYZ", Sequence([-Pi / 2.0, 0.0, 0.0]), AngleSig3),
    LayoutEntry(None, "M1", Vec3(0.0, 4000.0, 0.0), UnitSig, "XYZ", Sequence([Pi / 2.0, 0.0, 0.0]), AngleSig3)
  ]

  /**
   * `def3_mpmts`: a copy of `def_mpmts` with the four further mPMTs
   * appended; the list it was copied from keeps its four entries.
   */
  method BuildDef3Mpmts(defMpmts: seq<LayoutEntry>) returns (t: seq<LayoutEntry>)
    ensures |t| == |defMpmts| + 4 && t[..|defMpmts|] == defMpmts && t[|defMpmts|..] == Def3Extra
  {
    t := defMpmts;
    for k := 0 to 4
      invariant t == defMpmts + Def3Extra[..k]
    {
      t := t + [Def3Extra[k]];
    }
  }

  function Def3Mpmts(): seq<LayoutEntry> {
    DefMpmts() + Def3Extra
  }

  /**
   * `def_mpmts` is two pairs of 'M1' mPMTs facing each other across the
   * x axis: entries k and k + 2 are at opposite x = -/+4000 with the same
   * z = -/+1000, y = 0, and opposite turns about Y.
   */
  lemma DefMpmtsShape()
    ensures var t := DefMpmts();
      |t| == 4 &&
      (forall k :: 0 <= k < 4 ==>
         t[k].name.None? && t[k].kind == "M1" && t[k].rotAxes == "XYZ" && EntryOk(t[k]) && t[k].loc.y == 0.0 &&
         t[k].rotAngles.Sequence? && |t[k].rotAngles.angles| == 3) &&
      (forall k :: 0 <= k < 2 ==>
         t[k].loc == Vec3(-4000.0, 0.0, t[k].loc.z) && t[k + 2].loc == Vec3(4000.0, 0.0, t[k].loc.z) &&
         t[k + 2].rotAngles.angles[1] == -t[k].rotAngles.angles[1]) &&
      t[0].loc.z == -1000.0 && t[1].loc.z == 1000.0
  {
    var t := DefMpmts();
    forall k | 0 <= k < 4
      ensures t[k].name.None? && t[k].kind == "M1" && t[k].rotAxes == "XYZ" && EntryOk(t[k]) && t[k].loc.y == 0.0
      ensures t[k].rotAngles.Sequence? && |t[k].rotAngles.angles| == 3
    {
      DefMpmtAt(k / 2, k % 2);
    }
    forall k | 0 <= k < 2
      ensures t[k].loc == Vec3(-4000.0, 0.0, t[k].loc.z) && t[k + 2].loc == Vec3(4000.0, 0.0, t[k].loc.z)
      ensures t[k + 2].rotAngles.angles[1] == -t[k].rotAngles.angles[1]
    {
      DefMpmtAt(0, k);
      DefMpmtAt(1, k);
    }
    DefMpmtAt(0, 0);
    DefMpmtAt(0, 1);
  }

  const MpmtKinds: set<string> := {"W1", "W2", "W3"}

  /** `WCD.mpmts_design`: 'W1' and 'W2' share `def_mpmts`, 'W3' uses `def3_mpmts`. */
  function MpmtsDesign(kind: string): (r: Option<seq<LayoutEntry>>)
    ensures r.Some? <==> kind in MpmtKinds
  {
    if kind == "W1" || kind == "W2" then Some(DefMpmts())
    else if kind == "W3" then Some(Def3Mpmts())
    else None
  }

  /**
   * 'W1' and 'W2' have the 4 mPMTs of `def_mpmts`; 'W3' has 8, of which
   * the first 4 are those of 'W1'; every row has the shape placement
   * relies on.
   */
  lemma MpmtLayouts()
    ensures MpmtsDesign("W1") == MpmtsDesign("W2") == Some(DefMpmts()) && |DefMpmts()| == 4
    ensures var w3 := MpmtsDesign("W3").value; |w3| == 8 && w3[..4] == MpmtsDesign("W1").value
    ensures forall kind :: kind in MpmtKinds ==>
      var r := MpmtsDesign(kind).value; forall k :: 0 <= k < |r| ==> EntryOk(r[k])
  {
    DefMpmtsShape();
    var w3 := Def3Mpmts();
    assert w3[..4] == DefMpmts();
    forall k | 0 <= k < 8 ensures EntryOk(w3[k]) {
      if k >= 4 {
        assert w3[k] == Def3Extra[k - 4];
      }
    }
  }

  // ---------------------------------------------------------------------
  // Super-module layout 'WCTE'
  // ---------------------------------------------------------------------

  /** mm y coordinates of the mPMT baseplates of the top and the bottom endcap. */
  const WcteTop: real := 1955.0
  const WcteBottom: real := -1105.475

  /** The turn shared by the three super modules. */
  const SmRotAngles: Angles := Sequence([-Pi / 2.0, -Pi / 2.0, 0.0])

  function WcteSm(name: string, y: real): LayoutEntry {
    LayoutEntry(Some(name), name, Vec3(0.0, y, 0.0), UnitSig, "ZYX", SmRotAngles, AngleSig3)
  }

  /** `wcte_sms`: bottom, barrel and top, each named after its kind. */
  const WcteSms: seq<LayoutEntry> := [WcteSm("bottom", WcteBottom), WcteSm("barrel", 0.0), WcteSm("top", WcteTop)]

  /** `WCD.sms_design`. */
  function SmsDesign(kind: string): (r: Option<seq<LayoutEntry>>)
    ensures r.Some? <==> kind == "WCTE"
  {
    if kind == "WCTE" then Some(WcteSms) else None
  }

  /**
   * The WCTE is the bottom, barrel and top super modules in that order,
   * each named after its kind, at heights -1105.475, 0 and 1955 mm on the
   * y axis, all turned by 'ZYX' [-pi/2, -pi/2, 0]; of their kinds, only
   * 'bottom' and 'top' have an SM layout, so the barrel holds no mPMTs.
   */
  lemma WcteShape(num: Numerics)
    ensures var t := SmsDesign("WCTE").value;
      |t| == 3 &&
      t[0].kind == "bottom" && t[1].kind == "barrel" && t[2].kind == "top" &&
      (forall k :: 0 <= k < 3 ==>
         t[k].name == Some(t[k].kind) && t[k].rotAxes == "ZYX" && t[k].rotAngles == SmRotAngles && EntryOk(t[k]) &&
         t[k].loc.x == 0.0 && t[k].loc.z == 0.0) &&
      t[0].loc.y == -1105.475 && t[1].loc.y == 0.0 && t[2].loc.y == 1955.0 &&
      (forall k :: 0 <= k < 3 ==> (SMDesign.DevicesDesign(t[k].kind, num).Some? <==> k != 1))
  {
  }

  /** Every row of the detector's layout tables can be placed. */
  lemma LayoutsOk(kind: string)
    ensures var t := MpmtsDesign(kind); t.Some? ==> forall k :: 0 <= k < |t.value| ==> EntryOk(t.value[k])
    ensures var t := SmsDesign(kind); t.Some? ==> forall k :: 0 <= k < |t.value| ==> EntryOk(t.value[k])
  {
    MpmtLayouts();
  }
}
