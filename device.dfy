/**
 * The device tree of a water Cherenkov detector: a WCD holds super
 * modules (SMs) or mPMTs, an SM holds mPMTs or further SMs, an mPMT holds
 * PMTs and LEDs.  Every device knows its container; its true properties
 * are drawn from its class's design tables when it is created, and the
 * devices it holds are created from its class's layout tables, each with
 * a design placement copied from the table and a true placement drawn
 * around it.  `GetPlacement` walks the container links to express a
 * device's frame in the coordinates of one of its containers.
 *
 * One class `Device` stands for all five classes; `deviceType` says which
 * one an object is, and the factory methods `NewWCD`, `NewSM` and
 * `NewMPMT` are the subclass constructors.
 */
module Devices {
  import opened Base
  import opened Sampling
  import opened Frames
  import MPMTDesign
  import SMDesign
  import WCDDesign

  /**
   * The class-level design tables (`design_mean` and friends) of the PMT
   * and LED classes.  Those classes are not part of this model, so their
   * tables are an input: None for a class without `design_mean`.
   */
  datatype LeafTables = LeafTables(pmt: Option<DesignTables>, led: Option<DesignTables>)

  /** The PMT and LED tables serve every kind they list. */
  predicate LeafTablesOk(leaf: LeafTables) {
    (leaf.pmt.Some? ==> forall kind :: kind in leaf.pmt.value.mean ==> TablesOk(leaf.pmt.value, kind)) &&
    (leaf.led.Some? ==> forall kind :: kind in leaf.led.value.mean ==> TablesOk(leaf.led.value, kind))
  }

  /**
   * The design tables of a class: the mPMT class's own, the given PMT and
   * LED tables, and none for super modules and detectors, which declare
   * no `design_mean`.
   */
  function DesignTablesOf(t: DeviceType, leaf: LeafTables): (r: Option<DesignTables>)
    ensures t == MPMT ==> r == Some(MPMTDesign.Tables()) && r.value.mean.Keys == MPMTDesign.Kinds
    ensures r.None? <==> t == SM || t == WCD || (t == PMT && leaf.pmt.None?) || (t == LED && leaf.led.None?)
  {
    match t
    case MPMT => Some(MPMTDesign.Tables())
    case PMT => leaf.pmt
    case LED => leaf.led
    case _ => None
  }

  /** Nesting depth of a class: what its instances can hold is strictly lower. */
  function Rank(t: DeviceType): nat {
    match t
    case PMT => 0
    case LED => 0
    case MPMT => 1
    case SM => 2
    case WCD => 3
  }

  /** What `getattr(device, 'prop_' + info, None)` returns. */
  datatype PropLookup =
    | NoProperties                                      // no such attribute: None
    | Values(values: map<string, real>)                 // an instance property dictionary
    | KindValues(table: map<string, map<string, real>>) // WCD.prop_mean or WCD.prop_scale
    | KindNames(names: map<string, map<string, string>>) // WCD.prop_var

  /**
   * The relation between the design and true properties a device of this
   * class and kind receives when it is created: the tables' means and true
   * values drawn from them, or nothing when the class has no tables for
   * the kind.
   */
  ghost predicate PropertiesDrawn(tables: Option<DesignTables>, kind: string,
                                  design: map<string, real>, truth: map<string, real>, rng: RandomState)
  {
    if tables.Some? && kind in tables.value.mean && TablesOk(tables.value, kind) then
      design == tables.value.mean[kind] && TrueProperties(tables.value, kind, truth, rng)
    else
      design == map[] && truth == map[]
  }

  /**
   * The true placement drawn around a table row: the location drawn
   * coordinate by coordinate from normals around 'loc' with 'loc_sig',
   * the same axes, and the angles drawn from normals around 'rot_angles'
   * with 'rot_angles_sig': one per design angle for a list of angles, a
   * single one for a single angle.
   */
  ghost predicate TruePlacement(p: Placement, e: LayoutEntry, rng: RandomState)
    requires EntryOk(e)
  {
    p.loc.Some? &&
    IsDraw(p.loc.value.x, Normal(e.loc.x, e.locSig.x), rng) &&
    IsDraw(p.loc.value.y, Normal(e.loc.y, e.locSig.y), rng) &&
    IsDraw(p.loc.value.z, Normal(e.loc.z, e.locSig.z), rng) &&
    p.rotAxes == Some(e.rotAxes) && p.rotAngles.Some? &&
    (e.rotAngles.Sequence? ==>
       p.rotAngles.value.Sequence? &&
       AnglesDrawn(p.rotAngles.value.angles, e.rotAngles.angles, e.rotAnglesSig.angles, rng)) &&
    (e.rotAngles.Scalar? ==>
       p.rotAngles.value.Scalar? &&
       IsDraw(p.rotAngles.value.angle, Normal(e.rotAngles.angle, e.rotAnglesSig.angle), rng))
  }

  /** One drawn angle per design angle, each from a normal around it with its deviation. */
  ghost predicate AnglesDrawn(drawn: seq<real>, angles: seq<real>, sigs: seq<real>, rng: RandomState)
    requires |sigs| >= |angles|
  {
    |drawn| == |angles| &&
    forall i :: 0 <= i < |angles| ==> IsDraw(drawn[i], Normal(angles[i], sigs[i]), rng)
  }

  /** A row without any deviation: every 'loc_sig' and 'rot_angles_sig' entry is 0. */
  predicate NoDeviation(e: LayoutEntry) {
    e.locSig == Vec3(0.0, 0.0, 0.0) &&
    (e.rotAnglesSig.Scalar? ==> e.rotAnglesSig.angle == 0.0) &&
    (e.rotAnglesSig.Sequence? ==> forall i :: 0 <= i < |e.rotAnglesSig.angles| ==> e.rotAnglesSig.angles[i] == 0.0)
  }

  /**
   * With no deviation in the row, and scipy returning the location of a
   * normal with deviation 0, the true placement drawn is exactly the design
   * placement, and no other placement qualifies.
   */
  lemma FixedRowKeepsDesign(p: Placement, e: LayoutEntry, rng: RandomState)
    requires EntryOk(e) && NoDeviation(e) && ExactWhenFixed(rng)
    ensures TruePlacement(p, e, rng) <==> p == DesignPlacement(e)
  {
    FixedDraw(e.loc.x, e.loc.x, rng);
    FixedDraw(e.loc.y, e.loc.y, rng);
    FixedDraw(e.loc.z, e.loc.z, rng);
    if p.loc.Some? {
      FixedDraw(p.loc.value.x, e.loc.x, rng);
      FixedDraw(p.loc.value.y, e.loc.y, rng);
      FixedDraw(p.loc.value.z, e.loc.z, rng);
    }
    match e.rotAngles
    case Scalar(angle) =>
      FixedDraw(angle, angle, rng);
      if p.rotAngles.Some? && p.rotAngles.value.Scalar? {
        FixedDraw(p.rotAngles.value.angle, angle, rng);
      }
    case Sequence(angles) =>
      var sigs := e.rotAnglesSig.angles;
      forall i | 0 <= i < |angles| ensures IsDraw(angles[i], Normal(angles[i], sigs[i]), rng) {
        FixedDraw(angles[i], angles[i], rng);
      }
      if p.rotAngles.Some? && p.rotAngles.value.Sequence? && |p.rotAngles.value.angles| == |angles| {
        var drawn := p.rotAngles.value.angles;
        forall i | 0 <= i < |angles| ensures IsDraw(drawn[i], Normal(angles[i], sigs[i]), rng) <==> drawn[i] == angles[i] {
          FixedDraw(drawn[i], angles[i], rng);
        }
        if AnglesDrawn(drawn, angles, sigs, rng) {
          assert drawn == angles;
        }
      }
  }

  /** Draws the true placement of a device placed from table row `e`. */
  method DrawTruePlacement(e: LayoutEntry, rng: RandomState) returns (p: Placement)
    requires EntryOk(e)
    modifies rng
    ensures TruePlacement(p, e, rng)
  {
    var x := rng.Rvs(Normal(e.loc.x, e.locSig.x));
    var y := rng.Rvs(Normal(e.loc.y, e.locSig.y));
    var z := rng.Rvs(Normal(e.loc.z, e.locSig.z));
    var angles: Angles;
    if |e.rotAxes| > 1 {
      var drawn := DrawAngles(e.rotAngles.angles, e.rotAnglesSig.angles, rng);
      angles := Sequence(drawn);
    } else if e.rotAngles.Sequence? {
      // a single axis with a list of angles: `stats.norm.rvs` draws one value per element
      var drawn := DrawAngles(e.rotAngles.angles, e.rotAnglesSig.angles, rng);
      angles := Sequence(drawn);
    } else {
      var v := rng.Rvs(Normal(e.rotAngles.angle, e.rotAnglesSig.angle));
      angles := Scalar(v);
    }
    p := Placement(Some(Vec3(x, y, z)), Some(e.rotAxes), Some(angles));
  }

  /** The loop drawing the angles of a list, one normal draw per angle. */
  method DrawAngles(angles: seq<real>, sigs: seq<real>, rng: RandomState) returns (drawn: seq<real>)
    requires SigmasCover(angles, sigs)
    modifies rng
    ensures AnglesDrawn(drawn, angles, sigs, rng)
  {
    drawn := [];
    for i := 0 to |angles|
      invariant |drawn| == i
      invariant forall q :: 0 <= q < i ==> IsDraw(drawn[q], Normal(angles[q], sigs[q]), rng)
    {
      var v := rng.Rvs(Normal(angles[i], sigs[i]));
      drawn := drawn + [v];
    }
  }

  class Device {
    const deviceType: DeviceType
    const kind: string
    const container: Device?
    /** The containers above this device, innermost first. */
    ghost const chain: seq<Device>

    var name: string
    var propDesign: map<string, real>
    var propTrue: map<string, real>
    var propEst: map<string, real>
    var propEstSig: map<string, real>
    var placeDesign: Placement
    var placeTrue: Placement
    var placeSurvey: Placement
    var placePhoto: Placement
    var placeEst: Placement
    var placeEstSig: Placement
    /** The held devices; None where the class leaves the attribute unset or None. */
    var mpmts: Option<seq<Device>>
    var sms: Option<seq<Device>>
    var pmts: Option<seq<Device>>
    var leds: Option<seq<Device>>
    /** This device and the super modules and mPMTs below it. */
    ghost var Repr: set<Device>

    /** `chain` lists the containers reached through `container` links. */
    ghost predicate Linked()
      decreases |chain|
    {
      if container == null then chain == []
      else chain == [container] + container.chain && container.Linked()
    }

    /** The device with no container at the top of the chain. */
    ghost function Root(): (r: Device)
      requires Linked()
      ensures r.container == null
      ensures container != null ==> r in chain
    {
      if container == null then this else ChainLast(); chain[|chain| - 1]
    }

    lemma {:induction false} ChainLast()
      requires Linked() && container != null
      ensures chain[|chain| - 1].container == null
      decreases |chain|
    {
      if container.container != null {
        container.ChainLast();
      }
    }

    /** Each container on the chain is linked, with the rest of the chain above it. */
    lemma {:induction false} ChainAt(i: nat)
      requires Linked() && i < |chain|
      ensures chain[i].Linked() && chain[i].chain == chain[i + 1..]
      ensures chain[i].container == if i + 1 < |chain| then chain[i + 1] else null
      decreases |chain|
    {
      if i > 0 {
        container.ChainAt(i - 1);
      } else if container.container == null {
      } else {
        container.ChainAt(0);
      }
    }

    /** No device contains itself. */
    lemma Acyclic()
      requires Linked()
      ensures this !in chain
    {
      forall i | 0 <= i < |chain| ensures chain[i] != this {
        ChainAt(i);
      }
    }

    // -------------------------------------------------------------------
    // The mPMTs below a super module
    // -------------------------------------------------------------------

    /**
     * A super module holding mPMTs, or holding super modules that are
     * themselves valid, each owning a disjoint part of the tree.
     */
    ghost predicate TreeValid()
      reads this`Repr, Repr`mpmts, Repr`sms, Repr`Repr
      decreases Repr, 1
    {
      this in Repr &&
      (mpmts.Some? ==>
         (forall i :: 0 <= i < |mpmts.value| ==> mpmts.value[i] in Repr && mpmts.value[i].deviceType == MPMT) &&
         (forall i, j :: 0 <= i < j < |mpmts.value| ==> mpmts.value[i] != mpmts.value[j])) &&
      (mpmts.None? ==> SmsValid())
    }

    ghost predicate SmsValid()
      reads this`Repr, this`sms, (Repr - {this})`mpmts, (Repr - {this})`sms, (Repr - {this})`Repr
      decreases Repr, 0
    {
      this in Repr && sms.Some? &&
      (forall k :: 0 <= k < |sms.value| ==>
         var s := sms.value[k];
         s in Repr && s.Repr <= Repr && this !in s.Repr && s.deviceType == SM && s.TreeValid()) &&
      (forall i, j :: 0 <= i < j < |sms.value| ==> sms.value[i].Repr !! sms.value[j].Repr)
    }

    /** The mPMTs below this super module, in pre-order. */
    ghost function Collected(): seq<Device>
      requires TreeValid()
      reads this`Repr, Repr`mpmts, Repr`sms, Repr`Repr
      decreases Repr, 2
    {
      if mpmts.Some? then mpmts.value else CollectedFrom(0)
    }

    /** The mPMTs below the super modules sms[i..], in order. */
    ghost function CollectedFrom(i: nat): seq<Device>
      requires SmsValid() && i <= |sms.value|
      reads this`Repr, this`sms, (Repr - {this})`mpmts, (Repr - {this})`sms, (Repr - {this})`Repr
      decreases Repr, 1, |sms.value| - i
    {
      if i == |sms.value| then [] else sms.value[i].Collected() + CollectedFrom(i + 1)
    }

    /**
     * `SM.get_mpmts`: appends to `list` this super module's own mPMTs, or
     * else those below each of its super modules in turn.
     */
    method GetMPMTs(list: seq<Device>) returns (r: seq<Device>)
      requires deviceType == SM && TreeValid()
      ensures r == list + Collected()
      decreases Repr
    {
      if mpmts.None? {
        r := list;
        var i := 0;
        while i < |sms.value|
          invariant i <= |sms.value|
          invariant r + CollectedFrom(i) == list + Collected()
        {
          ghost var before := r;
          r := sms.value[i].GetMPMTs(r);
          CollectStep(i, before, r);
          i := i + 1;
        }
      } else {
        r := list + mpmts.value;
      }
    }

    /** The mPMTs below the super modules of this device, collected one super module at a time. */
    method CollectChildren() returns (list: seq<Device>)
      requires SmsValid()
      ensures list == CollectedFrom(0)
    {
      list := [];
      var i := 0;
      while i < |sms.value|
        invariant i <= |sms.value|
        invariant list + CollectedFrom(i) == CollectedFrom(0)
      {
        ghost var before := list;
        list := sms.value[i].GetMPMTs(list);
        CollectStep(i, before, list);
        i := i + 1;
      }
    }

    lemma CollectStep(i: nat, before: seq<Device>, after: seq<Device>)
      requires SmsValid() && i < |sms.value|
      requires after == before + sms.value[i].Collected()
      ensures after + CollectedFrom(i + 1) == before + CollectedFrom(i)
    {
    }

    /** The collected mPMTs are distinct mPMTs of the tree. */
    lemma {:induction false} CollectedWithin()
      requires TreeValid()
      ensures Distinct(Collected())
      ensures forall m :: m in Collected() ==> m in Repr && m.deviceType == MPMT
      decreases Repr, 2
    {
      if mpmts.None? {
        CollectedFromWithin(0);
      }
    }

    lemma {:induction false} CollectedFromWithin(i: nat)
      requires SmsValid() && i <= |sms.value|
      ensures Distinct(CollectedFrom(i))
      ensures forall m :: m in CollectedFrom(i) ==>
        m.deviceType == MPMT && exists k :: i <= k < |sms.value| && m in sms.value[k].Repr
      decreases Repr, 1, |sms.value| - i
    {
      if i < |sms.value| {
        var s := sms.value[i];
        s.CollectedWithin();
        CollectedFromWithin(i + 1);
        var a, b := s.Collected(), CollectedFrom(i + 1);
        forall x, y | 0 <= x < |a| && 0 <= y < |b| ensures a[x] != b[y] {
          assert a[x] in s.Repr;
          assert b[y] in b;
          var k :| i + 1 <= k < |sms.value| && b[y] in sms.value[k].Repr;
        }
      }
    }

    // -------------------------------------------------------------------
    // Properties and placements of one device
    // -------------------------------------------------------------------

    /**
     * `Device.__init__`: an empty device of the given class, name, container
     * and kind, with the given design and true placements and the
     * properties drawn from `tables`, the design tables the class declares
     * (None for a class without them).
     */
    constructor (deviceType: DeviceType, name: string, container: Device?, kind: string,
                 tables: Option<DesignTables>, placeDesign: Placement, placeTrue: Placement, rng: RandomState)
      requires container != null ==> container.Linked()
      requires tables.Some? ==> TablesOk(tables.value, kind)
      modifies rng
      ensures this.deviceType == deviceType && this.name == name && this.container == container && this.kind == kind
      ensures Linked()
      ensures this.placeDesign == placeDesign && this.placeTrue == placeTrue
      ensures placeSurvey == placePhoto == placeEst == placeEstSig == NoPlacement
      ensures PropertiesDrawn(tables, kind, propDesign, propTrue, rng)
      ensures propEst == propEstSig == map[]
      ensures mpmts.None? && sms.None? && pmts.None? && leds.None? && Repr == {this}
    {
      this.deviceType := deviceType;
      this.name := name;
      this.container := container;
      this.kind := kind;
      this.chain := if container == null then [] else [container] + container.chain;
      propDesign, propTrue, propEst, propEstSig := map[], map[], map[], map[];
      this.placeDesign, this.placeTrue := placeDesign, placeTrue;  // `set_placement`
      placeSurvey, placePhoto, placeEst, placeEstSig := NoPlacement, NoPlacement, NoPlacement, NoPlacement;
      mpmts, sms, pmts, leds := None, None, None, None;
      Repr := {this};
      new;
      RandomlySetProperties(tables, kind, rng);
    }

    /**
     * `randomly_set_properties`: when the class has design tables for the
     * kind, the design properties become the kind's means and each true
     * property is its mean (scale not positive) or a draw from its
     * sampling distribution; otherwise nothing changes.
     */
    method RandomlySetProperties(tables: Option<DesignTables>, kind: string, rng: RandomState)
      requires tables.Some? ==> TablesOk(tables.value, kind)
      modifies this`propDesign, this`propTrue, rng
      ensures tables.Some? && kind in tables.value.mean ==>
        propDesign == tables.value.mean[kind] && TrueProperties(tables.value, kind, propTrue, rng)
      ensures tables.None? || kind !in tables.value.mean ==>
        propDesign == old(propDesign) && propTrue == old(propTrue)
    {
      if tables.Some? && kind in tables.value.mean {
        var t := tables.value;
        var truth: map<string, real> := map[];
        var keys := t.mean[kind].Keys;
        while keys != {}
          invariant keys <= t.mean[kind].Keys
          invariant truth.Keys == t.mean[kind].Keys - keys
          invariant forall key :: key in truth ==> TrueValue(t, kind, key, truth[key], rng)
          decreases keys
        {
          var key :| key in keys;
          var scale, mean := t.scale[kind][key], t.mean[kind][key];
          if scale > 0.0 {
            var varType := VarType(t.variation[kind], key);
            SamplingInDomain(mean, scale, varType);
            var val := rng.Rvs(SamplingDistribution(mean, scale, varType));
            truth := truth[key := val];
          } else {
            truth := truth[key := mean];
          }
          keys := keys - {key};
        }
        propDesign := t.mean[kind];
        propTrue := truth;
      }
    }

    /** `get_properties`: the property dictionary named 'prop_' + `info`, if the device has one. */
    function GetProperties(info: string): (r: PropLookup)
      reads this`propDesign, this`propTrue, this`propEst, this`propEstSig
      ensures r.NoProperties? <==>
        info !in {"design", "true", "est", "est_sig"} && (deviceType != WCD || info !in {"mean", "scale", "var"})
      ensures info == "true" ==> r == Values(propTrue)
      ensures info == "design" ==> r == Values(propDesign)
      ensures deviceType == WCD && info in {"mean", "scale"} ==> r.KindValues? && r.table.Keys == WCDDesign.PropKinds
    {
      if info == "design" then Values(propDesign)
      else if info == "true" then Values(propTrue)
      else if info == "est" then Values(propEst)
      else if info == "est_sig" then Values(propEstSig)
      else if deviceType == WCD && info == "mean" then KindValues(WCDDesign.PropTables().mean)
      else if deviceType == WCD && info == "scale" then KindValues(WCDDesign.PropTables().scale)
      else if deviceType == WCD && info == "var" then KindNames(WCDDesign.PropTables().variation)
      else NoProperties
    }

    /** `set_property`: sets one true property, inserting it if absent. */
    method SetProperty(prop: string, value: real)
      modifies this`propTrue
      ensures propTrue == old(propTrue)[prop := value]
    {
      propTrue := propTrue[prop := value];
    }

    /**
     * `place_devices`: one new device of class `childType` per row of the
     * table, in table order, each contained in this device, named after
     * the row ('' without a name), of the row's kind, with the row's
     * design placement and a true placement drawn around it; no devices
     * when the class has no table for the kind.
     */
    method PlaceDevices(childType: DeviceType, table: Option<seq<LayoutEntry>>,
                        num: Numerics, leaf: LeafTables, rng: RandomState)
      returns (devices: seq<Device>, ghost owned: set<Device>)
      requires Linked() && LeafTablesOk(leaf)
      requires table.Some? ==> forall k :: 0 <= k < |table.value| ==> EntryOk(table.value[k])
      modifies rng
      decreases Rank(childType), 6
      ensures Placed(devices, table, this, childType, num, leaf, rng)
      ensures Separate(devices, owned) && fresh(owned)
      ensures childType == SM ==> AllTreeValid(devices)
    {
      devices, owned := [], {};
      if table.Some? {
        var rows := table.value;
        for i := 0 to |rows|
          invariant Placed(devices, Some(rows[..i]), this, childType, num, leaf, rng)
          invariant Separate(devices, owned) && fresh(owned)
          invariant childType == SM ==> AllTreeValid(devices)
        {
          devices, owned := PlaceRow(childType, rows, i, devices, owned, num, leaf, rng);
        }
        assert rows[..|rows|] == rows;
      }
    }

    /** The step of the `place_devices` loop for row `i`: the new device is appended. */
    method PlaceRow(childType: DeviceType, rows: seq<LayoutEntry>, i: nat, devices: seq<Device>, ghost owned: set<Device>,
                    num: Numerics, leaf: LeafTables, rng: RandomState)
      returns (devices': seq<Device>, ghost owned': set<Device>)
      requires Linked() && LeafTablesOk(leaf) && i < |rows| && EntryOk(rows[i])
      requires Placed(devices, Some(rows[..i]), this, childType, num, leaf, rng)
      requires Separate(devices, owned)
      requires childType == SM ==> AllTreeValid(devices)
      modifies rng
      decreases Rank(childType), 5
      ensures Placed(devices', Some(rows[..i + 1]), this, childType, num, leaf, rng)
      ensures Separate(devices', owned') && fresh(owned' - owned)
      ensures childType == SM ==> AllTreeValid(devices')
    {
      ghost var members := Members(devices);
      var d := PlaceOne(childType, rows[i], num, leaf, rng);
      // the new device leaves the devices already placed, and what they own, as they were
      assert Placed(devices, Some(rows[..i]), this, childType, num, leaf, rng) by {
        assert Members(devices) == members;
        assert Footprint(devices) == old(Footprint(devices));
      }
      PlacedSnoc(devices, rows, i, d, this, childType, num, leaf, rng);
      SeparateSnoc(devices, owned, d);
      if childType == SM {
        TreeValidSnoc(devices, d);
      }
      devices', owned' := devices + [d], owned + d.Repr;
    }

    /** One iteration of `place_devices`: the device for table row `e`. */
    method PlaceOne(childType: DeviceType, e: LayoutEntry, num: Numerics, leaf: LeafTables, rng: RandomState)
      returns (d: Device)
      requires Linked() && LeafTablesOk(leaf) && EntryOk(e)
      modifies rng
      decreases Rank(childType), 4
      ensures PlacedFrom(d, e, this, childType, num, leaf, rng)
      ensures d.Linked() && d in d.Repr && fresh(d.Repr)
      ensures childType == SM ==> d.TreeValid()
    {
      var placeTrue := DrawTruePlacement(e, rng);
      d := NewDevice(childType, NameOf(e), this, e.kind, DesignPlacement(e), placeTrue, num, leaf, rng);
    }

    /**
     * `MPMT.__init__` after the base constructor: the PMTs and the LEDs of
     * the kind's tables, placed in turn and owned by this mPMT.
     */
    method PlaceLeaves(num: Numerics, leaf: LeafTables, rng: RandomState)
      requires Linked() && LeafTablesOk(leaf) && Repr == {this}
      modifies this`pmts, this`leds, this`Repr, rng
      decreases 1, 0
      ensures pmts.Some? && Placed(pmts.value, MPMTDesign.PmtsDesign(kind, num), this, PMT, num, leaf, rng)
      ensures leds.Some? && Placed(leds.value, MPMTDesign.LedsDesign(kind, num), this, LED, num, leaf, rng)
      ensures Owns(this, pmts.value) && Owns(this, leds.value)
      ensures this in Repr && fresh(Repr - {this})
    {
      MPMTDesign.LayoutsOk(kind, num);
      var placedPmts, ownedPmts := PlaceDevices(PMT, MPMTDesign.PmtsDesign(kind, num), num, leaf, rng);
      ghost var members, fp := Members(placedPmts), Footprint(placedPmts);
      var placedLeds, ownedLeds := PlaceDevices(LED, MPMTDesign.LedsDesign(kind, num), num, leaf, rng);
      // placing the LEDs leaves the PMTs as they were
      assert Members(placedPmts) == members;
      assert Footprint(placedPmts) == fp;
      FootprintOwned(placedPmts, ownedPmts);
      FootprintOwned(placedLeds, ownedLeds);
      AdoptLeaves(placedPmts, ownedPmts, placedLeds, ownedLeds, num, leaf, rng);
    }

    /** `self.pmts = ...` and `self.leds = ...`: the placed PMTs and LEDs become this mPMT's own. */
    method AdoptLeaves(placedPmts: seq<Device>, ghost ownedPmts: set<Device>,
                       placedLeds: seq<Device>, ghost ownedLeds: set<Device>,
                       ghost num: Numerics, ghost leaf: LeafTables, ghost rng: RandomState)
      requires Placed(placedPmts, MPMTDesign.PmtsDesign(kind, num), this, PMT, num, leaf, rng)
      requires Placed(placedLeds, MPMTDesign.LedsDesign(kind, num), this, LED, num, leaf, rng)
      requires Footprint(placedPmts) <= ownedPmts && Footprint(placedLeds) <= ownedLeds
      requires this !in ownedPmts && this !in ownedLeds
      requires Separate(placedPmts, ownedPmts) && Separate(placedLeds, ownedLeds)
      modifies this`pmts, this`leds, this`Repr
      ensures pmts == Some(placedPmts) && leds == Some(placedLeds)
      ensures Repr == {this} + ownedPmts + ownedLeds
      ensures Placed(placedPmts, MPMTDesign.PmtsDesign(kind, num), this, PMT, num, leaf, rng)
      ensures Placed(placedLeds, MPMTDesign.LedsDesign(kind, num), this, LED, num, leaf, rng)
    {
      pmts, leds := Some(placedPmts), Some(placedLeds);
      Repr := {this} + ownedPmts + ownedLeds;
      // only this mPMT's own fields changed, and it lies outside what either placement owns
      assert Placed(placedPmts, MPMTDesign.PmtsDesign(kind, num), this, PMT, num, leaf, rng) by {
        forall d | d in Members(placedPmts) ensures d.Repr == old(d.Repr) {
          assert d in old(Within(d));
        }
        assert Footprint(placedPmts) == old(Footprint(placedPmts));
      }
      assert Placed(placedLeds, MPMTDesign.LedsDesign(kind, num), this, LED, num, leaf, rng) by {
        forall d | d in Members(placedLeds) ensures d.Repr == old(d.Repr) {
          assert d in old(Within(d));
        }
        assert Footprint(placedLeds) == old(Footprint(placedLeds));
      }
    }

    /** `self.mpmts = self.place_devices(MPMT, ...)`: the placed mPMTs become this device's own. */
    method PlaceMPMTs(table: Option<seq<LayoutEntry>>, num: Numerics, leaf: LeafTables, rng: RandomState)
      requires Linked() && LeafTablesOk(leaf) && Repr == {this} && mpmts.None?
      requires table.Some? ==> forall k :: 0 <= k < |table.value| ==> EntryOk(table.value[k])
      modifies this`mpmts, this`Repr, rng
      decreases 2, 0
      ensures mpmts.Some? && Placed(mpmts.value, table, this, MPMT, num, leaf, rng) && Owns(this, mpmts.value)
      ensures TreeValid() && this in Repr && fresh(Repr - {this})
    {
      var held, owned := PlaceDevices(MPMT, table, num, leaf, rng);
      PlacedClass(held, table, this, MPMT, num, leaf, rng);
      FootprintOwned(held, owned);
      AdoptMPMTs(held, owned, table, num, leaf, rng);
      SeparateDistinct(held, owned);
    }

    /** `self.sms = self.place_devices(SM, ...)`: the placed super modules become this device's own. */
    method PlaceSMs(table: Option<seq<LayoutEntry>>, num: Numerics, leaf: LeafTables, rng: RandomState)
      requires Linked() && LeafTablesOk(leaf) && Repr == {this} && mpmts.None?
      requires table.Some? ==> forall k :: 0 <= k < |table.value| ==> EntryOk(table.value[k])
      modifies this`sms, this`Repr, rng
      decreases 3, 0
      ensures sms.Some? && Placed(sms.value, table, this, SM, num, leaf, rng)
      ensures SmsValid() && TreeValid() && fresh(Repr - {this})
    {
      var held, owned := PlaceDevices(SM, table, num, leaf, rng);
      PlacedClass(held, table, this, SM, num, leaf, rng);
      FootprintOwned(held, owned);
      AdoptSMs(held, owned, table, num, leaf, rng);
    }

    /** `self.mpmts = ...`: the placed devices become this device's own, their placement as it was. */
    method AdoptMPMTs(held: seq<Device>, ghost owned: set<Device>, ghost table: Option<seq<LayoutEntry>>,
                    ghost num: Numerics, ghost leaf: LeafTables, ghost rng: RandomState)
      requires Placed(held, table, this, MPMT, num, leaf, rng)
      requires Footprint(held) <= owned && this !in owned
      modifies this`mpmts, this`Repr
      ensures mpmts == Some(held) && Repr == {this} + owned
      ensures Placed(held, table, this, MPMT, num, leaf, rng)
    {
      mpmts := Some(held);
      Repr := {this} + owned;
      // only this device's own fields changed, and it lies outside what the placement owns
      assert Placed(held, table, this, MPMT, num, leaf, rng) by {
        forall d | d in Members(held) ensures d.Repr == old(d.Repr) {
          assert d in old(Within(d));
        }
        assert Footprint(held) == old(Footprint(held));
      }
    }

    /** `self.sms = ...`: the placed devices become this device's own, their placement as it was. */
    method AdoptSMs(held: seq<Device>, ghost owned: set<Device>, ghost table: Option<seq<LayoutEntry>>,
                    ghost num: Numerics, ghost leaf: LeafTables, ghost rng: RandomState)
      requires Placed(held, table, this, SM, num, leaf, rng)
      requires Footprint(held) <= owned && this !in owned
      modifies this`sms, this`Repr
      ensures sms == Some(held) && Repr == {this} + owned
      ensures Placed(held, table, this, SM, num, leaf, rng)
    {
      sms := Some(held);
      Repr := {this} + owned;
      // only this device's own fields changed, and it lies outside what the placement owns
      assert Placed(held, table, this, SM, num, leaf, rng) by {
        forall d | d in Members(held) ensures d.Repr == old(d.Repr) {
          assert d in old(Within(d));
        }
        assert Footprint(held) == old(Footprint(held));
      }
    }

    /**
     * `WCD.__init__` for a detector of super modules: the placed super
     * modules become its own, then the mPMTs below them are collected and
     * renamed.
     */
    method PlaceSMsAndCollect(table: Option<seq<LayoutEntry>>, num: Numerics, leaf: LeafTables, rng: RandomState)
      requires Linked() && LeafTablesOk(leaf) && Repr == {this} && mpmts.None?
      requires table.Some? ==> forall k :: 0 <= k < |table.value| ==> EntryOk(table.value[k])
      modifies this`sms, this`mpmts, this`Repr, rng
      decreases 3, 1
      ensures SmsValid() && Placed(sms.value, table, this, SM, num, leaf, rng) && fresh(Repr - {this})
      ensures table == WCDDesign.SmsDesign(kind) ==> Holds(this, WCD, num, leaf, rng)
      ensures mpmts == Some(CollectedFrom(0))
      ensures forall i :: 0 <= i < |mpmts.value| ==> mpmts.value[i].name == Str(i)
      ensures forall i, j :: 0 <= i < j < |mpmts.value| ==> mpmts.value[i].name != mpmts.value[j].name
    {
      PlaceSMs(table, num, leaf, rng);
      CollectedFromWithin(0);
      CollectPlacedMPMTs(table, num, leaf, rng);
    }

    /** A device holding super modules owns none of itself through them. */
    lemma OutsideSms()
      requires SmsValid()
      ensures this !in Footprint(sms.value)
    {
      forall d | d in sms.value ensures this !in Within(d) {
        var k :| 0 <= k < |sms.value| && sms.value[k] == d;
      }
    }

    /**
     * The end of `WCD.__init__` for a detector of super modules: all the
     * mPMTs below them, collected in order, become its mPMTs and are
     * renamed '0', '1', ... by position.
     */
    method CollectMPMTs()
      requires SmsValid() && mpmts.None?
      modifies this`mpmts, set m | m in CollectedFrom(0)`name
      ensures SmsValid() && mpmts == Some(CollectedFrom(0))
      ensures forall i :: 0 <= i < |mpmts.value| ==> mpmts.value[i].name == Str(i)
      ensures forall i, j :: 0 <= i < j < |mpmts.value| ==> mpmts.value[i].name != mpmts.value[j].name
      ensures forall k :: 0 <= k < |sms.value| ==> unchanged(sms.value[k])
    {
      var list := CollectChildren();
      CollectedFromWithin(0);
      mpmts := Some(list);
      RenameByPosition(list);
      forall i, j | 0 <= i < j < |list| ensures list[i].name != list[j].name {
        if Str(i) == Str(j) {
          StrInjective(i, j);
        }
      }
    }

    /** `CollectMPMTs` leaves the placement of the super modules, which lie above the renamed mPMTs, as it was. */
    method CollectPlacedMPMTs(ghost table: Option<seq<LayoutEntry>>, ghost num: Numerics, ghost leaf: LeafTables,
                              ghost rng: RandomState)
      requires SmsValid() && mpmts.None?
      requires Placed(sms.value, table, this, SM, num, leaf, rng)
      modifies this`mpmts, set m | m in CollectedFrom(0)`name
      ensures SmsValid() && mpmts == Some(CollectedFrom(0))
      ensures forall i :: 0 <= i < |mpmts.value| ==> mpmts.value[i].name == Str(i)
      ensures forall i, j :: 0 <= i < j < |mpmts.value| ==> mpmts.value[i].name != mpmts.value[j].name
      ensures Placed(sms.value, table, this, SM, num, leaf, rng)
    {
      OutsideSms();
      CollectMPMTs();
      assert Placed(sms.value, table, this, SM, num, leaf, rng) by {
        forall d | d in Members(sms.value) ensures d.Repr == old(d.Repr) && d.name == old(d.name) {
          var k :| 0 <= k < |sms.value| && sms.value[k] == d;
        }
        assert Footprint(sms.value) == old(Footprint(sms.value));
      }
    }

    /** `set_placement`: copies of the design and true placements. */
    method SetPlacement(placeDesign: Placement, placeTrue: Placement)
      modifies this`placeDesign, this`placeTrue
      ensures this.placeDesign == placeDesign && this.placeTrue == placeTrue
    {
      this.placeDesign := placeDesign;
      this.placeTrue := placeTrue;
    }

    // -------------------------------------------------------------------
    // `get_placement`: the frame of this device in a container's coordinates
    // -------------------------------------------------------------------

    /** What `getattr(self, 'place_' + variant, None)` finds. */
    function PlaceAttrOf(variant: string): (r: PlaceAttr)
      reads this
      ensures r.Record? <==> variant in PlaceVariants
      ensures r.BoundMethod? <==> variant == "devices"
      ensures variant == "design" ==> r == Record(placeDesign)
      ensures variant == "true" ==> r == Record(placeTrue)
    {
      if variant == "design" then Record(placeDesign)
      else if variant == "true" then Record(placeTrue)
      else if variant == "survey" then Record(placeSurvey)
      else if variant == "photo" then Record(placePhoto)
      else if variant == "est" then Record(placeEst)
      else if variant == "est_sig" then Record(placeEstSig)
      else if variant == "devices" then BoundMethod
      else NoAttribute
    }

    /** The device and the containers above it: `At(0)` is this device, `At(i)` its i-th container. */
    ghost function At(i: nat): (d: Device)
      requires Linked() && i <= |chain|
      ensures i > 0 ==> d in chain
    {
      if i == 0 then this else chain[i - 1]
    }

    lemma AtContainer(i: nat)
      requires Linked() && i <= |chain|
      ensures At(i).container == if i < |chain| then At(i + 1) else null
    {
      if i > 0 {
        ChainAt(i - 1);
      }
    }

    /** The container whose coordinates a query for `target` uses: the top-level container by default. */
    ghost function Specified(target: Device?): (r: Device)
      requires Linked()
      ensures r.container == null || r == target
      ensures container != null && target == null ==> r in chain
    {
      if target == null then Root() else target
    }

    /**
     * The value of `get_placement(variant, target)`.  A device inside a
     * container must be inside the specified one, at some level above it;
     * a device without a container, or the specified container itself, sits
     * at the origin of its own frame; otherwise the device's own placement
     * gives its frame in its container, and each container strictly between
     * it and the specified one carries the frame one level up, innermost
     * first.
     */
    ghost function Resolve(variant: string, target: Device?, num: Numerics): (r: Result<Frame, PlacementError>)
      requires Linked()
      reads this, chain, target
      ensures container == null ==> r == Ok(Identity)
      ensures (r.Err? && r.error.NotContained?) <==> container != null && Specified(target) !in chain
    {
      var spec := Specified(target);
      if container != null && spec !in chain then
        Err(NotContained(ClassName(deviceType) + " " + name, ClassName(spec.deviceType) + " " + spec.name))
      else if container == null || spec == this then Ok(Identity)
      else
        match OwnFrame(PlaceAttrOf(variant), ClassName(deviceType) + " " + name, variant, num)
        case Err(e) => Err(e)
        case Ok(f) => Compose(f, Levels(chain[..IndexIn(chain, spec)], name, variant), variant, num)
    }

    /**
     * `get_placement`: the location of this device and the directions of
     * its x and z axes in the coordinates of `target`, or of the top-level
     * container when `target` is null.
     */
    method GetPlacement(variant: string, target: Device?, num: Numerics) returns (r: Result<Frame, PlacementError>)
      requires Linked()
      ensures r == Resolve(variant, target, num)
    {
      var spec := target;
      if spec == null {
        spec := TopContainer();
      }
      if container != null {
        var inside := Inside(spec);
        if !inside {
          return Err(NotContained(ClassName(deviceType) + " " + name, ClassName(spec.deviceType) + " " + spec.name));
        }
      }
      if container == null || spec == this {
        return Ok(Identity);
      }
      var own := OwnFrame(PlaceAttrOf(variant), ClassName(deviceType) + " " + name, variant, num);
      if own.Err? {
        return Err(own.error);
      }
      r := Carry(own.value, spec, variant, num);
    }

    /** The end of the container links: this device when it has no container. */
    method TopContainer() returns (top: Device)
      requires Linked()
      ensures top == Root()
    {
      top := this;
      if container != null {
        ghost var i := 0;
        while top.container != null
          invariant i <= |chain| && top == At(i)
          decreases |chain| - i
        {
          AtContainer(i);
          top := top.container;
          i := i + 1;
        }
        AtContainer(i);
        ChainLast();
      }
    }

    /** Whether `spec` is reached by following the container links from this device's container. */
    method Inside(spec: Device) returns (inside: bool)
      requires Linked() && container != null
      ensures inside <==> spec in chain
    {
      var theContainer := container;
      inside := false;
      ghost var k := 0;
      while theContainer != null
        invariant k <= |chain| && theContainer == (if k < |chain| then chain[k] else null)
        invariant spec !in chain[..k]
        decreases |chain| - k
      {
        if theContainer == spec {
          inside := true;
          break;
        }
        ChainAt(k);
        theContainer := theContainer.container;
        k := k + 1;
      }
      if !inside {
        assert chain[..k] == chain;
      }
    }

    /**
     * The composition loop: `frame`, given in the coordinates of this
     * device's container, carried through each container below `spec`.
     */
    method Carry(frame: Frame, spec: Device, variant: string, num: Numerics) returns (r: Result<Frame, PlacementError>)
      requires Linked() && spec in chain
      ensures r == Compose(frame, Levels(chain[..IndexIn(chain, spec)], name, variant), variant, num)
    {
      ghost var k := IndexIn(chain, spec);
      var f := frame;
      var currentContainer := container;
      ghost var m := 0;
      while currentContainer != spec
        invariant m <= k && currentContainer == chain[m]
        invariant Compose(frame, Levels(chain[..k], name, variant), variant, num) ==
                  Compose(f, Levels(chain[m..k], name, variant), variant, num)
        decreases k - m
      {
        assert m < k by {
          assert chain[..k][m] == chain[m];
        }
        LevelsStep(chain, m, k, name, variant);
        var step := Lift(f, currentContainer.PlaceAttrOf(variant),
                         ClassName(currentContainer.deviceType) + " " + name, variant, num);
        if step.Err? {
          return Err(step.error);
        }
        f := step.value;
        ChainAt(m);
        currentContainer := currentContainer.container;
        m := m + 1;
      }
      assert m == k;
      r := Ok(f);
    }

    /**
     * Asking for this device's own frame gives the origin for a device
     * without a container, and ValueError for any other: the containment
     * walk starts at the container, which never leads back to the device.
     */
    lemma SelfQuery(variant: string, num: Numerics)
      requires Linked()
      ensures container == null ==> Resolve(variant, this, num) == Ok(Identity)
      ensures container != null ==>
                Resolve(variant, this, num) ==
                Err(NotContained(ClassName(deviceType) + " " + name, ClassName(deviceType) + " " + name))
    {
      if container != null {
        Acyclic();
      }
    }

    /** Asking for the frame of the device's own container gives its own placement, converted to a frame. */
    lemma ContainerQuery(variant: string, num: Numerics)
      requires Linked() && container != null
      ensures Resolve(variant, container, num) ==
        OwnFrame(PlaceAttrOf(variant), ClassName(deviceType) + " " + name, variant, num)
    {
      Acyclic();
      assert chain[0] == container;
      assert IndexIn(chain, container) == 0;
    }

    /**
     * A device placed from a row without deviation, with scipy returning
     * the location of a normal with deviation 0: its true frame in its
     * container's coordinates is at the row's 'loc'.
     */
    lemma FixedRowResolves(e: LayoutEntry, rng: RandomState, num: Numerics)
      requires Linked() && container != null
      requires EntryOk(e) && NoDeviation(e) && ExactWhenFixed(rng) && TruePlacement(placeTrue, e, rng)
      ensures Resolve("true", container, num).Ok?
      ensures Resolve("true", container, num).value.location == e.loc
    {
      ContainerQuery("true", num);
      FixedRowKeepsDesign(placeTrue, e, rng);
    }

    /**
     * A variant with no placement dictionary stops the query of a device
     * in a container with ValueError naming the device itself: the
     * containers on the walk are never consulted, since they have the
     * same attributes.  With a variant that has a dictionary, the walk
     * can fail only on a missing key (or a device outside the specified
     * container).
     */
    lemma MissingVariant(variant: string, target: Device?, num: Numerics)
      requires Linked() && container != null
      ensures var spec := Specified(target);
        variant !in PlaceVariants && variant != "devices" && spec in chain ==>
        Resolve(variant, target, num) == Err(NoPlacementInfo(ClassName(deviceType) + " " + name, variant))
      ensures var r := Resolve(variant, target, num);
        variant in PlaceVariants && r.Err? ==> r.error.KeyMissing? || r.error.NotContained?
    {
      if variant !in PlaceVariants && variant != "devices" && Specified(target) in chain {
        UnknownVariant(variant, target, num);
      }
      if variant in PlaceVariants {
        KnownVariant(variant, target, num);
      }
    }

    lemma UnknownVariant(variant: string, target: Device?, num: Numerics)
      requires Linked() && container != null
      requires variant !in PlaceVariants && variant != "devices" && Specified(target) in chain
      ensures Resolve(variant, target, num) == Err(NoPlacementInfo(ClassName(deviceType) + " " + name, variant))
    {
      Acyclic();
      assert PlaceAttrOf(variant).NoAttribute?;
    }

    lemma KnownVariant(variant: string, target: Device?, num: Numerics)
      requires Linked() && container != null && variant in PlaceVariants
      ensures var r := Resolve(variant, target, num);
        r.Err? ==> r.error.KeyMissing? || r.error.NotContained?
    {
      var spec := Specified(target);
      assert PlaceAttrOf(variant).Record?;
      if spec in chain && spec != this {
        var cs := chain[..IndexIn(chain, spec)];
        var levels := Levels(cs, name, variant);
        forall j | 0 <= j < |levels| ensures levels[j].attr.Record? {
          assert levels[j].attr == cs[j].PlaceAttrOf(variant);
        }
      }
    }

    /**
     * When no container strictly between this device and the specified
     * one has 'rot_axes', the device's location is its own 'loc' plus the
     * containers' 'loc' values, and its directions are those of its own
     * placement, normalised.
     */
    lemma TranslationsAdd(variant: string, target: Device?, num: Numerics)
      requires Linked() && container != null && UnitLaws(num.unit)
      requires Specified(target) in chain
      requires OwnFrame(PlaceAttrOf(variant), ClassName(deviceType) + " " + name, variant, num).Ok?
      requires TranslationOnly(Levels(chain[..IndexIn(chain, Specified(target))], name, variant))
      ensures var own := OwnFrame(PlaceAttrOf(variant), ClassName(deviceType) + " " + name, variant, num).value;
        var levels := Levels(chain[..IndexIn(chain, Specified(target))], name, variant);
        Resolve(variant, target, num) ==
          if levels == [] then Ok(own)
          else Ok(Frame(Add(own.location, SumLocs(levels)), num.unit(own.directionX), num.unit(own.directionZ)))
    {
      Acyclic();
      var own := OwnFrame(PlaceAttrOf(variant), ClassName(deviceType) + " " + name, variant, num).value;
      TranslationSum(own, Levels(chain[..IndexIn(chain, Specified(target))], name, variant), variant, num);
    }
  }

  /** The placement variants a device has a dictionary for. */
  const PlaceVariants: set<string> := {"design", "true", "survey", "photo", "est", "est_sig"}

  /** The containers `cs` as steps of the walk, tagged with their class and the queried device's name. */
  function Levels(cs: seq<Device>, deviceName: string, variant: string): (r: seq<Level>)
    reads cs
    ensures |r| == |cs|
    ensures forall j :: 0 <= j < |cs| ==>
      r[j] == Level(cs[j].PlaceAttrOf(variant), ClassName(cs[j].deviceType) + " " + deviceName)
    decreases |cs|
  {
    if cs == [] then []
    else [Level(cs[0].PlaceAttrOf(variant), ClassName(cs[0].deviceType) + " " + deviceName)] +
         Levels(cs[1..], deviceName, variant)
  }

  lemma LevelsStep(cs: seq<Device>, m: nat, k: nat, deviceName: string, variant: string)
    requires m < k <= |cs|
    ensures Levels(cs[m..k], deviceName, variant) ==
      [Level(cs[m].PlaceAttrOf(variant), ClassName(cs[m].deviceType) + " " + deviceName)] +
      Levels(cs[m + 1..k], deviceName, variant)
  {
    assert cs[m..k][1..] == cs[m + 1..k];
  }

  /** The first position of `d` in `s`. */
  function IndexIn(s: seq<Device>, d: Device): (k: nat)
    requires d in s
    ensures k < |s| && s[k] == d && d !in s[..k]
    decreases |s|
  {
    if s[0] == d then 0 else assert d in s[1..]; 1 + IndexIn(s[1..], d)
  }

  /** The mPMT class's tables serve every kind. */
  lemma MPMTTablesOk(kind: string)
    ensures TablesOk(MPMTDesign.Tables(), kind)
  {
    if kind in MPMTDesign.Kinds {
      MPMTDesign.KindsShareTables(kind);
    }
  }

  /** Whatever design tables a class has serve every kind, given PMT and LED tables that do. */
  lemma ClassTablesOk(t: DeviceType, leaf: LeafTables, kind: string)
    requires LeafTablesOk(leaf)
    ensures DesignTablesOf(t, leaf).Some? ==> TablesOk(DesignTablesOf(t, leaf).value, kind)
  {
    if t == MPMT {
      MPMTTablesOk(kind);
    }
  }

  /** A device and the devices it owns. */
  ghost function Within(d: Device): set<Device>
    reads d`Repr
  {
    {d} + d.Repr
  }

  /** The devices of a list. */
  function Members(devices: seq<Device>): set<Device> {
    set d | d in devices
  }

  /** The devices of a list and the devices they own. */
  ghost function Footprint(devices: seq<Device>): set<Device>
    reads Members(devices)`Repr
  {
    set d, o | d in devices && o in Within(d) :: o
  }

  /** `d` owns the devices `held` and what they own. */
  ghost predicate Owns(d: Device, held: seq<Device>)
    reads d`Repr, d.Repr`Repr
  {
    forall k :: 0 <= k < |held| ==> held[k] in d.Repr && held[k].Repr <= d.Repr
  }

  /**
   * Device `d` was made in `container` as a `t` from table row `e`: its
   * class, kind and container come from the row, its design placement is
   * the row's, its true placement is drawn around it, its properties were
   * drawn from its class's tables, and it holds what its class's
   * constructor places in it.  Its name is left to `PlacedFrom`, because a
   * detector renames the mPMTs below its super modules.
   */
  ghost predicate MadeFrom(d: Device, e: LayoutEntry, container: Device, t: DeviceType,
                           num: Numerics, leaf: LeafTables, rng: RandomState)
    reads d`Repr, Within(d)`Repr, Within(d)`placeDesign, Within(d)`placeTrue, Within(d)`propDesign,
          Within(d)`propTrue, Within(d)`pmts, Within(d)`leds, Within(d)`mpmts, Within(d)`sms
    decreases Rank(t), 1
  {
    EntryOk(e) && d.deviceType == t && d.kind == e.kind && d.container == container &&
    d.placeDesign == DesignPlacement(e) && TruePlacement(d.placeTrue, e, rng) &&
    PropertiesDrawn(DesignTablesOf(t, leaf), e.kind, d.propDesign, d.propTrue, rng) &&
    Holds(d, t, num, leaf, rng)
  }

  /**
   * What the constructor of class `t` places in `d`: an mPMT its PMTs and
   * LEDs, a super module its mPMTs, a detector its super modules, each
   * from the layout of `d`'s kind and owned by `d`.
   */
  ghost predicate Holds(d: Device, t: DeviceType, num: Numerics, leaf: LeafTables, rng: RandomState)
    reads d`Repr, Within(d)`Repr, Within(d)`placeDesign, Within(d)`placeTrue, Within(d)`propDesign,
          Within(d)`propTrue, Within(d)`pmts, Within(d)`leds, Within(d)`mpmts, Within(d)`sms
    decreases Rank(t), 0
  {
    match t
    case MPMT =>
      d.pmts.Some? && d.leds.Some? && Owns(d, d.pmts.value) && Owns(d, d.leds.value) &&
      Made(d.pmts.value, MPMTDesign.PmtsDesign(d.kind, num), d, PMT, num, leaf, rng) &&
      Made(d.leds.value, MPMTDesign.LedsDesign(d.kind, num), d, LED, num, leaf, rng)
    case SM =>
      d.sms.None? && d.mpmts.Some? && Owns(d, d.mpmts.value) &&
      Made(d.mpmts.value, SMDesign.DevicesDesign(d.kind, num), d, MPMT, num, leaf, rng)
    case WCD =>
      d.sms.Some? && Owns(d, d.sms.value) &&
      Made(d.sms.value, WCDDesign.SmsDesign(d.kind), d, SM, num, leaf, rng)
    case PMT => true
    case LED => true
  }

  /** `devices` were made in `container` from `table`, one per row in row order, or none without a table. */
  ghost predicate Made(devices: seq<Device>, table: Option<seq<LayoutEntry>>, container: Device, t: DeviceType,
                       num: Numerics, leaf: LeafTables, rng: RandomState)
    reads Members(devices)`Repr, Footprint(devices)`Repr, Footprint(devices)`placeDesign,
          Footprint(devices)`placeTrue, Footprint(devices)`propDesign, Footprint(devices)`propTrue,
          Footprint(devices)`pmts, Footprint(devices)`leds, Footprint(devices)`mpmts, Footprint(devices)`sms
    decreases Rank(t), 2
  {
    (table.None? ==> devices == []) &&
    (table.Some? ==>
       |devices| == |table.value| &&
       forall k {:trigger MadeFrom(devices[k], table.value[k], container, t, num, leaf, rng)} ::
         0 <= k < |devices| ==> MadeFrom(devices[k], table.value[k], container, t, num, leaf, rng))
  }

  /** Device `d` was placed from table row `e`: made from it, and named after it ('' without a name). */
  ghost predicate PlacedFrom(d: Device, e: LayoutEntry, container: Device, t: DeviceType,
                             num: Numerics, leaf: LeafTables, rng: RandomState)
    reads d`name, d`Repr, Within(d)`Repr, Within(d)`placeDesign, Within(d)`placeTrue, Within(d)`propDesign,
          Within(d)`propTrue, Within(d)`pmts, Within(d)`leds, Within(d)`mpmts, Within(d)`sms
  {
    d.name == NameOf(e) && MadeFrom(d, e, container, t, num, leaf, rng)
  }

  /** `devices` were placed in `container` from `table`: made from its rows, and named after them. */
  ghost predicate Placed(devices: seq<Device>, table: Option<seq<LayoutEntry>>, container: Device, t: DeviceType,
                         num: Numerics, leaf: LeafTables, rng: RandomState)
    reads Members(devices)`name, Members(devices)`Repr, Footprint(devices)`Repr, Footprint(devices)`placeDesign,
          Footprint(devices)`placeTrue, Footprint(devices)`propDesign, Footprint(devices)`propTrue,
          Footprint(devices)`pmts, Footprint(devices)`leds, Footprint(devices)`mpmts, Footprint(devices)`sms
  {
    Made(devices, table, container, t, num, leaf, rng) &&
    (table.Some? ==> forall k :: 0 <= k < |devices| ==> devices[k].name == NameOf(table.value[k]))
  }

  lemma PlacedSnoc(devices: seq<Device>, rows: seq<LayoutEntry>, i: nat, d: Device, container: Device,
                   t: DeviceType, num: Numerics, leaf: LeafTables, rng: RandomState)
    requires i < |rows|
    requires Placed(devices, Some(rows[..i]), container, t, num, leaf, rng)
    requires PlacedFrom(d, rows[i], container, t, num, leaf, rng)
    ensures Placed(devices + [d], Some(rows[..i + 1]), container, t, num, leaf, rng)
  {
    var s := devices + [d];
    forall k | 0 <= k < |s|
      ensures MadeFrom(s[k], rows[..i + 1][k], container, t, num, leaf, rng) && s[k].name == NameOf(rows[..i + 1][k])
    {
      if k < i {
        assert s[k] == devices[k] && rows[..i + 1][k] == rows[..i][k];
      }
    }
  }

  /** Devices placed as `t`s in `container`. */
  lemma PlacedClass(devices: seq<Device>, table: Option<seq<LayoutEntry>>, container: Device,
                    t: DeviceType, num: Numerics, leaf: LeafTables, rng: RandomState)
    requires Placed(devices, table, container, t, num, leaf, rng)
    ensures forall k :: 0 <= k < |devices| ==> devices[k].deviceType == t && devices[k].container == container
  {
    forall k | 0 <= k < |devices| ensures devices[k].deviceType == t && devices[k].container == container {
      assert MadeFrom(devices[k], table.value[k], container, t, num, leaf, rng);
    }
  }

  /**
   * Devices each linked to its containers and owning a part of the tree
   * disjoint from the others', all of them within `owned`.
   */
  ghost predicate Separate(devices: seq<Device>, owned: set<Device>)
    reads devices
  {
    (forall k :: 0 <= k < |devices| ==>
       devices[k].Linked() && devices[k] in devices[k].Repr && devices[k].Repr <= owned) &&
    (forall i, j :: 0 <= i < j < |devices| ==> devices[i].Repr !! devices[j].Repr)
  }

  /** The parts of the tree owned by `devices`. */
  ghost function ReprOf(devices: seq<Device>): (r: set<Device>)
    reads devices
    ensures forall k :: 0 <= k < |devices| ==> devices[k].Repr <= r
  {
    set k, o | 0 <= k < |devices| && o in devices[k].Repr :: o
  }

  ghost predicate AllTreeValid(devices: seq<Device>)
    reads devices, ReprOf(devices)
  {
    forall k :: 0 <= k < |devices| ==> devices[k].TreeValid()
  }

  lemma SeparateSnoc(devices: seq<Device>, owned: set<Device>, d: Device)
    requires Separate(devices, owned) && d.Linked() && d in d.Repr && d.Repr !! owned
    ensures Separate(devices + [d], owned + d.Repr)
  {
    var s := devices + [d];
    forall i, j | 0 <= i < j < |s| ensures s[i].Repr !! s[j].Repr {
      if j == |devices| {
        assert s[i] == devices[i];
      }
    }
  }

  lemma TreeValidSnoc(devices: seq<Device>, d: Device)
    requires AllTreeValid(devices) && d.TreeValid()
    ensures AllTreeValid(devices + [d])
  {
    var s := devices + [d];
    forall k | 0 <= k < |s| ensures s[k].TreeValid() {
      if k < |devices| {
        assert s[k] == devices[k];
      }
    }
  }

  /** Devices within `owned` own only devices within it. */
  lemma FootprintOwned(devices: seq<Device>, owned: set<Device>)
    requires Separate(devices, owned)
    ensures Footprint(devices) <= owned
  {
    forall d | d in devices ensures Within(d) <= owned {
      var k :| 0 <= k < |devices| && devices[k] == d;
    }
  }

  /** Devices owning disjoint parts of the tree are distinct. */
  lemma SeparateDistinct(devices: seq<Device>, owned: set<Device>)
    requires Separate(devices, owned)
    ensures Distinct(devices)
  {
    forall i, j | 0 <= i < j < |devices| ensures devices[i] != devices[j] {
      assert devices[i] in devices[i].Repr;
    }
  }

  /**
   * The constructor of a device of class `t` placed in `container`:
   * mPMTs, super modules and detectors create what they hold; PMTs and
   * LEDs are plain devices with the properties of their class's tables.
   */
  method NewDevice(t: DeviceType, name: string, container: Device, kind: string,
                   placeDesign: Placement, placeTrue: Placement, num: Numerics, leaf: LeafTables, rng: RandomState)
    returns (d: Device)
    requires container.Linked() && LeafTablesOk(leaf)
    modifies rng
    decreases Rank(t), 3
    ensures d.deviceType == t && d.name == name && d.container == container && d.kind == kind
    ensures d.placeDesign == placeDesign && d.placeTrue == placeTrue
    ensures PropertiesDrawn(DesignTablesOf(t, leaf), kind, d.propDesign, d.propTrue, rng)
    ensures d.Linked() && d in d.Repr && fresh(d.Repr)
    ensures Holds(d, t, num, leaf, rng)
    ensures t == MPMT ==>
      Placed(d.pmts.value, MPMTDesign.PmtsDesign(kind, num), d, PMT, num, leaf, rng) &&
      Placed(d.leds.value, MPMTDesign.LedsDesign(kind, num), d, LED, num, leaf, rng)
    ensures t == SM ==> d.TreeValid() && Placed(d.mpmts.value, SMDesign.DevicesDesign(kind, num), d, MPMT, num, leaf, rng)
  {
    match t
    case MPMT =>
      d := NewMPMT(name, container, kind, placeDesign, placeTrue, num, leaf, rng);
    case SM =>
      d := NewSM(MPMT, name, container, kind, placeDesign, placeTrue, num, leaf, rng);
    case WCD =>
      d := NewWCD(SM, name, container, kind, placeDesign, placeTrue, num, leaf, rng);
    case _ =>
      ClassTablesOk(t, leaf, kind);
      d := new Device(t, name, container, kind, DesignTablesOf(t, leaf), placeDesign, placeTrue, rng);
  }

  /** `MPMT.__init__`: an mPMT with its PMTs and LEDs placed from the tables of its kind. */
  method NewMPMT(name: string, container: Device?, kind: string,
                 placeDesign: Placement, placeTrue: Placement, num: Numerics, leaf: LeafTables, rng: RandomState)
    returns (d: Device)
    requires container != null ==> container.Linked()
    requires LeafTablesOk(leaf)
    modifies rng
    decreases 1, 1
    ensures d.deviceType == MPMT && d.name == name && d.container == container && d.kind == kind
    ensures d.placeDesign == placeDesign && d.placeTrue == placeTrue
    ensures PropertiesDrawn(DesignTablesOf(MPMT, leaf), kind, d.propDesign, d.propTrue, rng)
    ensures d.Linked() && d in d.Repr && fresh(d.Repr)
    ensures d.pmts.Some? && Placed(d.pmts.value, MPMTDesign.PmtsDesign(kind, num), d, PMT, num, leaf, rng)
    ensures d.leds.Some? && Placed(d.leds.value, MPMTDesign.LedsDesign(kind, num), d, LED, num, leaf, rng)
    ensures Holds(d, MPMT, num, leaf, rng)
    ensures d.mpmts.None? && d.sms.None?
  {
    ClassTablesOk(MPMT, leaf, kind);
    d := new Device(MPMT, name, container, kind, DesignTablesOf(MPMT, leaf), placeDesign, placeTrue, rng);
    d.PlaceLeaves(num, leaf, rng);
  }

  /**
   * `SM.__init__`: a super module holding the mPMTs (`childType` MPMT) or
   * the super modules (`childType` SM) placed from the layout of its
   * kind; for any other class it holds neither.  A super module has no
   * design tables, so no properties.
   */
  method NewSM(childType: DeviceType, name: string, container: Device?, kind: string,
               placeDesign: Placement, placeTrue: Placement, num: Numerics, leaf: LeafTables, rng: RandomState)
    returns (d: Device)
    requires container != null ==> container.Linked()
    requires LeafTablesOk(leaf)
    modifies rng
    decreases Rank(childType) + 1, 2
    ensures d.deviceType == SM && d.name == name && d.container == container && d.kind == kind
    ensures d.placeDesign == placeDesign && d.placeTrue == placeTrue
    ensures d.propDesign == map[] && d.propTrue == map[]
    ensures d.Linked() && d in d.Repr && fresh(d.Repr)
    ensures childType == MPMT ==>
      d.sms.None? && d.mpmts.Some? && d.TreeValid() && Holds(d, SM, num, leaf, rng) &&
      Placed(d.mpmts.value, SMDesign.DevicesDesign(kind, num), d, MPMT, num, leaf, rng)
    ensures childType == SM ==>
      d.mpmts.None? && d.sms.Some? && d.TreeValid() &&
      Placed(d.sms.value, SMDesign.DevicesDesign(kind, num), d, SM, num, leaf, rng)
    ensures childType != MPMT && childType != SM ==> d.mpmts.None? && d.sms.None?
  {
    d := new Device(SM, name, container, kind, None, placeDesign, placeTrue, rng);
    SMDesign.LayoutsOk(kind, num);
    if childType == MPMT {
      d.PlaceMPMTs(SMDesign.DevicesDesign(kind, num), num, leaf, rng);
    } else if childType == SM {
      d.PlaceSMs(SMDesign.DevicesDesign(kind, num), num, leaf, rng);
    }
  }

  /**
   * `WCD.__init__`: a detector holding the mPMTs placed from its kind's
   * mPMT layout (`childType` MPMT), or the super modules placed from its
   * kind's super-module layout (`childType` SM) together with all the
   * mPMTs below them, collected in order and renamed '0', '1', ... by
   * position.  A detector has no design tables, so no properties.
   */
  method NewWCD(childType: DeviceType, name: string, container: Device?, kind: string,
                placeDesign: Placement, placeTrue: Placement, num: Numerics, leaf: LeafTables, rng: RandomState)
    returns (d: Device)
    requires container != null ==> container.Linked()
    requires LeafTablesOk(leaf)
    modifies rng
    decreases Rank(childType) + 1, 2
    ensures d.deviceType == WCD && d.name == name && d.container == container && d.kind == kind
    ensures d.placeDesign == placeDesign && d.placeTrue == placeTrue
    ensures d.propDesign == map[] && d.propTrue == map[]
    ensures d.Linked() && d in d.Repr && fresh(d.Repr)
    ensures childType == MPMT ==>
      d.sms.None? && d.mpmts.Some? && Placed(d.mpmts.value, WCDDesign.MpmtsDesign(kind), d, MPMT, num, leaf, rng)
    ensures childType == SM ==>
      d.SmsValid() && Holds(d, WCD, num, leaf, rng) &&
      Placed(d.sms.value, WCDDesign.SmsDesign(kind), d, SM, num, leaf, rng) &&
      d.mpmts == Some(d.CollectedFrom(0)) &&
      (forall i :: 0 <= i < |d.mpmts.value| ==> d.mpmts.value[i].name == Str(i)) &&
      (forall i, j :: 0 <= i < j < |d.mpmts.value| ==> d.mpmts.value[i].name != d.mpmts.value[j].name)
    ensures childType != MPMT && childType != SM ==> d.mpmts.None? && d.sms.None?
  {
    d := new Device(WCD, name, container, kind, None, placeDesign, placeTrue, rng);
    if childType == MPMT {
      WCDDesign.LayoutsOk(kind);
      d.PlaceMPMTs(WCDDesign.MpmtsDesign(kind), num, leaf, rng);
    } else if childType == SM {
      WCDDesign.LayoutsOk(kind);
      d.PlaceSMsAndCollect(WCDDesign.SmsDesign(kind), num, leaf, rng);
    }
  }

  /** The renaming loop of `WCD.__init__`: the i-th collected mPMT is named str(i). */
  method RenameByPosition(list: seq<Device>)
    requires Distinct(list)
    modifies set m | m in list`name
    ensures forall i :: 0 <= i < |list| ==> list[i].name == Str(i)
  {
    for i := 0 to |list|
      invariant forall j :: 0 <= j < i ==> list[j].name == Str(j)
    {
      list[i].name := Str(i);
    }
  }

  ghost predicate Distinct(s: seq<Device>) {
    forall i, j :: 0 <= i < j < |s| ==> s[i] != s[j]
  }
}
