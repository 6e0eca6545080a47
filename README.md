# WCTE geometry: a verified model of the device tree

This project models the core of the WCTE `Geometry` package in Dafny. That
package describes a water Cherenkov detector as a tree of devices: the
detector (WCD) holds super modules (SM) or multi-PMT modules (mPMT), a super
module holds mPMTs or further super modules, and an mPMT holds PMTs and LEDs.

- **Creation.** A device draws its true properties from its class's design
  tables when it is created. It then creates the devices it holds, one per
  row of its class's layout table, in row order. Each child gets the row's
  design placement and a true placement drawn around it.
- **Assembly.** A detector built from super modules collects the mPMTs of its
  super modules in order and renames them by position.
- **Frames.** `get_placement` expresses a device's location and axes in the
  coordinates of one of its containers. It walks the container links.

The model has seven modules:

| module | file | contents |
|---|---|---|
| `Base` | `base.dfy` | vectors, `str` of an index, layout rows, placement dictionaries, the numeric primitives as an oracle |
| `Sampling` | `sampling.dfy` | distributions, the parameter arithmetic of the draws, the random generator as a stream of variates, design tables |
| `Frames` | `frames.dfy` | one step of the frame walk and the walk through a list of containers |
| `MPMTDesign` | `mpmt_design.dfy` | the mPMT class data: property tables, PMT and LED layouts, baseplate outlines, `get_xy_points` |
| `SMDesign` | `sm_design.dfy` | the super-module layouts 'SSM', 'bottom', 'top' and 'wall' |
| `WCDDesign` | `wcd_design.dfy` | the detector class data: property tables, the mPMT layouts 'W1'/'W2'/'W3', the WCTE super-module layout |
| `Devices` | `device.dfy` | the `Device` class, its constructor and methods, and the subclass constructors `NewMPMT`, `NewSM`, `NewWCD` |

How the model is built:

- **Loop-built tables.** Each table the source builds with a counted loop is
  built by a `Build…` method with the same loop. Each method is proved to
  return a closed-form function. The `…Shape` lemmas state the table's size,
  names, kinds and positions.
- **One class for all devices.** The five Python classes share one class
  `Device`, and `deviceType` says which class an object is.
- **Container chain.** Each device has a ghost `chain`, the list of its
  containers innermost first. `Linked()` ties it to the `container` links, so
  every walk over the links terminates.
- **Frame walk.** `GetPlacement` keeps the source's three loops:
  - the walk to the top-level container;
  - the containment check;
  - the composition loop.

  It is proved equal to `Resolve`, which states the result directly: the
  device's own placement, then one step per container strictly between the
  device and the specified container, innermost first.
- **Placement tree.** `MadeFrom` states what creating one device from one
  layout row gives. `Holds` states what it holds in turn, by class, and
  `Made` does the same for a whole table. The three recurse down to the PMTs
  and LEDs. Their reads clauses name single fields, so renaming the mPMTs
  leaves the placement of the super modules above them as it was.
- **Numerics.** Rotations, normalisation and trigonometry are the fields of an
  oracle value `Numerics`. Lemmas that need more take only stated laws as preconditions:
  - `UnitLaws`: normalising ignores positive scaling and is idempotent;
  - `Linear`: a rotation is a linear map;
  - `TrigLaws`: cos² + sin² = 1;
  - `TurnsAboutZ`: a turn about z keeps height and radius.
- **Randomness.** scipy's draws come from `RandomState`, a stream of variates
  fixed for the run. The stream obeys no law by itself. The one law of scipy
  used here, that a normal draw with deviation 0 returns its location
  (`ExactWhenFixed`), is a precondition of the lemmas that rely on it.
  Floating-point numbers are exact reals.

Some behaviours of the code as written that the model reproduces and proves:

- **Own frame.** A device that has a container and asks for its own frame
  gets `ValueError`. The containment walk starts at the container, so the
  identity branch for `self == specified_container` is reached only by
  devices without a container (`Device.SelfQuery`).
- **Missing variant.** A placement variant the device has no dictionary for
  fails on the device itself. The ValueError for a container on the walk
  (Geometry/Device.py:201-204) can never be raised, because every container
  has the same `place_*` attributes as the device (`Device.MissingVariant`).
- **Barrel.** The WCTE layout asks for a super module of kind 'barrel'. The
  super-module class has no table for that kind (it has 'wall'), so the
  barrel super module holds no mPMTs (`WCDDesign.WcteShape`).
- **Survey feature.** `get_xy_points` with 'survey_c0' selects the last
  survey hole, by Python's negative indexing. With 'survey_c5' to
  'survey_c9' it raises IndexError (`MPMTDesign.SelectOutlineCases`).

## Model

| member | source | states |
|---|---|---|
| Base.StrInjective | Geometry/WCD.py:204-205 | distinct positions are rendered by `str` as distinct names |
| Sampling.UniformInterval | Geometry/Device.py:86-87 | the uniform draw covers exactly [mean - scale, mean + scale] |
| Sampling.GammaMoments | Geometry/Device.py:88-89 | the gamma draw has loc 0, shape times scale equal to the mean, and shape times scale squared equal to the squared design scale |
| Sampling.NormalFallback | Geometry/Device.py:85-91 | any distribution name other than 'uniform' and 'gamma' gives the normal draw around the mean with the design scale |
| Sampling.SamplingInDomain | Geometry/Device.py:84-91 | with a positive scale, and a positive mean for gamma, the distribution's parameters are in scipy's domain |
| Sampling.RandomState.Rvs | Geometry/Device.py:87 | each draw is the next variate of the stream for that distribution |
| Frames.OwnFrame | Geometry/Device.py:180-193 | a missing variant gives ValueError naming the device; the frame exists exactly when the dictionary has 'loc', 'rot_axes' and 'rot_angles'; its location is 'loc' |
| Frames.Lift | Geometry/Device.py:199-220 | a container without the variant gives ValueError; the step succeeds exactly when the container has a dictionary that has 'rot_angles' whenever it has 'rot_axes' |
| Frames.Compose | Geometry/Device.py:195-222 | no containers leave the frame unchanged; the walk never reports containment errors; a bound method on the walk makes it fail; through dictionaries only, its only error is a missing key |
| Frames.MissingVariantStopsWalk | Geometry/Device.py:201-204 | the first container without the variant stops the walk with ValueError naming that container's class and the device |
| Frames.ComposeSucceeds | Geometry/Device.py:197-222 | the walk succeeds if and only if every container on it can be applied |
| Frames.TranslationStep | Geometry/Device.py:205-220 | a container without 'rot_axes' adds its 'loc' (zero when absent) to the location and keeps both directions |
| Frames.TranslationSum | Geometry/Device.py:195-222 | through containers without rotation the location is the start plus the sum of their 'loc' values, and the directions are the start's, normalised |
| Frames.RotationStep | Geometry/Device.py:208-220 | a container with a linear rotation R maps location l to R(l) + loc and each direction d to the direction of R(d) |
| MPMTDesign.Tables | Geometry/MPMT.py:70-228 | the mPMT design tables have exactly the kinds 'MR', 'ME', 'MI' |
| MPMTDesign.KindsShareTables | Geometry/MPMT.py:70-228 | every mPMT kind uses the default means with 'adc_cf' 2.2, the default scales and distributions, and the tables admit the property draw |
| MPMTDesign.ClockOffsetUniform | Geometry/MPMT.py:32-73 | the clock offset of every kind is uniform on [-100, 100] ns; 'adc_cf' is normal around 2.2 with scale 0.1 |
| MPMTDesign.GridFilterAlwaysTrue | Geometry/MPMT.py:47 | the filter `i * j != 10` holds on the whole 3 x 3 grid |
| MPMTDesign.BuildDefPmts | Geometry/MPMT.py:42-53 | the loop builds `def_pmts` as its closed form |
| MPMTDesign.DefPmtsShape | Geometry/MPMT.py:42-53 | 9 'P3' PMTs named '0'..'8', the PMT at grid point (i, j) at (100 i, 100 j, 200), pairwise distinct locations and names |
| MPMTDesign.BuildDomePmts | Geometry/MPMT.py:138-161 | the loop builds `dome_pmts` as its closed form |
| MPMTDesign.DomePmtsShape | Geometry/MPMT.py:138-161 | 1 + 6 + 12 = 19 'P3' PMTs named '0'..'18' in creation order with axes 'xz'; PMT 0 at (0, 0, 246.8) with angles [0, 0]; each first angle is its row's angle |
| MPMTDesign.BuildDomeLeds | Geometry/MPMT.py:179-209 | the loop builds `dome_leds` as its closed form |
| MPMTDesign.DomeLedsShape | Geometry/MPMT.py:179-209 | 3 + 3 + 6 = 12 LEDs named '0'..'11' with axes 'yz'; kind 'LC' exactly for the first row, 'LD' for the others |
| MPMTDesign.PmtsDesign | Geometry/MPMT.py:79-231 | `pmts_design` has a table exactly for 'MR' (`def_pmts`), 'ME' and 'MI' (`dome_pmts`) |
| MPMTDesign.LedsDesign | Geometry/MPMT.py:80-231 | `leds_design` has a table exactly for 'MR' (`def_leds`), 'ME' and 'MI' (`dome_leds`) |
| MPMTDesign.LayoutsOk | Geometry/MPMT.py:42-209 | every row of the PMT and LED tables has the shape `place_devices` relies on |
| MPMTDesign.BuildBaseOutline | Geometry/MPMT.py:101-105 | the loop builds `base_xy_points` as its closed form |
| MPMTDesign.BaseOutlineShape | Geometry/MPMT.py:96-105 | 8 distinct points with z = 0; each has one coordinate of magnitude 264 and the other of magnitude 157.44 |
| MPMTDesign.CircleRadius | Geometry/MPMT.py:110-115 | every point of a circle outline lies at the given radius from its centre, in the plane z = 0 |
| MPMTDesign.BuildFeedthroughOutline | Geometry/MPMT.py:106-115 | the loop builds the 20-point feedthrough outline |
| MPMTDesign.BuildSurveyHoles | Geometry/MPMT.py:126-136 | the nested loops build the four survey-hole outlines |
| MPMTDesign.SurveyHolesShape | Geometry/MPMT.py:116-136 | 4 survey holes of 20 points each; hole k has radius 4 mm around fiducial k at (+-196.58, +-196.58), with z = 0 |
| MPMTDesign.SelectOutlineCases | Geometry/MPMT.py:239-244 | 'survey_cN' selects hole N-1 for N in 1..4 and the last hole for N = 0; N in 5..9 and a missing character give IndexError; a non-digit gives ValueError; any other feature except 'feedthrough' selects the baseplate |
| MPMTDesign.GetXYPoints | Geometry/MPMT.py:233-246 | the points exist exactly when the selection succeeds, and there are 8 (baseplate) or 20 (feedthrough or a survey hole) of them |
| SMDesign.BuildSsm | Geometry/SM.py:16-27 | the loop builds `ssm_mpmts` as its closed form |
| SMDesign.SsmShape | Geometry/SM.py:16-27 | 6 'MR' mPMTs named '0'..'5' with axes 'XZ', the one at (i, j) at (600 i, 600 (j + 0.5), -100) |
| SMDesign.EndcapOffsets | Geometry/SM.py:48-58 | the centre and the two rings give 21 offsets |
| SMDesign.BuildOffsets | Geometry/SM.py:48-58 | the loops build the offsets from the index tables as their closed form |
| SMDesign.Endcap | Geometry/SM.py:63-72 | `zip` yields as many rows as the shorter list |
| SMDesign.BuildEndcap | Geometry/SM.py:63-72 | the zip loop builds the endcap rows as their closed form |
| SMDesign.BuildBottom | Geometry/SM.py:45-74 | the class body builds the 'bottom' table |
| SMDesign.BuildTop | Geometry/SM.py:82-112 | the class body builds the 'top' table |
| SMDesign.GridIndexOfPosition | Geometry/SM.py:48-95 | each endcap mPMT sits on the 5 x 5 grid, and the inverse index table gives back its index |
| SMDesign.PositionOfGridIndex | Geometry/SM.py:48-95 | every grid point except the outer corners is the position of the mPMT the index table names |
| SMDesign.EndcapGrid | Geometry/SM.py:48-95 | mPMT 0 is at the centre, 1..8 fill the first ring, 9..20 the outer ring without its corners; all are distinct, every such point is covered, and top y indices mirror bottom ones |
| SMDesign.EndcapShape | Geometry/SM.py:45-112 | 21 unnamed 'ME' rows with the single axis 'z', angle (y_rot + 0.5) pi at the bottom and (y_rot - 0.5) pi at the top, z offset 0, row 0 at the origin, distinct locations |
| SMDesign.TopMirrorsBottom | Geometry/SM.py:48-95 | the top endcap's offsets are the bottom's mirrored in y |
| SMDesign.BuildWall | Geometry/SM.py:119-137 | the nested loops build `wall_mpmts` as its closed form |
| SMDesign.WallShape | Geometry/SM.py:119-137 | 64 unnamed 'ME' rows with axes 'ZYX' and angles [pi, pi/2, -phi]; with a turn about z that keeps height and radius, row r (from -1 to 2) is at height 580 r on the cylinder of diameter 3422.166 |
| SMDesign.DevicesDesign | Geometry/SM.py:14-137 | `devices_design` has a table exactly for 'SSM', 'bottom', 'top' and 'wall' |
| SMDesign.LayoutsOk | Geometry/SM.py:16-137 | every row of the super-module tables has the shape `place_devices` relies on |
| WCDDesign.PropTables | Geometry/WCD.py:101-150 | the detector property tables have exactly the kinds 'W1', 'W2', 'W3', 'WCTE' |
| WCDDesign.W2DiffersFromW1Only | Geometry/WCD.py:124-136 | 'W2' has W1's keys and values except refraction index 1.0 (not 1.4) and absorption length 80e6 (not 80e3) |
| WCDDesign.PropTablesOk | Geometry/WCD.py:40-48 | every kind has the default scales and no distribution entries, and the tables admit the property draw |
| WCDDesign.BuildDefMpmts | Geometry/WCD.py:59-71 | the loops build `def_mpmts` as its closed form |
| WCDDesign.BuildDef3Mpmts | Geometry/WCD.py:73-98 | the copy keeps `def_mpmts` as the first entries and appends the four extra mPMTs |
| WCDDesign.DefMpmtsShape | Geometry/WCD.py:59-71 | 4 'M1' mPMTs in two facing pairs at x = -4000 and 4000, z = -1000 and 1000, with opposite turns about y |
| WCDDesign.MpmtsDesign | Geometry/WCD.py:105-135 | `mpmts_design` has a table exactly for 'W1', 'W2', 'W3' |
| WCDDesign.MpmtLayouts | Geometry/WCD.py:109-135 | 'W1' and 'W2' share the 4-entry `def_mpmts`; 'W3' has 8 entries and its first 4 are W1's |
| WCDDesign.SmsDesign | Geometry/WCD.py:139-187 | `sms_design` has a table exactly for 'WCTE' |
| WCDDesign.WcteShape | Geometry/WCD.py:158-187 | bottom, barrel, top in this order, named after their kinds, at y = -1105.475, 0, 1955 with axes 'ZYX' and common angles; the SM class has tables for bottom and top but not for barrel |
| WCDDesign.LayoutsOk | Geometry/WCD.py:59-187 | every row of the detector tables has the shape `place_devices` relies on |
| Devices.DesignTablesOf | Geometry/Device.py:78 | the mPMT class uses its own tables, PMT and LED their classes' tables when those declare `design_mean`, SM and WCD none |
| Devices.ClassTablesOk | Geometry/Device.py:78-91 | the tables of every device class admit the property draw for any kind |
| Devices.MPMTTablesOk | Geometry/MPMT.py:32-228 | the mPMT tables admit the property draw for any kind: every mean has a scale and no varying property is gamma-distributed with a non-positive mean |
| Devices.DrawTruePlacement | Geometry/Device.py:121-133 | the true 'loc' has three coordinates drawn around the design 'loc'; the axes are kept; one angle is drawn per design angle for several axes or a list of angles, a single angle for one axis with one angle |
| Devices.DrawAngles | Geometry/Device.py:125-130 | one normal draw per design angle, around that angle with its sigma, in order |
| Sampling.FixedDraw | Geometry/Device.py:123-130 | when a normal draw with deviation 0 returns its location, such a draw is exactly that location |
| Devices.FixedRowKeepsDesign | Geometry/Device.py:118-133 | for a row with every deviation 0, a placement is a true placement drawn from it exactly when it equals the design placement |
| Devices.Device.FixedRowResolves | Geometry/Device.py:121-193 | a device placed from a row with every deviation 0 has its true frame, in its container's coordinates, at the row's 'loc' |
| Devices.Device.Acyclic | Geometry/Device.py:154-162 | no device is among its own containers |
| Devices.Device.constructor | Geometry/Device.py:52-74 | class, name, container and kind are set; the design and true placements are the given ones; the other placement and estimate dictionaries are empty; the properties are drawn as `randomly_set_properties` does |
| Devices.Device.RandomlySetProperties | Geometry/Device.py:76-95 | with tables for the kind, the design properties are the means and the true ones have the same keys, each the mean when its scale is not positive and a draw otherwise; without tables both stay as they were |
| Devices.Device.GetProperties | Geometry/Device.py:97-101 | 'design', 'true', 'est', 'est_sig' give the instance dictionaries; a WCD also answers 'mean', 'scale', 'var', the first two with its class tables keyed by kind; anything else gives None |
| Devices.Device.SetProperty | Geometry/Device.py:103-105 | the true properties gain or change exactly that key, and nothing else changes |
| Devices.Device.SetPlacement | Geometry/Device.py:107-110 | the design and true placements become the given ones |
| Devices.Device.PlaceDevices | Geometry/Device.py:112-137 | no devices without a table for the kind; otherwise one new device per row, in row order, each contained in this device, of the row's kind, named after the row or '', with the row's design placement and a true placement drawn around it, each owning its own subtree |
| Devices.Device.PlaceOne | Geometry/Device.py:116-136 | one child created from one row as `place_devices` does |
| Devices.Device.PlaceLeaves | Geometry/MPMT.py:255-259 | `pmts` and `leds` are placed from `pmts_design` and `leds_design` for the mPMT's kind and owned by the mPMT |
| Devices.Device.AdoptLeaves | Geometry/MPMT.py:256-259 | `pmts` and `leds` become the placed lists, whose placement stays as it was |
| Devices.Device.PlaceMPMTs | Geometry/SM.py:143-145 | `mpmts` is placed from the table and forms a valid tree |
| Devices.Device.AdoptMPMTs | Geometry/SM.py:144 | `mpmts` becomes the placed list, whose placement stays as it was |
| Devices.Device.PlaceSMs | Geometry/SM.py:146-148 | `sms` is placed from the table, each super module a valid tree of its own |
| Devices.Device.AdoptSMs | Geometry/SM.py:147 | `sms` becomes the placed list, whose placement stays as it was |
| Devices.Device.GetMPMTs | Geometry/SM.py:150-156 | the list is extended by this super module's mPMTs in pre-order, earlier contents kept |
| Devices.Device.CollectedWithin | Geometry/SM.py:150-156 | the collected mPMTs are distinct mPMTs of the subtree |
| Devices.Device.CollectChildren | Geometry/WCD.py:200-202 | the loop over the super modules collects the concatenation of their mPMTs in order |
| Devices.Device.CollectedFromWithin | Geometry/WCD.py:200-202 | the collected mPMTs are distinct, and each belongs to one of the super modules |
| Devices.Device.CollectMPMTs | Geometry/WCD.py:199-205 | `mpmts` is the collection, the i-th mPMT is named str(i), all names differ, and the super modules are otherwise untouched |
| Devices.Device.CollectPlacedMPMTs | Geometry/WCD.py:199-205 | collecting and renaming the mPMTs leaves the placement of the super modules as it was |
| Devices.RenameByPosition | Geometry/WCD.py:204-205 | each mPMT of the list is renamed to its position |
| Devices.Device.PlaceSMsAndCollect | Geometry/WCD.py:197-205 | the super modules are placed from the table, everything below them placed from their classes' tables, then their mPMTs are collected in order and renamed by position |
| Devices.NewDevice | Geometry/Device.py:135 | `device_type(name, self, kind, place_design, place_true)` creates a device of that class with the given fields, contained in the builder, its properties drawn from its class's tables, and what it holds placed from its class's layouts down to the PMTs and LEDs |
| Devices.NewMPMT | Geometry/MPMT.py:252-259 | an mPMT with its properties drawn, holding and owning PMTs and LEDs placed from its kind's tables, each with its properties drawn from the PMT or LED tables |
| Devices.NewSM | Geometry/SM.py:139-148 | an SM with no properties; holding mPMTs (`sms` None) or super modules (`mpmts` None) placed from `devices_design[kind]`; held mPMTs hold their own PMTs and LEDs in turn |
| Devices.NewWCD | Geometry/WCD.py:189-205 | a WCD with no properties; with mPMTs placed from `mpmts_design`, or super modules from `sms_design`, each holding what its class's layouts place, whose mPMTs are collected in order and renamed '0', '1', ... |
| Devices.Device.PlaceAttrOf | Geometry/Device.py:180 | the six placement variants give dictionaries, 'devices' gives the bound method, anything else nothing |
| Devices.Device.TopContainer | Geometry/Device.py:146-151 | the walk up the container links ends at the top-level container |
| Devices.Device.Specified | Geometry/Device.py:146-151 | by default the specified container is the top-level one, which lies on the chain of any contained device |
| Devices.Device.Inside | Geometry/Device.py:154-162 | the containment walk finds the specified container exactly when it is among the containers above the device |
| Devices.Device.Resolve | Geometry/Device.py:139-224 | a device without a container is at the origin; ValueError for a contained device arises exactly when the specified container is not above it |
| Devices.Device.Carry | Geometry/Device.py:195-222 | the composition loop applies each container from the device's container up to, not including, the specified one, in order |
| Devices.Device.GetPlacement | Geometry/Device.py:139-224 | the method's result is `Resolve`'s |
| Devices.Device.SelfQuery | Geometry/Device.py:154-173 | asking for the own frame gives the origin without a container and ValueError with one |
| Devices.Device.ContainerQuery | Geometry/Device.py:175-193 | in the container's coordinates the frame is the device's own placement |
| Devices.Device.MissingVariant | Geometry/Device.py:180-204 | a missing variant fails with ValueError naming the device; with an existing variant only a missing key or containment can fail |
| Devices.Device.TranslationsAdd | Geometry/Device.py:195-222 | through containers without rotation the location is the own 'loc' plus their 'loc' values and the directions are the own ones, normalised |

## Left out

- Rotations, the division by the norm, `sqrt`, `cos`, `sin` and `arctan2` are oracles in `Numerics`. Euler conventions and unit length are not modelled; lemmas that need a law take it as a precondition.
- The random draws of scipy are a stream of variates fixed for the run. Which variate a draw receives is not modelled: a drawn value is only known to be some variate the stream holds for that distribution. Apart from `ExactWhenFixed`, no property of scipy's distributions constrains those variates (their range, for instance).
- Devices.Device.RandomlySetProperties: Python dictionaries iterate in insertion order, but the model's tables are maps, which have no order. So the contract says each true value is some variate of its distribution, not which one.
- Devices.DrawTruePlacement: states each drawn coordinate and angle is some variate of its normal distribution, not its position in the stream.
- `Device.get_circle_points` (Geometry/Device.py:226-242) is floating-point point generation and is not modelled.
- `get_transformed_points` is not part of this model. MPMTDesign.GetXYPoints returns the selected outline untransformed, and `get_fiducials` (only a call to it) is left out.
- `get_cameras` and the camera collection (Geometry/WCD.py:206-212) are not part of this model. The SM class (Geometry/SM.py) defines no `get_cameras`, so the source as written raises AttributeError at Geometry/WCD.py:209; the model stops after the renaming.
- The PMT, LED and CAMERA classes are not part of this model. Their design tables (such as `PMT.design_mean`) are an input `LeafTables` to the constructors; `LeafTablesOk` asks of them what `MPMTDesign.KindsShareTables` proves of the mPMT tables. Which kinds they have is therefore not modelled.
- `calibs_design`, `def_calibs` and `design_desc` are declared but never used by the modelled code, and are not modelled.
- Devices.Device.GetMPMTs: the source extends the caller's list in place. The model returns the extended list as a value.
- Dictionaries are values. `prop_design` aliasing the class table, and the `.copy()` in `set_placement`, are both modelled as copies.
- Devices.Device.constructor: `set_placement` is performed inline, and the design tables of the class are passed in by the caller (`DesignTablesOf`). `str(name)` is not modelled; names are strings.
- MPMTDesign.SelectOutlineCases: a character outside '0'..'9' after 'survey_c' is a ValueError; Python's `int` also accepts the decimal digits of other scripts, which the model does not.
- The default arguments of the constructors (kind 'SSM', 'ME', 'WCTE', the default `device_type`) are not modelled; every argument is explicit.
- Error messages are the device and container names of the `ValueError` texts, not the full strings.
- Sampling.TablesOk, Base.EntryOk, Sampling.RandomState.Rvs: the error paths of the draws are preconditions, not modelled error results. These are the KeyError for a key missing from `design_scale` or `design_var` (Geometry/Device.py:82,85), the ZeroDivisionError for a gamma mean of 0 (Geometry/Device.py:89), and scipy's domain errors for a negative sigma or gamma mean.
- Base.EntryOk: rows of the following shapes are preconditions, not modelled behaviour. A single-axis row whose angle and sigma are one a list and the other a number, or lists of different lengths, is broadcast by numpy or rejected in the source; the model admits only a number with a number, or lists of equal length. A row with several axes and a number as its angles raises TypeError at `len` (Geometry/Device.py:127). A row with several axes and fewer sigmas than angles raises IndexError (Geometry/Device.py:128). A negative sigma is scipy's domain error.
- Devices.Holds: below the first level, the names of the held devices are not stated, because the detector renames the mPMTs its super modules hold. The names of the first level are stated by `Placed`.
