/**
 * The parameter tables of the surround-view test (test_sv_params.h): per
 * camera model the fisheye ROI radii, the horizontal view range of each
 * camera and the feature-matching region; the bowl model derived from the
 * camera positions; and the selection of calibration entries for the mono
 * and the two stereo scopic modes.
 *
 * The library's float arithmetic is modelled over reals; sqrtf is a
 * parameter. CamModel is declared in stitcher.h, which is not part of this
 * model; its values are assumed to be numbered in the order listed here.
 */
module SurroundViewParams {
  import opened Wrappers
  import opened XCamUtils
  import opened StitcherBase
  import Arith

  datatype CamModel = CamA2C1080P | CamB4C1080P | CamC3C4K | CamC3C8K | CamC6C8K | CamD3C8K | CamD6C8K
  datatype StitchScopicMode = ScopicMono | ScopicStereoLeft | ScopicStereoRight

  // ---------------------------------------------------------------------------
  // Per-model tables

  /**
   * The leading entries get_fisheye_img_roi_radius writes: nothing for a
   * model it does not know, and nothing for the three-camera stereo rigs in
   * mono mode (it logs an error instead).
   */
  function RoiRadiusTable(model: CamModel, mode: StitchScopicMode): (r: seq<nat>)
    ensures |r| <= FisheyeMaxNum
  {
    match model
    case CamA2C1080P => [456, 456]
    case CamB4C1080P => []
    case CamC3C4K => if mode == ScopicMono then [] else [1787, 1787, 1787]
    case CamC3C8K => if mode == ScopicMono then [] else [1787, 1787, 1787]
    case CamC6C8K => [1787, 1787, 1787, 1787, 1787, 1787]
    case CamD3C8K =>
      if mode == ScopicStereoLeft then [1802, 1802, 1802]
      else if mode == ScopicStereoRight then [1801, 1801, 1801]
      else []
    case CamD6C8K => [1802, 1802, 1802, 1802, 1802, 1802]
  }

  /** get_fisheye_img_roi_radius: fills the caller's array in place and hands it back. */
  method GetFisheyeImgRoiRadius(model: CamModel, mode: StitchScopicMode, roiRadius: array<nat>) returns (r: array<nat>)
    requires roiRadius.Length >= |RoiRadiusTable(model, mode)|
    modifies roiRadius
    ensures r == roiRadius
    ensures roiRadius[..] == RoiRadiusTable(model, mode) + old(roiRadius[..])[|RoiRadiusTable(model, mode)|..]
  {
    var k := |RoiRadiusTable(model, mode)|;
    match model {
      case CamA2C1080P =>
        roiRadius[0] := 456;
        roiRadius[1] := 456;
      case CamB4C1080P =>
      case CamC3C4K =>
        if mode != ScopicMono {
          roiRadius[0] := 1787;
          roiRadius[1] := 1787;
          roiRadius[2] := 1787;
        }
      case CamC3C8K =>
        if mode != ScopicMono {
          roiRadius[0] := 1787;
          roiRadius[1] := 1787;
          roiRadius[2] := 1787;
        }
      case CamC6C8K =>
        roiRadius[0] := 1787;
        roiRadius[1] := 1787;
        roiRadius[2] := 1787;
        roiRadius[3] := 1787;
        roiRadius[4] := 1787;
        roiRadius[5] := 1787;
      case CamD3C8K =>
        if mode == ScopicStereoLeft {
          roiRadius[0] := 1802;
          roiRadius[1] := 1802;
          roiRadius[2] := 1802;
        } else if mode == ScopicStereoRight {
          roiRadius[0] := 1801;
          roiRadius[1] := 1801;
          roiRadius[2] := 1801;
        }
      case CamD6C8K =>
        roiRadius[0] := 1802;
        roiRadius[1] := 1802;
        roiRadius[2] := 1802;
        roiRadius[3] := 1802;
        roiRadius[4] := 1802;
        roiRadius[5] := 1802;
    }
    assert roiRadius[..k] == RoiRadiusTable(model, mode);
    assert roiRadius[..] == roiRadius[..k] + roiRadius[k..];
    return roiRadius;
  }

  /** The horizontal view range, in degrees, of each camera of a model, as viewpoints_range writes it. */
  function ViewpointsTable(model: CamModel): (r: seq<real>)
    ensures |r| <= FisheyeMaxNum
  {
    match model
    case CamA2C1080P => [202.8, 202.8]
    case CamB4C1080P => [110.0, 140.0, 110.0, 140.0]
    case CamC3C4K => [144.0, 144.0, 144.0]
    case CamC3C8K => [144.0, 144.0, 144.0]
    case CamC6C8K => [72.0, 72.0, 72.0, 72.0, 72.0, 72.0]
    case CamD3C8K => [132.0, 132.0, 132.0]
    case CamD6C8K => [72.0, 72.0, 72.0, 72.0, 72.0, 72.0]
  }

  /** viewpoints_range: writes the model's ranges into the caller's array and returns that array. */
  method ViewpointsRange(model: CamModel, range: array<real>) returns (r: array<real>)
    requires range.Length >= |ViewpointsTable(model)|
    modifies range
    ensures r == range
    ensures range[..] == ViewpointsTable(model) + old(range[..])[|ViewpointsTable(model)|..]
  {
    var k := |ViewpointsTable(model)|;
    match model {
      case CamA2C1080P =>
        range[0] := 202.8;
        range[1] := 202.8;
      case CamB4C1080P =>
        range[0] := 110.0;
        range[1] := 140.0;
        range[2] := 110.0;
        range[3] := 140.0;
      case CamC3C4K =>
        range[0] := 144.0;
        range[1] := 144.0;
        range[2] := 144.0;
      case CamC3C8K =>
        range[0] := 144.0;
        range[1] := 144.0;
        range[2] := 144.0;
      case CamC6C8K =>
        range[0] := 72.0;
        range[1] := 72.0;
        range[2] := 72.0;
        range[3] := 72.0;
        range[4] := 72.0;
        range[5] := 72.0;
      case CamD3C8K =>
        range[0] := 132.0;
        range[1] := 132.0;
        range[2] := 132.0;
      case CamD6C8K =>
        range[0] := 72.0;
        range[1] := 72.0;
        range[2] := 72.0;
        range[3] := 72.0;
        range[4] := 72.0;
        range[5] := 72.0;
    }
    assert range[..k] == ViewpointsTable(model);
    assert range[..] == range[..k] + range[k..];
    return range;
  }

  function Sum(xs: seq<real>): real
  {
    if xs == [] then 0.0 else Sum(xs[..|xs| - 1]) + xs[|xs| - 1]
  }

  /**
   * Every model's cameras have a range each strictly between 0 and 360
   * degrees, and together they cover more than the full circle, so that
   * neighbouring slices overlap.
   */
  lemma ViewpointsCoverRound(model: CamModel)
    ensures var t := ViewpointsTable(model);
      && |t| >= 2
      && (forall i :: 0 <= i < |t| ==> 0.0 < t[i] < 360.0)
      && Sum(t) > 360.0
  {
    var t := ViewpointsTable(model);
    assert Sum(t[..0]) == 0.0;
    assert Sum(t[..1]) == t[0] by { assert t[..1][..0] == t[..0]; }
    assert Sum(t[..2]) == t[0] + t[1] by { assert t[..2][..1] == t[..1]; }
    if |t| > 2 {
      assert Sum(t[..3]) == t[0] + t[1] + t[2] by { assert t[..3][..2] == t[..2]; }
    }
    if |t| > 3 {
      assert Sum(t[..4]) == t[0] + t[1] + t[2] + t[3] by { assert t[..4][..3] == t[..3]; }
    }
    if |t| > 4 {
      assert Sum(t[..5]) == t[0] + t[1] + t[2] + t[3] + t[4] by { assert t[..5][..4] == t[..4]; }
    }
    if |t| > 5 {
      assert Sum(t[..6]) == t[0] + t[1] + t[2] + t[3] + t[4] + t[5] by { assert t[..6][..5] == t[..5]; }
    }
    assert t[..|t|] == t;
  }

  /** Where the ROI table has entries, it has one per camera of the model's view-range table. */
  lemma RoiMatchesViewpoints(model: CamModel, mode: StitchScopicMode)
    ensures |RoiRadiusTable(model, mode)| > 0 ==> |RoiRadiusTable(model, mode)| == |ViewpointsTable(model)|
    ensures model == CamB4C1080P ==> RoiRadiusTable(model, mode) == []
  {
  }

  /**
   * fm_region_ratio: the full overlap width and its middle third in height;
   * the four-camera model has no entry and gets the default ratio.
   */
  function FmRegionRatioFor(model: CamModel, defaults: FMRegionRatio): (r: FMRegionRatio)
    ensures model != CamB4C1080P ==> FMRegionRatioValid(r)
    ensures model != CamB4C1080P ==> r.posX == 0.0 && r.width == 1.0 && r.posY == r.height == 1.0 / 3.0
    ensures model == CamB4C1080P ==> r == defaults
  {
    if model == CamB4C1080P then defaults
    else FMRegionRatio(0.0, 1.0, 1.0 / 3.0, 1.0 / 3.0)
  }

  // ---------------------------------------------------------------------------
  // Bowl model from camera positions (cal_bowl_config)

  datatype Point3 = Point3(x: real, y: real, z: real)

  datatype BowlDataConfig = BowlDataConfig(
    a: real, b: real, c: real, angleStart: real, angleEnd: real,
    centerZ: real, wallHeight: real, groundLength: real)

  /** The float constant cal_bowl_config uses for the square root of 2. */
  const Sqrt2: real := 1.41421356237

  /** Sum of the heights of cameras 0 .. n-1. */
  function SumZ(pos: seq<Point3>, n: nat): real
    requires n <= |pos|
  {
    if n == 0 then 0.0 else SumZ(pos, n - 1) + pos[n - 1].z
  }

  /** Camera indices of the front, right, rear and left cameras; a missing camera falls back to camera 0. */
  function RigIndex(side: nat, n: nat): (k: nat)
    requires side < 4
    ensures k < n || k == 0
    ensures k == side || k == 0
    ensures side < n ==> k == side
    ensures n <= side ==> k == 0
  {
    if n > side then side else 0
  }

  /** Half the distance from the rear camera to the front camera along x. */
  function HalfLength(pos: seq<Point3>, n: nat): real
    requires 0 < n <= |pos|
  {
    (pos[0].x - pos[RigIndex(2, n)].x) * 0.5
  }

  /** Half the distance from the right camera to the left camera along y. */
  function HalfWidth(pos: seq<Point3>, n: nat): real
    requires 0 < n <= |pos|
  {
    (pos[RigIndex(3, n)].y - pos[RigIndex(1, n)].y) * 0.5
  }

  /** The mean camera height. */
  function MeanZ(pos: seq<Point3>, n: nat): (m: real)
    requires 0 < n <= |pos|
    ensures m * n as real == SumZ(pos, n)
  {
    SumZ(pos, n) / n as real
  }

  /** The radius coefficient of the ground ellipse, sqrtf(1 - center_z^2 / c^2). */
  function GroundCoefficient(centerZ: real, c: real, sqrtf: real -> real): real
    requires c != 0.0
  {
    sqrtf(1.0 - centerZ * centerZ / (c * c))
  }

  /** The second half of cal_bowl_config: the horizontal semi-axes, the wall height and the ground length. */
  function WithAxes(base: BowlDataConfig, halfLength: real, halfWidth: real, xScope: real, yScope: real, r: real): BowlDataConfig
  {
    var lMax := (halfLength + xScope) * 2.0;
    var wMax := (halfWidth + yScope) * 2.0;
    var denom := Sqrt2 * r;
    var axes := if denom != 0.0 then base.(a := lMax / denom, b := wMax / denom) else base;
    axes.(wallHeight := 2.0 * base.centerZ, groundLength := r * axes.b - halfWidth)
  }

  /** The first half of cal_bowl_config: the center height, the full circle and c. */
  function BowlBase(pos: seq<Point3>, n: nat, defaults: BowlDataConfig): BowlDataConfig
    requires 0 < n <= |pos|
  {
    var centerZ := MeanZ(pos, n);
    defaults.(centerZ := centerZ, angleStart := 0.0, angleEnd := 360.0, c := 2.0 * centerZ)
  }

  /** The bowl cal_bowl_config derives for n cameras at the given positions. */
  function BowlFor(pos: seq<Point3>, n: nat, xScope: real, yScope: real, defaults: BowlDataConfig, sqrtf: real -> real): BowlDataConfig
    requires 0 < n <= |pos|
  {
    var base := BowlBase(pos, n, defaults);
    if base.c == 0.0 then base
    else WithAxes(base, HalfLength(pos, n), HalfWidth(pos, n), xScope, yScope, GroundCoefficient(base.centerZ, base.c, sqrtf))
  }

  /**
   * cal_bowl_config: a null position array or no cameras gives the default
   * bowl; otherwise the heights are summed camera by camera and the bowl is
   * derived from their mean.
   */
  method CalBowlConfig(cameraPos: Option<seq<Point3>>, cameraNum: int, xViewScope: real, yViewScope: real,
                       defaults: BowlDataConfig, sqrtf: real -> real) returns (bowl: BowlDataConfig)
    requires cameraPos.Some? && cameraNum > 0 ==> cameraNum <= |cameraPos.value|
    ensures cameraPos.None? || cameraNum <= 0 ==> bowl == defaults
    ensures cameraPos.Some? && cameraNum > 0 ==>
      bowl == BowlFor(cameraPos.value, cameraNum, xViewScope, yViewScope, defaults, sqrtf)
  {
    bowl := defaults;
    if cameraPos.None? || cameraNum <= 0 {
      return;
    }
    var pos := cameraPos.value;
    var sumZ := 0.0;
    for i := 0 to cameraNum
      invariant sumZ == SumZ(pos, i)
    {
      sumZ := sumZ + pos[i].z;
    }
    bowl := bowl.(centerZ := sumZ / cameraNum as real);
    bowl := bowl.(angleStart := 0.0, angleEnd := 360.0);
    bowl := bowl.(c := 2.0 * bowl.centerZ);
    assert bowl == BowlBase(pos, cameraNum, defaults);
    if bowl.c == 0.0 {
      return;
    }
    var r := GroundCoefficient(bowl.centerZ, bowl.c, sqrtf);
    bowl := WithAxes(bowl, HalfLength(pos, cameraNum), HalfWidth(pos, cameraNum), xViewScope, yViewScope, r);
  }

  /**
   * The bowl's center height is the mean camera height: it lies between the
   * lowest and the highest camera; the bowl spans the full circle and its
   * vertical semi-axis is twice the center height.
   */
  lemma BowlCenterIsMean(pos: seq<Point3>, n: nat, xScope: real, yScope: real, defaults: BowlDataConfig,
                         sqrtf: real -> real, lo: real, hi: real)
    requires 0 < n <= |pos|
    requires forall i :: 0 <= i < n ==> lo <= pos[i].z <= hi
    ensures var bowl := BowlFor(pos, n, xScope, yScope, defaults, sqrtf);
      && bowl.centerZ * n as real == SumZ(pos, n)
      && lo <= bowl.centerZ <= hi
      && bowl.angleStart == 0.0 && bowl.angleEnd == 360.0
      && bowl.c == 2.0 * bowl.centerZ
  {
    MeanBetween(pos, n, lo, hi);
    var base := BowlBase(pos, n, defaults);
    if base.c != 0.0 {
      WithAxesFacts(base, HalfLength(pos, n), HalfWidth(pos, n), xScope, yScope, GroundCoefficient(base.centerZ, base.c, sqrtf));
    }
  }

  lemma MeanBetween(pos: seq<Point3>, n: nat, lo: real, hi: real)
    requires 0 < n <= |pos|
    requires forall i :: 0 <= i < n ==> lo <= pos[i].z <= hi
    ensures lo <= MeanZ(pos, n) <= hi
  {
    SumZBounds(pos, n, lo, hi);
    var m := MeanZ(pos, n);
    if m < lo {
      Arith.RealMulStrict(m, lo, n as real);
    }
    if m > hi {
      Arith.RealMulStrict(hi, m, n as real);
    }
  }

  lemma {:induction false} SumZBounds(pos: seq<Point3>, n: nat, lo: real, hi: real)
    requires n <= |pos|
    requires forall i :: 0 <= i < n ==> lo <= pos[i].z <= hi
    ensures lo * n as real <= SumZ(pos, n) <= hi * n as real
  {
    if n > 0 {
      SumZBounds(pos, n - 1, lo, hi);
      assert lo * n as real == lo * (n - 1) as real + lo;
      assert hi * n as real == hi * (n - 1) as real + hi;
    }
  }

  /**
   * When the mean height is zero the bowl returns right after c: the axes,
   * the wall height and the ground length keep their defaults.
   */
  lemma BowlFlatKeepsDefaults(pos: seq<Point3>, n: nat, xScope: real, yScope: real, defaults: BowlDataConfig, sqrtf: real -> real)
    requires 0 < n <= |pos| && SumZ(pos, n) == 0.0
    ensures var bowl := BowlFor(pos, n, xScope, yScope, defaults, sqrtf);
      && bowl.c == 0.0 && bowl.centerZ == 0.0
      && bowl.a == defaults.a && bowl.b == defaults.b
      && bowl.wallHeight == defaults.wallHeight && bowl.groundLength == defaults.groundLength
  {
  }

  /** Otherwise c is twice the mean height and the wall is as high as c. */
  lemma BowlRaised(pos: seq<Point3>, n: nat, xScope: real, yScope: real, defaults: BowlDataConfig, sqrtf: real -> real)
    requires 0 < n <= |pos| && SumZ(pos, n) != 0.0
    ensures var bowl := BowlFor(pos, n, xScope, yScope, defaults, sqrtf);
      && bowl.centerZ == MeanZ(pos, n)
      && bowl.c == 2.0 * bowl.centerZ && bowl.c != 0.0
      && bowl.wallHeight == bowl.c
  {
    var base := BowlBase(pos, n, defaults);
    assert base.c != 0.0;
    WithAxesFacts(base, HalfLength(pos, n), HalfWidth(pos, n), xScope, yScope, GroundCoefficient(base.centerZ, base.c, sqrtf));
  }

  /**
   * The second half of cal_bowl_config: the horizontal semi-axes come from
   * the rig size and the view scopes only when the ground-ellipse
   * coefficient is non-zero; the wall is twice the center height and the
   * ground length follows from the width semi-axis.
   */
  lemma WithAxesFacts(base: BowlDataConfig, halfLength: real, halfWidth: real, xScope: real, yScope: real, r: real)
    ensures var bowl := WithAxes(base, halfLength, halfWidth, xScope, yScope, r);
      var denom := Sqrt2 * r;
      && bowl.c == base.c && bowl.centerZ == base.centerZ
      && bowl.angleStart == base.angleStart && bowl.angleEnd == base.angleEnd
      && bowl.wallHeight == 2.0 * base.centerZ
      && (denom != 0.0 ==>
            && bowl.a * denom == (halfLength + xScope) * 2.0
            && bowl.b * denom == (halfWidth + yScope) * 2.0)
      && (denom == 0.0 ==> bowl.a == base.a && bowl.b == base.b)
      && bowl.groundLength == r * bowl.b - halfWidth
  {
  }

  /** With fewer than four cameras the missing sides fall back to the front camera. */
  lemma RigIndexFallback(pos: seq<Point3>, n: nat)
    requires 0 < n <= |pos|
    ensures n == 1 ==> HalfLength(pos, n) == 0.0 && HalfWidth(pos, n) == 0.0
    ensures n >= 4 ==> HalfLength(pos, n) == (pos[0].x - pos[2].x) * 0.5 && HalfWidth(pos, n) == (pos[3].y - pos[1].y) * 0.5
  {
  }

  // ---------------------------------------------------------------------------
  // Calibration entries per scopic mode (get_fisheye_info)

  datatype IntrinsicParameter = IntrinsicParameter(
    flip: bool, fx: real, fy: real, cx: real, cy: real, width: nat, height: nat, fov: real, skew: real)

  datatype ExtrinsicParameter = ExtrinsicParameter(
    transX: real, transY: real, transZ: real, yaw: real, pitch: real, roll: real)

  /** One camera's calibration; camModel and radius stand for the fields get_fisheye_info copies only in mono mode or not at all. */
  datatype FisheyeInfo = FisheyeInfo(
    intrinsic: IntrinsicParameter, extrinsic: ExtrinsicParameter, camModel: nat,
    distortCoeff: seq<real>, radius: real)

  /** Calibration file per camera model, indexed by the model's position in CamModel. */
  const CalibrationJsonNames: seq<string> := [
    "", "", "", "camera_calibration_CamC3C8K.json", "camera_calibration_CamC6C8K.json", "k_camera_calibration.json"]

  function ModelIndex(model: CamModel): nat
  {
    match model
    case CamA2C1080P => 0
    case CamB4C1080P => 1
    case CamC3C4K => 2
    case CamC3C8K => 3
    case CamC6C8K => 4
    case CamD3C8K => 5
    case CamD6C8K => 6
  }

  /** How many entries a scopic mode fills. */
  function SlotCount(mode: StitchScopicMode): (k: nat)
    ensures k <= FisheyeMaxNum
  {
    if mode == ScopicMono then 6 else 3
  }

  /** The parsed entry slot i takes: i in mono mode, 2i for the left eye, 2i+1 for the right eye. */
  function SourceIndex(mode: StitchScopicMode, i: nat): nat
  {
    match mode
    case ScopicMono => i
    case ScopicStereoLeft => 2 * i
    case ScopicStereoRight => 2 * i + 1
  }

  /** Slot after the copy: intrinsic, extrinsic and distortion from the source; the camera model only in mono mode. */
  function CopyEntry(slot: FisheyeInfo, src: FisheyeInfo, mode: StitchScopicMode): FisheyeInfo
  {
    slot.(intrinsic := src.intrinsic, extrinsic := src.extrinsic,
          camModel := if mode == ScopicMono then src.camModel else slot.camModel,
          distortCoeff := src.distortCoeff)
  }

  /**
   * get_fisheye_info. Without JSON support it returns BYPASS and writes
   * nothing. Otherwise the result of parsing the model's calibration file
   * (parseRet and parsed) is passed in: on failure that code is returned and
   * nothing is written, on success the slots are filled per scopic mode.
   */
  method GetFisheyeInfo(model: CamModel, mode: StitchScopicMode, fisheyeInfo: array<FisheyeInfo>,
                        haveJson: bool, parseRet: XCamReturn, parsed: seq<FisheyeInfo>) returns (ret: XCamReturn)
    requires haveJson ==> ModelIndex(model) < |CalibrationJsonNames|
    requires |parsed| == FisheyeMaxNum && fisheyeInfo.Length >= FisheyeMaxNum
    modifies fisheyeInfo
    ensures !haveJson ==> ret == Bypass && unchanged(fisheyeInfo)
    ensures haveJson && parseRet != NoError ==> ret == parseRet && unchanged(fisheyeInfo)
    ensures haveJson && parseRet == NoError ==>
      && ret == NoError
      && (forall i :: 0 <= i < SlotCount(mode) ==>
            fisheyeInfo[i] == CopyEntry(old(fisheyeInfo[i]), parsed[SourceIndex(mode, i)], mode))
      && (forall i :: SlotCount(mode) <= i < fisheyeInfo.Length ==> fisheyeInfo[i] == old(fisheyeInfo[i]))
  {
    ret := Bypass;
    if !haveJson {
      return;
    }
    ret := parseRet;
    if ret != NoError {
      return;
    }
    var count := SlotCount(mode);
    for i := 0 to count
      invariant forall j :: 0 <= j < i ==>
        fisheyeInfo[j] == CopyEntry(old(fisheyeInfo[j]), parsed[SourceIndex(mode, j)], mode)
      invariant forall j :: i <= j < fisheyeInfo.Length ==> fisheyeInfo[j] == old(fisheyeInfo[j])
    {
      var src := parsed[SourceIndex(mode, i)];
      fisheyeInfo[i] := CopyEntry(fisheyeInfo[i], src, mode);
    }
  }

  /** The eye whose copy uses parsed entry k, and the slot it lands in. */
  function EyeOf(k: nat): StitchScopicMode
  {
    if k % 2 == 0 then ScopicStereoLeft else ScopicStereoRight
  }

  function SlotOf(k: nat): nat
  {
    k / 2
  }

  /**
   * The left eye takes the even parsed entries and the right eye the odd
   * ones: between them each of the six entries is used exactly once, and
   * mono mode uses each entry for its own slot.
   */
  lemma StereoSourcesPartition()
    ensures forall i :: 0 <= i < SlotCount(ScopicStereoLeft) ==> SourceIndex(ScopicStereoLeft, i) % 2 == 0
    ensures forall i :: 0 <= i < SlotCount(ScopicStereoRight) ==> SourceIndex(ScopicStereoRight, i) % 2 == 1
    ensures forall k :: 0 <= k < FisheyeMaxNum ==> SlotOf(k) < 3 && SourceIndex(EyeOf(k), SlotOf(k)) == k
    ensures forall i, j :: 0 <= i < 3 && 0 <= j < 3 ==> SourceIndex(ScopicStereoLeft, i) != SourceIndex(ScopicStereoRight, j)
    ensures forall i :: 0 <= i < SlotCount(ScopicMono) ==> SourceIndex(ScopicMono, i) == i
  {
  }
}
