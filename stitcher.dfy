/**
 * The Stitcher base class: per-camera arrays of fixed capacity MaxCameras,
 * filled step by step by the layout methods, each guarded by an "already
 * done" flag and by the flags of the steps it depends on; and the frame
 * counter that decides when feature matching runs.
 */
module StitcherBase {
  import opened Wrappers
  import opened XCamUtils
  import opened StitchAreas
  import opened StitchLayout

  datatype XCamReturn = NoError | Bypass | ErrorParam | ErrorOrder | ErrorUnknown

  datatype FeatureMatchMode = FMNone | FMDefault | FMCluster | FMCapi
  datatype FeatureMatchStatus = FMStatusWholeWay | FMStatusHalfWay | FMStatusFMFirst

  /** Region of an overlap used for feature matching, as fractions of the overlap. */
  datatype FMRegionRatio = FMRegionRatio(posX: real, width: real, posY: real, height: real)

  /** The condition set_fm_region_ratio checks: non-negative parts that stay inside the overlap. */
  predicate FMRegionRatioValid(r: FMRegionRatio)
  {
    && r.posX >= 0.0 && r.width >= 0.0 && r.posY >= 0.0 && r.height >= 0.0
    && r.posX + r.width <= 1.0 && r.posY + r.height <= 1.0
  }

  // ---------------------------------------------------------------------------
  // Feature-matching frame counter (ensure_stitch_path)

  datatype StitchPath = StitchPath(frameCount: nat, completeStitch: bool, needFm: bool)

  /**
   * One call of ensure_stitch_path. Past frames + 1 nothing changes; otherwise
   * the output is complete unless matching runs first and is still warming up,
   * matching is needed while warming up or always in the whole-way status,
   * and the counter advances by one.
   */
  function StitchPathStep(p: StitchPath, mode: FeatureMatchMode, status: FeatureMatchStatus, frames: nat): (q: StitchPath)
    ensures p.frameCount > frames + 1 ==> q == p
    ensures p.frameCount <= frames + 1 ==>
      && q.frameCount == p.frameCount + 1
      && (q.completeStitch <==> mode == FMNone || status != FMStatusFMFirst || p.frameCount > frames)
      && (q.needFm <==> mode != FMNone && (status == FMStatusWholeWay || p.frameCount <= frames))
  {
    if p.frameCount > frames + 1 then p
    else StitchPath(
      p.frameCount + 1,
      mode == FMNone || status != FMStatusFMFirst || p.frameCount > frames,
      mode != FMNone && (status == FMStatusWholeWay || p.frameCount <= frames))
  }

  /** n consecutive calls. */
  function StitchPathAfter(p: StitchPath, mode: FeatureMatchMode, status: FeatureMatchStatus, frames: nat, n: nat): StitchPath
  {
    if n == 0 then p else StitchPathStep(StitchPathAfter(p, mode, status, frames, n - 1), mode, status, frames)
  }

  /** The state a new stitcher starts in: counter 1, complete, no matching. */
  const InitialStitchPath := StitchPath(1, true, false)

  /** During the first `frames` calls, matching runs whenever a mode is set, and the output is held back only in FM-first status. */
  lemma {:induction false} StitchPathWarmup(mode: FeatureMatchMode, status: FeatureMatchStatus, frames: nat, n: nat)
    requires 1 <= n <= frames
    ensures var q := StitchPathAfter(InitialStitchPath, mode, status, frames, n);
      && q.frameCount == n + 1
      && (q.needFm <==> mode != FMNone)
      && (q.completeStitch <==> mode == FMNone || status != FMStatusFMFirst)
  {
    if n > 1 {
      StitchPathWarmup(mode, status, frames, n - 1);
    }
  }

  /**
   * From call frames + 1 on, the counter stays at frames + 2, the output is
   * always complete, and matching continues only in whole-way status.
   */
  lemma {:induction false} StitchPathSettles(mode: FeatureMatchMode, status: FeatureMatchStatus, frames: nat, n: nat)
    requires n >= frames + 1
    ensures StitchPathAfter(InitialStitchPath, mode, status, frames, n) ==
      StitchPath(frames + 2, true, mode != FMNone && status == FMStatusWholeWay)
  {
    if n == frames + 1 {
      if frames >= 1 {
        StitchPathWarmup(mode, status, frames, frames);
      }
    } else {
      StitchPathSettles(mode, status, frames, n - 1);
    }
  }

  // ---------------------------------------------------------------------------

  class Stitcher {
    const alignX: nat
    const alignY: nat
    var outputWidth: nat
    var outputHeight: nat
    var outStartAngle: real
    var cameraNum: nat
    var isRoundViewSet: bool
    var isOverlapSet: bool
    var isCropSet: bool
    var isCenterMarked: bool
    var fmMode: FeatureMatchMode
    var fmStatus: FeatureMatchStatus
    var fmFrames: nat
    var fmFrameCount: nat
    var completeStitch: bool
    var needFm: bool
    var fmRegionRatio: FMRegionRatio

    const cameraInfo: array<CameraInfo>
    const viewpointsRange: array<real>
    const roundViewSlices: array<RoundViewSlice>
    const cropInfo: array<ImageCropInfo>
    const centerMarks: array<CenterMark>
    const overlapInfo: array<ImageOverlapInfo>
    var copyAreas: seq<CopyArea>

    predicate Valid()
      reads this
    {
      && alignX >= 1 && alignY >= 1
      && cameraNum <= MaxCameras
      && cameraInfo.Length == MaxCameras && viewpointsRange.Length == MaxCameras
      && roundViewSlices.Length == MaxCameras && cropInfo.Length == MaxCameras
      && centerMarks.Length == MaxCameras && overlapInfo.Length == MaxCameras
    }

    /** The per-camera arrays as values. */
    function CurrentLayout(): (l: Layout)
      requires Valid()
      reads this, roundViewSlices, cropInfo, centerMarks, overlapInfo
      ensures Covering(l, cameraNum)
    {
      Layout(roundViewSlices[..], cropInfo[..], centerMarks[..], overlapInfo[..])
    }

    function Path(): StitchPath
      reads this
    {
      StitchPath(fmFrameCount, completeStitch, needFm)
    }

    /** A new stitcher: no cameras, no step done, frame counter 1, 100 warm-up frames. */
    constructor (alignX: nat, alignY: nat)
      requires alignX >= 1 && alignY >= 1
      ensures Valid() && fresh(cameraInfo) && fresh(viewpointsRange) && fresh(roundViewSlices)
      ensures fresh(cropInfo) && fresh(centerMarks) && fresh(overlapInfo)
      ensures this.alignX == alignX && this.alignY == alignY
      ensures outputWidth == 0 && outputHeight == 0 && outStartAngle == 0.0 && cameraNum == 0
      ensures !isRoundViewSet && !isOverlapSet && !isCropSet && !isCenterMarked
      ensures fmMode == FMNone && fmStatus == FMStatusWholeWay && fmFrames == 100
      ensures Path() == InitialStitchPath
      ensures viewpointsRange[..] == seq(MaxCameras, _ => 0.0)
      ensures copyAreas == []
    {
      this.alignX, this.alignY := alignX, alignY;
      outputWidth, outputHeight, outStartAngle, cameraNum := 0, 0, 0.0, 0;
      isRoundViewSet, isOverlapSet, isCropSet, isCenterMarked := false, false, false, false;
      fmMode, fmStatus, fmFrames, fmFrameCount := FMNone, FMStatusWholeWay, 100, 1;
      completeStitch, needFm := true, false;
      fmRegionRatio := FMRegionRatio(0.0, 0.0, 0.0, 0.0);
      cameraInfo := new CameraInfo[MaxCameras](_ => CameraInfo(0.0, 0.0));
      viewpointsRange := new real[MaxCameras](_ => 0.0);
      roundViewSlices := new RoundViewSlice[MaxCameras](_ => RoundViewSlice(0.0, 0.0, 0, 0));
      cropInfo := new ImageCropInfo[MaxCameras](_ => ImageCropInfo(0, 0, 0, 0));
      centerMarks := new CenterMark[MaxCameras](_ => CenterMark(0, 0));
      overlapInfo := new ImageOverlapInfo[MaxCameras](_ => ImageOverlapInfo(Rect(0, 0, 0, 0), Rect(0, 0, 0, 0), Rect(0, 0, 0, 0)));
      copyAreas := [];
    }

    // -------------------------------------------------------------------------
    // Setters and getters

    /** set_camera_num: accepted up to MaxCameras; a rejected count leaves the old one. */
    method SetCameraNum(num: nat) returns (ok: bool)
      requires Valid()
      modifies this`cameraNum
      ensures Valid()
      ensures ok <==> num <= MaxCameras
      ensures cameraNum == if ok then num else old(cameraNum)
    {
      if num > MaxCameras {
        return false;
      }
      cameraNum := num;
      return true;
    }

    /** set_camera_info: only indices below the camera count are written. */
    method SetCameraInfo(index: nat, info: CameraInfo) returns (ok: bool)
      requires Valid()
      modifies cameraInfo
      ensures ok <==> index < cameraNum
      ensures cameraInfo[..] == if ok then old(cameraInfo[..])[index := info] else old(cameraInfo[..])
    {
      if index >= cameraNum {
        return false;
      }
      cameraInfo[index] := info;
      return true;
    }

    /** set_crop_info: as set_camera_info, and only a successful call marks the crops as set. */
    method SetCropInfo(index: nat, info: ImageCropInfo) returns (ok: bool)
      requires Valid()
      modifies cropInfo, this`isCropSet
      ensures Valid()
      ensures ok <==> index < cameraNum
      ensures cropInfo[..] == if ok then old(cropInfo[..])[index := info] else old(cropInfo[..])
      ensures isCropSet == (ok || old(isCropSet))
    {
      if index >= cameraNum {
        return false;
      }
      cropInfo[index] := info;
      isCropSet := true;
      return true;
    }

    /** get_crop_info: bounded by the camera count. */
    method GetCropInfo(index: nat) returns (ok: bool, info: ImageCropInfo)
      requires Valid()
      ensures ok <==> index < cameraNum
      ensures ok ==> info == cropInfo[index]
    {
      if index >= cameraNum {
        return false, ImageCropInfo(0, 0, 0, 0);
      }
      return true, cropInfo[index];
    }

    /** get_camera_info: bounded by the array capacity, not by the camera count. */
    method GetCameraInfo(index: nat) returns (ok: bool, info: CameraInfo)
      requires Valid()
      ensures ok <==> index < MaxCameras
      ensures ok ==> info == cameraInfo[index]
    {
      if index >= MaxCameras {
        return false, CameraInfo(0.0, 0.0);
      }
      return true, cameraInfo[index];
    }

    /** set_viewpoints_range: refused before the camera count is set; copies one angle per camera. */
    method SetViewpointsRange(range: seq<real>) returns (ok: bool)
      requires Valid() && |range| >= cameraNum
      modifies viewpointsRange
      ensures ok <==> cameraNum != 0
      ensures forall j :: 0 <= j < MaxCameras ==>
        viewpointsRange[j] == if ok && j < cameraNum then range[j] else old(viewpointsRange[j])
    {
      if cameraNum == 0 {
        return false;
      }
      for i := 0 to cameraNum
        invariant forall j :: 0 <= j < MaxCameras ==>
          viewpointsRange[j] == if j < i then range[j] else old(viewpointsRange[j])
      {
        viewpointsRange[i] := range[i];
      }
      return true;
    }

    /** set_fm_region_ratio: an invalid ratio is reported but stored all the same. */
    method SetFMRegionRatio(ratio: FMRegionRatio)
      modifies this`fmRegionRatio
      ensures fmRegionRatio == ratio
    {
      fmRegionRatio := ratio;
    }

    /** ensure_stitch_path: one step of the frame counter. */
    method EnsureStitchPath() returns (ok: bool)
      modifies this`fmFrameCount, this`completeStitch, this`needFm
      ensures ok
      ensures Path() == StitchPathStep(old(Path()), fmMode, fmStatus, fmFrames)
    {
      if fmFrameCount > fmFrames + 1 {
        return true;
      }
      completeStitch := fmMode == FMNone || fmStatus != FMStatusFMFirst || fmFrameCount > fmFrames;
      needFm := fmMode != FMNone && (fmStatus == FMStatusWholeWay || fmFrameCount <= fmFrames);
      fmFrameCount := fmFrameCount + 1;
      return true;
    }

    // -------------------------------------------------------------------------
    // Layout steps

    /**
     * estimate_round_slices: once per stitcher, one slice per camera from its
     * angle range and start; the camera's angles are replaced by the slice's.
     */
    method EstimateRoundSlices() returns (ret: XCamReturn)
      requires Valid()
      modifies this`isRoundViewSet, roundViewSlices, cameraInfo
      ensures Valid()
      ensures old(isRoundViewSet) ==>
        ret == NoError && isRoundViewSet && unchanged(roundViewSlices, cameraInfo)
      ensures !old(isRoundViewSet) && cameraNum == 0 ==>
        ret == ErrorParam && !isRoundViewSet && unchanged(roundViewSlices, cameraInfo)
      ensures !old(isRoundViewSet) && cameraNum > 0 ==>
        && ret == NoError && isRoundViewSet
        && forall j :: 0 <= j < MaxCameras ==>
             if j < cameraNum then
               && roundViewSlices[j] == RoundSlice(old(cameraInfo[j]), outputWidth, outputHeight, alignX)
               && cameraInfo[j] == CameraInfo(roundViewSlices[j].horiAngleStart, roundViewSlices[j].horiAngleRange)
             else roundViewSlices[j] == old(roundViewSlices[j]) && cameraInfo[j] == old(cameraInfo[j])
    {
      if isRoundViewSet {
        return NoError;
      }
      if !(cameraNum > 0 && cameraNum <= MaxCameras) {
        return ErrorParam;
      }
      for i := 0 to cameraNum
        invariant forall j :: 0 <= j < MaxCameras ==>
          if j < i then
            && roundViewSlices[j] == RoundSlice(old(cameraInfo[j]), outputWidth, outputHeight, alignX)
            && cameraInfo[j] == CameraInfo(roundViewSlices[j].horiAngleStart, roundViewSlices[j].horiAngleRange)
          else roundViewSlices[j] == old(roundViewSlices[j]) && cameraInfo[j] == old(cameraInfo[j])
      {
        var slice := RoundSlice(cameraInfo[i], outputWidth, outputHeight, alignX);
        roundViewSlices[i] := slice;
        cameraInfo[i] := CameraInfo(slice.horiAngleStart, slice.horiAngleRange);
      }
      isRoundViewSet := true;
      return NoError;
    }

    /** estimate_coarse_crops: without crops set by the user, every camera gets the zero crop. */
    method EstimateCoarseCrops() returns (ret: XCamReturn)
      requires Valid()
      modifies this`isCropSet, cropInfo
      ensures Valid()
      ensures old(isCropSet) ==> ret == NoError && isCropSet && unchanged(cropInfo)
      ensures !old(isCropSet) && !(cameraNum > 0 && isRoundViewSet) ==>
        ret == ErrorOrder && !isCropSet && unchanged(cropInfo)
      ensures !old(isCropSet) && cameraNum > 0 && isRoundViewSet ==>
        && ret == NoError && isCropSet
        && forall j :: 0 <= j < MaxCameras ==>
             cropInfo[j] == if j < cameraNum then ImageCropInfo(0, 0, 0, 0) else old(cropInfo[j])
    {
      if isCropSet {
        return NoError;
      }
      if !(cameraNum > 0 && isRoundViewSet) {
        return ErrorOrder;
      }
      for i := 0 to cameraNum
        invariant forall j :: 0 <= j < MaxCameras ==>
          cropInfo[j] == if j < i then ImageCropInfo(0, 0, 0, 0) else old(cropInfo[j])
      {
        cropInfo[i] := ImageCropInfo(0, 0, 0, 0);
      }
      isCropSet := true;
      return NoError;
    }

    /** The center marks mark_centers leaves: one per camera up to the first failure. */
    function Marks(): (r: seq<CenterMark>)
      requires Valid() && 0 < cameraNum
      reads this, roundViewSlices
      ensures |r| <= cameraNum
    {
      LeadingMarks(roundViewSlices[..], cameraNum, cameraNum, outputWidth, alignX, outStartAngle)
    }

    /**
     * mark_centers: camera by camera, until a center falls outside its slice;
     * the marks written before a failure stay, and only full success sets the flag.
     */
    method MarkCenters() returns (ret: XCamReturn)
      requires Valid()
      modifies this`isCenterMarked, centerMarks
      ensures Valid()
      ensures old(isCenterMarked) ==> ret == NoError && isCenterMarked && unchanged(centerMarks)
      ensures !old(isCenterMarked) && !(cameraNum > 0 && isRoundViewSet) ==>
        ret == ErrorOrder && !isCenterMarked && unchanged(centerMarks)
      ensures !old(isCenterMarked) && cameraNum > 0 && isRoundViewSet ==>
        && (ret == NoError <==> |Marks()| == cameraNum)
        && (ret == NoError || ret == ErrorParam)
        && isCenterMarked == (ret == NoError)
        && centerMarks[..] == Marks() + old(centerMarks[..])[|Marks()|..]
    {
      if isCenterMarked {
        return NoError;
      }
      if !(cameraNum > 0 && isRoundViewSet) {
        return ErrorOrder;
      }
      var found := WriteMarks();
      if !found {
        return ErrorParam;
      }
      isCenterMarked := true;
      return NoError;
    }

    /** The loop of mark_centers: writes the marks camera by camera, stopping at the first missing center. */
    method WriteMarks() returns (found: bool)
      requires Valid() && 0 < cameraNum
      modifies centerMarks
      ensures found <==> |Marks()| == cameraNum
      ensures centerMarks[..] == Marks() + old(centerMarks[..])[|Marks()|..]
    {
      ghost var slices := roundViewSlices[..];
      ghost var before := centerMarks[..];
      var num, w, ax, sa := cameraNum, outputWidth, alignX, outStartAngle;
      var i := 0;
      while i < num
        invariant 0 <= i <= num
        invariant roundViewSlices[..] == slices
        invariant centerMarks[..i] == LeadingMarks(slices, i, num, w, ax, sa)
        invariant centerMarks[i..] == before[i..]
      {
        LeadingMarksNext(slices, i, num, w, ax, sa);
        var mark := CenterFor(i, num, roundViewSlices[i], w, ax, sa);
        if mark.None? {
          LeadingMarksStop(slices, i + 1, num, num, w, ax, sa);
          assert centerMarks[..] == centerMarks[..i] + centerMarks[i..];
          return false;
        }
        centerMarks[i] := mark.value;
        assert centerMarks[..i + 1] == centerMarks[..i] + [mark.value];
        assert centerMarks[i + 1..] == before[i + 1..];
        i := i + 1;
      }
      assert centerMarks[..] == centerMarks[..i] + centerMarks[i..];
      return true;
    }

    /** The overlap estimate_overlap computes between camera j and its right neighbour. */
    function OverlapAt(j: nat): Option<ImageOverlapInfo>
      requires Valid() && j < cameraNum
      reads this, roundViewSlices, centerMarks, cropInfo
    {
      var next := (j + 1) % cameraNum;
      OverlapFor(roundViewSlices[j], roundViewSlices[next], centerMarks[j], centerMarks[next],
                 cropInfo[j], cropInfo[next], outputWidth)
    }

    predicate OverlapsFound(k: nat)
      requires Valid() && k <= cameraNum
      reads this, roundViewSlices, centerMarks, cropInfo
    {
      forall j :: 0 <= j < k ==> OverlapAt(j).Some?
    }

    /**
     * estimate_overlap: pair by pair, until a pair does not overlap; the
     * windows written before a failure stay, and only full success sets the flag.
     */
    method EstimateOverlap() returns (ret: XCamReturn)
      requires Valid()
      modifies this`isOverlapSet, overlapInfo
      ensures Valid()
      ensures old(isOverlapSet) ==> ret == NoError && isOverlapSet && unchanged(overlapInfo)
      ensures !old(isOverlapSet) && !(isRoundViewSet && isCropSet && isCenterMarked) ==>
        ret == ErrorOrder && !isOverlapSet && unchanged(overlapInfo)
      ensures !old(isOverlapSet) && isRoundViewSet && isCropSet && isCenterMarked ==>
        && (ret == NoError <==> OverlapsFound(cameraNum))
        && (ret == NoError || ret == ErrorUnknown)
        && isOverlapSet == (ret == NoError)
        && forall j :: 0 <= j < MaxCameras ==>
             overlapInfo[j] == if j < cameraNum && OverlapsFound(j + 1) then OverlapAt(j).value else old(overlapInfo[j])
    {
      if isOverlapSet {
        return NoError;
      }
      if !(isRoundViewSet && isCropSet && isCenterMarked) {
        return ErrorOrder;
      }
      var idx := 0;
      while idx < cameraNum
        invariant 0 <= idx <= cameraNum
        invariant !isOverlapSet
        invariant OverlapsFound(idx)
        invariant forall j :: 0 <= j < MaxCameras ==>
          overlapInfo[j] == if j < idx then OverlapAt(j).value else old(overlapInfo[j])
      {
        var overlap := OverlapAt(idx);
        if overlap.None? {
          assert forall j :: idx < j <= cameraNum ==> !OverlapsFound(j);
          return ErrorUnknown;
        }
        overlapInfo[idx] := overlap.value;
        idx := idx + 1;
      }
      isOverlapSet := true;
      return NoError;
    }

    /**
     * update_copy_areas: with at least two cameras and the slices, crops and
     * overlaps in place, appends the merged copy areas of all cameras to the
     * list; the list is never cleared.
     */
    method UpdateCopyAreas() returns (ret: XCamReturn)
      requires Valid()
      modifies this`copyAreas
      ensures !(cameraNum > 1 && isRoundViewSet && isCropSet && isOverlapSet) ==>
        ret == ErrorOrder && copyAreas == old(copyAreas)
      ensures cameraNum > 1 && isRoundViewSet && isCropSet && isOverlapSet ==>
        && ret == NoError
        && copyAreas == old(copyAreas) + MergeCopyAreas(TmpAreas(CurrentLayout(), cameraNum, cameraNum, outputWidth))
    {
      if !(cameraNum > 1 && isRoundViewSet && isCropSet && isOverlapSet) {
        return ErrorOrder;
      }
      var tmp := CollectTmpAreas();
      var merged := MergeAreas(tmp);
      copyAreas := copyAreas + merged;
      return NoError;
    }

    /**
     * The first loop of update_copy_areas: for each camera, its left copy area
     * and its right neighbour's right copy area, each split at the panorama edge.
     */
    method CollectTmpAreas() returns (tmp: seq<CopyArea>)
      requires Valid() && cameraNum > 0
      ensures tmp == TmpAreas(CurrentLayout(), cameraNum, cameraNum, outputWidth)
      ensures 2 * cameraNum <= |tmp|
    {
      var layout := CurrentLayout();
      tmp := [];
      for i := 0 to cameraNum
        invariant tmp == TmpAreas(layout, cameraNum, i, outputWidth)
      {
        var next := (i + 1) % cameraNum;
        var left := LeftCopy(i, centerMarks[i], overlapInfo[i], cropInfo[i], roundViewSlices[i]);
        var right := RightCopy(next, centerMarks[next], overlapInfo[i], cropInfo[next], roundViewSlices[next], outputWidth);
        tmp := tmp + (Pieces(left, outputWidth) + Pieces(right, outputWidth));
      }
    }

    /**
     * The merge pass of update_copy_areas: the last and first areas merged when
     * contiguous, then each area merged with its successor when it can be.
     */
    method MergeAreas(tmp: seq<CopyArea>) returns (merged: seq<CopyArea>)
      ensures merged == MergeCopyAreas(tmp)
    {
      merged := [];
      var start, end := 0, |tmp| - 1;
      if |tmp| > 2 {
        var m := MergeNeighborArea(tmp[end], tmp[0]);
        if m.Some? {
          merged := merged + [m.value];
          start, end := start + 1, end - 1;
        }
      }
      assert merged == MergeHead(tmp);
      var i := start;
      while i <= end
        invariant start <= i <= end + 1 && end < |tmp|
        invariant MergeRun(merged, tmp, i, end) == MergeCopyAreas(tmp)
        decreases end + 1 - i
      {
        if i == end {
          merged := merged + [tmp[i]];
          break;
        }
        var m := MergeNeighborArea(tmp[i], tmp[i + 1]);
        if m.Some? {
          merged := merged + [m.value];
          i := i + 2;
        } else {
          merged := merged + [tmp[i]];
          i := i + 1;
        }
      }
    }
  }
}
