/**
 * The per-camera layout arithmetic of the stitcher, as pure functions of the
 * values the stitcher keeps in its arrays: the round-view slice of a camera,
 * the center marks, the overlap window between neighbouring cameras, the copy
 * areas between centers and overlaps, and the pass that merges contiguous copy
 * areas. The Stitcher class applies them camera by camera.
 *
 * The source stores pixel columns in uint32/int32 and angles in float; here
 * columns are unbounded integers and angles reals, and float-to-unsigned
 * conversions truncate toward zero (TruncToNat).
 */
module StitchLayout {
  import opened Wrappers
  import opened XCamUtils
  import opened StitchAreas
  import Arith

  datatype CameraInfo = CameraInfo(roundAngleStart: real, angleRange: real)
  datatype RoundViewSlice = RoundViewSlice(horiAngleStart: real, horiAngleRange: real, width: nat, height: nat)
  datatype ImageCropInfo = ImageCropInfo(left: nat, right: nat, top: nat, bottom: nat)
  datatype CenterMark = CenterMark(sliceCenterX: nat, outCenterX: nat)
  datatype ImageOverlapInfo = ImageOverlapInfo(left: Rect, right: Rect, outArea: Rect)

  /** constraint_margin: starts and centers this close to either panorama edge are moved to column 0. */
  function Margin(alignX: nat): nat
  {
    2 * alignX
  }

  /** The edge rule shared by slice starts and output centers. */
  function AwayFromEdges(c: nat, outW: nat, alignX: nat): (r: nat)
    ensures r == c || r == 0
    ensures r == 0 <==> outW <= Margin(alignX) + c || c <= Margin(alignX)
  {
    if outW <= Margin(alignX) + c || c <= Margin(alignX) then 0 else c
  }

  // ---------------------------------------------------------------------------
  // Round-view slices (estimate_round_slices)

  /** The camera's share of the panorama's columns. */
  function Share(info: CameraInfo, outW: nat): (share: real)
    ensures share * 360.0 == info.angleRange * outW as real
    ensures info.angleRange >= 0.0 ==> share >= 0.0
  {
    var fraction := info.angleRange / 360.0;
    assert info.angleRange >= 0.0 ==> fraction * outW as real >= 0.0 by {
      if info.angleRange >= 0.0 {
        Arith.RealMulMono(0.0, fraction, outW as real);
      }
    }
    fraction * outW as real
  }

  /** The slice width before alignment: that share, truncated. */
  function UnalignedWidth(info: CameraInfo, outW: nat): nat
  {
    TruncToNat(Share(info, outW))
  }

  /** The aligned panorama column where a camera's slice starts. */
  function SliceStartColumn(info: CameraInfo, outW: nat, alignX: nat): (c: nat)
    requires alignX >= 1
    ensures c == 0 || (c % alignX == 0 && Margin(alignX) < c && c + Margin(alignX) < outW)
  {
    var start := AlignAround(TruncToNat(FormatAngle(info.roundAngleStart) / 360.0 * outW as real), alignX);
    AwayFromEdges(start, outW, alignX)
  }

  /** The angle of a slice's start column, in [0, 360), and 0 for column 0. */
  function SliceStartAngle(start: nat, outW: nat): (angle: real)
    ensures outW > 0 && start < outW ==> 0.0 <= angle < 360.0
    ensures start == 0 ==> angle == 0.0
  {
    var fraction := Div(start as real, outW as real);
    assert outW > 0 && start < outW ==> 0.0 <= fraction < 1.0 by {
      if outW > 0 && start < outW {
        Fraction(start as real, outW as real);
      }
    }
    var angle := FormatAngle(fraction * 360.0);
    if DoubleEqualAround(angle, 0.0001) then 0.0 else angle
  }

  /** The angle an aligned slice width spans in a panorama of width outW. */
  function SliceAngleRange(width: nat, outW: nat): (range: real)
    ensures outW > 0 ==> range * outW as real == width as real * 360.0
  {
    Div(width as real * 360.0, outW as real)
  }

  /**
   * The slice of one camera: an aligned width no smaller than its share, the
   * full panorama height, the angle the aligned width spans, and the angle of
   * the start column, in [0, 360).
   */
  function RoundSlice(info: CameraInfo, outW: nat, outH: nat, alignX: nat): (s: RoundViewSlice)
    requires alignX >= 1
    ensures s.width % alignX == 0
    ensures UnalignedWidth(info, outW) <= s.width < UnalignedWidth(info, outW) + alignX
    ensures info.angleRange >= 0.0 ==> Share(info, outW) - 1.0 < s.width as real < Share(info, outW) + alignX as real
    ensures s.height == outH
    ensures s.horiAngleRange == SliceAngleRange(s.width, outW)
    ensures SliceStartColumn(info, outW, alignX) == 0 ==> s.horiAngleStart == 0.0
    ensures outW > 0 ==> 0.0 <= s.horiAngleStart < 360.0
  {
    var width := AlignUp(UnalignedWidth(info, outW), alignX);
    var start := SliceStartColumn(info, outW, alignX);
    RoundViewSlice(SliceStartAngle(start, outW), SliceAngleRange(width, outW), width, outH)
  }

  lemma Fraction(a: real, b: real)
    requires 0.0 <= a < b
    ensures 0.0 <= Div(a, b) < 1.0
  {
    var f := Div(a, b);
    assert f * b == a;
    if f >= 1.0 {
      Arith.RealMulMono(1.0, f, b);
    }
    if f < 0.0 {
      Arith.RealMulStrict(f, 0.0, b);
    }
  }

  // ---------------------------------------------------------------------------
  // Center marks (mark_centers)

  /** The panorama column of camera i's center: i/num of the way round, after the edge rule. */
  function OutCenterColumn(i: nat, num: nat, outW: nat, alignX: nat, outStartAngle: real): (c: nat)
    requires num > 0
    ensures c == 0 || (Margin(alignX) < c && c + Margin(alignX) < outW)
  {
    var centerAngle := i as real * 360.0 / num as real;
    AwayFromEdges(TruncToNat(FormatAngle(centerAngle - outStartAngle) / 360.0 * outW as real), outW, alignX)
  }

  /** The angle of that center measured from the start of the camera's slice. */
  function CenterAngleInSlice(i: nat, num: nat, slice: RoundViewSlice, outW: nat, alignX: nat, outStartAngle: real): real
    requires num > 0 && alignX >= 1
  {
    var outPos := OutCenterColumn(i, num, outW, alignX, outStartAngle);
    var centerAngle := FormatAngle(Div(AlignAround(outPos, alignX) as real, outW as real) * 360.0 - outStartAngle);
    FormatAngle(centerAngle - slice.horiAngleStart)
  }

  /**
   * The center mark of camera i, or None when the center falls outside the
   * camera's slice (mark_centers then fails with ERROR_PARAM).
   */
  function CenterFor(i: nat, num: nat, slice: RoundViewSlice, outW: nat, alignX: nat, outStartAngle: real): Option<CenterMark>
    requires num > 0 && alignX >= 1
  {
    var inSlice := CenterAngleInSlice(i, num, slice, outW, alignX, outStartAngle);
    if inSlice < slice.horiAngleRange then
      var slicePos := TruncToNat(Div(inSlice, slice.horiAngleRange) * slice.width as real);
      Some(CenterMark(AlignAround(slicePos, alignX), OutCenterColumn(i, num, outW, alignX, outStartAngle)))
    else None
  }

  /**
   * A center mark exists exactly when the center angle falls inside the
   * slice; it carries the panorama column of the center and an aligned
   * slice column at most one slice width in.
   */
  lemma CenterMarkFacts(i: nat, num: nat, slice: RoundViewSlice, outW: nat, alignX: nat, outStartAngle: real)
    requires num > 0 && alignX >= 1
    ensures var m := CenterFor(i, num, slice, outW, alignX, outStartAngle);
      && (m.Some? <==> CenterAngleInSlice(i, num, slice, outW, alignX, outStartAngle) < slice.horiAngleRange)
      && (m.Some? ==> m.value.outCenterX == OutCenterColumn(i, num, outW, alignX, outStartAngle))
      && (m.Some? ==> m.value.sliceCenterX % alignX == 0)
  {
  }

  /**
   * The marks mark_centers leaves for cameras 0 .. k-1: one per camera up to
   * the first camera whose center falls outside its slice, where it stops.
   */
  function LeadingMarks(slices: seq<RoundViewSlice>, k: nat, num: nat, outW: nat, alignX: nat, outStartAngle: real): (r: seq<CenterMark>)
    requires num > 0 && alignX >= 1 && k <= |slices|
    ensures |r| <= k
  {
    if k == 0 then []
    else
      var before := LeadingMarks(slices, k - 1, num, outW, alignX, outStartAngle);
      var m := CenterFor(k - 1, num, slices[k - 1], outW, alignX, outStartAngle);
      if |before| == k - 1 && m.Some? then before + [m.value] else before
  }

  /** Each leading mark is its camera's center mark, and the first camera left out has none. */
  lemma {:induction false} LeadingMarksAreCenters(slices: seq<RoundViewSlice>, k: nat, num: nat, outW: nat, alignX: nat, outStartAngle: real)
    requires num > 0 && alignX >= 1 && k <= |slices|
    ensures var r := LeadingMarks(slices, k, num, outW, alignX, outStartAngle);
      && (forall j :: 0 <= j < |r| ==> CenterFor(j, num, slices[j], outW, alignX, outStartAngle) == Some(r[j]))
      && (|r| < k ==> CenterFor(|r|, num, slices[|r|], outW, alignX, outStartAngle).None?)
  {
    if k > 0 {
      LeadingMarksAreCenters(slices, k - 1, num, outW, alignX, outStartAngle);
      var before := LeadingMarks(slices, k - 1, num, outW, alignX, outStartAngle);
      var m := CenterFor(k - 1, num, slices[k - 1], outW, alignX, outStartAngle);
      if |before| == k - 1 && m.Some? {
        var r := before + [m.value];
        assert forall j :: 0 <= j < k - 1 ==> r[j] == before[j];
      }
    }
  }

  /** One more camera: its mark is appended when all earlier cameras have one and its center is found. */
  lemma LeadingMarksNext(slices: seq<RoundViewSlice>, k: nat, num: nat, outW: nat, alignX: nat, outStartAngle: real)
    requires num > 0 && alignX >= 1 && k < |slices|
    requires |LeadingMarks(slices, k, num, outW, alignX, outStartAngle)| == k
    ensures var m := CenterFor(k, num, slices[k], outW, alignX, outStartAngle);
      && (m.Some? ==> LeadingMarks(slices, k + 1, num, outW, alignX, outStartAngle) ==
                        LeadingMarks(slices, k, num, outW, alignX, outStartAngle) + [m.value])
      && (m.None? ==> |LeadingMarks(slices, k + 1, num, outW, alignX, outStartAngle)| == k)
  {
  }

  /** Once a camera's center is missing, later cameras add no marks. */
  lemma {:induction false} LeadingMarksStop(slices: seq<RoundViewSlice>, k: nat, n: nat, num: nat, outW: nat, alignX: nat, outStartAngle: real)
    requires num > 0 && alignX >= 1 && k <= n <= |slices|
    requires |LeadingMarks(slices, k, num, outW, alignX, outStartAngle)| < k
    ensures LeadingMarks(slices, n, num, outW, alignX, outStartAngle) == LeadingMarks(slices, k, num, outW, alignX, outStartAngle)
    decreases n - k
  {
    if n > k {
      LeadingMarksStop(slices, k, n - 1, num, outW, alignX, outStartAngle);
    }
  }

  // ---------------------------------------------------------------------------
  // Overlaps (estimate_overlap)

  /** A right center at column 0 stands for the panorama's right edge. */
  function RightOutCenter(c: nat, outW: nat): (r: nat)
    ensures r == (if c == 0 then outW else c)
  {
    if c == 0 then outW else c
  }

  /** The usable part of the left image: from its center to its right crop. */
  function ValidLeft(slice: RoundViewSlice, center: CenterMark, crop: ImageCropInfo): (r: Rect)
    ensures r.posX == center.sliceCenterX && End(r) == slice.width - crop.right
    ensures r.posY == crop.top && r.posY + r.height == slice.height - crop.bottom
  {
    Rect(center.sliceCenterX, crop.top,
         slice.width - crop.right - center.sliceCenterX, slice.height - crop.top - crop.bottom)
  }

  /** The usable part of the right image: from its left crop to its center. */
  function ValidRight(slice: RoundViewSlice, center: CenterMark, crop: ImageCropInfo): (r: Rect)
    ensures r.posX == crop.left && End(r) == center.sliceCenterX
    ensures r.posY == crop.top && r.posY + r.height == slice.height - crop.bottom
  {
    var w := center.sliceCenterX - crop.left;
    Rect(center.sliceCenterX - w, crop.top, w, slice.height - crop.top - crop.bottom)
  }

  /** Panorama distance between the two centers. */
  function MergeWidth(leftCenter: CenterMark, rightCenter: CenterMark, outW: nat): int
  {
    RightOutCenter(rightCenter.outCenterX, outW) - leftCenter.outCenterX
  }

  /**
   * The overlap of a camera with its right neighbour. The usable parts of the
   * two images, laid from their centers, must cover more than the distance
   * between the centers; the excess is the overlap width. The left overlap is
   * the tail of the left usable part, the right overlap the head of the right
   * one, and the panorama window lies exactly where the left part ends and the
   * right part begins in the panorama.
   */
  function OverlapFor(
    left: RoundViewSlice, right: RoundViewSlice, leftCenter: CenterMark, rightCenter: CenterMark,
    leftCrop: ImageCropInfo, rightCrop: ImageCropInfo, outW: nat): (o: Option<ImageOverlapInfo>)
    ensures var vl, vr := ValidLeft(left, leftCenter, leftCrop), ValidRight(right, rightCenter, rightCrop);
      && (o.None? <==> vl.width + vr.width <= MergeWidth(leftCenter, rightCenter, outW))
      && (o.Some? ==>
            var ov := vl.width + vr.width - MergeWidth(leftCenter, rightCenter, outW);
            && ov > 0
            && o.value.left.width == o.value.right.width == o.value.outArea.width == ov
            && End(o.value.left) == End(vl) && o.value.right.posX == vr.posX
            && End(o.value.outArea) == leftCenter.outCenterX + vl.width
            && o.value.outArea.posX == RightOutCenter(rightCenter.outCenterX, outW) - vr.width
            && o.value.left.posY == vl.posY && o.value.left.height == vl.height
            && o.value.right.posY == vr.posY && o.value.right.height == vr.height)
  {
    var vl, vr := ValidLeft(left, leftCenter, leftCrop), ValidRight(right, rightCenter, rightCrop);
    var mergeWidth := MergeWidth(leftCenter, rightCenter, outW);
    if vl.width + vr.width > mergeWidth then
      var ov := vl.width + vr.width - mergeWidth;
      Some(ImageOverlapInfo(
        Rect(vl.posX + vl.width - ov, vl.posY, ov, vl.height),
        Rect(vr.posX, vr.posY, ov, vr.height),
        Rect(leftCenter.outCenterX + vl.width - ov, vl.posY, ov, vl.height)))
    else None
  }

  // ---------------------------------------------------------------------------
  // Copy areas (update_copy_areas)

  /** The stitcher's arrays, as values. */
  datatype Layout = Layout(
    slices: seq<RoundViewSlice>, crops: seq<ImageCropInfo>,
    marks: seq<CenterMark>, overlaps: seq<ImageOverlapInfo>)

  predicate Covering(l: Layout, num: nat)
  {
    num <= |l.slices| && num <= |l.crops| && num <= |l.marks| && num <= |l.overlaps|
  }

  /** Copied verbatim from camera i: from its center to the start of its overlap with the right neighbour. */
  function LeftCopy(i: nat, mark: CenterMark, overlap: ImageOverlapInfo, crop: ImageCropInfo, slice: RoundViewSlice): (a: CopyArea)
    ensures a.inIdx == i && a.inArea.posX == mark.sliceCenterX && End(a.inArea) == overlap.left.posX
    ensures a.outArea.posX == mark.outCenterX && a.outArea.width == a.inArea.width
    ensures a.inArea.posY == crop.top && a.inArea.posY + a.inArea.height == slice.height - crop.bottom
    ensures a.outArea.posY == 0 && a.outArea.height == a.inArea.height
  {
    var inArea := Rect(mark.sliceCenterX, crop.top, overlap.left.posX - mark.sliceCenterX,
                       slice.height - crop.top - crop.bottom);
    CopyArea(i, inArea, Rect(mark.outCenterX, 0, inArea.width, inArea.height))
  }

  /** Copied verbatim from the right neighbour: from the end of its overlap to its center. */
  function RightCopy(next: nat, mark: CenterMark, overlap: ImageOverlapInfo, crop: ImageCropInfo,
                     slice: RoundViewSlice, outW: nat): (a: CopyArea)
    ensures a.inIdx == next && a.inArea.posX == End(overlap.right) && End(a.inArea) == mark.sliceCenterX
    ensures End(a.outArea) == RightOutCenter(mark.outCenterX, outW) && a.outArea.width == a.inArea.width
    ensures a.inArea.posY == crop.top && a.inArea.posY + a.inArea.height == slice.height - crop.bottom
    ensures a.outArea.posY == 0 && a.outArea.height == a.inArea.height
  {
    var posX := End(overlap.right);
    var inArea := Rect(posX, crop.top, mark.sliceCenterX - posX, slice.height - crop.top - crop.bottom);
    var w := inArea.width;
    CopyArea(next, inArea, Rect(RightOutCenter(mark.outCenterX, outW) - w, 0, w, inArea.height))
  }

  /**
   * Between two neighbouring centers the panorama is tiled without gap or
   * overlap: the left copy area, then the overlap window, then the right copy
   * area; and on each image the copy area meets the overlap exactly.
   */
  lemma PairTilesPanorama(
    left: RoundViewSlice, right: RoundViewSlice, leftCenter: CenterMark, rightCenter: CenterMark,
    leftCrop: ImageCropInfo, rightCrop: ImageCropInfo, outW: nat, i: nat, next: nat)
    requires OverlapFor(left, right, leftCenter, rightCenter, leftCrop, rightCrop, outW).Some?
    ensures var o := OverlapFor(left, right, leftCenter, rightCenter, leftCrop, rightCrop, outW).value;
      var l, r := LeftCopy(i, leftCenter, o, leftCrop, left), RightCopy(next, rightCenter, o, rightCrop, right, outW);
      && l.outArea.posX == leftCenter.outCenterX
      && End(l.outArea) == o.outArea.posX
      && End(o.outArea) == r.outArea.posX
      && End(r.outArea) == RightOutCenter(rightCenter.outCenterX, outW)
      && End(l.inArea) == o.left.posX && End(o.left) == left.width - leftCrop.right
      && r.inArea.posX == End(o.right) && o.right.posX == rightCrop.left
  {
  }

  /** An area, or its two pieces when it runs past the panorama's right edge. */
  function Pieces(a: CopyArea, outW: nat): (r: seq<CopyArea>)
    ensures 1 <= |r| <= 2
  {
    match SplitAreaByOut(a, outW)
    case Split(first, second) => [first, second]
    case NoSplit => [a]
  }

  /** The pieces contributed by camera i: its left copy area, then its neighbour's right copy area. */
  function CameraPieces(l: Layout, num: nat, i: nat, outW: nat): (r: seq<CopyArea>)
    requires Covering(l, num) && i < num
    ensures 2 <= |r| <= 4
  {
    var next := (i + 1) % num;
    Pieces(LeftCopy(i, l.marks[i], l.overlaps[i], l.crops[i], l.slices[i]), outW) +
    Pieces(RightCopy(next, l.marks[next], l.overlaps[i], l.crops[next], l.slices[next], outW), outW)
  }

  /** The temporary area list after the first k cameras. */
  function TmpAreas(l: Layout, num: nat, k: nat, outW: nat): (r: seq<CopyArea>)
    requires Covering(l, num) && k <= num
    ensures 2 * k <= |r| <= 4 * k
  {
    if k == 0 then [] else TmpAreas(l, num, k - 1, outW) + CameraPieces(l, num, k - 1, outW)
  }

  /**
   * The merge loop from index i to end, appending to acc: each area merges
   * with its successor if it can, and the last one is appended alone.
   */
  function MergeRun(acc: seq<CopyArea>, tmp: seq<CopyArea>, i: nat, end: int): seq<CopyArea>
    requires end < |tmp|
    decreases end + 1 - i
  {
    if i > end then acc
    else if i == end then acc + [tmp[i]]
    else match MergeNeighborArea(tmp[i], tmp[i + 1])
      case Some(m) => MergeRun(acc + [m], tmp, i + 2, end)
      case None => MergeRun(acc + [tmp[i]], tmp, i + 1, end)
  }

  /** Where the merge loop starts: after the merge of the last and first areas, when they are contiguous. */
  function MergeHead(tmp: seq<CopyArea>): (h: seq<CopyArea>)
    ensures |h| <= 1
    ensures h != [] <==>
      |tmp| > 2 && tmp[|tmp| - 1].inIdx == tmp[0].inIdx &&
      End(tmp[|tmp| - 1].inArea) == tmp[0].inArea.posX && End(tmp[|tmp| - 1].outArea) == tmp[0].outArea.posX
    ensures h != [] ==>
      && |tmp| > 2
      && h[0].inIdx == tmp[|tmp| - 1].inIdx
      && h[0].inArea.posX == tmp[|tmp| - 1].inArea.posX && End(h[0].inArea) == End(tmp[0].inArea)
      && h[0].outArea.posX == tmp[|tmp| - 1].outArea.posX && End(h[0].outArea) == End(tmp[0].outArea)
  {
    if |tmp| > 2 && MergeNeighborArea(tmp[|tmp| - 1], tmp[0]).Some? then
      [MergeNeighborArea(tmp[|tmp| - 1], tmp[0]).value]
    else []
  }

  /** The areas update_copy_areas appends: last and first merged when contiguous, then the merge loop. */
  function MergeCopyAreas(tmp: seq<CopyArea>): seq<CopyArea>
  {
    if MergeHead(tmp) != [] then MergeRun(MergeHead(tmp), tmp, 1, |tmp| - 2)
    else MergeRun([], tmp, 0, |tmp| - 1)
  }

  function SumInWidths(s: seq<CopyArea>): int
  {
    if s == [] then 0 else s[0].inArea.width + SumInWidths(s[1..])
  }

  lemma {:induction false} SumInWidthsAppend(a: seq<CopyArea>, b: seq<CopyArea>)
    ensures SumInWidths(a + b) == SumInWidths(a) + SumInWidths(b)
  {
    if a != [] {
      assert (a + b)[0] == a[0] && (a + b)[1..] == a[1..] + b;
      SumInWidthsAppend(a[1..], b);
    } else {
      assert a + b == b;
    }
  }

  lemma {:induction false} MergeRunKeepsWidth(acc: seq<CopyArea>, tmp: seq<CopyArea>, i: nat, end: int)
    requires end < |tmp| && i <= end + 1
    ensures SumInWidths(MergeRun(acc, tmp, i, end)) == SumInWidths(acc) + SumInWidths(tmp[i..end + 1])
    decreases end + 1 - i
  {
    if i == end {
      assert tmp[i..end + 1] == [tmp[i]];
      SumInWidthsAppend(acc, [tmp[i]]);
    } else if i < end {
      var rest := tmp[i..end + 1];
      assert rest[0] == tmp[i] && rest[1..] == tmp[i + 1..end + 1];
      match MergeNeighborArea(tmp[i], tmp[i + 1])
      case Some(m) =>
        MergeRunKeepsWidth(acc + [m], tmp, i + 2, end);
        SumInWidthsAppend(acc, [m]);
        assert rest[1..][0] == tmp[i + 1] && rest[1..][1..] == tmp[i + 2..end + 1];
      case None =>
        MergeRunKeepsWidth(acc + [tmp[i]], tmp, i + 1, end);
        SumInWidthsAppend(acc, [tmp[i]]);
    } else {
      assert tmp[i..end + 1] == [];
    }
  }

  /**
   * The merge pass uses every temporary area exactly once: the appended areas
   * copy as many input columns in total as the temporary list.
   */
  lemma MergeKeepsWidth(tmp: seq<CopyArea>)
    ensures SumInWidths(MergeCopyAreas(tmp)) == SumInWidths(tmp)
  {
    var n := |tmp|;
    if MergeHead(tmp) != [] {
      MergeRunKeepsWidth(MergeHead(tmp), tmp, 1, n - 2);
      assert tmp == [tmp[0]] + tmp[1..n - 1] + [tmp[n - 1]];
      SumInWidthsAppend([tmp[0]] + tmp[1..n - 1], [tmp[n - 1]]);
      SumInWidthsAppend([tmp[0]], tmp[1..n - 1]);
    } else {
      MergeRunKeepsWidth([], tmp, 0, n - 1);
      assert tmp[0..n] == tmp;
    }
  }
}
