/**
 * Copy areas of the stitcher: a run of input columns of one camera copied
 * verbatim to a run of columns of the panorama, and the two helpers that
 * merge contiguous areas and split an area that runs past the panorama's
 * right edge. Coordinates are unbounded integers (int32 in the source).
 */
module StitchAreas {
  import opened Wrappers
  import Arith

  datatype Rect = Rect(posX: int, posY: int, width: int, height: int)

  /** in_idx is the camera, inArea its source columns, outArea the panorama columns. */
  datatype CopyArea = CopyArea(inIdx: int, inArea: Rect, outArea: Rect)

  /** Column x lies in the horizontal extent of r. */
  predicate Covers(r: Rect, x: int)
  {
    r.posX <= x < r.posX + r.width
  }

  function End(r: Rect): int
  {
    r.posX + r.width
  }

  /** The horizontal part of the area's input-to-output mapping: output column minus input column. */
  function Shift(a: CopyArea): int
  {
    a.outArea.posX - a.inArea.posX
  }

  /**
   * merge_neighbor_area: two areas of the same camera that are contiguous in
   * both the input and the panorama merge into one spanning both; otherwise None.
   */
  function MergeNeighborArea(current: CopyArea, next: CopyArea): (merged: Option<CopyArea>)
    ensures merged.Some? <==>
      current.inIdx == next.inIdx &&
      End(current.inArea) == next.inArea.posX && End(current.outArea) == next.outArea.posX
  {
    if current.inIdx == next.inIdx &&
       End(current.inArea) == next.inArea.posX &&
       End(current.outArea) == next.outArea.posX
    then
      Some(current.(
        inArea := current.inArea.(width := current.inArea.width + next.inArea.width),
        outArea := current.outArea.(width := current.outArea.width + next.outArea.width)))
    else None
  }

  /** The merge starts where the first area starts and ends where the second ends, in the input and in the panorama. */
  lemma MergeSpansBoth(current: CopyArea, next: CopyArea)
    requires MergeNeighborArea(current, next).Some?
    ensures var m := MergeNeighborArea(current, next).value;
      && m.inIdx == current.inIdx
      && m.inArea.posX == current.inArea.posX && End(m.inArea) == End(next.inArea)
      && m.outArea.posX == current.outArea.posX && End(m.outArea) == End(next.outArea)
      && m.inArea.posY == current.inArea.posY && m.inArea.height == current.inArea.height
      && m.outArea.posY == current.outArea.posY && m.outArea.height == current.outArea.height
  {
  }

  /**
   * A merge covers exactly the columns of its two parts, and when the first
   * part copies column for column the merge keeps the shift of both parts.
   */
  lemma MergeCoversBoth(current: CopyArea, next: CopyArea)
    requires MergeNeighborArea(current, next).Some?
    requires current.inArea.width >= 0 && next.inArea.width >= 0
    requires current.inArea.width == current.outArea.width
    ensures var m := MergeNeighborArea(current, next).value;
      && (forall x :: Covers(m.inArea, x) <==> Covers(current.inArea, x) || Covers(next.inArea, x))
      && Shift(m) == Shift(current) == Shift(next)
      && (m.inArea.width == m.outArea.width <==> next.inArea.width == next.outArea.width)
  {
  }

  datatype Split = NoSplit | Split(first: CopyArea, second: CopyArea)

  /**
   * split_area_by_out: an area whose panorama columns run past roundWidth is
   * cut at the edge; the first piece ends at the edge, the second restarts at
   * column 0 and takes the remaining input columns.
   */
  function SplitAreaByOut(area: CopyArea, roundWidth: int): (r: Split)
    ensures r.Split? <==> End(area.outArea) > roundWidth
    ensures r.Split? ==>
      var a, b := r.first, r.second;
      && End(a.outArea) == roundWidth && a.inArea.width == a.outArea.width
      && a.inArea.posX == area.inArea.posX && a.outArea.posX == area.outArea.posX
      && b.outArea.posX == 0 && b.outArea.width == b.inArea.width
      && b.inArea.posX == End(a.inArea)
      && a.inArea.width + b.inArea.width == area.inArea.width
      && a.inIdx == b.inIdx == area.inIdx
      && a.inArea.posY == b.inArea.posY == area.inArea.posY
      && a.inArea.height == b.inArea.height == area.inArea.height
      && a.outArea.posY == b.outArea.posY == area.outArea.posY
      && a.outArea.height == b.outArea.height == area.outArea.height
  {
    if End(area.outArea) > roundWidth then
      var w := roundWidth - area.outArea.posX;
      var a := area.(inArea := area.inArea.(width := w), outArea := area.outArea.(width := w));
      var bw := area.inArea.width - w;
      var b := area.(inArea := area.inArea.(posX := area.inArea.posX + w, width := bw),
                     outArea := area.outArea.(posX := 0, width := bw));
      Split(a, b)
    else NoSplit
  }

  /** The area conditions split_area_by_out asserts on entry and at its exits. */
  predicate SplitReady(area: CopyArea, roundWidth: int)
  {
    && 0 <= area.outArea.posX < roundWidth
    && 0 < area.outArea.width < roundWidth
    && area.inArea.width == area.outArea.width
  }

  /**
   * For an area meeting those conditions, the pieces are non-empty, the second
   * is as wide as the overrun (the source's check at the split), and every input
   * column lands in exactly one piece at the panorama column the whole area
   * sends it to, wrapped around roundWidth.
   */
  lemma SplitWrapsAround(area: CopyArea, roundWidth: int)
    requires SplitReady(area, roundWidth)
    ensures var r := SplitAreaByOut(area, roundWidth);
      r.Split? ==>
        && r.first.inArea.width > 0 && r.second.inArea.width > 0
        && r.second.outArea.width == End(area.outArea) - roundWidth
        && forall x :: Covers(area.inArea, x) ==>
             var o := (x + Shift(area)) % roundWidth;
             && (Covers(r.first.inArea, x) <==> !Covers(r.second.inArea, x))
             && (Covers(r.first.inArea, x) ==> x + Shift(r.first) == o)
             && (Covers(r.second.inArea, x) ==> x + Shift(r.second) == o)
    ensures SplitAreaByOut(area, roundWidth).NoSplit? ==>
      forall x :: Covers(area.inArea, x) ==> x + Shift(area) == (x + Shift(area)) % roundWidth
  {
    var r := SplitAreaByOut(area, roundWidth);
    forall x | Covers(area.inArea, x)
      ensures var v := x + Shift(area);
        0 <= v < 2 * roundWidth && v % roundWidth == if v < roundWidth then v else v - roundWidth
    {
      ModOnce(x + Shift(area), roundWidth);
    }
  }

  /** Reduction modulo n of a value below 2n subtracts n at most once. */
  lemma ModOnce(v: int, n: int)
    requires 0 <= v < 2 * n
    ensures v % n == if v < n then v else v - n
  {
    if v < n {
      Arith.DivModUnique(v, 0, v, n);
    } else {
      Arith.DivModUnique(v, 1, v - n, n);
    }
  }
}
