/**
 * Bookkeeping of the single-camera fisheye calibration tool: the image list,
 * the chessboard object points, the fold of per-image detections into
 * matched samples with the three-image gate, the derived radius and field of
 * view, and the JSON report handed to the surround-view calibration parser.
 *
 * Corner detection, sub-pixel refinement and the fisheye solver are opaque
 * inputs (a detection per path, a solver function); so are glob expansion and
 * the transcendental functions atan and hypot.
 */
module FisheyeCalibration {
  import opened Wrappers
  import PathOrder
  import Arith

  datatype Point2 = Point2(x: real, y: real)
  datatype Point3 = Point3(x: real, y: real, z: real)
  datatype ImageSize = ImageSize(width: nat, height: nat)

  /** What find_corners reports for one image: not found (unreadable, no board) or the refined corners. */
  datatype Detection = NotFound | Found(corners: seq<Point2>, size: ImageSize)

  /** The command line, after argparse. */
  datatype Args = Args(
    images: seq<string>, imageGlobs: seq<string>,
    boardCols: int, boardRows: int, squareSize: real,
    maxIters: int, eps: real, modelId: int, flip: bool, outputJson: string)

  /** Termination criteria shared by corner refinement and the solver: (EPS + MAX_ITER, maxIters, eps). */
  datatype TermCriteria = TermCriteria(maxIters: int, eps: real)

  datatype Row3 = Row3(c0: real, c1: real, c2: real)
  /** The 3x3 camera matrix K returned by the solver. */
  datatype Matrix3 = Matrix3(r0: Row3, r1: Row3, r2: Row3)
  /** The four fisheye distortion coefficients D, in solver order. */
  datatype Distortion = Distortion(k1: real, k2: real, k3: real, k4: real)

  /** What cv2.fisheye.calibrate is given. */
  datatype SolverInput = SolverInput(
    objpoints: seq<seq<Point3>>, imgpoints: seq<seq<Point2>>,
    imageSize: ImageSize, criteria: TermCriteria)

  /** What it returns; a failed solve raises, which ends the script with status 1. */
  datatype Solution = SolveFailed | Solved(rms: real, k: Matrix3, d: Distortion)

  datatype CameraEntry = CameraEntry(
    radius: real, w: nat, h: nat, fx: real, fy: real, cx: real, cy: real, skew: real,
    fov: real, flip: string, d: seq<real>, k: seq<real>, c: seq<real>)

  datatype Info = Info(
    rms: real, numImagesUsed: nat, boardCols: int, boardRows: int, squareSize: real,
    imagePaths: seq<string>)

  /** The JSON document: {"model", "info", "cameras": {"camera": [entry]}}. */
  datatype Report = Report(model: int, info: Info, cameras: seq<CameraEntry>)

  /** How a run ends. */
  datatype Outcome =
    | NoImages                                  // no path resolved
    | BoardError                                // numpy rejects the board size
    | InsufficientData(used: nat)               // fewer than three usable images
    | SolverError(input: SolverInput)           // the solver raised
    | WriteFailed(input: SolverInput, report: Report)  // the report could not be written
    | Written(input: SolverInput, report: Report)

  function ExitStatus(o: Outcome): (status: int)
    ensures status == 0 <==> o.Written?
    ensures status != 0 ==> status == 1
  {
    if o.Written? then 0 else 1
  }

  // ---------------------------------------------------------------------------
  // Image list

  function Concat(xss: seq<seq<string>>): (r: seq<string>)
    ensures forall xs, y :: xs in xss && y in xs ==> y in r
    ensures forall y :: y in r ==> exists xs :: xs in xss && y in xs
  {
    if xss == [] then [] else xss[0] + Concat(xss[1..])
  }

  /**
   * collect_image_paths: the explicit paths plus the matches of every glob
   * pattern (globMatches[k] is glob.glob(patterns[k])), without duplicates, sorted.
   */
  function CollectImagePaths(explicit: seq<string>, globMatches: seq<seq<string>>): (r: seq<string>)
    ensures PathOrder.StrictlySorted(r)
    ensures forall y :: y in r <==> y in explicit || exists xs :: xs in globMatches && y in xs
  {
    PathOrder.SortedUnique(explicit + Concat(globMatches))
  }

  /** No path appears twice in the collected list. */
  lemma CollectedPathsDistinct(explicit: seq<string>, globMatches: seq<seq<string>>)
    ensures var r := CollectImagePaths(explicit, globMatches);
      forall i, j :: 0 <= i < |r| && 0 <= j < |r| && i != j ==> r[i] != r[j]
  {
    PathOrder.SortedDistinct(CollectImagePaths(explicit, globMatches));
  }

  // ---------------------------------------------------------------------------
  // Object points

  /** Position in the flat point list of the corner at column i and row j. */
  function FlatIndex(cols: nat, i: nat, j: nat): nat
  {
    j * cols + i
  }

  /**
   * prepare_object_points: the board's inner corners on the z = 0 plane, row by row;
   * the corner of column i and row j sits at (i * s, j * s, 0).
   */
  function PrepareObjectPoints(cols: nat, rows: nat, squareSize: real): (r: seq<Point3>)
    ensures |r| == cols * rows
    ensures forall k :: 0 <= k < |r| ==> r[k].z == 0.0
    ensures forall i: nat, j: nat :: i < cols && j < rows ==>
      FlatIndex(cols, i, j) < |r| &&
      r[FlatIndex(cols, i, j)] == Point3(i as real * squareSize, j as real * squareSize, 0.0)
  {
    if cols == 0 then []
    else
      var r := seq(cols * rows, k requires 0 <= k => Point3((k % cols) as real * squareSize, (k / cols) as real * squareSize, 0.0));
      assert forall i: nat, j: nat :: i < cols && j < rows ==>
        FlatIndex(cols, i, j) < |r| &&
        r[FlatIndex(cols, i, j)] == Point3(i as real * squareSize, j as real * squareSize, 0.0) by {
        forall i: nat, j: nat | i < cols && j < rows
          ensures FlatIndex(cols, i, j) < |r| &&
            r[FlatIndex(cols, i, j)] == Point3(i as real * squareSize, j as real * squareSize, 0.0)
        {
          GridIndex(i, j, cols, rows);
        }
      }
      r
  }

  /**
   * prepare_object_points raises for these board sizes: numpy refuses a
   * negative point count, and when both sizes are negative the empty grid
   * cannot be broadcast into the non-empty point array.
   */
  predicate BoardRaises(cols: int, rows: int)
  {
    (cols < 0 || rows < 0) && cols * rows != 0
  }

  /**
   * prepare_object_points for the board sizes as given on the command line:
   * None when it raises; a negative size with a zero point count gives no points.
   */
  function ObjectPoints(cols: int, rows: int, squareSize: real): (r: Option<seq<Point3>>)
    ensures r.None? <==> BoardRaises(cols, rows)
    ensures r.Some? && cols >= 0 && rows >= 0 ==> r.value == PrepareObjectPoints(cols, rows, squareSize)
    ensures r.Some? && (cols < 0 || rows < 0) ==> r.value == []
  {
    if BoardRaises(cols, rows) then None
    else if cols < 0 || rows < 0 then Some([])
    else Some(PrepareObjectPoints(cols, rows, squareSize))
  }

  /** Column i and row j are recovered from the flat index of the corner. */
  lemma GridIndex(i: nat, j: nat, cols: nat, rows: nat)
    requires i < cols && j < rows
    ensures FlatIndex(cols, i, j) < cols * rows
    ensures FlatIndex(cols, i, j) % cols == i && FlatIndex(cols, i, j) / cols == j
  {
    Arith.MulMono(j + 1, rows, cols);
    assert (j + 1) * cols == j * cols + cols;
    Arith.DivModUnique(j * cols + i, j, i, cols);
  }

  // ---------------------------------------------------------------------------
  // Usable radius and field of view

  /** The larger of the principal point's offsets to the two ends of an axis. */
  function Reach(len: nat, c: real): (d: real)
    ensures 2.0 * d >= len as real
  {
    Arith.Max(c, len as real - c)
  }

  /** The square of estimate_radius: the sum of the squared reaches on both axes. */
  function RadiusSquared(w: nat, h: nat, cx: real, cy: real): real
  {
    Reach(w, cx) * Reach(w, cx) + Reach(h, cy) * Reach(h, cy)
  }

  /** estimate_radius, with numpy's hypot as an input. */
  function EstimateRadius(w: nat, h: nat, cx: real, cy: real, hypot: (real, real) -> real): real
  {
    hypot(Reach(w, cx), Reach(h, cy))
  }

  /** Squared distance from the principal point (cx, cy) to (x, y). */
  function SqDist(x: real, y: real, cx: real, cy: real): real
  {
    (x - cx) * (x - cx) + (y - cy) * (y - cy)
  }

  /** A non-negative radius whose square is RadiusSquared reaches at least half the image on each axis. */
  lemma RadiusCoversHalfImage(w: nat, h: nat, cx: real, cy: real, radius: real)
    requires radius >= 0.0 && radius * radius == RadiusSquared(w, h, cx, cy)
    ensures 2.0 * radius >= w as real && 2.0 * radius >= h as real
  {
    var dx, dy := Reach(w, cx), Reach(h, cy);
    SquareNonneg(dx);
    SquareNonneg(dy);
    HalfCover(w, cx, radius);
    HalfCover(h, cy, radius);
  }

  /** When the principal point lies in the image, that radius reaches every image corner. */
  lemma RadiusCoversCorners(w: nat, h: nat, cx: real, cy: real, radius: real)
    requires radius * radius == RadiusSquared(w, h, cx, cy)
    requires 0.0 <= cx <= w as real && 0.0 <= cy <= h as real
    ensures forall x, y | (x == 0.0 || x == w as real) && (y == 0.0 || y == h as real) ::
      SqDist(x, y, cx, cy) <= radius * radius
  {
    forall x, y | (x == 0.0 || x == w as real) && (y == 0.0 || y == h as real)
      ensures SqDist(x, y, cx, cy) <= radius * radius
    {
      AxisDistance(w, cx, x);
      AxisDistance(h, cy, y);
      var dx, dy := Reach(w, cx), Reach(h, cy);
      assert SqDist(x, y, cx, cy) == (x - cx) * (x - cx) + (y - cy) * (y - cy);
      assert RadiusSquared(w, h, cx, cy) == dx * dx + dy * dy;
      assert (x - cx) * (x - cx) + (y - cy) * (y - cy) <= dx * dx + dy * dy;
    }
  }

  lemma SquareNonneg(a: real)
    ensures a * a >= 0.0
  {
    if a < 0.0 {
      assert a * a == (-a) * (-a);
    }
  }

  /** Half the extent of one axis is within the larger offset of the principal point. */
  lemma HalfCover(len: nat, c: real, radius: real)
    requires radius >= 0.0 && radius * radius >= Reach(len, c) * Reach(len, c)
    ensures 2.0 * radius >= len as real
  {
    var half := len as real / 2.0;
    SquareMonotone(half, Reach(len, c));
    RootBound(radius, half);
  }

  /** The offset to either end of an axis is within the larger offset. */
  lemma AxisDistance(len: nat, c: real, x: real)
    requires 0.0 <= c <= len as real && (x == 0.0 || x == len as real)
    ensures (x - c) * (x - c) <= Reach(len, c) * Reach(len, c)
  {
    var d := Reach(len, c);
    if x == 0.0 {
      assert (x - c) * (x - c) == c * c;
      SquareMonotone(c, d);
    } else {
      SquareMonotone(len as real - c, d);
    }
  }

  lemma SquareMonotone(a: real, b: real)
    requires 0.0 <= a <= b
    ensures a * a <= b * b
  {
    Arith.RealMulMono(a, b, a);
    Arith.RealMulMono(a, b, b);
  }

  lemma SquareStrict(r: real, t: real)
    requires 0.0 <= r < t
    ensures r * r < t * t
  {
    assert t * t - r * r == (t - r) * t + (t - r) * r;
    assert (t - r) * t > 0.0;
    assert (t - r) * r >= 0.0;
  }

  lemma RootBound(r: real, t: real)
    requires r >= 0.0 && t >= 0.0 && r * r >= t * t
    ensures r >= t
  {
    if r < t {
      SquareStrict(r, t);
    }
  }

  const Pi: real := 3.141592653589793

  function Degrees(radians: real): real
  {
    radians * 180.0 / Pi
  }

  /** Field of view along one axis: 0 for a non-positive focal length, else degrees(2 atan(dim / 2f)). */
  function AxisFov(dim: nat, f: real, atan: real -> real): (fov: real)
    ensures f <= 0.0 ==> fov == 0.0
    ensures f > 0.0 && 0.0 < atan(dim as real / (2.0 * f)) < Pi / 2.0 ==> 0.0 < fov < 180.0
  {
    if f > 0.0 then
      var a := atan(dim as real / (2.0 * f));
      HalfAngleDegrees(a);
      Degrees(2.0 * a)
    else 0.0
  }

  /** An angle in (0, pi/2), doubled, is strictly between 0 and 180 degrees. */
  lemma HalfAngleDegrees(a: real)
    ensures 0.0 < a < Pi / 2.0 ==> 0.0 < Degrees(2.0 * a) < 180.0
  {
    if 0.0 < a < Pi / 2.0 {
      assert Degrees(2.0 * a) == a * (360.0 / Pi);
      assert a * (360.0 / Pi) < (Pi / 2.0) * (360.0 / Pi);
    }
  }

  // ---------------------------------------------------------------------------
  // Accumulation of samples

  /** The positions of the successful detections, in increasing order. */
  function Successes(dets: seq<Detection>): (r: seq<nat>)
    ensures forall k :: 0 <= k < |r| ==> r[k] < |dets| && dets[r[k]].Found?
    ensures forall k, l :: 0 <= k < l < |r| ==> r[k] < r[l]
    ensures forall i :: 0 <= i < |dets| && dets[i].Found? ==> i in r
  {
    if dets == [] then []
    else
      var n := |dets| - 1;
      var r := Successes(dets[..n]);
      assert forall k :: 0 <= k < |r| ==> dets[..n][r[k]] == dets[r[k]];
      if dets[n].Found? then r + [n] else r
  }

  /** The paths whose detection succeeded, in input order: paths taken at the successful positions. */
  function UsedImages(paths: seq<string>, dets: seq<Detection>): (r: seq<string>)
    requires |paths| == |dets|
    ensures |r| == |Successes(dets)|
    ensures forall k :: 0 <= k < |r| ==> r[k] == paths[Successes(dets)[k]]
  {
    if paths == [] then []
    else
      var r := UsedImages(paths[..|paths| - 1], dets[..|dets| - 1]);
      if dets[|dets| - 1].Found? then r + [paths[|paths| - 1]] else r
  }

  /** The refined corners of the successful detections, in input order. */
  function FoundCorners(dets: seq<Detection>): (r: seq<seq<Point2>>)
    ensures |r| == |Successes(dets)|
    ensures forall k :: 0 <= k < |r| ==> r[k] == dets[Successes(dets)[k]].corners
  {
    if dets == [] then []
    else
      var r := FoundCorners(dets[..|dets| - 1]);
      if dets[|dets| - 1].Found? then r + [dets[|dets| - 1].corners] else r
  }

  /** The size of the last successful detection, if any. */
  function LastFoundSize(dets: seq<Detection>): Option<ImageSize>
  {
    if dets == [] then None
    else if dets[|dets| - 1].Found? then Some(dets[|dets| - 1].size)
    else LastFoundSize(dets[..|dets| - 1])
  }

  function CountFound(dets: seq<Detection>): nat
  {
    if dets == [] then 0 else CountFound(dets[..|dets| - 1]) + (if dets[|dets| - 1].Found? then 1 else 0)
  }

  /**
   * The used images are as many as the successes, and a path is used
   * exactly when its detection succeeded.
   */
  lemma UsedImagesAreSuccesses(paths: seq<string>, dets: seq<Detection>)
    requires |paths| == |dets|
    ensures |UsedImages(paths, dets)| == CountFound(dets) == |FoundCorners(dets)|
    ensures forall p :: p in UsedImages(paths, dets) ==>
      exists i :: 0 <= i < |paths| && paths[i] == p && dets[i].Found?
    ensures forall i :: 0 <= i < |paths| && dets[i].Found? ==> paths[i] in UsedImages(paths, dets)
  {
    UsedImagesCount(paths, dets);
    UsedImagesComplete(paths, dets);
  }

  lemma UsedImagesComplete(paths: seq<string>, dets: seq<Detection>)
    requires |paths| == |dets|
    ensures forall i :: 0 <= i < |paths| && dets[i].Found? ==> paths[i] in UsedImages(paths, dets)
  {
    var r, s := UsedImages(paths, dets), Successes(dets);
    forall i | 0 <= i < |paths| && dets[i].Found?
      ensures paths[i] in r
    {
      assert i in s;
      var k :| 0 <= k < |s| && s[k] == i;
      assert r[k] == paths[i];
    }
  }

  /** The counting part of UsedImagesAreSuccesses. */
  lemma UsedImagesCount(paths: seq<string>, dets: seq<Detection>)
    requires |paths| == |dets|
    ensures |UsedImages(paths, dets)| == CountFound(dets) == |FoundCorners(dets)|
    ensures forall p :: p in UsedImages(paths, dets) ==>
      exists i :: 0 <= i < |paths| && paths[i] == p && dets[i].Found?
  {
    SuccessesCount(dets);
    var r, succ := UsedImages(paths, dets), Successes(dets);
    forall p | p in r
      ensures exists i :: 0 <= i < |paths| && paths[i] == p && dets[i].Found?
    {
      var k :| 0 <= k < |r| && r[k] == p;
      assert paths[succ[k]] == p && dets[succ[k]].Found?;
    }
  }

  /** There are as many successful positions as successful detections. */
  lemma {:induction false} SuccessesCount(dets: seq<Detection>)
    ensures |Successes(dets)| == CountFound(dets)
  {
    if dets != [] {
      SuccessesCount(dets[..|dets| - 1]);
    }
  }

  /** image_size stays None exactly when no image was used, so the gate's None test adds nothing to its count test. */
  lemma {:induction false} SizeKnownIffSomeUsed(dets: seq<Detection>)
    ensures LastFoundSize(dets).None? <==> CountFound(dets) == 0
  {
    if dets != [] {
      SizeKnownIffSomeUsed(dets[..|dets| - 1]);
    }
  }

  /**
   * The loop of main over the sorted paths: each successful detection appends
   * a copy of the object points, its corners and its path, and makes its size
   * the image size (no check against earlier sizes).
   */
  method Accumulate(paths: seq<string>, dets: seq<Detection>, objp: seq<Point3>)
    returns (objpoints: seq<seq<Point3>>, imgpoints: seq<seq<Point2>>, usedImages: seq<string>, imageSize: Option<ImageSize>)
    requires |paths| == |dets|
    ensures |objpoints| == |imgpoints| == |usedImages|
    ensures forall k :: 0 <= k < |objpoints| ==> objpoints[k] == objp
    ensures imgpoints == FoundCorners(dets)
    ensures usedImages == UsedImages(paths, dets)
    ensures imageSize == LastFoundSize(dets)
  {
    objpoints, imgpoints, usedImages, imageSize := [], [], [], None;
    var i := 0;
    while i < |paths|
      invariant 0 <= i <= |paths|
      invariant |objpoints| == |imgpoints| == |usedImages|
      invariant forall k :: 0 <= k < |objpoints| ==> objpoints[k] == objp
      invariant imgpoints == FoundCorners(dets[..i])
      invariant usedImages == UsedImages(paths[..i], dets[..i])
      invariant imageSize == LastFoundSize(dets[..i])
    {
      assert paths[..i + 1][..i] == paths[..i] && dets[..i + 1][..i] == dets[..i];
      if dets[i].Found? {
        objpoints := objpoints + [objp];
        imgpoints := imgpoints + [dets[i].corners];
        usedImages := usedImages + [paths[i]];
        imageSize := Some(dets[i].size);
      }
      i := i + 1;
    }
    assert paths[..i] == paths && dets[..i] == dets;
  }

  // ---------------------------------------------------------------------------
  // Report

  /** The entry of K at row i and column j. */
  function Entry(k: Matrix3, i: nat, j: nat): real
    requires i < 3 && j < 3
  {
    var row := if i == 0 then k.r0 else if i == 1 then k.r1 else k.r2;
    if j == 0 then row.c0 else if j == 1 then row.c1 else row.c2
  }

  /** K flattened row-major, as numpy's flatten() emits it: entry (i, j) at position 3i + j. */
  function FlattenK(k: Matrix3): (r: seq<real>)
    ensures |r| == 9
    ensures forall i: nat, j: nat :: i < 3 && j < 3 ==> r[3 * i + j] == Entry(k, i, j)
  {
    [k.r0.c0, k.r0.c1, k.r0.c2, k.r1.c0, k.r1.c1, k.r1.c2, k.r2.c0, k.r2.c1, k.r2.c2]
  }

  /** How a reader of the report rebuilds K from the nine numbers. */
  function UnflattenK(r: seq<real>): Matrix3
    requires |r| == 9
  {
    Matrix3(Row3(r[0], r[1], r[2]), Row3(r[3], r[4], r[5]), Row3(r[6], r[7], r[8]))
  }

  /** The written K reads back as the solver's K. */
  lemma FlattenKRoundTrip(k: Matrix3)
    ensures UnflattenK(FlattenK(k)) == k
  {
    var r := FlattenK(k);
    assert r[0] == Entry(k, 0, 0) && r[1] == Entry(k, 0, 1) && r[2] == Entry(k, 0, 2);
    assert r[3] == Entry(k, 1, 0) && r[4] == Entry(k, 1, 1) && r[5] == Entry(k, 1, 2);
    assert r[6] == Entry(k, 2, 0) && r[7] == Entry(k, 2, 1) && r[8] == Entry(k, 2, 2);
  }

  /** D flattened: the coefficients k1 .. k4 in solver order. */
  function FlattenD(d: Distortion): (r: seq<real>)
    ensures |r| == 4
    ensures r[0] == d.k1 && r[1] == d.k2 && r[2] == d.k3 && r[3] == d.k4
  {
    [d.k1, d.k2, d.k3, d.k4]
  }

  /** The flip flag is written as a string for the downstream parser. */
  function FlipString(flip: bool): (s: string)
    ensures s == "true" <==> flip
    ensures s == "false" <==> !flip
  {
    if flip then "true" else "false"
  }

  /** The camera entry and the document main writes after a successful solve. */
  function BuildReport(
    args: Args, used: seq<string>, size: ImageSize, rms: real, k: Matrix3, d: Distortion,
    atan: real -> real, hypot: (real, real) -> real): (r: Report)
    ensures r.model == args.modelId && |r.cameras| == 1
    ensures r.info.numImagesUsed == |r.info.imagePaths| == |used| && r.info.imagePaths == used
    ensures r.info.rms == rms && r.info.boardCols == args.boardCols && r.info.boardRows == args.boardRows
    ensures r.info.squareSize == args.squareSize
    ensures var e := r.cameras[0];
      && e.w == size.width && e.h == size.height
      && e.k == FlattenK(k) && e.d == FlattenD(d)
      && e.fx == Entry(k, 0, 0) && e.fy == Entry(k, 1, 1) && e.cx == Entry(k, 0, 2) && e.cy == Entry(k, 1, 2)
      && e.skew == Entry(k, 0, 1)
      && e.k[0] == e.fx && e.k[1] == e.skew && e.k[2] == e.cx && e.k[4] == e.fy && e.k[5] == e.cy
      && e.c == [1.0, 0.0, 0.0]
      && (e.flip == "true" <==> args.flip) && (e.flip == "false" <==> !args.flip)
      && e.fov >= AxisFov(size.width, e.fx, atan) && e.fov >= AxisFov(size.height, e.fy, atan)
      && (e.fov == AxisFov(size.width, e.fx, atan) || e.fov == AxisFov(size.height, e.fy, atan))
      && e.radius == EstimateRadius(size.width, size.height, e.cx, e.cy, hypot)
  {
    var fx, fy, cx, cy, skew := k.r0.c0, k.r1.c1, k.r0.c2, k.r1.c2, k.r0.c1;
    var entry := CameraEntry(
      EstimateRadius(size.width, size.height, cx, cy, hypot), size.width, size.height,
      fx, fy, cx, cy, skew,
      Arith.Max(AxisFov(size.width, fx, atan), AxisFov(size.height, fy, atan)),
      FlipString(args.flip), FlattenD(d), FlattenK(k), [1.0, 0.0, 0.0]);
    Report(args.modelId,
      Info(rms, |used|, args.boardCols, args.boardRows, args.squareSize, used),
      [entry])
  }

  // ---------------------------------------------------------------------------
  // main

  /**
   * main, with glob expansion, detection, the solver, the report writer and
   * the transcendental functions as inputs. globMatches[k] is what glob.glob
   * returns for the k-th --image-glob pattern; detect is find_corners for the
   * given board size and criteria; writeOk says whether creating the output
   * directory and writing the JSON file succeed (when they raise, the script
   * ends with status 1).
   */
  method CalibrateMain(
    args: Args, globMatches: seq<seq<string>>, detect: string -> Detection,
    solve: SolverInput -> Solution, writeOk: bool, atan: real -> real, hypot: (real, real) -> real)
    returns (status: int, outcome: Outcome)
    requires |globMatches| == |args.imageGlobs|
    ensures status == ExitStatus(outcome)
    ensures var paths := CollectImagePaths(args.images, globMatches);
      var dets := seq(|paths|, i requires 0 <= i < |paths| => detect(paths[i]));
      var board := BoardRaises(args.boardCols, args.boardRows);
      && (outcome.NoImages? <==> paths == [])
      && (outcome.BoardError? <==> paths != [] && board)
      && (outcome.InsufficientData? <==> paths != [] && !board && CountFound(dets) < 3)
      && (outcome.SolverError? || outcome.WriteFailed? || outcome.Written? ==>
            && paths != [] && !board && CountFound(dets) >= 3
            && outcome.input.objpoints ==
                 seq(CountFound(dets), _ => ObjectPoints(args.boardCols, args.boardRows, args.squareSize).value)
            && outcome.input.imgpoints == FoundCorners(dets)
            && Some(outcome.input.imageSize) == LastFoundSize(dets)
            && outcome.input.criteria == TermCriteria(args.maxIters, args.eps))
      && (outcome.SolverError? <==>
            paths != [] && !board && CountFound(dets) >= 3 && solve(outcome.input).SolveFailed?)
      && (outcome.WriteFailed? || outcome.Written? ==>
            var sol := solve(outcome.input);
            sol.Solved? &&
            outcome.report == BuildReport(args, UsedImages(paths, dets), outcome.input.imageSize,
                                          sol.rms, sol.k, sol.d, atan, hypot))
      && (outcome.WriteFailed? ==> !writeOk)
      && (outcome.Written? ==> writeOk)
  {
    var paths := CollectImagePaths(args.images, globMatches);
    if paths == [] {
      return 1, NoImages;
    }
    var objpOpt := ObjectPoints(args.boardCols, args.boardRows, args.squareSize);
    if objpOpt.None? {
      return 1, BoardError;
    }
    var objp := objpOpt.value;
    var dets := seq(|paths|, i requires 0 <= i < |paths| => detect(paths[i]));
    var objpoints, imgpoints, usedImages, imageSize := Accumulate(paths, dets, objp);
    UsedImagesCount(paths, dets);
    SizeKnownIffSomeUsed(dets);
    if |objpoints| < 3 || imageSize.None? {
      return 1, InsufficientData(|objpoints|);
    }
    assert objpoints == seq(CountFound(dets), _ => objp);
    var input := SolverInput(objpoints, imgpoints, imageSize.value, TermCriteria(args.maxIters, args.eps));
    var sol := solve(input);
    if sol.SolveFailed? {
      return 1, SolverError(input);
    }
    var report := BuildReport(args, usedImages, imageSize.value, sol.rms, sol.k, sol.d, atan, hypot);
    if !writeOk {
      return 1, WriteFailed(input, report);
    }
    return 0, Written(input, report);
  }
}
