# libxcam surround-view core, modelled in Dafny

This project models the bookkeeping and layout logic of libxcam's
surround-view stack, together with the tools around it:

- **Fisheye intrinsic calibration** (`FisheyeCalibration`,
  `tools/calibrate_fisheye_intrinsics.py`). It collects the image list as
  `sorted(set(...))` and lays out the chessboard object points. It folds the
  per-image corner detections into matched samples and applies the
  three-image gate. It also covers the radius and field-of-view estimates and
  the JSON report with its exit status.
- **The Stitcher base class** (`StitcherBase`, `StitchLayout`, `StitchAreas`,
  `xcore/interface/stitcher.cpp`). The class keeps per-camera arrays of
  capacity `MaxCameras`, plus the "already done" flags that order the layout
  steps. The steps are:
  - round-view slices
  - coarse crops
  - center marks
  - overlap windows
  - copy areas, with the merge and split of neighbouring areas

  It also models the frame counter that decides when feature matching settles.
- **The surround-view test program** (`SurroundViewTest`,
  `SurroundViewOptions`, `tests/test-surround-view.cpp`):
  - `combine_name`
  - the output configuration
  - the stream list and derived outputs
  - `write_image`'s frame counter
  - `stable_stitch`
  - the option switch of `main`
  - the argument checks after it
- **The parameter tables** (`SurroundViewParams`, `tests/test_sv_params.h`):
  - ROI radii
  - view ranges
  - feature-match regions
  - the bowl model derived from camera positions
  - the scopic selection of calibration entries
- **The OSG camera manipulator** (`CameraManipulator`,
  `modules/render/render_osg_camera_manipulator.cpp`). A class with the
  fields angle, look-at offset, height and eye scale, plus its key and mouse
  handlers.
- **The two ffmpeg wrappers** (`JpgToNv12`, `Nv12ToJpg`,
  `tools/convert_jpg_to_nv12.py`, `tools/convert_nv12_to_jpg.py`). They
  cover size probing, output naming, command construction, and the
  skip/success rules of the batch conversion.

Shared helpers:

- `Text`: decimal formatting and parsing (`str()`, `int()`, `atoi`),
  `split`, `strip`, `strrchr`, ASCII case folding and path parts.
- `PathOrder`: Python's string order and `sorted(set(...))`.
- `XCamUtils`: library macros whose definitions are not part of this model.
  They are declared with an assumed contract:
  - `XCAM_ALIGN_UP`: the least multiple of the alignment not below the value.
  - `XCAM_ALIGN_AROUND`: the nearest multiple, with halves rounding up.
  - `format_angle`: one ±360 correction.
  - `XCAM_DOUBLE_EQUAL_AROUND`: within 1e-6.
  - `XCAM_STITCH_MAX_CAMERAS` = `XCAM_STITCH_FISHEYE_MAX_NUM` = 6.
  - `XCAM_TEST_MAX_STR_SIZE` = 1024.

Assumptions that apply throughout:

- Single- and double-precision floats are modelled as reals.
- Integers are unbounded unless a wrap-around is written out.
- The file system, external processes, OpenCV and the transcendental
  functions are parameters of the model.
- `XCAM_ASSERT` is taken as compiled out.

Where the help text of `tools/convert_nv12_to_jpg.py` (line 89) disagrees
with its code about the single-image default name, the model follows the
code: `<stem>_<w>x<h>.jpg`.

## Model

| member | source | states |
|---|---|---|
| FisheyeCalibration.ExitStatus | tools/calibrate_fisheye_intrinsics.py:130-228 | the script exits with 0 exactly when the report was written, and with 1 on every other path |
| FisheyeCalibration.Concat | tools/calibrate_fisheye_intrinsics.py:82-83 | the extended list holds exactly the elements of the glob results |
| FisheyeCalibration.CollectImagePaths | tools/calibrate_fisheye_intrinsics.py:78-85 | the result is strictly sorted, and a path is in it exactly when it is an explicit path or a match of some pattern |
| FisheyeCalibration.CollectedPathsDistinct | tools/calibrate_fisheye_intrinsics.py:84 | sorted(set(...)) has no duplicate |
| FisheyeCalibration.PrepareObjectPoints | tools/calibrate_fisheye_intrinsics.py:88-92 | cols·rows points, all with z = 0; the corner of column i and row j is (i·s, j·s, 0) at flat index j·cols + i |
| FisheyeCalibration.ObjectPoints | tools/calibrate_fisheye_intrinsics.py:88-92 | prepare_object_points raises exactly when a dimension is negative and the product is not zero; for non-negative dimensions it gives the board points, and a negative dimension with a zero product gives no points (see also line 143) |
| FisheyeCalibration.GridIndex | tools/calibrate_fisheye_intrinsics.py:90 | the transposed mgrid order is row-major: the flat index is in range and gives back column (index mod cols) and row (index div cols) |
| FisheyeCalibration.Reach | tools/calibrate_fisheye_intrinsics.py:125-126 | the larger offset of the principal point along an axis is at least half that axis |
| FisheyeCalibration.RadiusCoversHalfImage | tools/calibrate_fisheye_intrinsics.py:124-127 | the estimated radius is at least half the width and half the height |
| FisheyeCalibration.RadiusCoversCorners | tools/calibrate_fisheye_intrinsics.py:124-127 | with the principal point inside the image, every image corner lies within the estimated radius of it |
| FisheyeCalibration.AxisFov | tools/calibrate_fisheye_intrinsics.py:184-185 | a non-positive focal length gives a field of view of 0; a positive one whose half-angle atan(dim / 2f) lies strictly between 0 and π/2 gives a field of view strictly between 0 and 180 degrees |
| FisheyeCalibration.HalfAngleDegrees | tools/calibrate_fisheye_intrinsics.py:184-185 | twice an angle strictly between 0 and π/2, in degrees, lies strictly between 0 and 180 |
| FisheyeCalibration.UsedImages | tools/calibrate_fisheye_intrinsics.py:149-155 | the used images are the paths at the successful positions, one per success, in input order |
| FisheyeCalibration.Successes | tools/calibrate_fisheye_intrinsics.py:149-152 | the successful positions are valid indices whose detection succeeded, strictly increasing, and include every index whose detection succeeded |
| FisheyeCalibration.FoundCorners | tools/calibrate_fisheye_intrinsics.py:149-154 | the corner sets handed to the solver are those of the successful detections, one per success, in input order |
| FisheyeCalibration.UsedImagesCount | tools/calibrate_fisheye_intrinsics.py:149-155 | as many used images as successful detections and corner sets, and each used image is a path whose detection succeeded |
| FisheyeCalibration.SuccessesCount | tools/calibrate_fisheye_intrinsics.py:149-158 | the successful positions number exactly the successful detections that the three-image gate counts |
| FisheyeCalibration.UsedImagesComplete | tools/calibrate_fisheye_intrinsics.py:149-155 | every path whose detection succeeded is among the used images |
| FisheyeCalibration.UsedImagesAreSuccesses | tools/calibrate_fisheye_intrinsics.py:149-155 | as many used images as successful detections and corner sets; a path is used exactly when its detection succeeded (both directions) |
| FisheyeCalibration.SizeKnownIffSomeUsed | tools/calibrate_fisheye_intrinsics.py:147-158 | image_size stays None exactly when no image was used |
| FisheyeCalibration.Accumulate | tools/calibrate_fisheye_intrinsics.py:144-156 | the loop's three lists have equal length; every object-point entry is a copy of the board points; the corners, used paths and image size are those of the successful detections in order (the size of the last one) |
| FisheyeCalibration.FlattenK | tools/calibrate_fisheye_intrinsics.py:199 | K is flattened row-major: nine values, the entry of row i and column j at index 3i + j |
| FisheyeCalibration.FlattenKRoundTrip | tools/calibrate_fisheye_intrinsics.py:199 | reading the nine flattened values back row by row gives K again, so the "K" list loses nothing |
| FisheyeCalibration.FlattenD | tools/calibrate_fisheye_intrinsics.py:198 | D gives four values, k1, k2, k3 and k4 in that order |
| FisheyeCalibration.FlipString | tools/calibrate_fisheye_intrinsics.py:197 | the flag is written "true" exactly when flipped and "false" exactly when not |
| FisheyeCalibration.BuildReport | tools/calibrate_fisheye_intrinsics.py:177-216 | one camera entry whose "K" and "D" are the flattened solver K and D, with fx = K[0][0], fy = K[1][1], cx = K[0][2], cy = K[1][2] and skew = K[0][1]; the fov is the larger of the two axis fields of view; the info lists exactly the used images with their count, the rms, the board size and the square size |
| FisheyeCalibration.CalibrateMain | tools/calibrate_fisheye_intrinsics.py:130-224 | no images gives NoImages; a board size numpy rejects gives BoardError; fewer than three successful detections gives InsufficientData; otherwise the solver gets one copy of the board points per success, the corners, the last size and the criteria; a solver failure gives SolverError; a solved run builds the report and gives WriteFailed when writing fails and Written when it succeeds; the status is 0 only for Written |
| CameraManipulator.OffsetStaysBounded | modules/render/render_osg_camera_manipulator.cpp:86-98 | rotate keeps the look-at offset within ±π/4 |
| CameraManipulator.TurnOnlyWhenSaturated | modules/render/render_osg_camera_manipulator.cpp:86-98 | the camera turns around the scene only when the offset already sits at its limit in the direction of the turn, and then the offset stays; otherwise only the offset moves, in the sign of delta |
| CameraManipulator.AngleStaysInRange | modules/render/render_osg_camera_manipulator.cpp:99-103 | from an angle in [0, 2π], a turn of at most a full circle stays in [0, 2π] after the single correction |
| CameraManipulator.WrapIsFullTurn | modules/render/render_osg_camera_manipulator.cpp:99-103 | the correction changes the angle by exactly one full circle or not at all, and not at all inside [0, 2π] |
| CameraManipulator.HeightStaysBounded | modules/render/render_osg_camera_manipulator.cpp:107-115 | modifyHeight keeps the height within [0.6, 4.0]; a positive delta never lowers it and any other delta never raises it |
| CameraManipulator.HeightExactInside | modules/render/render_osg_camera_manipulator.cpp:107-115 | inside the limits the height moves by exactly delta |
| CameraManipulator.WheelDelta | modules/render/render_osg_camera_manipulator.cpp:165-174 | scrolling down or right asks for +0.1, up or left for −0.1, any other motion for nothing, each in both directions |
| CameraManipulator.Manipulator.constructor | modules/render/render_osg_camera_manipulator.cpp:25-50 | angle π, offset 0, height 1.6, eye scale 1, and the invariant holds |
| CameraManipulator.Manipulator.Home | modules/render/render_osg_camera_manipulator.cpp:74-80 | angle π, offset 0 and eye scale 1; the height is kept |
| CameraManipulator.Manipulator.Rotate | modules/render/render_osg_camera_manipulator.cpp:83-104 | the new offset and angle are those of the rotate rule; height and scale are unchanged; the invariant is kept; the angle stays in [0, 2π] for a turn of at most a full circle |
| CameraManipulator.Manipulator.ModifyHeight | modules/render/render_osg_camera_manipulator.cpp:107-115 | the new height is the clamped one; nothing else changes; the invariant is kept |
| CameraManipulator.Manipulator.HandleKeyDown | modules/render/render_osg_camera_manipulator.cpp:138-158 | Space goes home, Left and Right rotate by ∓0.1 and ±0.1, other keys change nothing; the event is handled exactly for those three keys |
| CameraManipulator.Manipulator.HandleMouseWheel | modules/render/render_osg_camera_manipulator.cpp:160-177 | the wheel rotates by its WheelDelta and is handled exactly for the four directions; the height never changes |
| CameraManipulator.Manipulator.PerformMovementLeftMouseButton | modules/render/render_osg_camera_manipulator.cpp:179-188 | a drag rotates by −2·dx and changes the height by −dy, within the limits; it is always handled |
| CameraManipulator.Manipulator.EyeZ | modules/render/render_osg_camera_manipulator.cpp:124-125 | the eye's z coordinate is the height, within [0.6, 4.0] |
| CameraManipulator.Manipulator.LookAtZ | modules/render/render_osg_camera_manipulator.cpp:135 | the point looked at is above the ground and below the eye |
| CameraManipulator.Manipulator.IndentFactor | modules/render/render_osg_camera_manipulator.cpp:121 | the eye's ellipse is scaled by a factor in [0.9, 1]: 1 at the lowest height, 0.9 at the highest |
| StitchAreas.MergeNeighborArea | xcore/interface/stitcher.cpp:44-62 | two areas merge exactly when they belong to the same camera and the second starts where the first ends, both in the input image and in the panorama |
| StitchAreas.MergeSpansBoth | xcore/interface/stitcher.cpp:44-62 | a merged area keeps the first area's camera and start, ends where the second ends (input and panorama), and keeps the first's vertical extent |
| StitchAreas.MergeCoversBoth | xcore/interface/stitcher.cpp:44-62 | a merged area covers exactly the input columns of its two parts, and the input-to-panorama shift of the parts is kept |
| StitchAreas.SplitAreaByOut | xcore/interface/stitcher.cpp:65-88 | an area is split exactly when its panorama columns run past the round width; the first piece ends at that edge, the second restarts at panorama column 0 where the first piece's input ends, and the input widths add up to the original |
| StitchAreas.SplitWrapsAround | xcore/interface/stitcher.cpp:65-88 | under the conditions the function asserts, both pieces are non-empty, the second is as wide as the overrun, and every input column is copied by exactly one piece to its panorama column taken modulo the round width |
| StitchLayout.AwayFromEdges | xcore/interface/stitcher.cpp:400-401 | a column within constraint_margin of either panorama edge becomes 0, any other column is kept |
| StitchLayout.Share | xcore/interface/stitcher.cpp:391 | a camera's unaligned slice width is its angle range's fraction of 360 degrees of the panorama width, and is non-negative for a non-negative range |
| StitchLayout.SliceStartColumn | xcore/interface/stitcher.cpp:396-401 | a slice starts at column 0 or at an aligned column more than the margin away from both edges |
| StitchLayout.SliceStartAngle | xcore/interface/stitcher.cpp:402-404 | the start angle of a column inside the panorama lies in [0, 360), and column 0 gives angle 0 |
| StitchLayout.SliceAngleRange | xcore/interface/stitcher.cpp:394 | the slice's angle range is its aligned width's fraction of 360 degrees |
| StitchLayout.RoundSlice | xcore/interface/stitcher.cpp:387-407 | a slice's width is a multiple of the alignment, at least the unaligned width and less than one alignment step above it; its height is the output height; its range is the angle the aligned width spans; its start is in [0, 360) and is 0 when the start column was forced to 0 |
| StitchLayout.OutCenterColumn | xcore/interface/stitcher.cpp:450-455 | camera i's panorama center is i/num of the way round from the output start angle, and is 0 or more than the margin away from both edges |
| StitchLayout.CenterMarkFacts | xcore/interface/stitcher.cpp:457-475 | a center mark exists exactly when the center angle falls inside the slice's angle range; it records the panorama center and an aligned slice column |
| StitchLayout.LeadingMarks | xcore/interface/stitcher.cpp:447-476 | the marks written for the first k cameras number at most k |
| StitchLayout.LeadingMarksAreCenters | xcore/interface/stitcher.cpp:447-476 | each written mark is its camera's center mark, and the first camera without a mark is the one whose center falls outside its slice |
| StitchLayout.LeadingMarksStop | xcore/interface/stitcher.cpp:462-466 | after the first camera whose center is missing, no later camera adds a mark |
| StitchLayout.RightOutCenter | xcore/interface/stitcher.cpp:547-549 | a right panorama center of 0 stands for the output width |
| StitchLayout.ValidLeft | xcore/interface/stitcher.cpp:551-555 | the usable left image runs from its slice center to its right crop, between its top and bottom crops |
| StitchLayout.ValidRight | xcore/interface/stitcher.cpp:557-560 | the usable right image runs from its left crop to its slice center, between its top and bottom crops |
| StitchLayout.OverlapFor | xcore/interface/stitcher.cpp:547-589 | a pair of cameras fails exactly when the usable widths sum to at most the distance between the panorama centers; otherwise the overlap width is the excess, all three rects have that width, the left overlap ends where the usable left image ends, the right overlap starts where the usable right image starts, and the panorama window sits where the left part ends and the right part begins |
| StitchLayout.LeftCopy | xcore/interface/stitcher.cpp:672-686 | a camera's left copy area runs from its slice center to its left overlap, at its panorama center, column for column |
| StitchLayout.RightCopy | xcore/interface/stitcher.cpp:695-711 | the neighbour's right copy area runs from the end of its overlap to its slice center, and ends in the panorama at its center (0 read as the output width), column for column |
| StitchLayout.PairTilesPanorama | xcore/interface/stitcher.cpp:547-589 | between two neighbouring centers the panorama is tiled with no gap and no double cover: left copy area, overlap window, right copy area; and on each image the copy area meets the overlap (see also lines 672-711) |
| StitchLayout.Pieces | xcore/interface/stitcher.cpp:688-693 | each copy area adds itself or its two split pieces to the temporary list |
| StitchLayout.CameraPieces | xcore/interface/stitcher.cpp:667-719 | each camera adds two to four temporary areas |
| StitchLayout.TmpAreas | xcore/interface/stitcher.cpp:667-719 | after k cameras the temporary list holds between 2k and 4k areas |
| StitchLayout.MergeHead | xcore/interface/stitcher.cpp:722-733 | at most one area is appended before the merge loop, and one is appended exactly when there are more than two temporary areas and the last one continues into the first in the same input (same index, both input and output ends meet); it then runs from the last area's start to the first area's end in the input and in the output |
| StitchLayout.MergeKeepsWidth | xcore/interface/stitcher.cpp:722-754 | the merge pass uses every temporary area exactly once: the appended areas copy as many input columns in total as the temporary list holds |
| StitcherBase.StitchPathStep | xcore/interface/stitcher.cpp:202-217 | once the counter is past frames + 1 nothing changes; otherwise the output is complete unless matching runs first and is still warming up, matching is needed in whole-way status or while warming up, and the counter goes up by one |
| StitcherBase.StitchPathWarmup | xcore/interface/stitcher.cpp:202-217 | over the first `frames` calls from a new stitcher, matching runs whenever a mode is set, and the output is held back only in FM-first status (see also lines 91-118) |
| StitcherBase.StitchPathSettles | xcore/interface/stitcher.cpp:202-217 | from call frames + 1 on, the counter stays at frames + 2, the output is always complete, and matching goes on only in whole-way status (see also lines 91-118) |
| StitcherBase.Stitcher.constructor | xcore/interface/stitcher.cpp:91-118 | a new stitcher has no cameras, no step done, no feature-match mode, a frame counter of 1 and 100 warm-up frames |
| StitcherBase.Stitcher.CurrentLayout | xcore/interface/stitcher.cpp:91-118 | the per-camera arrays hold an entry for every camera |
| StitcherBase.Stitcher.SetCameraNum | xcore/interface/stitcher.cpp:138-147 | a count above MAX_CAMERAS is refused and leaves the old count; any other count is stored |
| StitcherBase.Stitcher.SetCameraInfo | xcore/interface/stitcher.cpp:150-159 | an index at or past the camera count is refused with nothing written; otherwise only that entry changes |
| StitcherBase.Stitcher.SetCropInfo | xcore/interface/stitcher.cpp:162-172 | as for camera info, and only a successful call marks the crops as set |
| StitcherBase.Stitcher.GetCropInfo | xcore/interface/stitcher.cpp:175-184 | reads succeed exactly below the camera count and give the stored crop |
| StitcherBase.Stitcher.GetCameraInfo | xcore/interface/stitcher.cpp:245-254 | reads succeed exactly below MAX_CAMERAS, not the camera count, and give the stored entry |
| StitcherBase.Stitcher.SetViewpointsRange | xcore/interface/stitcher.cpp:257-269 | refused while the camera count is 0; otherwise exactly the first camera-count angle ranges are copied |
| StitcherBase.Stitcher.SetFMRegionRatio | xcore/interface/stitcher.cpp:187-199 | the ratio is stored whether or not it passes the range check |
| StitcherBase.Stitcher.EnsureStitchPath | xcore/interface/stitcher.cpp:202-217 | one call moves the counter and the two flags by exactly one StitchPathStep and reports success |
| StitcherBase.Stitcher.EstimateRoundSlices | xcore/interface/stitcher.cpp:355-413 | a second call succeeds and changes nothing; without cameras it fails with ERROR_PARAM and changes nothing; otherwise each camera gets its RoundSlice and its info is replaced by the slice's start and range, other entries untouched |
| StitcherBase.Stitcher.EstimateCoarseCrops | xcore/interface/stitcher.cpp:416-434 | crops already set are kept; without cameras or slices it fails with ERROR_ORDER; otherwise every camera's crop becomes zero |
| StitcherBase.Stitcher.Marks | xcore/interface/stitcher.cpp:437-479 | the marks mark_centers writes number at most the camera count |
| StitcherBase.Stitcher.MarkCenters | xcore/interface/stitcher.cpp:437-479 | a second call succeeds and changes nothing; without cameras or slices it fails with ERROR_ORDER; otherwise it succeeds exactly when every camera has a center mark, fails with ERROR_PARAM otherwise, leaves the marks written before the failure, and sets the flag only on success |
| StitcherBase.Stitcher.WriteMarks | xcore/interface/stitcher.cpp:447-476 | the loop writes the leading marks camera by camera, leaves later entries untouched and reports whether every camera got one |
| StitcherBase.Stitcher.EstimateOverlap | xcore/interface/stitcher.cpp:510-653 | a second call succeeds and changes nothing; without slices, crops and marks it fails with ERROR_ORDER; otherwise it succeeds exactly when every neighbouring pair overlaps, fails with ERROR_UNKNOWN otherwise, writes the overlaps of the pairs before the first failure, and sets the flag only on success |
| StitcherBase.Stitcher.UpdateCopyAreas | xcore/interface/stitcher.cpp:656-757 | with fewer than two cameras or a step missing it fails with ERROR_ORDER and leaves the list; otherwise it appends the merged copy areas of all cameras to the list and never clears it |
| StitcherBase.Stitcher.CollectTmpAreas | xcore/interface/stitcher.cpp:667-719 | the first loop builds, camera by camera, each left copy area and the neighbour's right copy area, split at the panorama edge |
| StitcherBase.Stitcher.MergeAreas | xcore/interface/stitcher.cpp:721-754 | the merge loop appends exactly the areas MergeCopyAreas describes: the last and first merged when contiguous, then each area merged with its successor when it can be |
| SurroundViewParams.RoiRadiusTable | tests/test_sv_params.h:61-156 | the radii written per model and scopic mode never exceed the six fisheye slots |
| SurroundViewParams.GetFisheyeImgRoiRadius | tests/test_sv_params.h:61-156 | the caller's array is returned; its leading entries become the model's radii and the rest is untouched, so an unsupported model or mode writes nothing |
| SurroundViewParams.ViewpointsTable | tests/test_sv_params.h:268-325 | the ranges written per model never exceed the six fisheye slots |
| SurroundViewParams.ViewpointsRange | tests/test_sv_params.h:268-325 | the caller's array is returned; its leading entries become the model's view ranges (CamB4C1080P: 110, 140, 110, 140) and the rest is untouched |
| SurroundViewParams.ViewpointsCoverRound | tests/test_sv_params.h:268-325 | every model has at least two cameras, each range lies strictly between 0 and 360 degrees, and together they exceed 360 degrees, so neighbouring slices can overlap |
| SurroundViewParams.RoiMatchesViewpoints | tests/test_sv_params.h:61-156 | where a model has ROI radii it has one per camera of its view-range table; CamB4C1080P has none (see also lines 268-325) |
| SurroundViewParams.FmRegionRatioFor | tests/test_sv_params.h:329-383 | every model other than CamB4C1080P gets the region at x 0 with full width and the middle third in height, which passes set_fm_region_ratio's check; CamB4C1080P keeps the default ratio (see also xcore/interface/stitcher.cpp:187-199) |
| SurroundViewParams.RigIndex | tests/test_sv_params.h:238-241 | a side camera is camera `side` when there are more cameras than that index, and camera 0 otherwise |
| SurroundViewParams.MeanZ | tests/test_sv_params.h:219-224 | the center height times the camera count is the sum of the camera heights |
| SurroundViewParams.CalBowlConfig | tests/test_sv_params.h:212-263 | a null position array or a non-positive camera count returns the default bowl; otherwise the height-summing loop yields exactly the bowl BowlFor derives |
| SurroundViewParams.BowlCenterIsMean | tests/test_sv_params.h:219-229 | the center height is the mean camera height, lies between the lowest and the highest camera, the bowl spans 0 to 360 degrees and c is twice the center height |
| SurroundViewParams.MeanBetween | tests/test_sv_params.h:219-224 | the mean camera height lies between any lower and upper bound of the heights |
| SurroundViewParams.SumZBounds | tests/test_sv_params.h:219-221 | the summed heights of n cameras lie between n times a lower and n times an upper bound |
| SurroundViewParams.BowlFlatKeepsDefaults | tests/test_sv_params.h:228-231 | when the mean height is zero, c is zero and a, b, the wall height and the ground length keep their defaults |
| SurroundViewParams.BowlRaised | tests/test_sv_params.h:224-258 | otherwise c is twice the mean height and non-zero, and the wall is as high as c |
| SurroundViewParams.WithAxesFacts | tests/test_sv_params.h:233-258 | a and b are set from the rig's half length and half width plus the view scopes only when sqrt(2)·r is non-zero, the wall height is twice the center height, the ground length is r·b minus the half width, and the center, c and angles are kept |
| SurroundViewParams.RigIndexFallback | tests/test_sv_params.h:238-245 | one camera gives a zero half length and half width; four or more give them from cameras 0, 2 and 1, 3 |
| SurroundViewParams.SlotCount | tests/test_sv_params.h:490-525 | a scopic mode fills at most the six fisheye slots |
| SurroundViewParams.GetFisheyeInfo | tests/test_sv_params.h:479-532 | without JSON support it returns BYPASS and writes nothing; a failed parse returns its code and writes nothing; otherwise each slot of the mode takes intrinsic, extrinsic and distortion from its source entry (the camera model only in mono mode) and the other slots are untouched |
| SurroundViewParams.StereoSourcesPartition | tests/test_sv_params.h:490-525 | the left eye reads the even entries 0, 2, 4, the right eye the odd entries 1, 3, 5, together each of the six exactly once, and mono mode reads entry i into slot i |
| SurroundViewTest.Truncate | tests/test-surround-view.cpp:263-265 | snprintf into a TEST_MAX_STR_SIZE buffer keeps the whole text when it fits and otherwise exactly its first TEST_MAX_STR_SIZE - 1 characters |
| SurroundViewTest.CombineNameShape | tests/test-surround-view.cpp:255-266 | with or without a '/' in the original name, the result is a prefix of the original's directory part, the tag, '_' and the original's file name: all of it when it fits, otherwise exactly TEST_MAX_STR_SIZE - 1 characters |
| SurroundViewTest.CombineNameSameDirectory | tests/test-surround-view.cpp:255-266 | when the name fits and the tag holds no '/', the new name lies in the original's directory and its file name is the tag, '_' and the original file name |
| SurroundViewTest.IsSaveIffWrites | tests/test-surround-view.cpp:75-77 | is_save holds exactly when write_image writes something; each write carries the current frame number, and each view is remapped from the stitched output right before it is written (see also lines 447-474) |
| SurroundViewTest.DefaultSavesStitchOnly | tests/test-surround-view.cpp:65-77 | the default configuration saves, and writes only the stitched output (see also lines 447-474) |
| SurroundViewTest.FrameNumberAfter | tests/test-surround-view.cpp:452 | the static frame counter always fits in a uint32 (see also line 473) |
| SurroundViewTest.FrameNumberAfterWraps | tests/test-surround-view.cpp:452 | after n calls the counter is n modulo 2^32 (see also line 473) |
| SurroundViewTest.FrameWriter.constructor | tests/test-surround-view.cpp:452 | the counter starts at 0 with nothing written |
| SurroundViewTest.FrameWriter.WriteImage | tests/test-surround-view.cpp:447-474 | one call records exactly the writes and remaps of its configuration for the current frame number, and advances the counter by exactly one (uint32) |
| SurroundViewTest.SVStreams.constructor | tests/test-surround-view.cpp:185-189 | each stream named on the command line becomes a stream of that name with size 0 (see also lines 796-800) |
| SurroundViewTest.SVStreams.AddStream | tests/test-surround-view.cpp:270-279 | exactly one stream is appended, named combine_name of the first stream's name and the tag, with the given size; existing streams are unchanged |
| SurroundViewTest.SVStreams.AddViewOutputs | tests/test-surround-view.cpp:1218-1245 | the top-view stream and then the cubemap stream are appended only when they are saved, and each saved view's index is the position its stream was appended at; the rest of the configuration is kept |
| SurroundViewTest.ViewIndicesDistinct | tests/test-surround-view.cpp:1218-1245 | after the derived outputs are added, every saved view's index names a stream of its own, distinct from the stitched output's, so write_image's stream accesses are in range (see also lines 447-474) |
| SurroundViewTest.StableMeansComplete | tests/test-surround-view.cpp:477-484 | when stable_stitch holds, the stitcher's next step produces a complete stitch (see also xcore/interface/stitcher.cpp:202-217) |
| SurroundViewTest.StableOnceSettled | tests/test-surround-view.cpp:477-484 | from frame frames + 1 on, every stitcher is stable (see also xcore/interface/stitcher.cpp:202-217) |
| SurroundViewTest.StableDuringWarmup | tests/test-surround-view.cpp:477-484 | during the warm-up frames a stitcher is stable exactly when it has no feature match or a whole-way one (see also xcore/interface/stitcher.cpp:202-217) |
| SurroundViewOptions.Keyword | tests/test-surround-view.cpp:772-783 | a strcasecmp chain picks the position of one of its keywords, or none |
| SurroundViewOptions.KeywordFirstMatch | tests/test-surround-view.cpp:772-783 | the chain picks the first keyword equal to the argument ignoring case, and picks none exactly when no keyword matches (see also lines 906-918) |
| SurroundViewOptions.U32Arg | tests/test-surround-view.cpp:837-838 | atoi assigned to a uint32_t variable is always below 2^32 |
| SurroundViewOptions.Choose | tests/test-surround-view.cpp:772-783 | a keyword option gets a value exactly when its argument equals some keyword ignoring case, and then the value of the first such keyword (see also lines 906-918) |
| SurroundViewOptions.ChooseOwnName | tests/test-surround-view.cpp:772-783 | with keywords distinct ignoring case, each keyword selects its own value (see also lines 906-918) |
| SurroundViewOptions.FmModeNames | tests/test-surround-view.cpp:906-918 | "none", "default", "cluster" and "capi" select the four feature-match modes |
| SurroundViewOptions.StoreOption | tests/test-surround-view.cpp:770-978 | every option other than --input, --output, --fisheye-num and --help is either rejected or assigns one plain setting |
| SurroundViewOptions.DecodeOptionShape | tests/test-surround-view.cpp:770-978 | only --input and --output add names, --help alone means help, and an accepted --fisheye-num is at most the fisheye maximum |
| SurroundViewOptions.ApplyFrame | tests/test-surround-view.cpp:770-978 | an assignment grows the inputs or outputs only by its own name, changes the fisheye number only for --fisheye-num, and never changes the stitched output's index |
| SurroundViewOptions.ApplyOptionOutcome | tests/test-surround-view.cpp:770-978 | one option leaves main only with 0 (help) or -1 (bad value); otherwise only --input and --output append, and the fisheye number stays within the maximum |
| SurroundViewOptions.ParseOptions | tests/test-surround-view.cpp:683-978 | main's option loop from its initial variable values gives exactly what applying the options in turn gives, stopping at the first exit |
| SurroundViewOptions.RunOptionsExit | tests/test-surround-view.cpp:770-978 | the option loop leaves only with 0 or -1; when it runs through, the fisheye number is within the maximum and the stitched index is unchanged |
| SurroundViewOptions.RunOptionsArgs | tests/test-surround-view.cpp:770-978 | when the loop runs through, the inputs and outputs are the --input and --output arguments, in order |
| SurroundViewOptions.MainAccepts | tests/test-surround-view.cpp:980-999 | a run that passes the checks has no stray arguments, at most the fisheye maximum of fisheyes, one input or one per fisheye, all named, and exactly one named output; every other run exits with 0 or -1 |
| SurroundViewOptions.LowerString | tests/test-surround-view.cpp:787 | lower-casing keeps the length, lowers each ASCII capital, keeps every other character and leaves no capital behind (see also lines 956-962) |
| SurroundViewOptions.LowerStringEqualsIgnoreCase | tests/test-surround-view.cpp:787 | two texts match ignoring case exactly when their lower-cased forms are equal, so strcasecmp and the lower-cased comparison agree |
| SurroundViewOptions.FlagOptions | tests/test-surround-view.cpp:787 | --dma, --save, --save-topview and --save-cubemap give false exactly for "false" in any case, true for any other text (see also lines 956-962) |
| SurroundViewOptions.FisheyeNumOption | tests/test-surround-view.cpp:837-843 | --fisheye-num with a number from 0 to the maximum sets it; a larger number, or a negative one that wraps above the maximum, ends main with -1 |
| SurroundViewOptions.DecodeFisheyeNum | tests/test-surround-view.cpp:837-843 | --fisheye-num is accepted exactly when atoi of its argument, as uint32, is at most the maximum |
| SurroundViewOptions.U32ArgOfIntToString | tests/test-surround-view.cpp:837-838 | atoi of a decimal number, stored in a uint32, is that number modulo 2^32 |
| SurroundViewOptions.NoOptions | tests/test-surround-view.cpp:683-729 | without options the configuration is main's initial values, and main exits with -1 (see also lines 980-985) |
| JpgToNv12.ProbeArgs | tools/convert_jpg_to_nv12.py:26-37 | ffprobe is asked for the first video stream's size, with the source path last |
| JpgToNv12.SizeText | tools/convert_jpg_to_nv12.py:116 | the "<width>x<height>" text has at least three characters |
| JpgToNv12.IntToStringPlain | tools/convert_jpg_to_nv12.py:47-54 | a printed integer holds no 'x' and no '/' and neither starts nor ends with white space (see also line 116) |
| JpgToNv12.ImageSizeRoundTrip | tools/convert_jpg_to_nv12.py:47-57 | size parsing reads "<w>x<h>", with or without a trailing newline, back as the same width and height |
| JpgToNv12.StrippedSizeParses | tools/convert_jpg_to_nv12.py:47-57 | any output that strips to "<w>x<h>" parses as that size |
| JpgToNv12.NoSizeWithoutOutput | tools/convert_jpg_to_nv12.py:38-50 | a failed ffprobe run or an output that is empty after stripping gives no size |
| JpgToNv12.NoSizeWithoutOneSeparator | tools/convert_jpg_to_nv12.py:52-57 | an output that does not split on 'x' into exactly two parts gives no size |
| JpgToNv12.OutPathShape | tools/convert_jpg_to_nv12.py:115-117 | the output lies in the image's directory and is named "<stem>_<width>x<height>.nv12" |
| JpgToNv12.NameNoSlash | tools/convert_jpg_to_nv12.py:116 | a name built from a stem and a size without '/' holds no '/' |
| JpgToNv12.SizeTextNoSlash | tools/convert_jpg_to_nv12.py:116 | the size text holds no '/' |
| JpgToNv12.FfmpegArgs | tools/convert_jpg_to_nv12.py:62-74 | the ffmpeg command has eleven elements, starts with "ffmpeg" and ends with the output path |
| JpgToNv12.FfmpegArgsShape | tools/convert_jpg_to_nv12.py:62-74 | the command says "-y" exactly when overwriting and "-n" otherwise, reads the source after "-i" and writes raw NV12 |
| JpgToNv12.Gathered | tools/convert_jpg_to_nv12.py:92-99 | the pattern loop gathers exactly the paths some pattern matches |
| JpgToNv12.WorkList | tools/convert_jpg_to_nv12.py:92-105 | the work list is sorted without duplicates and holds exactly the paths matched by *.jpg, *.jpeg, *.JPG or *.JPEG, by rglob when recursive and by glob otherwise |
| JpgToNv12.StepShape | tools/convert_jpg_to_nv12.py:110-125 | an image fails exactly when its size cannot be probed; an existing output is skipped, with no ffmpeg run, only when overwriting is off; otherwise the image is converted into its output path |
| JpgToNv12.AllOkSnoc | tools/convert_jpg_to_nv12.py:108-127 | success after one more image is success so far and that image's success |
| JpgToNv12.ConversionsSnoc | tools/convert_jpg_to_nv12.py:108-125 | one more image adds its ffmpeg command, if it has one, at the end |
| JpgToNv12.ConversionsOfSteps | tools/convert_jpg_to_nv12.py:108-125 | every ffmpeg command run belongs to one image's conversion, every conversion is run, and there are no more commands than images |
| JpgToNv12.GatherImages | tools/convert_jpg_to_nv12.py:93-99 | the pattern loop's list is what Gathered describes |
| JpgToNv12.ConvertImages | tools/convert_jpg_to_nv12.py:108-125 | the image loop runs exactly the conversions of the steps, in order, and ends with success exactly when no probe and no ffmpeg run failed (a skip is no failure) |
| JpgToNv12.ConvertImage | tools/convert_jpg_to_nv12.py:110-125 | one image runs the ffmpeg command of its step, if it is a conversion, and succeeds exactly when its step does |
| JpgToNv12.ConvertDirectory | tools/convert_jpg_to_nv12.py:87-127 | a non-directory gives 1 with no command run; no JPEG found gives 0; otherwise the images of the work list are handled in order and the status is 0 exactly when no probe and no ffmpeg run failed |
| Nv12ToJpg.FfmpegArgs | tools/convert_nv12_to_jpg.py:33-51 | the command has 15 elements for one frame and 13 otherwise, starts with "ffmpeg", reads the source and ends with the output path |
| Nv12ToJpg.FfmpegArgsShape | tools/convert_nv12_to_jpg.py:33-49 | the command says "-y" exactly when overwriting and "-n" otherwise, reads raw NV12 of "<w>x<h>" after "-video_size", and a single-frame run limits the frames to one |
| Nv12ToJpg.FramesFlagIffSingle | tools/convert_nv12_to_jpg.py:33-51 | unless a path itself reads "-frames:v", that flag is in the command exactly for a single-frame run |
| Nv12ToJpg.VideoSizeReadsBack | tools/convert_nv12_to_jpg.py:42-43 | the -video_size text reads back as the same width and height |
| Nv12ToJpg.DefaultSuffixNoSlash | tools/convert_nv12_to_jpg.py:123-126 | a default name's suffix holds no '/' |
| Nv12ToJpg.OutputPathPlace | tools/convert_nv12_to_jpg.py:119-126 | a non-empty --output is used as given; otherwise the output lies in the source's directory and is named after the source's stem and a default suffix |
| Nv12ToJpg.DefaultOutputName | tools/convert_nv12_to_jpg.py:121-126 | the default name is "<stem>_<w>x<h>.jpg" for one frame and "<stem>_%05d.jpg" for all frames |
| Nv12ToJpg.PathParts | tools/convert_nv12_to_jpg.py:124-126 | a directory prefix followed by a name without '/' splits back into that directory and that name |
| Nv12ToJpg.Main | tools/convert_nv12_to_jpg.py:106-141 | a source that is not a file or a non-positive size returns 1 before any ffmpeg run; otherwise ffmpeg converts the resolved source into the chosen output, and the status is 0 exactly when ffmpeg succeeds |
| Text.IntToString | tools/convert_jpg_to_nv12.py:116 | a printed integer is non-empty and starts with '-' exactly when it is negative (see also tools/convert_nv12_to_jpg.py:43) |
| Text.DigitsOfNatToString | tools/convert_jpg_to_nv12.py:116 | the digits printed for a natural number read back as that number |
| Text.IntToStringChars | tools/convert_jpg_to_nv12.py:116 | a printed integer is an optional '-' followed by digits, and ends with a digit (see also tools/convert_nv12_to_jpg.py:43) |
| Text.NatToString | tools/convert_jpg_to_nv12.py:116 | a printed natural number is a non-empty run of digits without a leading zero unless it is a single digit (see also tools/convert_nv12_to_jpg.py:43) |
| Text.StripLeft | tools/convert_jpg_to_nv12.py:47 | removing leading white space leaves a suffix that does not start with white space |
| Text.StripRight | tools/convert_jpg_to_nv12.py:47 | removing trailing white space leaves a prefix that does not end with white space |
| Text.Strip | tools/convert_jpg_to_nv12.py:47 | str.strip leaves a text that neither starts nor ends with white space |
| Text.StripNoSpace | tools/convert_jpg_to_nv12.py:47 | a text without white space at either end is kept by str.strip |
| Text.StripLine | tools/convert_jpg_to_nv12.py:47 | str.strip removes the newline ffprobe ends its output with |
| Text.ParseIntToString | tools/convert_jpg_to_nv12.py:54 | int() reads a printed integer back as that integer |
| Text.Split | tools/convert_jpg_to_nv12.py:53 | str.split on one character gives at least one part, none holding the separator |
| Text.SplitJoin | tools/convert_jpg_to_nv12.py:53 | two separator-free texts joined by the separator split back into those two |
| Text.SplitNoSep | tools/convert_jpg_to_nv12.py:53 | a text without the separator splits into itself alone |
| Text.SkipCSpace | tests/test-surround-view.cpp:838 | atoi skips exactly the leading C white space |
| Text.DigitPrefix | tests/test-surround-view.cpp:838 | atoi reads the longest run of digits at the start |
| Text.AtoiDigits | tests/test-surround-view.cpp:838 | atoi of digits followed by a non-digit is the digits' value |
| Text.AtoiNegDigits | tests/test-surround-view.cpp:838 | atoi of '-' and digits followed by a non-digit is minus the digits' value |
| Text.AtoiIntToString | tests/test-surround-view.cpp:838 | atoi reads a printed integer, followed by anything but a digit, back as that integer |
| Text.AtoiNoNumber | tests/test-surround-view.cpp:838 | atoi of a text without a number after the white space is 0 |
| Text.AtoiUnsigned | tests/test-surround-view.cpp:838 | atoi of a text starting with a digit is the value of its leading digits |
| Text.AtoiMinus | tests/test-surround-view.cpp:838 | atoi of a text starting with '-' is minus the value of the digits after it |
| Text.LastIndexOf | tests/test-surround-view.cpp:257 | strrchr finds a position holding the character with none after it, and finds none exactly when the character is absent |
| Text.LastIndexOfUnique | tests/test-surround-view.cpp:257 | an occurrence with none after it is the one strrchr finds |
| Text.AsciiLower | tests/test-surround-view.cpp:773 | strcasecmp folds exactly the ASCII capitals to lower case (see also line 787) |
| Text.DirPart | tests/test-surround-view.cpp:257-263 | a path's directory part is the prefix up to and including its last '/', or empty (see also tools/convert_jpg_to_nv12.py:117) |
| Text.BasePart | tests/test-surround-view.cpp:263 | a path's file name holds no '/' and, after the directory part, makes up the whole path (see also tools/convert_jpg_to_nv12.py:116-117) |
| Text.DirPartAppend | tools/convert_jpg_to_nv12.py:117 | a name without '/' appended to a directory prefix keeps that directory (see also tools/convert_nv12_to_jpg.py:124-126) |
| Text.Stem | tools/convert_jpg_to_nv12.py:116 | a stem is a prefix of the file name; when it is shorter, a '.' follows it, it is non-empty, the suffix after that '.' is non-empty and holds no further '.' (see also tools/convert_nv12_to_jpg.py:122) |
| Text.StemNoSlash | tools/convert_jpg_to_nv12.py:116 | a file name without '/' has a stem without '/' (see also tools/convert_nv12_to_jpg.py:122) |
| XCamUtils.ToU32 | tests/test-surround-view.cpp:837-838 | storing a C int in a uint32_t gives the value modulo 2^32, and a value in range unchanged (see also line 452, line 473) |
| XCamUtils.AlignUp | xcore/interface/stitcher.cpp:392 | XCAM_ALIGN_UP, as assumed: the least multiple of the alignment not below the value |
| XCamUtils.AlignAround | xcore/interface/stitcher.cpp:397 | XCAM_ALIGN_AROUND, as assumed: the multiple of the alignment nearest the value, halves rounding up (see also line 459, line 470) |
| XCamUtils.FormatAngle | xcore/interface/stitcher.cpp:396 | format_angle, as assumed: an angle within one turn of [0, 360) is brought into [0, 360), and one already there is kept (see also line 402, line 452, line 460, line 463) |
| XCamUtils.TruncToNat | xcore/interface/stitcher.cpp:391 | a float stored in an unsigned integer is truncated toward zero (see also line 396, line 452, line 469) |
| XCamUtils.Div | xcore/interface/stitcher.cpp:394 | a float division by a non-zero divisor is exact (see also line 402, line 459, line 469) |
| PathOrder.LessIrreflexive | tools/calibrate_fisheye_intrinsics.py:84 | no string sorts before itself (see also tools/convert_jpg_to_nv12.py:105) |
| PathOrder.LessTransitive | tools/calibrate_fisheye_intrinsics.py:84 | string order is transitive (see also tools/convert_jpg_to_nv12.py:105) |
| PathOrder.LessTotal | tools/calibrate_fisheye_intrinsics.py:84 | of two different strings one sorts first (see also tools/convert_jpg_to_nv12.py:105) |
| PathOrder.LessAsymmetric | tools/calibrate_fisheye_intrinsics.py:84 | two strings never both sort before each other (see also tools/convert_jpg_to_nv12.py:105) |
| PathOrder.Insert | tools/calibrate_fisheye_intrinsics.py:84 | inserting into a strictly sorted list keeps it strictly sorted and adds exactly the new element (see also tools/convert_jpg_to_nv12.py:105) |
| PathOrder.SortedUnique | tools/calibrate_fisheye_intrinsics.py:84 | sorted(set(xs)) is strictly sorted and holds exactly the elements of xs (see also tools/convert_jpg_to_nv12.py:105) |
| PathOrder.SortedDistinct | tools/calibrate_fisheye_intrinsics.py:84 | a strictly sorted list has no duplicates (see also tools/convert_jpg_to_nv12.py:105) |
| PathOrder.SortedUniqueDetermined | tools/calibrate_fisheye_intrinsics.py:84 | two strictly sorted lists with the same elements are equal, so sorted(set(xs)) depends only on the elements of xs (see also tools/convert_jpg_to_nv12.py:105) |
| PathOrder.TailMember | tools/convert_jpg_to_nv12.py:105 | the rest of a strictly sorted list holds every element but the first |
| PathOrder.EmptyIffNoMember | tools/convert_jpg_to_nv12.py:101-103 | a list is empty exactly when nothing is in it |

## Left out

- OpenCV (`imread`, `findChessboardCorners`, `cornerSubPix`, `fisheye.calibrate`) is a foreign numerical library. Its results are inputs: one detection per path and a solver result.
- `glob.glob`, `rglob`, `Path.exists`, `Path.resolve` and `subprocess.run` of ffmpeg and ffprobe are file-system and process effects. Their outcomes are parameters.
- FisheyeCalibration.CalibrateMain: `os.makedirs`, `open` and `json.dump` are reduced to one parameter, whether writing the report succeeds (`writeOk`). A failure there is an uncaught exception in Python and is modelled as `WriteFailed` with status 1. The JSON text itself is not modelled, only the report value it is made from.
- `atan`, `hypot` and `sqrtf` are transcendental and enter as function parameters.
- SurroundViewParams.GroundCoefficient: with c = 2·center_z the coefficient is `sqrtf(0.75)` (tests/test_sv_params.h:229-235). Its value is not computed, because `sqrtf` is a parameter; only its use is modelled.
- Floating-point rounding is not modelled, since floats are reals. A float-to-unsigned conversion truncates toward zero (`XCamUtils.TruncToNat`).
- XCamUtils.TruncToNat: a negative value maps to 0. In C that conversion is undefined behaviour.
- XCamUtils.Div: a zero divisor gives 0, where the float division would give an infinity or NaN.
- StitcherBase: the uint32/int32 wrap-around of pixel columns is not modelled; columns are unbounded integers.
- The wrap of `atoi` into `uint32_t` for `--fisheye-num` is modelled (`XCamUtils.ToU32`). Overflow inside `atoi` itself is undefined behaviour in C and is not modelled.
- NUL characters inside C strings are not modelled; strings are sequences of characters.
- Stitcher `set_overlap_info` and `get_overlap_info` sit under `#if 0` in the source and are not compiled, so they are not modelled.
- Stitcher `init_camera_info` is not modelled. It reads environment variables and parses calibration files through `CalibrationParser`, which is not part of this model.
- Stitcher `BowlModel`, `CubeMapModel`, `normalize`, `world_to_erp` and `get_cubemap_world_pos` are float-heavy geometry and are not modelled.
- `set_bowl_config` and `set_intrinsic_names`/`set_extrinsic_names` are plain stores of their arguments and are not modelled.
- JSON parsing inside `get_fisheye_info` is not modelled. Whether JSON support is compiled in is a parameter.
- SurroundViewParams.GetFisheyeInfo: requires the camera model's index to be below the length of the calibration file-name table when JSON support is on. The source would read past that table for the last model.
- SurroundViewParams: the numbering of `CamModel` comes from `stitcher.h`, which is not part of this model. It is assumed to follow the order the tables use.
- The test program's GPU, DMA and buffer plumbing is I/O and is not modelled. This covers:
  - EGL/GLES/Vulkan setup
  - `convert_to_dma_buffer`
  - buffer pools
  - the `single_frame` and `multi_frame` loops
  - `getopt_long` itself (the options it returns are the input)
  - `printf`, logging and usage text
  - image dumps
- `write_image`'s remapping and file writing (`write_in_image`, `remap_buf`, `estimate_file_format`, `open_writer`) are I/O. The model records which outputs are written and advances the counter.
- SurroundViewOptions: `CHECK_EXP` failures are taken to end `main` with -1. The macro is defined in a header that is not part of this model.
- SurroundViewTest: the topview and cubemap stream indices start at 0, where the source leaves them uninitialised until the outputs are added.
- `tests/test-renderer-smoke.cpp` only builds a scene, renders one frame and writes a file, so it is not modelled.
- CameraManipulator: the cos/sin x and y components of the eye and look-at positions and the `lookAt`/inverse matrices are float geometry. Only their z components are modelled.
- CameraManipulator.PerformMovementLeftMouseButton: the angle bound (`AngleStaysInRange`) is proved only for rotations of at most a full turn, that is |2·dx| ≤ 2π. A larger drag is modelled, but no bound is stated for its angle.
- PathOrder: paths are ordered as strings by code point. Python orders `PurePath` objects part by part, which differs when a separator sorts against other characters.
- Text.ParseIntToString: Python's `int()` also accepts underscores between digits and non-ASCII digits. The model's parser accepts only surrounding white space, an optional sign and ASCII digits.
- Nv12ToJpg: `str(Path(output))` normalisation of an explicit output path is not modelled; the path is used as given.
- JpgToNv12: `main` and `parse_args` (lines 130-156) only parse arguments and call `convert_directory`, so they are not modelled. argparse's own errors are not modelled either.
- FisheyeCalibration.CalibrateMain: argparse's own exits are not modelled. A missing required option or a value `int()`/`float()` rejects ends the program with status 2, and `--help` ends it with status 0. The model starts from the parsed `Args`.
- Nv12ToJpg.Main: argparse's own exits (status 2 for a missing or malformed option, 0 for `--help`) are not modelled; the model starts from the parsed `Options`.
- SurroundViewOptions.StoreOption: the program is modelled as built with `HAVE_OPENCV` on. Built without OpenCV, `--fm-mode default`, `cluster` and `capi` end `main` with -1 (tests/test-surround-view.cpp:910-917), and `-n`/`--fm-frames` and `-T` are unknown options (lines 924-942).
- SurroundViewOptions.FmModeNames: "default", "cluster" and "capi" select their modes only in a build with `HAVE_OPENCV`; without it only "none" is accepted.
- Text.Strip: only the ASCII white space Python recognises is removed (space, tab, newline, vertical tab, form feed, carriage return and the separators 0x1C-0x1F). Python's `str.strip` and `int()` also remove Unicode white space.
