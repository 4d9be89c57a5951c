/**
 * Helpers of the surround-view test program (tests/test-surround-view.cpp):
 * naming of derived output files, the output configuration, the stream
 * list that derived outputs are appended to, the per-frame writer with its
 * frame counter, and the test for a settled feature match.
 */
module SurroundViewTest {
  import opened Wrappers
  import opened Text
  import opened XCamUtils
  import opened StitcherBase
  import Arith

  // ---------------------------------------------------------------------------
  // combine_name

  /** What snprintf leaves in a buffer of `size` bytes: at most size - 1 characters of s. */
  function Truncate(s: string, size: nat): (r: string)
    requires size >= 1
    ensures |r| < size && |r| <= |s| && r == s[..|r|]
    ensures |s| < size ==> r == s
    ensures |s| >= size ==> |r| == size - 1
  {
    if |s| < size then s else s[..size - 1]
  }

  /**
   * combine_name: with a '/' in orig, orig up to that last '/', then the
   * embedded tag, '_' and the rest of orig; without one, the tag, '_' and
   * orig. The buffer holds TestMaxStrSize bytes.
   */
  function CombineName(orig: string, embedded: string): string
  {
    match LastIndexOf(orig, '/')
    case Some(k) => Truncate(orig[..k + 1] + embedded + "_" + orig[k + 1..], TestMaxStrSize)
    case None => Truncate(embedded + "_" + orig, TestMaxStrSize)
  }

  /** Both branches put the tag in front of the file name, within the buffer size. */
  lemma CombineNameShape(orig: string, embedded: string)
    ensures var full := DirPart(orig) + embedded + "_" + BasePart(orig);
      var r := CombineName(orig, embedded);
      && |r| < TestMaxStrSize && r == full[..|r|]
      && (|full| < TestMaxStrSize ==> r == full)
      && (|full| >= TestMaxStrSize ==> |r| == TestMaxStrSize - 1)
  {
    var dir, base := DirPart(orig), BasePart(orig);
    match LastIndexOf(orig, '/')
    case Some(k) =>
      assert dir == orig[..k + 1] && base == orig[k + 1..];
    case None =>
      assert dir == [] && base == orig;
      assert dir + embedded + "_" + base == embedded + "_" + orig;
  }

  /**
   * When nothing is cut off and the tag holds no '/', the new name lies in
   * the same directory as orig and its file name is the tag, '_' and orig's
   * file name.
   */
  lemma CombineNameSameDirectory(orig: string, embedded: string)
    requires '/' !in embedded
    requires |DirPart(orig) + embedded + "_" + BasePart(orig)| < TestMaxStrSize
    ensures var r := CombineName(orig, embedded);
      && DirPart(r) == DirPart(orig)
      && BasePart(r) == embedded + "_" + BasePart(orig)
  {
    CombineNameShape(orig, embedded);
    var t := embedded + "_" + BasePart(orig);
    assert DirPart(orig) + embedded + "_" + BasePart(orig) == DirPart(orig) + t;
    DirPartAppend(DirPart(orig), t);
  }

  // ---------------------------------------------------------------------------
  // SVOutConfig and write_image

  /** Which results are saved, and the output stream each one goes to. */
  datatype SVOutConfig = SVOutConfig(
    saveOutput: bool, stitchIndex: nat,
    saveTopview: bool, topviewIndex: nat,
    saveCubemap: bool, cubemapIndex: nat)

  /** The member defaults; the topview and cubemap indices are not initialised in the source and are 0 here. */
  const DefaultOutConfig := SVOutConfig(true, 0, false, 0, false, 0)

  /** SVOutConfig::is_save. */
  predicate IsSave(c: SVOutConfig)
  {
    c.saveOutput || c.saveTopview || c.saveCubemap
  }

  /** The effects of write_image on the output streams, in order. */
  datatype FrameAction = WriteOut(stream: nat, frame: nat) | Remap(from: nat, to: nat)

  /** What one write_image call does for frame number `frame`. */
  function FrameActions(c: SVOutConfig, frame: nat): seq<FrameAction>
  {
    (if c.saveOutput then [WriteOut(c.stitchIndex, frame)] else [])
    + (if c.saveTopview then [Remap(c.stitchIndex, c.topviewIndex), WriteOut(c.topviewIndex, frame)] else [])
    + (if c.saveCubemap then [Remap(c.stitchIndex, c.cubemapIndex), WriteOut(c.cubemapIndex, frame)] else [])
  }

  /**
   * is_save holds exactly when write_image writes something; every write
   * carries the current frame number, and every view is remapped from the
   * stitched output just before it is written.
   */
  lemma IsSaveIffWrites(c: SVOutConfig, frame: nat)
    ensures IsSave(c) <==> FrameActions(c, frame) != []
    ensures forall k :: 0 <= k < |FrameActions(c, frame)| && FrameActions(c, frame)[k].WriteOut? ==>
      FrameActions(c, frame)[k].frame == frame
    ensures forall k :: 0 <= k < |FrameActions(c, frame)| && FrameActions(c, frame)[k].Remap? ==>
      && FrameActions(c, frame)[k].from == c.stitchIndex
      && k + 1 < |FrameActions(c, frame)|
      && FrameActions(c, frame)[k + 1] == WriteOut(FrameActions(c, frame)[k].to, frame)
  {
  }

  /** The default configuration saves the stitched output only. */
  lemma DefaultSavesStitchOnly(frame: nat)
    ensures IsSave(DefaultOutConfig)
    ensures FrameActions(DefaultOutConfig, frame) == [WriteOut(0, frame)]
  {
  }

  /** The static frame counter of write_image after n calls: uint32 wrap-around of n. */
  function FrameNumberAfter(n: nat): (f: nat)
    ensures f < U32Modulus
  {
    if n == 0 then 0 else ToU32(FrameNumberAfter(n - 1) + 1)
  }

  lemma {:induction false} FrameNumberAfterWraps(n: nat)
    ensures FrameNumberAfter(n) == n % U32Modulus
  {
    if n > 0 {
      FrameNumberAfterWraps(n - 1);
      assert FrameNumberAfter(n) == ((n - 1) % U32Modulus + 1) % U32Modulus;
      Arith.ModSucc(n - 1, U32Modulus);
    }
  }

  /** write_image with its static counter; the effects on the streams are recorded in `log`. */
  class FrameWriter {
    var frameNum: nat
    var log: seq<FrameAction>

    predicate Valid()
      reads this
    {
      frameNum < U32Modulus
    }

    constructor ()
      ensures Valid() && frameNum == 0 && log == []
    {
      frameNum := 0;
      log := [];
    }

    /**
     * write_image: write the stitched output, then remap and write the top
     * view, then the cubemap, each only if its flag is set; then advance the
     * counter by one (uint32).
     */
    method WriteImage(c: SVOutConfig, outs: seq<SVStream>)
      requires Valid()
      requires IsSave(c) ==> c.stitchIndex < |outs|
      requires c.saveTopview ==> c.topviewIndex < |outs|
      requires c.saveCubemap ==> c.cubemapIndex < |outs|
      modifies this
      ensures Valid()
      ensures log == old(log) + FrameActions(c, old(frameNum))
      ensures frameNum == ToU32(old(frameNum) + 1)
    {
      ghost var start := log;
      if c.saveOutput {
        log := log + [WriteOut(c.stitchIndex, frameNum)];
      }
      if c.saveTopview {
        log := log + [Remap(c.stitchIndex, c.topviewIndex)];
        log := log + [WriteOut(c.topviewIndex, frameNum)];
      }
      if c.saveCubemap {
        log := log + [Remap(c.stitchIndex, c.cubemapIndex)];
        log := log + [WriteOut(c.cubemapIndex, frameNum)];
      }
      assert log == start + FrameActions(c, frameNum);
      frameNum := ToU32(frameNum + 1);
    }
  }

  // ---------------------------------------------------------------------------
  // Streams

  /** An input or output stream: its file name and frame size (SVStream). */
  datatype SVStream = SVStream(name: string, width: nat, height: nat)

  /** SVStreams, the vector of streams the program appends to. */
  class SVStreams {
    var streams: seq<SVStream>

    /** The streams named on the command line; their sizes are set later (SVStream's defaults are 0). */
    constructor (names: seq<string>)
      ensures |streams| == |names|
      ensures forall k :: 0 <= k < |names| ==> streams[k] == SVStream(names[k], 0, 0)
    {
      streams := seq(|names|, k requires 0 <= k < |names| => SVStream(names[k], 0, 0));
    }

    /** add_stream: one new stream next to the first one, named after it. */
    method AddStream(tag: string, width: nat, height: nat)
      requires |streams| >= 1
      modifies this
      ensures streams == old(streams) + [SVStream(CombineName(old(streams)[0].name, tag), width, height)]
    {
      var name := CombineName(streams[0].name, tag);
      streams := streams + [SVStream(name, width, height)];
    }

    /**
     * The derived outputs of main: a top-view stream and then a cubemap
     * stream, each only if it is to be saved, with its index recorded in
     * the configuration.
     */
    method AddViewOutputs(config: SVOutConfig, topviewWidth: nat, topviewHeight: nat,
                          cubemapWidth: nat, cubemapHeight: nat) returns (c: SVOutConfig)
      requires |streams| >= 1
      modifies this
      ensures streams == old(streams)
        + (if config.saveTopview then [SVStream(CombineName(old(streams)[0].name, "topview"), topviewWidth, topviewHeight)] else [])
        + (if config.saveCubemap then [SVStream(CombineName(old(streams)[0].name, "cubemap"), cubemapWidth, cubemapHeight)] else [])
      ensures c.saveOutput == config.saveOutput && c.stitchIndex == config.stitchIndex
      ensures c.saveTopview == config.saveTopview && c.saveCubemap == config.saveCubemap
      ensures c.saveTopview ==> c.topviewIndex == |old(streams)|
      ensures !c.saveTopview ==> c.topviewIndex == config.topviewIndex
      ensures c.saveCubemap ==> c.cubemapIndex == |old(streams)| + (if c.saveTopview then 1 else 0)
      ensures !c.saveCubemap ==> c.cubemapIndex == config.cubemapIndex
    {
      c := config;
      if config.saveTopview {
        AddStream("topview", topviewWidth, topviewHeight);
        c := c.(topviewIndex := |streams| - 1);
      }
      if config.saveCubemap {
        AddStream("cubemap", cubemapWidth, cubemapHeight);
        c := c.(cubemapIndex := |streams| - 1);
      }
    }
  }

  /**
   * After the derived outputs are added, every saved view's index names a
   * stream of its own, different from the stitched output's, and
   * write_image's requirements hold.
   */
  lemma ViewIndicesDistinct(before: nat, config: SVOutConfig, c: SVOutConfig, after: nat)
    requires before >= 1 && config.stitchIndex < before
    requires after == before + (if config.saveTopview then 1 else 0) + (if config.saveCubemap then 1 else 0)
    requires c.saveOutput == config.saveOutput && c.stitchIndex == config.stitchIndex
    requires c.saveTopview == config.saveTopview && c.saveCubemap == config.saveCubemap
    requires c.saveTopview ==> c.topviewIndex == before
    requires c.saveCubemap ==> c.cubemapIndex == before + (if c.saveTopview then 1 else 0)
    ensures IsSave(c) ==> c.stitchIndex < after
    ensures c.saveTopview ==> c.topviewIndex < after && c.topviewIndex != c.stitchIndex
    ensures c.saveCubemap ==> c.cubemapIndex < after && c.cubemapIndex != c.stitchIndex
    ensures c.saveTopview && c.saveCubemap ==> c.topviewIndex != c.cubemapIndex
  {
  }

  // ---------------------------------------------------------------------------
  // stable_stitch

  /** stable_stitch: no feature match, a whole-way match, or the match frames are used up. */
  predicate StableStitch(mode: FeatureMatchMode, status: FeatureMatchStatus, frameCount: nat, frames: nat)
  {
    mode == FMNone || status == FMStatusWholeWay || frameCount > frames
  }

  /** A stable stitcher's next ensure_stitch_path produces a complete stitch. */
  lemma StableMeansComplete(p: StitchPath, mode: FeatureMatchMode, status: FeatureMatchStatus, frames: nat)
    requires StableStitch(mode, status, p.frameCount, frames) && p.frameCount <= frames + 1
    ensures StitchPathStep(p, mode, status, frames).completeStitch
  {
  }

  /** From the frames + 1-th frame on, every stitcher is stable. */
  lemma StableOnceSettled(mode: FeatureMatchMode, status: FeatureMatchStatus, frames: nat, n: nat)
    requires n >= frames + 1
    ensures StableStitch(mode, status, StitchPathAfter(InitialStitchPath, mode, status, frames, n).frameCount, frames)
  {
    StitchPathSettles(mode, status, frames, n);
  }

  /** Before that, only a stitcher without matching or with whole-way matching is stable. */
  lemma StableDuringWarmup(mode: FeatureMatchMode, status: FeatureMatchStatus, frames: nat, n: nat)
    requires 1 <= n < frames
    ensures StableStitch(mode, status, StitchPathAfter(InitialStitchPath, mode, status, frames, n).frameCount, frames)
      <==> mode == FMNone || status == FMStatusWholeWay
  {
    StitchPathWarmup(mode, status, frames, n);
  }
}
