/**
 * The NV12-to-JPEG tool: it checks its input, picks the output name and
 * builds one ffmpeg command that reads headerless NV12 frames of the given
 * size and writes JPEG images. Resolving the input path, the file test and
 * the ffmpeg run are parameters of the model.
 */
module Nv12ToJpg {
  import opened Wrappers
  import opened Text
  import JpgToNv12

  /** The command line after argparse; `output` is None when --output is not given. */
  datatype Options = Options(
    input: string,
    width: int,
    height: int,
    output: Option<string>,
    single: bool,
    force: bool)

  /** The world the tool runs in: Path.resolve, Path.is_file and whether ffmpeg succeeds. */
  datatype Env = Env(
    resolve: string -> string,
    isFile: string -> bool,
    ffmpegOk: seq<string> -> bool)

  /** The "<width>x<height>" text passed to -video_size. */
  function VideoSize(width: int, height: int): string
  {
    JpgToNv12.SizeText(JpgToNv12.Size(width, height))
  }

  /** run_ffmpeg_nv12_to_jpg's command: raw NV12 input of the given size, one frame when single, the output last. */
  function FfmpegArgs(src: string, width: int, height: int, output: string, single: bool, overwrite: bool): (cmd: seq<string>)
    ensures |cmd| == (if single then 15 else 13)
    ensures cmd[0] == "ffmpeg" && cmd[11] == src && cmd[|cmd| - 1] == output
  {
    ["ffmpeg", "-loglevel", "error", if overwrite then "-y" else "-n",
     "-f", "rawvideo", "-pixel_format", "nv12", "-video_size", VideoSize(width, height),
     "-i", src]
    + (if single then ["-frames:v", "1"] else [])
    + [output]
  }

  /**
   * ffmpeg is told to overwrite ("-y") exactly when the tool may and to
   * refuse ("-n") otherwise; the input is raw NV12 of the given size; only
   * a single-frame run limits the frames to one.
   */
  lemma FfmpegArgsShape(src: string, width: int, height: int, output: string, single: bool, overwrite: bool)
    ensures var cmd := FfmpegArgs(src, width, height, output, single, overwrite);
      && cmd[..3] == ["ffmpeg", "-loglevel", "error"]
      && cmd[3] == (if overwrite then "-y" else "-n")
      && cmd[4..8] == ["-f", "rawvideo", "-pixel_format", "nv12"]
      && cmd[8..10] == ["-video_size", VideoSize(width, height)]
      && cmd[10..12] == ["-i", src]
      && (single ==> cmd[12..14] == ["-frames:v", "1"])
  {
  }

  /** Unless the paths themselves read "-frames:v", that flag is in the command exactly for a single-frame run. */
  lemma FramesFlagIffSingle(src: string, width: int, height: int, output: string, single: bool, overwrite: bool)
    requires src != "-frames:v" && output != "-frames:v"
    ensures "-frames:v" in FfmpegArgs(src, width, height, output, single, overwrite) <==> single
  {
    var cmd := FfmpegArgs(src, width, height, output, single, overwrite);
    var size := VideoSize(width, height);
    assert size != "-frames:v" by {
      var w := IntToString(width);
      IntToStringChars(width);
      assert size[..|w|] == w;
      if w[0] == '-' {
        assert IsDigit(w[|w| - 1]) && |w| >= 2 && IsDigit(w[1]) && size[1] == w[1];
      } else {
        assert size[0] == w[0];
      }
    }
    if !single {
      assert forall k :: 0 <= k < |cmd| ==> cmd[k] != "-frames:v";
    } else {
      assert cmd[12] == "-frames:v";
    }
  }

  /** The -video_size text reads back, as "WxH", as the same width and height. */
  lemma VideoSizeReadsBack(width: int, height: int)
    ensures JpgToNv12.ImageSizeOf(JpgToNv12.Probed(VideoSize(width, height))) == Some(JpgToNv12.Size(width, height))
  {
    JpgToNv12.ImageSizeRoundTrip(JpgToNv12.Size(width, height));
  }

  /** Whether --output was given: an empty name counts as not given. */
  predicate Explicit(o: Options)
  {
    o.output.Some? && o.output.value != []
  }

  /** What follows the stem in a default output name. */
  function DefaultSuffix(width: int, height: int, single: bool): string
  {
    if single then "_" + (VideoSize(width, height) + ".jpg") else "_%05d.jpg"
  }

  /** The output: --output as given, else "<stem>_<w>x<h>.jpg" or "<stem>_%05d.jpg" next to the source. */
  function OutputPath(src: string, o: Options): string
  {
    if Explicit(o) then o.output.value
    else DirPart(src) + (Stem(BasePart(src)) + DefaultSuffix(o.width, o.height, o.single))
  }

  /** A default suffix holds no '/'. */
  lemma DefaultSuffixNoSlash(width: int, height: int, single: bool)
    ensures '/' !in DefaultSuffix(width, height, single)
  {
    if single {
      JpgToNv12.SizeTextNoSlash(JpgToNv12.Size(width, height));
      var t := VideoSize(width, height);
      assert DefaultSuffix(width, height, single) == ['_'] + t + ['.', 'j', 'p', 'g'];
    }
  }

  /**
   * An explicit --output is used as given. Otherwise the output lies in the
   * source's directory and is named after the source's stem and a default suffix.
   */
  lemma OutputPathPlace(src: string, o: Options)
    ensures Explicit(o) ==> OutputPath(src, o) == o.output.value
    ensures !Explicit(o) ==> DirPart(OutputPath(src, o)) == DirPart(src)
    ensures !Explicit(o) ==>
      BasePart(OutputPath(src, o)) == Stem(BasePart(src)) + DefaultSuffix(o.width, o.height, o.single)
  {
    if !Explicit(o) {
      StemNoSlash(BasePart(src));
      DefaultSuffixNoSlash(o.width, o.height, o.single);
      PathParts(DirPart(src), Stem(BasePart(src)) + DefaultSuffix(o.width, o.height, o.single));
    }
  }

  /**
   * The default name: the stem, the frame size and ".jpg" for one frame;
   * the stem and ffmpeg's "%05d" frame counter for all frames.
   */
  lemma DefaultOutputName(src: string, o: Options)
    requires !Explicit(o)
    ensures o.single ==>
      BasePart(OutputPath(src, o)) == Stem(BasePart(src)) + "_" + VideoSize(o.width, o.height) + ".jpg"
    ensures !o.single ==> BasePart(OutputPath(src, o)) == Stem(BasePart(src)) + "_%05d.jpg"
  {
    OutputPathPlace(src, o);
    var stem := Stem(BasePart(src));
    if o.single {
      assert stem + DefaultSuffix(o.width, o.height, o.single) == stem + "_" + VideoSize(o.width, o.height) + ".jpg";
    }
  }

  /** A directory prefix and a name without '/' are what the path splits into again. */
  lemma PathParts(d: string, name: string)
    requires d == [] || d[|d| - 1] == '/'
    requires '/' !in name
    ensures DirPart(d + name) == d && BasePart(d + name) == name
  {
    DirPartAppend(d, name);
    var p := d + name;
    assert DirPart(p) + BasePart(p) == p;
    assert BasePart(p) == p[|d|..] == name;
  }

  /** What main does: 1 without running ffmpeg, or the ffmpeg command and its status. */
  datatype Run = Run(command: Option<seq<string>>, status: int)

  /**
   * main: a source that is not a file, or a size that is not positive,
   * leaves with 1 before ffmpeg runs; otherwise ffmpeg converts the resolved
   * source into the chosen output, and the status is 0 exactly when it succeeds.
   */
  function Main(o: Options, env: Env): (r: Run)
    ensures r.status == 0 || r.status == 1
    ensures r.command.None? <==> !env.isFile(env.resolve(o.input)) || o.width <= 0 || o.height <= 0
    ensures r.command.None? ==> r.status == 1
    ensures r.command.Some? ==> (r.status == 0 <==> env.ffmpegOk(r.command.value))
    ensures r.command.Some? ==>
      var src := env.resolve(o.input);
      r.command.value == FfmpegArgs(src, o.width, o.height, OutputPath(src, o), o.single, o.force)
  {
    var src := env.resolve(o.input);
    if !env.isFile(src) then Run(None, 1)
    else if o.width <= 0 || o.height <= 0 then Run(None, 1)
    else
      var cmd := FfmpegArgs(src, o.width, o.height, OutputPath(src, o), o.single, o.force);
      Run(Some(cmd), if env.ffmpegOk(cmd) then 0 else 1)
  }
}
