/**
 * The JPEG-to-NV12 batch converter (tools/convert_jpg_to_nv12.py): every
 * JPEG in a directory is probed for its size with ffprobe and converted with
 * ffmpeg to a raw NV12 file named after it and its size.
 *
 * The file system and the two external programs are parameters: what glob
 * and rglob find, what ffprobe prints, whether a path exists, and whether
 * an ffmpeg command succeeds.
 */
module JpgToNv12 {
  import opened Wrappers
  import opened Text
  import PathOrder

  datatype Size = Size(width: int, height: int)

  /** What running ffprobe gives: a failure (not installed, non-zero exit) or its standard output. */
  datatype Probe = ProbeError | Probed(stdout: string)

  /** The world the tool runs in. */
  datatype Env = Env(
    isDir: bool,
    glob: string -> seq<string>,
    rglob: string -> seq<string>,
    probe: string -> Probe,
    pathExists: string -> bool,
    ffmpegOk: seq<string> -> bool)

  // ---------------------------------------------------------------------------
  // get_image_size

  /** The command get_image_size runs: the size of the first video stream as "<w>x<h>". */
  function ProbeArgs(src: string): (args: seq<string>)
    ensures |args| == 10 && args[0] == "ffprobe" && args[9] == src
  {
    ["ffprobe", "-v", "error", "-select_streams", "v:0",
     "-show_entries", "stream=width,height", "-of", "csv=p=0:s=x", src]
  }

  /**
   * get_image_size: the stripped output split on 'x' must give exactly two
   * parts that int() accepts; anything else, an empty output and a failed
   * run give None.
   */
  function ImageSizeOf(p: Probe): Option<Size>
  {
    if p.ProbeError? then None
    else
      var line := Strip(p.stdout);
      if line == [] then None
      else
        var parts := Split(line, 'x');
        if |parts| != 2 then None
        else
          match (ParseInt(parts[0]), ParseInt(parts[1]))
          case (Some(w), Some(h)) => Some(Size(w, h))
          case _ => None
  }

  /** A size in the form ffprobe prints it with `-of csv=p=0:s=x`. */
  function SizeText(s: Size): (t: string)
    ensures |t| >= 3
  {
    IntToString(s.width) + "x" + IntToString(s.height)
  }

  /** No 'x', '/' or white space occurs in a decimal integer. */
  lemma IntToStringPlain(i: int)
    ensures 'x' !in IntToString(i) && '/' !in IntToString(i)
    ensures !IsSpace(IntToString(i)[0]) && !IsSpace(IntToString(i)[|IntToString(i)| - 1])
  {
    IntToStringChars(i);
  }

  /** Whatever size ffprobe reports on its output line, get_image_size returns it. */
  lemma ImageSizeRoundTrip(s: Size)
    ensures ImageSizeOf(Probed(SizeText(s) + "\n")) == Some(s)
    ensures ImageSizeOf(Probed(SizeText(s))) == Some(s)
  {
    var w, h := IntToString(s.width), IntToString(s.height);
    IntToStringPlain(s.width);
    IntToStringPlain(s.height);
    var t := SizeText(s);
    assert t == w + ['x'] + h;
    assert t[0] == w[0] && t[|t| - 1] == h[|h| - 1];
    StripLine(t);
    StripNoSpace(t);
    StrippedSizeParses(t + "\n", s);
    StrippedSizeParses(t, s);
  }

  /** An output that strips to a size text gives that size. */
  lemma StrippedSizeParses(out: string, s: Size)
    requires Strip(out) == SizeText(s)
    ensures ImageSizeOf(Probed(out)) == Some(s)
  {
    var w, h := IntToString(s.width), IntToString(s.height);
    IntToStringPlain(s.width);
    IntToStringPlain(s.height);
    SplitJoin(w, h, 'x');
    ParseIntToString(s.width);
    ParseIntToString(s.height);
  }

  /** An empty (or blank) output and a failed run give no size. */
  lemma NoSizeWithoutOutput(p: Probe)
    requires p.ProbeError? || Strip(p.stdout) == []
    ensures ImageSizeOf(p) == None
  {
  }

  /** An output line without an 'x', or with more than one, gives no size. */
  lemma NoSizeWithoutOneSeparator(out: string)
    requires |Split(Strip(out), 'x')| != 2
    ensures ImageSizeOf(Probed(out)) == None
  {
  }

  // ---------------------------------------------------------------------------
  // Names and the ffmpeg command

  /** The output file: "<stem>_<width>x<height>.nv12" next to the source image. */
  function OutPath(img: string, s: Size): string
  {
    DirPart(img) + OutName(BasePart(img), s)
  }

  function OutName(name: string, s: Size): string
  {
    Stem(name) + "_" + SizeText(s) + ".nv12"
  }

  /**
   * The output lies in the image's directory; its name is the image's stem,
   * '_', the size exactly as ffprobe reports it (ImageSizeRoundTrip reads it
   * back), and ".nv12".
   */
  lemma OutPathShape(img: string, s: Size)
    ensures DirPart(OutPath(img, s)) == DirPart(img)
    ensures BasePart(OutPath(img, s)) == Stem(BasePart(img)) + "_" + SizeText(s) + ".nv12"
  {
    StemNoSlash(BasePart(img));
    SizeTextNoSlash(s);
    NameNoSlash(Stem(BasePart(img)), SizeText(s));
    DirPartAppend(DirPart(img), OutName(BasePart(img), s));
  }

  lemma NameNoSlash(stem: string, t: string)
    requires '/' !in stem && '/' !in t
    ensures '/' !in stem + "_" + t + ".nv12"
  {
  }

  lemma SizeTextNoSlash(s: Size)
    ensures '/' !in SizeText(s)
  {
    var w, h := IntToString(s.width), IntToString(s.height);
    IntToStringPlain(s.width);
    IntToStringPlain(s.height);
    assert SizeText(s) == w + ['x'] + h;
  }

  /** run_ffmpeg_to_nv12's command line. */
  function FfmpegArgs(src: string, dst: string, overwrite: bool): (args: seq<string>)
    ensures |args| == 11 && args[0] == "ffmpeg" && args[10] == dst
  {
    ["ffmpeg", "-loglevel", "error", if overwrite then "-y" else "-n",
     "-i", src, "-pix_fmt", "nv12", "-f", "rawvideo", dst]
  }

  /**
   * ffmpeg is told to overwrite ("-y") exactly when the tool may overwrite
   * and to refuse ("-n") otherwise; the input follows "-i", the output
   * format is raw NV12, and the output path comes last.
   */
  lemma FfmpegArgsShape(src: string, dst: string, overwrite: bool)
    ensures var args := FfmpegArgs(src, dst, overwrite);
      && args[3] == (if overwrite then "-y" else "-n")
      && args[4..6] == ["-i", src]
      && args[6..10] == ["-pix_fmt", "nv12", "-f", "rawvideo"]
      && args[..3] == ["ffmpeg", "-loglevel", "error"]
  {
  }

  // ---------------------------------------------------------------------------
  // convert_directory

  const Patterns: seq<string> := ["*.jpg", "*.jpeg", "*.JPG", "*.JPEG"]

  /** What the pattern loop gathers: the matches of each pattern, pattern by pattern. */
  function Gathered(find: string -> seq<string>, pats: seq<string>): (r: seq<string>)
    ensures forall y :: y in r <==> exists k :: 0 <= k < |pats| && y in find(pats[k])
  {
    if pats == [] then []
    else
      var r := Gathered(find, pats[..|pats| - 1]) + find(pats[|pats| - 1]);
      assert forall k :: 0 <= k < |pats| - 1 ==> pats[..|pats| - 1][k] == pats[k];
      r
  }

  /** The search the tool runs: rglob when recursive, glob otherwise. */
  function Finder(env: Env, recursive: bool): string -> seq<string>
  {
    if recursive then env.rglob else env.glob
  }

  /** sorted(set(images)): the work list. */
  function WorkList(env: Env, recursive: bool): (r: seq<string>)
    ensures PathOrder.StrictlySorted(r)
    ensures forall y :: y in r <==> exists k :: 0 <= k < |Patterns| && y in Finder(env, recursive)(Patterns[k])
  {
    PathOrder.SortedUnique(Gathered(Finder(env, recursive), Patterns))
  }

  /** What the loop does with one image. */
  datatype ImageStep = ProbeFailed | Skip(out: string) | Convert(args: seq<string>)

  function StepFor(img: string, env: Env, overwrite: bool): ImageStep
  {
    match ImageSizeOf(env.probe(img))
    case None => ProbeFailed
    case Some(s) =>
      if env.pathExists(OutPath(img, s)) && !overwrite then Skip(OutPath(img, s))
      else Convert(FfmpegArgs(img, OutPath(img, s), overwrite))
  }

  /** A step fails when the size probe fails or ffmpeg fails; a skip is no failure. */
  predicate StepOk(step: ImageStep, env: Env)
  {
    match step
    case ProbeFailed => false
    case Skip(_) => true
    case Convert(args) => env.ffmpegOk(args)
  }

  /** The steps for a list of images, one per image. */
  function Steps(imgs: seq<string>, env: Env, overwrite: bool): (r: seq<ImageStep>)
    ensures |r| == |imgs| && forall k :: 0 <= k < |imgs| ==> r[k] == StepFor(imgs[k], env, overwrite)
  {
    seq(|imgs|, k requires 0 <= k < |imgs| => StepFor(imgs[k], env, overwrite))
  }

  /** The ffmpeg commands a list of steps runs, in order. */
  function Conversions(steps: seq<ImageStep>): seq<seq<string>>
  {
    if steps == [] then []
    else Conversions(steps[..|steps| - 1]) + (if steps[|steps| - 1].Convert? then [steps[|steps| - 1].args] else [])
  }

  /** No step failed. */
  predicate AllOk(steps: seq<ImageStep>, env: Env)
  {
    forall k :: 0 <= k < |steps| ==> StepOk(steps[k], env)
  }

  lemma AllOkSnoc(steps: seq<ImageStep>, i: nat, env: Env)
    requires i < |steps|
    ensures AllOk(steps[..i + 1], env) <==> AllOk(steps[..i], env) && StepOk(steps[i], env)
  {
    assert forall k :: 0 <= k < i ==> steps[..i + 1][k] == steps[..i][k];
  }

  /** One more step adds its conversion, if it has one, at the end. */
  lemma ConversionsSnoc(steps: seq<ImageStep>, i: nat)
    requires i < |steps|
    ensures Conversions(steps[..i + 1]) == Conversions(steps[..i]) + (if steps[i].Convert? then [steps[i].args] else [])
  {
    assert steps[..i + 1][..i] == steps[..i];
  }

  /**
   * An existing output is skipped without any ffmpeg run, and only when
   * overwriting is off; otherwise a probed image is converted into its
   * output path.
   */
  lemma StepShape(img: string, env: Env, overwrite: bool)
    ensures StepFor(img, env, overwrite) == ProbeFailed <==> ImageSizeOf(env.probe(img)).None?
    ensures StepFor(img, env, overwrite).Skip? ==>
      && !overwrite
      && var s := ImageSizeOf(env.probe(img)).value;
      && env.pathExists(OutPath(img, s)) && StepFor(img, env, overwrite).out == OutPath(img, s)
    ensures StepFor(img, env, overwrite).Convert? ==>
      var s := ImageSizeOf(env.probe(img)).value;
      && (overwrite || !env.pathExists(OutPath(img, s)))
      && StepFor(img, env, overwrite).args == FfmpegArgs(img, OutPath(img, s), overwrite)
    ensures overwrite ==> !StepFor(img, env, overwrite).Skip?
  {
  }

  /** Every command run is one step's conversion, and every conversion is run, in order of the steps. */
  lemma {:induction false} ConversionsOfSteps(steps: seq<ImageStep>)
    ensures forall c :: c in Conversions(steps) ==> Convert(c) in steps
    ensures forall k :: 0 <= k < |steps| && steps[k].Convert? ==> steps[k].args in Conversions(steps)
    ensures |Conversions(steps)| <= |steps|
  {
    if steps != [] {
      var init := steps[..|steps| - 1];
      ConversionsOfSteps(init);
      assert forall k :: 0 <= k < |init| ==> init[k] == steps[k];
      assert steps == init + [steps[|steps| - 1]];
    }
  }

  /** The three branches of the loop body, as StepFor names them. */
  lemma StepBranches(img: string, env: Env, overwrite: bool)
    ensures ImageSizeOf(env.probe(img)).None? ==> StepFor(img, env, overwrite) == ProbeFailed
    ensures ImageSizeOf(env.probe(img)).Some? ==>
      var out := OutPath(img, ImageSizeOf(env.probe(img)).value);
      && (env.pathExists(out) && !overwrite ==> StepFor(img, env, overwrite) == Skip(out))
      && (!(env.pathExists(out) && !overwrite) ==>
            StepFor(img, env, overwrite) == Convert(FfmpegArgs(img, out, overwrite)))
  {
  }

  /** The pattern loop of convert_directory: the matches of every pattern, in pattern order. */
  method GatherImages(find: string -> seq<string>) returns (images: seq<string>)
    ensures images == Gathered(find, Patterns)
  {
    images := [];
    var p := 0;
    while p < |Patterns|
      invariant 0 <= p <= |Patterns|
      invariant images == Gathered(find, Patterns[..p])
    {
      assert Patterns[..p + 1][..p] == Patterns[..p];
      images := images + find(Patterns[p]);
      p := p + 1;
    }
    assert Patterns[..|Patterns|] == Patterns;
  }

  /**
   * One pass of the image loop: probe the size, then skip an existing output
   * or run ffmpeg. `run` is the ffmpeg command run, if any; `ok` is false
   * when the probe or ffmpeg failed.
   */
  method ConvertImage(img: string, env: Env, overwrite: bool) returns (ok: bool, run: seq<seq<string>>)
    ensures var step := StepFor(img, env, overwrite);
      && run == (if step.Convert? then [step.args] else [])
      && ok == StepOk(step, env)
  {
    StepBranches(img, env, overwrite);
    var size := ImageSizeOf(env.probe(img));
    if size.None? {
      return false, [];
    }
    var out := OutPath(img, size.value);
    if env.pathExists(out) && !overwrite {
      return true, [];
    }
    var args := FfmpegArgs(img, out, overwrite);
    ok := env.ffmpegOk(args);
    run := [args];
  }

  /**
   * The image loop of convert_directory: each image is probed, skipped or
   * converted in turn; the commands run are the steps' conversions, and the
   * loop succeeds exactly when no probe and no ffmpeg run failed.
   */
  method ConvertImages(images: seq<string>, env: Env, overwrite: bool) returns (success: bool, commands: seq<seq<string>>)
    ensures commands == Conversions(Steps(images, env, overwrite))
    ensures success == AllOk(Steps(images, env, overwrite), env)
  {
    ghost var steps := Steps(images, env, overwrite);
    success := true;
    commands := [];
    var i := 0;
    while i < |images|
      invariant 0 <= i <= |images|
      invariant commands == Conversions(steps[..i])
      invariant success == AllOk(steps[..i], env)
    {
      ConversionsSnoc(steps, i);
      AllOkSnoc(steps, i, env);
      var ok, run := ConvertImage(images[i], env, overwrite);
      commands := commands + run;
      success := success && ok;
      i := i + 1;
    }
    assert steps[..|steps|] == steps;
  }

  /**
   * convert_directory: 1 for a path that is not a directory, 0 when no JPEG
   * is found; otherwise every image of the sorted work list is probed,
   * skipped or converted in turn, and the result is 0 exactly when no probe
   * and no ffmpeg run failed.
   */
  method ConvertDirectory(env: Env, recursive: bool, overwrite: bool) returns (status: int, commands: seq<seq<string>>)
    ensures status == 0 || status == 1
    ensures !env.isDir ==> status == 1 && commands == []
    ensures env.isDir && WorkList(env, recursive) == [] ==> status == 0 && commands == []
    ensures env.isDir ==>
      var steps := Steps(WorkList(env, recursive), env, overwrite);
      && commands == Conversions(steps)
      && (status == 0 <==> AllOk(steps, env))
  {
    if !env.isDir {
      return 1, [];
    }
    var images := GatherImages(Finder(env, recursive));
    if images == [] {
      assert WorkList(env, recursive) == [] by {
        PathOrder.EmptyIffNoMember(WorkList(env, recursive));
      }
      return 0, [];
    }
    images := PathOrder.SortedUnique(images);
    var success;
    success, commands := ConvertImages(images, env, overwrite);
    status := if success then 0 else 1;
  }
}
