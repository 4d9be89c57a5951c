/**
 * Command-line handling of the surround-view test program
 * (tests/test-surround-view.cpp, main): each option getopt_long returns is
 * applied to the configuration in turn, a bad value ends the program with
 * -1 and --help with 0; after the options, the argument count, the number
 * of inputs and the output stream are checked.
 */
module SurroundViewOptions {
  import opened Wrappers
  import opened Text
  import opened XCamUtils
  import opened StitcherBase
  import opened SurroundViewParams
  import opened SurroundViewTest
  import Arith

  datatype SVModule = SVModuleNone | SVModuleSoft | SVModuleGLES | SVModuleVulkan
  datatype FrameMode = FrameSingle | FrameMulti
  datatype InputFormat = FormatNV12 | FormatYUV420
  datatype GeoMapScaleMode = ScaleSingleConst | ScaleDualConst | ScaleDualCurve
  datatype FisheyeDewarpMode = DewarpSphere | DewarpBowl

  /** The variables main's option loop assigns. */
  datatype Config = Config(
    inputWidth: nat, inputHeight: nat,
    outputWidth: nat, outputHeight: nat,
    topviewWidth: nat, topviewHeight: nat,
    cubemapWidth: nat, cubemapHeight: nat,
    ins: seq<string>, outs: seq<string>,
    inputFormat: InputFormat,
    fisheyeNum: nat,
    camModel: CamModel,
    frameMode: FrameMode,
    svModule: SVModule,
    deviceNode: Option<string>,
    scaleMode: GeoMapScaleMode,
    fmMode: FeatureMatchMode,
    dewarpMode: FisheyeDewarpMode,
    scopicMode: StitchScopicMode,
    blendPyrLevels: nat,
    enableDmabuf: bool,
    fmFrames: nat,
    fmStatus: FeatureMatchStatus,
    loop: int, repeat: int,
    outConfig: SVOutConfig)

  /** The initial values of main's variables. */
  const DefaultConfig := Config(
    1280, 800, 1920, 640, 1280, 720, 1280, 720,
    [], [],
    FormatNV12, 4, CamB4C1080P, FrameMulti, SVModuleNone, None,
    ScaleSingleConst, FMNone, DewarpBowl, ScopicMono,
    2, false, 100, FMStatusWholeWay, 1, 1,
    DefaultOutConfig)

  /** One option as getopt_long returns it: its short code and its argument (empty when it takes none). */
  datatype Opt = Opt(code: char, arg: string)

  /** The outcome of a step: go on with a configuration, or leave main with an exit code. */
  datatype Step = Continue(config: Config) | Exit(code: int)

  /** The position of the first keyword that equals arg ignoring case (the source's strcasecmp chain). */
  function Keyword(arg: string, names: seq<string>): (r: Option<nat>)
    ensures r.Some? ==> r.value < |names|
  {
    if names == [] then None
    else if EqualsIgnoreCase(arg, names[0]) then Some(0)
    else match Keyword(arg, names[1..])
      case Some(i) => Some(i + 1)
      case None => None
  }

  /** Keyword finds the first name that matches, and fails only when none does. */
  lemma {:induction false} KeywordFirstMatch(arg: string, names: seq<string>)
    ensures Keyword(arg, names).Some? ==>
      var i := Keyword(arg, names).value;
      && EqualsIgnoreCase(arg, names[i])
      && forall j :: 0 <= j < i ==> !EqualsIgnoreCase(arg, names[j])
    ensures Keyword(arg, names).None? <==> forall j :: 0 <= j < |names| ==> !EqualsIgnoreCase(arg, names[j])
  {
    if names != [] && !EqualsIgnoreCase(arg, names[0]) {
      KeywordFirstMatch(arg, names[1..]);
      assert forall j :: 1 <= j < |names| ==> names[j] == names[1..][j - 1];
    }
  }

  /** A true/false option: anything but "false" in any case means true. */
  predicate Flag(arg: string)
  {
    !EqualsIgnoreCase(arg, "false")
  }

  /** atoi assigned to a uint32_t variable. */
  function U32Arg(arg: string): (n: nat)
    ensures n < U32Modulus
  {
    ToU32(Atoi(arg))
  }

  /** The variable one option assigns, with its new value. */
  datatype Setting =
    | SetModule(svModule: SVModule)
    | SetDmabuf(dmabuf: bool)
    | SetDevice(node: string)
    | AddInput(input: string)
    | AddOutput(output: string)
    | SetInputWidth(inputWidth: nat)
    | SetInputHeight(inputHeight: nat)
    | SetOutputWidth(outputWidth: nat)
    | SetOutputHeight(outputHeight: nat)
    | SetInputFormat(format: InputFormat)
    | SetTopviewWidth(topviewWidth: nat)
    | SetTopviewHeight(topviewHeight: nat)
    | SetCubemapWidth(cubemapWidth: nat)
    | SetCubemapHeight(cubemapHeight: nat)
    | SetFisheyeNum(fisheyeNum: nat)
    | SetCamModel(camModel: CamModel)
    | SetBlendPyrLevels(levels: nat)
    | SetDewarpMode(dewarpMode: FisheyeDewarpMode)
    | SetScopicMode(scopicMode: StitchScopicMode)
    | SetScaleMode(scaleMode: GeoMapScaleMode)
    | SetFmMode(fmMode: FeatureMatchMode)
    | SetFmFrames(fmFrames: nat)
    | SetFmStatus(fmStatus: FeatureMatchStatus)
    | SetFrameMode(frameMode: FrameMode)
    | SetSaveOutput(saveOutput: bool)
    | SetSaveTopview(saveTopview: bool)
    | SetSaveCubemap(saveCubemap: bool)
    | SetLoop(loop: int)
    | SetRepeat(repeat: int)

  /** What one case of the switch makes of an option: an assignment, --help, or an error. */
  datatype Decoded = Assign(setting: Setting) | Help | Bad

  /**
   * The value at the position of the first matching keyword: a value exactly
   * when some keyword equals the argument ignoring case, and then the value
   * of the first such keyword.
   */
  function Choose<T>(arg: string, names: seq<string>, values: seq<T>): (r: Option<T>)
    requires |names| == |values|
    ensures r.Some? <==> exists i :: 0 <= i < |names| && EqualsIgnoreCase(arg, names[i])
    ensures r.Some? ==> exists i ::
      && 0 <= i < |names| && EqualsIgnoreCase(arg, names[i])
      && (forall j :: 0 <= j < i ==> !EqualsIgnoreCase(arg, names[j]))
      && r.value == values[i]
  {
    KeywordFirstMatch(arg, names);
    match Keyword(arg, names)
    case Some(i) => Some(values[i])
    case None => None
  }

  /** Keywords no two of which are equal ignoring case. */
  predicate DistinctKeywords(names: seq<string>)
  {
    forall i, j :: 0 <= i < |names| && 0 <= j < |names| && i != j ==> !EqualsIgnoreCase(names[i], names[j])
  }

  /** With distinct keywords, each keyword selects the value at its own position. */
  lemma ChooseOwnName<T>(names: seq<string>, values: seq<T>, k: nat)
    requires |names| == |values| && k < |names|
    requires DistinctKeywords(names)
    ensures Choose(names[k], names, values) == Some(values[k])
  {
    KeywordFirstMatch(names[k], names);
    assert EqualsIgnoreCase(names[k], names[k]);
  }

  /** The feature-match modes: each name, in any case, selects its mode. */
  lemma FmModeNames(k: nat)
    requires k < 4
    ensures FmModeOf(["none", "default", "cluster", "capi"][k]) == Some([FMNone, FMDefault, FMCluster, FMCapi][k])
  {
    var names := ["none", "default", "cluster", "capi"];
    assert DistinctKeywords(names) by {
      forall i, j | 0 <= i < |names| && 0 <= j < |names| && i != j
        ensures !EqualsIgnoreCase(names[i], names[j])
      {
        assert |names[i]| != |names[j]| || AsciiLower(names[i][0]) != AsciiLower(names[j][0]);
      }
    }
    ChooseOwnName(names, [FMNone, FMDefault, FMCluster, FMCapi], k);
  }

  function ModuleOf(a: string): Option<SVModule>
  {
    Choose(a, ["soft", "gles", "vulkan"], [SVModuleSoft, SVModuleGLES, SVModuleVulkan])
  }

  function FormatOf(a: string): Option<InputFormat>
  {
    Choose(a, ["nv12", "yuv"], [FormatNV12, FormatYUV420])
  }

  function CamModelOf(a: string): Option<CamModel>
  {
    Choose(a, ["cama2c1080p", "camb4c1080p", "camc3c4k", "camc3c8k", "camc6c8k", "camd3c8k", "camd6c8k"],
      [CamA2C1080P, CamB4C1080P, CamC3C4K, CamC3C8K, CamC6C8K, CamD3C8K, CamD6C8K])
  }

  function DewarpModeOf(a: string): Option<FisheyeDewarpMode>
  {
    Choose(a, ["sphere", "bowl"], [DewarpSphere, DewarpBowl])
  }

  function ScopicModeOf(a: string): Option<StitchScopicMode>
  {
    Choose(a, ["mono", "stereoleft", "stereoright"], [ScopicMono, ScopicStereoLeft, ScopicStereoRight])
  }

  function ScaleModeOf(a: string): Option<GeoMapScaleMode>
  {
    Choose(a, ["singleconst", "dualconst", "dualcurve"], [ScaleSingleConst, ScaleDualConst, ScaleDualCurve])
  }

  function FmModeOf(a: string): Option<FeatureMatchMode>
  {
    Choose(a, ["none", "default", "cluster", "capi"], [FMNone, FMDefault, FMCluster, FMCapi])
  }

  function FmStatusOf(a: string): Option<FeatureMatchStatus>
  {
    Choose(a, ["wholeway", "halfway", "fmfirst"], [FMStatusWholeWay, FMStatusHalfWay, FMStatusFMFirst])
  }

  function FrameModeOf(a: string): Option<FrameMode>
  {
    Choose(a, ["single", "multi"], [FrameSingle, FrameMulti])
  }

  /**
   * The option loop's switch: what each option code does with its argument.
   * The cases that only store a converted value are in StoreOption.
   */
  function DecodeOption(o: Opt): Decoded
  {
    match o.code
    case 'i' => Assign(AddInput(o.arg))
    case 'o' => Assign(AddOutput(o.arg))
    case 'N' => if U32Arg(o.arg) > FisheyeMaxNum then Bad else Assign(SetFisheyeNum(U32Arg(o.arg)))
    case 'e' => Help
    case _ => StoreOption(o.code, o.arg)
  }

  /** A setting other than an input, an output or the fisheye number. */
  predicate Stored(s: Setting)
  {
    !s.AddInput? && !s.AddOutput? && !s.SetFisheyeNum?
  }

  /**
   * The remaining cases of the switch: each stores its converted argument in
   * one variable, or rejects a value outside its list; an unknown code is bad.
   */
  function StoreOption(code: char, a: string): (r: Decoded)
    ensures r == Bad || (r.Assign? && Stored(r.setting))
  {
    match code
    case 'm' => (match ModuleOf(a) case Some(v) => Assign(SetModule(v)) case None => Bad)
    case 'M' => Assign(SetDmabuf(Flag(a)))
    case 'D' => Assign(SetDevice(a))
    case 'w' => Assign(SetInputWidth(U32Arg(a)))
    case 'h' => Assign(SetInputHeight(U32Arg(a)))
    case 'W' => Assign(SetOutputWidth(U32Arg(a)))
    case 'H' => Assign(SetOutputHeight(U32Arg(a)))
    case 'p' => (match FormatOf(a) case Some(v) => Assign(SetInputFormat(v)) case None => Bad)
    case 'P' => Assign(SetTopviewWidth(U32Arg(a)))
    case 'V' => Assign(SetTopviewHeight(U32Arg(a)))
    case 'X' => Assign(SetCubemapWidth(U32Arg(a)))
    case 'Y' => Assign(SetCubemapHeight(U32Arg(a)))
    case 'C' => (match CamModelOf(a) case Some(v) => Assign(SetCamModel(v)) case None => Bad)
    case 'b' => Assign(SetBlendPyrLevels(U32Arg(a)))
    case 'd' => (match DewarpModeOf(a) case Some(v) => Assign(SetDewarpMode(v)) case None => Bad)
    case 'c' => (match ScopicModeOf(a) case Some(v) => Assign(SetScopicMode(v)) case None => Bad)
    case 'S' => (match ScaleModeOf(a) case Some(v) => Assign(SetScaleMode(v)) case None => Bad)
    case 'F' => (match FmModeOf(a) case Some(v) => Assign(SetFmMode(v)) case None => Bad)
    case 'n' => Assign(SetFmFrames(U32Arg(a)))
    case 'T' => (match FmStatusOf(a) case Some(v) => Assign(SetFmStatus(v)) case None => Bad)
    case 'f' => (match FrameModeOf(a) case Some(v) => Assign(SetFrameMode(v)) case None => Bad)
    case 's' => Assign(SetSaveOutput(Flag(a)))
    case 't' => Assign(SetSaveTopview(Flag(a)))
    case 'q' => Assign(SetSaveCubemap(Flag(a)))
    case 'L' => Assign(SetLoop(Atoi(a)))
    case 'R' => Assign(SetRepeat(Atoi(a)))
    case _ => Bad
  }

  /** The assignment a case of the switch performs. */
  function Apply(c: Config, s: Setting): Config
  {
    match s
    case SetModule(v) => c.(svModule := v)
    case SetDmabuf(v) => c.(enableDmabuf := v)
    case SetDevice(v) => c.(deviceNode := Some(v))
    case AddInput(v) => c.(ins := c.ins + [v])
    case AddOutput(v) => c.(outs := c.outs + [v])
    case SetInputWidth(v) => c.(inputWidth := v)
    case SetInputHeight(v) => c.(inputHeight := v)
    case SetOutputWidth(v) => c.(outputWidth := v)
    case SetOutputHeight(v) => c.(outputHeight := v)
    case SetInputFormat(v) => c.(inputFormat := v)
    case SetTopviewWidth(v) => c.(topviewWidth := v)
    case SetTopviewHeight(v) => c.(topviewHeight := v)
    case SetCubemapWidth(v) => c.(cubemapWidth := v)
    case SetCubemapHeight(v) => c.(cubemapHeight := v)
    case SetFisheyeNum(v) => c.(fisheyeNum := v)
    case SetCamModel(v) => c.(camModel := v)
    case SetBlendPyrLevels(v) => c.(blendPyrLevels := v)
    case SetDewarpMode(v) => c.(dewarpMode := v)
    case SetScopicMode(v) => c.(scopicMode := v)
    case SetScaleMode(v) => c.(scaleMode := v)
    case SetFmMode(v) => c.(fmMode := v)
    case SetFmFrames(v) => c.(fmFrames := v)
    case SetFmStatus(v) => c.(fmStatus := v)
    case SetFrameMode(v) => c.(frameMode := v)
    case SetSaveOutput(v) => c.(outConfig := c.outConfig.(saveOutput := v))
    case SetSaveTopview(v) => c.(outConfig := c.outConfig.(saveTopview := v))
    case SetSaveCubemap(v) => c.(outConfig := c.outConfig.(saveCubemap := v))
    case SetLoop(v) => c.(loop := v)
    case SetRepeat(v) => c.(repeat := v)
  }

  /** One pass of the option loop: --help leaves main with 0, an error with -1. */
  function ApplyOption(c: Config, o: Opt): Step
  {
    match DecodeOption(o)
    case Assign(s) => Continue(Apply(c, s))
    case Help => Exit(0)
    case Bad => Exit(-1)
  }

  /** The option loop over the remaining options: the first exit wins. */
  function RunOptions(c: Config, opts: seq<Opt>): Step
    decreases |opts|
  {
    if opts == [] then Continue(c)
    else match ApplyOption(c, opts[0])
      case Exit(code) => Exit(code)
      case Continue(c') => RunOptions(c', opts[1..])
  }

  /** main's option loop, from the initial values. */
  method ParseOptions(opts: seq<Opt>) returns (step: Step)
    ensures step == RunOptions(DefaultConfig, opts)
  {
    var c := DefaultConfig;
    var i := 0;
    while i < |opts|
      invariant 0 <= i <= |opts|
      invariant RunOptions(c, opts[i..]) == RunOptions(DefaultConfig, opts)
    {
      assert opts[i..][0] == opts[i] && opts[i..][1..] == opts[i + 1..];
      var s := ApplyOption(c, opts[i]);
      if s.Exit? {
        return s;
      }
      c := s.config;
      i := i + 1;
    }
    return Continue(c);
  }

  /** The checks after the option loop (CHECK_EXP is assumed to leave main with -1). */
  function CheckRun(c: Config, extraArgs: bool, argc: int): Step
  {
    if extraArgs || argc < 2 then Exit(-1)
    else if |c.ins| != 1 && |c.ins| != c.fisheyeNum then Exit(-1)
    else if exists k :: 0 <= k < |c.ins| && c.ins[k] == [] then Exit(-1)
    else if !(|c.outs| == 1 && c.outConfig.stitchIndex < |c.outs|) then Exit(-1)
    else if c.outs[c.outConfig.stitchIndex] == [] then Exit(-1)
    else Continue(c)
  }

  /**
   * main up to the start of the stitcher: the options, then the checks.
   * extraArgs says whether non-option arguments are left (optind < argc).
   */
  function MainOutcome(opts: seq<Opt>, extraArgs: bool, argc: int): Step
  {
    match RunOptions(DefaultConfig, opts)
    case Exit(code) => Exit(code)
    case Continue(c) => CheckRun(c, extraArgs, argc)
  }

  // ---------------------------------------------------------------------------
  // Properties

  /** The arguments of the options with a given code, in order. */
  function ArgsOf(opts: seq<Opt>, code: char): seq<string>
  {
    if opts == [] then []
    else (if opts[0].code == code then [opts[0].arg] else []) + ArgsOf(opts[1..], code)
  }

  /**
   * Only --input and --output add names: to the inputs and the outputs,
   * each at the end. An accepted --fisheye-num is at most FisheyeMaxNum.
   */
  lemma DecodeOptionShape(o: Opt)
    ensures DecodeOption(o) == Assign(AddInput(o.arg)) <==> o.code == 'i'
    ensures DecodeOption(o) == Assign(AddOutput(o.arg)) <==> o.code == 'o'
    ensures DecodeOption(o).Assign? ==> (DecodeOption(o).setting.AddInput? <==> o.code == 'i')
    ensures DecodeOption(o).Assign? ==> (DecodeOption(o).setting.AddOutput? <==> o.code == 'o')
    ensures DecodeOption(o).Assign? && DecodeOption(o).setting.SetFisheyeNum? ==>
      DecodeOption(o).setting.fisheyeNum <= FisheyeMaxNum
    ensures DecodeOption(o) == Help <==> o.code == 'e'
  {
  }

  /**
   * An assignment changes one variable: the inputs and outputs grow only by
   * their own settings, and the stitched output's index never changes.
   */
  lemma ApplyFrame(c: Config, s: Setting)
    ensures Apply(c, s).ins == c.ins + (if s.AddInput? then [s.input] else [])
    ensures Apply(c, s).outs == c.outs + (if s.AddOutput? then [s.output] else [])
    ensures Apply(c, s).fisheyeNum == (if s.SetFisheyeNum? then s.fisheyeNum else c.fisheyeNum)
    ensures Apply(c, s).outConfig.stitchIndex == c.outConfig.stitchIndex
  {
  }

  /**
   * One option leaves main only with 0 or -1; otherwise it appends to the
   * inputs or outputs only for --input and --output, keeps the fisheye
   * number within FisheyeMaxNum and leaves the stitched output's index alone.
   */
  lemma ApplyOptionOutcome(c: Config, o: Opt)
    requires c.fisheyeNum <= FisheyeMaxNum
    ensures ApplyOption(c, o).Exit? ==> ApplyOption(c, o).code in {0, -1}
    ensures ApplyOption(c, o).Continue? ==>
      var c' := ApplyOption(c, o).config;
      && c'.ins == c.ins + (if o.code == 'i' then [o.arg] else [])
      && c'.outs == c.outs + (if o.code == 'o' then [o.arg] else [])
      && c'.fisheyeNum <= FisheyeMaxNum
      && c'.outConfig.stitchIndex == c.outConfig.stitchIndex
  {
    DecodeOptionShape(o);
    if DecodeOption(o).Assign? {
      ApplyFrame(c, DecodeOption(o).setting);
    }
  }

  /**
   * The option loop leaves only with 0 (help) or -1 (a bad option or
   * value); when it runs through, the fisheye number stays within
   * FisheyeMaxNum and the stitched output's index is the one it started with.
   */
  lemma {:induction false} RunOptionsExit(c: Config, opts: seq<Opt>)
    requires c.fisheyeNum <= FisheyeMaxNum
    decreases |opts|
    ensures RunOptions(c, opts).Exit? ==> RunOptions(c, opts).code in {0, -1}
    ensures RunOptions(c, opts).Continue? ==>
      && RunOptions(c, opts).config.fisheyeNum <= FisheyeMaxNum
      && RunOptions(c, opts).config.outConfig.stitchIndex == c.outConfig.stitchIndex
  {
    if opts != [] {
      ApplyOptionOutcome(c, opts[0]);
      var s := ApplyOption(c, opts[0]);
      if s.Continue? {
        RunOptionsExit(s.config, opts[1..]);
      }
    }
  }

  /** When the option loop runs through, the inputs and outputs are the --input and --output arguments in order. */
  lemma {:induction false} RunOptionsArgs(c: Config, opts: seq<Opt>)
    decreases |opts|
    ensures RunOptions(c, opts).Continue? ==>
      && RunOptions(c, opts).config.ins == c.ins + ArgsOf(opts, 'i')
      && RunOptions(c, opts).config.outs == c.outs + ArgsOf(opts, 'o')
  {
    if opts != [] {
      var o := opts[0];
      DecodeOptionShape(o);
      if DecodeOption(o).Assign? {
        var c1 := Apply(c, DecodeOption(o).setting);
        ApplyFrame(c, DecodeOption(o).setting);
        RunOptionsArgs(c1, opts[1..]);
        var ai := if o.code == 'i' then [o.arg] else [];
        var ao := if o.code == 'o' then [o.arg] else [];
        assert c1.ins == c.ins + ai && c1.outs == c.outs + ao;
        assert ArgsOf(opts, 'i') == ai + ArgsOf(opts[1..], 'i');
        assert ArgsOf(opts, 'o') == ao + ArgsOf(opts[1..], 'o');
        assert (c.ins + ai) + ArgsOf(opts[1..], 'i') == c.ins + ArgsOf(opts, 'i');
        assert (c.outs + ao) + ArgsOf(opts[1..], 'o') == c.outs + ArgsOf(opts, 'o');
      }
    }
  }

  /**
   * A run that gets past the checks has no stray arguments, at most
   * FisheyeMaxNum fisheyes, one input or one per fisheye, all with names,
   * and exactly one named output, the stitched one.
   */
  lemma MainAccepts(opts: seq<Opt>, extraArgs: bool, argc: int)
    ensures MainOutcome(opts, extraArgs, argc).Exit? ==> MainOutcome(opts, extraArgs, argc).code in {0, -1}
    ensures MainOutcome(opts, extraArgs, argc).Continue? ==>
      var c := MainOutcome(opts, extraArgs, argc).config;
      && !extraArgs && argc >= 2
      && c.fisheyeNum <= FisheyeMaxNum
      && (|c.ins| == 1 || |c.ins| == c.fisheyeNum)
      && c.ins == ArgsOf(opts, 'i')
      && (forall k :: 0 <= k < |c.ins| ==> c.ins[k] != [])
      && c.outs == ArgsOf(opts, 'o') && |c.outs| == 1 && c.outs[0] != []
  {
    RunOptionsExit(DefaultConfig, opts);
    RunOptionsArgs(DefaultConfig, opts);
  }

  /** strcasecmp against "false" is a comparison of the lower-cased argument. */
  function LowerString(s: string): (r: string)
    ensures |r| == |s|
    ensures forall k :: 0 <= k < |s| ==> r[k] == AsciiLower(s[k])
    ensures forall k :: 0 <= k < |r| ==> !('A' <= r[k] <= 'Z')
  {
    seq(|s|, k requires 0 <= k < |s| => AsciiLower(s[k]))
  }

  /** strcasecmp finds two strings equal exactly when their lower-cased forms are equal. */
  lemma LowerStringEqualsIgnoreCase(a: string, b: string)
    ensures EqualsIgnoreCase(a, b) <==> LowerString(a) == LowerString(b)
  {
    if LowerString(a) == LowerString(b) {
      forall i | 0 <= i < |a| ensures AsciiLower(a[i]) == AsciiLower(b[i]) {
        assert LowerString(a)[i] == LowerString(b)[i];
      }
    }
  }

  /**
   * --dma, --save, --save-topview and --save-cubemap: false exactly for
   * "false" in any mix of cases; any other argument, "0" and "" included,
   * means true.
   */
  lemma FlagOptions(a: string)
    ensures !Flag(a) <==> LowerString(a) == "false"
  {
    if LowerString(a) == "false" {
      assert forall k :: 0 <= k < |a| ==> AsciiLower(a[k]) == AsciiLower("false"[k]) by {
        forall k | 0 <= k < |a| ensures AsciiLower(a[k]) == AsciiLower("false"[k]) {
          assert LowerString(a)[k] == "false"[k];
        }
      }
    }
    if !Flag(a) {
      assert LowerString(a) == "false" by {
        forall k | 0 <= k < |a| ensures LowerString(a)[k] == "false"[k] {
          assert AsciiLower(a[k]) == AsciiLower("false"[k]);
        }
      }
    }
  }

  /**
   * --fisheye-num: the value is read with atoi and stored as uint32; a
   * value above FisheyeMaxNum ends the program with -1, including small
   * negative numbers, which wrap around to large ones.
   */
  lemma FisheyeNumOption(i: int)
    ensures 0 <= i <= FisheyeMaxNum ==> DecodeOption(Opt('N', IntToString(i))) == Assign(SetFisheyeNum(i))
    ensures FisheyeMaxNum < i < U32Modulus ==> DecodeOption(Opt('N', IntToString(i))) == Bad
    ensures FisheyeMaxNum - U32Modulus < i < 0 ==> DecodeOption(Opt('N', IntToString(i))) == Bad
  {
    U32ArgOfIntToString(i);
    DecodeFisheyeNum(IntToString(i));
    if -U32Modulus <= i < 0 {
      Arith.DivModUnique(i, -1, i + U32Modulus, U32Modulus);
    }
  }

  /** The --fisheye-num case of the switch: atoi into a uint32_t, then the bound check. */
  lemma DecodeFisheyeNum(a: string)
    ensures U32Arg(a) <= FisheyeMaxNum ==> DecodeOption(Opt('N', a)) == Assign(SetFisheyeNum(U32Arg(a)))
    ensures U32Arg(a) > FisheyeMaxNum ==> DecodeOption(Opt('N', a)) == Bad
  {
  }

  /** A number written out in decimal and read back with atoi into a uint32_t. */
  lemma U32ArgOfIntToString(i: int)
    ensures U32Arg(IntToString(i)) == ToU32(i)
  {
    AtoiIntToString(i, []);
    assert IntToString(i) + [] == IntToString(i);
  }

  /** With no options at all the defaults stand, and the checks need one --input and one --output. */
  lemma NoOptions(extraArgs: bool, argc: int)
    ensures RunOptions(DefaultConfig, []) == Continue(DefaultConfig)
    ensures MainOutcome([], extraArgs, argc) == Exit(-1)
  {
  }
}
