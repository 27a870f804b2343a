/**
 * The ffmpeg invocation as `processVideo` assembles it through fluent-ffmpeg's builder:
 * input at native frame rate, the complex filter graph, the map arguments, the fixed HLS
 * options, one rate block per variant and the variant playlist target in the job's
 * output directory. Running ffmpeg is not modelled; the builder's state is.
 */
module Command {
  import opened Wrappers
  import opened Text
  import opened Planner
  import opened Naming

  /** A snapshot of the builder: everything the spawned ffmpeg process is given. */
  datatype Invocation = Invocation(
    input: string,
    nativeFramerate: bool,
    complexFilter: string,
    outputOptions: seq<string>,
    target: Option<string>)

  /** The builder returned by `ffmpeg(sourcePath)`; each call updates it in place. */
  class FfmpegCommand {
    var input: string
    var nativeFramerate: bool
    var complexFilter: string
    var outputOptions: seq<string>
    var target: Option<string>

    constructor (source: string)
      ensures input == source && !nativeFramerate && complexFilter == ""
      ensures outputOptions == [] && target == None
    {
      input, nativeFramerate, complexFilter := source, false, "";
      outputOptions, target := [], None;
    }

    function Snapshot(): Invocation
      reads this
    {
      Invocation(input, nativeFramerate, complexFilter, outputOptions, target)
    }

    /** `.native()`: read the input at its native frame rate. */
    method Native()
      modifies this`nativeFramerate
      ensures nativeFramerate
    {
      nativeFramerate := true;
    }

    /** `.complexFilter(graph)`: sets the filter graph, replacing any earlier one. */
    method ComplexFilter(graph: string)
      modifies this`complexFilter
      ensures complexFilter == graph
    {
      complexFilter := graph;
    }

    /** `.outputOptions(options)`: appends to the output options, in order. */
    method OutputOptions(options: seq<string>)
      modifies this`outputOptions
      ensures outputOptions == old(outputOptions) + options
    {
      outputOptions := outputOptions + options;
    }

    /** `.save(path)`: sets the output target; the process start is the `Spawn` of the run's trace. */
    method Save(path: string)
      modifies this`target
      ensures target == Some(path)
    {
      target := Some(path);
    }
  }

  /** The second `forEach` over the ladder: one `outputOptions` call with a rate block per tier. */
  method SetRateOptions(command: FfmpegCommand, ladder: seq<Rendition>)
    modifies command`outputOptions
    ensures command.outputOptions == old(command.outputOptions) + RateOptions(ladder)
  {
    var index := 0;
    while index < |ladder|
      invariant index <= |ladder|
      invariant command.outputOptions == old(command.outputOptions) + RateOptions(ladder[..index])
    {
      var r := ladder[index];
      assert ladder[..index + 1][..index] == ladder[..index];
      command.OutputOptions(["-b:v:" + ShowNat(index) + " " + BitrateText(r),
                             "-maxrate:v:" + ShowNat(index) + " " + BitrateText(r),
                             "-bufsize:v:" + ShowNat(index) + " " + BitrateText(r)]);
      index := index + 1;
    }
    assert ladder[..index] == ladder;
  }

  /** The output options for a ladder: maps, fixed options, then rate blocks. */
  function OptionsFor(ladder: seq<Rendition>): seq<string>
  {
    MapArgs(|ladder|) + FixedOptions(VarStreamMap(|ladder|)) + RateOptions(ladder)
  }

  /** The invocation built for a ladder, a source file and an output directory. */
  function InvocationFor(source: string, outputDir: string, ladder: seq<Rendition>): Invocation
  {
    Invocation(source, true, FilterGraph(ladder), OptionsFor(ladder), Some(PlaylistTarget(outputDir)))
  }

  /** The output options of the invocation `processVideo` starts. */
  function PlannedOptions(): seq<string>
  {
    OptionsFor(Ladder())
  }

  /** The invocation `processVideo` starts for a source file and an output directory. */
  function PlannedInvocation(source: string, outputDir: string): Invocation
  {
    InvocationFor(source, outputDir, Ladder())
  }

  /** The chained `.complexFilter(...).outputOptions(mapCmds).outputOptions([...])` call of lines 86-103. */
  method ApplyPlan(command: FfmpegCommand, filterComplex: string, mapCmds: seq<string>, varStreamMap: string)
    modifies command`complexFilter, command`outputOptions
    ensures command.complexFilter == filterComplex
    ensures command.outputOptions == old(command.outputOptions) + mapCmds + FixedOptions(varStreamMap)
  {
    command.ComplexFilter(filterComplex);
    command.OutputOptions(mapCmds);
    command.OutputOptions(FixedOptions(varStreamMap));
  }

  /**
   * Builds the command of lines 51-108 for a ladder and sets the target of line 145 on a
   * fresh builder.
   */
  method BuildCommand(source: string, outputDir: string, renditions: seq<Rendition>) returns (command: FfmpegCommand)
    ensures fresh(command)
    ensures command.Snapshot() == InvocationFor(source, outputDir, renditions)
  {
    var filterComplex, mapCmds, varStreamMap := PlanVariants(renditions);
    ghost var options := mapCmds + FixedOptions(varStreamMap) + RateOptions(renditions);
    command := new FfmpegCommand(source);
    command.Native();
    ApplyPlan(command, filterComplex, mapCmds, varStreamMap);
    assert [] + mapCmds == mapCmds;
    SetRateOptions(command, renditions);
    assert command.outputOptions == options;
    command.Save(PlaylistTarget(outputDir));
  }

  // ---------------------------------------------------------------------------

  /** Twenty map arguments, fourteen fixed options and fifteen rate options, in that order. */
  lemma PlannedOptionsLayout()
    ensures |PlannedOptions()| == 49
    ensures PlannedOptions()[..20] == MapArgs(5)
    ensures PlannedOptions()[20..34] == FixedOptions(VarStreamMap(5))
    ensures PlannedOptions()[34..] == RateOptions(Ladder())
  {
    MapArgsLayout(5);
    RateOptionsLayout(Ladder());
    var m, f, r := MapArgs(5), FixedOptions(VarStreamMap(5)), RateOptions(Ladder());
    assert PlannedOptions() == m + f + r;
    assert (m + f + r)[..20] == m;
    assert (m + f + r)[20..34] == f;
    assert (m + f + r)[34..] == r;
  }

  /**
   * Every rendition's segments align: the invocation always fixes a 48-frame GOP, turns
   * scene-cut keyframes off, cuts 4-second segments, names the master playlist
   * `master.m3u8`, maps each variant to its own video and audio stream, and writes the
   * variant playlists `stream_%v.m3u8` into the job's output directory.
   */
  lemma InvocationAlignment(source: string, outputDir: string)
    ensures var inv := PlannedInvocation(source, outputDir);
      && inv.input == source && inv.nativeFramerate
      && "-g 48" in inv.outputOptions
      && "-sc_threshold 0" in inv.outputOptions
      && "-hls_time 4" in inv.outputOptions
      && "-master_pl_name master.m3u8" in inv.outputOptions
      && "-var_stream_map " + ("v:0,a:0" + " " + "v:1,a:1" + " " + "v:2,a:2" + " " + "v:3,a:3" + " " + "v:4,a:4") in inv.outputOptions
      && inv.target == Some(outputDir + "/" + "stream_%v.m3u8")
  {
    PlannedOptionsLayout();
    var o := PlannedOptions();
    var f := FixedOptions(VarStreamMap(5));
    assert o[23] == f[3] && o[24] == f[4] && o[29] == f[9] && o[33] == f[13];
    assert o[32] == f[12] == "-var_stream_map " + VarStreamMap(5);
    LadderVarStreamMap();
    PlaylistTargetText(outputDir);
  }

  /**
   * In the started invocation, the filter graph splits at ';' into five segments of which
   * segment i scales to tier i and is labelled `[v<i>]`, map argument 4i+1 is `[v<i>]`, and
   * options 34+3i..34+3i+2 set video stream i's bitrate, maximum rate and buffer size to
   * tier i's bitrate, for all five tiers.
   */
  lemma InvocationIndexConsistent(source: string, outputDir: string, i: nat)
    requires i < 5
    ensures var inv := PlannedInvocation(source, outputDir);
      var b := ["400k", "800k", "1400k", "2800k", "5000k"][i];
      && |Split(inv.complexFilter, ';')| == 5
      && Split(inv.complexFilter, ';')[i] == ScaleFilter(Ladder()[i]) + ScaleLabel(i)
      && |inv.outputOptions| == 49
      && inv.outputOptions[4 * i + 1] == ScaleLabel(i)
      && inv.outputOptions[4 * i + 3] == "0:a:0"
      && inv.outputOptions[34 + 3 * i] == "-b:v:" + ShowNat(i) + " " + b
      && inv.outputOptions[34 + 3 * i + 1] == "-maxrate:v:" + ShowNat(i) + " " + b
      && inv.outputOptions[34 + 3 * i + 2] == "-bufsize:v:" + ShowNat(i) + " " + b
  {
    FilterGraphSplits(Ladder());
    PlannedOptionsLayout();
    LadderBitrates();
    MapArgsAt(5, i);
    RateOptionsAt(Ladder(), i);
    var o := PlannedOptions();
    assert o[4 * i + 1] == o[..20][4 * i + 1] && o[4 * i + 3] == o[..20][4 * i + 3];
    assert o[34 + 3 * i] == o[34..][3 * i];
    assert o[34 + 3 * i + 1] == o[34..][3 * i + 1];
    assert o[34 + 3 * i + 2] == o[34..][3 * i + 2];
  }
}
