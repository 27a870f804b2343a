/**
 * The rendition planner inside `processVideo`: the fixed five-tier quality ladder and the
 * encoder directives built from it — the `-filter_complex` graph that scales the source
 * video once per tier, the `-map` arguments, the `-var_stream_map` value, the fixed HLS
 * options and the per-variant rate options. Tier i of the ladder is always variant i.
 */
module Planner {
  import opened Text

  /** One quality tier: target width and height in pixels, video bitrate in kbit/s. */
  datatype Rendition = Rendition(width: nat, height: nat, kbps: nat)

  /** The bitrate as the ladder writes it, e.g. "400k". */
  function BitrateText(r: Rendition): string
  {
    ShowNat(r.kbps) + "k"
  }

  predicate StrictlyAscending(l: seq<Rendition>)
  {
    forall i, j :: 0 <= i < j < |l| ==>
      l[i].width < l[j].width && l[i].height < l[j].height && l[i].kbps < l[j].kbps
  }

  /** The quality ladder, lowest tier first. */
  function Ladder(): (l: seq<Rendition>)
    ensures |l| == 5 && StrictlyAscending(l)
  {
    [ Rendition(426, 240, 400),
      Rendition(640, 360, 800),
      Rendition(854, 480, 1400),
      Rendition(1280, 720, 2800),
      Rendition(1920, 1080, 5000) ]
  }

  lemma LadderBitrates()
    ensures forall i :: 0 <= i < 5 ==> BitrateText(Ladder()[i]) == ["400k", "800k", "1400k", "2800k", "5000k"][i]
  {
    assert ShowNat(400) == "400" by { assert ShowNat(40) == "40"; }
    assert ShowNat(800) == "800" by { assert ShowNat(80) == "80"; }
    assert ShowNat(1400) == "1400" by { assert ShowNat(140) == "140"; }
    assert ShowNat(2800) == "2800" by { assert ShowNat(280) == "280"; }
    assert ShowNat(5000) == "5000" by { assert ShowNat(500) == "500"; }
  }

  // ---------------------------------------------------------------------------
  // The directives for tier i

  /** The output pad of the scaler for tier i, `[v<i>]`. */
  function ScaleLabel(i: nat): string
  {
    "[v" + ShowNat(i) + "]"
  }

  /** Scale the first video stream of the input to fit within w x h, keeping its aspect ratio. */
  function ScaleFilter(r: Rendition): string
  {
    "[0:v:0]scale=w=" + ShowNat(r.width) + ":h=" + ShowNat(r.height) + ":force_original_aspect_ratio=decrease"
  }

  function ScaleSegment(r: Rendition, i: nat): string
  {
    ScaleFilter(r) + ScaleLabel(i)
  }

  /** Variant i takes the scaled stream `[v<i>]` and the first audio track of the input. */
  function MapBlock(i: nat): seq<string>
  {
    ["-map", ScaleLabel(i), "-map", "0:a:0"]
  }

  /** Variant i is video stream i with audio stream i. */
  function VariantEntry(i: nat): string
  {
    "v:" + ShowNat(i) + ",a:" + ShowNat(i)
  }

  /** Bitrate, maximum rate and buffer size of video stream i, all the tier's bitrate. */
  function RateBlock(r: Rendition, i: nat): seq<string>
  {
    [ "-b:v:" + ShowNat(i) + " " + BitrateText(r),
      "-maxrate:v:" + ShowNat(i) + " " + BitrateText(r),
      "-bufsize:v:" + ShowNat(i) + " " + BitrateText(r) ]
  }

  // ---------------------------------------------------------------------------
  // The directives for a whole ladder

  function Segments(l: seq<Rendition>): seq<string>
  {
    seq(|l|, i requires 0 <= i < |l| => ScaleSegment(l[i], i))
  }

  /** The `-filter_complex` graph: the scale segments joined by ';' in ladder order. */
  function FilterGraph(l: seq<Rendition>): string
  {
    JoinWith(";", Segments(l))
  }

  /** The `-map` arguments for the first n variants, in variant order. */
  function MapArgs(n: nat): seq<string>
  {
    if n == 0 then [] else MapArgs(n - 1) + MapBlock(n - 1)
  }

  function Entries(n: nat): seq<string>
  {
    seq(n, i requires 0 <= i < n => VariantEntry(i))
  }

  /** The `-var_stream_map` value for n variants: the entries separated by single spaces. */
  function VarStreamMap(n: nat): string
  {
    JoinWith(" ", Entries(n))
  }

  /** The per-variant rate options, in ladder order. */
  function RateOptions(l: seq<Rendition>): seq<string>
  {
    if |l| == 0 then [] else RateOptions(l[..|l| - 1]) + RateBlock(l[|l| - 1], |l| - 1)
  }

  /** The options every invocation carries: codecs, a closed 48-frame GOP, 4-second HLS segments. */
  function FixedOptions(varStreamMap: string): seq<string>
  {
    [ "-c:v libx264",
      "-crf 23",
      "-preset veryfast",
      "-g 48",
      "-sc_threshold 0",
      "-c:a aac",
      "-b:a 128k",
      "-ac 2",
      "-f hls",
      "-hls_time 4",
      "-hls_playlist_type vod",
      "-hls_flags independent_segments",
      "-var_stream_map " + varStreamMap,
      "-master_pl_name master.m3u8" ]
  }

  // ---------------------------------------------------------------------------
  // The loop over the ladder

  /**
   * The `forEach` over the ladder that appends a scale segment and ';' to the filter graph,
   * pushes the four map arguments and appends the variant entry and a space, followed by
   * the removal of the trailing ';' and the trimming of the stream map.
   */
  method PlanVariants(ladder: seq<Rendition>) returns (filterComplex: string, mapCmds: seq<string>, varStreamMap: string)
    ensures filterComplex == FilterGraph(ladder)
    ensures mapCmds == MapArgs(|ladder|)
    ensures varStreamMap == VarStreamMap(|ladder|)
  {
    ghost var segments, entries := Segments(ladder), Entries(|ladder|);
    filterComplex, mapCmds, varStreamMap := "", [], "";
    var index := 0;
    while index < |ladder|
      invariant index <= |ladder|
      invariant filterComplex == Terminated(segments[..index], ";")
      invariant mapCmds == MapArgs(index)
      invariant varStreamMap == Terminated(entries[..index], " ")
    {
      TerminatedStep(segments, index, ";");
      TerminatedStep(entries, index, " ");
      filterComplex := filterComplex + ScaleSegment(ladder[index], index) + ";";
      mapCmds := mapCmds + MapBlock(index);
      varStreamMap := varStreamMap + VariantEntry(index) + " ";
      index := index + 1;
    }
    assert segments[..index] == segments && entries[..index] == entries;
    filterComplex := DropLast(filterComplex);
    varStreamMap := Trim(varStreamMap);
    FilterGraphUnterminated(ladder);
    VarStreamMapTrimmed(|ladder|);
  }

  /** Dropping the last character of the ';'-terminated segments leaves the filter graph. */
  lemma FilterGraphUnterminated(l: seq<Rendition>)
    ensures DropLast(Terminated(Segments(l), ";")) == FilterGraph(l)
  {
    if |l| > 0 {
      TerminatedIsJoined(Segments(l), ";");
    }
  }

  /** Trimming the space-terminated entries leaves the stream map. */
  lemma VarStreamMapTrimmed(n: nat)
    ensures Trim(Terminated(Entries(n), " ")) == VarStreamMap(n)
  {
    var entries := Entries(n);
    if n > 0 {
      TerminatedIsJoined(entries, " ");
      EntriesFrame(n);
      JoinEnds(" ", entries);
      var j := JoinWith(" ", entries);
      assert !IsJsWhitespace(j[0]) && !IsJsWhitespace(j[|j| - 1]);
      TrimPadded(j, ' ');
    }
  }

  /** Every entry starts with 'v' and ends with a digit, so neither end is white space. */
  lemma EntriesFrame(n: nat)
    ensures forall i :: 0 <= i < n ==>
      |Entries(n)[i]| > 0 && Entries(n)[i][0] == 'v' && IsDigit(Entries(n)[i][|Entries(n)[i]| - 1])
  {
  }

  // ---------------------------------------------------------------------------
  // What the directives mean

  /** The map arguments are n blocks of four; block i binds `[v<i>]` and the first audio track. */
  lemma {:induction false} MapArgsLayout(n: nat)
    ensures |MapArgs(n)| == 4 * n
    ensures forall i :: 0 <= i < n ==> MapArgs(n)[4 * i .. 4 * i + 4] == MapBlock(i)
  {
    if n > 0 {
      MapArgsLayout(n - 1);
      var prev := MapArgs(n - 1);
      assert MapArgs(n) == prev + MapBlock(n - 1);
      forall i | 0 <= i < n
        ensures MapArgs(n)[4 * i .. 4 * i + 4] == MapBlock(i)
      {
        if i < n - 1 {
          assert MapArgs(n)[4 * i .. 4 * i + 4] == prev[4 * i .. 4 * i + 4];
        } else {
          assert 4 * i == |prev|;
        }
      }
    }
  }

  /** The rate options are one block of three per tier; block i carries tier i's bitrate. */
  lemma {:induction false} RateOptionsLayout(l: seq<Rendition>)
    ensures |RateOptions(l)| == 3 * |l|
    ensures forall i :: 0 <= i < |l| ==> RateOptions(l)[3 * i .. 3 * i + 3] == RateBlock(l[i], i)
  {
    if |l| > 0 {
      var init := l[..|l| - 1];
      RateOptionsLayout(init);
      forall i | 0 <= i < |l|
        ensures RateOptions(l)[3 * i .. 3 * i + 3] == RateBlock(l[i], i)
      {
        if i < |l| - 1 {
          assert RateOptions(l)[3 * i .. 3 * i + 3] == RateOptions(init)[3 * i .. 3 * i + 3];
          assert init[i] == l[i];
        }
      }
    }
  }

  /** The scaler label is read back to its index: distinct tiers never share a label. */
  lemma ScaleLabelIndex(i: nat)
    ensures ScaleLabel(i)[2 .. |ScaleLabel(i)| - 1] == ShowNat(i)
    ensures forall j: nat :: ScaleLabel(j) == ScaleLabel(i) ==> j == i
  {
    forall j: nat | ScaleLabel(j) == ScaleLabel(i)
      ensures j == i
    {
      assert ScaleLabel(j)[2 .. |ScaleLabel(j)| - 1] == ShowNat(j);
      ShowNatInjective(i, j);
    }
  }

  /** Map block i, read off the flat argument list. */
  lemma MapArgsAt(n: nat, i: nat)
    requires i < n
    ensures |MapArgs(n)| == 4 * n
    ensures MapArgs(n)[4 * i] == "-map" && MapArgs(n)[4 * i + 1] == ScaleLabel(i)
    ensures MapArgs(n)[4 * i + 2] == "-map" && MapArgs(n)[4 * i + 3] == "0:a:0"
  {
    MapArgsLayout(n);
    var block := MapArgs(n)[4 * i .. 4 * i + 4];
    assert block == MapBlock(i);
    assert block[1] == MapArgs(n)[4 * i + 1] && block[3] == MapArgs(n)[4 * i + 3];
    assert block[0] == MapArgs(n)[4 * i] && block[2] == MapArgs(n)[4 * i + 2];
  }

  /** Rate block i, read off the flat option list. */
  lemma RateOptionsAt(l: seq<Rendition>, i: nat)
    requires i < |l|
    ensures |RateOptions(l)| == 3 * |l|
    ensures RateOptions(l)[3 * i] == "-b:v:" + ShowNat(i) + " " + BitrateText(l[i])
    ensures RateOptions(l)[3 * i + 1] == "-maxrate:v:" + ShowNat(i) + " " + BitrateText(l[i])
    ensures RateOptions(l)[3 * i + 2] == "-bufsize:v:" + ShowNat(i) + " " + BitrateText(l[i])
  {
    RateOptionsLayout(l);
    var block := RateOptions(l)[3 * i .. 3 * i + 3];
    assert block == RateBlock(l[i], i);
    assert block[0] == RateOptions(l)[3 * i];
    assert block[1] == RateOptions(l)[3 * i + 1];
    assert block[2] == RateOptions(l)[3 * i + 2];
  }

  /**
   * Index consistency: for ladder entry i, scale segment i scales to that tier and is
   * labelled `[v<i>]`, map block i takes `[v<i>]`, variant entry i is `v:<i>,a:<i>`, and
   * the three rate options for video stream i carry exactly that tier's bitrate.
   */
  lemma RenditionIndexConsistent(l: seq<Rendition>, i: nat)
    requires i < |l|
    ensures Segments(l)[i] == ScaleFilter(l[i]) + ScaleLabel(i)
    ensures |MapArgs(|l|)| == 4 * |l| && MapArgs(|l|)[4 * i + 1] == ScaleLabel(i)
    ensures Entries(|l|)[i] == "v:" + ShowNat(i) + ",a:" + ShowNat(i)
    ensures |RateOptions(l)| == 3 * |l|
    ensures RateOptions(l)[3 * i] == "-b:v:" + ShowNat(i) + " " + BitrateText(l[i])
    ensures RateOptions(l)[3 * i + 1] == "-maxrate:v:" + ShowNat(i) + " " + BitrateText(l[i])
    ensures RateOptions(l)[3 * i + 2] == "-bufsize:v:" + ShowNat(i) + " " + BitrateText(l[i])
  {
    MapArgsAt(|l|, i);
    RateOptionsAt(l, i);
  }

  /** The filter graph splits at ';' back into the scale segments, so it has no trailing ';'. */
  lemma FilterGraphSplits(l: seq<Rendition>)
    requires |l| > 0
    ensures Split(FilterGraph(l), ';') == Segments(l)
  {
    var segs := Segments(l);
    forall i | 0 <= i < |segs|
      ensures ';' !in segs[i]
    {
      SegmentHasNoSemicolon(l[i], i);
    }
    SplitJoin(segs, ';');
  }

  lemma SegmentHasNoSemicolon(r: Rendition, i: nat)
    ensures ';' !in ScaleSegment(r, i)
  {
    var w, h, n := ShowNat(r.width), ShowNat(r.height), ShowNat(i);
    DigitsExclude(w, ';');
    DigitsExclude(h, ';');
    DigitsExclude(n, ';');
    var head, mid, tail := "[0:v:0]scale=w=", ":h=", ":force_original_aspect_ratio=decrease";
    assert ';' !in head && ';' !in mid && ';' !in tail && ';' !in "[v" && ';' !in "]";
    assert ScaleSegment(r, i) == head + w + mid + h + tail + ("[v" + n + "]");
  }

  /** The stream map splits at ' ' back into the variant entries: single spaces, none at the ends. */
  lemma VarStreamMapSplits(n: nat)
    requires n > 0
    ensures Split(VarStreamMap(n), ' ') == Entries(n)
    ensures VarStreamMap(n)[0] == 'v' && IsDigit(VarStreamMap(n)[|VarStreamMap(n)| - 1])
  {
    var es := Entries(n);
    forall i | 0 <= i < n
      ensures ' ' !in es[i]
    {
      assert ' ' !in ShowNat(i);
    }
    SplitJoin(es, ' ');
    EntriesFrame(n);
    JoinEnds(" ", es);
  }

  // ---------------------------------------------------------------------------
  // The directives for the fixed ladder

  /** Tier i of the fixed ladder scales to the listed width and height and is labelled `[v<i>]`. */
  lemma LadderSegments()
    ensures forall i :: 0 <= i < 5 ==>
      Segments(Ladder())[i] ==
        "[0:v:0]scale=w=" + ["426", "640", "854", "1280", "1920"][i]
        + ":h=" + ["240", "360", "480", "720", "1080"][i]
        + ":force_original_aspect_ratio=decrease"
        + "[v" + ["0", "1", "2", "3", "4"][i] + "]"
  {
    var s := Segments(Ladder());
    LadderNumerals();
    forall i | 0 <= i < 5
      ensures s[i] ==
        "[0:v:0]scale=w=" + ["426", "640", "854", "1280", "1920"][i]
        + ":h=" + ["240", "360", "480", "720", "1080"][i]
        + ":force_original_aspect_ratio=decrease"
        + "[v" + ["0", "1", "2", "3", "4"][i] + "]"
    {
      var r := Ladder()[i];
      assert s[i] == ScaleSegment(r, i);
      if i == 0 {
        SegmentText(r, i, "426", "240", "0");
      } else if i == 1 {
        SegmentText(r, i, "640", "360", "1");
      } else if i == 2 {
        SegmentText(r, i, "854", "480", "2");
      } else if i == 3 {
        SegmentText(r, i, "1280", "720", "3");
      } else {
        SegmentText(r, i, "1920", "1080", "4");
      }
    }
  }

  lemma LadderNumerals()
    ensures ShowNat(426) == "426" && ShowNat(640) == "640" && ShowNat(854) == "854"
    ensures ShowNat(1280) == "1280" && ShowNat(1920) == "1920"
    ensures ShowNat(240) == "240" && ShowNat(360) == "360" && ShowNat(480) == "480"
    ensures ShowNat(720) == "720" && ShowNat(1080) == "1080"
    ensures ShowNat(0) == "0" && ShowNat(1) == "1" && ShowNat(2) == "2" && ShowNat(3) == "3" && ShowNat(4) == "4"
  {
    WidthNumerals();
    HeightNumerals();
  }

  lemma WidthNumerals()
    ensures ShowNat(426) == "426" && ShowNat(640) == "640" && ShowNat(854) == "854"
    ensures ShowNat(1280) == "1280" && ShowNat(1920) == "1920"
  {
    assert ShowNat(426) == "426" by { assert ShowNat(42) == "42"; }
    assert ShowNat(640) == "640" by { assert ShowNat(64) == "64"; }
    assert ShowNat(854) == "854" by { assert ShowNat(85) == "85"; }
    assert ShowNat(1280) == "1280" by { assert ShowNat(128) == "128"; }
    assert ShowNat(1920) == "1920" by { assert ShowNat(192) == "192"; }
  }

  lemma HeightNumerals()
    ensures ShowNat(240) == "240" && ShowNat(360) == "360" && ShowNat(480) == "480"
    ensures ShowNat(720) == "720" && ShowNat(1080) == "1080"
  {
    assert ShowNat(240) == "240" by { assert ShowNat(24) == "24"; }
    assert ShowNat(360) == "360" by { assert ShowNat(36) == "36"; }
    assert ShowNat(480) == "480" by { assert ShowNat(48) == "48"; }
    assert ShowNat(720) == "720" by { assert ShowNat(72) == "72"; }
    assert ShowNat(1080) == "1080" by { assert ShowNat(108) == "108"; }
  }

  lemma SegmentText(r: Rendition, i: nat, w: string, h: string, k: string)
    requires ShowNat(r.width) == w && ShowNat(r.height) == h && ShowNat(i) == k
    ensures ScaleSegment(r, i) ==
      "[0:v:0]scale=w=" + w + ":h=" + h + ":force_original_aspect_ratio=decrease" + "[v" + k + "]"
  {
  }

  /** The filter graph for the fixed ladder: its five segments, low to high, joined by ';'. */
  lemma LadderFilterGraph()
    ensures var s := Segments(Ladder());
      |s| == 5 && FilterGraph(Ladder()) == s[0] + ";" + s[1] + ";" + s[2] + ";" + s[3] + ";" + s[4]
  {
    JoinFive(";", Segments(Ladder()));
  }

  /** The stream map for the fixed ladder, written out. */
  lemma LadderVarStreamMap()
    ensures VarStreamMap(|Ladder()|) == "v:0,a:0" + " " + "v:1,a:1" + " " + "v:2,a:2" + " " + "v:3,a:3" + " " + "v:4,a:4"
  {
    var e := Entries(5);
    assert e[0] == "v:0,a:0" by { assert e[0] == VariantEntry(0); }
    assert e[1] == "v:1,a:1" by { assert e[1] == VariantEntry(1); }
    assert e[2] == "v:2,a:2" by { assert e[2] == VariantEntry(2); }
    assert e[3] == "v:3,a:3" by { assert e[3] == VariantEntry(3); }
    assert e[4] == "v:4,a:4" by { assert e[4] == VariantEntry(4); }
    JoinFive(" ", e);
  }

  lemma JoinFive(sep: string, p: seq<string>)
    requires |p| == 5
    ensures JoinWith(sep, p) == p[0] + sep + p[1] + sep + p[2] + sep + p[3] + sep + p[4]
  {
    var p4, p3, p2 := p[..4], p[..3], p[..2];
    assert p4[..3] == p3 && p3[..2] == p2 && p2[..1] == [p[0]];
    assert JoinWith(sep, p2) == p[0] + sep + p[1];
    assert JoinWith(sep, p3) == JoinWith(sep, p2) + sep + p[2];
    assert JoinWith(sep, p4) == JoinWith(sep, p3) + sep + p[3];
  }

  /** Twenty map arguments, and every variant gets the same first audio track. */
  lemma LadderMapArgs()
    ensures |MapArgs(|Ladder()|)| == 20
    ensures forall i :: 0 <= i < 5 ==> MapArgs(5)[4 * i + 1] == ScaleLabel(i) && MapArgs(5)[4 * i + 3] == "0:a:0"
  {
    forall i | 0 <= i < 5
      ensures MapArgs(5)[4 * i + 1] == ScaleLabel(i) && MapArgs(5)[4 * i + 3] == "0:a:0"
    {
      MapArgsAt(5, i);
    }
    MapArgsAt(5, 0);
  }
}
