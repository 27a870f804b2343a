/**
 * `processVideo`: one job from the moment the queue hands it over to its terminal
 * outcome. The job tells the user it is locating the file, resolves the file's path on
 * the volume shared with the local Bot API server, makes its output directory, tells the
 * user transcoding has started, starts ffmpeg with the planned invocation, forwards
 * ffmpeg's progress reports, and on a clean end records the result and sends the link.
 *
 * What the outside world answers is an input: whether `getFile` succeeds, whether the
 * source file and the output directory exist, whether `mkdirSync` throws, ffmpeg's
 * progress reports and how it ends, and whether the database insert throws. The job
 * identifier (a fresh UUID in the system) is an input too. A run is observed as the
 * sequence of effects it performs and the way its promise settles.
 */
module Transcoder {
  import opened Wrappers
  import opened Text
  import opened Planner
  import opened Naming
  import opened Command
  import opened Progress

  /** Process configuration: `BOT_TOKEN`, `PUBLIC_URL`, and the media output root. */
  datatype Config = Config(botToken: Option<string>, publicUrl: Option<string>, mediaRoot: string)

  /** The parts of a queued task the job uses; chat and message identifiers only route notifications. */
  datatype Task = Task(fileId: string, fileName: string)

  /** How ffmpeg's run ends: the 'end' event, or the 'error' event with its cause. */
  datatype Termination = Ended | Errored(cause: string)

  /** What the outside world answers to the job. */
  datatype World = World(
    getFile: Result<string, string>,   // the file's path relative to the bot's storage, or the error
    sourceExists: bool,
    outputDirExists: bool,
    mkdirError: Option<string>,        // what mkdirSync throws, if it throws
    reports: seq<Option<real>>,        // ffmpeg's progress reports, in order
    termination: Termination,
    insertThrows: bool)

  /** The row written to the `videos` table. */
  datatype VideoRecord = VideoRecord(telegramFileId: string, originalName: string, hlsUrl: string, status: string)

  /** One effect of a run, in the order the run performs it. */
  datatype Event =
    | Notify(text: string)                            // updateProgress(..., text)
    | MakeDir(path: string)                           // fs.mkdirSync(path, { recursive: true })
    | Spawn(invocation: Invocation)                   // command.save(...) starts ffmpeg
    | Insert(record: VideoRecord, threw: bool)        // the insert is attempted; threw tells whether it threw

  /** Why the promise of `processVideo` rejects. */
  datatype JobError =
    | FileLookupFailed(reason: string)                // ctx.telegram.getFile rejects
    | TokenMissing                                    // path.join throws on an unset BOT_TOKEN
    | SourceNotFound(path: string)
    | OutputDirFailed(reason: string)
    | TranscodeFailed(cause: string)

  datatype Outcome = Resolved | Rejected(error: JobError)

  datatype Run = Run(trace: seq<Event>, outcome: Outcome)

  const LocatingText: string := "\U{1F4E5} Locating file on local server..."

  const StartedText: string := "\U{2699}\U{FE0F}" + " Transcoding started... (This may take a while)"

  const CompletionHead: string := "\U{2705} **Processing Complete!**\n\n" + "\U{1F517} **HLS Link:**\n"

  function CompletionText(link: string): string
  {
    CompletionHead + link
  }

  /** The message of the error the job's promise rejects with, for each way it can fail. */
  function ErrorMessage(e: JobError): string
  {
    match e
    case FileLookupFailed(reason) => reason
    case TokenMissing => "The \"path\" argument must be of type string. Received undefined"
    case SourceNotFound(path) =>
      "File not found on local volume at " + path + ". Ensure volumes are mapped correctly."
    case OutputDirFailed(reason) => reason
    case TranscodeFailed(cause) => cause
  }

  function ProgressEvents(percents: seq<int>): seq<Event>
  {
    seq(|percents|, i requires 0 <= i < |percents| => Notify(ProgressText(percents[i])))
  }

  /** The record the job writes once ffmpeg has ended. */
  function Record(task: Task, link: string): VideoRecord
  {
    VideoRecord(task.fileId, task.fileName, link, "completed")
  }

  /** The source is found and the output directory is in place: ffmpeg is started. */
  predicate Starts(config: Config, w: World)
  {
    && w.getFile.Success?
    && config.botToken.Some?
    && w.sourceExists
    && (w.outputDirExists || w.mkdirError.None?)
  }

  /** The "Locating" message, then the output directory is made unless it exists. */
  function Prepared(outputDir: string, outputDirExists: bool): seq<Event>
  {
    [Notify(LocatingText)] + (if outputDirExists then [] else [MakeDir(outputDir)])
  }

  /** The insert is attempted, then the link is sent. */
  function Completion(task: Task, link: string, insertThrows: bool): seq<Event>
  {
    [Insert(Record(task, link), insertThrows), Notify(CompletionText(link))]
  }

  /** Transcoding is announced, ffmpeg is started, and its progress reports are forwarded. */
  function Transcode(plan: (string, string) -> Invocation, source: string, outputDir: string, reports: seq<Option<real>>): seq<Event>
  {
    [Notify(StartedText), Spawn(plan(source, outputDir))] + ProgressEvents(NotifiedPercents(reports))
  }

  /**
   * The effects and settlement of one run of `processVideo`, for any rule `plan` that
   * turns the source path and output directory into the ffmpeg invocation.
   */
  function JobRunWith(plan: (string, string) -> Invocation, config: Config, task: Task, jobId: string, w: World): Run
  {
    var located := [Notify(LocatingText)];
    match w.getFile
    case Failure(reason) => Run(located, Rejected(FileLookupFailed(reason)))
    case Success(filePath) =>
      if config.botToken.None? then Run(located, Rejected(TokenMissing))
      else
        var source := SourcePath(config.botToken.value, filePath);
        if !w.sourceExists then Run(located, Rejected(SourceNotFound(source)))
        else
          var outputDir := OutputDir(config.mediaRoot, jobId);
          var prepared := Prepared(outputDir, w.outputDirExists);
          if !w.outputDirExists && w.mkdirError.Some? then Run(prepared, Rejected(OutputDirFailed(w.mkdirError.value)))
          else
            var running := prepared + Transcode(plan, source, outputDir, w.reports);
            match w.termination
            case Errored(cause) => Run(running, Rejected(TranscodeFailed(cause)))
            case Ended =>
              var link := ResultLink(PublicUrl(config.publicUrl), jobId);
              Run(running + Completion(task, link, w.insertThrows), Resolved)
  }

  /** The effects and settlement of one run of `processVideo` with the rendition ladder of lines 43-49. */
  function JobRun(config: Config, task: Task, jobId: string, w: World): Run
  {
    JobRunWith(PlannedInvocation, config, task, jobId, w)
  }

  /**
   * `processVideo` step by step. ffmpeg's progress events are delivered to the handler
   * one at a time, in order, before its terminal event.
   */
  method ProcessVideo(config: Config, task: Task, jobId: string, w: World) returns (trace: seq<Event>, outcome: Outcome)
    ensures Run(trace, outcome) == JobRun(config, task, jobId, w)
  {
    var outputDir := OutputDir(config.mediaRoot, jobId);
    trace := [Notify(LocatingText)];
    if w.getFile.Failure? {
      return trace, Rejected(FileLookupFailed(w.getFile.error));
    }
    var filePath := w.getFile.value;
    if config.botToken.None? {
      return trace, Rejected(TokenMissing);
    }
    var sourcePath := SourcePath(config.botToken.value, filePath);
    if !w.sourceExists {
      return trace, Rejected(SourceNotFound(sourcePath));
    }
    if !w.outputDirExists {
      trace := trace + [MakeDir(outputDir)];
      if w.mkdirError.Some? {
        return trace, Rejected(OutputDirFailed(w.mkdirError.value));
      }
    }
    assert trace == Prepared(outputDir, w.outputDirExists);
    var running := StartTranscode(sourcePath, outputDir, w.reports);
    trace := trace + running;
    match w.termination
    case Errored(cause) =>
      outcome := Rejected(TranscodeFailed(cause));
    case Ended =>
      var resultLink := ResultLink(PublicUrl(config.publicUrl), jobId);
      trace := trace + [Insert(Record(task, resultLink), w.insertThrows), Notify(CompletionText(resultLink))];
      outcome := Resolved;
  }

  /** Lines 51-118 and 145: announce, build and start the command, forward its progress. */
  method StartTranscode(source: string, outputDir: string, reports: seq<Option<real>>) returns (events: seq<Event>)
    ensures events == Transcode(PlannedInvocation, source, outputDir, reports)
  {
    events := [Notify(StartedText)];
    var command := BuildCommand(source, outputDir, Ladder());
    events := events + [Spawn(command.Snapshot())];
    var notes := ForwardProgress(reports);
    events := events + notes;
    assert events == [Notify(StartedText), Spawn(PlannedInvocation(source, outputDir))] + notes;
  }

  /**
   * The 'progress' handler applied to each of ffmpeg's reports in turn: the messages it
   * sends, in report order.
   */
  method ForwardProgress(reports: seq<Option<real>>) returns (notes: seq<Event>)
    ensures notes == ProgressEvents(NotifiedPercents(reports))
  {
    notes := [];
    var i := 0;
    while i < |reports|
      invariant i <= |reports|
      invariant notes == ProgressEvents(NotifiedPercents(reports[..i]))
    {
      var message := OnProgress(reports[i]);
      if reports[i].Some? {
        SendsIffInWindow(reports[i].value);
      }
      ghost var before := NotifiedPercents(reports[..i]);
      NotifiedSnoc(reports[..i], reports[i]);
      assert reports[..i + 1] == reports[..i] + [reports[i]];
      if message.Some? {
        notes := notes + [Notify(message.value)];
        assert ProgressEvents(before + [reports[i].value.Floor]) == ProgressEvents(before) + [Notify(message.value)];
      } else {
        assert before + [] == before;
      }
      i := i + 1;
    }
    assert reports[..i] == reports;
  }

  // ---------------------------------------------------------------------------

  /** The first effect of every run is the "Locating" message. */
  lemma LocatingFirst(plan: (string, string) -> Invocation, config: Config, task: Task, jobId: string, w: World)
    ensures var r := JobRunWith(plan, config, task, jobId, w);
      |r.trace| >= 1 && r.trace[0] == Notify(LocatingText)
  {
  }

  /** A job succeeds exactly when ffmpeg is started and ends cleanly; the insert does not matter. */
  lemma ResolvedIff(plan: (string, string) -> Invocation, config: Config, task: Task, jobId: string, w: World)
    ensures JobRunWith(plan, config, task, jobId, w).outcome == Resolved <==> Starts(config, w) && w.termination == Ended
  {
  }

  /**
   * A missing source file rejects with the path it looked at, right after the "Locating"
   * message: no output directory is made, no "Transcoding started" is sent.
   */
  lemma MissingSourceAbortsEarly(plan: (string, string) -> Invocation, config: Config, task: Task, jobId: string, w: World)
    requires w.getFile.Success? && config.botToken.Some? && !w.sourceExists
    ensures var r := JobRunWith(plan, config, task, jobId, w);
      && r.outcome == Rejected(SourceNotFound(SourcePath(config.botToken.value, w.getFile.value)))
      && r.trace == [Notify(LocatingText)]
      && ErrorMessage(r.outcome.error)
         == "File not found on local volume at " + LocalApiDir + "/" + config.botToken.value + "/"
            + w.getFile.value + ". Ensure volumes are mapped correctly."
  {
  }

  /** The directories a trace calls `mkdirSync` on, in order. */
  function MadeDirs(trace: seq<Event>): seq<string>
  {
    if |trace| == 0 then []
    else MadeDirs(trace[..|trace| - 1]) + (if trace[|trace| - 1].MakeDir? then [trace[|trace| - 1].path] else [])
  }

  lemma {:induction false} MadeDirsConcat(a: seq<Event>, b: seq<Event>)
    ensures MadeDirs(a + b) == MadeDirs(a) + MadeDirs(b)
  {
    if |b| > 0 {
      var init := b[..|b| - 1];
      MadeDirsConcat(a, init);
      assert (a + b)[..|a + b| - 1] == a + init;
    } else {
      assert a + b == a;
    }
  }

  lemma {:induction false} NoMadeDirs(t: seq<Event>)
    requires forall k :: 0 <= k < |t| ==> !t[k].MakeDir?
    ensures MadeDirs(t) == []
  {
    if |t| > 0 {
      NoMadeDirs(t[..|t| - 1]);
    }
  }

  lemma PreparedDirs(outputDir: string, outputDirExists: bool)
    ensures MadeDirs(Prepared(outputDir, outputDirExists)) == if outputDirExists then [] else [outputDir]
  {
    var located := [Notify(LocatingText)];
    assert MadeDirs(located) == [] by {
      assert located[..0] == [];
    }
    if !outputDirExists {
      assert Prepared(outputDir, outputDirExists)[..1] == located;
    } else {
      assert Prepared(outputDir, outputDirExists) == located;
    }
  }

  /** Once ffmpeg is started, the run calls `mkdirSync` no further. */
  lemma StartedDirs(plan: (string, string) -> Invocation, config: Config, task: Task, jobId: string, w: World)
    requires Starts(config, w)
    ensures MadeDirs(JobRunWith(plan, config, task, jobId, w).trace)
         == MadeDirs(Prepared(OutputDir(config.mediaRoot, jobId), w.outputDirExists))
  {
    var outputDir := OutputDir(config.mediaRoot, jobId);
    var source := SourcePath(config.botToken.value, w.getFile.value);
    var link := ResultLink(PublicUrl(config.publicUrl), jobId);
    var prepared := Prepared(outputDir, w.outputDirExists);
    var t := Transcode(plan, source, outputDir, w.reports);
    var c := if w.termination == Ended then Completion(task, link, w.insertThrows) else [];
    StartedRun(plan, config, task, jobId, w);
    assert JobRunWith(plan, config, task, jobId, w).trace == prepared + t + c;
    TranscodeEvents(plan, source, outputDir, w.reports);
    NoMadeDirs(t);
    NoMadeDirs(c);
    MadeDirsConcat(prepared, t);
    MadeDirsConcat(prepared + t, c);
  }

  /**
   * A run calls `mkdirSync` exactly once, on the job's own output directory, when the
   * source was found and the directory did not exist; otherwise it never calls it.
   */
  lemma MakeDirOnlyForJob(plan: (string, string) -> Invocation, config: Config, task: Task, jobId: string, w: World)
    ensures MadeDirs(JobRunWith(plan, config, task, jobId, w).trace) ==
      if w.getFile.Success? && config.botToken.Some? && w.sourceExists && !w.outputDirExists
      then [OutputDir(config.mediaRoot, jobId)] else []
  {
    var outputDir := OutputDir(config.mediaRoot, jobId);
    PreparedDirs(outputDir, w.outputDirExists);
    if Starts(config, w) {
      StartedDirs(plan, config, task, jobId, w);
    } else if w.getFile.Success? && config.botToken.Some? && w.sourceExists {
      assert JobRunWith(plan, config, task, jobId, w).trace == Prepared(outputDir, w.outputDirExists);
    } else {
      PreparedDirs(outputDir, true);
    }
  }

  /** Once ffmpeg is started and until it ends, a run only spawns it and sends messages starting with '⚙'. */
  lemma TranscodeEvents(plan: (string, string) -> Invocation, source: string, outputDir: string, reports: seq<Option<real>>)
    ensures forall k :: 0 <= k < |Transcode(plan, source, outputDir, reports)| ==>
      var e := Transcode(plan, source, outputDir, reports)[k];
      (e.Notify? && e.text[0] == '\U{2699}') || e.Spawn?
  {
    var t := Transcode(plan, source, outputDir, reports);
    var p := ProgressEvents(NotifiedPercents(reports));
    assert t == [Notify(StartedText), Spawn(plan(source, outputDir))] + p;
    ProgressEventsAreNotifications(NotifiedPercents(reports));
    MessageHeads();
    forall k | 2 <= k < |t|
      ensures t[k].Notify? && t[k].text[0] == '\U{2699}'
    {
      assert t[k] == p[k - 2];
    }
  }

  lemma ProgressEventsAreNotifications(percents: seq<int>)
    ensures forall k :: 0 <= k < |ProgressEvents(percents)| ==>
      ProgressEvents(percents)[k].Notify? && ProgressEvents(percents)[k].text[0] == '\U{2699}'
  {
  }

  /** The emoji each fixed message starts with. */
  lemma MessageHeads()
    ensures LocatingText[0] == '\U{1F4E5}' && StartedText[0] == '\U{2699}' && CompletionHead[0] == '\U{2705}'
  {
  }

  predicate IsCompletion(e: Event)
  {
    e.Notify? && |e.text| >= |CompletionHead| && e.text[..|CompletionHead|] == CompletionHead
  }

  /**
   * An ffmpeg error rejects with its cause after forwarding the progress reports; nothing
   * is inserted and no completion message is sent.
   */
  lemma TranscodeErrorRejects(plan: (string, string) -> Invocation, config: Config, task: Task, jobId: string, w: World)
    requires Starts(config, w) && w.termination.Errored?
    ensures var r := JobRunWith(plan, config, task, jobId, w);
      && r.outcome == Rejected(TranscodeFailed(w.termination.cause))
      && forall k :: 0 <= k < |r.trace| ==> !r.trace[k].Insert? && !IsCompletion(r.trace[k])
  {
    var r := JobRunWith(plan, config, task, jobId, w);
    var outputDir := OutputDir(config.mediaRoot, jobId);
    var source := SourcePath(config.botToken.value, w.getFile.value);
    var prepared := Prepared(outputDir, w.outputDirExists);
    var t := Transcode(plan, source, outputDir, w.reports);
    StartedRun(plan, config, task, jobId, w);
    assert r.trace == prepared + t;
    TranscodeEvents(plan, source, outputDir, w.reports);
    MessageHeads();
    forall k | 0 <= k < |r.trace|
      ensures !r.trace[k].Insert? && !IsCompletion(r.trace[k])
    {
      if k < |prepared| {
        assert r.trace[k] == prepared[k];
      } else {
        assert r.trace[k] == t[k - |prepared|];
      }
    }
  }

  /** The effects of a run that starts ffmpeg, phase by phase. */
  lemma StartedRun(plan: (string, string) -> Invocation, config: Config, task: Task, jobId: string, w: World)
    requires Starts(config, w)
    ensures var outputDir := OutputDir(config.mediaRoot, jobId);
      var source := SourcePath(config.botToken.value, w.getFile.value);
      var link := ResultLink(PublicUrl(config.publicUrl), jobId);
      JobRunWith(plan, config, task, jobId, w) ==
        if w.termination == Ended
        then Run(Prepared(outputDir, w.outputDirExists) + Transcode(plan, source, outputDir, w.reports)
                 + Completion(task, link, w.insertThrows), Resolved)
        else Run(Prepared(outputDir, w.outputDirExists) + Transcode(plan, source, outputDir, w.reports),
                 Rejected(TranscodeFailed(w.termination.cause)))
  {
  }

  /**
   * A clean end attempts the insert with the link and then sends the completion message
   * carrying that link as its last effect, and the job resolves — whether or not the
   * insert throws.
   */
  lemma EndCompletesDespiteInsert(plan: (string, string) -> Invocation, config: Config, task: Task, jobId: string, w: World)
    requires Starts(config, w) && w.termination == Ended
    ensures var r := JobRunWith(plan, config, task, jobId, w);
      var link := PublicUrl(config.publicUrl) + "/stream/" + jobId + "/master.m3u8";
      && r.outcome == Resolved
      && |r.trace| >= 2
      && r.trace[|r.trace| - 2] == Insert(VideoRecord(task.fileId, task.fileName, link, "completed"), w.insertThrows)
      && r.trace[|r.trace| - 1] == Notify(CompletionText(link))
  {
    StartedRun(plan, config, task, jobId, w);
    ResultLinkText(PublicUrl(config.publicUrl), jobId);
  }

  /** Whether the insert throws changes nothing but the insert's own result. */
  lemma InsertFailureIsHarmless(plan: (string, string) -> Invocation, config: Config, task: Task, jobId: string, w: World)
    ensures var ok := JobRunWith(plan, config, task, jobId, w.(insertThrows := false));
      var thrown := JobRunWith(plan, config, task, jobId, w.(insertThrows := true));
      && ok.outcome == thrown.outcome
      && |ok.trace| == |thrown.trace|
      && forall k :: 0 <= k < |ok.trace| && !ok.trace[k].Insert? ==> ok.trace[k] == thrown.trace[k]
  {
    var w0, w1 := w.(insertThrows := false), w.(insertThrows := true);
    if Starts(config, w) && w.termination == Ended {
      StartedRun(plan, config, task, jobId, w0);
      StartedRun(plan, config, task, jobId, w1);
      var outputDir := OutputDir(config.mediaRoot, jobId);
      var source := SourcePath(config.botToken.value, w.getFile.value);
      var link := ResultLink(PublicUrl(config.publicUrl), jobId);
      var running := Prepared(outputDir, w.outputDirExists) + Transcode(plan, source, outputDir, w.reports);
      var ok, thrown := JobRunWith(plan, config, task, jobId, w0), JobRunWith(plan, config, task, jobId, w1);
      var c0, c1 := Completion(task, link, false), Completion(task, link, true);
      assert ok.trace == running + c0;
      assert thrown.trace == running + c1;
      forall k | 0 <= k < |ok.trace| && !ok.trace[k].Insert?
        ensures ok.trace[k] == thrown.trace[k]
      {
        if k >= |running| {
          assert ok.trace[k] == c0[k - |running|] && thrown.trace[k] == c1[k - |running|];
        }
      }
    } else {
      assert JobRunWith(plan, config, task, jobId, w0) == JobRunWith(plan, config, task, jobId, w1);
    }
  }

  /** Two jobs for the same file get different output directories, make only their own, and get different links. */
  lemma JobsDoNotShare(plan: (string, string) -> Invocation, config: Config, task: Task, a: string, b: string, w: World)
    requires a != b && Starts(config, w)
    ensures OutputDir(config.mediaRoot, a) != OutputDir(config.mediaRoot, b)
    ensures !w.outputDirExists ==>
      && MadeDirs(JobRunWith(plan, config, task, a, w).trace) == [OutputDir(config.mediaRoot, a)]
      && MadeDirs(JobRunWith(plan, config, task, b, w).trace) == [OutputDir(config.mediaRoot, b)]
    ensures ResultLink(PublicUrl(config.publicUrl), a) != ResultLink(PublicUrl(config.publicUrl), b)
  {
    OutputDirsDistinct(config.mediaRoot, a, b);
    LinksDistinct(PublicUrl(config.publicUrl), a, b);
    MakeDirOnlyForJob(plan, config, task, a, w);
    MakeDirOnlyForJob(plan, config, task, b, w);
  }
}
