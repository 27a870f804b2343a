# Video transcoding job: a Dafny model

This project models `processVideo`, the function of the video bot that runs one transcoding
job. It takes a video a user uploaded through the chat bot. It resolves the file on the volume
shared with the local Bot API server and makes a per-job output directory. It then starts one
ffmpeg process that writes a five-tier HLS package, forwards ffmpeg's progress to the user, and
on success records the result in the `videos` table and sends the user the link to the master
playlist.

The modules follow the structure of the code:

- `Planner`: the quality ladder and the encoder directives built from it (the filter graph, the
  `-map` list, the `-var_stream_map` value, the fixed HLS options and the per-variant rate
  options). The `forEach` loop that builds them is the method `PlanVariants`. It is proved
  against specification functions, and the lemmas say what those functions mean: index
  consistency, splitting back into parts, and the exact text for the fixed ladder.
- `Command`: fluent-ffmpeg's command builder as a class whose methods update its fields. The
  method `BuildCommand` builds the command for a ladder, and `SetRateOptions` is the second
  `forEach` loop. The lemmas state what the started invocation carries.
- `Progress`: the `progress` handler, as a predicate and the message it sends, together with
  the percentages a stream of reports produces.
- `Naming`: the source path, the output directory, the playlist names, the public base address
  and the result link.
- `Transcoder`: the job itself. `JobRunWith` specifies one run as a trace of effects (messages
  sent, directory made, ffmpeg started, row inserted) and the way the promise settles.
  `ProcessVideo` performs the run step by step and is proved equal to `JobRun`, the
  specification for the planned invocation. The lemmas about runs hold for any plan, so they
  hold for `JobRun` in particular.
- `Text`: JavaScript's number-to-string rendering in template literals, appending with a
  terminator, `trim` and `slice(0, -1)`, as the code uses them. Joining with a separator and
  splitting at a character are specification tools that say what the built text means.
- `Wrappers`: `Option` and `Result`.

The outside world enters as inputs:

- whether `getFile` succeeds and with what path;
- whether `BOT_TOKEN` is set;
- whether the source file and the output directory exist;
- whether `mkdirSync` throws;
- ffmpeg's progress reports and how it ends;
- whether the database insert throws.

The job identifier, a fresh UUID in the system, is an input too.

**Where the stated intent and the code differ, the model follows the code.**

- The comment on the progress handler (`src/transcoder.js:115`) says it should update the user
  only every 10%, to avoid flooding the chat API. The handler (`src/transcoder.js:116`) keeps no
  state. It sends whenever the percentage is non-zero and its floor is a multiple of ten. So:
  - the reports 3, 11, 27, 99, 100 send only "100% done", not 10%, 20% and 90% (`BoundaryExample`);
  - a jump from 9 to 27 sends nothing, although it passes 10% and 20% (`JumpSendsNothing`);
  - every report in [10, 11) sends "10% done" again (`RepeatsWithinWindow`);
  - a report in (0, 1) sends "0% done" (`FractionReportsZero`).

  The notified percentages are non-decreasing whenever ffmpeg's reports are
  (`NotifiedPercentsMonotone`).

The output directory is made only when it does not exist yet (`src/transcoder.js:34-36`); a
directory that exists is reused (`MakeDirOnlyForJob`).

## Model

| member | source | states |
|---|---|---|
| Planner.Ladder | src/transcoder.js:43-49 | the ladder has five tiers, strictly ascending in width, height and bitrate |
| Planner.LadderBitrates | src/transcoder.js:44-48 | the tiers' bitrates are written 400k, 800k, 1400k, 2800k, 5000k, in ladder order |
| Planner.ScaleSegment | src/transcoder.js:70 | the filter-graph segment of tier i, scaling to its width and height, labelled `[v<i>]` (`RenditionIndexConsistent`, `SegmentHasNoSemicolon`, `LadderSegments`) |
| Planner.MapBlock | src/transcoder.js:72 | the four map arguments of variant i (`MapArgsLayout`) |
| Planner.VariantEntry | src/transcoder.js:78 | the stream-map entry `v:<i>,a:<i>` (`EntriesFrame`, `VarStreamMapSplits`, `LadderVarStreamMap`) |
| Planner.RateBlock | src/transcoder.js:107 | the three rate options of video stream i, each carrying the tier's bitrate (`RateOptionsAt`) |
| Planner.FilterGraph | src/transcoder.js:64-82 | the whole filter graph: the segments joined by ';' (`PlanVariants`, `FilterGraphSplits`, `LadderFilterGraph`) |
| Planner.MapArgs | src/transcoder.js:65-72 | the whole map list, blocks in variant order (`PlanVariants`, `MapArgsLayout`, `LadderMapArgs`) |
| Planner.VarStreamMap | src/transcoder.js:66-83 | the whole stream map: the entries joined by single spaces (`PlanVariants`, `VarStreamMapSplits`, `LadderVarStreamMap`) |
| Planner.RateOptions | src/transcoder.js:106-108 | all rate options, blocks in ladder order (`SetRateOptions`, `RateOptionsLayout`) |
| Planner.PlanVariants | src/transcoder.js:64-83 | the loop and the trimming that follows it produce the filter graph, the map list and the stream map of the ladder |
| Planner.FilterGraphUnterminated | src/transcoder.js:82 | dropping the last character of the ';'-terminated segments leaves the segments joined by ';' |
| Planner.VarStreamMapTrimmed | src/transcoder.js:83 | trimming the space-terminated entries leaves the entries joined by single spaces |
| Planner.EntriesFrame | src/transcoder.js:78 | every variant entry starts with 'v' and ends with a digit |
| Planner.MapArgsLayout | src/transcoder.js:65-72 | the map list has 4n arguments, and block i is exactly `-map`, `[v<i>]`, `-map`, `0:a:0` |
| Planner.MapArgsAt | src/transcoder.js:72 | argument 4i+1 of the map list is `[v<i>]` and argument 4i+3 is `0:a:0` |
| Planner.RateOptionsLayout | src/transcoder.js:106-108 | the rate options have 3n entries, and block i is tier i's rate block |
| Planner.RateOptionsAt | src/transcoder.js:107 | options 3i, 3i+1 and 3i+2 set `-b:v:i`, `-maxrate:v:i` and `-bufsize:v:i` to tier i's bitrate |
| Planner.ScaleLabelIndex | src/transcoder.js:70-72 | the label `[v<i>]` reads back as i, so two tiers never share a label |
| Planner.RenditionIndexConsistent | src/transcoder.js:68-108 | the scale label, the map block, the variant entry and the three rate options of tier i all use index i and tier i's bitrate |
| Planner.FilterGraphSplits | src/transcoder.js:70-82 | the filter graph splits at ';' back into the scale segments, so no ';' trails |
| Planner.SegmentHasNoSemicolon | src/transcoder.js:70 | a scale segment contains no ';' |
| Planner.VarStreamMapSplits | src/transcoder.js:78-83 | the stream map splits at ' ' back into the variant entries, and starts and ends with no space |
| Planner.LadderSegments | src/transcoder.js:43-70 | segment i of the fixed ladder is `[0:v:0]scale=w=W:h=H:force_original_aspect_ratio=decrease[v<i>]` with tier i's width and height |
| Planner.LadderFilterGraph | src/transcoder.js:64-82 | the fixed ladder's filter graph is its five segments, low to high, joined by ';' |
| Planner.LadderVarStreamMap | src/transcoder.js:66-83 | the fixed ladder's stream map is `v:0,a:0 v:1,a:1 v:2,a:2 v:3,a:3 v:4,a:4` |
| Planner.LadderMapArgs | src/transcoder.js:65-72 | the fixed ladder has twenty map arguments, and every variant takes `[v<i>]` and the same first audio track |
| Planner.FixedOptions | src/transcoder.js:88-103 | the fourteen fixed options, with the stream map and the master playlist name (`PlannedOptionsLayout`, `InvocationAlignment`) |
| Command.FfmpegCommand.constructor | src/transcoder.js:51 | `ffmpeg(sourcePath)` starts a builder on the source with no filter, no options and no target |
| Command.FfmpegCommand.Native | src/transcoder.js:51 | `.native()` turns on reading at the native frame rate |
| Command.FfmpegCommand.ComplexFilter | src/transcoder.js:86 | `.complexFilter` sets the filter graph |
| Command.FfmpegCommand.OutputOptions | src/transcoder.js:87-88 | `.outputOptions` appends its options after the existing ones, in order |
| Command.FfmpegCommand.Save | src/transcoder.js:145 | `.save` sets the output target |
| Command.ApplyPlan | src/transcoder.js:85-103 | the chained calls set the filter graph and append the map list and then the fourteen fixed options |
| Command.SetRateOptions | src/transcoder.js:106-108 | the second loop appends the rate options of the whole ladder, in ladder order |
| Command.BuildCommand | src/transcoder.js:51-108 | the built command reads the source natively, carries the ladder's filter graph, then map list, fixed options and rate options, and targets `stream_%v.m3u8` in the output directory |
| Command.InvocationFor | src/transcoder.js:51-108 | the invocation built for a ladder, a source and an output directory (`BuildCommand`) |
| Command.PlannedInvocation | src/transcoder.js:43-108 | the invocation for the fixed ladder (`PlannedOptionsLayout`, `InvocationAlignment`, `InvocationIndexConsistent`) |
| Command.PlannedOptionsLayout | src/transcoder.js:85-108 | the started invocation has 49 output options: 20 map arguments, 14 fixed options, then 15 rate options |
| Command.InvocationAlignment | src/transcoder.js:88-145 | the invocation always carries `-g 48`, `-sc_threshold 0`, `-hls_time 4`, `-master_pl_name master.m3u8` and the five-variant stream map, and writes `stream_%v.m3u8` into the output directory |
| Command.InvocationIndexConsistent | src/transcoder.js:68-108 | in the started invocation, the filter graph splits at ';' into five segments with segment i scaling to tier i and labelled `[v<i>]`, map argument 4i+1 is `[v<i>]`, and options 34+3i..34+3i+2 carry tier i's bitrate for video stream i |
| Progress.Sends | src/transcoder.js:116 | the handler's condition: the percentage is present, non-zero, and its floor is a multiple of ten (characterised by `SendsIffInWindow`) |
| Progress.OnProgress | src/transcoder.js:114-118 | a report produces a message exactly when its percentage is present, non-zero and in some window [10k, 10k+1), and the message is `⚙️ Transcoding: <floor>% done` |
| Progress.NotifiedPercents | src/transcoder.js:114-118 | the percentages the handler sends for a stream of reports, in report order (properties in `NotifiedPercentsSound`, `NotifiedPercentsMonotone`, `RepeatsWithinWindow`) |
| Progress.SendsIffInWindow | src/transcoder.js:116 | a report sends exactly when its percentage is non-zero and lies in some [10k, 10k+1) |
| Progress.FractionReportsZero | src/transcoder.js:116-117 | a percentage strictly between 0 and 1 sends "0% done" |
| Progress.RepeatsWithinWindow | src/transcoder.js:114-118 | every report in [10, 11) sends 10 again, so repeats are not suppressed |
| Progress.JumpSendsNothing | src/transcoder.js:116 | the reports 9 then 27 send nothing, although they cross 10% and 20% |
| Progress.BoundaryExample | src/transcoder.js:114-118 | the reports 3, 11, 27, 99, 100 send only 100 |
| Progress.NotifiedPercentsSound | src/transcoder.js:116-117 | there are no more notifications than reports, and each notified percentage is a multiple of ten and the floor of some report |
| Progress.NotifiedPercentsMonotone | src/transcoder.js:114-118 | when ffmpeg's percentages never decrease, neither do the notified ones |
| Naming.PublicUrl | src/transcoder.js:8 | an unset or empty `PUBLIC_URL` falls back to `http://localhost:3000`; otherwise it is used as given; the base is never empty |
| Naming.SourcePath | src/transcoder.js:27 | `path.join(LOCAL_API_DIR, token, file_path)` as '/'-joins (layout in `SourcePathLayout`) |
| Naming.OutputDir | src/transcoder.js:17 | the job's directory under the media root, keyed by the job identifier (`OutputDirsDistinct`) |
| Naming.PlaylistTarget | src/transcoder.js:145 | the save target `stream_%v.m3u8` inside the output directory (`InvocationAlignment`) |
| Naming.ResultLink | src/transcoder.js:127 | the link to the master playlist (text in `ResultLinkText`, inverse in `LinkRoundTrip`) |
| Naming.ServedFile | src/index.js:28 | the file the `/stream` static route serves for a URL (`LinkServesMasterPlaylist`) |
| Naming.PlaylistTargetText | src/transcoder.js:145 | the save target is the output directory, '/', then `stream_%v.m3u8` |
| Naming.SourcePathLayout | src/transcoder.js:27 | the source path is the Bot API directory, '/', the token, '/', then `getFile`'s path |
| Naming.OutputDirsDistinct | src/transcoder.js:17 | different job identifiers give different output directories |
| Naming.ResultLinkText | src/transcoder.js:127 | the link is the base, `/stream/`, the job identifier, then `/master.m3u8` |
| Naming.LinkRoundTrip | src/transcoder.js:127 | the job identifier is read back from the link built from it |
| Naming.LinksDistinct | src/transcoder.js:127 | different jobs get different links |
| Naming.LinkServesMasterPlaylist | src/index.js:28 | the static route maps the link to `master.m3u8` inside the job's output directory |
| Naming.VariantPlaylistNamesDistinct | src/transcoder.js:145 | ffmpeg's per-variant playlist names are distinct for distinct variants and never `master.m3u8` |
| Text.ShowNatInjective | src/transcoder.js:70 | two numbers render to the same digits exactly when they are equal |
| Text.ShowNat | src/transcoder.js:70 | a whole number in a template literal is a non-empty string of digits, one digit exactly below ten (`ShowNatInjective`) |
| Text.ShowInt | src/transcoder.js:117 | a whole number in a template literal starts with '-' exactly when it is negative |
| Text.Trim | src/transcoder.js:83 | `String.prototype.trim`: removes the longest white-space prefix and suffix and nothing else (`TrimStart`, `TrimEnd`, `TrimPadded`) |
| Text.SplitJoin | src/transcoder.js:82-83 | splitting a join at its one-character separator gives back the parts when no part contains it |
| Text.TrimPadded | src/transcoder.js:83 | `trim` removes one trailing space from text that starts and ends with non-space |
| Text.DropLast | src/transcoder.js:82 | `slice(0, -1)` drops exactly the last character and leaves the empty string empty |
| Transcoder.JobRunWith | src/transcoder.js:14-146 | the effects of one run, in order, and how its promise settles, for any rule that builds the invocation; every run lemma below is about it |
| Transcoder.JobRun | src/transcoder.js:14-146 | `JobRunWith` with the invocation planned from the ladder of lines 43-49 |
| Transcoder.ErrorMessage | src/transcoder.js:23-36 | the message the promise rejects with for each failure: `getFile`'s reason, Node's message for an unset token, line 30's missing-source text with the path, `mkdirSync`'s reason, ffmpeg's cause (`MissingSourceAbortsEarly`) |
| Transcoder.Record | src/transcoder.js:131-136 | the `videos` row: file id, original name, link, status `completed` (`EndCompletesDespiteInsert`) |
| Transcoder.CompletionText | src/transcoder.js:142 | the completion message carrying the link (`EndCompletesDespiteInsert`) |
| Transcoder.Prepared | src/transcoder.js:20-36 | the "Locating" message, then `mkdirSync` on the output directory unless it exists (`PreparedDirs`, `LocatingFirst`) |
| Transcoder.Transcode | src/transcoder.js:39-118 | "Transcoding started", the spawn of the invocation, then the progress messages (`StartTranscode`, `TranscodeEvents`) |
| Transcoder.Completion | src/transcoder.js:127-142 | the insert attempt with the record and the completion message with the link (`EndCompletesDespiteInsert`, `InsertFailureIsHarmless`) |
| Transcoder.ProgressEvents | src/transcoder.js:117 | one progress message per notified percentage, in order (`ForwardProgress`, `ProgressEventsAreNotifications`) |
| Transcoder.ProcessVideo | src/transcoder.js:14-146 | the job's effects, in order, and how its promise settles are those of `JobRun` |
| Transcoder.StartTranscode | src/transcoder.js:39-118 | sends "Transcoding started", starts ffmpeg with the planned invocation, then forwards the notified progress |
| Transcoder.ForwardProgress | src/transcoder.js:114-118 | the messages the handler sends for a stream of reports are one per notified percentage, in report order |
| Transcoder.LocatingFirst | src/transcoder.js:20 | the first effect of every run is the "Locating" message |
| Transcoder.ResolvedIff | src/transcoder.js:23-143 | a run resolves exactly when the file is found, the directory is in place and ffmpeg ends cleanly |
| Transcoder.MissingSourceAbortsEarly | src/transcoder.js:29-31 | a missing source rejects with its path right after "Locating": `mkdirSync` is not called and no "Transcoding started" is sent |
| Transcoder.PreparedDirs | src/transcoder.js:34-36 | the preparation phase calls `mkdirSync` on the output directory exactly when it does not exist |
| Transcoder.StartedDirs | src/transcoder.js:38-145 | once ffmpeg is started, a run calls `mkdirSync` no further |
| Transcoder.MakeDirOnlyForJob | src/transcoder.js:27-36 | a run calls `mkdirSync` only on its own output directory, and only when the source was found and the directory did not exist |
| Transcoder.TranscodeEvents | src/transcoder.js:39-118 | while ffmpeg runs, the job only starts it and sends messages beginning with ⚙ |
| Transcoder.TranscodeErrorRejects | src/transcoder.js:120-123 | an ffmpeg error rejects with its cause, and the run inserts nothing and sends no completion message |
| Transcoder.StartedRun | src/transcoder.js:33-144 | a run that starts ffmpeg is preparation, transcoding, then on a clean end the insert and the completion message |
| Transcoder.EndCompletesDespiteInsert | src/transcoder.js:124-144 | a clean end attempts the insert of the `completed` record with the link, then sends the link as its last effect and resolves, whether or not the insert throws |
| Transcoder.InsertFailureIsHarmless | src/transcoder.js:130-139 | whether the insert throws changes nothing but the insert's own result |
| Transcoder.JobsDoNotShare | src/transcoder.js:16-36 | two jobs for the same file get different output directories and links, and each calls `mkdirSync` only on its own directory |

## Left out

- The job queue (`src/queue.js`): FIFO order and one-at-a-time execution belong to the queue library.
- The notifier's error handling is left out: the model assumes every message is delivered. Not executed, but as written `updateProgress` (`src/queue.js:28`) reads `err.description.includes`, which itself throws for an error without a `description`; the awaited calls at `src/transcoder.js:20` and `:39` would then reject the job, and the one at `:142` would leave its promise unsettled.
- `MakeDir` records the attempted `mkdirSync` call, not a directory that then exists; parent directories that `{ recursive: true }` (`src/transcoder.js:35`) also creates, such as the media root all jobs share, are not recorded.
- The HTTP server and bot handlers (`src/index.js`): only the static `/stream` route is modelled, by `Naming.ServedFile`.
- Running ffmpeg: the model builds the invocation and does not run it, and does not model the HLS playlists ffmpeg writes. `InvocationAlignment` and the other invocation lemmas are about the option strings passed to `outputOptions`; how fluent-ffmpeg splits them into arguments is not modelled. A possible defect in the source, unconfirmed (nothing was executed and fluent-ffmpeg's code is not part of this model): if an option string is split into name and value only when it holds exactly one space, `-var_stream_map v:0,a:0 v:1,a:1 …` (`src/transcoder.js:101`), with five spaces, would reach ffmpeg as a single argument.
- `path.join` is modelled as joining with '/', with no normalisation of `.`, `..` or repeated separators, and with the media root as an input in place of `__dirname/../media_output`.
- Asynchrony: the `progress` handler does not await `updateProgress`. The model delivers every progress message in report order, before ffmpeg's terminal event.
- Logging (`console.log`, `console.error`) has no effect on the model.
- Progress percentages are mathematical reals, with `None` for an absent or NaN value. JavaScript's floating-point rounding and its rendering of very large numbers are not modelled.
- The Supabase client is modelled as an insert that either throws or does not. The trace records only whether it threw: an insert that returns an error without throwing is not distinguished from one that stored the row, and the code does not distinguish them either.
- Chat and message identifiers only route notifications, so `Task` does not carry them.
- Errors are kept as their messages (strings) rather than `Error` objects.
