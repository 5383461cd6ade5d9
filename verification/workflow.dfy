/** The song-to-video job: plan the shots, generate one clip per shot, then run
    the fixed chain of media stages (concat, audio, logo, vertical, subtitles),
    each stage reading the latest video produced so far.

    The clip generator and the ffmpeg subprocess are parameters. The generator
    maps the call's position in the clip loop and its request record to a clip
    or an error message; the position makes every call a separate one, so two
    looped clones with the same request may get different files or outcomes.
    The runner maps an ffmpeg argument vector to its exit status. */
module SongWorkflow {
  import opened Wrappers
  import opened Strings
  import opened SongPlanner

  // ---------------------------------------------------------------------
  // Data model
  // ---------------------------------------------------------------------

  datatype Stage = Concat | Mux | Logo | Vertical | Subtitles

  /** How an ffmpeg run ended: an exit code, or a failure to start it. */
  datatype FfmpegExit = Exited(code: int) | StartFailed(message: string)

  /** One ffmpeg invocation: which stage, the video it reads and the file it writes. */
  datatype StageCall = StageCall(stage: Stage, input: string, output: string)

  /** What the clip generator returns for one shot. */
  datatype ClipResult = ClipResult(filePath: string, bytes: nat, meta: map<string, string>)

  /** A shot with its generated clip. */
  datatype ClipMeta = ClipMeta(shot: Shot, filePath: string, bytes: nat, modelMeta: map<string, string>)

  /** Why a job stopped. A clip failure carries the generator's error message
      unchanged; `shotIndex` only records where the clip loop stopped. */
  datatype WorkflowError =
    | ClipFailed(shotIndex: nat, message: string)
    | StageFailed(stage: Stage, message: string)

  /** The job record returned to the caller. */
  datatype Outputs = Outputs(
    jobId: string,
    jobDir: string,
    clipsDir: string,
    concatFilePath: string,
    stitchedVideoPath: Option<string>,
    withAudioPath: Option<string>,
    withLogoPath: Option<string>,
    verticalPath: Option<string>,
    subtitlesPath: Option<string>,
    clips: seq<ClipMeta>)

  /** Width and height of the vertical version; absent fields take 1080 and 1920. */
  datatype Resolution = Resolution(width: Option<int>, height: Option<int>)

  /** Logo offsets; absent fields take 10. */
  datatype Position = Position(x: Option<int>, y: Option<int>)

  /** The workflow's arguments. Absent paths are "". */
  datatype WorkflowRequest = WorkflowRequest(
    plan: PlanRequest,
    songFilePath: string,
    logoPath: string,
    subtitlesPath: string,
    makeVerticalVersion: bool,
    verticalResolution: Option<Resolution>,
    logoPosition: Option<Position>,
    modelParameters: map<string, string>)

  /** `path.join(dir, name)` for a plain file name. */
  function PathJoin(dir: string, name: string): string {
    dir + "/" + name
  }

  // ---------------------------------------------------------------------
  // The concat list file
  // ---------------------------------------------------------------------

  /** One `file '<path>'` line per clip, backslashes turned into slashes. */
  function ConcatLines(clipPaths: seq<string>): (r: seq<string>)
    ensures |r| == |clipPaths|
  {
    seq(|clipPaths|, j requires 0 <= j < |clipPaths| => "file '" + SlashesForward(clipPaths[j]) + "'")
  }

  /** The content written to the concat list file. */
  function ConcatContent(clipPaths: seq<string>): string {
    Join(ConcatLines(clipPaths), "\n")
  }

  /** Reading the concat file back line by line gives one line per clip, in
      order, each naming that clip's path with forward slashes only. */
  lemma ConcatFileLines(clipPaths: seq<string>)
    requires |clipPaths| > 0
    requires forall j :: 0 <= j < |clipPaths| ==> '\n' !in clipPaths[j]
    ensures var lines := Split(ConcatContent(clipPaths), '\n');
      && |lines| == |clipPaths|
      && forall j :: 0 <= j < |clipPaths| ==>
           && |lines[j]| == |clipPaths[j]| + 7
           && lines[j][..6] == "file '" && lines[j][|lines[j]| - 1] == '\''
           && lines[j][6..|lines[j]| - 1] == SlashesForward(clipPaths[j])
           && '\\' !in lines[j]
  {
    var lines := ConcatLines(clipPaths);
    forall j | 0 <= j < |lines| ensures '\n' !in lines[j] {
      var p := SlashesForward(clipPaths[j]);
      assert lines[j] == "file '" + p + "'";
    }
    SplitJoin(lines, '\n');
    assert Join(lines, "\n") == Join(lines, ['\n']);
    forall j | 0 <= j < |clipPaths|
      ensures lines[j][6..|lines[j]| - 1] == SlashesForward(clipPaths[j])
      ensures '\\' !in lines[j]
    {
      var p := SlashesForward(clipPaths[j]);
      assert lines[j] == "file '" + p + "'";
      assert lines[j][6..|lines[j]| - 1] == p;
    }
  }

  // ---------------------------------------------------------------------
  // The stage chain
  // ---------------------------------------------------------------------

  function LogPrefix(stage: Stage): string {
    match stage
    case Concat => "concat"
    case Mux => "mux"
    case Logo => "logo"
    case Vertical => "vertical"
    case Subtitles => "subtitles"
  }

  /** The fixed output file of each stage inside the job directory. */
  function OutputName(stage: Stage): string {
    match stage
    case Concat => "ltx_master.mp4"
    case Mux => "ltx_with_audio.mp4"
    case Logo => "ltx_with_logo.mp4"
    case Vertical => "ltx_vertical.mp4"
    case Subtitles => "ltx_with_subs.mp4"
  }

  function VerticalWidth(req: WorkflowRequest): int {
    match req.verticalResolution
    case None => 1080
    case Some(r) => r.width.GetOr(1080)
  }

  function VerticalHeight(req: WorkflowRequest): int {
    match req.verticalResolution
    case None => 1920
    case Some(r) => r.height.GetOr(1920)
  }

  function LogoX(req: WorkflowRequest): int {
    match req.logoPosition
    case None => 10
    case Some(p) => p.x.GetOr(10)
  }

  function LogoY(req: WorkflowRequest): int {
    match req.logoPosition
    case None => 10
    case Some(p) => p.y.GetOr(10)
  }

  /** Scale into the target frame keeping the aspect ratio, then pad it centred. */
  function VerticalFilter(width: int, height: int): string {
    var w := IntToString(width);
    var h := IntToString(height);
    "scale=" + w + ":" + h + ":force_original_aspect_ratio=decrease,pad=" + w + ":" + h + ":(ow-iw)/2:(oh-ih)/2"
  }

  /** The ffmpeg arguments of each stage, reading `input` and writing `output`. */
  function StageArgs(stage: Stage, input: string, output: string, req: WorkflowRequest): seq<string> {
    match stage
    case Concat => ["-f", "concat", "-safe", "0", "-i", input, "-c", "copy", output]
    case Mux => ["-i", input, "-i", req.songFilePath, "-c:v", "copy", "-c:a", "aac", "-shortest", output]
    case Logo =>
      ["-i", input, "-i", req.logoPath, "-filter_complex",
       "overlay=" + IntToString(LogoX(req)) + ":" + IntToString(LogoY(req)), "-codec:a", "copy", output]
    case Vertical =>
      ["-i", input, "-vf", VerticalFilter(VerticalWidth(req), VerticalHeight(req)), "-c:a", "copy", output]
    case Subtitles => ["-i", input, "-vf", "subtitles=" + SlashesForward(req.subtitlesPath), output]
  }

  function MakeCall(stage: Stage, input: string, jobDir: string): StageCall {
    StageCall(stage, input, PathJoin(jobDir, OutputName(stage)))
  }

  /** The argument vector handed to the ffmpeg process for a call. */
  function Argv(call: StageCall, req: WorkflowRequest): seq<string> {
    ["-y"] + StageArgs(call.stage, call.input, call.output, req)
  }

  /** Whether an optional stage runs: its input was supplied, or its flag set. */
  predicate Enabled(req: WorkflowRequest, stage: Stage) {
    match stage
    case Concat => true
    case Mux => req.songFilePath != ""
    case Logo => req.logoPath != ""
    case Vertical => req.makeVerticalVersion
    case Subtitles => req.subtitlesPath != ""
  }

  /** The stages of `stages` that run, in the same order. */
  function Keep(req: WorkflowRequest, stages: seq<Stage>): seq<Stage> {
    if |stages| == 0 then []
    else (if Enabled(req, stages[0]) then [stages[0]] else []) + Keep(req, stages[1..])
  }

  /** Every stage of the pipeline, in the order they run. */
  const PipelineStages: seq<Stage> := [Concat, Mux, Logo, Vertical, Subtitles]

  /** The stages that run for a request, in pipeline order. */
  function EnabledStages(req: WorkflowRequest): seq<Stage> {
    Keep(req, PipelineStages)
  }

  /** Stages run one after the other, each reading what the previous one wrote. */
  function Chain(stages: seq<Stage>, input: string, jobDir: string): (r: seq<StageCall>)
    ensures |r| == |stages|
  {
    if |stages| == 0 then []
    else
      var call := MakeCall(stages[0], input, jobDir);
      [call] + Chain(stages[1..], call.output, jobDir)
  }

  /** One step of the chain: an enabled stage runs on the input and the rest of
      the chain reads its output; a disabled stage passes the input on. */
  lemma ChainStep(req: WorkflowRequest, jobDir: string, stages: seq<Stage>, input: string)
    requires |stages| > 0
    ensures Enabled(req, stages[0]) ==>
      Chain(Keep(req, stages), input, jobDir)
      == [MakeCall(stages[0], input, jobDir)]
         + Chain(Keep(req, stages[1..]), MakeCall(stages[0], input, jobDir).output, jobDir)
    ensures !Enabled(req, stages[0]) ==>
      Chain(Keep(req, stages), input, jobDir) == Chain(Keep(req, stages[1..]), input, jobDir)
  {
    if Enabled(req, stages[0]) {
      assert Keep(req, stages) == [stages[0]] + Keep(req, stages[1..]);
      ChainCons(jobDir, stages[0], Keep(req, stages[1..]), input);
    } else {
      assert Keep(req, stages) == [] + Keep(req, stages[1..]) == Keep(req, stages[1..]);
    }
  }

  /** Running a chain one stage at a time. */
  lemma ChainCons(jobDir: string, stage: Stage, rest: seq<Stage>, input: string)
    ensures Chain([stage] + rest, input, jobDir)
      == [MakeCall(stage, input, jobDir)] + Chain(rest, MakeCall(stage, input, jobDir).output, jobDir)
  {
    assert ([stage] + rest)[1..] == rest;
  }

  /** Every ffmpeg call of a job that succeeds: concat from the list file, then
      the enabled stages. */
  function ExpectedCalls(req: WorkflowRequest, jobDir: string): seq<StageCall> {
    Chain(EnabledStages(req), PathJoin(jobDir, "concat.txt"), jobDir)
  }

  /** In a chain the first stage reads the given input, every later stage reads
      the previous stage's output, and stage i writes its own fixed file. */
  lemma {:induction false} ChainLinked(stages: seq<Stage>, input: string, jobDir: string)
    ensures var calls := Chain(stages, input, jobDir);
      && (|calls| > 0 ==> calls[0].input == input)
      && (forall i :: 0 < i < |calls| ==> calls[i].input == calls[i - 1].output)
      && (forall i :: 0 <= i < |calls| ==>
            calls[i].stage == stages[i] && calls[i].output == PathJoin(jobDir, OutputName(stages[i])))
  {
    if |stages| > 0 {
      var call := MakeCall(stages[0], input, jobDir);
      ChainLinked(stages[1..], call.output, jobDir);
      var calls := Chain(stages, input, jobDir);
      assert calls == [call] + Chain(stages[1..], call.output, jobDir);
    }
  }

  /** Stages listed in strictly increasing pipeline order. */
  predicate Ordered(stages: seq<Stage>) {
    forall i, j :: 0 <= i < j < |stages| ==> Rank(stages[i]) < Rank(stages[j])
  }

  /** Filtering keeps exactly the enabled stages and keeps them in order. */
  lemma KeepSpec(req: WorkflowRequest, stages: seq<Stage>)
    requires Ordered(stages)
    ensures forall st :: st in Keep(req, stages) <==> st in stages && Enabled(req, st)
    ensures Ordered(Keep(req, stages))
    ensures forall i :: 0 <= i < |Keep(req, stages)| ==> Rank(stages[0]) <= Rank(Keep(req, stages)[i])
  {
    KeepMembers(req, stages);
    KeepOrdered(req, stages);
    var kept := Keep(req, stages);
    forall i | 0 <= i < |kept| ensures Rank(stages[0]) <= Rank(kept[i]) {
      RankAbove(stages, kept[i]);
    }
  }

  lemma {:induction false} KeepMembers(req: WorkflowRequest, stages: seq<Stage>)
    ensures forall st :: st in Keep(req, stages) <==> st in stages && Enabled(req, st)
  {
    if |stages| > 0 {
      KeepMembers(req, stages[1..]);
      assert stages == [stages[0]] + stages[1..];
    }
  }

  // Every stage of an ordered list ranks at least as high as its first one.
  lemma RankAbove(stages: seq<Stage>, st: Stage)
    requires Ordered(stages) && st in stages
    ensures Rank(stages[0]) <= Rank(st)
  {
    var m :| 0 <= m < |stages| && stages[m] == st;
    if m > 0 {
      assert Rank(stages[0]) < Rank(stages[m]);
    }
  }

  lemma {:induction false} KeepOrdered(req: WorkflowRequest, stages: seq<Stage>)
    requires Ordered(stages)
    ensures Ordered(Keep(req, stages))
  {
    if |stages| > 0 {
      var tail := Keep(req, stages[1..]);
      KeepOrdered(req, stages[1..]);
      KeepMembers(req, stages[1..]);
      var kept := Keep(req, stages);
      if Enabled(req, stages[0]) {
        assert kept == [stages[0]] + tail;
        forall i, j | 0 <= i < j < |kept| ensures Rank(kept[i]) < Rank(kept[j]) {
          assert kept[j] == tail[j - 1];
          assert tail[j - 1] in stages[1..];
          var m :| 0 <= m < |stages[1..]| && stages[1..][m] == tail[j - 1];
          assert stages[m + 1] == kept[j];
          if i > 0 {
            assert kept[i] == tail[i - 1];
          }
        }
      } else {
        assert kept == tail;
      }
    }
  }

  /** Concat always runs first; each later stage runs exactly when its input or
      flag was supplied; and they run in pipeline order, each at most once. */
  lemma EnabledStagesSpec(req: WorkflowRequest)
    ensures |EnabledStages(req)| > 0 && EnabledStages(req)[0] == Concat
    ensures Mux in EnabledStages(req) <==> req.songFilePath != ""
    ensures Logo in EnabledStages(req) <==> req.logoPath != ""
    ensures Vertical in EnabledStages(req) <==> req.makeVerticalVersion
    ensures Subtitles in EnabledStages(req) <==> req.subtitlesPath != ""
    ensures Ordered(EnabledStages(req))
  {
    KeepSpec(req, PipelineStages);
    assert Concat in EnabledStages(req);
  }

  function Rank(stage: Stage): nat {
    match stage
    case Concat => 0
    case Mux => 1
    case Logo => 2
    case Vertical => 3
    case Subtitles => 4
  }

  /** The error raised when a stage's ffmpeg run does not exit with 0. */
  function StageError(stage: Stage, exit: FfmpegExit): (r: Option<WorkflowError>)
    ensures r.None? <==> exit == Exited(0)
    ensures r.Some? ==> r.value.StageFailed? && r.value.stage == stage
  {
    match exit
    case Exited(code) =>
      if code == 0 then None
      else Some(StageFailed(stage, "[" + LogPrefix(stage) + "] ffmpeg exited with code " + IntToString(code)))
    case StartFailed(message) =>
      Some(StageFailed(stage, "[" + LogPrefix(stage) + "] Failed to start ffmpeg: " + message))
  }

  // ---------------------------------------------------------------------
  // Clip requests
  // ---------------------------------------------------------------------

  /** `shot_` followed by the shot id padded to two digits. */
  function ShotFilePrefix(id: nat): string {
    "shot_" + PadStart(NatToString(id), 2, '0')
  }

  /** Ids 0..99 give a seven-character prefix whose digits read back as the id. */
  lemma ShotFilePrefixDigits(id: nat)
    requires id < 100
    ensures var p := ShotFilePrefix(id);
      && |p| == 7 && p[..5] == "shot_"
      && (forall k :: 5 <= k < 7 ==> '0' <= p[k] <= '9')
      && ParseDigits(p[5..]) == id
  {
    var padded := [Digit(id / 10), Digit(id % 10)];
    PaddedTwoDigits(id);
    TwoDigitsValue(id / 10, id % 10);
    assert ShotFilePrefix(id)[5..] == padded;
  }

  lemma PaddedTwoDigits(id: nat)
    requires id < 100
    ensures PadStart(NatToString(id), 2, '0') == [Digit(id / 10), Digit(id % 10)]
  {
    if id >= 10 {
      assert NatToString(id / 10) == [Digit(id / 10)];
    }
  }

  lemma TwoDigitsValue(a: nat, b: nat)
    requires a < 10 && b < 10
    ensures ParseDigits([Digit(a), Digit(b)]) == 10 * a + b
  {
    var s := [Digit(a), Digit(b)];
    assert Digit(a) as int == '0' as int + a && Digit(b) as int == '0' as int + b;
    assert s[..1] == [Digit(a)] && [Digit(a)][..0] == [];
    assert ParseDigits([Digit(a)]) == a;
  }


  /** `{prompt, outputDir, filenamePrefix, ...modelParameters}`: model
      parameters come last and override same-named fields. */
  function ClipRequest(shot: Shot, clipsDir: string, modelParameters: map<string, string>): map<string, string> {
    map["prompt" := shot.prompt, "outputDir" := clipsDir, "filenamePrefix" := ShotFilePrefix(shot.id)] + modelParameters
  }

  /** The request builder handed to the clip loop. */
  function ClipRequestFor(clipsDir: string, modelParameters: map<string, string>): Shot -> map<string, string> {
    shot => ClipRequest(shot, clipsDir, modelParameters)
  }

  /** A field the model parameters do not override keeps the shot's value. */
  lemma ClipRequestFields(shot: Shot, clipsDir: string, modelParameters: map<string, string>)
    ensures var r := ClipRequest(shot, clipsDir, modelParameters);
      && "prompt" in r && "outputDir" in r && "filenamePrefix" in r
      && ("prompt" !in modelParameters ==> r["prompt"] == shot.prompt)
      && ("outputDir" !in modelParameters ==> r["outputDir"] == clipsDir)
      && ("filenamePrefix" !in modelParameters ==> r["filenamePrefix"] == ShotFilePrefix(shot.id))
      && (forall key :: key in modelParameters ==> r[key] == modelParameters[key])
  {
  }

  // ---------------------------------------------------------------------
  // The workflow
  // ---------------------------------------------------------------------

  /** The video the job ends with: the last stage output that was produced. */
  function FinalVideo(o: Outputs): Option<string> {
    if o.subtitlesPath.Some? then o.subtitlesPath
    else if o.verticalPath.Some? then o.verticalPath
    else if o.withLogoPath.Some? then o.withLogoPath
    else if o.withAudioPath.Some? then o.withAudioPath
    else o.stitchedVideoPath
  }

  /** The last stage that runs for a request. */
  function LastStage(req: WorkflowRequest): Stage {
    if req.subtitlesPath != "" then Subtitles
    else if req.makeVerticalVersion then Vertical
    else if req.logoPath != "" then Logo
    else if req.songFilePath != "" then Mux
    else Concat
  }

  lemma {:induction false} LastEnabledStage(req: WorkflowRequest)
    ensures var e := EnabledStages(req); |e| > 0 && e[|e| - 1] == LastStage(req)
  {
    KeepSpec(req, PipelineStages);
    var e := EnabledStages(req);
    var want := LastStage(req);
    assert want in e;
    var m :| 0 <= m < |e| && e[m] == want;
    var last := e[|e| - 1];
    assert last in e;
    assert Rank(last) <= Rank(want);
    assert m == |e| - 1;
  }

  /** The job's final video is the file written by the last ffmpeg call. */
  lemma FinalVideoIsLastOutput(req: WorkflowRequest, jobDir: string, o: Outputs)
    requires o.stitchedVideoPath == StageOutput(req, jobDir, Concat)
    requires o.withAudioPath == StageOutput(req, jobDir, Mux)
    requires o.withLogoPath == StageOutput(req, jobDir, Logo)
    requires o.verticalPath == StageOutput(req, jobDir, Vertical)
    requires o.subtitlesPath == StageOutput(req, jobDir, Subtitles)
    ensures var calls := ExpectedCalls(req, jobDir);
      |calls| > 0 && FinalVideo(o) == Some(calls[|calls| - 1].output)
  {
    LastEnabledStage(req);
    ChainLinked(EnabledStages(req), PathJoin(jobDir, "concat.txt"), jobDir);
  }

  function ClipPaths(clips: seq<ClipMeta>): (r: seq<string>)
    ensures |r| == |clips|
  {
    seq(|clips|, j requires 0 <= j < |clips| => clips[j].filePath)
  }

  /** The requests so far were made, in order, for the first shots of the plan. */
  predicate RequestsFor(requests: seq<map<string, string>>, shots: seq<Shot>,
                        makeRequest: Shot -> map<string, string>) {
    && |requests| <= |shots|
    && forall j :: 0 <= j < |requests| ==> requests[j] == makeRequest(shots[j])
  }

  /** Each request succeeded and its clip was recorded with its shot. */
  predicate ClipsFrom(clips: seq<ClipMeta>, shots: seq<Shot>, requests: seq<map<string, string>>,
                      generate: (nat, map<string, string>) -> Result<ClipResult, string>) {
    && |clips| == |requests| <= |shots|
    && forall j :: 0 <= j < |clips| ==>
         && generate(j, requests[j]).Success?
         && clips[j].shot == shots[j]
         && clips[j].filePath == generate(j, requests[j]).value.filePath
         && clips[j].bytes == generate(j, requests[j]).value.bytes
         && clips[j].modelMeta == generate(j, requests[j]).value.meta
  }

  /** The `for` loop that generates one clip per shot, stopping at the first
      failure; `makeRequest` builds the generator's argument for a shot. */
  method GenerateClips(
    shots: seq<Shot>,
    makeRequest: Shot -> map<string, string>,
    generate: (nat, map<string, string>) -> Result<ClipResult, string>)
    returns (clips: seq<ClipMeta>, requests: seq<map<string, string>>, failure: Option<WorkflowError>)
    ensures RequestsFor(requests, shots, makeRequest)
    ensures failure.None? ==> |requests| == |shots| && ClipsFrom(clips, shots, requests, generate)
    ensures failure.Some? ==>
      && failure.value.ClipFailed?
      && |requests| == failure.value.shotIndex + 1
      && (forall j :: 0 <= j < |requests| - 1 ==> generate(j, requests[j]).Success?)
      && generate(|requests| - 1, requests[|requests| - 1]).Failure?
      && failure.value.message == generate(|requests| - 1, requests[|requests| - 1]).error
  {
    requests := [];
    clips := [];
    for i := 0 to |shots|
      invariant |requests| == i
      invariant RequestsFor(requests, shots, makeRequest)
      invariant ClipsFrom(clips, shots, requests, generate)
    {
      var request := makeRequest(shots[i]);
      var before := requests;
      requests := requests + [request];
      assert requests[..i] == before;
      var clipResult := generate(i, request);
      if clipResult.Failure? {
        failure := Some(ClipFailed(i, clipResult.error));
        return;
      }
      var clip := clipResult.value;
      clips := clips + [ClipMeta(shots[i], clip.filePath, clip.bytes, clip.meta)];
    }
    failure := None;
  }

  /** Every call in `calls` exited with status 0. */
  predicate AllExitedZero(calls: seq<StageCall>, req: WorkflowRequest, ffmpeg: seq<string> -> FfmpegExit) {
    forall j :: 0 <= j < |calls| ==> ffmpeg(Argv(calls[j], req)) == Exited(0)
  }

  /** The job stopped at the last call: every earlier call exited with 0 and
      the last one's exit status produced `error`. */
  predicate StoppedAtLast(calls: seq<StageCall>, req: WorkflowRequest, ffmpeg: seq<string> -> FfmpegExit,
                          error: WorkflowError) {
    && |calls| > 0
    && AllExitedZero(calls[..|calls| - 1], req, ffmpeg)
    && Some(error) == StageError(calls[|calls| - 1].stage, ffmpeg(Argv(calls[|calls| - 1], req)))
  }

  /** One stage: when it is enabled (concat always is), run ffmpeg on `input`
      and append the call to `calls`; `output` is the file it wrote. `expected` is the
      whole chain of a successful job, of which `calls` ran so far. */
  method RunStage(
    req: WorkflowRequest, jobDir: string, stage: Stage, ghost stages: seq<Stage>, input: string,
    ffmpeg: seq<string> -> FfmpegExit, calls: seq<StageCall>, ghost expected: seq<StageCall>)
    returns (calls': seq<StageCall>, output: Option<string>, error: Option<WorkflowError>)
    requires |stages| > 0 && stages[0] == stage
    requires expected == calls + Chain(Keep(req, stages), input, jobDir)
    requires AllExitedZero(calls, req, ffmpeg)
    ensures error.Some? ==>
      && error.value.StageFailed?
      && calls' <= expected
      && StoppedAtLast(calls', req, ffmpeg, error.value)
    ensures error.None? ==>
      && output == StageOutput(req, jobDir, stage)
      && AllExitedZero(calls', req, ffmpeg)
      && expected == calls' + Chain(Keep(req, stages[1..]), if output.Some? then output.value else input, jobDir)
  {
    ChainStep(req, jobDir, stages, input);
    calls', output, error := calls, None, None;
    if Enabled(req, stage) {
      var call := MakeCall(stage, input, jobDir);
      calls' := calls + [call];
      var after := Chain(Keep(req, stages[1..]), call.output, jobDir);
      assert expected == calls' + after;
      error := StageError(stage, ffmpeg(Argv(call, req)));
      if error.None? {
        output := Some(call.output);
      } else {
        assert calls' == expected[..|calls'|];
        assert calls'[..|calls'| - 1] == calls;
        assert calls'[|calls'| - 1] == call;
      }
    }
  }

  /** The file a stage writes when it runs for this request, else nothing. */
  function StageOutput(req: WorkflowRequest, jobDir: string, stage: Stage): Option<string> {
    if Enabled(req, stage) then Some(PathJoin(jobDir, OutputName(stage))) else None
  }

  /** The stage chain: concat, then each supplied stage on the latest output. */
  method RunStages(req: WorkflowRequest, jobDir: string, outputs: Outputs, ffmpeg: seq<string> -> FfmpegExit)
    returns (result: Result<Outputs, WorkflowError>, calls: seq<StageCall>)
    requires outputs.concatFilePath == PathJoin(jobDir, "concat.txt")
    requires outputs.stitchedVideoPath == outputs.withAudioPath == outputs.withLogoPath == None
    requires outputs.verticalPath == outputs.subtitlesPath == None
    ensures calls <= ExpectedCalls(req, jobDir)
    ensures result.Failure? ==>
      && result.error.StageFailed?
      && StoppedAtLast(calls, req, ffmpeg, result.error)
    ensures result.Success? ==>
      var o := result.value;
      && calls == ExpectedCalls(req, jobDir)
      && AllExitedZero(calls, req, ffmpeg)
      && o.stitchedVideoPath == StageOutput(req, jobDir, Concat)
      && o.withAudioPath == StageOutput(req, jobDir, Mux)
      && o.withLogoPath == StageOutput(req, jobDir, Logo)
      && o.verticalPath == StageOutput(req, jobDir, Vertical)
      && o.subtitlesPath == StageOutput(req, jobDir, Subtitles)
      && o == outputs.(stitchedVideoPath := o.stitchedVideoPath, withAudioPath := o.withAudioPath,
                       withLogoPath := o.withLogoPath, verticalPath := o.verticalPath,
                       subtitlesPath := o.subtitlesPath)
  {
    var o := outputs;
    ghost var expected := ExpectedCalls(req, jobDir);
    // The stages not yet reached.
    ghost var rest := PipelineStages;

    // Concatenate the clips.
    var stitched, error;
    assert expected == [] + Chain(Keep(req, rest), outputs.concatFilePath, jobDir);
    calls, stitched, error := RunStage(req, jobDir, Concat, rest, outputs.concatFilePath, ffmpeg, [], expected);
    if error.Some? {
      result := Failure(error.value);
      return;
    }
    o := o.(stitchedVideoPath := stitched);
    rest := rest[1..];

    // Attach the song.
    var withAudio;
    calls, withAudio, error := RunStage(req, jobDir, Mux, rest,
                                                stitched.value, ffmpeg, calls, expected);
    if error.Some? {
      result := Failure(error.value);
      return;
    }
    o := o.(withAudioPath := withAudio);
    rest := rest[1..];
    var baseForPost := if withAudio.Some? then withAudio.value else stitched.value;

    // Post-process the latest video.
    result, calls := RunPostStages(req, jobDir, o, baseForPost, ffmpeg, calls, expected, rest);
  }

  /** The post-processing stages (logo, vertical, subtitles) on `baseForPost`,
      the latest video after concat and the optional song. */
  method RunPostStages(
    req: WorkflowRequest, jobDir: string, outputs: Outputs, baseForPost: string,
    ffmpeg: seq<string> -> FfmpegExit, calls: seq<StageCall>,
    ghost expected: seq<StageCall>, ghost stages: seq<Stage>)
    returns (result: Result<Outputs, WorkflowError>, calls': seq<StageCall>)
    requires stages == [Logo, Vertical, Subtitles]
    requires expected == calls + Chain(Keep(req, stages), baseForPost, jobDir)
    requires AllExitedZero(calls, req, ffmpeg)
    requires outputs.withLogoPath == outputs.verticalPath == outputs.subtitlesPath == None
    ensures calls' <= expected
    ensures result.Failure? ==>
      && result.error.StageFailed?
      && StoppedAtLast(calls', req, ffmpeg, result.error)
    ensures result.Success? ==>
      && calls' == expected
      && AllExitedZero(calls', req, ffmpeg)
      && result.value == outputs.(withLogoPath := StageOutput(req, jobDir, Logo),
                                  verticalPath := StageOutput(req, jobDir, Vertical),
                                  subtitlesPath := StageOutput(req, jobDir, Subtitles))
  {
    var o := outputs;
    calls' := calls;
    var error;
    ghost var rest := stages;

    // Overlay the logo.
    var withLogo;
    calls', withLogo, error := RunStage(req, jobDir, Logo, rest,
                                               baseForPost, ffmpeg, calls', expected);
    if error.Some? {
      result := Failure(error.value);
      return;
    }
    o := o.(withLogoPath := withLogo);
    rest := rest[1..];
    var postLogoBase := if withLogo.Some? then withLogo.value else baseForPost;

    // Make the vertical version.
    var vertical;
    calls', vertical, error := RunStage(req, jobDir, Vertical, rest,
                                               postLogoBase, ffmpeg, calls', expected);
    if error.Some? {
      result := Failure(error.value);
      return;
    }
    o := o.(verticalPath := vertical);
    rest := rest[1..];
    var postVerticalBase := if vertical.Some? then vertical.value else postLogoBase;

    // Burn in the subtitles.
    var withSubs;
    calls', withSubs, error := RunStage(req, jobDir, Subtitles, rest,
                                               postVerticalBase, ffmpeg, calls', expected);
    if error.Some? {
      result := Failure(error.value);
      return;
    }
    o := o.(subtitlesPath := withSubs);
    assert rest[1..] == [];
    result := Success(o);
  }

  /** What a job promises once the shots are planned: `requests` are the records
      sent to the clip generator, `calls` the ffmpeg runs in the order they were
      started, and `concatContent` the text of the concat list file. */
  predicate JobOutcome(
    req: WorkflowRequest, jobsRoot: string, jobId: string,
    generate: (nat, map<string, string>) -> Result<ClipResult, string>, ffmpeg: seq<string> -> FfmpegExit,
    plan: Plan, result: Result<Outputs, WorkflowError>, requests: seq<map<string, string>>,
    calls: seq<StageCall>, concatContent: string)
  {
    var jobDir := PathJoin(jobsRoot, jobId);
    var shots := plan.shots;
    // The calls made are the first ones of the full chain.
    && calls <= ExpectedCalls(req, jobDir)
    // Every clip requested was for the planned shot at that position.
    && RequestsFor(requests, shots, ClipRequestFor(PathJoin(jobDir, "clips"), req.modelParameters))
    // A clip failure stops the job before any stage runs; the clips before it succeeded.
    && (result.Failure? && result.error.ClipFailed? ==>
          && calls == []
          && |requests| == result.error.shotIndex + 1
          && (forall j :: 0 <= j < |requests| - 1 ==> generate(j, requests[j]).Success?)
          && generate(|requests| - 1, requests[|requests| - 1]).Failure?
          && result.error.message == generate(|requests| - 1, requests[|requests| - 1]).error)
    // A stage failure comes only after every clip was generated; it stops the job
    // at that stage, and the stages before it succeeded.
    && (result.Failure? && result.error.StageFailed? ==>
          && |requests| == |shots|
          && (forall j :: 0 <= j < |requests| ==> generate(j, requests[j]).Success?)
          && StoppedAtLast(calls, req, ffmpeg, result.error))
    // On success every clip was generated and every stage of the chain ran and
    // exited with 0; the record names each stage's file and the clips.
    && (result.Success? ==>
          var o := result.value;
          && calls == ExpectedCalls(req, jobDir)
          && AllExitedZero(calls, req, ffmpeg)
          && o.jobId == jobId && o.jobDir == jobDir && o.clipsDir == PathJoin(jobDir, "clips")
          && o.concatFilePath == PathJoin(jobDir, "concat.txt")
          && o.stitchedVideoPath == StageOutput(req, jobDir, Concat)
          && o.withAudioPath == StageOutput(req, jobDir, Mux)
          && o.withLogoPath == StageOutput(req, jobDir, Logo)
          && o.verticalPath == StageOutput(req, jobDir, Vertical)
          && o.subtitlesPath == StageOutput(req, jobDir, Subtitles)
          && FinalVideo(o) == Some(calls[|calls| - 1].output)
          && |requests| == |shots|
          && ClipsFrom(o.clips, shots, requests, generate)
          && concatContent == ConcatContent(ClipPaths(o.clips)))
  }

  /** Whatever the job reports, a clip the generator refused means the job failed
      on that clip, which was the last one requested, and no ffmpeg stage ran. */
  lemma ClipFailureStopsJob(
    req: WorkflowRequest, jobsRoot: string, jobId: string,
    generate: (nat, map<string, string>) -> Result<ClipResult, string>, ffmpeg: seq<string> -> FfmpegExit,
    plan: Plan, result: Result<Outputs, WorkflowError>, requests: seq<map<string, string>>,
    calls: seq<StageCall>, concatContent: string, j: nat)
    requires JobOutcome(req, jobsRoot, jobId, generate, ffmpeg, plan, result, requests, calls, concatContent)
    requires j < |requests| && generate(j, requests[j]).Failure?
    ensures result.Failure? && result.error.ClipFailed?
    ensures calls == [] && j == |requests| - 1 == result.error.shotIndex
    ensures result.error.message == generate(j, requests[j]).error
  {
  }

  /** `runSongToVideoWorkflow`: plan the shots with the guarded planner, then
      run the job on that plan. */
  method RunSongToVideo(
    req: WorkflowRequest,
    jobsRoot: string,
    jobId: string,
    generate: (nat, map<string, string>) -> Result<ClipResult, string>,
    ffmpeg: seq<string> -> FfmpegExit)
    returns (result: Result<Outputs, WorkflowError>, plan: Plan, requests: seq<map<string, string>>,
             calls: seq<StageCall>, concatContent: string)
    ensures plan == SafePlanOf(req.plan)
    ensures JobOutcome(req, jobsRoot, jobId, generate, ffmpeg, plan, result, requests, calls, concatContent)
  {
    plan := PlanShotsSafe(req.plan);
    result, requests, calls, concatContent := RunPlannedJob(req, plan, jobsRoot, jobId, generate, ffmpeg);
  }

  /** The job after planning: one clip per shot, the concat list, then the stages. */
  method RunPlannedJob(
    req: WorkflowRequest,
    plan: Plan,
    jobsRoot: string,
    jobId: string,
    generate: (nat, map<string, string>) -> Result<ClipResult, string>,
    ffmpeg: seq<string> -> FfmpegExit)
    returns (result: Result<Outputs, WorkflowError>, requests: seq<map<string, string>>,
             calls: seq<StageCall>, concatContent: string)
    ensures JobOutcome(req, jobsRoot, jobId, generate, ffmpeg, plan, result, requests, calls, concatContent)
  {
    var jobDir := PathJoin(jobsRoot, jobId);
    var clipsDir := PathJoin(jobDir, "clips");
    calls, concatContent := [], "";

    var clipMetadata, failure;
    clipMetadata, requests, failure := GenerateClips(plan.shots, ClipRequestFor(clipsDir, req.modelParameters), generate);
    if failure.Some? {
      result := Failure(failure.value);
      return;
    }

    var concatFilePath := PathJoin(jobDir, "concat.txt");
    var outputs := Outputs(jobId, jobDir, clipsDir, concatFilePath, None, None, None, None, None, clipMetadata);
    concatContent := ConcatContent(ClipPaths(clipMetadata));
    result, calls := RunStages(req, jobDir, outputs, ffmpeg);
    if result.Success? {
      FinalVideoIsLastOutput(req, jobDir, result.value);
    }
  }
}
