# LTX song-to-video core, in Dafny

This project models the core of an Express server that turns a song into a
video with the LTX text-to-video model. The model has three parts.

- **The song-to-video workflow** (`server/src/workflows/ltxSongWorkflow.js`).
  - The shot planner expands a song structure into timed shots. Each shot gets a
    resolved prompt and a lyrics excerpt.
  - When the planned duration falls short of the song, the planner loops the whole
    shot list and truncates it to the song's clip count.
  - The job then generates one clip per shot and writes the concat list. It then runs
    the fixed chain of ffmpeg stages: concat, audio, logo, vertical, subtitles.
    Each stage reads the latest video produced so far. The first failure stops the
    job.
- **The API server** (`server.js`). It covers:
  - the GPU endpoints read from the environment;
  - `getModelEndpoint`;
  - the `x-api-key` allow-list of `apiKeyGuard`;
  - the validation of `POST /api/video/generate`;
  - the single-slot admission queue (`enqueueJob`, `processQueue`). The video
    routes of `server.js` send their GPU calls through it, one job at a time, first
    in first out. The LTX history routes and the song workflow call their backends
    directly and do not use it.
- **The LTX history routes** (`server/routes/ltxRoutes.js`).
  - `POST /generate` fills in missing parameters with `??`, calls the backend, and
    puts a record of the video at the front of the history.
  - `DELETE /history/:id` removes the first record with that id.

## Modules and how they are modelled

| File | Module | What it holds |
|---|---|---|
| `wrappers.dfy` | `Wrappers` | The `Option` and `Result` datatypes. |
| `strings.dfy` | `Strings` | JavaScript's `join`, `split` on one character, `trim`, `padStart`, `replace(/\\/g, "/")` and decimal rendering. |
| `js.dfy` | `JsValues` | Request-body values, and the three ways the handlers read them: `x \|\| d`, `x ?? d` and destructuring defaults. Also `${x}` rendering. |
| `planner.dfy` | `SongPlanner` | `planShots` and its helpers. |
| `workflow.dfy` | `SongWorkflow` | `runSongToVideoWorkflow`: the clip loop, the concat list and the stage chain. |
| `queue.dfy` | `AdmissionQueue` | The admission queue, as a class. |
| `server.dfy` | `ServerApi` | Endpoints, the key guard, and the video route. |
| `history.dfy` | `LtxHistory` | The LTX routes. The history file is a class with a `seq` field. |

Modelling choices:

- **Planner.** The planner's functions (`PlanOf`, `SinglePass`, `Looped`) give each
  shot in closed form.
- **Loops.** The source's loops are methods proved equal to those functions:
  - the `map` that threads `cumulativeDuration` is `SinglePassShots`;
  - the nested loop that pushes clones is `LoopShots` and `PushRepetition`.
- **Absent fields.**
  - In the planner, an absent text field is `""` and an absent duration is `0`,
    because `a || b` treats `undefined`, `0` and `""` alike.
  - An argument left `undefined` that takes a destructuring default is `None`.
- **Outside calls.**
  - The clip generator and the ffmpeg runner are function parameters. The generator
    maps the call's position in the clip loop and its request record to a clip or
    an error message. The runner maps an
    argument vector to an exit status.
  - The backend reply, the clock and the job id are parameters too.
- **The queue's asynchronous life.** It is a sequence of events on a `VideoQueue`
  object:
  - `Submit` is `enqueueJob`;
  - `ProcessQueue` is `processQueue`;
  - `Complete` is the `try/catch/finally` that runs when the awaited job returns or
    throws.

  Each promise is one ticket. Its `resolve` or `reject` call is one entry in the
  `settled` log.

## Model

| member | source | states |
|---|---|---|
| Strings.Trim | server.js:129 | the result is the input with its whitespace ends cut off: a factor of the input, everything before and after it is whitespace, and it neither starts nor ends with whitespace |
| Strings.TrimmedFixed | server.js:129 | a string with no whitespace at either end is its own trim |
| Strings.SplitJoin | server.js:125-131 | splitting the comma-join of comma-free pieces gives the pieces back |
| Strings.NatToString | server/routes/ltxRoutes.js:84 | the decimal rendering is a non-empty string of digits |
| Strings.ParseNatToString | server/routes/ltxRoutes.js:84 | reading the decimal rendering back gives the number |
| Strings.PadStart | server/src/workflows/ltxSongWorkflow.js:224 | `padStart` reaches the width (or keeps the string if longer), ends with the string and is filled with the pad character |
| Strings.SlashesForward | server/src/workflows/ltxSongWorkflow.js:141 | every backslash becomes a slash, other characters stay, and no backslash remains |
| SongPlanner.ChosenStructure | server/src/workflows/ltxSongWorkflow.js:61 | a non-empty structure is used as given, and an empty one becomes `DEFAULT_STRUCTURE` |
| SongPlanner.CeilDivBounds | server/src/workflows/ltxSongWorkflow.js:86 | `Math.ceil(a / b)` is the least count of b-sized steps reaching a: that many reach a, one fewer does not, and it is 0 for a = 0 |
| SongPlanner.TemplateFor | server/src/workflows/ltxSongWorkflow.js:34 | a known key gets its template; an unknown key gets the fallback template |
| SongPlanner.ResolvePromptTemplate | server/src/workflows/ltxSongWorkflow.js:33-37 | the prompt is template, base style, and the comma-joined extra styles only when there are any |
| SongPlanner.RepeatCount | server/src/workflows/ltxSongWorkflow.js:41 | a section yields exactly `repeat` instances when `repeat` is at least 1, and one instance otherwise |
| SongPlanner.ExpandLength | server/src/workflows/ltxSongWorkflow.js:39-47 | the expansion has one instance per repetition of every section |
| SongPlanner.ExpandAt | server/src/workflows/ltxSongWorkflow.js:39-47 | sections keep their order and the instances of a section are consecutive and numbered from 1 |
| SongPlanner.LastNewlineInRun | server/src/workflows/ltxSongWorkflow.js:111 | the greedy `\s*` of `\n\s*\n` ends at the last newline of the whitespace run: the run up to it is whitespace, no later newline is in the run, and there is none exactly when the run has no newline |
| SongPlanner.BlocksFrom | server/src/workflows/ltxSongWorkflow.js:111 | `split` always yields at least one piece |
| SongPlanner.SplitBlocks | server/src/workflows/ltxSongWorkflow.js:111 | there is at least one block and every block is trimmed |
| SongPlanner.ExtractLyricsExcerpt | server/src/workflows/ltxSongWorkflow.js:109-115 | there is no excerpt exactly when the lyrics are empty; otherwise the excerpt is trimmed block `index mod blockCount` |
| SongPlanner.ExcerptInOrder | server/src/workflows/ltxSongWorkflow.js:109-115 | the first block-count shots get the blocks in order |
| SongPlanner.ExcerptWraps | server/src/workflows/ltxSongWorkflow.js:113-114 | past the last block the excerpts start over: shot index + blockCount gets the excerpt of shot index |
| SongPlanner.SingleBlock | server/src/workflows/ltxSongWorkflow.js:111 | lyrics without a newline are one block, trimmed |
| SongPlanner.ShotPrompt | server/src/workflows/ltxSongWorkflow.js:66-68 | an explicit prompt is used verbatim; otherwise the section template is resolved for the key or `section_<n>` |
| SongPlanner.SinglePass | server/src/workflows/ltxSongWorkflow.js:64-82 | one shot per expanded instance |
| SongPlanner.SinglePassDurations | server/src/workflows/ltxSongWorkflow.js:64-82 | the durations of the first i shots add up to the durations of the first i instances, a missing one counting as the clip length |
| SongPlanner.SinglePassCumulative | server/src/workflows/ltxSongWorkflow.js:64-82 | shot i has id i+1 and starts where the shots before it end |
| SongPlanner.PlannedNotAboveShots | server/src/workflows/ltxSongWorkflow.js:49-51 | the planned duration counts missing durations as 0, so it never exceeds the shots' total, and equals it when every duration is given |
| SongPlanner.SinglePassCovers | server/src/workflows/ltxSongWorkflow.js:64-84 | the single pass lasts at least the planned duration |
| SongPlanner.Repetition | server/src/workflows/ltxSongWorkflow.js:88-94 | each repetition holds one clone per shot |
| SongPlanner.RepetitionPrefixSum | server/src/workflows/ltxSongWorkflow.js:88-94 | clones keep their shot's duration |
| SongPlanner.LoopedLength | server/src/workflows/ltxSongWorkflow.js:86-95 | `loops` repetitions hold loops * n shots |
| SongPlanner.LoopedSize | server/src/workflows/ltxSongWorkflow.js:86-95 | `loops` repetitions hold loops * n shots and last loops times the single pass |
| SongPlanner.LoopedAt | server/src/workflows/ltxSongWorkflow.js:86-95 | clone k of repetition i sits at index i * n + k, tagged with loop i+1 |
| SongPlanner.RepetitionStarts | server/src/workflows/ltxSongWorkflow.js:90 | each clone starts where every clone pushed before it ends |
| SongPlanner.LoopedCumulative | server/src/workflows/ltxSongWorkflow.js:86-95 | the looped list is cumulative across repetition boundaries |
| SongPlanner.Take | server/src/workflows/ltxSongWorkflow.js:97 | `slice(0, limit)` is the prefix of length min(limit, length); no limit keeps everything |
| SongPlanner.CumulativeOrdered | server/src/workflows/ltxSongWorkflow.js:64-95 | start offsets never decrease, and strictly increase when every duration is positive |
| SongPlanner.CumulativePrefix | server/src/workflows/ltxSongWorkflow.js:97 | truncating a cumulative list keeps it cumulative |
| SongPlanner.PositivePlanHasShots | server/src/workflows/ltxSongWorkflow.js:84-86 | a positive planned duration means the single pass has shots to repeat (used by `PlanLooped`) |
| SongPlanner.SafePlanOf | server/src/workflows/ltxSongWorkflow.js:53-107 | the corrected plan equals the source's plan wherever that one is defined, and a zero planned duration gives the single pass |
| SongPlanner.PlanCumulative | server/src/workflows/ltxSongWorkflow.js:53-107 | in every plan each shot starts where the previous shots end |
| SongPlanner.PlanWithoutLoop | server/src/workflows/ltxSongWorkflow.js:103-106 | when the structure covers the song, the single pass is returned unchanged, with one shot per repetition; the planned duration is the section sum with missing durations counted as 0, which is not above the shots' total |
| SongPlanner.PlanLooped | server/src/workflows/ltxSongWorkflow.js:84-100 | loop branch: the shot count is ceil(song/clip) capped by the repetitions' size, and the duration is that of all the repetitions before truncation; the single pass has shots to repeat and the looped plan is never empty |
| SongPlanner.TakeLoopedAt | server/src/workflows/ltxSongWorkflow.js:97 | truncation keeps every surviving clone at its index |
| SongPlanner.PlanCoversSong | server/src/workflows/ltxSongWorkflow.js:84-106 | the reported planned duration always reaches the song duration |
| SongPlanner.AllZeroDiverges | server/src/workflows/ltxSongWorkflow.js:84-86 | any non-empty structure whose durations are all missing or 0, with a positive song length, has planned duration 0 and so an infinite loop count |
| SongPlanner.ZeroDurationDiverges | server/src/workflows/ltxSongWorkflow.js:84-86 | one such structure, a single `intro` section with the default song length, makes the loop count infinite |
| SongPlanner.SinglePassShots | server/src/workflows/ltxSongWorkflow.js:63-82 | the `map` that threads `cumulativeDuration` builds exactly the single pass |
| SongPlanner.LoopShots | server/src/workflows/ltxSongWorkflow.js:86-95 | the nested loop builds exactly `loopNeeded` timed repetitions |
| SongPlanner.PushRepetition | server/src/workflows/ltxSongWorkflow.js:88-94 | one `forEach` pass appends one repetition, each clone starting at the total pushed so far |
| SongPlanner.PlanShots | server/src/workflows/ltxSongWorkflow.js:53-107 | `planShots` as written computes the plan of the source |
| SongPlanner.PlanShotsSafe | server/src/workflows/ltxSongWorkflow.js:53-107 | the guarded planner computes the corrected plan on every input |
| SongWorkflow.ConcatLines | server/src/workflows/ltxSongWorkflow.js:141-142 | one list line per clip |
| SongWorkflow.ConcatFileLines | server/src/workflows/ltxSongWorkflow.js:140-143 | reading the concat file line by line gives one `file '<path>'` line per clip, in order, with forward slashes only |
| SongWorkflow.StageError | server/src/workflows/ltxSongWorkflow.js:117-138 | a stage fails exactly when ffmpeg fails to start or exits with a code other than 0, and the error names that stage |
| SongWorkflow.Chain | server/src/workflows/ltxSongWorkflow.js:251-283 | one call per stage that runs |
| SongWorkflow.ChainStep | server/src/workflows/ltxSongWorkflow.js:255-283 | an enabled stage runs on the latest video and the rest read its output; a skipped stage passes the latest video on |
| SongWorkflow.ChainLinked | server/src/workflows/ltxSongWorkflow.js:251-283 | the first stage reads the concat list, each later stage reads the previous stage's output, and each stage writes its own file |
| SongWorkflow.KeepSpec | server/src/workflows/ltxSongWorkflow.js:255-283 | exactly the enabled stages run, in pipeline order |
| SongWorkflow.EnabledStagesSpec | server/src/workflows/ltxSongWorkflow.js:251-283 | concat always runs first; audio, logo, vertical and subtitles each run exactly when their input or flag is supplied; they run in pipeline order |
| SongWorkflow.ShotFilePrefixDigits | server/src/workflows/ltxSongWorkflow.js:224 | ids below 100 give `shot_` and two digits that read back as the id |
| SongWorkflow.ClipRequestFields | server/src/workflows/ltxSongWorkflow.js:221-226 | the clip request carries the shot's prompt, the clips directory and the file prefix, unless the model parameters override them |
| SongWorkflow.LastEnabledStage | server/src/workflows/ltxSongWorkflow.js:255-283 | the last stage that runs is the last one enabled in pipeline order |
| SongWorkflow.FinalVideoIsLastOutput | server/src/workflows/ltxSongWorkflow.js:251-283 | the job's final video is the file the last ffmpeg call wrote |
| SongWorkflow.ClipPaths | server/src/workflows/ltxSongWorkflow.js:251 | one path per clip |
| SongWorkflow.GenerateClips | server/src/workflows/ltxSongWorkflow.js:218-234 | clips are requested in shot order, one generator call per shot, and each clip record carries its shot and the generator's file path, byte count and metadata; the first failure stops the loop with the generator's message, and every earlier call succeeded |
| SongWorkflow.RunStage | server/src/workflows/ltxSongWorkflow.js:255-259 | an enabled stage runs on its input and writes its fixed file; a failure stops the chain at that call |
| SongWorkflow.RunStages | server/src/workflows/ltxSongWorkflow.js:236-283 | the calls made are a prefix of the full chain; on success all ran and exited with 0 and each output names its stage's file; on failure only the last call failed |
| SongWorkflow.RunPostStages | server/src/workflows/ltxSongWorkflow.js:261-283 | logo, vertical and subtitles each read the latest video, with the same prefix and stop guarantees |
| SongWorkflow.RunSongToVideo | server/src/workflows/ltxSongWorkflow.js:188-283 | the job plans with the guarded planner and then keeps every guarantee of `RunPlannedJob` |
| SongWorkflow.RunPlannedJob | server/src/workflows/ltxSongWorkflow.js:203-283 | a clip failure stops the job before any stage; a stage failure happens only after every clip was generated and stops the job at that stage; on success every shot has its clip, the concat list names them, and every stage of the chain ran |
| SongWorkflow.ClipFailureStopsJob | server/src/workflows/ltxSongWorkflow.js:218-233 | whenever the generator refused a requested clip, the job reports that clip's failure with the generator's message, it was the last clip requested, and no ffmpeg stage ran |
| AdmissionQueue.VideoQueue.constructor | server.js:159-161 | the queue starts empty with the slot free |
| AdmissionQueue.VideoQueue.Submit | server.js:165-175 | the entry gets the next ticket and goes to the tail, the waiting entries keep their order, nothing is settled, and it starts at once when the slot is free |
| AdmissionQueue.VideoQueue.ProcessQueue | server.js:179-191 | nothing happens while a job runs or when nothing waits; otherwise exactly the head entry is removed and put in service |
| AdmissionQueue.VideoQueue.Complete | server.js:195-211 | only the running entry's promise is settled, the slot is freed, and the next head starts |
| AdmissionQueue.VideoQueue.FifoOrder | server.js:159-211 | entries start and are settled in submission order, and the entry in service is the first unsettled one |
| ServerApi.GpuBase | server.js:49 | `GPU_SERVER` when set, else `GPU_BASE` when set, else none |
| ServerApi.GetModelEndpoint | server.js:229-253 | only the four known names have an endpoint, and it is one of the three configured servers |
| ServerApi.EndpointFromEnv | server.js:53-63 | a supported model's endpoint is its explicit variable when set, else the GPU base plus `/generate/<route>`, else none |
| ServerApi.GpuServerServesAll | server.js:49-63 | setting `GPU_SERVER` alone gives every supported model an endpoint |
| ServerApi.TrimAll | server.js:129 | every piece is trimmed |
| ServerApi.NonEmpty | server.js:131 | `filter(Boolean)` keeps exactly the non-empty pieces |
| ServerApi.AllowedKeys | server.js:125-131 | every allowed key is non-empty, comma-free and trimmed |
| ServerApi.NoKeys | server.js:125 | an unset `API_KEYS` allows no key |
| ServerApi.AllowedKeysRoundTrip | server.js:125-131 | configuring a comma-joined list of well-formed keys allows exactly that list |
| ServerApi.ApiKeyGuard | server.js:117-145 | a missing key is 401, an unlisted key is 403, and a listed key passes, each if and only if |
| ServerApi.GuardOnList | server.js:117-145 | with such a list the guard passes exactly the listed keys, and refuses a key with whitespace at either end |
| ServerApi.NumFrames | server.js:455 | the frame count is seconds * fps, a falsy operand being replaced by 15 seconds or 24 fps |
| ServerApi.ValidateVideoGenerate | server.js:387-477 | 400 exactly when the prompt is falsy or the model is not supported; success exactly when, in addition, the model's endpoint and the GPU base are set and non-empty; 500 on the other failures; a valid job carries the model, its endpoint, and the posted body: the prompt, `num_frames` as `NumFrames` of seconds and fps, and `fps`, `width` and `height` defaulting to 24, 512 and 512 |
| ServerApi.EnvEndpointsConfigured | server.js:53-63 | endpoints read from the environment are never empty strings, so the route's truthiness checks on them are presence checks |
| ServerApi.HandleVideoGenerate | server.js:387-459 | a rejected request answers at once and leaves the queue untouched; a valid one answers with its ticket, settles nothing, waits at the tail when the slot is busy and starts at once when it is free |
| LtxHistory.BaseUrl | server/routes/ltxRoutes.js:11-13 | a configured base URL is used, and an unset one gives the default `https://rmo5wr1h48d38t-8000.proxy.runpod.net` |
| LtxHistory.ResolveParams | server/routes/ltxRoutes.js:56-64 | missing fields get 81 frames, 768 x 512, 24 fps, 28 steps and no image |
| LtxHistory.ResolveKeepsSupplied | server/routes/ltxRoutes.js:56-64 | supplied values, `0`, `false` and `""` included, are sent as given, and resolving twice changes nothing |
| LtxHistory.NewRecord | server/routes/ltxRoutes.js:80-93 | the id is the clock rendered in decimal, the url is the base followed by the returned path, and `used_image` is the truthiness of the returned flag |
| LtxHistory.FirstIndexOf | server/routes/ltxRoutes.js:114 | `findIndex` gives the first index with the id, and none exactly when no record has it |
| LtxHistory.FindIndex | server/routes/ltxRoutes.js:114 | the search loop returns that first index, or -1 |
| LtxHistory.RemoveAt | server/routes/ltxRoutes.js:118 | `splice(i, 1)` removes element i and keeps the others in order |
| LtxHistory.History.constructor | server/routes/ltxRoutes.js:25-33 | the history holds the records read |
| LtxHistory.History.Generate | server/routes/ltxRoutes.js:40-101 | a missing or non-string prompt is 400; a failed backend is 500 with its status; a thrown call is 500; otherwise the new record, its url built on the configured base URL, goes to the front and nothing else changes |
| LtxHistory.History.Delete | server/routes/ltxRoutes.js:111-121 | an unknown id is 404 with no change; otherwise exactly the first record with the id is removed and returned |
| LtxHistory.DeleteUndoesInsert | server/routes/ltxRoutes.js:84-121 | deleting the id of the record just put in front gives the earlier history back |
| LtxHistory.DeleteKeepsOthers | server/routes/ltxRoutes.js:111-121 | a delete removes one record with the id and keeps every record with another id |

## Left out

- SongPlanner.PlanShots: defined only for inputs on which the source's loop count
  is finite. On the other inputs the source loops forever; see "Findings".
- Negative durations, repeat counts below 1, and `repeat` as a non-integer:
  - section durations and song and clip lengths are natural numbers;
  - `repeat` is an integer, floored at 1 as in the source.
- Numbers in general are integers: floating-point values and rounding are not
  modelled. This includes `Math.round`.
- ServerApi.NumFrames: a non-numeric factor gives no frame count here. JavaScript
  would coerce it to a number or `NaN`.
- SongPlanner.TemplateFor: keys that name inherited object properties (such as
  `constructor`) are not looked up on the prototype.
- Whitespace:
  - `trim` and `\s` are limited to ASCII whitespace. Unicode spaces are not
    modelled.
  - `split(/\n\s*\n/)` is modelled by a direct scan that cuts at each blank run.
- `path.join` is modelled as `dir + "/" + name`. Path normalisation is not modelled.
- The ffmpeg subprocess is a function from argument vectors to exit statuses.
  Spawning, stdio and the encoding itself are outside the model.
- File system effects are not modelled:
  - `mkdir`, writing `concat.txt`, `metadata.json` and the history file, and any
    failure of those writes.
  - The concat list's content is returned instead of written.
  - `readHistory`'s fallback to `[]` on a broken file is not modelled. A `History`
    object starts from whatever list it is given.
- `randomUUID`, `Date.now` and `toISOString` are parameters.
- The clip generator (`server/src/services/huggingfaceLtx.js`) is not part of this
  model. It is a function parameter of the call's position in the clip loop and its
  request. Each call is therefore a separate one: looped clones, which send equal
  requests, may get different files and outcomes. The file name the generator picks
  (the prefix plus a timestamp) is left to it.
- SongWorkflow.GenerateClips: the source rethrows the generator's error unchanged.
  The `shotIndex` of `ClipFailed` is the model's own record of where the loop
  stopped, not part of the error the caller sees.
- `fetch` to the LTX backend is a parameter (the reply, or a thrown error).
- ServerApi.HandleVideoGenerate: returns the queue ticket of the job. What the
  queued job does is not modelled:
  - the `fetch` to the GPU endpoint;
  - its `{ success, video, model }` reply;
  - the 500 `server error` answer when the job is rejected.

  The queue models the job's outcome as a settlement.
- The interleaving of asynchronous handlers is a sequence of events. Each promise
  is reduced to its settlement record.
- `requireAuth` and the admin check are not part of this model.
- The other routes of `server.js` are not part of this model (image, LTX proxy,
  health and status).
- `GET /history` only reads the file back and is not modelled.
- The logging in every handler is not modelled.

## Findings

| source | as written | input that shows it | evidently intended | confidence | as-written member | corrected member |
|---|---|---|---|---|---|---|
| server/src/workflows/ltxSongWorkflow.js:84-95 | when every section duration is missing or 0, `plannedDuration` is 0 and `Math.ceil(songDurationSec / 0)` is `Infinity`, so the clone loop never ends | `planShots({ structure: [{ key: "intro" }] })` with the default song length of 210 | a zero planned duration gives the single pass, with no looping and no division by zero | not executed | SongPlanner.ZeroDurationDiverges | SongPlanner.SafePlanOf |

The workflow (`SongWorkflow.RunSongToVideo`) uses the corrected planner
`SongPlanner.PlanShotsSafe`. Its result equals the as-written plan on every input
where the as-written planner terminates.
