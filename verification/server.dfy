/** The pure pieces of server.js around the queue: the GPU endpoints read
    from the environment, `getModelEndpoint`, the `x-api-key` allow-list
    check of `apiKeyGuard`, and the validation `/api/video/generate` does
    before it hands a job to the queue. */
module ServerApi {
  import opened Wrappers
  import opened Strings
  import opened JsValues
  import opened AdmissionQueue

  // ---------------------------------------------------------------------
  // Endpoints
  // ---------------------------------------------------------------------

  /** The environment variables read at start-up; "" stands for unset
      (every one of them is read with `||`, so an empty value is unset too). */
  datatype Env = Env(gpuServer: string, gpuBase: string, ltxServer: string, mochiServer: string,
                     cogServer: string, apiKeys: string)

  /** `GPU_BASE`, `LTX_SERVER`, `MOCHI_SERVER` and `COG_SERVER`; None is `null`. */
  datatype Endpoints = Endpoints(gpuBase: Option<string>, ltx: Option<string>, mochi: Option<string>,
                                 cog: Option<string>)

  /** `GPU_SERVER || GPU_BASE || null`. */
  function GpuBase(env: Env): (r: Option<string>)
    ensures r.Some? <==> env.gpuServer != "" || env.gpuBase != ""
    ensures r.Some? ==> r.value != ""
    ensures env.gpuServer != "" ==> r == Some(env.gpuServer)
    ensures env.gpuServer == "" && env.gpuBase != "" ==> r == Some(env.gpuBase)
  {
    if env.gpuServer != "" then Some(env.gpuServer)
    else if env.gpuBase != "" then Some(env.gpuBase)
    else None
  }

  /** `EXPLICIT || (GPU_BASE ? `${GPU_BASE}/generate/<name>` : null)`. */
  function ModelServer(explicit: string, base: Option<string>, name: string): Option<string> {
    if explicit != "" then Some(explicit)
    else if base.Some? then Some(base.value + "/generate/" + name)
    else None
  }

  function EndpointsOf(env: Env): Endpoints {
    var base := GpuBase(env);
    Endpoints(base, ModelServer(env.ltxServer, base, "ltx"), ModelServer(env.mochiServer, base, "mochi"),
              ModelServer(env.cogServer, base, "cog"))
  }

  /** The model names the video route accepts. */
  const SupportedModels: seq<string> := ["ltx", "mochi", "cogvideo", "cog"]

  /** `getModelEndpoint`: only the four known names have an endpoint. */
  function GetModelEndpoint(ep: Endpoints, model: string): (r: Option<string>)
    ensures model !in SupportedModels ==> r == None
    ensures r.Some? ==> r in {ep.ltx, ep.mochi, ep.cog}
  {
    match model
    case "ltx" => ep.ltx
    case "mochi" => ep.mochi
    case "cogvideo" => ep.cog
    case "cog" => ep.cog
    case _ => None
  }

  /** The explicit variable of a model, as `getModelEndpoint` picks it. */
  function ExplicitServer(env: Env, model: string): string
    requires model in SupportedModels
  {
    if model == "ltx" then env.ltxServer
    else if model == "mochi" then env.mochiServer
    else env.cogServer
  }

  /** The route name a model's derived endpoint ends in: "cogvideo" shares "cog". */
  function RouteName(model: string): string
    requires model in SupportedModels
  {
    if model == "cogvideo" then "cog" else model
  }

  /** With the start-up environment, a supported model's endpoint is its
      explicit variable when set, else GPU_BASE + "/generate/" + its route,
      else null; any other name has none. */
  lemma EndpointFromEnv(env: Env, model: string)
    ensures model in SupportedModels ==>
      GetModelEndpoint(EndpointsOf(env), model)
        == if ExplicitServer(env, model) != "" then Some(ExplicitServer(env, model))
           else if GpuBase(env).Some? then Some(GpuBase(env).value + "/generate/" + RouteName(model))
           else None
    ensures model !in SupportedModels ==> GetModelEndpoint(EndpointsOf(env), model) == None
  {
    if model in SupportedModels {
      assert model == "ltx" || model == "mochi" || model == "cogvideo" || model == "cog";
    }
  }

  /** Setting GPU_SERVER alone gives every supported model an endpoint. */
  lemma GpuServerServesAll(env: Env, model: string)
    requires env.gpuServer != "" && model in SupportedModels
    ensures GetModelEndpoint(EndpointsOf(env), model).Some?
  {
    EndpointFromEnv(env, model);
  }

  /** Endpoints read from the environment are never empty strings, so on
      them the route's truthiness checks are presence checks. */
  lemma EnvEndpointsConfigured(env: Env, model: string)
    ensures Configured(EndpointsOf(env).gpuBase) <==> GpuBase(env).Some?
    ensures Configured(GetModelEndpoint(EndpointsOf(env), model))
      <==> GetModelEndpoint(EndpointsOf(env), model).Some?
  {
    EndpointFromEnv(env, model);
  }

  // ---------------------------------------------------------------------
  // API key guard
  // ---------------------------------------------------------------------

  function TrimAll(pieces: seq<string>): (r: seq<string>)
    ensures |r| == |pieces|
    ensures forall k :: 0 <= k < |r| ==> r[k] == Trim(pieces[k])
  {
    if |pieces| == 0 then [] else [Trim(pieces[0])] + TrimAll(pieces[1..])
  }

  /** `filter(Boolean)` on strings: the non-empty ones, in order. */
  function NonEmpty(pieces: seq<string>): (r: seq<string>)
    ensures forall p :: p in r <==> p in pieces && p != ""
  {
    if |pieces| == 0 then []
    else if pieces[0] == "" then NonEmpty(pieces[1..])
    else [pieces[0]] + NonEmpty(pieces[1..])
  }

  /** A key that can appear in the allow-list: non-empty, no comma, and no
      whitespace at either end. */
  predicate WellFormedKey(k: string) {
    k != "" && ',' !in k && !IsSpace(k[0]) && !IsSpace(k[|k| - 1])
  }

  predicate WellFormedKeys(keys: seq<string>) {
    forall k :: 0 <= k < |keys| ==> WellFormedKey(keys[k])
  }

  /** `(API_KEYS || "").split(",").map((k) => k.trim()).filter(Boolean)`. */
  function AllowedKeys(apiKeys: string): (r: seq<string>)
    ensures forall k :: 0 <= k < |r| ==> WellFormedKey(r[k])
  {
    var pieces := Split(apiKeys, ',');
    TrimmedPiecesClean(pieces);
    NonEmptyWellFormed(TrimAll(pieces));
    NonEmpty(TrimAll(pieces))
  }

  /** No comma and no whitespace at either end. */
  predicate Clean(p: string) {
    ',' !in p && (p == [] || (!IsSpace(p[0]) && !IsSpace(p[|p| - 1])))
  }

  predicate AllClean(pieces: seq<string>) {
    forall k :: 0 <= k < |pieces| ==> Clean(pieces[k])
  }

  lemma TrimmedPiecesClean(pieces: seq<string>)
    requires forall k :: 0 <= k < |pieces| ==> ',' !in pieces[k]
    ensures AllClean(TrimAll(pieces))
  {
  }

  lemma NonEmptyWellFormed(pieces: seq<string>)
    requires AllClean(pieces)
    ensures forall k :: 0 <= k < |NonEmpty(pieces)| ==> WellFormedKey(NonEmpty(pieces)[k])
  {
    var r := NonEmpty(pieces);
    forall k | 0 <= k < |r| ensures WellFormedKey(r[k]) {
      assert r[k] in r;
      var m :| 0 <= m < |pieces| && pieces[m] == r[k];
      assert Clean(pieces[m]);
    }
  }

  datatype GuardResult = Pass | Reject(status: nat, error: string)

  /** `apiKeyGuard`: a missing or empty `x-api-key` header is 401, a key not
      on the list is 403, and a listed key passes. */
  function ApiKeyGuard(key: string, apiKeys: string): (r: GuardResult)
    ensures r == Reject(401, "API key required") <==> key == ""
    ensures r == Reject(403, "Invalid API key") <==> key != "" && key !in AllowedKeys(apiKeys)
    ensures r == Pass <==> key != "" && key in AllowedKeys(apiKeys)
  {
    if key == "" then Reject(401, "API key required")
    else if key !in AllowedKeys(apiKeys) then Reject(403, "Invalid API key")
    else Pass
  }

  lemma {:induction false} NonEmptyAll(pieces: seq<string>)
    requires forall k :: 0 <= k < |pieces| ==> pieces[k] != ""
    ensures NonEmpty(pieces) == pieces
  {
    if |pieces| > 0 {
      NonEmptyAll(pieces[1..]);
      assert pieces == [pieces[0]] + pieces[1..];
    }
  }

  /** Writing a list of well-formed keys comma-separated into API_KEYS gives
      back exactly that list. */
  lemma AllowedKeysRoundTrip(keys: seq<string>)
    requires WellFormedKeys(keys)
    ensures AllowedKeys(Join(keys, ",")) == keys
  {
    if |keys| == 0 {
      NoKeys();
    } else {
      SplitJoin(keys, ',');
      TrimAllFixed(keys);
      NonEmptyAll(keys);
    }
  }

  /** An unset API_KEYS allows no key at all. */
  lemma NoKeys()
    ensures AllowedKeys("") == []
  {
    assert SplitAt("", ',', 0) == [""];
    assert TrimAll([""]) == [""];
  }

  lemma HeadTail(keys: seq<string>)
    requires |keys| > 0
    ensures keys == [keys[0]] + keys[1..]
  {
  }

  lemma {:induction false} TrimAllFixed(keys: seq<string>)
    requires WellFormedKeys(keys)
    ensures TrimAll(keys) == keys
  {
    if |keys| > 0 {
      var head, tail := keys[0], keys[1..];
      assert WellFormedKey(head);
      assert WellFormedKeys(tail) by {
        forall k | 0 <= k < |tail| ensures WellFormedKey(tail[k]) {
          assert tail[k] == keys[k + 1];
        }
      }
      TrimmedFixed(head);
      TrimAllFixed(tail);
      assert TrimAll(keys) == [head] + tail;
      HeadTail(keys);
    }
  }

  /** With such a list configured, the guard passes exactly the listed keys;
      a key with whitespace at either end is always refused. */
  lemma GuardOnList(keys: seq<string>, key: string)
    requires WellFormedKeys(keys)
    ensures key != "" ==> (ApiKeyGuard(key, Join(keys, ",")) == Pass <==> key in keys)
    ensures key != "" && (IsSpace(key[0]) || IsSpace(key[|key| - 1]))
      ==> ApiKeyGuard(key, Join(keys, ",")) == Reject(403, "Invalid API key")
  {
    AllowedKeysRoundTrip(keys);
  }

  // ---------------------------------------------------------------------
  // POST /api/video/generate
  // ---------------------------------------------------------------------

  /** The fields the route destructures from `req.body || {}`. */
  datatype VideoBody = VideoBody(prompt: JsValue, model: JsValue, seconds: JsValue, fps: JsValue,
                                 width: JsValue, height: JsValue)

  datatype HttpError = HttpError(status: nat, error: string)

  /** The job handed to the queue: where it posts, and the JSON body it posts. */
  datatype GpuJob = GpuJob(endpoint: string, model: string, prompt: JsValue, numFrames: Option<int>,
                           fps: JsValue, width: JsValue, height: JsValue)

  /** `Math.round((seconds || 15) * (fps || 24))` when both factors are numbers. */
  function NumFrames(seconds: JsValue, fps: JsValue): (r: Option<int>)
    ensures seconds.Number? && fps.Number? ==> r.Some?
    ensures seconds.Number? && seconds.n != 0 && fps.Number? && fps.n != 0 ==> r == Some(seconds.n * fps.n)
    ensures !Truthy(seconds) && fps.Number? && fps.n != 0 ==> r == Some(15 * fps.n)
    ensures seconds.Number? && seconds.n != 0 && !Truthy(fps) ==> r == Some(seconds.n * 24)
    ensures !Truthy(seconds) && !Truthy(fps) ==> r == Some(15 * 24)
  {
    var s := OrElse(seconds, Number(15));
    var f := OrElse(fps, Number(24));
    if s.Number? && f.Number? then Some(s.n * f.n) else None
  }

  /** `!!value` for a setting that may be `null`: present and not empty. */
  predicate Configured(value: Option<string>) {
    value.Some? && value.value != ""
  }

  /** The checks the route makes before any queue work, in the order it
      makes them, and the body the queued job posts: the prompt, the frame
      count, and `fps`, `width` and `height` with their destructuring
      defaults. */
  function ValidateVideoGenerate(body: VideoBody, ep: Endpoints): (r: Result<GpuJob, HttpError>)
    ensures r.Failure? && r.error.status == 400
      <==> !Truthy(body.prompt) || !(DefaultTo(body.model, Str("ltx")).Str? && DefaultTo(body.model, Str("ltx")).s in SupportedModels)
    ensures r.Failure? ==> r.error.status in {400, 500}
    ensures r.Success? <==>
      && Truthy(body.prompt)
      && DefaultTo(body.model, Str("ltx")).Str? && DefaultTo(body.model, Str("ltx")).s in SupportedModels
      && Configured(GetModelEndpoint(ep, DefaultTo(body.model, Str("ltx")).s))
      && Configured(ep.gpuBase)
    ensures r.Success? ==>
      && Truthy(body.prompt) && r.value.model in SupportedModels
      && DefaultTo(body.model, Str("ltx")) == Str(r.value.model)
      && GetModelEndpoint(ep, r.value.model) == Some(r.value.endpoint)
      && r.value.endpoint != ""
      && Configured(ep.gpuBase)
      && r.value.prompt == body.prompt
      && r.value.numFrames == NumFrames(body.seconds, body.fps)
      && r.value.fps == DefaultTo(body.fps, Number(24))
      && r.value.width == DefaultTo(body.width, Number(512))
      && r.value.height == DefaultTo(body.height, Number(512))
  {
    if !Truthy(body.prompt) then Failure(HttpError(400, "prompt is required"))
    else
      var model := DefaultTo(body.model, Str("ltx"));
      if !(model.Str? && model.s in SupportedModels) then
        Failure(HttpError(400, "model must be one of: ltx, mochi, cogvideo"))
      else
        var endpoint := GetModelEndpoint(ep, if model.s == "cog" then "cogvideo" else model.s);
        if !Configured(endpoint) then
          Failure(HttpError(500, "GPU endpoint for model '" + model.s + "' is not configured on server"))
        else if !Configured(ep.gpuBase) then
          Failure(HttpError(500, "GPU_SERVER (GPU_BASE) not configured on server"))
        else
          Success(GpuJob(endpoint.value, model.s, body.prompt, NumFrames(body.seconds, body.fps),
                         DefaultTo(body.fps, Number(24)), DefaultTo(body.width, Number(512)),
                         DefaultTo(body.height, Number(512))))
  }

  /** The route: a request that fails validation answers at once and leaves
      the queue untouched; a valid one is submitted to the queue, answers with
      its ticket, and settles nothing: it waits at the tail when the slot is
      busy and starts at once when it is free. */
  method HandleVideoGenerate<V>(queue: VideoQueue<GpuJob, V>, body: VideoBody, ep: Endpoints)
    returns (response: Result<nat, HttpError>)
    requires queue.Valid()
    modifies queue
    ensures queue.Valid()
    ensures ValidateVideoGenerate(body, ep).Failure? ==>
      response == Failure(ValidateVideoGenerate(body, ep).error) && unchanged(queue)
    ensures ValidateVideoGenerate(body, ep).Success? ==>
      var entry := Entry(old(queue.nextTicket), ValidateVideoGenerate(body, ep).value);
      && response == Success(entry.ticket)
      && queue.nextTicket == old(queue.nextTicket) + 1
      && queue.submitted == old(queue.submitted) + [entry]
      && queue.settled == old(queue.settled)
      && queue.isProcessing
      && (old(queue.isProcessing) ==>
            && queue.pending == old(queue.pending) + [entry]
            && queue.inService == old(queue.inService)
            && queue.started == old(queue.started))
      && (!old(queue.isProcessing) ==>
            && queue.pending == []
            && queue.inService == Some(entry)
            && queue.started == old(queue.started) + [entry])
  {
    var checked := ValidateVideoGenerate(body, ep);
    if checked.Failure? {
      return Failure(checked.error);
    }
    var ticket := queue.Submit(checked.value);
    return Success(ticket);
  }
}
