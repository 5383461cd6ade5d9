/** The LTX routes of server/routes/ltxRoutes.js: `POST /generate` checks the
    prompt, fills in missing generation parameters with `??`, asks the LTX
    backend for a video and puts a record of it at the front of the history;
    `DELETE /history/:id` removes the first record with that id. The history
    file is the `items` field of a History object. */
module LtxHistory {
  import opened Wrappers
  import opened Strings
  import opened JsValues

  /** The backend used when `RUNPOD_LTX_BASE_URL` is unset. */
  const DefaultBaseUrl: string := "https://rmo5wr1h48d38t-8000.proxy.runpod.net"

  /** `RUNPOD_LTX_BASE_URL || <default>`; "" is unset. */
  function BaseUrl(configured: string): (r: string)
    ensures r != ""
    ensures configured != "" ==> r == configured
    ensures configured == "" ==> r == DefaultBaseUrl
  {
    if configured != "" then configured else DefaultBaseUrl
  }

  /** The fields the route destructures from `req.body || {}`. */
  datatype GenerateBody = GenerateBody(prompt: JsValue, numFrames: JsValue, width: JsValue, height: JsValue,
                                       fps: JsValue, numInferenceSteps: JsValue, imageBase64: JsValue)

  /** The JSON body sent to the backend, and kept in the record as `params`. */
  datatype LtxParams = LtxParams(prompt: string, numFrames: JsValue, width: JsValue, height: JsValue,
                                 fps: JsValue, numInferenceSteps: JsValue, imageBase64: JsValue)

  /** `!prompt || typeof prompt !== "string"` is false exactly for a non-empty string. */
  predicate PromptAccepted(prompt: JsValue) {
    prompt.Str? && prompt.s != ""
  }

  /** The `??` defaults: 81 frames of 768 x 512 at 24 fps, 28 inference steps,
      no image. */
  function ResolveParams(prompt: string, body: GenerateBody): (p: LtxParams)
    ensures p.prompt == prompt
    ensures Nullish(body.numFrames) ==> p.numFrames == Number(81)
    ensures Nullish(body.width) ==> p.width == Number(768)
    ensures Nullish(body.height) ==> p.height == Number(512)
    ensures Nullish(body.fps) ==> p.fps == Number(24)
    ensures Nullish(body.numInferenceSteps) ==> p.numInferenceSteps == Number(28)
    ensures Nullish(body.imageBase64) ==> p.imageBase64 == Null
  {
    LtxParams(prompt, Coalesce(body.numFrames, Number(81)), Coalesce(body.width, Number(768)),
              Coalesce(body.height, Number(512)), Coalesce(body.fps, Number(24)),
              Coalesce(body.numInferenceSteps, Number(28)), Coalesce(body.imageBase64, Null))
  }

  /** The parameters sent back as a request body. */
  function AsBody(p: LtxParams): GenerateBody {
    GenerateBody(Str(p.prompt), p.numFrames, p.width, p.height, p.fps, p.numInferenceSteps, p.imageBase64)
  }

  /** Supplied values, 0 and false and "" included, are sent as given, and
      resolving the resolved parameters again changes nothing. */
  lemma ResolveKeepsSupplied(prompt: string, body: GenerateBody)
    ensures var p := ResolveParams(prompt, body);
      && (!Nullish(body.numFrames) ==> p.numFrames == body.numFrames)
      && (!Nullish(body.width) ==> p.width == body.width)
      && (!Nullish(body.height) ==> p.height == body.height)
      && (!Nullish(body.fps) ==> p.fps == body.fps)
      && (!Nullish(body.numInferenceSteps) ==> p.numInferenceSteps == body.numInferenceSteps)
      && (!Nullish(body.imageBase64) ==> p.imageBase64 == body.imageBase64)
    ensures ResolveParams(prompt, AsBody(ResolveParams(prompt, body))) == ResolveParams(prompt, body)
  {
  }

  /** The `{ file, url, used_image }` JSON of a successful reply. */
  datatype ReplyData = ReplyData(file: JsValue, url: JsValue, usedImage: JsValue)

  /** What the backend answered: `response.ok`, `response.status`, and the
      body parsed as JSON (None when `response.json()` throws). */
  datatype BackendReply = BackendReply(ok: bool, status: int, json: Option<ReplyData>)

  datatype Record = Record(id: string, prompt: string, file: JsValue, url: string, createdAt: string,
                           usedImage: bool, params: LtxParams)

  /** The route's answers: 400, the backend's failure (500 with its status),
      500 when the request or its JSON threw, or the new record. */
  datatype GenerateResponse = PromptRequired | BackendFailed(status: int) | ServerError | Created(record: Record)

  datatype DeleteResponse = NotFound | Removed(record: Record)

  /** The record of a generated video: its id is the clock in milliseconds,
      its url the backend base followed by the returned path, and
      `used_image` the truthiness of the returned flag. */
  function NewRecord(params: LtxParams, baseUrl: string, reply: ReplyData, now: nat, createdAt: string): (r: Record)
    ensures r.id == NatToString(now) && r.prompt == params.prompt && r.params == params
    ensures |r.url| >= |baseUrl| && r.url[..|baseUrl|] == baseUrl && r.url[|baseUrl|..] == TemplateString(reply.url)
    ensures r.usedImage <==> Truthy(reply.usedImage)
  {
    var url := baseUrl + TemplateString(reply.url);
    assert url[..|baseUrl|] == baseUrl;
    Record(NatToString(now), params.prompt, reply.file, url, createdAt, Truthy(reply.usedImage), params)
  }

  /** `history.findIndex((v) => v.id === id)`, None standing for -1. */
  function FirstIndexOf(history: seq<Record>, id: string): (r: Option<nat>)
    ensures r.Some? ==> r.value < |history| && history[r.value].id == id
    ensures r.Some? ==> forall j :: 0 <= j < r.value ==> history[j].id != id
    ensures r.None? <==> forall j :: 0 <= j < |history| ==> history[j].id != id
  {
    if |history| == 0 then None
    else if history[0].id == id then Some(0)
    else match FirstIndexOf(history[1..], id)
      case None => None
      case Some(i) => Some(i + 1)
  }

  /** `findIndex`, with its loop. */
  method FindIndex(history: seq<Record>, id: string) returns (idx: int)
    ensures idx == (match FirstIndexOf(history, id) case Some(i) => i case None => -1)
  {
    idx := 0;
    while idx < |history|
      invariant 0 <= idx <= |history|
      invariant forall j :: 0 <= j < idx ==> history[j].id != id
    {
      if history[idx].id == id {
        return;
      }
      idx := idx + 1;
    }
    idx := -1;
  }

  /** `history.splice(i, 1)`: the list without element i. */
  function RemoveAt(history: seq<Record>, i: nat): (r: seq<Record>)
    requires i < |history|
    ensures |r| == |history| - 1
    ensures forall j :: 0 <= j < i ==> r[j] == history[j]
    ensures forall j :: i <= j < |r| ==> r[j] == history[j + 1]
    ensures multiset(r) + multiset{history[i]} == multiset(history)
  {
    assert history == history[..i] + [history[i]] + history[i + 1..];
    history[..i] + history[i + 1..]
  }

  class History {
    var items: seq<Record>

    constructor (items: seq<Record>)
      ensures this.items == items
    {
      this.items := items;
    }

    /** `POST /generate` once the backend call is made: `configuredBaseUrl`
        is `RUNPOD_LTX_BASE_URL` ("" when unset), `reply` the fetch result
        (Failure when fetch threw), `now` and `createdAt` the clock. */
    method Generate(body: GenerateBody, configuredBaseUrl: string, reply: Result<BackendReply, string>, now: nat,
                    createdAt: string) returns (response: GenerateResponse)
      modifies this
      ensures !PromptAccepted(body.prompt) ==> response == PromptRequired && items == old(items)
      ensures PromptAccepted(body.prompt) && reply.Success? && !reply.value.ok ==>
        response == BackendFailed(reply.value.status) && items == old(items)
      ensures PromptAccepted(body.prompt) && (reply.Failure? || (reply.value.ok && reply.value.json.None?)) ==>
        response == ServerError && items == old(items)
      ensures PromptAccepted(body.prompt) && reply.Success? && reply.value.ok && reply.value.json.Some? ==>
        && response == Created(NewRecord(ResolveParams(body.prompt.s, body), BaseUrl(configuredBaseUrl),
                                         reply.value.json.value, now, createdAt))
        && items == [response.record] + old(items)
    {
      if !PromptAccepted(body.prompt) {
        return PromptRequired;
      }
      var params := ResolveParams(body.prompt.s, body);
      if reply.Failure? {
        return ServerError;
      }
      if !reply.value.ok {
        return BackendFailed(reply.value.status);
      }
      if reply.value.json.None? {
        return ServerError;
      }
      var record := NewRecord(params, BaseUrl(configuredBaseUrl), reply.value.json.value, now, createdAt);
      items := [record] + items;
      return Created(record);
    }

    /** `DELETE /history/:id`: 404 and no change when no record has the id;
        otherwise exactly the first record with the id is removed and
        returned, the others keeping their order. */
    method Delete(id: string) returns (response: DeleteResponse)
      modifies this
      ensures FirstIndexOf(old(items), id).None? ==> response == NotFound && items == old(items)
      ensures FirstIndexOf(old(items), id).Some? ==>
        var i := FirstIndexOf(old(items), id).value;
        response == Removed(old(items)[i]) && items == RemoveAt(old(items), i)
    {
      var idx := FindIndex(items, id);
      if idx == -1 {
        return NotFound;
      }
      var removed := items[idx];
      items := RemoveAt(items, idx);
      return Removed(removed);
    }
  }

  /** Deleting the id of the record just inserted at the front gives the
      history back as it was, whatever ids the older records carry. */
  lemma DeleteUndoesInsert(history: seq<Record>, record: Record)
    ensures FirstIndexOf([record] + history, record.id) == Some(0)
    ensures RemoveAt([record] + history, 0) == history
  {
    var h := [record] + history;
    assert h[1..] == history;
  }

  /** A delete removes one record carrying the id and keeps every record
      with another id. */
  lemma DeleteKeepsOthers(history: seq<Record>, id: string)
    requires FirstIndexOf(history, id).Some?
    ensures var r := RemoveAt(history, FirstIndexOf(history, id).value);
      && multiset(r) + multiset{history[FirstIndexOf(history, id).value]} == multiset(history)
      && forall x :: x in history && x.id != id ==> x in r
  {
    var i := FirstIndexOf(history, id).value;
    var r := RemoveAt(history, i);
    forall x | x in history && x.id != id ensures x in r {
      var j :| 0 <= j < |history| && history[j] == x;
      if j < i {
        assert r[j] == x;
      } else {
        assert j != i;
        assert r[j - 1] == x;
      }
    }
  }
}
