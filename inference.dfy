/** The model service: a cache from variant name to an optional loaded
    model handle, the request path that loads lazily and measures the
    generation, and the describe operation that reports on a variant. */
module Inference {
  import opened Wrappers
  import opened Exceptions
  import opened Constants
  import opened PyText
  import opened Response

  /** The variant names the cache knows. */
  const Variants: set<string> := {"4bit", "8bit"}

  /** A loaded model, opaque except for the thread count it was built with. */
  datatype Handle = Handle(id: nat, threads: int)

  /** What the model constructor did for one path: returned a model (named
      by an identity), returned nothing, or raised an exception with the
      given text. */
  datatype Construction = Built(id: nat) | BuiltNothing | ConstructRaised(reason: string)

  /** The handle `create_optimized_llama` returns: always the fixed
      execution profile's thread count. */
  function Open(id: nat): Handle {
    Handle(id, DefaultThreads)
  }

  /** The file system and the model constructor as one call sees them. */
  datatype Disk = Disk(fileExists: string -> bool, construct: string -> Construction)

  /** The chat-completion call on a handle, for a request payload and a
      token budget: the generated text, or the exception it raised. The
      prompt is rendered from the payload outside this model. */
  type Completion = (Handle, string, int) -> Result<string, PyError>

  type Models = map<string, Option<Handle>>

  predicate Loaded(models: Models, t: string) {
    t in models && models[t].Some?
  }

  /** Every cached handle was built with the fixed execution profile. */
  predicate Profiled(models: Models) {
    forall k :: k in models && models[k].Some? ==> models[k].value.threads == DefaultThreads
  }

  /** The canonical file of a variant; none for an unknown name. */
  function VariantPath(t: string): (p: Option<string>)
    ensures p.Some? <==> t in Variants
    ensures p.Some? ==> StartsWith(p.value, ModelDir + "/" + t + "/")
    ensures t == "4bit" ==> p == Some(Model4BitPath)
    ensures t == "8bit" ==> p == Some(Model8BitPath)
  {
    VariantLayout();
    if t == "4bit" then Some(Model4BitPath)
    else if t == "8bit" then Some(Model8BitPath)
    else None
  }

  // ---------------------------------------------------------------------
  // load_model

  datatype LoadResult = LoadResult(models: Models, status: string)

  /** `load_model(t)`: the new cache and the status string. */
  function Load(models: Models, t: string, disk: Disk): (r: LoadResult)
    ensures t !in Variants ==> r == LoadResult(models, "Unsupported model type: " + t)
    ensures t in Variants && !disk.fileExists(VariantPath(t).value) ==>
      r == LoadResult(models, "Model file not found at path: " + VariantPath(t).value)
    ensures t in Variants && disk.fileExists(VariantPath(t).value) ==>
      match disk.construct(VariantPath(t).value)
      case Built(id) => r == LoadResult(models[t := Some(Open(id))], "Model " + t + " loaded successfully")
      case BuiltNothing => r == LoadResult(models[t := None], "Failed to load model of type: " + t)
      case ConstructRaised(reason) => r == LoadResult(models, "Error loading model: " + reason)
    // only the requested variant's entry can change, and no key appears
    // other than a known variant's
    ensures forall k :: k != t ==> (k in r.models <==> k in models)
    ensures forall k :: k != t && k in models ==> r.models[k] == models[k]
    ensures r.models.Keys <= models.Keys + Variants
    ensures Profiled(models) ==> Profiled(r.models)
  {
    match VariantPath(t)
    case None => LoadResult(models, "Unsupported model type: " + t)
    case Some(path) =>
      if !disk.fileExists(path) then LoadResult(models, "Model file not found at path: " + path)
      else
        match disk.construct(path)
        case ConstructRaised(reason) => LoadResult(models, "Error loading model: " + reason)
        case Built(id) => LoadResult(models[t := Some(Open(id))], "Model " + t + " loaded successfully")
        case BuiltNothing => LoadResult(models[t := None], "Failed to load model of type: " + t)
  }

  // ---------------------------------------------------------------------
  // generate_response

  /** The dictionary `generate_response` returns; `processingTime` is the
      elapsed time before rounding. */
  datatype InferenceResult = InferenceResult(
    response: string,
    processingTime: real,
    tokensGenerated: nat,
    tokensPerSecond: real,
    modelType: string)

  /** The dictionary itself. When no time has passed the rate is the
      integer 0 the guard falls back to, otherwise the computed real. */
  function InferenceResultJson(r: InferenceResult): (m: map<string, Json>)
    ensures m.Keys == {"response", "processing_time", "tokens_generated", "tokens_per_second", "model_type"}
    ensures m["response"] == JString(r.response) && m["model_type"] == JString(r.modelType)
    ensures m["processing_time"] == JReal(r.processingTime)
    ensures m["tokens_generated"] == JInt(r.tokensGenerated)
    ensures r.processingTime <= 0.0 ==> m["tokens_per_second"] == JInt(0)
    ensures r.processingTime > 0.0 ==> m["tokens_per_second"] == JReal(r.tokensPerSecond)
  {
    map["response" := JString(r.response),
        "processing_time" := JReal(r.processingTime),
        "tokens_generated" := JInt(r.tokensGenerated),
        "tokens_per_second" := if r.processingTime > 0.0 then JReal(r.tokensPerSecond) else JInt(0),
        "model_type" := JString(r.modelType)]
  }

  /** Tokens per second, guarded against a duration that is not positive. */
  function Throughput(tokens: nat, elapsed: real): (tps: real)
    ensures elapsed <= 0.0 ==> tps == 0.0
    ensures elapsed > 0.0 ==> tps * elapsed == tokens as real
    ensures tps >= 0.0
  {
    if elapsed > 0.0 then tokens as real / elapsed else 0.0
  }

  /** The metrics computed from the generated text and the elapsed time:
      the token count is the number of words of the response, zero exactly
      for a blank one; the rate is zero unless time has passed and is then
      tokens over time; the text, the time and the requested variant are
      echoed. */
  function Metrics(response: string, t: string, elapsed: real): (r: InferenceResult)
    ensures r.tokensGenerated == |Split(response)|
    ensures r.tokensGenerated == 0 <==> AllSpace(response)
    ensures elapsed <= 0.0 ==> r.tokensPerSecond == 0.0
    ensures elapsed > 0.0 ==> r.tokensPerSecond == |Split(response)| as real / elapsed
    ensures r.response == response && r.processingTime == elapsed && r.modelType == t
  {
    var count := WordCount(response);
    InferenceResult(response, elapsed, count, Throughput(count, elapsed), t)
  }

  datatype Generation = Generation(models: Models, result: Result<InferenceResult, PyError>)

  /** `generate_response(payload, t, maxTokens)`: the new cache and the
      result or the exception raised. On success the dictionary the
      source returns is `InferenceResultJson` of the result. */
  function Generate(models: Models, t: string, payload: string, maxTokens: int,
                    disk: Disk, complete: Completion, elapsed: real): (g: Generation)
    // a cached handle is reused and nothing is reloaded
    ensures Loaded(models, t) ==> g.models == models
    // a load is attempted exactly when the entry is missing or empty
    ensures !Loaded(models, t) ==> g.models == Load(models, t, disk).models
    ensures t !in g.models ==> g.result == Err(KeyError(t))
    ensures t in g.models && g.models[t].None? ==>
      g.result == Err(RuntimeError("Model '" + t + "' is not loaded."))
    // with a handle, the completion runs on that handle, and its failure
    // propagates unchanged
    ensures Loaded(g.models, t) ==>
      match complete(g.models[t].value, payload, maxTokens)
      case Ok(text) => g.result == Ok(Metrics(text, t, elapsed))
      case Err(e) => g.result == Err(e)
  {
    var m := if Loaded(models, t) then models else Load(models, t, disk).models;
    if t !in m then Generation(m, Err(KeyError(t)))
    else match m[t]
      case None => Generation(m, Err(RuntimeError("Model '" + t + "' is not loaded.")))
      case Some(h) =>
        match complete(h, payload, maxTokens)
        case Err(e) => Generation(m, Err(e))
        case Ok(text) => Generation(m, Ok(Metrics(text, t, elapsed)))
  }

  // ---------------------------------------------------------------------
  // get_model_info

  const InfoErrorPrefix: string := "Error during model info retrieval: "

  /** The `data` of a successful describe. */
  function InfoData(t: string, h: Handle): (d: Json)
    ensures d.JObject? && d.fields.Keys == {"model_path", "threads", "model_type"}
    ensures d.fields["threads"] == JInt(h.threads) && d.fields["model_type"] == JString(t)
    ensures t in Variants ==> d.fields["model_path"] == JString(VariantPath(t).value)
  {
    JObject(map["model_path" := JString(if t == "4bit" then Model4BitPath else Model8BitPath),
                "threads" := JInt(h.threads),
                "model_type" := JString(t)])
  }

  datatype InfoResult = InfoResult(models: Models, envelope: ResponseCommon)

  /** `get_model_info(t)`: the new cache and the envelope it returns. */
  function Info(models: Models, t: string, disk: Disk): (r: InfoResult)
    ensures r.envelope.success <==> r.envelope.code == 200
    ensures r.envelope.code in {200, 404, 500}
    // already loaded: `message` is never bound, so the handler answers 500
    ensures Loaded(models, t) ==>
      r.models == models
      && r.envelope == ResponseCommon(500, false, InfoErrorPrefix + Str(UnboundLocalError("message")), JArray([]))
    ensures !Loaded(models, t) ==> r.models == Load(models, t, disk).models
    // an unknown variant fails on the dictionary lookup
    ensures !Loaded(models, t) && t !in r.models ==>
      r.envelope == ResponseCommon(500, false, InfoErrorPrefix + Str(KeyError(t)), JArray([]))
    // the load left the entry empty: 404 with the load's own message
    ensures !Loaded(models, t) && t in r.models && r.models[t].None? ==>
      r.envelope == ResponseCommon(404, false, Load(models, t, disk).status, JObject(map[]))
    // loaded by this call: 200, the path it was loaded from and its threads
    ensures !Loaded(models, t) && Loaded(r.models, t) ==>
      && t in Variants
      && r.envelope.code == 200
      && r.envelope.message == "Model " + t + " loaded successfully"
      && r.envelope.data == InfoData(t, r.models[t].value)
      && r.envelope.data.fields["model_path"] == JString(VariantPath(t).value)
      && r.envelope.data.fields["threads"] == JInt(DefaultThreads)
  {
    if Loaded(models, t) then
      InfoResult(models, ResponseCommon(500, false, InfoErrorPrefix + Str(UnboundLocalError("message")), JArray([])))
    else
      var load := Load(models, t, disk);
      if t !in load.models then
        InfoResult(load.models, ResponseCommon(500, false, InfoErrorPrefix + Str(KeyError(t)), JArray([])))
      else match load.models[t]
        case None => InfoResult(load.models, ResponseCommon(404, false, load.status, JObject(map[])))
        case Some(h) => InfoResult(load.models, ResponseCommon(200, true, load.status, InfoData(t, h)))
  }

  // ---------------------------------------------------------------------
  // Properties across calls

  /** A load never adds or removes a key of a cache that holds exactly the
      known variants. */
  lemma LoadKeepsVariantKeys(models: Models, t: string, disk: Disk)
    requires models.Keys == Variants
    ensures Load(models, t, disk).models.Keys == Variants
  {
  }

  /** Once a request has succeeded, later requests for the same variant use
      the very handle it used, never reload, and do not look at the disk. */
  lemma {:induction false} GenerateReusesHandle(
    models: Models, t: string, disk: Disk, disk': Disk,
    p1: string, n1: int, c1: Completion, e1: real,
    p2: string, n2: int, c2: Completion, e2: real)
    requires Generate(models, t, p1, n1, disk, c1, e1).result.Ok?
    ensures var m := Generate(models, t, p1, n1, disk, c1, e1).models;
      && Loaded(m, t)
      && c1(m[t].value, p1, n1).Ok?
      && Generate(m, t, p2, n2, disk', c2, e2).models == m
      && Generate(m, t, p2, n2, disk', c2, e2) == Generate(m, t, p2, n2, disk, c2, e2)
      && (Generate(m, t, p2, n2, disk', c2, e2).result.Ok? <==> c2(m[t].value, p2, n2).Ok?)
  {
    var m := Generate(models, t, p1, n1, disk, c1, e1).models;
    assert Loaded(m, t);
  }

  /** An unknown variant is rejected with `KeyError` whatever the disk
      holds, and the cache does not change; describing it answers 500. */
  lemma UnknownVariantTouchesNothing(
    models: Models, t: string, disk: Disk, disk': Disk,
    payload: string, maxTokens: int, complete: Completion, elapsed: real)
    requires models.Keys == Variants && t !in Variants
    ensures Generate(models, t, payload, maxTokens, disk, complete, elapsed)
         == Generation(models, Err(KeyError(t)))
    ensures Generate(models, t, payload, maxTokens, disk, complete, elapsed)
         == Generate(models, t, payload, maxTokens, disk', complete, elapsed)
    ensures Info(models, t, disk).models == models
    ensures Info(models, t, disk).envelope.code == 500
    ensures Info(models, t, disk) == Info(models, t, disk')
  {
  }

  /** A failed load leaves no trace: once the file is there and the
      constructor succeeds, the next request loads the variant. */
  lemma RetryAfterFailure(models: Models, t: string, failed: Disk, fixed: Disk, id: nat)
    requires t in Variants && !Loaded(models, t)
    requires !failed.fileExists(VariantPath(t).value)
      || failed.construct(VariantPath(t).value).ConstructRaised?
    requires fixed.fileExists(VariantPath(t).value)
    requires fixed.construct(VariantPath(t).value) == Built(id)
    ensures !Loaded(Load(models, t, failed).models, t)
    ensures Load(Load(models, t, failed).models, t, fixed).models[t] == Some(Open(id))
    ensures Load(Load(models, t, failed).models, t, fixed).status == "Model " + t + " loaded successfully"
  {
  }

  /** As written, describing a variant twice answers 200 and then 500: on
      the second call the handle is cached, so `message` is never bound. */
  lemma InfoTwiceAnswers500(models: Models, t: string, disk: Disk, disk': Disk)
    requires Info(models, t, disk).envelope.code == 200
    ensures Info(Info(models, t, disk).models, t, disk').envelope.code == 500
    ensures !Info(Info(models, t, disk).models, t, disk').envelope.success
  {
  }

  /** Describe as evidently intended: a cached handle is reported with 200
      and the same message as when it was loaded. */
  function InfoIntended(models: Models, t: string, disk: Disk): (r: InfoResult)
    ensures r.envelope.success <==> r.envelope.code == 200
    ensures Loaded(models, t) ==>
      r.models == models
      && r.envelope == ResponseCommon(200, true, "Model " + t + " loaded successfully", InfoData(t, models[t].value))
    ensures !Loaded(models, t) ==> r == Info(models, t, disk)
  {
    if Loaded(models, t) then
      InfoResult(models, ResponseCommon(200, true, "Model " + t + " loaded successfully", InfoData(t, models[t].value)))
    else
      Info(models, t, disk)
  }

  /** With the correction, describing a variant is idempotent: a second call
      changes nothing and gives the same envelope as the first. */
  lemma InfoIntendedIdempotent(models: Models, t: string, disk: Disk, disk': Disk)
    requires InfoIntended(models, t, disk).envelope.code == 200
    ensures var first := InfoIntended(models, t, disk);
      InfoIntended(first.models, t, disk') == first
  {
    var first := InfoIntended(models, t, disk);
    if !Loaded(models, t) {
      assert Loaded(first.models, t);
    }
  }

  // ---------------------------------------------------------------------
  // The service object

  class ModelService {
    /** `self.models`: variant name to its handle, or None when not loaded. */
    var models: Models

    /** Only the two known variants are ever keys of the cache, and every
        cached handle was built with the fixed execution profile. */
    ghost predicate Valid()
      reads this
    {
      models.Keys == Variants && Profiled(models)
    }

    constructor ()
      ensures Valid()
      ensures models == map["4bit" := None, "8bit" := None]
    {
      models := map["4bit" := None, "8bit" := None];
    }

    method LoadModel(t: string, disk: Disk) returns (status: string)
      requires Valid()
      modifies this
      ensures Valid()
      ensures LoadResult(models, status) == Load(old(models), t, disk)
    {
      var path: string;
      if t == "4bit" {
        path := Model4BitPath;
      } else if t == "8bit" {
        path := Model8BitPath;
      } else {
        return "Unsupported model type: " + t;
      }
      if !disk.fileExists(path) {
        return "Model file not found at path: " + path;
      }
      var built := disk.construct(path);
      if built.ConstructRaised? {
        return "Error loading model: " + built.reason;
      }
      models := models[t := if built.Built? then Some(Open(built.id)) else None];
      if models[t].Some? {
        status := "Model " + t + " loaded successfully";
      } else {
        status := "Failed to load model of type: " + t;
      }
    }

    method GenerateResponse(payload: string, t: string, maxTokens: int,
                            disk: Disk, complete: Completion, elapsed: real)
      returns (r: Result<InferenceResult, PyError>)
      requires Valid()
      modifies this
      ensures Valid()
      ensures Generation(models, r) == Generate(old(models), t, payload, maxTokens, disk, complete, elapsed)
    {
      if t !in models || models[t].None? {
        var _ := LoadModel(t, disk);
      }
      if t !in models {
        return Err(KeyError(t));
      }
      var model := models[t];
      if model.None? {
        return Err(RuntimeError("Model '" + t + "' is not loaded."));
      }
      var output := complete(model.value, payload, maxTokens);
      if output.Err? {
        return Err(output.error);
      }
      var response := output.value;
      var tokenCount := WordCount(response);
      r := Ok(InferenceResult(response, elapsed, tokenCount, Throughput(tokenCount, elapsed), t));
    }

    method GetModelInfo(t: string, disk: Disk) returns (envelope: ResponseCommon)
      requires Valid()
      modifies this
      ensures Valid()
      ensures InfoResult(models, envelope) == Info(old(models), t, disk)
    {
      var message: Option<string> := None;  // None: the local is unbound
      if t !in models || models[t].None? {
        var status := LoadModel(t, disk);
        message := Some(status);
      }
      if t !in models {
        return ResponseCommon(500, false, InfoErrorPrefix + Str(KeyError(t)), JArray([]));
      }
      var model := models[t];
      if model.None? {
        return ResponseCommon(404, false, message.value, JObject(map[]));
      }
      var data := InfoData(t, model.value);
      if message.None? {
        return ResponseCommon(500, false, InfoErrorPrefix + Str(UnboundLocalError("message")), JArray([]));
      }
      envelope := ResponseCommon(200, true, message.value, data);
    }
  }
}
