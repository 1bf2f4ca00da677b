/**
 * The hosted-API compressor client: read-only configuration, dispatch on
 * the shape of (context, prompt), the request it builds for one pair, the
 * normalisation of the loosely shaped reply, and the order-preserving batch.
 *
 * The HTTP POST (including the status check and the JSON decoding of the
 * body) is the function parameter `post`: it maps the request to either a
 * decoded JSON body or the description of a transport failure.
 */
module Compressor {
  import opened Errors
  import opened Json
  import opened Metrics
  import opened Prompt

  const MISSING_KEY_MESSAGE := "API key not found. Use scaledown.set_api_key() or pass api_key to constructor."
  const LENGTH_MISMATCH_MESSAGE := "Context list and prompt list must have the same length."
  const INVALID_COMBINATION_MESSAGE := "Invalid combination of context and prompt types."
  const CONNECTION_FAILED_PREFIX := "Connection failed: "
  const COMPRESS_PATH := "/compress/raw"
  const OPTION_KEYS := {"rate", "temperature", "preserve_keywords", "preserve_words", "max_tokens"}

  /**
   * The configuration fixed at construction. `apiKey` is the resolved key
   * (None when neither the argument nor the process-wide key was set);
   * `rate` and `temperature` are whatever values the caller gave, as they
   * appear in the request.
   */
  datatype Config = Config(
    apiUrl: string,
    apiKey: Option<string>,
    rate: Json,
    targetModel: string,
    temperature: Json,
    preserveKeywords: bool,
    preserveWords: seq<string>)

  /** Python truthiness of an optional string. */
  predicate Truthy(s: Option<string>) {
    s.Some? && s.value != ""
  }

  /** The key check made at call time: a missing or empty key fails it. */
  predicate HasKey(cfg: Config) {
    Truthy(cfg.apiKey)
  }

  /**
   * The constructor. The explicit key wins when it is truthy, otherwise the
   * process-wide key (`storedKey`) is taken, whatever it is; no key check is
   * made here. A missing word list becomes the empty list. `apiUrl` is the
   * base URL resolved from the environment.
   */
  function NewConfig(
    apiUrl: string,
    storedKey: Option<string>,
    targetModel: string := "gpt-4o",
    rate: Json := JStr("auto"),
    apiKey: Option<string> := None,
    temperature: Json := JNull,
    preserveKeywords: bool := false,
    preserveWords: Option<seq<string>> := None): (cfg: Config)
    ensures Truthy(apiKey) ==> cfg.apiKey == apiKey
    ensures !Truthy(apiKey) ==> cfg.apiKey == storedKey
    ensures HasKey(cfg) <==> Truthy(apiKey) || Truthy(storedKey)
    ensures cfg.preserveWords == if preserveWords.Some? then preserveWords.value else []
    ensures cfg.apiUrl == apiUrl && cfg.targetModel == targetModel && cfg.rate == rate
    ensures cfg.temperature == temperature && cfg.preserveKeywords == preserveKeywords
  {
    Config(apiUrl,
           if Truthy(apiKey) then apiKey else storedKey,
           rate, targetModel, temperature, preserveKeywords,
           if preserveWords.Some? && preserveWords.value != [] then preserveWords.value else [])
  }

  /** A `context` or `prompt` argument: a str, a list, or any other Python value. */
  datatype Arg = Str(s: string) | List(items: seq<Json>) | Other

  /** One (context, prompt) pair of a batch; list items may be any JSON value. */
  datatype Pair = Pair(context: Json, prompt: Json)

  /** The call shapes the arguments resolve to. */
  datatype Shape = One(context: string, prompt: string) | Many(pairs: seq<Pair>)

  datatype Output = Single(result: CompressedPrompt) | Batch(results: seq<CompressedPrompt>)

  datatype Request = Request(url: string, headers: map<string, string>, body: map<string, Json>)

  /** What the HTTP POST gives back: the decoded body, or a transport failure. */
  datatype Reply = Received(data: Json) | Failed(reason: string)

  /** Python's `zip`: pairs up to the shorter of the two lists. */
  function Zip(xs: seq<Json>, ys: seq<Json>): (ps: seq<Pair>)
    ensures |ps| == if |xs| <= |ys| then |xs| else |ys|
    ensures forall i :: 0 <= i < |ps| ==> ps[i] == Pair(xs[i], ys[i])
  {
    if xs == [] || ys == [] then [] else [Pair(xs[0], ys[0])] + Zip(xs[1..], ys[1..])
  }

  /** `[x] * n` */
  function Repeat(x: Json, n: nat): (r: seq<Json>)
    ensures |r| == n
    ensures forall i :: 0 <= i < n ==> r[i] == x
  {
    if n == 0 then [] else [x] + Repeat(x, n - 1)
  }

  /**
   * The dispatch of compress: a str pair is one call; two lists must have
   * equal lengths and are zipped; a list with a str broadcasts the str to
   * every context; everything else is a ValueError.
   */
  function Dispatch(context: Arg, prompt: Arg): (r: Result<Shape, Error>)
    ensures r.Ok? && r.value.One? <==> context.Str? && prompt.Str?
    ensures r.Ok? && r.value.One? ==> r.value == One(context.s, prompt.s)
    ensures r.Ok? <==> || (context.Str? && prompt.Str?)
                       || (context.List? && prompt.List? && |context.items| == |prompt.items|)
                       || (context.List? && prompt.Str?)
    ensures context.List? && prompt.List? && |context.items| != |prompt.items| ==>
              r == Err(ValueError(LENGTH_MISMATCH_MESSAGE))
    ensures r.Err? && !(context.List? && prompt.List?) ==> r == Err(ValueError(INVALID_COMBINATION_MESSAGE))
    ensures r.Ok? && r.value.Many? ==>
              && context.List?
              && |r.value.pairs| == |context.items|
              && forall i :: 0 <= i < |r.value.pairs| ==>
                   && r.value.pairs[i].context == context.items[i]
                   && r.value.pairs[i].prompt == (if prompt.Str? then JStr(prompt.s) else prompt.items[i])
  {
    match (context, prompt)
    case (Str(c), Str(p)) => Ok(One(c, p))
    case (List(cs), List(ps)) =>
      if |cs| != |ps| then Err(ValueError(LENGTH_MISMATCH_MESSAGE)) else Ok(Many(Zip(cs, ps)))
    case (List(cs), Str(p)) => Ok(Many(Zip(cs, Repeat(JStr(p), |cs|))))
    case _ => Err(ValueError(INVALID_COMBINATION_MESSAGE))
  }

  /**
   * The keyword arguments Python can collect into `**kwargs` of compress:
   * the named parameters bind the other names.
   */
  predicate KeywordArgs(extra: map<string, Json>) {
    "self" !in extra && "context" !in extra && "prompt" !in extra && "max_tokens" !in extra
  }

  /**
   * Whether an extra keyword collides with a positional parameter of
   * _compress_batch, to which compress passes the two lists positionally.
   */
  predicate BindsBatchParameter(extra: map<string, Json>) {
    "context_list" in extra || "prompt_list" in extra
  }

  /** Python's TypeError for a keyword that names an already bound parameter of _compress_batch. */
  function MultipleValuesMessage(extra: map<string, Json>): string {
    "ScaleDownCompressor._compress_batch() got multiple values for argument '"
    + (if "context_list" in extra then "context_list" else "prompt_list") + "'"
  }

  function OptionalInt(n: Option<int>): Json {
    if n.Some? then JInt(n.value) else JNull
  }

  function Strings(ws: seq<string>): (r: seq<Json>)
    ensures |r| == |ws|
    ensures forall i :: 0 <= i < |ws| ==> r[i] == JStr(ws[i])
  {
    seq(|ws|, i requires 0 <= i < |ws| => JStr(ws[i]))
  }

  /** The nested "scaledown" options: the configured ones, then the caller's extras, which win. */
  function Options(cfg: Config, maxTokens: Option<int>, extra: map<string, Json>): (o: map<string, Json>)
    ensures o.Keys == OPTION_KEYS + extra.Keys
    ensures forall k :: k in extra ==> o[k] == extra[k]
    ensures "rate" !in extra ==> o["rate"] == cfg.rate
    ensures "temperature" !in extra ==> o["temperature"] == cfg.temperature
    ensures "preserve_keywords" !in extra ==> o["preserve_keywords"] == JBool(cfg.preserveKeywords)
    ensures "preserve_words" !in extra ==> o["preserve_words"] == JArr(Strings(cfg.preserveWords))
    ensures "max_tokens" !in extra ==> o["max_tokens"] == OptionalInt(maxTokens)
  {
    map["rate" := cfg.rate,
        "temperature" := cfg.temperature,
        "preserve_keywords" := JBool(cfg.preserveKeywords),
        "preserve_words" := JArr(Strings(cfg.preserveWords)),
        "max_tokens" := OptionalInt(maxTokens)] + extra
  }

  /** The request one pair sends: POST to the /compress/raw endpoint, keyed by the configured API key. */
  function BuildRequest(cfg: Config, context: Json, prompt: Json, maxTokens: Option<int>, extra: map<string, Json>): (req: Request)
    requires HasKey(cfg)
    ensures req.url == cfg.apiUrl + COMPRESS_PATH
    ensures req.headers.Keys == {"x-api-key", "Content-Type"}
    ensures req.headers["x-api-key"] == cfg.apiKey.value
    ensures req.headers["Content-Type"] == "application/json"
    ensures req.body.Keys == {"context", "prompt", "model", "scaledown"}
    ensures req.body["context"] == context && req.body["prompt"] == prompt
    ensures req.body["model"] == JStr(cfg.targetModel)
    ensures req.body["scaledown"] == JObj(Options(cfg, maxTokens, extra))
  {
    Request(cfg.apiUrl + COMPRESS_PATH,
            map["x-api-key" := cfg.apiKey.value, "Content-Type" := "application/json"],
            map["context" := context,
                "prompt" := prompt,
                "model" := JStr(cfg.targetModel),
                "scaledown" := JObj(Options(cfg, maxTokens, extra))])
  }

  /** Where a counter is read from: the top-level key, then the key under "results", then 0. */
  function Pick(top: map<string, Json>, results: map<string, Json>, topKey: string, nestedKey: string): Json {
    if topKey in top then top[topKey]
    else if nestedKey in results then results[nestedKey]
    else JInt(0)
  }

  /** The reply's parts the client reads: content plus the metrics dictionary it prepares. */
  datatype Prepared = Prepared(content: Json, metrics: map<string, Json>)

  /**
   * The extraction of content and metrics from a decoded body. `.get` is
   * called on the body, on its "results" value and on its
   * "request_metadata" value, so each of them that is not a dict raises
   * AttributeError, in that order. The timestamp is read only from the
   * top-level "request_metadata".
   */
  function Prepare(data: Json): (r: Result<Prepared, Error>)
    ensures r.Ok? <==> && data.JObj?
                       && ("results" in data.fields ==> data.fields["results"].JObj?)
                       && ("request_metadata" in data.fields ==> data.fields["request_metadata"].JObj?)
    ensures r.Err? ==> r.error.AttributeError?
    ensures r.Ok? ==>
              var top := data.fields;
              var results := if "results" in top then top["results"].fields else map[];
              var m := r.value.metrics;
              && r.value.content == Get(results, "compressed_prompt", JStr(""))
              && m.Keys == {ORIGINAL_KEY, COMPRESSED_KEY, LATENCY_KEY, "model_used", TIMESTAMP_KEY}
              && m[ORIGINAL_KEY] == Pick(top, results, "total_original_tokens", ORIGINAL_KEY)
              && m[COMPRESSED_KEY] == Pick(top, results, "total_compressed_tokens", COMPRESSED_KEY)
              && m[LATENCY_KEY] == Get(top, LATENCY_KEY, JInt(0))
              && m["model_used"] == Get(top, "model_used", JNull)
              && m[TIMESTAMP_KEY] == (if "request_metadata" in top
                                      then Get(top["request_metadata"].fields, TIMESTAMP_KEY, JNull)
                                      else JNull)
  {
    var top :- AsDict(data);
    var results :- AsDict(Get(top, "results", JObj(map[])));
    var content := Get(results, "compressed_prompt", JStr(""));
    var meta :- AsDict(Get(top, "request_metadata", JObj(map[])));
    Ok(Prepared(content,
                map[ORIGINAL_KEY := Get(top, "total_original_tokens", Get(results, ORIGINAL_KEY, JInt(0))),
                    COMPRESSED_KEY := Get(top, "total_compressed_tokens", Get(results, COMPRESSED_KEY, JInt(0))),
                    LATENCY_KEY := Get(top, LATENCY_KEY, JInt(0)),
                    "model_used" := Get(top, "model_used", JNull),
                    TIMESTAMP_KEY := Get(meta, TIMESTAMP_KEY, JNull)]))
  }

  /**
   * The normalisation of a decoded body into a CompressedPrompt. It fails
   * with AttributeError on a body of the wrong shape and with pydantic's
   * ValidationError when a chosen counter is not a non-negative integer or
   * the content is not a string; otherwise the content and the counters are
   * the ones the priority rule picks.
   */
  function Normalize(data: Json): (r: Result<CompressedPrompt, Error>)
    ensures Prepare(data).Err? ==> r.Err? && r.error.AttributeError?
    ensures Prepare(data).Ok? ==>
              var p := Prepare(data).value;
              r.Ok? <==> ValidCounters(p.metrics) && p.content.JStr?
    ensures Prepare(data).Ok? && r.Err? ==> r.error.ValidationError?
    ensures r.Ok? ==>
              var p := Prepare(data).value;
              && JStr(r.value.content) == p.content
              && JInt(r.value.metrics.originalPromptTokens) == p.metrics[ORIGINAL_KEY]
              && JInt(r.value.metrics.compressedPromptTokens) == p.metrics[COMPRESSED_KEY]
              && JInt(r.value.metrics.latencyMs) == p.metrics[LATENCY_KEY]
              && r.value.metrics.timestamp == TimestampArg(p.metrics)
  {
    var p :- Prepare(data);
    assert MetricsSource(p.metrics) == p.metrics;
    FromApiResponse(p.content, p.metrics)
  }

  /**
   * _compress_single: the key check comes first and raises
   * AuthenticationError before anything is built or sent; a transport
   * failure becomes APIError carrying its description; any other failure
   * (of shape or of validation) reaches the caller as it is.
   */
  function CompressSingle(cfg: Config, post: Request -> Reply, context: Json, prompt: Json,
                          maxTokens: Option<int>, extra: map<string, Json>): (r: Result<CompressedPrompt, Error>)
    ensures !HasKey(cfg) ==> r == Err(AuthenticationError(MISSING_KEY_MESSAGE))
    ensures HasKey(cfg) ==>
              match post(BuildRequest(cfg, context, prompt, maxTokens, extra))
              case Failed(reason) => r == Err(APIError(CONNECTION_FAILED_PREFIX + reason))
              case Received(data) => r == Normalize(data)
  {
    if !HasKey(cfg) then Err(AuthenticationError(MISSING_KEY_MESSAGE))
    else
      match post(BuildRequest(cfg, context, prompt, maxTokens, extra))
      case Failed(reason) => Err(APIError(CONNECTION_FAILED_PREFIX + reason))
      case Received(data) => Normalize(data)
  }

  /**
   * `list(...)` over the ordered results of the worker pool: every value in
   * input order, or, when calls fail, the error of the first failing one by
   * position, which is the one the ordered result iterator re-raises.
   */
  function Collect<T>(outcomes: seq<Result<T, Error>>): (r: Result<seq<T>, Error>)
    ensures r.Ok? ==> |r.value| == |outcomes| && forall i :: 0 <= i < |outcomes| ==> outcomes[i] == Ok(r.value[i])
    ensures r.Err? ==> exists i :: && 0 <= i < |outcomes|
                                   && outcomes[i] == Err(r.error)
                                   && forall j :: 0 <= j < i ==> outcomes[j].Ok?
  {
    if outcomes == [] then Ok([])
    else if outcomes[0].Err? then Err(outcomes[0].error)
    else
      var rest := Collect(outcomes[1..]);
      if rest.Err? then
        ghost var i :| && 0 <= i < |outcomes[1..]|
                       && outcomes[1..][i] == Err(rest.error)
                       && forall j :: 0 <= j < i ==> outcomes[1..][j].Ok?;
        assert outcomes[i + 1] == Err(rest.error);
        assert forall j :: 1 <= j < i + 1 ==> outcomes[j] == outcomes[1..][j - 1];
        Err(rest.error)
      else
        Ok([outcomes[0].value] + rest.value)
  }

  /** The outcome of the single call for each pair, in input position. */
  function Outcomes(cfg: Config, post: Request -> Reply, pairs: seq<Pair>,
                    maxTokens: Option<int>, extra: map<string, Json>): (rs: seq<Result<CompressedPrompt, Error>>)
    ensures |rs| == |pairs|
  {
    seq(|pairs|, i requires 0 <= i < |pairs| => CompressSingle(cfg, post, pairs[i].context, pairs[i].prompt, maxTokens, extra))
  }

  /**
   * _compress_batch: one single call per pair (the executor's map), collected
   * in input order. It succeeds exactly when every pair's call does, with
   * result i the result of pair i; otherwise it raises the error of the
   * first failing pair.
   */
  function CompressBatch(cfg: Config, post: Request -> Reply, pairs: seq<Pair>,
                         maxTokens: Option<int>, extra: map<string, Json>): (r: Result<seq<CompressedPrompt>, Error>)
    ensures r.Ok? <==> forall i :: 0 <= i < |pairs| ==> CompressSingle(cfg, post, pairs[i].context, pairs[i].prompt, maxTokens, extra).Ok?
    ensures r.Ok? ==> && |r.value| == |pairs|
                      && forall i :: 0 <= i < |pairs| ==>
                           CompressSingle(cfg, post, pairs[i].context, pairs[i].prompt, maxTokens, extra) == Ok(r.value[i])
    ensures r.Err? ==> exists i :: && 0 <= i < |pairs|
                                   && CompressSingle(cfg, post, pairs[i].context, pairs[i].prompt, maxTokens, extra) == Err(r.error)
                                   && forall j :: 0 <= j < i ==> CompressSingle(cfg, post, pairs[j].context, pairs[j].prompt, maxTokens, extra).Ok?
  {
    var outcomes := Outcomes(cfg, post, pairs, maxTokens, extra);
    assert forall i :: 0 <= i < |pairs| ==> outcomes[i] == CompressSingle(cfg, post, pairs[i].context, pairs[i].prompt, maxTokens, extra);
    Collect(outcomes)
  }

  /**
   * compress: dispatch on the argument shapes, then one single call or a
   * batch. The batch call passes both lists positionally, so an extra
   * keyword named after one of _compress_batch's list parameters raises
   * TypeError before any pair is compressed.
   */
  function Compress(cfg: Config, post: Request -> Reply, context: Arg, prompt: Arg,
                    maxTokens: Option<int>, extra: map<string, Json>): (r: Result<Output, Error>)
    requires KeywordArgs(extra)
    ensures Dispatch(context, prompt).Err? ==> r == Err(Dispatch(context, prompt).error)
    ensures Dispatch(context, prompt).Ok? && Dispatch(context, prompt).value.Many? && BindsBatchParameter(extra) ==>
              r == Err(TypeError(MultipleValuesMessage(extra)))
    ensures r.Ok? ==> (r.value.Single? <==> context.Str? && prompt.Str?)
    ensures r.Ok? && r.value.Batch? ==> context.List? && |r.value.results| == |context.items| && !BindsBatchParameter(extra)
  {
    var shape :- Dispatch(context, prompt);
    match shape
    case One(c, p) =>
      var single :- CompressSingle(cfg, post, JStr(c), JStr(p), maxTokens, extra);
      Ok(Single(single))
    case Many(pairs) =>
      if BindsBatchParameter(extra) then Err(TypeError(MultipleValuesMessage(extra)))
      else
        var batch :- CompressBatch(cfg, post, pairs, maxTokens, extra);
        Ok(Batch(batch))
  }

  /**
   * The requests a compress call may send, one per pair in input position
   * (the order in which they reach the server is not modelled). Nothing is
   * sent without a key, on a dispatch error, or when the batch call itself
   * raises TypeError.
   */
  function Issued(cfg: Config, context: Arg, prompt: Arg, maxTokens: Option<int>, extra: map<string, Json>): (reqs: seq<Request>)
    ensures !HasKey(cfg) ==> reqs == []
    ensures Dispatch(context, prompt).Err? ==> reqs == []
    ensures Dispatch(context, prompt).Ok? && Dispatch(context, prompt).value.Many? && BindsBatchParameter(extra) ==> reqs == []
  {
    if !HasKey(cfg) then []
    else
      match Dispatch(context, prompt)
      case Err(_) => []
      case Ok(One(c, p)) => [BuildRequest(cfg, JStr(c), JStr(p), maxTokens, extra)]
      case Ok(Many(pairs)) =>
        if BindsBatchParameter(extra) then []
        else seq(|pairs|, i requires 0 <= i < |pairs| => BuildRequest(cfg, pairs[i].context, pairs[i].prompt, maxTokens, extra))
  }
}
