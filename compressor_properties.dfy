/**
 * What the compressor client promises its callers, stated over the model in
 * module Compressor: the dispatch cases, which requests are sent, the order
 * of batch results, the key check, error wrapping, the priority rule of the
 * response normalisation, and the two scenarios of the client's unit tests.
 */
module CompressorProperties {
  import opened Errors
  import opened Json
  import opened Metrics
  import opened Prompt
  import opened Compressor

  /** A str context with a str prompt is one single call whose result is returned unwrapped. */
  lemma StringPairIsOneCall(cfg: Config, post: Request -> Reply, c: string, p: string,
                            maxTokens: Option<int>, extra: map<string, Json>)
    requires KeywordArgs(extra)
    ensures var single := CompressSingle(cfg, post, JStr(c), JStr(p), maxTokens, extra);
            Compress(cfg, post, Str(c), Str(p), maxTokens, extra)
            == if single.Ok? then Ok(Single(single.value)) else Err(single.error)
    ensures HasKey(cfg) ==> Issued(cfg, Str(c), Str(p), maxTokens, extra) == [BuildRequest(cfg, JStr(c), JStr(p), maxTokens, extra)]
  {
  }

  /** Two lists of different lengths raise ValueError and no request is sent. */
  lemma UnequalListsRaise(cfg: Config, post: Request -> Reply, cs: seq<Json>, ps: seq<Json>,
                          maxTokens: Option<int>, extra: map<string, Json>)
    requires KeywordArgs(extra)
    requires |cs| != |ps|
    ensures Compress(cfg, post, List(cs), List(ps), maxTokens, extra) == Err(ValueError(LENGTH_MISMATCH_MESSAGE))
    ensures Issued(cfg, List(cs), List(ps), maxTokens, extra) == []
  {
  }

  /**
   * A list of contexts with a str prompt sends one request per context, each
   * with that context and the same prompt, and returns one result per
   * context; an extra keyword named context_list or prompt_list instead
   * raises TypeError and sends nothing.
   */
  lemma BroadcastPrompt(cfg: Config, post: Request -> Reply, cs: seq<Json>, p: string,
                        maxTokens: Option<int>, extra: map<string, Json>)
    requires KeywordArgs(extra)
    ensures BindsBatchParameter(extra) ==>
              && Compress(cfg, post, List(cs), Str(p), maxTokens, extra) == Err(TypeError(MultipleValuesMessage(extra)))
              && Issued(cfg, List(cs), Str(p), maxTokens, extra) == []
    ensures var reqs := Issued(cfg, List(cs), Str(p), maxTokens, extra);
            HasKey(cfg) && !BindsBatchParameter(extra) ==>
              && |reqs| == |cs|
              && forall i :: 0 <= i < |cs| ==>
                   reqs[i].body["context"] == cs[i] && reqs[i].body["prompt"] == JStr(p)
    ensures var r := Compress(cfg, post, List(cs), Str(p), maxTokens, extra);
            r.Ok? ==> && r.value.Batch? && |r.value.results| == |cs|
                      && forall i :: 0 <= i < |cs| ==>
                           CompressSingle(cfg, post, cs[i], JStr(p), maxTokens, extra) == Ok(r.value.results[i])
  {
    var pairs := Dispatch(List(cs), Str(p)).value.pairs;
    assert forall i :: 0 <= i < |cs| ==> pairs[i] == Pair(cs[i], JStr(p));
    BatchPreservesOrder(cfg, post, List(cs), Str(p), maxTokens, extra);
  }

  /** Every combination other than (str, str), (list, list) and (list, str) raises ValueError, sending nothing. */
  lemma OtherCombinationsRaise(cfg: Config, post: Request -> Reply, context: Arg, prompt: Arg,
                               maxTokens: Option<int>, extra: map<string, Json>)
    requires KeywordArgs(extra)
    requires !(context.Str? && prompt.Str?) && !(context.List? && (prompt.List? || prompt.Str?))
    ensures Compress(cfg, post, context, prompt, maxTokens, extra) == Err(ValueError(INVALID_COMBINATION_MESSAGE))
    ensures Issued(cfg, context, prompt, maxTokens, extra) == []
  {
  }

  /**
   * A batch, over two equal-length lists or a list with a broadcast str,
   * succeeds exactly when every pair's single call does; its i-th result is
   * then pair i's result, and on failure the error raised is that of the
   * first failing pair. An extra keyword named context_list or prompt_list
   * makes the batch call itself raise TypeError.
   */
  lemma BatchPreservesOrder(cfg: Config, post: Request -> Reply, context: Arg, prompt: Arg,
                            maxTokens: Option<int>, extra: map<string, Json>)
    requires KeywordArgs(extra)
    requires context.List? && (prompt.Str? || (prompt.List? && |prompt.items| == |context.items|))
    ensures BindsBatchParameter(extra) ==>
              Compress(cfg, post, context, prompt, maxTokens, extra) == Err(TypeError(MultipleValuesMessage(extra)))
    ensures var pairs := Dispatch(context, prompt).value.pairs;
            var r := Compress(cfg, post, context, prompt, maxTokens, extra);
            !BindsBatchParameter(extra) ==>
              (r.Ok? <==> forall i :: 0 <= i < |pairs| ==> CompressSingle(cfg, post, pairs[i].context, pairs[i].prompt, maxTokens, extra).Ok?)
    ensures var pairs := Dispatch(context, prompt).value.pairs;
            var r := Compress(cfg, post, context, prompt, maxTokens, extra);
            r.Ok? ==> && r.value.Batch? && |r.value.results| == |pairs|
                      && forall i :: 0 <= i < |pairs| ==>
                           CompressSingle(cfg, post, pairs[i].context, pairs[i].prompt, maxTokens, extra) == Ok(r.value.results[i])
    ensures var pairs := Dispatch(context, prompt).value.pairs;
            var r := Compress(cfg, post, context, prompt, maxTokens, extra);
            r.Err? && !BindsBatchParameter(extra) ==>
              exists i :: && 0 <= i < |pairs|
                          && CompressSingle(cfg, post, pairs[i].context, pairs[i].prompt, maxTokens, extra) == Err(r.error)
                          && forall j :: 0 <= j < i ==> CompressSingle(cfg, post, pairs[j].context, pairs[j].prompt, maxTokens, extra).Ok?
  {
  }

  /**
   * With a key, a batch on either list path issues one request per pair, in
   * input position, each carrying that pair's context and prompt.
   */
  lemma BatchIssuesOnePerPair(cfg: Config, context: Arg, prompt: Arg,
                              maxTokens: Option<int>, extra: map<string, Json>)
    requires KeywordArgs(extra) && HasKey(cfg) && !BindsBatchParameter(extra)
    requires context.List? && (prompt.Str? || (prompt.List? && |prompt.items| == |context.items|))
    ensures var pairs := Dispatch(context, prompt).value.pairs;
            var reqs := Issued(cfg, context, prompt, maxTokens, extra);
            && |reqs| == |pairs|
            && forall i :: 0 <= i < |pairs| ==>
                 reqs[i].body["context"] == pairs[i].context && reqs[i].body["prompt"] == pairs[i].prompt
  {
  }

  /**
   * An empty list of contexts (with a str prompt or an empty prompt list)
   * gives an empty batch: no single call runs, so not even the key check
   * can fail. Only the TypeError of the batch call itself can still arise.
   */
  lemma EmptyBatchSkipsKeyCheck(cfg: Config, post: Request -> Reply, prompt: Arg,
                                maxTokens: Option<int>, extra: map<string, Json>)
    requires KeywordArgs(extra)
    requires prompt.Str? || prompt == List([])
    ensures Compress(cfg, post, List([]), prompt, maxTokens, extra)
            == if BindsBatchParameter(extra) then Err(TypeError(MultipleValuesMessage(extra))) else Ok(Batch([]))
    ensures Issued(cfg, List([]), prompt, maxTokens, extra) == []
  {
  }

  /**
   * Without a usable key, every call that reaches a single compression
   * raises AuthenticationError (unless the batch call raises TypeError
   * first) and no request is sent.
   */
  lemma MissingKeyRaises(cfg: Config, post: Request -> Reply, context: Arg, prompt: Arg,
                         maxTokens: Option<int>, extra: map<string, Json>)
    requires KeywordArgs(extra)
    requires !HasKey(cfg)
    requires (context.Str? && prompt.Str?) || (context.List? && |context.items| > 0 && (prompt.Str? || (prompt.List? && |prompt.items| == |context.items|)))
    ensures Compress(cfg, post, context, prompt, maxTokens, extra)
            == if context.List? && BindsBatchParameter(extra) then Err(TypeError(MultipleValuesMessage(extra)))
               else Err(AuthenticationError(MISSING_KEY_MESSAGE))
    ensures Issued(cfg, context, prompt, maxTokens, extra) == []
  {
  }

  /**
   * The key is resolved at construction and checked only at call time: a
   * client built with no key at all is built, and its first call raises
   * AuthenticationError without sending anything.
   */
  lemma KeyCheckedAtCallTime(apiUrl: string, post: Request -> Reply, c: string, p: string)
    ensures var cfg := NewConfig(apiUrl, None);
            && cfg.rate == JStr("auto") && cfg.targetModel == "gpt-4o"
            && Compress(cfg, post, Str(c), Str(p), None, map[]) == Err(AuthenticationError(MISSING_KEY_MESSAGE))
            && Issued(cfg, Str(c), Str(p), None, map[]) == []
  {
  }

  /**
   * Every option in the nested "scaledown" object keeps its configured value
   * unless the caller passes the same key, which then wins; `max_tokens` is
   * always the argument, since Python binds that name to the parameter.
   */
  lemma ExtraOptionsWin(cfg: Config, context: Json, prompt: Json, maxTokens: Option<int>,
                        extra: map<string, Json>, k: string)
    requires HasKey(cfg) && KeywordArgs(extra)
    ensures var options := BuildRequest(cfg, context, prompt, maxTokens, extra).body["scaledown"].fields;
            && (k in extra ==> k in options && options[k] == extra[k])
            && options["max_tokens"] == OptionalInt(maxTokens)
            && (k !in extra && k !in OPTION_KEYS ==> k !in options)
  {
  }

  /** When the single request of a str pair is answered with a body, compress returns its normalisation. */
  lemma SingleReceived(cfg: Config, post: Request -> Reply, c: string, p: string,
                       maxTokens: Option<int>, extra: map<string, Json>, data: Json)
    requires KeywordArgs(extra) && HasKey(cfg)
    requires post(BuildRequest(cfg, JStr(c), JStr(p), maxTokens, extra)) == Received(data)
    ensures var n := Normalize(data);
            Compress(cfg, post, Str(c), Str(p), maxTokens, extra) == if n.Ok? then Ok(Single(n.value)) else Err(n.error)
  {
  }

  /** A transport failure becomes an APIError (a ScaleDownError) carrying its description. */
  lemma TransportFailureBecomesAPIError(cfg: Config, post: Request -> Reply, c: string, p: string,
                                        maxTokens: Option<int>, extra: map<string, Json>)
    requires KeywordArgs(extra) && HasKey(cfg)
    requires post(BuildRequest(cfg, JStr(c), JStr(p), maxTokens, extra)).Failed?
    ensures var reason := post(BuildRequest(cfg, JStr(c), JStr(p), maxTokens, extra)).reason;
            Compress(cfg, post, Str(c), Str(p), maxTokens, extra) == Err(APIError(CONNECTION_FAILED_PREFIX + reason))
    ensures IsScaleDownError(Compress(cfg, post, Str(c), Str(p), maxTokens, extra).error)
  {
  }

  /**
   * A reply that decodes but carries a negative top-level counter is not
   * wrapped in APIError: pydantic's ValidationError reaches the caller,
   * naming the field.
   */
  lemma NegativeCounterIsNotAPIError(cfg: Config, post: Request -> Reply, c: string, p: string,
                                     maxTokens: Option<int>, extra: map<string, Json>, n: int)
    requires KeywordArgs(extra) && HasKey(cfg) && n < 0
    requires post(BuildRequest(cfg, JStr(c), JStr(p), maxTokens, extra)) == Received(JObj(map["total_original_tokens" := JInt(n)]))
    ensures var r := Compress(cfg, post, Str(c), Str(p), maxTokens, extra);
            && r.Err? && !IsScaleDownError(r.error)
            && r.error == ValidationError([FieldError(ORIGINAL_KEY, NON_NEGATIVE_MESSAGE)])
  {
    var data := JObj(map["total_original_tokens" := JInt(n)]);
    SingleReceived(cfg, post, c, p, maxTokens, extra, data);
    NegativeTotalRejected(n);
  }

  lemma NegativeTotalRejected(n: int)
    requires n < 0
    ensures Normalize(JObj(map["total_original_tokens" := JInt(n)])) == Err(ValidationError([FieldError(ORIGINAL_KEY, NON_NEGATIVE_MESSAGE)]))
  {
    var data := JObj(map["total_original_tokens" := JInt(n)]);
    var prepared := Prepare(data).value;
    var args := MetricsArgs(prepared.metrics);
    assert args[ORIGINAL_KEY] == JInt(n);
    assert args[COMPRESSED_KEY] == JInt(0);
    assert args[LATENCY_KEY] == JInt(0);
    assert CheckCounter(ORIGINAL_KEY, CounterArg(args, ORIGINAL_KEY)) == Err(FieldError(ORIGINAL_KEY, NON_NEGATIVE_MESSAGE));
    assert CheckCounter(COMPRESSED_KEY, CounterArg(args, COMPRESSED_KEY)) == Ok(0);
    assert CheckCounter(LATENCY_KEY, CounterArg(args, LATENCY_KEY)) == Ok(0);
    var e := FieldError(ORIGINAL_KEY, NON_NEGATIVE_MESSAGE);
    assert Reported(Err(e)) + Reported(Ok(0)) + Reported(Ok(0)) == [e];
    assert Construct(args) == Err(ValidationError([FieldError(ORIGINAL_KEY, NON_NEGATIVE_MESSAGE)]));
  }

  /**
   * What a successful reply becomes: `str` is the text under
   * results.compressed_prompt, the token pair takes the top-level totals
   * first, then the counts under "results", then 0, the latency is the
   * top-level latency_ms (or 0), and the timestamp comes only from the
   * top-level request_metadata.
   */
  lemma NormalizedAccessors(data: Json)
    requires Normalize(data).Ok?
    ensures data.JObj?
    ensures var top := data.fields;
            var results := if "results" in top then top["results"].fields else map[];
            var p := Normalize(data).value;
            && JStr(p.Str()) == Get(results, "compressed_prompt", JStr(""))
            && JInt(p.Tokens().0) == Pick(top, results, "total_original_tokens", ORIGINAL_KEY)
            && JInt(p.Tokens().1) == Pick(top, results, "total_compressed_tokens", COMPRESSED_KEY)
            && JInt(p.Latency()) == Get(top, LATENCY_KEY, JInt(0))
            && (p.metrics.timestamp.Some? ==> "request_metadata" in top && TIMESTAMP_KEY in top["request_metadata"].fields)
  {
  }

  /** A reply with none of the expected keys silently becomes empty text with zero counters. */
  lemma EmptyReplyDefaults()
    ensures Normalize(JObj(map[])) == Ok(CompressedPrompt("", CompressionMetrics(0, 0, 0, None)))
  {
    var prepared := Prepare(JObj(map[])).value;
    assert prepared.metrics[ORIGINAL_KEY] == JInt(0);
    assert prepared.metrics[COMPRESSED_KEY] == JInt(0);
    assert prepared.metrics[LATENCY_KEY] == JInt(0);
    assert prepared.metrics[TIMESTAMP_KEY] == JNull;
  }

  /**
   * The result of compress depends on the transport only at the requests
   * listed by Issued: two transports that agree there give the same outcome.
   */
  lemma {:induction false} DependsOnlyOnIssued(cfg: Config, post1: Request -> Reply, post2: Request -> Reply,
                                               context: Arg, prompt: Arg, maxTokens: Option<int>, extra: map<string, Json>)
    requires KeywordArgs(extra)
    requires forall req :: req in Issued(cfg, context, prompt, maxTokens, extra) ==> post1(req) == post2(req)
    ensures Compress(cfg, post1, context, prompt, maxTokens, extra) == Compress(cfg, post2, context, prompt, maxTokens, extra)
  {
    if HasKey(cfg) && Dispatch(context, prompt).Ok? && !(Dispatch(context, prompt).value.Many? && BindsBatchParameter(extra)) {
      match Dispatch(context, prompt).value
      case One(c, p) =>
        assert BuildRequest(cfg, JStr(c), JStr(p), maxTokens, extra) in Issued(cfg, context, prompt, maxTokens, extra);
      case Many(pairs) =>
        var reqs := Issued(cfg, context, prompt, maxTokens, extra);
        forall i | 0 <= i < |pairs|
          ensures post1(BuildRequest(cfg, pairs[i].context, pairs[i].prompt, maxTokens, extra))
                  == post2(BuildRequest(cfg, pairs[i].context, pairs[i].prompt, maxTokens, extra))
        {
          assert reqs[i] in reqs;
        }
        SameOutcomes(cfg, post1, post2, pairs, maxTokens, extra);
    }
  }

  lemma SameOutcomes(cfg: Config, post1: Request -> Reply, post2: Request -> Reply,
                     pairs: seq<Pair>, maxTokens: Option<int>, extra: map<string, Json>)
    requires HasKey(cfg)
    requires forall i :: 0 <= i < |pairs| ==>
               post1(BuildRequest(cfg, pairs[i].context, pairs[i].prompt, maxTokens, extra))
               == post2(BuildRequest(cfg, pairs[i].context, pairs[i].prompt, maxTokens, extra))
    ensures Outcomes(cfg, post1, pairs, maxTokens, extra) == Outcomes(cfg, post2, pairs, maxTokens, extra)
  {
  }

  /** The reply body of the single-call unit test. */
  function SingleTestReply(): Json {
    JObj(map[
      "results" := JObj(map[
        "compressed_prompt" := JStr("Compressed content"),
        "original_prompt_tokens" := JInt(100),
        "compressed_prompt_tokens" := JInt(50),
        "request_metadata" := JObj(map["timestamp" := JStr("2023-01-01T00:00:00Z")])]),
      "latency_ms" := JInt(123),
      "model_used" := JStr("gpt-4o")])
  }

  /**
   * The single-call unit test: the request carries the key, the model and
   * the default rate, and the reply becomes content "Compressed content"
   * with tokens (100, 50), latency 123, 50% savings and a ratio of 2. The
   * timestamp nested under "results" is not read.
   */
  lemma SingleCallScenario(apiUrl: string, storedKey: Option<string>)
    ensures var cfg := NewConfig(apiUrl, storedKey, apiKey := Some("test_key"));
            var post := (req: Request) => Received(SingleTestReply());
            var req := Issued(cfg, Str("context"), Str("prompt"), None, map[])[0];
            var r := Compress(cfg, post, Str("context"), Str("prompt"), None, map[]);
            && req.headers["x-api-key"] == "test_key"
            && req.body["model"] == JStr("gpt-4o")
            && req.body["scaledown"].fields["rate"] == JStr("auto")
            && r.Ok? && r.value.Single?
            && r.value.result.Str() == "Compressed content"
            && r.value.result.Tokens() == (100, 50)
            && r.value.result.Latency() == 123
            && r.value.result.metrics.timestamp == None
            && r.value.result.SavingsPercent() == 50.0
            && r.value.result.CompressionRatio() == 2.0
  {
    var cfg := NewConfig(apiUrl, storedKey, apiKey := Some("test_key"));
    var post := (req: Request) => Received(SingleTestReply());
    var req := BuildRequest(cfg, JStr("context"), JStr("prompt"), None, map[]);
    assert Issued(cfg, Str("context"), Str("prompt"), None, map[])[0] == req;
    assert req.body["scaledown"].fields == Options(cfg, None, map[]);
    SingleTestReplyNormalized();
    SingleReceived(cfg, post, "context", "prompt", None, map[], SingleTestReply());
    HundredToFifty(None, 123);
  }

  lemma SingleTestReplyNormalized()
    ensures Normalize(SingleTestReply()) == Ok(CompressedPrompt("Compressed content", CompressionMetrics(100, 50, 123, None)))
  {
    var prepared := Prepare(SingleTestReply()).value;
    assert prepared.content == JStr("Compressed content");
    assert prepared.metrics[ORIGINAL_KEY] == JInt(100);
    assert prepared.metrics[COMPRESSED_KEY] == JInt(50);
    assert prepared.metrics[LATENCY_KEY] == JInt(123);
    assert prepared.metrics[TIMESTAMP_KEY] == JNull;
  }

  /** The batch unit test: two pairs give two results and two requests. */
  lemma BatchScenario(apiUrl: string, storedKey: Option<string>)
    ensures var cfg := NewConfig(apiUrl, storedKey, apiKey := Some("test_key"));
            var post := (req: Request) => Received(JObj(map["results" := JObj(map["compressed_prompt" := JStr("Batch content")])]));
            var contexts := List([JStr("ctx1"), JStr("ctx2")]);
            var prompts := List([JStr("p1"), JStr("p2")]);
            var r := Compress(cfg, post, contexts, prompts, None, map[]);
            && r.Ok? && r.value.Batch? && |r.value.results| == 2
            && |Issued(cfg, contexts, prompts, None, map[])| == 2
  {
    var cfg := NewConfig(apiUrl, storedKey, apiKey := Some("test_key"));
    var data := JObj(map["results" := JObj(map["compressed_prompt" := JStr("Batch content")])]);
    var post := (req: Request) => Received(data);
    var prepared := Prepare(data).value;
    assert prepared.metrics[ORIGINAL_KEY] == JInt(0);
    assert prepared.metrics[COMPRESSED_KEY] == JInt(0);
    assert prepared.metrics[LATENCY_KEY] == JInt(0);
    assert Normalize(data).Ok?;
    var cs := [JStr("ctx1"), JStr("ctx2")];
    var ps := [JStr("p1"), JStr("p2")];
    BatchPreservesOrder(cfg, post, List(cs), List(ps), None, map[]);
  }
}
