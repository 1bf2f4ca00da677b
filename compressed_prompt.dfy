/**
 * CompressedPrompt: the compressed text together with its metrics, the
 * values derived from them on read (token pair, savings percentage,
 * compression ratio, latency), and the factory that builds one from a loose
 * response dictionary. Percentages and ratios are exact rationals here.
 */
module Prompt {
  import opened Errors
  import opened Json
  import opened Metrics

  const METRICS_KEY := "metrics"
  /** pydantic's message for a content value that is not a string. */
  const STR_TYPE_MESSAGE := "Input should be a valid string"

  datatype CompressedPrompt = CompressedPrompt(content: string, metrics: CompressionMetrics) {

    /** `str(p)`: the compressed text. */
    function Str(): string {
      content
    }

    /** The pair (original tokens, compressed tokens). */
    function Tokens(): (nat, nat) {
      (metrics.originalPromptTokens, metrics.compressedPromptTokens)
    }

    function Latency(): nat {
      metrics.latencyMs
    }

    /**
     * Percentage of tokens removed; 0 when there were no original tokens.
     * It never exceeds 100, and when the original count is positive it is
     * non-negative exactly when compression did not grow the prompt.
     */
    function SavingsPercent(): (r: real)
      ensures metrics.originalPromptTokens == 0 ==> r == 0.0
      ensures metrics.originalPromptTokens > 0 ==>
                r * metrics.originalPromptTokens as real
                == (metrics.originalPromptTokens - metrics.compressedPromptTokens) as real * 100.0
      ensures r <= 100.0
      ensures metrics.originalPromptTokens > 0 ==> (r >= 0.0 <==> metrics.compressedPromptTokens <= metrics.originalPromptTokens)
    {
      var orig := metrics.originalPromptTokens;
      var comp := metrics.compressedPromptTokens;
      if orig == 0 then 0.0
      else
        ((orig - comp) as real / orig as real) * 100.0
    }

    /**
     * Original tokens per compressed token; 0 when nothing was compressed to.
     * It is never negative, and when the compressed count is positive it is
     * at least 1 exactly when compression did not grow the prompt.
     */
    function CompressionRatio(): (r: real)
      ensures metrics.compressedPromptTokens == 0 ==> r == 0.0
      ensures metrics.compressedPromptTokens > 0 ==>
                r * metrics.compressedPromptTokens as real == metrics.originalPromptTokens as real
      ensures r >= 0.0
      ensures metrics.compressedPromptTokens > 0 ==> (r >= 1.0 <==> metrics.compressedPromptTokens <= metrics.originalPromptTokens)
    {
      var orig := metrics.originalPromptTokens;
      var comp := metrics.compressedPromptTokens;
      if comp == 0 then 0.0
      else
        orig as real / comp as real
    }
  }

  /**
   * When both counters are positive the two derived views agree: the savings
   * percentage is 100 - 100 / ratio.
   */
  lemma SavingsFromRatio(p: CompressedPrompt)
    requires p.metrics.originalPromptTokens > 0 && p.metrics.compressedPromptTokens > 0
    ensures p.CompressionRatio() > 0.0
    ensures p.SavingsPercent() == 100.0 - 100.0 / p.CompressionRatio()
  {
    var o := p.metrics.originalPromptTokens as real;
    var c := p.metrics.compressedPromptTokens as real;
    var s, k := p.SavingsPercent(), p.CompressionRatio();
    assert k * c == o;
    assert k > 0.0;
    assert s * o == (o - c) * 100.0;
    var inv := 100.0 / k;
    assert inv * k == 100.0;
    // inv * o == inv * k * c == 100 * c, so (100 - inv) * o == 100 * (o - c) == s * o
    assert inv * o == 100.0 * c by {
      calc {
        inv * o;
        inv * (k * c);
        (inv * k) * c;
        100.0 * c;
      }
    }
    assert (100.0 - inv) * o == 100.0 * o - inv * o;
    assert (o - c) * 100.0 == 100.0 * o - 100.0 * c;
    assert 100.0 - inv == s by {
      var d := (100.0 - inv) - s;
      assert d * o == 0.0;
    }
  }

  /** Counters of 100 and 50 give savings of 50.0 and a ratio of 2.0. */
  lemma HundredToFifty(ts: Option<Json>, latency: nat)
    ensures var p := CompressedPrompt("", CompressionMetrics(100, 50, latency, ts));
            p.SavingsPercent() == 50.0 && p.CompressionRatio() == 2.0
  {
  }

  /**
   * The read-only views of a built CompressedPrompt: `str` is exactly the
   * content it was given, `tokens` the two counters and `latency` the
   * latency, as read from the metrics source (0 when absent).
   */
  lemma FromApiResponseAccessors(content: Json, raw: map<string, Json>)
    requires FromApiResponse(content, raw).Ok?
    ensures var p := FromApiResponse(content, raw).value;
            var src := MetricsSource(raw);
            && JStr(p.Str()) == content
            && JInt(p.Tokens().0) == Get(src, ORIGINAL_KEY, JInt(0))
            && JInt(p.Tokens().1) == Get(src, COMPRESSED_KEY, JInt(0))
            && JInt(p.Latency()) == Get(src, LATENCY_KEY, JInt(0))
  {
  }

  /** The dictionary the counters are read from: a nested "metrics" dict when present, else the raw dict. */
  function MetricsSource(raw: map<string, Json>): map<string, Json> {
    if METRICS_KEY in raw && raw[METRICS_KEY].JObj? then raw[METRICS_KEY].fields else raw
  }

  /** The keyword arguments from_api_response passes to CompressionMetrics. */
  function MetricsArgs(data: map<string, Json>): map<string, Json> {
    map[ORIGINAL_KEY := Get(data, ORIGINAL_KEY, JInt(0)),
        COMPRESSED_KEY := Get(data, COMPRESSED_KEY, JInt(0)),
        LATENCY_KEY := Get(data, LATENCY_KEY, JInt(0)),
        TIMESTAMP_KEY := Get(data, TIMESTAMP_KEY, JNull)]
  }

  /**
   * from_api_response: read the metrics from `raw["metrics"]` if that key is
   * present (a non-dict there raises AttributeError), else from `raw`
   * itself; missing counters are 0 and a missing timestamp is None. The
   * metrics are built (and validated) before the content is checked to be a
   * string.
   */
  function FromApiResponse(content: Json, raw: map<string, Json>): (r: Result<CompressedPrompt, Error>)
    ensures METRICS_KEY in raw && !raw[METRICS_KEY].JObj? ==> r.Err? && r.error.AttributeError?
    ensures r.Ok? <==> && (METRICS_KEY in raw ==> raw[METRICS_KEY].JObj?)
                       && ValidCounters(MetricsSource(raw))
                       && content.JStr?
    ensures r.Ok? ==> var src := MetricsSource(raw);
                      && content == JStr(r.value.content)
                      && JInt(r.value.metrics.originalPromptTokens) == Get(src, ORIGINAL_KEY, JInt(0))
                      && JInt(r.value.metrics.compressedPromptTokens) == Get(src, COMPRESSED_KEY, JInt(0))
                      && JInt(r.value.metrics.latencyMs) == Get(src, LATENCY_KEY, JInt(0))
                      && r.value.metrics.timestamp == TimestampArg(src)
    ensures r.Err? && (METRICS_KEY in raw ==> raw[METRICS_KEY].JObj?) && ValidCounters(MetricsSource(raw)) ==>
              r.error == ValidationError([FieldError("content", STR_TYPE_MESSAGE)])
  {
    var data :- if METRICS_KEY in raw then AsDict(raw[METRICS_KEY]) else Ok(raw);
    var args := MetricsArgs(data);
    assert CounterArg(args, ORIGINAL_KEY) == Get(data, ORIGINAL_KEY, JInt(0));
    assert CounterArg(args, COMPRESSED_KEY) == Get(data, COMPRESSED_KEY, JInt(0));
    assert CounterArg(args, LATENCY_KEY) == Get(data, LATENCY_KEY, JInt(0));
    assert TimestampArg(args) == TimestampArg(data);
    var metrics :- Construct(args);
    if content.JStr? then Ok(CompressedPrompt(content.s, metrics))
    else Err(ValidationError([FieldError("content", STR_TYPE_MESSAGE)]))
  }
}
