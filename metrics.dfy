/**
 * CompressionMetrics: an immutable record of two token counters, a latency
 * and an optional timestamp. Construction validates the three counters and
 * fails with a pydantic ValidationError when any of them is not a
 * non-negative integer.
 */
module Metrics {
  import opened Errors
  import opened Json

  const ORIGINAL_KEY := "original_prompt_tokens"
  const COMPRESSED_KEY := "compressed_prompt_tokens"
  const LATENCY_KEY := "latency_ms"
  const TIMESTAMP_KEY := "timestamp"

  /** The message of validate_positive. */
  const NON_NEGATIVE_MESSAGE := "Must be non-negative"
  /** pydantic's message for a value that is not an integer. */
  const INT_TYPE_MESSAGE := "Input should be a valid integer"

  /**
   * A constructed (hence validated) record: the counters are naturals. The
   * timestamp is kept as the opaque JSON value it was given; None stands for
   * an absent or null timestamp.
   */
  datatype CompressionMetrics = CompressionMetrics(
    originalPromptTokens: nat,
    compressedPromptTokens: nat,
    latencyMs: nat,
    timestamp: Option<Json>)

  /** validate_positive: accept a non-negative value unchanged, reject a negative one. */
  function ValidatePositive(v: int): (r: Result<int, string>)
    ensures r.Ok? <==> v >= 0
    ensures r.Ok? ==> r.value == v
    ensures r.Err? ==> r.error == NON_NEGATIVE_MESSAGE
  {
    if v < 0 then Err(NON_NEGATIVE_MESSAGE) else Ok(v)
  }

  /** A counter value passes pydantic's integer check and then validate_positive. */
  predicate Accepts(v: Json) {
    v.JInt? && v.i >= 0
  }

  /** Validation of one counter field: the integer type check, then validate_positive. */
  function CheckCounter(field: string, v: Json): (r: Result<nat, FieldError>)
    ensures r.Ok? <==> Accepts(v)
    ensures r.Ok? ==> v == JInt(r.value)
    ensures r.Err? ==> r.error.field == field
    ensures r.Err? && v.JInt? ==> r.error.message == NON_NEGATIVE_MESSAGE
  {
    match v
    case JInt(i) =>
      (match ValidatePositive(i)
       case Ok(n) => Ok(n as nat)
       case Err(msg) => Err(FieldError(field, msg)))
    case _ => Err(FieldError(field, INT_TYPE_MESSAGE))
  }

  /** The value a keyword argument gives a counter field, or its default 0 when omitted. */
  function CounterArg(kwargs: map<string, Json>, field: string): Json {
    Get(kwargs, field, JInt(0))
  }

  /** The timestamp a keyword argument gives: None when omitted or null. */
  function TimestampArg(kwargs: map<string, Json>): Option<Json> {
    if TIMESTAMP_KEY in kwargs && kwargs[TIMESTAMP_KEY] != JNull then Some(kwargs[TIMESTAMP_KEY]) else None
  }

  predicate ValidCounters(kwargs: map<string, Json>) {
    && Accepts(CounterArg(kwargs, ORIGINAL_KEY))
    && Accepts(CounterArg(kwargs, COMPRESSED_KEY))
    && Accepts(CounterArg(kwargs, LATENCY_KEY))
  }

  function Reported(r: Result<nat, FieldError>): seq<FieldError> {
    if r.Err? then [r.error] else []
  }

  /**
   * `CompressionMetrics(**kwargs)`. Omitted fields take their defaults,
   * keys that are not fields are ignored, the three counters are validated
   * (the timestamp is not) and every failing counter is reported, in field
   * order.
   */
  function Construct(kwargs: map<string, Json>): (r: Result<CompressionMetrics, Error>)
    ensures r.Ok? <==> ValidCounters(kwargs)
    ensures r.Ok? ==> && JInt(r.value.originalPromptTokens) == CounterArg(kwargs, ORIGINAL_KEY)
                      && JInt(r.value.compressedPromptTokens) == CounterArg(kwargs, COMPRESSED_KEY)
                      && JInt(r.value.latencyMs) == CounterArg(kwargs, LATENCY_KEY)
                      && r.value.timestamp == TimestampArg(kwargs)
    ensures r.Err? ==> && r.error.ValidationError?
                       && 0 < |r.error.errors| <= 3
                       && (forall e :: e in r.error.errors ==>
                             e.field in {ORIGINAL_KEY, COMPRESSED_KEY, LATENCY_KEY} && !Accepts(CounterArg(kwargs, e.field)))
                       && (forall f :: f in {ORIGINAL_KEY, COMPRESSED_KEY, LATENCY_KEY} && !Accepts(CounterArg(kwargs, f)) ==>
                             exists e :: e in r.error.errors && e.field == f)
  {
    var o := CheckCounter(ORIGINAL_KEY, CounterArg(kwargs, ORIGINAL_KEY));
    var c := CheckCounter(COMPRESSED_KEY, CounterArg(kwargs, COMPRESSED_KEY));
    var l := CheckCounter(LATENCY_KEY, CounterArg(kwargs, LATENCY_KEY));
    if o.Ok? && c.Ok? && l.Ok? then
      Ok(CompressionMetrics(o.value, c.value, l.value, TimestampArg(kwargs)))
    else
      var errors := Reported(o) + Reported(c) + Reported(l);
      assert forall e :: e in errors ==> e in Reported(o) || e in Reported(c) || e in Reported(l);
      Err(ValidationError(errors))
  }

  function Kwargs(original: int, compressed: int, latency: int): map<string, Json> {
    map[ORIGINAL_KEY := JInt(original), COMPRESSED_KEY := JInt(compressed), LATENCY_KEY := JInt(latency)]
  }

  /**
   * With integer counters, construction succeeds exactly when all three are
   * non-negative, stores them as given, and otherwise reports each negative
   * one with "Must be non-negative".
   */
  lemma ConstructIffNonNegative(original: int, compressed: int, latency: int)
    ensures Construct(Kwargs(original, compressed, latency)).Ok? <==> original >= 0 && compressed >= 0 && latency >= 0
    ensures var r := Construct(Kwargs(original, compressed, latency));
            r.Ok? ==> r.value == CompressionMetrics(original, compressed, latency, None)
    ensures var r := Construct(Kwargs(original, compressed, latency));
            r.Err? ==> forall e :: e in r.error.errors ==> e.message == NON_NEGATIVE_MESSAGE
  {
  }

  /** Omitted fields default to 0 for each counter and to None for the timestamp. */
  lemma OmittedFieldsDefault()
    ensures Construct(map[]) == Ok(CompressionMetrics(0, 0, 0, None))
  {
  }

  /** validate_positive does not look at the timestamp: only the three counters decide success. */
  lemma TimestampNotValidated(kwargs: map<string, Json>, ts: Json)
    ensures Construct(kwargs[TIMESTAMP_KEY := ts]).Ok? == Construct(kwargs).Ok?
  {
  }
}
