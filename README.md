# ScaleDown client: a Dafny model

This project models the core of the ScaleDown Python client library. The
client sends a context (or a list of contexts) and a prompt to a hosted
prompt-compression API. It returns a `CompressedPrompt`: the compressed
text plus validated `CompressionMetrics`.

The model covers three parts.

- The `ScaleDownCompressor` client (`compressor.dfy`, module `Compressor`):
  - its read-only configuration;
  - the dispatch of `compress` on the shapes of its arguments (str/str,
    list/list, list/str, anything else);
  - the order-preserving batch;
  - the API-key check at call time;
  - the request it builds (URL, headers, payload with the nested
    `"scaledown"` options);
  - the normalisation of the loosely shaped JSON reply.
- `CompressedPrompt` (`compressed_prompt.dfy`, module `Prompt`): the text,
  the derived token pair, savings percentage, compression ratio and latency,
  and the `from_api_response` factory.
- `CompressionMetrics` (`metrics.dfy`, module `Metrics`): the record, its
  field defaults and the `validate_positive` validator.

Supporting modules:

- `Errors` (`errors.dfy`) holds `Option`, a failure-compatible `Result`, and
  the errors the client raises. These are the package's
  `AuthenticationError` and `APIError`, plus the Python `ValueError`,
  `TypeError`, pydantic's `ValidationError` and `AttributeError` that reach
  the caller.
- `Json` (`json.dfy`) holds decoded JSON values and Python's `dict.get`.
  Calling `.get` on a value that is not a dict raises `AttributeError`.
- `CompressorProperties` (`compressor_properties.dfy`) holds the lemmas about
  the client. This includes the three mocked unit tests of the client.

The HTTP POST is a function parameter `post: Request -> Reply`. A `Reply`
is either the decoded body or the text of a transport failure. A 4xx or 5xx
status and a body that fails to decode are transport failures, as in
`requests`. Percentages and ratios are exact rationals (`real`).

The model follows the code on these points:

- The nested options object is keyed `"scaledown"` and uses snake_case keys
  (`preserve_keywords`, `max_tokens`, ...).
- Bad input shapes raise `ValueError`.
- On the two list paths, `compress` hands both lists to `_compress_batch`
  positionally. An extra keyword named `context_list` or `prompt_list`
  therefore raises `TypeError` ("got multiple values for argument"), and no
  request is sent.
- A reply whose counter is negative raises pydantic's `ValidationError`, and
  so does one whose counter the model does not accept as an integer (only
  JSON integers are accepted here; see the `Metrics.CheckCounter` line under
  "## Left out"). It is not caught, because only `RequestException` is
  caught. So it reaches the caller as a validation error and not as
  `APIError` (`CompressorProperties.NegativeCounterIsNotAPIError`).
- A reply whose body, `results` or `request_metadata` is not a dict raises
  `AttributeError`, which is not caught either.
- In a batch, the error raised is the one of the first failing pair by
  position, since results are read in input order.
- A reply with none of the expected keys silently becomes empty text with
  zero counters (`CompressorProperties.EmptyReplyDefaults`).

## Model

| member | source | states |
|---|---|---|
| `Json.AsDict` | scaledown/compressor/scaledown_compressor.py:86-97 | `.get` succeeds exactly on a dict and reads its fields; on any other JSON value it raises AttributeError |
| `Metrics.ValidatePositive` | scaledown/types/metrics.py:12-17 | accepts exactly the non-negative values and returns them unchanged; otherwise fails with "Must be non-negative" |
| `Metrics.CheckCounter` | scaledown/types/metrics.py:7-17 | a counter field passes exactly when it is a non-negative JSON integer, and keeps its value; a failure names the field |
| `Metrics.Construct` | scaledown/types/metrics.py:5-17 | construction succeeds iff all three counters (or their default 0) are valid; it stores them as given, with the timestamp None when absent; otherwise it reports exactly the failing counters |
| `Metrics.ConstructIffNonNegative` | scaledown/types/metrics.py:12-16 | with integer counters, construction succeeds iff all three are >= 0; each failure says "Must be non-negative" |
| `Metrics.OmittedFieldsDefault` | scaledown/types/metrics.py:7-10 | omitted fields default to 0, 0, 0 and None |
| `Metrics.TimestampNotValidated` | scaledown/types/metrics.py:10-12 | validate_positive does not look at the timestamp: changing it never changes whether the counters pass |
| `Prompt.CompressedPrompt.SavingsPercent` | scaledown/types/compressed_prompt.py:24-32 | 0 when the original count is 0; otherwise `s * orig == (orig - comp) * 100`; never above 100; when the original count is positive, non-negative iff comp <= orig |
| `Prompt.CompressedPrompt.CompressionRatio` | scaledown/types/compressed_prompt.py:34-42 | 0 when the compressed count is 0; otherwise `r * comp == orig`; never negative; when the compressed count is positive, at least 1 iff comp <= orig |
| `Prompt.SavingsFromRatio` | scaledown/types/compressed_prompt.py:26-42 | with both counters positive, savings == 100 - 100 / ratio |
| `Prompt.HundredToFifty` | scaledown/types/compressed_prompt.py:26-42 | counters 100 and 50 give savings 50.0 and ratio 2.0 |
| `Prompt.FromApiResponse` | scaledown/types/compressed_prompt.py:55-65 | metrics come from `raw["metrics"]` when present (AttributeError if not a dict), else from `raw`; missing counters are 0 and a missing timestamp is None; succeeds iff the counters are valid and the content is a string, which is kept as the text |
| `Prompt.FromApiResponseAccessors` | scaledown/types/compressed_prompt.py:12-46 | `str` is exactly the content, `tokens` the (original, compressed) pair and `latency` the latency that from_api_response read |
| `Compressor.NewConfig` | scaledown/compressor/scaledown_compressor.py:14-21 | a truthy explicit key wins over the process-wide one; no key check happens at construction; a missing word list becomes []; the other settings are stored as given |
| `Compressor.Zip` | scaledown/compressor/scaledown_compressor.py:47 | pairs the two lists position by position, up to the shorter one |
| `Compressor.Repeat` | scaledown/compressor/scaledown_compressor.py:38 | `[prompt] * n`: n copies of the prompt |
| `Compressor.Dispatch` | scaledown/compressor/scaledown_compressor.py:28-41 | str/str is one call; list/list needs equal lengths (else ValueError "same length") and zips; list/str broadcasts the prompt to every context; every other combination raises ValueError "Invalid combination" |
| `Compressor.Options` | scaledown/compressor/scaledown_compressor.py:65-72 | the nested options hold rate, temperature, preserve_keywords, preserve_words and max_tokens plus the caller's extras; an extra wins on collision |
| `Compressor.BuildRequest` | scaledown/compressor/scaledown_compressor.py:55-81 | POST to `<api_url>/compress/raw` with `x-api-key` equal to the key and a JSON content type; the body has exactly context, prompt, model = target model, and the `scaledown` options |
| `Compressor.Prepare` | scaledown/compressor/scaledown_compressor.py:85-98 | content is `results.compressed_prompt` or ""; counters take top-level `total_*`, then `results.*`, then 0; latency is top-level or 0; the timestamp comes only from top-level `request_metadata`; a non-dict body, results or request_metadata raises AttributeError |
| `Compressor.Normalize` | scaledown/compressor/scaledown_compressor.py:85-103 | a well-shaped reply succeeds iff its chosen counters are non-negative integers and its content is a string, and then carries exactly those values; otherwise ValidationError |
| `Compressor.CompressSingle` | scaledown/compressor/scaledown_compressor.py:51-106 | no key raises AuthenticationError before anything is sent; a transport failure becomes APIError "Connection failed: ..."; a received body is normalised |
| `Compressor.Collect` | scaledown/compressor/scaledown_compressor.py:45-49 | all values in input order when every call succeeds; otherwise the error of the first failing call by position |
| `Compressor.CompressBatch` | scaledown/compressor/scaledown_compressor.py:43-49 | succeeds iff every pair's single call does; result i is pair i's result; otherwise the error of the first failing pair |
| `Compressor.Compress` | scaledown/compressor/scaledown_compressor.py:23-41 | dispatch errors are returned as they are; an extra `context_list` or `prompt_list` on a list path raises TypeError; a str pair gives a single result; a batch gives one result per context |
| `Compressor.Issued` | scaledown/compressor/scaledown_compressor.py:23-81 | the requests a call may send, one per pair; none without a key, on a dispatch error, or when the batch call raises TypeError |
| `CompressorProperties.StringPairIsOneCall` | scaledown/compressor/scaledown_compressor.py:28-29 | a str pair is exactly one single call, unwrapped, sending exactly its one request |
| `CompressorProperties.UnequalListsRaise` | scaledown/compressor/scaledown_compressor.py:31-33 | lists of unequal length raise ValueError and send no request |
| `CompressorProperties.BroadcastPrompt` | scaledown/compressor/scaledown_compressor.py:36-38 | with a key, list/str issues len(context) requests, each carrying its context and the given prompt, and returns one result per context; an extra `context_list` or `prompt_list` raises TypeError and sends nothing |
| `CompressorProperties.OtherCombinationsRaise` | scaledown/compressor/scaledown_compressor.py:40-41 | any other shape combination raises ValueError and sends nothing |
| `CompressorProperties.BatchPreservesOrder` | scaledown/compressor/scaledown_compressor.py:31-49 | on both list paths a batch succeeds iff every pair does; result i is pair i's single result; a failure is the first failing pair's error; an extra `context_list` or `prompt_list` raises TypeError instead |
| `CompressorProperties.BatchIssuesOnePerPair` | scaledown/compressor/scaledown_compressor.py:31-47 | with a key, both list paths issue exactly one request per pair, request i carrying pair i's context and prompt |
| `CompressorProperties.EmptyBatchSkipsKeyCheck` | scaledown/compressor/scaledown_compressor.py:43-49 | an empty context list gives [] with no request, so not even a missing key fails; only the batch call's TypeError can still arise |
| `CompressorProperties.MissingKeyRaises` | scaledown/compressor/scaledown_compressor.py:52-53 | without a truthy key every call that reaches a single compression raises AuthenticationError (after the batch call's TypeError check on list paths) and sends nothing |
| `CompressorProperties.KeyCheckedAtCallTime` | tests/test_scaledown_compressor.py:65-71 | a client built with no key is built with the default settings; its call raises AuthenticationError with no request |
| `CompressorProperties.ExtraOptionsWin` | scaledown/compressor/scaledown_compressor.py:61-73 | extra keyword options override the configured ones, max_tokens is always the argument, and no other key appears |
| `CompressorProperties.SingleReceived` | scaledown/compressor/scaledown_compressor.py:83-103 | a str pair answered with a body returns that body's normalisation |
| `CompressorProperties.TransportFailureBecomesAPIError` | scaledown/compressor/scaledown_compressor.py:105-106 | a transport failure surfaces as APIError("Connection failed: " + cause), a ScaleDownError |
| `CompressorProperties.NegativeCounterIsNotAPIError` | scaledown/compressor/scaledown_compressor.py:92-106 | a negative top-level total surfaces as pydantic's ValidationError naming the field, not as a ScaleDownError |
| `CompressorProperties.NegativeTotalRejected` | scaledown/compressor/scaledown_compressor.py:93 | a reply whose only key is a negative `total_original_tokens` normalises to that single validation failure |
| `CompressorProperties.NormalizedAccessors` | scaledown/compressor/scaledown_compressor.py:86-97 | on success `str`, `tokens` and `latency` are the values the priority rule picks, and a timestamp is present only if top-level request_metadata has one |
| `CompressorProperties.EmptyReplyDefaults` | scaledown/compressor/scaledown_compressor.py:86-98 | an empty reply becomes empty text with zero counters and no timestamp |
| `CompressorProperties.DependsOnlyOnIssued` | scaledown/compressor/scaledown_compressor.py:43-81 | two transports that agree on the issued requests give the same outcome, so Issued lists every request compress depends on |
| `CompressorProperties.SingleCallScenario` | tests/test_scaledown_compressor.py:29-50 | the unit test's request carries key, model and rate "auto"; its reply gives "Compressed content", tokens (100, 50), latency 123, savings 50, ratio 2 and no timestamp |
| `CompressorProperties.SingleTestReplyNormalized` | tests/test_scaledown_compressor.py:31-40 | the unit test's reply normalises to the expected content and metrics |
| `CompressorProperties.BatchScenario` | tests/test_scaledown_compressor.py:52-63 | two pairs with a fixed reply give two results and two requests |

## Left out

- HTTP I/O (`requests.post`, `raise_for_status`, `response.json()`): the transport is the `post` parameter. Status and decoding failures are `Failed(reason)`, and `reason` stands for `str(e)`.
- The worker pool (`ThreadPoolExecutor(max_workers=5)`): a batch is a sequential ordered map. The concurrency bound and the order in which requests reach the server are not modelled.
- The transport `post` is a function, so two identical requests always get the same reply. The client sends them independently, and their replies (latency, timestamp, a transient failure) can differ; a broadcast prompt with a repeated context is such a case.
- Compressor.Issued: it lists the requests a call may send. When a batch fails, the ordered result iterator cancels the calls that have not started yet, so later pairs' requests may never be sent. That cancellation is not modelled, so on a failing batch Issued is an upper bound.
- Compressor.Compress: when both `context_list` and `prompt_list` are passed, Python names whichever comes first in keyword order in its TypeError message. A map keeps no order, so the model always names `context_list`.
- The process-wide key lookup and the base-URL lookup from the environment: they are the `storedKey` and `apiUrl` inputs of `NewConfig`. The abstract base class adds no logic.
- Metrics.CheckCounter: only a JSON integer passes the type check. pydantic's lax coercions (integral floats, numeric strings, booleans) are not modelled, so such counters are rejected here.
- Prompt.FromApiResponse: only a JSON string is accepted as content. pydantic's messages are kept only as the field name and the validator's text, not in their full formatted form.
- Metrics.Construct: the timestamp is an opaque optional value. Parsing it into a `datetime`, and rejecting text that does not parse, is not modelled.
- `__repr__` and `print_stats`: console output and float formatting. Floating-point rounding in general: savings and ratio are exact rationals.
- The Streamlit page and the demo script: user interface and examples, outside the client.
