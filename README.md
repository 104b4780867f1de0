# Exchange-rate API client: a Dafny model

This project models the core of a Python client for the ExchangeRate-API v6
web service (`exchange_rate_client`):

- the client object `ExchangeRateV6Client`. It keeps a per-instance cache of
  the currency codes the API supports, and the cache's timestamp. The cache
  is filled on first use. A successful refresh is reused for an hour; a
  failed one changes nothing, so the next check tries again.
- the classification of a failing response into a typed error.
- the `pair_conversion` operation. It validates both codes and the amount,
  builds the `pair` URL and decodes the answer.
- the response records of `commons.py` (`ExchangeRates`, `PairConversion`,
  `APIQuotaStatus`). They are decoded from a JSON object under the
  `extra="ignore"` rule: required fields must be present, optional fields
  default to `None`, and unknown keys are dropped.

Layout, one module per file:

- `wrappers.dfy` (`Wrappers`): `Option` and `Result`.
- `json.dfy` (`Json`): JSON values, `dict.get`, and Python truthiness.
- `commons.dfy` (`Commons`): the records, their declared fields (`*Schema`),
  and the decoders. The decoders are proved against the field list. Each
  record also has a dump function (its JSON form, `None` written as `null`).
- `exceptions.dfy` (`Exceptions`): `Failure`, one constructor per kind of
  error a caller can observe.
- `urls.dfy` (`Urls`): the API root, the path a sequence of segments makes,
  and its inverse.
- `client.dfy` (`Client`): the classifier, and the cache and pair conversion
  as pure functions of the old cache and the outside world (`RefreshRun`,
  `CodeCheckRun`, `PairRun`). It also holds the class
  `ExchangeRateV6Client`, whose methods update the two cache fields in place
  and are proved equal to those functions.

The transport and the clock are parameters:

- A request's `Reply` is either `TimedOut` or `Response(status, body)`, where
  the body is a JSON object.
- Each code check receives a `Probe`. It holds the clock reading for the
  staleness test, the reply its `codes` request would get, and the clock
  reading taken after that request, which `time.time()` stamps on the cache.
- Every operation returns the URLs it requested, in order. This is what lets
  the model state "no request is made".

Points of the source's behaviour that are easy to misread:

- Only status 200 is a success. Any other status, including 201 or 204, is
  a failure.
- A refresh happens when the cache is `None`. A cached empty set is not
  refreshed until it is more than 3600 s old.
- A failing response without a truthy `error-type` is an unknown error. This
  covers a missing key, `null`, `""`, `0`, `[]` and `{}`.
- Error types are mapped by one fixed chain of four names, shared by all
  requests. `plan-upgrade-required`, `malformed-request` and
  `no-data-available` therefore fall into "Unexpected error type".

## Model

| member | source | states |
|---|---|---|
| Client.ErrorFromErrorType | exchange_rate_client/_client.py:96-110 | a named API error is raised exactly when `error-type` is that error's string (`unsupported-code`, `invalid-key`, `inactive-account`, `quota-reached`), with its fixed message; any other value gives the generic "Unexpected error type" error carrying the raw value |
| Client.ResponseFailure | exchange_rate_client/_client.py:49-54 | a response fails exactly when its status is not 200; a failure with no truthy `error-type` is "Unknown error ocurred", otherwise it is classified; a named API error only comes from a body whose `error-type` is that name |
| Client.ResponseFailureExamples | tests/test_client_v6_fetch_standard_response.py:105-163 | the test suite's cases: 403 `invalid-key` and 403 `quota-reached` give the named errors, 400 `unknown` is unexpected and carries "unknown", status 0 with an empty body is the unknown error |
| Client.CodesOfEntries | exchange_rate_client/_client.py:88 | unpacking every entry as `code, _` succeeds exactly when each entry unpacks; a code is in the result exactly when some entry's first item is that string |
| Client.SupportedCodes | exchange_rate_client/_client.py:86-88 | a body without `supported_codes` yields the empty set; a list yields the codes of its entries |
| Client.SupportedCodesOfListing | exchange_rate_client/_client.py:86-88 | for the API's `[code, name]` listing, the new cache is exactly the set of first elements |
| Client.RefreshRun | exchange_rate_client/_client.py:71-91 | one `codes` request is made; the cache and timestamp are replaced, with the fetched codes and the post-request clock reading, exactly when the reply is status 200 with a readable code list; otherwise both are unchanged and the time-out or the classified error is raised |
| Client.CodeCheckRun | exchange_rate_client/_client.py:62-69 | a `codes` request is made exactly when the cache is `None` or strictly more than 3600 s old; a fresh cache is answered with no request and no change; a success is a case-sensitive membership test in the cache it leaves; a failure leaves the cache unchanged |
| Client.CodeCheckAfterRefresh | exchange_rate_client/_client.py:86-89 | after a successful refresh the cache is exactly the fetched code set stamped with the clock reading taken after the request, and the answer is membership in that set |
| Client.FailedRefreshHasNoFallback | exchange_rate_client/_client.py:79-91 | a failed refresh is raised unchanged: no lookup in the stale set, cache and timestamp untouched |
| Client.SecondCheckRefreshesOnlyWhenStale | exchange_rate_client/_client.py:62-67 | after a check that refreshed, a later check makes a request exactly when more than 3600 s have passed since the refresh |
| Client.PairRun | exchange_rate_client/_client.py:24-60 | every URL requested is the `codes` URL except a last one, which is the pair URL and is present exactly when validation passed; a success means validation passed, the reply was status 200, and the record is the decode of its body; the cache left is the target check's when the base code was supported, otherwise the base check's |
| Client.PairConversionChecksBaseFirst | exchange_rate_client/_client.py:30-31 | an unsupported base code fails with "Base code X is not supported"; the target is not checked and no request beyond the base check's is made |
| Client.PairConversionPropagatesCheckFailure | exchange_rate_client/_client.py:30-34 | a failing base check, or a failing target check after a supported base, is returned unchanged as the operation's error, and only the checks' own requests are made |
| Client.PairConversionChecksTarget | exchange_rate_client/_client.py:33-34 | with the base code supported, an unsupported target fails with "Target code X is not supported", and only the two checks' requests are made |
| Client.PairConversionRejectsNegativeAmount | exchange_rate_client/_client.py:36-37 | with both codes supported, a negative amount fails with the ValueError and no pair request is made |
| Client.PairConversionSingleRequest | exchange_rate_client/_client.py:44-60 | once validation passes, the pair URL is requested exactly once; a time-out is reported as the single "timed out" error, with no retry |
| Client.PairConversionDecodesReply | exchange_rate_client/_client.py:47-58 | once validation passes, a status-200 reply whose body decodes gives exactly that record; a body that does not decode gives a validation error with a non-empty error list |
| Client.PairConversionReportsFailingReply | exchange_rate_client/_client.py:49-54 | once validation passes, a reply with any status but 200 fails, with the error its body classifies to |
| Client.PairUrlIsBuilt | exchange_rate_client/_client.py:39-42 | the f-string `{api_key_url}/pair/{base}/{target}`, with `/{amount}` appended only when an amount is given, is the path of segments key, `pair`, base, target[, amount] under the root |
| Client.PairPath | exchange_rate_client/_client.py:39-42 | the path of the pair segments is `/{key}/pair/{base}/{target}` followed by `/{amount}` only when an amount is given |
| Client.ExchangeRateV6Client.constructor | exchange_rate_client/_client.py:19-22 | a new client keeps its key, has no code cache and timestamp 0 |
| Client.ExchangeRateV6Client.UpdateSupportedCodesCache | exchange_rate_client/_client.py:71-91 | the in-place update of the two fields, the result and the request list are exactly those of `RefreshRun` on the old fields |
| Client.ExchangeRateV6Client.IsSupportedCode | exchange_rate_client/_client.py:62-69 | the answer, the new fields and the request list are exactly those of `CodeCheckRun` on the old fields |
| Client.ExchangeRateV6Client.PairConversion | exchange_rate_client/_client.py:24-60 | the result, the new fields and the request list, with the URL built by `+=`, are exactly those of `PairRun` on the old fields |
| Urls.ApiKeyUrl | exchange_rate_client/_client.py:93-94 | the account URL is the root followed by the single segment `/{api_key}` |
| Urls.SlashIndexAfterSegment | exchange_rate_client/_client.py:39-42 | in a path, the first slash after a segment without slashes marks that segment's end |
| Urls.SegmentsOfPath | exchange_rate_client/_client.py:39-42 | segments without slashes are recovered exactly from the URL path they make: one per parameter, in order, none empty unless given empty |
| Urls.PairUrlSegments | exchange_rate_client/_client.py:39-42 | under the root, the pair URL consists of exactly key, `pair`, base, target and, only when given, the amount |
| Urls.PairUrlIsNotCodesUrl | exchange_rate_client/_client.py:39 | a pair URL never equals the `codes` URL of the same key |
| Commons.MissingRequiredField | exchange_rate_client/commons.py:6-7 | an absent required field is reported as missing |
| Commons.SchemaErrorsIgnoreUnknownKeys | exchange_rate_client/commons.py:6-7 | validation errors depend only on the declared keys (`extra="ignore"`) |
| Commons.NoSchemaErrorsIffAllValid | exchange_rate_client/commons.py:6-7 | validation reports nothing exactly when every declared field is valid |
| Commons.DecodeExchangeRates | exchange_rate_client/commons.py:10-12 | decoding succeeds exactly when both declared fields are valid; `base_code` is kept; the rate map has exactly the input's keys, each with its number; a failure lists the errors in declaration order |
| Commons.DecodePairConversion | exchange_rate_client/commons.py:15-23 | decoding succeeds exactly when every declared field is valid; the three required values are kept; each of the four update-time fields and `conversion_result` is `None` exactly when it is absent or null, and independently of the others |
| Commons.DecodeAPIQuotaStatus | exchange_rate_client/commons.py:26-29 | decoding succeeds exactly when all three fields are integers, and keeps their values exactly |
| Commons.ExchangeRatesRoundTrip | exchange_rate_client/commons.py:10-12 | decoding a dumped record gives the record back |
| Commons.PairConversionDumpValid | exchange_rate_client/commons.py:15-23 | every declared field of a dumped pair record is valid |
| Commons.PairConversionRoundTrip | exchange_rate_client/commons.py:15-23 | decoding a dumped record gives the record back |
| Commons.APIQuotaStatusRoundTrip | exchange_rate_client/commons.py:26-29 | decoding a dumped record gives the record back |
| Commons.ExchangeRatesRequiredFields | exchange_rate_client/commons.py:11-12 | an absent `base_code` or `conversion_rates` makes decoding fail, reporting it missing |
| Commons.PairConversionRequiredFields | exchange_rate_client/commons.py:20-22 | an absent `base_code`, `target_code` or `conversion_rate` makes decoding fail, reporting it missing |
| Commons.APIQuotaStatusRequiredFields | exchange_rate_client/commons.py:27-29 | each absent quota field makes decoding fail, reporting it missing |
| Commons.ExchangeRatesIgnoresUnknownKeys | exchange_rate_client/commons.py:6-12 | two bodies that agree on the declared keys decode identically |
| Commons.PairConversionIgnoresUnknownKeys | exchange_rate_client/commons.py:6-23 | two bodies that agree on the declared keys decode identically |
| Commons.APIQuotaStatusIgnoresUnknownKeys | exchange_rate_client/commons.py:6-7 | two bodies that agree on the declared keys decode identically |

## Left out

- HTTP transport, `response.json()` and `time.time()` are inputs (`Reply`, `Probe`), not modelled code. A body that is not JSON, or not a JSON object, and network errors other than a time-out are not modelled. The 10-second timeout value is not modelled.
- Floating point: floats are exact reals. `Amount` carries both the amount's value and its URL text, because the text of `f"{amount}"` is not modelled. The `amount < 0` test on NaN is not modelled.
- Messages of unexpected error types: the model carries the raw `error-type` value. It does not render Python's `str()` of that value in the message.
- Commons decoders: of pydantic's lax coercions only int-to-float is modelled. Booleans and numeric strings for `int`/`float` fields, and floats with a zero fraction for `int` fields, are treated as wrong types. A bad value inside `conversion_rates` is reported as one error for the field, not one per key.
- `PairConversion.from_api_response` is called by `pair_conversion` but is not part of this model. The pair response is decoded by the field rules of `commons.py`.
- Client.CodeOfEntry: an entry of `supported_codes` that is a two-key JSON object is treated as malformed. Python would take its first key in insertion order, which a map does not keep.
- `PlanUpgradeRequiredError` and `NoDataAvailableError` are declared, but no modelled code raises them.
- `fetch_standard_response`, `fetch_quota_info`, and the enriched and historical endpoints are not part of the client source. `StandardResponse`, `TargetData`, `EnrichedData`, `HistoricalData` and `_open` are not part of this model either; the package's export list refers to them.
- Concurrency: the check-then-refresh sequence is modelled for one caller only.
