# Food-photo nutrition analysis endpoint — a Dafny model

The service takes a photo of a meal, encoded as a base64 data URL, and asks a vision
model (Gemini, or OpenAI when configured) to estimate what is on the plate. It answers
with a bounded nutrition record: name, calories, protein, carbs, fats, health score,
confidence and warnings. There are two versions of the endpoint.

- `api/vision/analyze.ts` is the production handler. It checks the method. It verifies
  the caller's Supabase JWT. It validates the body and the image type, and it caps the
  decoded size at 3 MB. It charges a per-user daily quota, and a per-network quota, in
  one atomic database call made *before* the model is called. It writes audit rows
  that hold only hashes of the user id and of the coarse network prefix. Most answers
  leave one row. A schema failure and an oversized upload leave none. A `rate_limited`
  or `success` insert that throws is followed by a second, `error`, row. It maps errors
  to 400, 413, 429, 502, 503 and 500.
- `api/vision/analyze.js` is the older proxy. It accepts any caller holding a shared
  secret. It uses a loose data-URL parser and makes one Gemini call.

The model is split into modules:

- `JsRuntime` (`js_runtime.dfy`): the JavaScript built-ins the handlers rely on. This
  covers dynamically typed values, `Number()` and `String()`, truthiness, `Math.round`,
  `indexOf`, `lastIndexOf`, `split`, `join` and `trim`.
- `Nutrition` (`nutrition.dfy`): `normalize`, the same code in both handlers.
- `JsonRecovery` (`json_recovery.dfy`): `extractJson` and the JavaScript handler's inline
  copy of it.
- `Payload` (`payload.dfy`): both `parseDataUrl` functions and the decoded-size guard.
- `Identity` (`identity.dfy`): the checks `verifyJwt` makes on a verified token.
- `Privacy` (`privacy.dfy`): client-address selection and `extractIpPrefix`.
- `TsHandler` (`ts_handler.dfy`): the TypeScript handler.
  - `Analyze` specifies one request as the response plus the ordered calls made to the
    outside world.
  - The class `ScanService` runs the same flow step by step. It keeps the call trace
    (`calls`) and the stored `scan_requests` rows (`auditLog`) as fields. Its methods are
    proved equal to the staged specification functions.
- `TsHandlerProps` (`ts_handler_props.dfy`) proves what the handler promises. This
  covers the status and audit-row table, quota before model, hashed identifiers only,
  and the rate-limit headers.
- `JsHandler` (`js_handler.dfy`): the JavaScript handler, as the function `JsAnalyze`
  and the method `HandleJs` proved equal to it, plus its properties.

Everything outside the code is an oracle, i.e. a function-typed parameter:

- `JSON.parse`;
- the zod schema;
- `jose`'s signature, issuer and audience check;
- SHA-256;
- the settings read;
- the `check_rate_limit` procedure;
- the provider's reply;
- the audit insert.

Where the handler's stated intent and its code differ, the model follows the code:

- A provider timeout or network failure is not an `UpstreamError` in the code. Neither
  is a reply text that `extractJson` cannot recover. All of these are answered 500
  ("Analysis failed"), not 502. See `TsHandlerProps.ModelFailures`.
- The audit insert is swallowed only on the limiter-failure path and in the catch block.
  When the `rate_limited` or `success` insert throws, the error reaches the catch block,
  which logs an `error` row and answers 500. See `TsHandlerProps.RefusedScan` and
  `TsHandlerProps.SuccessLogFailureIs500`.
- A schema failure (400 with details) and an oversized upload (413) write no audit row.
  A data-URL error writes an `error` row and is answered 400 without details. See
  `TsHandlerProps.LogTable`.
- A `check_rate_limit` answer of `null` makes `rateResult.allowed` throw a `TypeError`
  outside the limiter's own catch. It is answered 500, not 503.
- `normalize` is meant to be total, but `String()` and `Number()` throw a `TypeError`
  for an object with a `toString` key of its own, which JSON can produce
  (`{"name": {"toString": 0}}`). The same holds for an array holding such an object. A
  model reply like that makes `normalize` throw. The TypeScript handler then answers 500
  after an `error` row; the JavaScript one answers 500 with the conversion's message.
  See `Nutrition.OwnToStringThrows`, `TsHandlerProps.ModelFailures` and
  `JsHandler.JsModelFailures`.
- The JavaScript handler returns the error message to the client. For a failed Gemini
  call this includes the upstream status and body text. See
  `JsHandler.JsModelFailures`.

## Model

| member | source | states |
|---|---|---|
| JsRuntime.ParseResult | api/vision/analyze.ts:180 | `JSON.parse` succeeds exactly when the text parses, with the parsed value; a failure is a `SyntaxError` carrying the parser's message |
| JsRuntime.Round | api/vision/analyze.ts:160 | `Math.round` gives the integer nearest to the input, with halves rounded up |
| JsRuntime.IndexOf | api/vision/analyze.ts:182 | the first position of the character, or -1 exactly when it is absent |
| JsRuntime.LastIndexOf | api/vision/analyze.ts:183 | the last position of the character, or -1 exactly when it is absent |
| JsRuntime.Split | api/vision/analyze.ts:121 | `split` gives one more part than there are separators; no part holds a separator; joining the parts gives back the input |
| JsRuntime.CutIndex | api/vision/analyze.ts:122 | the cut position for keeping `n` parts lies at a separator (or at the end) with exactly `min(n-1, count)` separators before it |
| JsRuntime.JoinFirstPieces | api/vision/analyze.ts:122 | `parts.slice(0, n).join(sep)` is the input's prefix up to the cut position |
| JsRuntime.Trim | api/vision/analyze.ts:444 | `trim` leaves no white space at either end and adds no character |
| Nutrition.ToInt | api/vision/analyze.ts:160 | `toInt` throws the conversion `TypeError` exactly for a value `Number()` cannot convert (an object with its own `toString` key, or an array holding one); otherwise it gives a non-negative whole number: 0 for non-numeric or non-positive input, else the nearest integer |
| Nutrition.ToFloat | api/vision/analyze.ts:161-162 | `toFloat` throws the same `TypeError` for the same values; otherwise it clamps the number to [0, 1], with 0 for non-numeric input |
| Nutrition.Normalize | api/vision/analyze.ts:159-176 | throws the conversion `TypeError` exactly when the name, a numeric field or an array of warnings cannot be converted; otherwise every numeric field is coerced as above, the name falls back to `Unknown` when falsy, and warnings are the string forms of an array's items, or empty; `normalizeResult` in `api/vision/analyze.js` (lines 11-27) is the same code |
| Nutrition.NormalizeValue | api/vision/analyze.ts:159-176 | `normalize` throws a `TypeError` exactly when the parsed JSON is null or undefined or one of its conversions throws |
| Nutrition.NormalizeEncode | api/vision/analyze.ts:164-175 | normalising the JSON form of a well-formed record gives the record back |
| Nutrition.NormalizeIsNormalForm | api/vision/analyze.ts:164-175 | `normalize` is idempotent through JSON whenever the name it produced is not empty |
| Nutrition.StringWarningsKept | api/vision/analyze.ts:172-174 | an array of string warnings passes through unchanged |
| Nutrition.ToIntOfWhole | api/vision/analyze.ts:160 | a non-negative integer is its own coercion |
| Nutrition.OwnToStringThrows | api/vision/analyze.ts:164-171 | a name or numeric field holding an object with its own `toString` key makes `normalize` throw the conversion `TypeError` |
| Nutrition.OwnToStringWarningThrows | api/vision/analyze.ts:172-174 | so does such an object among the warnings |
| Nutrition.EmptyArrayName | api/vision/analyze.ts:165 | the `Unknown` default does not guarantee a non-empty name: an empty array is truthy and prints as "" |
| JsonRecovery.BraceSlice | api/vision/analyze.ts:182-186 | a slice exists exactly when some `{` precedes some `}`; it runs from the first `{` to the last `}` |
| JsonRecovery.SliceOfWrapped | api/vision/analyze.ts:182-185 | prose without braces around a braced body slices to exactly that body |
| JsonRecovery.ExtractJson | api/vision/analyze.ts:178-189 | the direct parse wins. Otherwise the braced slice is parsed, or a plain `Error` is thrown when there is no slice. Errors are only plain errors or `SyntaxError`s |
| JsonRecovery.ProseAroundObject | api/vision/analyze.ts:178-189 | a reply of prose around one JSON object yields that object, in both handlers |
| JsonRecovery.GeminiFallback | api/vision/analyze.js:104-113 | the same recovery, but without a slice the original `SyntaxError` is rethrown |
| JsonRecovery.FallbacksAgree | api/vision/analyze.js:104-113 | both recoveries succeed on the same texts with the same value; they differ only on texts that neither parse nor hold a braced span |
| Payload.MatchStrict | api/vision/analyze.ts:133-136 | a match splits the input into `data:`, a non-empty mime type without `;`, `;base64,` and a non-empty payload |
| Payload.MatchStrictFormatted | api/vision/analyze.ts:133 | every such URL matches and gives back its parts |
| Payload.ParseDataUrl | api/vision/analyze.ts:132-146 | accepts only allow-listed types, with the match's parts; every refusal is a `ValidationError`, and a string that does not match is refused with the invalid-data-URL message |
| Payload.ParseFormatted | api/vision/analyze.ts:132-146 | every jpeg, png or webp URL with a payload is accepted whole |
| Payload.RejectsOtherMime | api/vision/analyze.ts:139-143 | a well-shaped URL of another type is refused with the message naming that type |
| Payload.GifRejected | api/vision/analyze.ts:14-18 | a GIF is refused |
| Payload.DecodedSize | api/vision/analyze.ts:474 | `ceil(len * 3 / 4)`: the least `n` with `4n >= 3 len` |
| Payload.TooLargeThreshold | api/vision/analyze.ts:474-478 | the size guard fires exactly for payloads over 4 MiB of base64 text |
| Payload.CeilingBoundary | api/vision/analyze.ts:11 | a payload decoding to exactly 3 MiB passes and one byte more is refused |
| Payload.LastMarker | api/vision/analyze.js:4 | the greedy mime group backs off to the last `;base64,` that leaves a payload |
| Payload.ParseDataUrlLoose | api/vision/analyze.js:3-9 | accepts exactly the single-line `data:` URLs with a marker that leaves a non-empty type and payload; splits at the last marker; any other input is `Error('Invalid data URL')` |
| Payload.OnlyMarkerAfterMime | api/vision/analyze.js:4 | with no `;` in the payload, the marker after the mime type is the last one |
| Payload.LooseAcceptsAnyMime | api/vision/analyze.js:3-9 | any single-line mime type is accepted, as there is no allow-list |
| Payload.LooseAcceptsGif | api/vision/analyze.js:3-9 | a GIF passes the loose parser |
| Payload.StrictImpliesLoose | api/vision/analyze.js:4 | on single-line URLs whose payload has no `;`, the loose parser agrees with the strict one wherever the strict one accepts |
| Identity.VerifyJwt | api/vision/analyze.ts:79-102 | succeeds exactly for a `Bearer ` header whose token verifies with role `authenticated` and a non-empty `sub`, which it returns; a malformed header, a wrong role and a missing `sub` are `AuthError`s, each with its own message; a rejection by the verifier is a plain error with the verifier's message |
| Privacy.ExtractIpPrefix | api/vision/analyze.ts:119-126 | a dotted address keeps its text up to the third dot plus `.0/24`; any other address keeps its text up to the fourth colon plus `::/56` |
| Privacy.IpPrefixIdempotent | api/vision/analyze.ts:119-126 | a prefix whose address had at least three parts or groups is its own prefix |
| Privacy.Ipv4KeepsThreeParts | api/vision/analyze.ts:120-122 | `a.b.c.rest` becomes `a.b.c.0/24` |
| Privacy.Ipv6KeepsFourGroups | api/vision/analyze.ts:124-125 | `a:b:c:d:rest` becomes `a:b:c:d::/56` |
| Privacy.ClientIp | api/vision/analyze.ts:442-444 | the trimmed first comma-separated entry of `x-forwarded-for`, which holds no comma, or else the socket address, or else `unknown` |
| TsHandler.AdmitStep | api/vision/analyze.ts:456-478 | a body goes on only with an allow-listed type within the size cap, and no check before the quota touches the outside world |
| TsHandler.ReplyValue | api/vision/analyze.ts:323-331 | a non-2xx status and an empty text are `UpstreamError`s; the only other way to an `UpstreamError` is a thrown reply carrying one, which stands for nothing in the source |
| TsHandler.InferenceStep | api/vision/analyze.ts:528-538 | the model is called exactly once, with the caller's provider and model and the upload's type and payload |
| TsHandler.StoredRowsAppend | api/vision/analyze.ts:252 | the stored rows of a concatenated trace are the two parts' rows in order |
| TsHandler.LoggedAppend | api/vision/analyze.ts:252 | the same for the statuses of attempted inserts |
| TsHandler.ScanService.LogRequest | api/vision/analyze.ts:240-253 | one insert is recorded; the row is appended to the table exactly when the insert does not throw |
| TsHandler.ScanService.CheckQuota | api/vision/analyze.ts:481-526 | the quota stage, step by step, equals `QuotaStep` and appends its calls |
| TsHandler.ScanService.ConsultLimiter | api/vision/analyze.ts:484-526 | once the setting is read, the quota call and what follows it equal `QuotaStep`, after the setting read |
| TsHandler.ScanService.RefuseScan | api/vision/analyze.ts:505-526 | a refused scan stores its `rate_limited` row before the 429, and equals `QuotaStep` |
| TsHandler.ScanService.RunInference | api/vision/analyze.ts:528-538 | the model call and `normalize` equal `InferenceStep` and append one model call |
| TsHandler.ScanService.RecordSuccess | api/vision/analyze.ts:541-557 | the `success` row and the 200 answer equal `SuccessStep` |
| TsHandler.ScanService.Complete | api/vision/analyze.ts:528-557 | everything after a granted quota equals `Completion` |
| TsHandler.ScanService.Meter | api/vision/analyze.ts:480-557 | everything from the quota on equals `Metered` |
| TsHandler.ScanService.RunAttempt | api/vision/analyze.ts:454-557 | the try block equals `Attempt` |
| TsHandler.ScanService.Handle | api/vision/analyze.ts:416-586 | the response equals `Analyze`'s; the calls are appended in order; the table grows by exactly the rows whose inserts succeeded |
| TsHandlerProps.QuotaLogs | api/vision/analyze.ts:481-526 | the quota stage goes on only when granted, with nothing logged. It answers 503 with a `limiter_error` row, or 429 with a `rate_limited` row and rate headers. Otherwise it throws |
| TsHandlerProps.CompletionLogs | api/vision/analyze.ts:528-557 | after a granted quota: 200 with one `success` row and the verdict's headers, or an error with no row, or the `success` insert's own error |
| TsHandlerProps.MeteredLogs | api/vision/analyze.ts:480-557 | the statuses from the quota on, with their rows, and rate headers exactly on 200 and 429 |
| TsHandlerProps.AttemptLogs | api/vision/analyze.ts:454-557 | the try block's own answers: 400 and 413 without any call; 503, 429 and 200 with their rows; headers exactly on 200 and 429 |
| TsHandlerProps.LogTable | api/vision/analyze.ts:454-585 | the handler answers only 200, 400, 401, 405, 413, 429, 500, 502 or 503, each with the audit rows listed for it |
| TsHandlerProps.EarlyExits | api/vision/analyze.ts:421-439 | non-POST is 405; a POST is 401 exactly when token verification throws, with the `AuthError`'s message or `Unauthorized`; neither makes any call |
| TsHandlerProps.RejectedTokens | api/vision/analyze.ts:80-99 | a malformed header, a wrong role or a missing `sub` is 401 with no call |
| TsHandlerProps.QuotaDisciplined | api/vision/analyze.ts:481-526 | the quota stage goes on only after the setting read and a granting quota call with the right arguments |
| TsHandlerProps.CompletionDisciplined | api/vision/analyze.ts:528-557 | after the quota there is one model call, then only inserts of the caller's hashed rows |
| TsHandlerProps.MeteredDisciplined | api/vision/analyze.ts:480-557 | the trace from the quota on keeps hashed rows, correct quota arguments, and the model call after the grant |
| TsHandlerProps.AttemptDisciplined | api/vision/analyze.ts:454-557 | the try block's trace keeps hashed rows, correct quota arguments, and the model call after the grant, on every path |
| TsHandlerProps.AnalyzeDisciplined | api/vision/analyze.ts:416-586 | the same for a whole request, and a request refused before the try block makes no call |
| TsHandlerProps.DisciplinedAppend | api/vision/analyze.ts:564-572 | the catch block's `error` row keeps that discipline |
| TsHandlerProps.QuotaBeforeModel | api/vision/analyze.ts:480-536 | a model call is always the third call: after the setting read and after a quota call that granted the scan |
| TsHandlerProps.QuotaArguments | api/vision/analyze.ts:211-238 | the quota call carries the verified subject, the hashed network prefix, the stored limit or 5, and 20 per network |
| TsHandlerProps.RowsCarryOnlyHashes | api/vision/analyze.ts:449-452 | every audit row identifies the caller only by the hashes of the subject and of the network prefix |
| TsHandlerProps.MalformedBodyIs500 | api/vision/analyze.ts:457 | a body that is not JSON is 500 with one `error` row |
| TsHandlerProps.UnsupportedImageRefused | api/vision/analyze.ts:471 | a well-shaped URL of a type outside the allow-list is 400 with the type named, one `error` row and no model call |
| TsHandlerProps.GifRefused | api/vision/analyze.ts:14-18 | a GIF upload is answered 400 with the unsupported-type message naming `image/gif`, and never reaches the model |
| TsHandlerProps.OversizedUploadIs413 | api/vision/analyze.ts:474-478 | an accepted URL over the cap is 413 with no call and no row |
| TsHandlerProps.SchemaFailureIs400 | api/vision/analyze.ts:458-466 | a body that fails the schema is answered 400 `Validation failed` with the issue messages, with no call and no row |
| TsHandlerProps.WithinCapAdmitted | api/vision/analyze.ts:473-478 | an allowed URL of at most 4 MiB of base64 (at most 3 MiB decoded) passes the size guard and goes on to the quota as parsed, so the guard answers 413 exactly above the cap |
| TsHandlerProps.LimiterOutageIs503 | api/vision/analyze.ts:490-503 | a settings read or quota call that throws is 503 with one `limiter_error` row |
| TsHandlerProps.AnalyzeAuthorized | api/vision/analyze.ts:454-586 | for an authorised POST, the outcome is the try block's, with an `error` row and the catch mapping when the block throws |
| TsHandlerProps.QuotaRefusal | api/vision/analyze.ts:505-526 | a refusal logs `rate_limited` and answers 429 with the verdict's numbers and headers, or throws the insert's error |
| TsHandlerProps.RefusedScan | api/vision/analyze.ts:505-526 | over quota: 429 with limit, used and remaining `max(0, limit - used)` and one `rate_limited` row; if that insert throws, 500 with rows `rate_limited` then `error` |
| TsHandlerProps.InferenceErrors | api/vision/analyze.ts:323-376 | how each provider reply ends the model stage: `UpstreamError` for a non-2xx status or an empty text, the thrown error passed on, `extractJson`'s errors, or `normalize`'s `TypeError` for a JSON `null` or a reply it cannot convert |
| TsHandlerProps.GrantedThenFailed | api/vision/analyze.ts:528-538 | a failing model stage after a granted quota throws its own error with no row yet written |
| TsHandlerProps.ModelFailures | api/vision/analyze.ts:558-585 | 502 for a non-2xx provider status or an empty reply; 500 for a thrown non-upstream error, an unrecoverable text, a JSON `null`, or a reply `normalize` cannot convert; each with one `error` row |
| TsHandlerProps.CompletionSuccess | api/vision/analyze.ts:538-557 | a completed stage carries the normalised model output and the verdict's headers |
| TsHandlerProps.Metered200 | api/vision/analyze.ts:538-557 | a 200 follows a granted quota |
| TsHandlerProps.Analyze200 | api/vision/analyze.ts:538-557 | a 200 follows an admitted upload |
| TsHandlerProps.SuccessIs200 | api/vision/analyze.ts:538-557 | a granted quota, a reply that normalises and a stored `success` row give 200 with the normalised record and the verdict's headers, after exactly the setting read, the quota call, the model call and that row |
| TsHandlerProps.SuccessRecordsResult | api/vision/analyze.ts:538-557 | a 200 carries the normalised model output, with bounded figures. Its one `success` row records that output's calories and confidence |
| TsHandlerProps.CompletionLogFailure | api/vision/analyze.ts:542-550 | a throwing `success` insert ends the stage with that insert's error |
| TsHandlerProps.MeteredLogFailure | api/vision/analyze.ts:542-550 | after a granted quota, a throwing `success` insert makes the stage throw a plain error with only the `success` row attempted |
| TsHandlerProps.SuccessLogFailureIs500 | api/vision/analyze.ts:542-550 | a throwing `success` insert turns a finished analysis into 500 with rows `success` then `error` |
| TsHandlerProps.MeteredHeaders | api/vision/analyze.ts:515-556 | from the quota on, rate headers sent with an answer come from the second call, a quota call that returned a verdict, and are that verdict's limit and `max(0, limit - count)` |
| TsHandlerProps.RateHeadersRule | api/vision/analyze.ts:515-556 | rate headers are sent exactly with 200 and 429, with remaining never negative |
| JsHandler.FailureMessage | api/vision/analyze.js:141 | a 500's message is the error's own when it is not empty, else `Internal error`; it is never empty |
| JsHandler.HandleJs | api/vision/analyze.js:116-143 | the handler, step by step, answers and calls Gemini exactly as `JsAnalyze` |
| JsHandler.JsGuards | api/vision/analyze.js:117-126 | non-POST is 405; a POST without the configured non-empty secret is 401; statuses are only 200, 400, 401, 405 and 500 |
| JsHandler.UnsetSecretRejectsAll | api/vision/analyze.js:122-126 | with no secret configured, or none sent, every POST is 401 |
| JsHandler.ImageRequired | api/vision/analyze.js:129-134 | a body without a non-empty string `image_base64` is 400 with no Gemini call |
| JsHandler.JsFailuresCarryMessage | api/vision/analyze.js:140-142 | every 500 carries a non-empty message |
| JsHandler.JsEarlyFailures | api/vision/analyze.js:129-136 | an unparsable string body and an invalid data URL are 500 with their messages and no Gemini call |
| JsHandler.JsModelFailures | api/vision/analyze.js:92-113 | a non-2xx Gemini status is 500 with the upstream status and body text; an empty reply is 500 with its message; a text the fallback cannot recover is 500 with the rethrown `SyntaxError`'s message (the original parse's without a braced span, the slice's with one); a JSON `null` is 500 with the null-read message; a reply `normalizeResult` cannot convert is 500 with the conversion's message; an error thrown by the fetch is 500 with its own message |
| JsHandler.JsSuccess | api/vision/analyze.js:137-139 | a 200 carries the normalised Gemini output, with bounded figures |
| JsHandler.JsSuccessIs200 | api/vision/analyze.js:128-139 | a request whose body, image, data URL, Gemini reply and `normalizeResult` all succeed is answered 200 with the normalised record after one Gemini call |
| JsHandler.JsSuccessReachable | api/vision/analyze.js:115-139 | a concrete PNG request with the configured secret, answered `{}` by Gemini, gets 200 with the `Unknown` record of zero figures |
| JsHandler.JsForwardsAnyMime | api/vision/analyze.js:136-137 | any single-line mime type, with a single-line payload that holds no `;`, is forwarded to Gemini as sent |
| JsHandler.JsForwardsGif | api/vision/analyze.js:3-9 | a GIF upload reaches Gemini |

## Left out

- Numbers are exact rationals. IEEE-754 rounding, infinities, `-0`, and `Math.round` on huge values are not modelled.
- `Number()` of a string accepts plain signed decimals only. Exponents, hex, `Infinity` and other literal forms become NaN.
- `String()` of a non-integer prints up to twenty fractional digits. JavaScript's shortest round-trip form and its exponent form are not modelled.
- Lengths count characters, not UTF-16 code units. `toLowerCase` lowers ASCII letters only, which is enough to recognise `openai`.
- JsRuntime.Trim: the contract states only that both ends are free of white space and that no character is added. That the result is the exact middle slice is left to its body.
- Nutrition.NormalizeIsNormalForm: stated for inputs that `normalize` accepts, and needs a non-empty name. An empty array or empty string name breaks the fixed point (see `EmptyArrayName`).
- Privacy.IpPrefixIdempotent: stated only for addresses with at least three dot-parts, or at least four colon-groups. Shorter inputs gain parts when the suffix is appended.
- The JWT signature, issuer and audience check, and the remote key-set cache, are an oracle that either rejects the token or yields its `role` and `sub`.
- `SUPABASE_URL`, `SUPABASE_SERVICE_ROLE_KEY` and `AI_API_KEY`, read by `getEnv`, are assumed present, so the model does not capture what happens when one is missing:
  - a missing `SUPABASE_URL` throws inside `verifyJwt` (api/vision/analyze.ts:85), so every POST with a well-formed header is answered 401 `Unauthorized`;
  - a missing `AI_API_KEY` throws at api/vision/analyze.ts:529, inside the try block and after the quota is charged, so every granted request stores an `error` row and is answered 500;
  - a missing `SUPABASE_SERVICE_ROLE_KEY` throws from `getSupabase()` at api/vision/analyze.ts:441, outside any try block.
- The atomicity and concurrency of the `check_rate_limit` database procedure are not modelled. Its answer is an oracle per call.
- The stored setting is taken to be an integer. The limiter's `allowed`, `subject_count` and `subject_limit` are taken to be well typed.
- The audit insert is an oracle that either stores the row or throws. Database errors reported in supabase-js's returned `error` field are ignored by `logRequest`, so they count as stored.
- The `latency_ms` column and `Date.now` are not modelled. Neither is `console.error`.
- `readBody`, `sendJson` and the response headers other than the two rate-limit headers are not modelled. The response is a value.
- A `Threw` reply of the model oracle may carry any exception class, but the fetch and its abort at api/vision/analyze.ts:310-376 throw neither an `UpstreamError` nor a `ValidationError`. Such a reply stands for nothing in the source, and `TsHandlerProps.ModelFailures` states the thrown case only for the other classes.
- Request construction for Gemini and OpenAI is not modelled. This covers the prompt, the response schema, the API key, the endpoint URLs and the 15-second abort. Only the reply, or the error thrown, is modelled.
- The zod schema, `Date.parse` and `JSON.parse` are oracles. SHA-256 is uninterpreted.
- Header arrays are reduced to their first element. In the JavaScript handler, an array-valued `x-app-secret` is not modelled.
- The retention job `api/maintenance/purge.ts` is not part of this model.
