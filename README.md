# Maiths backend adapter — a verified Dafny model

This project models `MaithsBackendService`, the object the Maiths chat front end
uses to reach its chat backend. It models the following:

- **Sending a message.** `sendMessage` trims the user's text and stamps it with a
  time and a user id. It POSTs the result to the candidate routes `/chat`,
  `/api/chat`, `/message` and `/ask`, in that order, and stops at the first
  response whose data is truthy.
- **Reading the reply.** The reply is the first truthy field among `response`,
  `message`, `content`, `reply` and `text`. Failing that, it is a bare string
  body, and failing that, the JSON serialization of the body. An empty reply is
  replaced by a fixed fallback sentence.
- **Never failing.** Every failure is caught. The caught error is turned into one
  of four fixed apologies, in this precedence: connection refused, then HTTP 404,
  then HTTP 500, then everything else. So `sendMessage` never rejects.
- **The health flag.** A response interceptor sets `isBackendHealthy` on every
  successful HTTP exchange and clears it on every failed one. The `/health` probe
  does the same. `isHealthy` runs the probe and returns the flag;
  `getBackendInfo` returns the base URL and the flag.

The transport is abstract. `outcomes[i]` is what a POST to the i-th candidate
route would produce: a response with its data, or a thrown error. Only the
outcomes of candidates actually attempted are observed. Clock readings
(`new Date().toISOString()`, `Date.now()`) are parameters.

Files:

- `wrappers.dfy`: `Option` and `Result`.
- `js_string.dfy`: `String.prototype.trim`, as in section 22.1.3.32 of ECMA-262.
  It removes WhiteSpace and LineTerminator code points from both ends.
- `maiths_backend.dfy`: the following parts.
  - The exchanged values.
  - Reply extraction and error classification, as functions.
  - The fan-out specification (`Attempts`, `LastOk`, `LastErr`, `ReplyOf`) and
    lemmas about it.
  - The class `BackendService`. Its methods update the health flag. A ghost
    history of the exchanges holds the invariant that the flag is the outcome of
    the most recent exchange.

Three behaviours of the adapter are easy to miss:

- **Empty input is sent, not rejected.** The adapter does not reject an empty or
  blank message. It sends the trimmed (possibly empty) text. The guard against
  empty input is in the React component (`src/App.tsx:40`), which is not part of
  this model.
- **Falsy data does not stop the loop.** The loop stops only on a response with
  truthy data. A response with falsy data (`""` or `null`) does not stop it, and
  that data is kept even when later candidates throw.
  - Null data then makes the field read throw a TypeError, which ends in the
    generic apology.
  - Empty-string data ends in the fallback sentence.
- **Only the last error is classified.** When every candidate throws, only the
  last error is classified. The route-not-found apology therefore means that the
  last route's error was a 404, whatever the earlier routes answered.

## Model

| member | source | states |
|---|---|---|
| JsString.TrimStartSpec | src/services/maithsBackend.ts:78 | Trimming the start leaves a suffix whose first character is not whitespace; everything removed was whitespace. |
| JsString.TrimEndSpec | src/services/maithsBackend.ts:78 | Trimming the end leaves a prefix whose last character is not whitespace; everything removed was whitespace. |
| JsString.TrimIsSlice | src/services/maithsBackend.ts:78 | The trimmed message is a contiguous slice of the input, with only whitespace on either side and no whitespace at its ends. |
| JsString.TrimIdempotent | src/services/maithsBackend.ts:78 | Trimming twice gives the same text as trimming once. |
| JsString.TrimEmptyIffBlank | src/services/maithsBackend.ts:78 | The trimmed message is empty exactly when the input is all whitespace (including the empty input). |
| JsString.Trim | src/services/maithsBackend.ts:78 | The message sent is the input with the leading whitespace and then the trailing whitespace removed, and it is never longer than the input. TrimIsSlice characterises it fully. |
| MaithsBackend.Truthy | src/services/maithsBackend.ts:114-122 | A field test succeeds exactly when the field is present and is a non-empty string. |
| MaithsBackend.DataTruthy | src/services/maithsBackend.ts:96 | Response data is truthy exactly when it is an object or a non-empty string. Null and the empty string are falsy. |
| MaithsBackend.IsHit | src/services/maithsBackend.ts:94-99 | An attempt ends the loop exactly when the POST returned and its data is truthy. |
| MaithsBackend.BackendService.Valid | src/services/maithsBackend.ts:22-71 | The health flag is true exactly when at least one exchange has happened and the most recent one succeeded. It starts false, and the interceptor and the probe each set it from the exchange just made. |
| MaithsBackend.Lookup | src/services/maithsBackend.ts:114-123 | A field is absent exactly when no pair has that key; otherwise its value is that of the last pair with that key, as JSON.parse keeps it. |
| MaithsBackend.Stringify | src/services/maithsBackend.ts:126-128 | The serialization of an object body is non-empty and enclosed in braces, so it is never falsy. |
| MaithsBackend.ExtractObject | src/services/maithsBackend.ts:113-129 | The reply read from an object body is never empty. |
| MaithsBackend.ExtractObjectPriority | src/services/maithsBackend.ts:113-123 | When the k-th of response, message, content, reply, text is the first truthy field, the reply is its value, whatever the later fields hold. |
| MaithsBackend.ExtractObjectStringifies | src/services/maithsBackend.ts:126-129 | When none of the five fields is truthy, the reply is the serialization of the body. |
| MaithsBackend.UnknownShapeSerialized | src/services/maithsBackend.ts:126-129 | The body {"foo":"bar"} yields the reply text {"foo":"bar"}. |
| MaithsBackend.Extract | src/services/maithsBackend.ts:110-129 | Extraction fails exactly on null data, with a non-axios error. A bare string body is the reply unchanged. Truthy data always yields a non-empty reply. |
| MaithsBackend.WithFallback | src/services/maithsBackend.ts:131-134 | A non-empty extracted reply is kept exactly. Only an empty one is replaced by the fallback sentence. |
| MaithsBackend.Classify | src/services/maithsBackend.ts:139-164 | The apology is connection-refused iff the error is an axios error with code ECONNREFUSED. It is route-not-found iff the error is an axios error, not ECONNREFUSED, with status 404. It is server-fault likewise with status 500. Otherwise, including every non-axios error, it is technical-difficulties. |
| MaithsBackend.Render | src/services/maithsBackend.ts:131-164 | The reply text is never empty, and a text read from the backend is passed through unchanged. |
| MaithsBackend.RenderDistinguishesFixedTexts | src/services/maithsBackend.ts:132-162 | The fallback sentence and the four apologies are five pairwise-distinct texts. |
| MaithsBackend.Attempts | src/services/maithsBackend.ts:91-105 | The attempts made are a non-empty prefix of the candidates. Every attempt before the last is not a hit, and the loop stops early only at a hit. |
| MaithsBackend.LastOk | src/services/maithsBackend.ts:88-94 | The kept response is absent exactly when every attempt so far threw. |
| MaithsBackend.LastErr | src/services/maithsBackend.ts:89-103 | The last error is absent exactly when every attempt so far returned. |
| MaithsBackend.LastOkIsLast | src/services/maithsBackend.ts:88-104 | The kept response is the data of an attempt that returned, and every later attempt threw (a throw never clears it). |
| MaithsBackend.LastErrIsLast | src/services/maithsBackend.ts:89-104 | The last error is that of an attempt that threw, and every later attempt returned. |
| MaithsBackend.Settle | src/services/maithsBackend.ts:105-165 | The code after the loop never yields an empty backend text. |
| MaithsBackend.ReplyOf | src/services/maithsBackend.ts:75-165 | The reply sendMessage resolves to never holds an empty backend text. |
| MaithsBackend.AttemptsAt | src/services/maithsBackend.ts:91-105 | The number of attempts is one past the position of the first hit, or all candidates when there is no hit. |
| MaithsBackend.FirstHitWins | src/services/maithsBackend.ts:91-99 | With the first hit at candidate k, exactly k+1 candidates are attempted and the reply is the text read from that hit's data, whatever earlier attempts did. |
| MaithsBackend.LaterCandidatesIgnored | src/services/maithsBackend.ts:96-99 | The outcomes of candidates after the first hit change neither the attempts nor the reply. |
| MaithsBackend.AllThrowLastErrorClassified | src/services/maithsBackend.ts:100-106 | When every attempt throws, all candidates are attempted. The reply classifies the last candidate's error, or "All endpoints failed" when there are no candidates. |
| MaithsBackend.NoHitRetainsFalsyData | src/services/maithsBackend.ts:94-114 | Without a hit, kept falsy data survives later throws. Null data ends in the technical-difficulties apology; empty-string data ends in the fallback sentence. |
| MaithsBackend.BackendTextComesFromHit | src/services/maithsBackend.ts:91-134 | A backend text in the reply always comes from the data of a candidate that answered truthy data. |
| MaithsBackend.ThirdRouteAnswers | src/services/maithsBackend.ts:86-123 | With 404, 404, then {"reply":"hi there"}, exactly /chat, /api/chat and /message are attempted and the reply is "hi there". |
| MaithsBackend.NoRouteFound | src/services/maithsBackend.ts:100-152 | When every route answers 404, the reply is the route-not-found apology. |
| MaithsBackend.ReplyTextNonEmpty | src/services/maithsBackend.ts:131-165 | The text sendMessage resolves to is never empty. |
| MaithsBackend.BackendService.constructor | src/services/maithsBackend.ts:20-31 | A new adapter has the configured base URL, has seen no exchange and is not healthy. |
| MaithsBackend.BackendService.Observe | src/services/maithsBackend.ts:46-57 | The response interceptor records the exchange and sets the flag to whether it succeeded. |
| MaithsBackend.BackendService.CheckBackendHealth | src/services/maithsBackend.ts:63-73 | The /health probe is recorded as one exchange, and the flag becomes its success. |
| MaithsBackend.BackendService.IsHealthy | src/services/maithsBackend.ts:169-176 | isHealthy returns the probe's outcome, which is also the new flag. |
| MaithsBackend.BackendService.GetBackendInfo | src/services/maithsBackend.ts:179-184 | getBackendInfo returns the base URL and the current flag. That flag is true exactly when the most recent exchange succeeded. |
| MaithsBackend.BackendService.FanOut | src/services/maithsBackend.ts:86-105 | The loop attempts exactly the prefix of candidates up to the first hit, in order, and each attempt passes through the interceptor. The `response` and `lastError` locals end as the last returned data and the last thrown error. |
| MaithsBackend.BackendService.SendMessage | src/services/maithsBackend.ts:75-166 | The request carries the trimmed text, even when empty, and at least /chat is attempted. Candidates are attempted in order up to the first hit. The flag ends as the outcome of the last attempt. The reply is the rendering of ReplyOf, and it is never empty. |

## Left out

- HTTP transport: the axios client, its JSON headers and its timeout from configuration. Each POST and GET is an abstract outcome.
- The request interceptor (`src/services/maithsBackend.ts:34-43`): it only logs.
- Console logging throughout. It has no observable effect on results.
- Clock readings: `new Date().toISOString()` and `Date.now()` are parameters of `SendMessage`.
- MaithsBackend.BackendService.constructor: it does not run the startup health probe, because that probe is asynchronous and settles at an unknown later time. A client of the model calls `CheckBackendHealth` to represent it.
- Concurrency: interleaving of overlapping sends and probes, each of which overwrites the shared flag.
- MaithsBackend.Stringify: its contract guarantees only a braced, non-empty text. Its body reproduces JSON.stringify's exact text only for distinct, non-integer-like keys whose keys and values need no escaping. It prints every pair, including a repeated key, whereas the parsed object holds one property per key, in its first position with its last value. It keeps the input order, whereas JavaScript puts integer-like keys first, in ascending order.
- MaithsBackend.Lookup: field values are strings only. Numbers, booleans, arrays and nested objects as field values are not modelled, so a field's truthiness is reduced to "present and non-empty".
- MaithsBackend.Body: the whole response data is only null, a string or an object — never a number, boolean or array. In the program, kept falsy data such as `0` or `false` is not a hit, yet line 128 of `src/services/maithsBackend.ts` turns it into the reply `"0"` or `"false"`. The model has no such data, so `BackendTextComesFromHit` holds only for the three shapes modelled.
- Axios errors are reduced to their `code` and `response.status`. Their other properties (message, config, request) are not modelled, because classification does not read them.
- The singleton export, the configuration module (`src/config/index.ts`), the React components and `chatService.ts`. They are not part of this model.
