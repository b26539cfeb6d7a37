# ConfidAI backend handlers in Dafny

This project models the three backend handlers of ConfidAI, a mental-wellness
web app, that contain decision logic:

- **`POST /chat`** (`supabase/functions/Chat.ts`) relays a user's message to a
  completion provider. It validates the request and applies a per-client
  fixed-window rate limiter (5 requests per 60 000 ms). It stores the user
  turn, calls the provider, and settles the reply: a keyword crisis detector
  on the inbound message replaces the reply with localized crisis resources.
  It then stores the assistant turn and responds.
- **`POST /analyze-mood`** (`supabase/functions/profile.js`) classifies a mood
  word as positive, negative or neutral.
- **`POST /summarize`** (`supabase/functions/summarize.js`) is a mock
  summarizer. It keeps the first 100 UTF-16 code units and appends `"..."`.

All three are pure functions in the model. The process-wide rate-limit map is
an explicit value threaded from call to call. `Date.now()` is a `now`
parameter. The `x-forwarded-for` header and the socket address are
parameters. The database inserts and the completion call are oracle inputs.
The handler returns the HTTP status and body, the new limiter, and the
ordered list of effects it attempted. Those effects are each
`chat_history` insert and the completion request.

Files, one module each:

| file | module | what |
|---|---|---|
| `js.dfy` | `Js` | `undefined`/present fields, truthiness, `slice`, `includes`, UTF-16 code units |
| `rate_limiter.dfy` | `RateLimiter` | `checkRateLimit`, sequences of calls, window lemmas |
| `crisis_detector.dfy` | `CrisisDetector` | the crisis regex as a search, proved equal to a phrase-list definition |
| `crisis_resources.dfy` | `CrisisResources` | `getCrisisResources` as written and corrected |
| `chat_relay.dfy` | `ChatRelay` | the `/chat` handler, its properties, sessions of requests |
| `mood.dfy` | `Mood` | `/analyze-mood` |
| `summarizer.dfy` | `Summarizer` | `/summarize` |

Behaviour of the code worth knowing:

- A provider call that throws (a network failure) ends in the catch-all and
  gives 500 "Internal Server Error". So does a non-2xx response whose error
  text cannot be read, a body that is not JSON, and a body that is JSON
  `null` (reading `choices` from it throws). Only a non-2xx response whose
  error text is read gives 502.
- The fallback reply `"I couldn't process that."` replaces only a missing
  (`null`/`undefined`) content, because the code uses `??`. An empty string
  from the provider is relayed as the empty reply.
- When the provider fails, the user turn has already been inserted. A request
  can therefore leave the user turn without the assistant turn.
  `ChatRelay.StoredTurns` states exactly which rows each outcome leaves.
- `language` defaults to `"en"` only when the key is missing. An empty
  language is echoed as `""`, and its crisis resources are the English ones.
- The rate limit and window are the constants 5 and 60 000 ms. They are not
  configuration.
- The regex has the `i` flag but no `u` flag. Under those flags a code unit
  matches an ASCII letter of the pattern exactly when it is that letter in
  either ASCII case. `CrisisDetector.Fold` is therefore ASCII case folding,
  which is exact here and not an approximation.
- Chat and mood strings are Dafny strings, which are sequences of code
  points. The relay only compares them, concatenates them and searches them
  for an ASCII pattern, and each of those gives the same result on code
  points and on code units. The summarizer works on UTF-16 code units
  (`Js.Str`), because `slice` counts them.

## Model

| member | source | states |
|---|---|---|
| `RateLimiter.Check` | supabase/functions/Chat.ts:30-45 | A key with no record, or whose last reset is strictly more than 60 000 ms ago, is allowed and restarts at count 1 at `now`; exactly 60 000 ms does not reset. Inside the window, a count under 5 is allowed and goes up by exactly 1. A count of 5 is denied and the map is unchanged. Only the queried key's record changes. Every record keeps 1 <= count <= 5. |
| `RateLimiter.Replay` | supabase/functions/Chat.ts:32-44 | Calls handled one after another give one decision per call, and they preserve the 1 <= count <= 5 invariant of every stored record. |
| `RateLimiter.KeysAreIsolated` | supabase/functions/Chat.ts:32-44 | In any interleaving of clients, a key gets the same decisions and ends with the same record as if only its own calls had been made. |
| `RateLimiter.CallsInsideWindow` | supabase/functions/Chat.ts:36-44 | While no reset is due, starting from count c the i-th call is allowed iff c + i < 5, and the record ends at min(c + n, 5) with the window start unchanged. |
| `RateLimiter.FiveAllowedPerWindow` | supabase/functions/Chat.ts:30-44 | After a request opens a window, that request and the next four are allowed. Every later request in the same window, the 6th included, is denied, so exactly min(n, 5) of n requests are allowed. |
| `RateLimiter.BoundaryBurst` | supabase/functions/Chat.ts:31-38 | The fixed window admits a burst at its edge: ten requests are all allowed, nine of them within 2 ms (four just before the edge, five just after). |
| `CrisisDetector.Detect` | supabase/functions/Chat.ts:103 | The regex test fires iff the message contains, ignoring ASCII case, one of "suicide", "selfharm", "self-harm", "self harm", "kill myself", "end my life". |
| `CrisisDetector.SearchFrom` | supabase/functions/Chat.ts:103 | Trying the alternation at every position from i onwards succeeds iff one of the phrases occurs at some position >= i. |
| `CrisisDetector.SelfHarmBranch` | supabase/functions/Chat.ts:103 | The branch `self[- ]?harm` matches at a position iff "selfharm", "self-harm" or "self harm" occurs there. |
| `CrisisDetector.AlternationMeansPhrase` | supabase/functions/Chat.ts:103 | An anchored attempt of the alternation at i succeeds iff one of the six phrases occurs at i. |
| `CrisisDetector.CaseIgnoredExample` | supabase/functions/Chat.ts:103 | "to END MY LIFE" triggers the override: the `i` flag ignores letter case. |
| `CrisisDetector.SelfHarmSpellingsExample` | supabase/functions/Chat.ts:103 | "about Self-Harm" and "selfharm" both trigger the override: the separator is optional and may be a hyphen. |
| `CrisisDetector.NoOpeningMeansNoCrisis` | supabase/functions/Chat.ts:103 | A message in which no two adjacent characters could open a phrase ("su", "se", "ki", "en", in any case) never triggers the override. |
| `CrisisDetector.NotCrisisExample` | supabase/functions/Chat.ts:103 | The ordinary message "I feel anxious today" does not trigger the override. |
| `CrisisResources.ResourcesAsWritten` | supabase/functions/Chat.ts:48-54 | The lookup with `??` is never undefined, and any own value it yields is the English or the Hindi text. |
| `CrisisResources.PrototypeNameSkipsFallback` | supabase/functions/Chat.ts:49-53 | For the language "toString" or "constructor", the lookup yields an inherited `Object.prototype` member instead of any crisis text. |
| `CrisisResources.CrisisTextAsWritten` | supabase/functions/Chat.ts:48-54 | The text the code puts before the closing line: the crisis resources for every language that is not an inherited property name, and for those names a printed `Object.prototype` member that is neither crisis text. |
| `CrisisResources.RenderedMemberIsNoResource` | supabase/functions/Chat.ts:53 | For each of the 12 inherited names the lookup yields that inherited member, and its printed form is neither the English nor the Hindi text. |
| `CrisisResources.ToStringRendered` | supabase/functions/Chat.ts:53 | The language "toString" yields `function toString() { [native code] }`, and "__proto__" yields "[object Object]". |
| `CrisisResources.Resources` | supabase/functions/Chat.ts:48-54 | The result is the Hindi text iff the language is "hi", and the English text iff it is anything else, "en" included. |
| `CrisisResources.ResourcesAgreeOffPrototype` | supabase/functions/Chat.ts:48-54 | For every language that is not an inherited property name, the corrected lookup equals the lookup as written. |
| `ChatRelay.LanguageOf` | supabase/functions/Chat.ts:58 | A missing language becomes "en", and a present one (even "") is kept. |
| `ChatRelay.ClientKey` | supabase/functions/Chat.ts:64 | The client key is a non-empty `x-forwarded-for`, otherwise a non-empty remote address, otherwise "unknown". It is never empty. |
| `ChatRelay.PromptFor` | supabase/functions/Chat.ts:82-90 | The completion request is `gpt-4o-mini` with max 500 tokens and temperature 0.7. It carries exactly the system preamble and the latest user message, no history. |
| `ChatRelay.FinalReply` | supabase/functions/Chat.ts:100-105 | If the message mentions a crisis phrase, the reply is the crisis resources for the language plus the closing line. Otherwise it is the provider content verbatim, or the fallback when the content is absent. |
| `ChatRelay.Handle` | supabase/functions/Chat.ts:56-117 | 400 iff a field is missing or empty, with no effects and the limiter untouched. 429 iff the limiter denies, with no effects and the limiter untouched. Otherwise the effects begin with the user-turn insert, then the completion request. 502 iff the response is not ok and its error text is read. 500 iff the call throws, the error text of a non-ok response cannot be read, or the body does not parse or is JSON `null`. 200 iff the provider answered. A 200 response is followed by an assistant-turn insert holding exactly the reply returned, with the request's language. The limiter changes only as `Check` says. |
| `ChatRelay.CrisisOverrideIgnoresProvider` | supabase/functions/Chat.ts:100-105 | For a crisis message, every provider answer, present or absent, gives the same outcome: 200 with the crisis text for the language plus the closing line. |
| `ChatRelay.FinalReplyAsWritten` | supabase/functions/Chat.ts:100-105 | The reply exactly as the code builds it: a crisis message gets the as-written crisis text plus the closing line, so for an inherited property name it differs from `FinalReply`; off those names the two are equal. |
| `ChatRelay.HandleReplyAsWritten` | supabase/functions/Chat.ts:100-113 | The 200 reply of `Handle` equals the code's own reply for every language that is not an inherited property name, and differs from it for those names on a crisis message. |
| `ChatRelay.ProviderReplyRelayed` | supabase/functions/Chat.ts:100 | Without a crisis phrase, the reply is the provider's content, "" included, or the fallback when that content is absent. |
| `ChatRelay.StoreFailuresInvisible` | supabase/functions/Chat.ts:70-113 | The outcomes of the two inserts never change the response, the attempted effects or the limiter. |
| `ChatRelay.StoredTurns` | supabase/functions/Chat.ts:59-113 | 400 and 429 insert nothing. 500 and 502 insert the user turn only. 200 inserts the user turn and then the assistant turn carrying the returned reply and language. |
| `ChatRelay.HandleArrival` | supabase/functions/Chat.ts:63-67 | For a well-formed request, the answer is 429 iff the limiter denies the request's client key at its time, and the limiter left behind is the one that check leaves. |
| `ChatRelay.ServeFollowsLimiter` | supabase/functions/Chat.ts:63-67 | Over a session of well-formed requests, each request is answered 429 iff the rate limiter, replayed on the same keys and times, denies it. |
| `ChatRelay.SixthRequestInWindowRejected` | supabase/functions/Chat.ts:30-67 | Well-formed requests from one client within one window: the first five pass the limiter. The 6th and every later one get 429 and touch neither the store nor the provider. |
| `Js.Includes` | supabase/functions/profile.js:12 | `includes` is true iff the value is present and equal to an element of the array. |
| `Js.Slice` | supabase/functions/summarize.js:15 | With 0 <= start <= end, `slice` is the code units from min(start, len) to min(end, len). From 0, it is a prefix of length min(end, len). |
| `Mood.Classify` | supabase/functions/profile.js:11-13 | The result is positive iff the mood is exactly "happy" or "excited", negative iff exactly "sad" or "angry", and neutral for every other value or a missing mood. |
| `Mood.AnalyzeMood` | supabase/functions/profile.js:9-15 | The response echoes the mood unchanged, or absent when it was missing, next to its sentiment. |
| `Mood.ExactMatchOnly` | supabase/functions/profile.js:12-13 | The moods "Happy", "SAD", "happy " and "" are neutral, and so is a missing mood. |
| `Summarizer.Summarize` | supabase/functions/summarize.js:8-17 | A missing or empty content gives 400 "Content is required". Otherwise the summary ends with "...". Its length is min(len, 100) + 3 <= 103 code units. Without the "..." it is a prefix of the content. For content of at most 100 units it is the content + "...". |
| `Summarizer.SummaryDeterminesHead` | supabase/functions/summarize.js:15 | Two non-empty contents give the same summary iff they agree on their first min(len, 100) code units. |

## Findings

| source | as written | input that shows it | evidently intended | confidence | as-written member | corrected member |
|---|---|---|---|---|---|---|
| supabase/functions/Chat.ts:48-54 | The resources are a plain object literal, read with `resources[language]` and guarded by `??`. A language named after an inherited `Object.prototype` member reads that member. Such a member is a function or an object, never nullish, so the English fallback is skipped. | `{"user_id":"u1","message":"I want to end my life","language":"toString"}`. The crisis reply starts with the source text of `Object.prototype.toString` instead of any crisis resources. | Any language other than "hi" gets the English crisis resources. | high, not executed | `CrisisResources.PrototypeNameSkipsFallback` | `CrisisResources.Resources` |

The handler (`ChatRelay.FinalReply`, `ChatRelay.Handle`) uses the corrected
lookup. `ChatRelay.FinalReplyAsWritten` is the reply the code actually
builds, and `ChatRelay.HandleReplyAsWritten` shows where the two differ.
`CrisisResources.ResourcesAgreeOffPrototype` shows that the correction
changes nothing for any other language.

## Left out

- ChatRelay.FinalReply: uses the corrected crisis lookup, so for the 12 inherited property names (`PROTOTYPE_NAMES`) its crisis reply is the English text, not the printed `Object.prototype` member the code sends. `ChatRelay.FinalReplyAsWritten` states the code's reply.
- ChatRelay.Handle: its 200 reply is `FinalReply`'s, so it carries the same correction for those 12 languages. `ChatRelay.HandleReplyAsWritten` states exactly where it departs from the code.
- ChatRelay.CrisisOverrideIgnoresProvider: states the corrected crisis reply; for the 12 inherited property names the code replies with `CrisisResources.CrisisTextAsWritten` plus the closing line instead.
- Provider content that is JSON but not a string (a number, an object) is left out; `Answered` carries only a string or nothing.
- The text of the system preamble is an opaque constructor (`SystemPreamble`). Its wording plays no part in the handler's decisions.
- The database client and the completion `fetch` are oracle inputs. The model covers their outcomes, not their protocols. The same holds for the `console.error` logging of insert failures and provider errors.
- Reading a stored turn back is not modelled. The store is an external collaborator.
- Express wiring, `app.listen`, the port, and the startup check of environment variables (Chat.ts:5-13) are left out.
- Non-string JSON values in request fields (numbers, `null`, objects) are left out.
- A request without a JSON body is left out where its answer depends on the Express version, which the source does not show. Under Express 5, `req.body` stays undefined, the destructuring at Chat.ts:58 and profile.js:9 throws, and `/chat` and `/analyze-mood` answer 500 from their catch blocks (profile.js:16-17); `/summarize` has no catch. Under Express 4, `express.json()` leaves `req.body` as `{}`, which the model handles as every field missing: 400 from `/chat` and `/summarize`, a neutral 200 from `/analyze-mood`.
- Chat strings are Dafny strings, so a lone surrogate (legal in a JSON string escape) cannot be written in a chat or mood field.
- Timestamps and counters are unbounded integers. JavaScript numbers are exact for millisecond timestamps below 2^53, so nothing is lost.
- Requests are handled one at a time. The single-threaded event loop never interleaves the read and the write of a rate-limit record.
- `supabase/functions/Chat.js` is left out as an older duplicate of the relay: it has no rate limit and no crisis override. Also left out: `notification.js` and `shield.js` (constant responses), the React pages and components, `utils.ts`, `Types.ts` and `vite.config.js`. None has decision logic.
