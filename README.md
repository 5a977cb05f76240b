# AthletIQ coach endpoint: a Dafny model

This project models the core of the AthletIQ coaching service. A POST to the `/coach` endpoint carries a chat
message and an athlete's performance snapshot. The handler:

- sets the CORS headers;
- answers a pre-flight `OPTIONS` request and refuses every other method;
- checks the body with JavaScript truthiness and `typeof` tests, then checks for the provider credential;
- builds a two-message prompt and commits the event-stream headers;
- relays the language model's text fragments to the caller as they arrive.

Next to the handler sit the identity-provider helpers: the bearer-token prefix check, the unescaping of the
service-account key, and the lazily created app handle.

Modules, one per source file plus two shared ones:

- `Wrappers` (wrappers.dfy): `Option` and `Result`.
- `Strings` (strings.dfy): `startsWith` and `endsWith`, shared by the prompt builder and the token check.
- `Js` (js.dfy): parsed JSON values with JavaScript's truthiness, `typeof … === "number"` and property
  reads. `None` stands for `undefined`.
- `Prompt` (prompt.dfy): `buildCoachMessages`. The snapshot is generic in its leaf type, and number
  rendering is a parameter (`Format`), so every property holds for any rendering.
- `Firebase` (firebase.dfy): `verifyIdToken`'s prefix check and slice, the private-key unescape, and the
  class `FirebaseModule` holding the module-level `app` variable.
- `Coach` (coach.dfy): the `Response` and `Provider` classes, `setCors`, and the imperative `Handler`.
  `Handler` is proved to leave the response and provider exactly as the specification function `Respond`
  describes. The properties of the endpoint are proved about `Respond`.

The handler commits the stream headers (pages/api/coach.ts:92) before it calls the provider
(pages/api/coach.ts:101). So any provider failure is caught after the headers are sent, including one before
the first fragment. The response then stays a 200 that ends with the fragments already written and no JSON
error. One might expect a 500 JSON error for a failure that happens before anything was streamed; the
code gives a 200, and so does the model (`Coach.FailureAfterCommit`).

## Model

| member | source | states |
|---|---|---|
| `Coach.GetTenantConfig` | pages/api/coach.ts:22-29 | plan "starter", provider "openai", model "gpt-4o-mini", and the key is `OPENAI_API_KEY` as set (or unset) in the environment |
| `Coach.TenantIgnoresSubject` | pages/api/coach.ts:22-29 | the tenant configuration ignores the subject; its model is "gpt-4o-mini" and its key is the environment's |
| `Coach.SetCors` | pages/api/coach.ts:32-37 | the four CORS headers are added (origin `*`, methods `POST, OPTIONS`, headers `Content-Type, Authorization`, max-age `86400`) and nothing else changes |
| `Coach.CorsMerge` | pages/api/coach.ts:33-36 | setting the four headers one by one equals merging the CORS header map |
| `Coach.Handler` | pages/api/coach.ts:39-121 | the final response and the provider's recorded requests are exactly those `Respond` gives for the request, environment, fault and stream |
| `Coach.Respond` | pages/api/coach.ts:39-121 | every response carries the CORS headers and is ended; OPTIONS gives 204 with no body, no JSON and no provider call, whatever the body; other non-POST methods give 405 "Method Not Allowed"; the status is 200 exactly when the request is well formed, the key is set and nothing throws before commit; exactly one provider call on 200 and none otherwise; a JSON error exactly on the error statuses; on 200 the stream headers, the relayed fragments and the tenant's chat request |
| `Coach.HandlePost` | pages/api/coach.ts:53-120 | for a POST after the CORS headers, the response and provider end as `RespondPost` gives |
| `Coach.RespondPost` | pages/api/coach.ts:53-120 | a refusal is a 400 or 500 with a JSON error, no body and no provider call; otherwise a 200 event stream of the relayed fragments and one chat request (model, the two prompt messages, temperature 0.4, streaming) |
| `Coach.BodyOf` | pages/api/coach.ts:58 | a falsy body is read as `{}`, so property reads on it never throw |
| `Coach.FalsyBodyIsMissingFields` | pages/api/coach.ts:58-63 | a POST with a falsy body is refused with 400 "Missing message or dataSnapshot" |
| `Coach.MissingFieldsRefused` | pages/api/coach.ts:58-63 | a falsy message or snapshot (absent, null, empty string, 0, false) gives 400 "Missing message or dataSnapshot" |
| `Coach.ShapeOk` | pages/api/coach.ts:66-73 | the guard accepts exactly when `readiness`, `sleep.durationHrs`, `recovery.score` and `workload.completed` are numbers inside objects `sleep`, `recovery` and `workload` |
| `Js.Truthy` | pages/api/coach.ts:58-73 | JavaScript truthiness: a truthy value is never `undefined` or `null`, so a property read on it cannot throw; every object and array is truthy |
| `Js.IsNumber` | pages/api/coach.ts:67-73 | `typeof v === "number"`: a number is never nullish, and it is truthy exactly when it is non-zero |
| `Js.Get` | pages/api/coach.ts:58-73 | a property read on a non-nullish value yields a value exactly when the value is an object holding the key, and then it is that key's value; otherwise `undefined` |
| `Coach.ShapeIgnoresOtherKeys` | pages/api/coach.ts:66-73 | changing any top-level key other than the four checked ones never changes the guard's verdict |
| `Coach.ShapeIgnoresOtherLeaves` | pages/api/coach.ts:66-73 | `efficiency`, `consistency`, `hrvMs`, `restingHr` and `goal` may hold anything: the guard never reads them |
| `Coach.BadShapeRefused` | pages/api/coach.ts:66-78 | both fields present but the guard failing gives 400 "Invalid dataSnapshot shape" |
| `Coach.SnapshotOf` | pages/api/coach.ts:89 | each of the nine leaves of the snapshot handed to the prompt builder is the body's value at the same path (`readiness`, `sleep.durationHrs`, `sleep.efficiency`, `sleep.consistency`, `recovery.score`, `recovery.hrvMs`, `recovery.restingHr`, `workload.completed`, `workload.goal`); the four leaves the guard checked are numbers |
| `Coach.TextOf` | lib/prompt.ts:24 | `${message}`: a string message is interpolated verbatim; any other value goes through the rendering |
| `Coach.ChatRequestFor` | pages/api/coach.ts:101-106 | the chat request names "gpt-4o-mini", temperature 0.4 and streaming, and carries two messages: the system instruction, then the user turn, which is the context rendered from the body's `dataSnapshot`, then "\n\nQuestion: ", then the rendered message |
| `Coach.MissingKeyRefused` | pages/api/coach.ts:80-84 | a missing or empty key gives 500 "Missing OPENAI_API_KEY" before commit and with no provider call |
| `Coach.ErrorText` | pages/api/coach.ts:116 | the JSON error of the catch block is never empty; it is the thrown message whenever that is non-empty |
| `Coach.FaultBeforeCommit` | pages/api/coach.ts:114-116 | a throw before the headers are committed gives 500 with its message, or "Server error" when the message is empty |
| `Coach.StreamReply` | pages/api/coach.ts:92-113 | from commit to end, the response becomes a 200 with the merged stream headers and exactly the fragments relayed before any failure, and the provider records one request |
| `Coach.StreamKeepsCors` | pages/api/coach.ts:92-99 | the merged stream headers still carry all four CORS headers, and the content type is `text/event-stream` |
| `Coach.Provider.Create` | pages/api/coach.ts:101-106 | the provider call is recorded once and answered with the provider's stream |
| `Coach.Relay` | pages/api/coach.ts:108-111 | the loop appends exactly `Tokens(stream)` to the body, in order, and reports the first failure |
| `Coach.Tokens` | pages/api/coach.ts:108-111 | every relayed fragment is non-empty, and there are never more fragments than stream events |
| `Coach.TokensSpellReply` | pages/api/coach.ts:108-111 | the relayed body concatenates to everything the provider said before its first failure, in order; missing content counts as empty |
| `Coach.TokensAppend` | pages/api/coach.ts:108-111 | a failure-free stream relays piecewise, and nothing after a failure is ever relayed |
| `Coach.Catch` | pages/api/coach.ts:114-120 | before commit: status 500 and a JSON error; after commit: the response only ends, and status, headers and body stay as they were |
| `Coach.FailureAfterCommit` | pages/api/coach.ts:92-120 | a provider failure after commit, even before the first fragment, leaves a 200 with no JSON error and exactly the fragments written before it |
| `Coach.StreamedOutcome` | pages/api/coach.ts:92-113 | once every check passes, the response is a 200 event stream of the relayed fragments, whatever the stream |
| `Coach.ScenarioIsWellFormed` | pages/api/coach.ts:58-78 | the example request (message and full snapshot) passes every check |
| `Coach.ScenarioFragments` | pages/api/coach.ts:108-111 | the fragments "Great", " readiness", " today." are relayed in order; one fragment then a failure relays just that fragment |
| `Coach.Scenarios` | pages/api/coach.ts:92-113 | the example gives a 200 event stream whose body is the three fragments in order; with a failure after the first fragment it gives a 200 with that fragment and no JSON error |
| `Prompt.Trim` | lib/prompt.ts:13 | `.trim()`: the result neither starts nor ends with ECMAScript whitespace or a line terminator, and is never longer than its input |
| `Prompt.TrimSlice` | lib/prompt.ts:20 | the trimmed text is a contiguous slice of its input, and every character outside that slice is whitespace |
| `Prompt.TrimIdempotent` | lib/prompt.ts:13 | trimming an already trimmed text changes nothing |
| `Prompt.TrimLeadingBreak` | lib/prompt.ts:13 | `.trim()` of a template that opens on a line break and starts and ends on visible text removes exactly that line break |
| `Prompt.SystemPrompt` | lib/prompt.ts:9-13 | the system instruction is the template without its opening line break and has no surrounding whitespace |
| `Prompt.SystemIndependentOfInputs` | lib/prompt.ts:9-13 | the system entry depends on neither the message nor the snapshot nor the rendering |
| `Prompt.ContextBodyEnds` | lib/prompt.ts:15-20 | the context block starts with "Context" and the readiness line and ends with " this week" |
| `Prompt.ContextText` | lib/prompt.ts:15-20 | after `.trim()` the context is the heading "Context" and the Readiness, Recovery, Sleep and Workouts lines in that order; Recovery renders score, HRV then " ms", resting HR then " bpm"; Workouts renders completed "/" goal " this week" |
| `Prompt.BuildCoachMessages` | lib/prompt.ts:22-25 | exactly two entries; entry 0 is the system instruction with role system; entry 1 has role user, starts with the context and ends with "\n\nQuestion: " and the message |
| `Prompt.UserTurnSplits` | lib/prompt.ts:24 | the user content is exactly the context, then "\n\nQuestion: ", then the caller's message verbatim |
| `Prompt.SameQuestionSameContext` | lib/prompt.ts:24 | two snapshots that render alike give the same messages for the same question |
| `Firebase.ExtractBearer` | lib/firebase.ts:22-23 | succeeds exactly when the value is present and starts with the case-sensitive "Bearer " (space included), and then `"Bearer " + token` is the value; otherwise fails with "Missing token" |
| `Firebase.BearerEdgeCases` | lib/firebase.ts:22-23 | "Bearer " alone yields the empty token; "bearer …", "Bearer" and an absent value fail |
| `Firebase.Unescape` | lib/firebase.ts:9 | the unescaped key holds no backslash-n pair; it is empty exactly when the input is, and never longer |
| `Firebase.UnescapeIdentity` | lib/firebase.ts:9 | a key without a backslash-n pair comes back unchanged |
| `Firebase.UnescapeEscape` | lib/firebase.ts:9 | unescaping undoes the one-line escaping of a multi-line key (line break to backslash-n) |
| `Firebase.FirebaseModule.constructor` | lib/firebase.ts:3 | the module starts with no app and no environment read |
| `Firebase.FirebaseModule.GetFirebaseApp` | lib/firebase.ts:5-19 | once `app` is set, later calls return it and read no environment; the first call reads the environment once and either creates an app from the unescaped credential (empty registry) or adopts the registered one; an unset key throws and leaves `app` unset |
| `Firebase.FirebaseModule.VerifyIdToken` | lib/firebase.ts:21-26 | a missing or malformed authorization value fails with "Missing token" and touches nothing; with an app already set, the verdict is the SDK's on the extracted token and nothing else changes; on a first call the environment is read once, an unset key fails with the `replace` error and leaves `app` unset, and otherwise the app is created (empty registry) or adopted (registered) and the verdict is the SDK's on it |

## Left out

- The OpenAI client, the network and async iteration: the provider's stream is a finite sequence of events
  (`Chunk` with optional content, or `Fail`) held by the `Provider` class. The `create` call failing is a
  `Fail` at the head of the stream. Backpressure and stalls are not modelled.
- Throws before the headers are committed other than the handler's own refusals are one input, `fault`.
  Three things can throw there: the `OpenAI` constructor (pages/api/coach.ts:86); interpolating a truthy
  non-string `message` that JavaScript cannot convert to a string, such as `{"toString": 1}`
  (lib/prompt.ts:24); and rendering such a snapshot value (lib/prompt.ts:17-20).
- Number formatting: `${x}`, `toFixed(1)` and `(x*100).toFixed(0)` are the rendering parameter `Format`,
  and nothing is required of it. Floating point and NaN rendering are not modelled.
- JSON numbers are reals. JSON cannot spell NaN. An out-of-range literal such as `1e400` parses to an
  infinity, which is a number and truthy; a non-zero real behaves the same way under `Js.Truthy` and
  `Js.IsNumber`, and its rendering belongs to `Format`, so the model is unaffected.
- Next.js plumbing: the 1 MB body limit (pages/api/coach.ts:123-125), body parsing itself, and the
  framework's own headers on JSON replies (content type, length). Header names are compared exactly, not
  case-insensitively. The environment variable `OPENAI_API_KEY` is an input.
- Token verification is not wired into the handler (pages/api/coach.ts:54 is commented out). A request may
  carry an `Authorization` header, and the CORS headers allow one, but the handler never reads it, so the
  modelled request has no headers. The subject is the constant "dev".
- The `firebase-admin` SDK: `initializeApp` is modelled as appending an app built from the unescaped
  credential to the registry. The SDK's own validation in `admin.credential.cert` and `initializeApp`, and
  its throws (for example on a private key that does not parse), are not modelled. The SDK's token
  verification is a function parameter.
- Firebase.FirebaseModule.GetFirebaseApp: `admin.app()` is modelled as the first app in the registry,
  not the one named "[DEFAULT]".
