# Session ingestion route, modelled in Dafny

This project models the sessions API route of a small therapy-session assistant
(`front-end/app/api/sessions/route.ts`). An uploaded audio file is transcribed, then
structured into a summary, a speaker list and a turn-by-turn dialogue, then embedded
as a vector. The result is stored at the front of a process-wide in-memory list.
`GET` returns that list and `POST` returns the new record, both without the
embedding vector.

The three calls to the AI provider are not modelled. Their outcomes are inputs to the
model (`Route.Upstream`): the call threw, or it returned a value whose interesting
properties may be missing. The generated UUID and the ISO timestamp are inputs too.
The requests the handler would send are recorded as `Route.Call` values. This makes
the chosen file name, MIME type, chat user message and embedding input observable.

Modules:

- `Optional` (optional.dfy): `Option`, for JSON fields and SDK properties that may be
  undefined (`??`).
- `Js` (js.dfy): the JavaScript semantics the handler relies on:
  - string `||`;
  - `xs?.length ? xs : d`;
  - `slice(0, n)`.
- `Sessions` (sessions.dfy): `SessionEntry`, `PublicSession`, the projection that drops
  `embedding`, the well-formedness invariant of stored entries, and the store as a
  sequence, newest first.
- `Structuring` (structuring.dfy): the parse step with its silent fallback, default
  substitution for summary, speakers and turns, the 220-character transcript clip,
  and embedding-input selection.
- `Route` (route.dfy): `Ingest`, the store-independent steps of `POST`; `Post` and
  `Get` against a store; lemmas on status codes, the created record and the error
  paths.
- `History` (history.dfy): many `POST`s handled one after another; the store ends up
  in reverse submission order.

Three consequences of the code are worth spelling out:

- The chat prompt (route.ts:67) asks for at least two speakers. The code (route.ts:88)
  keeps any non-empty parsed list, so a one-speaker answer is stored as is. The
  stored list is guaranteed only to be non-empty (`Structuring.SpeakersAtLeastTwoIff`).
- Only a `JSON.parse` failure or a missing field is absorbed by defaults. A chat call
  (route.ts:59) or an embedding call (route.ts:100) that throws reaches the `catch` at
  route.ts:122. The reply is then 500 and nothing is stored
  (`Route.StatusClassification`).
- The `transcript` and `'No content available'` alternatives of the embedding input
  (route.ts:99) are unreachable, because the summary is never empty
  (`Structuring.EmbeddingInputIsSummary`).

## Model

| member | source | states |
|---|---|---|
| Js.OrElse | front-end/app/api/sessions/route.ts:87 | `a \|\| b` on strings yields `a` when it is non-empty and `b` otherwise; the result is empty only when both operands are |
| Js.NonEmptyOr | front-end/app/api/sessions/route.ts:88-97 | `xs?.length ? xs : d` keeps a present non-empty array and otherwise yields the fallback; the result is non-empty iff one of the two is |
| Js.SliceTo | front-end/app/api/sessions/route.ts:96 | `s.slice(0, n)` is the prefix of `s` of length min(n, \|s\|), empty exactly when `s` is empty or `n` is 0 |
| Optional.Option.GetOr | front-end/app/api/sessions/route.ts:57 | `x ?? d` yields the value when it is present and the default when it is missing, as for the transcription text, the completion content and the embedding (route.ts:57, 75, 104) |
| Sessions.ToPublic | front-end/app/api/sessions/route.ts:120 | the public form is the entry minus `embedding`: adding the entry's own vector back gives the entry again, as in the destructurings at route.ts:30 and route.ts:120 |
| Route.Configured | front-end/app/api/sessions/route.ts:20-27 | `getOpenAI` gives a client exactly when the key is truthy: unset and empty keys both count as missing |
| Sessions.ProjectionRoundTrip | front-end/app/api/sessions/route.ts:120 | dropping `embedding` loses nothing else: putting the vector back gives the original entry, and projecting a re-embedded record gives the record back |
| Sessions.ProjectionIgnoresOnlyEmbedding | front-end/app/api/sessions/route.ts:16 | two entries have the same public form if and only if they differ at most in `embedding` |
| Sessions.PublicFlagReflectsEmbedding | front-end/app/api/sessions/route.ts:114 | for a stored entry, the public `vectorized` flag is true iff the hidden vector is non-empty |
| Sessions.Prepend | front-end/app/api/sessions/route.ts:118 | `unshift` puts the entry at index 0 and shifts every older entry up by one, in the same order; it keeps every entry well formed |
| Sessions.Project | front-end/app/api/sessions/route.ts:30 | the GET payload has the store's length and order; element i is stored entry i without `embedding` |
| Sessions.ProjectPrepend | front-end/app/api/sessions/route.ts:30 | projecting after an insertion is the new entry's public form in front of the previous projection |
| Structuring.ParseCompletion | front-end/app/api/sessions/route.ts:73-85 | a parsed object is used as is; missing content (`?? '{}'`) and a parse failure both give an object with every field absent |
| Structuring.UserContent | front-end/app/api/sessions/route.ts:69 | the chat user message is the transcript, or `No transcript content available.` when the transcript is empty; it is never empty |
| Structuring.ResolveSummary | front-end/app/api/sessions/route.ts:87 | the summary is never empty: it is the parsed summary when that is a non-empty string, otherwise exactly `No summary available.` |
| Structuring.ResolveSpeakers | front-end/app/api/sessions/route.ts:88-91 | speakers are never empty: the parsed list when non-empty, otherwise exactly `Speaker 1`/Therapist and `Speaker 2`/Client with no notes |
| Structuring.ResolveTurns | front-end/app/api/sessions/route.ts:92-97 | turns are never empty: the parsed list when non-empty, otherwise a Therapist turn with the summary and a Client turn with the first min(220, \|transcript\|) characters, or the placeholder for an empty transcript |
| Structuring.EmbeddingInput | front-end/app/api/sessions/route.ts:99 | the embedding input is the first non-empty of summary, transcript and `No content available`, so it is never empty |
| Structuring.Resolve | front-end/app/api/sessions/route.ts:87-97 | default substitution gives a non-empty summary, speaker list and turn list; the fallback turns are built from the resolved summary |
| Structuring.EmbeddingInputIsSummary | front-end/app/api/sessions/route.ts:99 | for every parse outcome and transcript, the embedding input equals the resolved summary |
| Structuring.FallbackTherapistSaysSummary | front-end/app/api/sessions/route.ts:95 | in the fallback dialogue the Therapist line is exactly the resolved summary; the placeholder alternative is dead |
| Structuring.SpeakersAtLeastTwoIff | front-end/app/api/sessions/route.ts:88-91 | the resolved list has two or more speakers iff the model returned none or any number other than one; the code guarantees non-emptiness only |
| Structuring.DegradedStructuring | front-end/app/api/sessions/route.ts:73-97 | an unparseable or missing answer yields the fixed summary, the two default speakers and the two synthesised turns |
| Route.Assemble | front-end/app/api/sessions/route.ts:104-116 | the record carries the given id, file name, transcript and timestamp; a missing embedding becomes the empty vector; `vectorized` holds iff the vector is non-empty |
| Route.Ingest | front-end/app/api/sessions/route.ts:34-117 | an entry is produced iff the key is set, the form holds a blob and all three provider calls return; the key and missing-file errors are 400s with the source's messages and no provider request; after the blob check, a throwing transcription leaves only the transcription request, a throwing chat call stops after the structuring request, and otherwise the embedding of the summary is requested; every such failure is a 500 |
| Route.Post | front-end/app/api/sessions/route.ts:118-124 | status is 201 iff the upload is accepted; then the store gains exactly the new entry at the front and the body is its public form; otherwise the store is unchanged and the body is an error |
| Route.Get | front-end/app/api/sessions/route.ts:29-32 | status 200 with one public record per stored entry, in store order |
| Route.StatusClassification | front-end/app/api/sessions/route.ts:36-124 | 400 iff the key is unset or the `file` field is not a blob; 500 iff the key is set and the form is unreadable or a provider call threw |
| Route.CreatedSession | front-end/app/api/sessions/route.ts:48-116 | a stored record has the fresh id and timestamp and the file name (default `session.wav`); it holds the transcript (`?? ''`), the resolved structuring and the returned vector; the requests are transcribe, structure, then embed the summary |
| Route.FailedPostUnobservable | front-end/app/api/sessions/route.ts:122-124 | after any failed POST, GET returns exactly what it returned before |
| Route.PostThenGet | front-end/app/api/sessions/route.ts:118-121 | after a successful POST, GET lists the POST reply first, followed by the previous listing |
| Route.DegradedPost | front-end/app/api/sessions/route.ts:73-97 | an accepted upload whose completion is unusable stores the placeholder summary, the default speakers, a Therapist turn with that summary, and a Client turn with the first 220 transcript characters (or the placeholder when the transcript is empty) |
| History.Replay | front-end/app/api/sessions/route.ts:118 | handling POSTs in sequence only adds entries at the front: the initial store stays as the suffix and well-formedness is kept |
| History.ReplayNewestFirst | front-end/app/api/sessions/route.ts:118 | the store after any sequence of POSTs is the successful ones' entries in reverse submission order in front of the initial store; failures leave no trace |
| History.SuccessfulPostsNewestFirst | front-end/app/api/sessions/route.ts:118 | after N successful POSTs, position i holds the entry of the (N-1-i)-th submission and the old store follows |
| History.GetAfterPostsNewestFirst | front-end/app/api/sessions/route.ts:30 | from an empty store, GET after N successful POSTs lists their public records, most recent first |

## Left out

- The transcription, chat-completion and embedding requests to the AI provider
  (route.ts:52-71, 100-103). They are foreign network calls, so each one becomes an
  input that says whether it threw or what it returned. The model name, temperature,
  prompt text and response format sent with the calls are not modelled.
- `JSON.parse` and the `as` casts (route.ts:73-85). They do no shape validation, so the
  parse outcome is an input record with optional, correctly typed fields. A missing
  `choices[0]` or message content is covered: `?? '{}'` makes it the all-absent
  record (`NoMessage`). Two behaviours fall outside the model:
  - a JSON text that parses to `null`, which would make the property access throw
    and give a 500;
  - fields whose JSON type differs from the cast.
- `crypto.randomUUID()` and `new Date().toISOString()`. They are nondeterministic, so
  they become inputs.
- `req.formData()`, `Buffer`, `File` and `arrayBuffer()`. These are library plumbing.
  An unreadable form is an input (500); a failing `arrayBuffer()` is not modelled.
- Concurrent POSTs interleaving at their `await` points. Each POST is handled
  atomically.
- The `console.log`, `console.warn` and `console.error` calls, including the log of
  the API key (route.ts:23). They are logging side effects.
- JSON serialisation by `NextResponse.json`. Responses are datatypes. Embedding
  components are `real`, not IEEE doubles.
- front-end/app/page.tsx, backend/src/main.ts, backend/src/app.service.ts and
  backend/src/supabase.service.ts. They hold UI state, server bootstrap, a constant
  greeting and a Supabase client wrapper the route never uses.
- Js.SliceTo: counts Dafny characters (Unicode scalar values), whereas JavaScript's
  `slice` counts UTF-16 code units. For transcripts outside the Basic Multilingual
  Plane the 220 limit is therefore measured differently.
