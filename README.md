# AI Multi-Mode Response Engine — a verified model of its core

The engine answers a prompt in one of four response modes: concise, detailed,
creative or technical. A mode is picked by the user, or by the keyword classifier
when the user picks `auto`. The selected mode's system instruction goes with the
prompt to one of two backends: a cloud chat-completions API or a local Ollama
server. The request runs under a bounded retry policy.

A Flask front end puts three things around this engine:
- It folds recent chat history into the prompt.
- It gates each request on prompt, mode and readiness.
- It can stream the reply as text fragments.

The model is split into modules that follow the program's files:

| module | file(s) | models |
|---|---|---|
| `Base` | — | `Option`, `Result` and the kinds of failure the code raises or catches |
| `Strings` | — | Python's `str.lower`, `str.strip`, the substring test `p in t` and `sep.join` |
| `Evaluator` | `evaluator.py` | `MODE_KEYWORDS` and `choose_mode` |
| `Prompts` | `prompts.py` | `MODES` and `get_system_prompt` |
| `Engine` | `main.py` | `startup_check`, the request parameters, the two retry loops, `generate_response`, the CLI mode check |
| `WebApp` | `web_app.py` | `build_context_prompt`, `iter_ollama_chunks`, `iter_openai_chunks`, the gate and bodies of `chat` and `chat_stream`, and `generate` |

## How the model is shaped

**Loops become methods.** Where the source loops, the model has a method with a
loop. `choose_mode`'s nested scoring loops, the retry loops,
`build_context_prompt`'s loop, and the two stream filters are each a method. Each
method's `ensures` ties its result to a specification function:
- `Evaluator.Classify`
- `Engine.RetryFrom`
- `WebApp.ContextPrompt`
- `WebApp.Emitted`

Lemmas then state what the source promises about those functions.

**Straight-line code becomes functions.** The mode catalog, the readiness
decision, the parameter derivation and the request gate are functions.

**Values the code does not compute are parameters.** This covers everything
that comes from outside:
- the configuration (`Engine.Config`);
- what a backend attempt gives (`outcome: nat -> Attempt`, attempt `k` gives `outcome(k)`);
- the Ollama status probe (`Engine.Probe`);
- the items of a backend stream (`WebApp.Opening`).

**Failures are values.** A raised exception is a `Failure` with a kind and the
message `str(error)` would show.

**Cases the code decides in a particular way, which the model follows:**
- Missing and `None` content are not read alike on the two paths.
  - The cloud path reads both as "" (`content or ""`, main.py:78).
  - The local path reads only a missing content as "". It calls `.strip()` on what `.get("content", "")` returns, so a JSON `null` content raises `AttributeError` (main.py:107-108).
  - `Engine.ReplyText` models both.
- The stream filter of the local server treats two kinds of null differently:
  - `"content": null` is skipped as falsy.
  - `"message": null` raises `AttributeError` on `.get`.
  - `WebApp.LocalStep` models both.
- The cloud path retries timeouts as well as refused connections.
  - The SDK's timeout error is a subclass of its connection error, so `except APIConnectionError` (main.py:73) catches both.
  - `Base.FailureKind.ApiConnectionErr` stands for both, and `Engine.Retryable` retries it on the cloud path.
- Python's `max` over the scores dict returns the first maximal key in insertion order.
  - `Evaluator.FirstMax` scans the scores left to right.
  - It replaces the current best only when a later score is strictly larger.

## Model

| member | source | states |
|---|---|---|
| `Strings.Lower` | evaluator.py:46 | `lower()` keeps the length and lowers every character in place (ASCII letters) |
| `Strings.LowerIdempotent` | evaluator.py:46 | lowering a lowered string changes nothing |
| `Strings.TrimStartFacts` | web_app.py:62 | the leading-whitespace strip removes exactly the leading run of whitespace: the rest is a suffix and does not start with whitespace |
| `Strings.TrimEndFacts` | web_app.py:62 | the trailing strip removes exactly the trailing run of whitespace |
| `Strings.TrimFacts` | evaluator.py:46-48 | `strip()` yields a contiguous slice of the input with no whitespace at either end, and it is empty exactly when the input is all whitespace |
| `Strings.TrimIdempotent` | web_app.py:61-62 | stripping a stripped string changes nothing |
| `Strings.Trim` | web_app.py:62 | `str.strip()`; its properties are stated by `Strings.TrimFacts` and `Strings.TrimIdempotent` |
| `Strings.Contains` | evaluator.py:53 | the substring test `keyword in text`; `Strings.ContainsIffSlice` states what it means |
| `Strings.Join` | web_app.py:73 | `sep.join(parts)`: the parts with the separator between neighbours |
| `Strings.ContainsIffSlice` | evaluator.py:53 | `keyword in text` holds exactly when the keyword occurs as a contiguous run of characters, so a multi-word phrase matches only contiguously |
| `Evaluator.CountFound` | evaluator.py:52-54 | a mode's score never exceeds its number of phrases |
| `Evaluator.FirstMax` | evaluator.py:56 | the index `max(scores, key=scores.get)` returns: maximal, and strictly above every earlier score |
| `Evaluator.ChooseMode` | evaluator.py:45-57 | the method returns the classifier's value `ModeChoice` for `MODE_KEYWORDS` |
| `Evaluator.ChooseModeIn` | evaluator.py:46-57 | the scoring loop over modes, then the best index, equals `Classify` over any non-empty table |
| `Evaluator.CountPhrases` | evaluator.py:52-54 | the inner loop adds one per phrase found, and its total is `CountFound` |
| `Evaluator.BestIndex` | evaluator.py:56 | the left-to-right scan keeps the first maximal score: its result is `FirstMax` |
| `Evaluator.CountFoundIsSetSize` | evaluator.py:50-54 | for a phrase set without repetitions, the score is the size of the set of its phrases found in the text |
| `Evaluator.TablePhrasesDistinct` | evaluator.py:4-42 | no mode lists a phrase twice, as in the Python sets |
| `Evaluator.ScoreCountsPhrases` | evaluator.py:46-54 | each mode's score is the number of its phrases that occur as contiguous slices of the lowered, trimmed text |
| `Evaluator.ClassifyChoosesFirstBest` | evaluator.py:56-57 | blank text or all scores zero gives the fallback; otherwise the result is the mode at a first maximal index, and its score is positive |
| `Evaluator.FirstMaxUnique` | evaluator.py:56 | only one index is at once maximal and strictly above all earlier scores, so the tie-break is determined |
| `Evaluator.TieGoesToEarliest` | evaluator.py:56-57 | among modes sharing the best positive score, the earliest in table order is returned |
| `Evaluator.ClassifyResultRange` | evaluator.py:45-57 | the result is the fallback or one of the table's modes |
| `Evaluator.BlankInputFallback` | evaluator.py:46-48 | empty or whitespace-only input returns the fallback |
| `Evaluator.CaseInsensitive` | evaluator.py:46 | `choose_mode(s)` equals `choose_mode(s.lower())` |
| `Evaluator.DetailedWinsTieWithTechnical` | evaluator.py:56-57 | when detailed and technical share the best positive score over concise and creative, detailed is chosen |
| `Evaluator.FoundPhraseScores` | evaluator.py:52-54 | one phrase found makes the mode's score positive |
| `Evaluator.PhraseMatchesInsideWord` | evaluator.py:36 | "api" matches inside "rapid", so that text scores for technical |
| `Prompts.LookupFrom` | prompts.py:22-25 | the lookup finds an instruction exactly when the key is present, and the one it finds is stored under that key |
| `Prompts.GetSystemPrompt` | prompts.py:21-25 | succeeds exactly for a catalog key, with the stored instruction; any other key fails with a ValueError naming the mode and the supported modes |
| `Prompts.StoredInstructionReturned` | prompts.py:25 | each of the four keys returns exactly its own instruction |
| `Prompts.AutoIsNotAMode` | prompts.py:22-24 | "auto" is not a catalog key and raises a ValueError |
| `Prompts.CatalogWellFormed` | prompts.py:1-18 | every instruction is non-empty and the keys are distinct |
| `Prompts.CatalogMatchesClassifier` | prompts.py:1-18 | the catalog keys are the classifier table's modes, in the same order |
| `Prompts.ClassifiedModeHasInstruction` | main.py:118-119 | with the default fallback "detailed", `get_system_prompt(choose_mode(x))` never fails |
| `Engine.StartupCheck` | main.py:12-48 | result characterised below this table |
| `Engine.StartupCheckMessages` | main.py:13-21 | an unknown provider gets "Invalid AI_PROVIDER. Use 'ollama' or 'openai'."; the cloud provider is ready exactly with a key, and otherwise gets the message asking to set OPENAI_API_KEY |
| `Engine.LocalStartupMessages` | main.py:23-48 | for the local provider: a refused connection asks to start Ollama at the configured URL; another HTTP failure gives "Failed to check Ollama status: " and its text; a list without the model asks to pull it; a list with it is ready; an undecodable body escapes as its failure |
| `Engine.SelectedMode` | main.py:118 | `choose_mode(user_input) if mode == "auto" else mode`; `Engine.AutoResolvesToCatalogMode` states that "auto" always resolves to a catalog key |
| `Engine.AutoResolvesToCatalogMode` | main.py:118 | with the default fallback, "auto" resolves to one of the four catalog keys |
| `Engine.Retryable` | main.py:73 | the failures caught for another attempt; `Engine.RetryableKinds` names them |
| `Engine.RetryableKinds` | main.py:109 | the cloud path retries exactly a connection error; the local path exactly a connection error or a read timeout; an HTTP status error (local), an authentication error, a rate limit or another API error (cloud) is not retried |
| `Engine.NormaliseMode` | main.py:178 | `.strip().lower() or "auto"` on a typed mode, shared by the command line (main.py:206) and the web gate (web_app.py:128) |
| `Engine.RequestFor` | main.py:64-104 | request contents listed below this table |
| `Engine.ReplyText` | main.py:78-79 | text handling listed below this table |
| `Engine.RetryLoop` | main.py:85-112 | the `for attempt in range(1, 4)` loop with its sleeps returns exactly the run `RetryFrom` describes: result, attempt count and delays |
| `Engine.GenerateResponseOllama` | main.py:82-114 | the local backend runs the retry loop and tags its result with the mode; the request it sends is the local request for that mode |
| `Engine.GenerateResponseOpenai` | main.py:51-79 | without a key it raises the RuntimeError before any attempt; otherwise it runs the cloud retry loop with the cloud request |
| `Engine.GenerateResponse` | main.py:117-126 | `generate_response` equals `Dispatch`: resolve auto, look up the instruction, pick the backend by provider (`Engine.DispatchUsesProviderBackend`); the unknown-provider error is stated by `Engine.UnknownProviderRefused` |
| `Engine.DispatchUsesProviderBackend` | main.py:121-124 | for a selectable mode, "ollama" gets the local retry loop and its reply handling, and "openai" with a key the cloud one; the result is that run's, tagged with the resolved mode, with its attempts and sleeps |
| `Engine.UnknownProviderRefused` | main.py:117-126 | for a selectable mode and a provider other than "ollama" and "openai", the result is the ValueError "Invalid AI_PROVIDER. Use 'ollama' or 'openai'.", with no request, attempt or sleep |
| `Engine.SelectMode` | main.py:178-182 | the typed mode, stripped, lowered and defaulting to "auto", is accepted exactly when it is "auto" or a catalog key |
| `Engine.RetryRunShape` | main.py:61-76 | a run makes one to three attempts and sleeps 1, 2, … after each failed attempt but the last |
| `Engine.RetryRunStops` | main.py:85-112 | stopping point characterised below this table |
| `Engine.RecoversOnThirdAttempt` | main.py:87-112 | two retryable failures and then an answer give the stripped answer after three attempts, with sleeps [1, 2] |
| `Engine.ExhaustionReraisesLast` | main.py:73-76 | three retryable failures re-raise the third, with sleeps [1, 2] and no fourth attempt |
| `Engine.OtherFailureNotRetried` | main.py:109-112 | a failure that is not retryable (HTTP status, authentication, rate limit, …) propagates after one attempt with no sleep |
| `Engine.SuccessStopsRetrying` | main.py:62-72 | an answer on attempt k, after k−1 retryable failures, ends the loop at k with that answer's text |
| `Engine.InvalidModeRefusedBeforeBackend` | main.py:117-124 | a mode that is neither "auto" nor a catalog key fails with the unsupported-mode error before any request, attempt or sleep |
| `Engine.SelectableModeHasInstruction` | main.py:118-119 | "auto" and every catalog key get past the instruction lookup |
| `Engine.ModeUsedIsResolvedMode` | main.py:118 | the mode returned with the answer is `choose_mode(user_input)` for "auto" and the caller's mode otherwise |
| `Engine.MissingKeyFailsBeforeAttempt` | main.py:54-57 | the cloud provider with an empty key fails with the RuntimeError before any attempt or request |
| `Engine.DispatchedRequestShape` | main.py:117-124 | sent-request guarantees listed below this table |
| `Engine.ProbeOnlyForLocal` | main.py:13-22 | for any provider other than "ollama", the probe's outcome does not affect the readiness result |
| `Engine.SelectedModesDispatch` | main.py:206-212 | a mode accepted at the `/mode` prompt never fails the instruction lookup; a rejected one gets the message naming the normalised input and the valid modes |
| `WebApp.LastSix` | web_app.py:60 | `history[-6:]`: the last min(n, 6) entries |
| `WebApp.LineOf` | web_app.py:61-68 | an entry contributes at most one line; `WebApp.LineOfShape` states which |
| `WebApp.BuildContextPrompt` | web_app.py:55-78 | the loop over the last six entries, then the header and the new input, equals `ContextPrompt` |
| `WebApp.TranscriptAppend` | web_app.py:60-68 | the transcript of two stretches of history is their transcripts one after the other, so lines keep the entries' order |
| `WebApp.TranscriptBound` | web_app.py:60-68 | with at most one line per entry, a transcript has at most as many lines as entries |
| `WebApp.TranscriptSources` | web_app.py:60-68 | every transcript line comes from one of the entries |
| `WebApp.ContextLinesAppend` | web_app.py:60-68 | the context lines of concatenated history are the concatenated context lines |
| `WebApp.DroppedEntryIgnored` | web_app.py:61-68 | an entry with blank content, or a role other than user or assistant after strip and lower, leaves no trace |
| `WebApp.LineOfShape` | web_app.py:61-68 | an entry gives a line exactly when its stripped content is non-empty and its role, stripped and lowered, is "user" or "assistant"; the user role gets "User: " and the assistant role "Assistant: ", followed by the stripped content |
| `WebApp.LinesAreLabelled` | web_app.py:65-68 | every transcript line is the line of some entry: the label of that entry's own role followed by its non-empty stripped content |
| `WebApp.TranscriptOfKept` | web_app.py:60-68 | when every entry gives exactly one line, the transcript is those lines in entry order |
| `WebApp.KeptLinesInOrder` | web_app.py:60-68 | when every entry survives, the transcript has one line per entry, line i labelled by entry i's role |
| `WebApp.KeptHistoryPrompt` | web_app.py:56-78 | for a history whose entries all survive, the prompt is the header, the lines of exactly the last six entries (or all, when fewer) in order, each with its role's label, then "User: " and the input |
| `WebApp.OnlyLastSixCount` | web_app.py:60 | entries before the last six do not affect the prompt, and the transcript has at most six lines |
| `WebApp.ContextPromptShape` | web_app.py:56-78 | with no surviving line the prompt is exactly the input; otherwise it starts with the header and ends with "\nUser: " and the input |
| `WebApp.LocalStep` | web_app.py:200-209 | only non-empty content is yielded |
| `WebApp.CloudStep` | web_app.py:171-176 | only a non-empty delta content is yielded |
| `WebApp.IterOllamaChunks` | web_app.py:198-209 | the line loop yields, in order, the non-empty contents and stops at the first raise: it equals `Emitted` over the lines' steps |
| `WebApp.IterOpenaiChunks` | web_app.py:171-176 | the event loop skips events without choices, yields non-empty delta contents in order, and stops at the first raise |
| `WebApp.EmittedAppend` | web_app.py:200-209 | draining two stretches of a stream drains the first and, only if it did not raise, continues with the second |
| `WebApp.SkipIsInvisible` | web_app.py:201-206 | a blank or unparseable line (any item that yields nothing) can be removed without changing the output |
| `WebApp.FragmentsFromSteps` | web_app.py:208-209 | every fragment is the text of some item that yields |
| `WebApp.FragmentsNonEmpty` | web_app.py:208-209 | no yielded fragment is empty |
| `WebApp.LocalFragmentsKeepText` | web_app.py:207-209 | skipping empty contents loses no text: the joined fragments are all the content sent before any raise |
| `WebApp.CloudFragmentsKeepText` | web_app.py:171-176 | skipping events without content loses no text: the joined fragments are all the first-choice delta content sent before any failure |
| `WebApp.OnlyFirstChoiceRead` | web_app.py:174 | choices after the first never change what an event yields |
| `WebApp.ContextFor` | web_app.py:145-149 | `build_context_prompt(user_input, history)` when the history is a list, the input itself otherwise |
| `WebApp.NonListHistoryIgnored` | web_app.py:145-149 | a history that is not a list, like an empty list, leaves the prompt as it is |
| `WebApp.Gate` | web_app.py:126-142 | gate ordering listed below this table |
| `WebApp.Chat` | web_app.py:120-153 | the handler equals `ChatReplyFor`: gate refusals as JSON errors and a crash escaping (`WebApp.HandlersFollowGate`), an answer is the generation's mode and text (`WebApp.AdmittedChatReply`) |
| `WebApp.HandlersFollowGate` | web_app.py:131-142 | in both handlers a gate refusal becomes a JSON error with the refusal's status and message, a crash escapes unchanged, and an admitted request gets the chat reply or the served stream built for it (web_app.py:223-253 for the stream handler) |
| `WebApp.ReadinessCrashEscapes` | web_app.py:140 | with a non-empty prompt and a valid mode, a failure raised inside the readiness check is not turned into a reply: it escapes both handlers unchanged |
| `WebApp.Respond` | web_app.py:144-153 | the `try` block: history folded in when it is a list, and a generation failure becomes a 500 reply with its message |
| `WebApp.AdmittedChatReply` | web_app.py:150-153 | an admitted request whose generation succeeds gets the generation's mode and text; one whose generation fails gets status 500 and the failure's message |
| `WebApp.FirstAnswerIsReturned` | web_app.py:145-151 | an admitted request whose first attempt answers gets the resolved mode and the stripped reply |
| `WebApp.ErrorFragment` | web_app.py:249 | the fragment "\n[Error] " followed by the failure's message; `WebApp.ServedStreamBody` states where it appears |
| `WebApp.Generate` | web_app.py:240-249 | the stream body is the provider's fragments followed, when something raised, by one "\n[Error] " fragment with the failure's message; the checks before it are stated by `WebApp.StreamChecksFirst`, and a stream that fails to open by `WebApp.OpenFailureReported` |
| `WebApp.StreamChecksFirst` | web_app.py:156-161 | a missing cloud key makes "\n[Error] OPENAI_API_KEY is not set." the only fragment; otherwise a failed instruction lookup makes its error the only fragment; in both cases no stream is opened |
| `WebApp.ChatStream` | web_app.py:212-253 | the handler equals `StreamReplyFor`: the same gate as `chat`, then the served stream, as `WebApp.HandlersFollowGate` states |
| `WebApp.Serve` | web_app.py:235-249 | the context prompt, the mode resolved once for the header through `choose_mode(context_prompt)`, then the body |
| `WebApp.GateOrder` | web_app.py:131-142 | a blank prompt gives 400 "Prompt is required." whatever the mode and backend; then an invalid mode gives 400 "Invalid mode: …"; only then a failed readiness gives 503 "Startup check failed: …" |
| `WebApp.AdmittedReachesBackend` | web_app.py:140-150 | an admitted request always reaches a backend, with one to three attempts |
| `WebApp.ChatErrorsComeFromBackend` | web_app.py:131-153 | a 500 reply only follows at least one backend attempt; every other error reply is the gate's own refusal |
| `WebApp.HandlersAgreeOnMode` | web_app.py:238 | for the same request, the `mode_used` of a `chat` answer is the `X-Mode-Used` of `chat_stream` |
| `WebApp.AdmittedIsServable` | web_app.py:140-142 | what the gate admits has a selectable mode and a provider of "openai" or "ollama"; the cloud one has a key, and the local one has the model installed |
| `WebApp.ServedStreamRequest` | web_app.py:156-198 | a served stream sends a streaming request with the provider's model; its two messages are the resolved mode's instruction and the context prompt; the temperature is high exactly for creative; `num_predict` is sent only to the local server, 400 for technical and 512 otherwise |
| `WebApp.OpenFailureReported` | web_app.py:240-249 | a provider stream that fails to open yields exactly one fragment, the error fragment for that failure |
| `WebApp.ServedStreamBody` | web_app.py:240-249 | a served stream's body is the provider stream's fragments, plus one error fragment exactly when it raised |
| `WebApp.StreamFragmentsNonEmpty` | web_app.py:171-209 | no fragment of either backend stream is empty |
| `WebApp.CleanLocalStreamKeepsText` | web_app.py:200-209 | a served local stream that opens and ends cleanly delivers, joined, exactly the content the server sent |
| `WebApp.CleanCloudStreamKeepsText` | web_app.py:171-176 | a served cloud stream that opens and ends cleanly delivers, joined, exactly the first-choice content the service sent |

A few rows need more than one cell's worth of text.

`Engine.StartupCheck`:
- The result is an escaping failure exactly when the provider is "ollama" and the probe's body cannot be decoded.
- Otherwise `ok` holds exactly when one of these holds:
  - the provider is "openai" and the key is non-empty;
  - the provider is "ollama" and some dict record's name equals the model.
- The message is empty exactly when `ok` holds.
- Which message each case gives is stated by `Engine.StartupCheckMessages` and `Engine.LocalStartupMessages`.

`Engine.RequestFor`:
- The messages are the system instruction and then the user text.
- The temperature is high exactly for "creative".
- `num_predict` is sent only to the local server. It is 400 exactly for "technical", otherwise 512.
- The model is the provider's model.

`Engine.ReplyText` (main.py:78-79 and 107-108):
- The reply text is stripped.
- Missing content reads as "".
- A `None` content reads as "" on the cloud path.
- A `None` content raises AttributeError on the local path.

`Engine.RetryRunStops`:
- Every attempt before the last raised a retryable failure.
- The last attempt did one of two things:
  - it answered, and its text is the result;
  - it raised a failure that is not retryable or came on the third attempt, and that failure is the result.

`Engine.DispatchedRequestShape`:
- A request is sent only for a known provider and a mode that has an instruction.
- That request carries the mode's instruction and the derived temperature and `num_predict`.
- It is not a streaming request.
- It is followed by one to three attempts, with sleeps 1, 2, ….
- When no request is sent, no attempt and no sleep happen.

`WebApp.Gate`:
- A request is admitted exactly when all three hold:
  - the stripped prompt is non-empty;
  - the normalised mode is "auto" or a catalog key;
  - readiness is ok.
- An admitted request carries the stripped prompt and the normalised mode.
- Every refusal is a 400 or a 503.

## Left out

- Configuration loading (config.py) is not part of this model. The five settings are a `Config` parameter.
- Real HTTP and SDK calls, JSON decoding and `raise_for_status` are replaced by abstract inputs:
  - what each attempt gives;
  - the status probe;
  - the stream items.
  
  A failure's message text comes from those libraries and is opaque here.
- The model records the delays `time.sleep` is asked for, not the waiting itself.
- The per-call time-outs (`timeout=8.0` for the status probe at main.py:25, `timeout=180.0` for a generation at main.py:103 and web_app.py:197) are not modelled as durations. Their expiry is only an outcome a call may give: `ReadTimeout` for a generation, an HTTP failure for the probe.
- The temperatures 0.7 and 0.3 are the two tags `High` and `Low`. Floating point is not modelled.
- Strings.Lower: does not model Python's Unicode case mapping, only the ASCII letters A–Z. Non-ASCII input is classified as if those characters had no lower-case form.
- WebApp.ChatPayload: the model does not cover three kinds of request body, because it takes each field as already read as a string:
  - a body that is valid JSON but not an object;
  - fields that are not strings (a JSON `null` prompt becomes the text "None" under `str()`);
  - history items that are not objects (they raise on `.get`).
- WebApp.CloudStep: does not model an SDK event whose first choice or delta is malformed. A choice is either absent or well-formed.
- The concrete sentence "explain the architecture of this database in detail" is not evaluated. Deciding every phrase's absence from that literal is beyond the resource limit. `Evaluator.DetailedWinsTieWithTechnical` proves the tie-break it illustrates: detailed beats technical on an equal best score.
- Missing or `None` content normalising to "" holds for the cloud path only. On the local path a `null` content raises. `Engine.ReplyText` models the code, not the uniform rule.
- Flask plumbing is left out: routing, sessions, login and logout, authentication checks, templates, `jsonify`, and the `X-Mode-Used` header as an HTTP header. The header's value is `WebApp.StreamReply.modeUsed`.
- Streams are finite sequences. Generator laziness, `stream_with_context` and connection release are not modelled.
- The command line's loop, its commands, `input`, `print` and `handle_prompt`'s mapping from exceptions to printed messages are terminal I/O. Only the mode check of main.py:178-182 and 206-212 is modelled.
- The final `raise RuntimeError("Failed to get a response from Ollama.")` (main.py:114) is not modelled. Every pass through the local loop returns or raises before it.
