# QuestionnaireMasterPIE session engine in Dafny

This project models the state engine behind QuestionnaireMasterPIE, a chat assistant
that writes a questionnaire in four phases (`collecte`, `plan`, `sections`, `final`).
The model covers:

- the session registry of server/src/sessionStore.ts: creation, lookup, phase update,
  the recursive `deepMerge` of the structured memory, the five-turn ledger and the
  4000-character rolling summary, and reset;
- the model call of server/src/openaiClient.ts. It assembles the prompt (system prompt,
  optional summary, optional memory, the recent turns, then the user message). It also
  covers the ledger side effect, the request settings, aggregation of the streamed
  `output_text` deltas with the `output_text` fallback, the `` ```markdown `` marker
  test, and the disabled branch;
- the three handlers of server/src/index.ts. Each is a state transition over the
  registry: configuration guard (503), schema (400), session lookup (404), version check (409), merge,
  phase hint, model call, then phase inference (`detectPhase`) or forcing to `final`.
  A failed call answers 500;
- the client helpers of client/src/App.tsx: the default theme list, the memory delta
  built from the checkboxes, the fence extraction, the endpoint choice, the submit guard
  and the final-markdown update;
- the list operations of client/src/components/ThematicSelector.tsx.

Layout:

| file | module | contents |
|---|---|---|
| wrappers.dfy | Wrappers | `Option` |
| strings.dfy | Strings | JavaScript `trim`, `indexOf`/`includes`, `slice(-n)`, ASCII `toLowerCase` |
| json.dfy | Json | JSON values, `deepMerge`, JavaScript's view of a non-object delta |
| types.dfy | Types | `Phase` and its wire names, `Turn`, `Session` (the source's `SessionState`), `Envelope` (the source's `AssistantEnvelope`) |
| session_store.dfy | SessionStore | session updates as functions, and the `Store` class over `map<string, Session>` |
| openai_client.dfy | OpenAiClient | prompt assembly and aggregation loops, and `CallOpenAi` on the store |
| server.dfy | Server | `detectPhase`, the schemas, `handleError`, and the `Start`/`Continue`/`Finalize` handlers |
| client_types.dfy | ClientTypes | `Thematic`, `SubThematic` |
| thematic_selector.dfy | ThematicSelector | toggles and additions, plus the list invariant they keep |
| client_app.dfy | ClientApp | the App.tsx helpers, and the links between client and server |

Sessions are values stored in `Store.sessions`. A handler refers to a session by its id,
and each store method states the whole new map. Side effects that JavaScript performs
on a shared session object therefore become map updates.

Several things outside the code become parameters:

- the model reply (`Reply`: streamed events and a final response, or a failure);
- `JSON.stringify` (`Config.serialize`);
- the system prompt (`Config.systemPrompt`);
- the `openaiEnabled` flag;
- the ids that `uuid()` and `makeId()` draw.

Each handler's result is specified by a pure function: `AnsweredTurn` for start and
continue, `AnsweredFinal` for final. The lemmas about those functions state what a turn
does to the session and to the reply.

Three modelling decisions that follow the code exactly:

- The final markdown is replaced only when extraction returns a non-empty string. The
  code tests `if (extracted)`, and the empty string is falsy.
- `output_text` is treated as a list of strings, since the code calls `.length` and
  `.join('')` on it.
- A start or continue turn takes the phase that `detectPhase` finds, or it keeps the
  phase left by the hint. It never returns to the phase the session had before the hint.

## Model

| member | source | states |
|---|---|---|
| Strings.Trim | server/src/sessionStore.ts:62 | the result is a slice of the input; everything cut away is JavaScript whitespace; a non-empty result neither starts nor ends with whitespace |
| Strings.TrimIdempotent | client/src/components/ThematicSelector.tsx:43 | trimming twice equals trimming once |
| Strings.TrimEmptyIff | client/src/App.tsx:131 | `trim()` is empty exactly when the input is whitespace only |
| Strings.TakeLast | server/src/sessionStore.ts:62 | `slice(-n)` keeps the last `n` characters, or the whole string when it is shorter |
| Strings.IndexOf | server/src/index.ts:159 | returns the first match at or after `from`, or none when no position matches |
| Strings.IncludesIff | server/src/index.ts:159 | `includes` holds exactly when the pattern occurs at some index |
| Strings.IncludesPrefix | server/src/index.ts:159-160 | containing `phase finale` implies containing `phase final` (any prefix of a contained string is contained) |
| Strings.AsciiLower | server/src/index.ts:158 | keeps the length; lowers exactly the ASCII capitals at each index |
| Json.DeepMerge | server/src/sessionStore.ts:37-54 | result keys are the union; keys absent from the source are kept; arrays and scalars from the source replace; an object value becomes the deep merge of the target's sub-object (or `{}`) with it, at every nesting level |
| Json.MergeIntoEmpty | server/src/sessionStore.ts:37-54 | merging into `{}` gives the source back |
| Json.MergeEmptySource | server/src/sessionStore.ts:39 | merging `{}` changes nothing |
| Json.MergeResultMergeable | server/src/sessionStore.ts:37-54 | the merged memory accepts the same delta again |
| Json.MergeIdempotent | server/src/sessionStore.ts:37-54 | re-sending the same delta leaves the memory unchanged |
| Json.NestedMergeExample | server/src/sessionStore.ts:44-48 | `{a:{b:1}}` merged with `{a:{c:2}}` gives `{a:{b:1,c:2}}` |
| Json.SourceView | server/src/sessionStore.ts:39-40 | an object delta is its own fields; an array or string delta has exactly the decimal index keys, with the items or the one-character strings under them; a boolean, number or null delta has no keys |
| Json.IndexMap | server/src/sessionStore.ts:39-40 | the keys are exactly the decimal indices, each mapped to the item at that index |
| Json.Truthy | server/src/sessionStore.ts:33 | JavaScript truthiness of a delta: false for null, `false`, 0 and the empty string; no contract of its own, used by `WithMemory` |
| Json.SubTarget | server/src/sessionStore.ts:46 | the target of a recursive merge: the stored object, or `{}` for a missing or non-object value; no contract of its own, its use is stated by `DeepMerge` |
| Json.DecimalStringDistinct | server/src/sessionStore.ts:39 | different indices give different keys, so no array item hides another |
| SessionStore.NewSession | server/src/sessionStore.ts:7-20 | a fresh session keeps the ledger and summary bounds and is a valid one-entry registry under its id |
| SessionStore.RolePrefix | server/src/sessionStore.ts:61 | `Utilisateur` for the user and `Assistant` for the assistant; no contract of its own, used by `SummaryAfter` |
| SessionStore.Snippet | server/src/sessionStore.ts:61 | the role prefix, a colon and a space, then the content; no contract of its own, used by `SummaryAfter` |
| SessionStore.WithPhase | server/src/sessionStore.ts:26-30 | an absent phase changes nothing; a present one sets the phase and nothing else |
| SessionStore.WithMemory | server/src/sessionStore.ts:32-35 | a missing or falsy delta changes nothing; any truthy delta deep-merges its `Object.keys` view (its own fields for an object, its indices for an array or string, none for `true` or a number) into the memory; no other field changes |
| SessionStore.LedgerPush | server/src/sessionStore.ts:57-60 | a ledger of at most five stays at most five, equals the last five of the ledger plus the turn, and ends with the new turn |
| SessionStore.SummaryAfter | server/src/sessionStore.ts:61-62 | the summary is at most 4000 characters and is the last min(4000, length) characters of trim(old summary + newline + role-prefixed snippet) |
| SessionStore.AppendedTurn | server/src/sessionStore.ts:56-63 | appending a turn keeps the ledger and summary bounds |
| SessionStore.LastNOfLastN | server/src/sessionStore.ts:58-59 | shifting early and truncating late keep the same last `n` |
| SessionStore.LedgerKeepsLastFive | server/src/sessionStore.ts:56-60 | after any number of appends the ledger is the last five of old ledger plus appended turns |
| SessionStore.LedgerAfterManyAppends | server/src/sessionStore.ts:56-60 | after five or more appends the ledger is exactly the last five appended turns |
| SessionStore.Store.constructor | server/src/sessionStore.ts:5 | the registry starts empty |
| SessionStore.Store.CreateSession | server/src/sessionStore.ts:7-20 | the new session has the given or default phase and version, empty memory, summary and ledger, is stored under its id, and nothing else changes |
| SessionStore.Store.GetSession | server/src/sessionStore.ts:22-24 | returns the stored session exactly when the id is registered |
| SessionStore.Store.UpdatePhase | server/src/sessionStore.ts:26-30 | only the named session changes, as `WithPhase` says |
| SessionStore.Store.MergeMemory | server/src/sessionStore.ts:32-35 | only the named session changes, as `WithMemory` says |
| SessionStore.Store.AppendTurn | server/src/sessionStore.ts:56-63 | only the named session changes, as `AppendedTurn` says; the registry invariant is kept |
| SessionStore.Store.ResetSession | server/src/sessionStore.ts:65-67 | the id is removed, and every other lookup gives what it gave before |
| OpenAiClient.HeaderMessages | server/src/openaiClient.ts:72-87 | one to three messages, all system messages, starting with the system prompt |
| OpenAiClient.ContextMessages | server/src/openaiClient.ts:72-92 | the whole context; no contract of its own, its shape is stated by `ContextMessagesShape` |
| OpenAiClient.TurnMessages | server/src/openaiClient.ts:88-90 | one message per ledger turn, in order, with the turn's role and content |
| OpenAiClient.ContextMessagesShape | server/src/openaiClient.ts:69-92 | the system prompt comes first; the summary message is present exactly when the summary is non-empty; the memory message is present exactly when the memory has at least one key; then the turns in order; the user message comes last; no system message follows the headers |
| OpenAiClient.AssembleMessages | server/src/openaiClient.ts:69-92 | the loop builds exactly the context messages |
| OpenAiClient.BuildMessages | server/src/openaiClient.ts:69-96 | the messages come from the session before the user turn is appended; afterwards the user turn is on the ledger |
| OpenAiClient.BuildRequest | server/src/openaiClient.ts:24-45 | the model is `gpt-5-mini`, streaming, with the vector store when one is set; `finalOverride` sets verbosity `high` and 20000 output tokens, and neither is set otherwise |
| OpenAiClient.AggregatedText | server/src/openaiClient.ts:48-59 | the content of a reply; no contract of its own, stated by `FallbackIff` and computed by `Aggregate` |
| OpenAiClient.ConcatAppend | server/src/openaiClient.ts:58 | joining concatenated lists is the concatenation of the joins |
| OpenAiClient.StreamTextInArrivalOrder | server/src/openaiClient.ts:48-54 | the streamed text of two batches is the text of the first followed by the text of the second |
| OpenAiClient.ConcatEmptyIff | server/src/openaiClient.ts:57 | the joined text is empty exactly when every part is empty |
| OpenAiClient.FallbackIff | server/src/openaiClient.ts:57-59 | the `output_text` fallback is used exactly when the streamed text is empty and `output_text` is non-empty; otherwise the content is the streamed text |
| OpenAiClient.Aggregate | server/src/openaiClient.ts:48-59 | the loop over events computes the aggregated text, fallback included |
| OpenAiClient.SessionAfterCall | server/src/openaiClient.ts:14-93 | the session after a call; no contract of its own, stated by `CallKeepsSession` and `CallLedger` |
| OpenAiClient.CallKeepsSession | server/src/openaiClient.ts:14-67 | a call changes only the ledger and the summary, and keeps the session bounds |
| OpenAiClient.CallLedger | server/src/openaiClient.ts:14-67 | a disabled call appends only the notice; an enabled failed call appends only the user turn; an enabled successful call appends the user turn and then the assistant turn carrying its content |
| OpenAiClient.CallOpenAi | server/src/openaiClient.ts:14-67 | the store changes as `SessionAfterCall` says. Disabled: the result is the notice with the flag false, and no request is sent. Enabled: the request carries the context messages, the model `gpt-5-mini` with streaming, the vector store when one is set, and verbosity `high` with 20000 output tokens exactly on a final override (neither otherwise); the call throws exactly when the reply fails; otherwise the content is the aggregated text and the flag is the case-sensitive marker test |
| Server.DetectPhase | server/src/index.ts:157-164 | the inferred phase; no contract of its own, stated by `DetectPhasePriority` and `DetectPhaseIgnoresCase` |
| Server.DetectPhasePriority | server/src/index.ts:157-164 | `final` exactly when the lowered text contains `phase final`; `sections` exactly when it contains `phase section` but no final marker; then `plan`, then `collecte`; none without any marker |
| Server.DetectPhaseIgnoresCase | server/src/index.ts:158 | texts equal up to ASCII case infer the same phase |
| Server.ParsePhase | server/src/index.ts:26 | accepts exactly the four phase names, and each parses to the phase of that name |
| Server.ParsePhaseName | server/src/index.ts:26 | every phase's wire name parses back to that phase |
| Server.ParseStart | server/src/index.ts:28-33 | accepts exactly an object with a string `promptVersion`, a non-empty string `userMessage` and a valid optional `phaseHint`; the parsed version and message are the body's strings, the delta is passed through, and the hint is the parsed `phaseHint` when present and none otherwise |
| Server.ParseContinue | server/src/index.ts:35-37 | the start schema plus a `sessionId` of at least eight characters; the parsed id is the body's `sessionId` and the rest is the start parse |
| Server.HandleError | server/src/index.ts:166-175 | missing configuration gives 503, a schema error gives 400, anything else gives 500 |
| Server.PhaseAfterReply | server/src/index.ts:57 | `detectPhase(content) ?? session.phase`; no contract of its own, used by `AnsweredTurnPhase` |
| Server.Prepared | server/src/index.ts:53-54 | after merge and hint the phase is the hint or the old phase, and only memory and phase have changed |
| Server.AnsweredTurn | server/src/index.ts:52-68 | a start or continue turn after its checks; no contract of its own, stated by `AnsweredTurnPhase` |
| Server.AnsweredFinal | server/src/index.ts:127-141 | a final turn after its checks; no contract of its own, stated by `AnsweredFinalPhase` |
| Server.AnsweredTurnPhase | server/src/index.ts:90-105 | a turn ends in the inferred phase or the hinted one, and the envelope carries that phase, the merged memory, the session id and `ask_user`; a failed call gives 500 and keeps the hinted phase |
| Server.AnsweredFinalPhase | server/src/index.ts:127-141 | a final turn always ends in `final` and answers `final` with `persist_and_render` and the marker flag of its content; a failed call gives 500 |
| Server.AnswerTurn | server/src/index.ts:90-105 | the steps after the checks change only the session, as `AnsweredTurn` says; the request sent carries the context of the session after the merge and the hint, with no final override (`TurnRequest`) |
| Server.AnswerFinal | server/src/index.ts:127-141 | the steps after the checks change only the session, as `AnsweredFinal` says; the request sent carries the context of the session after the merge and the forced `final` phase, with the final override (verbosity `high`, 20000 output tokens) |
| Server.MergeIntoEmptyFits | server/src/index.ts:52-53 | a freshly created session accepts any delta |
| Server.Start | server/src/index.ts:43-74 | 503, 400 and 409 leave the registry unchanged; otherwise the new session becomes `AnsweredTurn` of a fresh `collecte` session, and the response is that turn's response; a request goes to the model exactly when every check passed, and it is the `TurnRequest` of that session without the override |
| Server.Continue | server/src/index.ts:76-111 | 503, 400, 404 and 409 leave the registry unchanged; otherwise the session becomes `AnsweredTurn` of the stored session; a request goes to the model exactly when every check passed, built from the merged and hinted session without the override |
| Server.Finalize | server/src/index.ts:113-147 | 503, 400, 404 and 409 leave the registry unchanged; otherwise the session becomes `AnsweredFinal` of the stored session; a request goes to the model exactly when every check passed, built from the merged session in `final` with the final override |
| ThematicSelector.ToggleThematic | client/src/components/ThematicSelector.tsx:20-26 | same length and order; matching items have `checked` flipped; every other item is unchanged |
| ThematicSelector.ToggleIn | client/src/components/ThematicSelector.tsx:34-36 | same length and order; matching sub-themes are flipped and the others keep their values |
| ThematicSelector.ToggleSubtheme | client/src/components/ThematicSelector.tsx:28-40 | thematics with other ids are unchanged; in the matching thematic only the sub-theme list is toggled |
| ThematicSelector.AddThematic | client/src/components/ThematicSelector.tsx:42-54 | blank input leaves the list unchanged; otherwise one custom, checked, empty thematic with the trimmed label is appended at the end |
| ThematicSelector.AddSubtheme | client/src/components/ThematicSelector.tsx:56-73 | a blank draft changes nothing; otherwise the length is kept, only matching thematics gain the trimmed custom checked sub-theme at the end, and the draft is cleared |
| ThematicSelector.ToggleThematicTwice | client/src/components/ThematicSelector.tsx:20-26 | toggling the same thematic twice restores the list |
| ThematicSelector.ToggleThematicCommutes | client/src/components/ThematicSelector.tsx:20-26 | toggles of two thematics commute |
| ThematicSelector.ToggleSubthemeTwice | client/src/components/ThematicSelector.tsx:28-40 | toggling the same sub-theme twice restores the list |
| ThematicSelector.ToggleSubthemeLocal | client/src/components/ThematicSelector.tsx:28-40 | a sub-theme toggle changes only `checked`, and changes it exactly on the matching sub-theme of the matching thematic |
| ThematicSelector.ToggleThematicKeepsWellFormed | client/src/components/ThematicSelector.tsx:20-26 | toggling keeps ids distinct and labels tidy |
| ThematicSelector.ToggleSubthemeKeepsWellFormed | client/src/components/ThematicSelector.tsx:28-40 | toggling keeps ids distinct and labels tidy |
| ThematicSelector.AddThematicKeepsWellFormed | client/src/components/ThematicSelector.tsx:42-54 | adding under a fresh id keeps the list invariant |
| ThematicSelector.AddSubthemeKeepsWellFormed | client/src/components/ThematicSelector.tsx:56-73 | adding under an id fresh in that thematic keeps the list invariant |
| ClientApp.DefaultSubthemes | client/src/App.tsx:57-60 | each default sub-theme gets the id `label-subid` and keeps its label and flag |
| ClientApp.CreateDefaultThematics | client/src/App.tsx:52-62 | the three catalogue themes in order, with the drawn ids and their labels and flags copied |
| ClientApp.CatalogueTidy | client/src/App.tsx:17-43 | the catalogue has tidy labels and distinct sub-theme ids |
| ClientApp.DefaultsWellFormed | client/src/App.tsx:52-62 | with distinct drawn ids the default list satisfies the selector's invariant |
| ClientApp.WireSubs | client/src/App.tsx:71-75 | same length and order; label, `checked` and `custom` copied; ids dropped |
| ClientApp.WireThematics | client/src/App.tsx:67-76 | same length and order; label, `checked` and `custom` copied; sub-themes mirrored |
| ClientApp.BuildMemoryDelta | client/src/App.tsx:64-79 | the delta has the single key `collecte`, holding an object with the single key `thematiques` |
| ClientApp.DeltaRoundTrip | client/src/App.tsx:64-79 | reading `collecte.thematiques` back from the delta gives the wire list |
| ClientApp.DeltaIgnoresIds | client/src/App.tsx:64-79 | lists that differ only in ids give the same delta |
| ClientApp.MergedDeltaReplacesThematics | client/src/App.tsx:64-79 | after the server merges the delta, `collecte.thematiques` reads back as exactly the sent list, and every other memory key and every other `collecte` key is kept |
| ClientApp.FenceMatch | client/src/App.tsx:82 | the first case-insensitive opening fence, the body start after one optional newline, and the nearest closing fence after it |
| ClientApp.FenceFoundIff | client/src/App.tsx:82 | a match exists exactly when some opening fence is later followed by a closing fence |
| ClientApp.ExtractMarkdownFence | client/src/App.tsx:81-84 | none exactly when there is no fence; otherwise the trimmed body of the selected fence |
| ClientApp.MarkerImpliesOpening | server/src/openaiClient.ts:65 | the server's case-sensitive marker implies the client's case-insensitive opening |
| ClientApp.UnclosedFenceExample | client/src/App.tsx:175-177 | an unclosed fence is flagged by the server but yields no extraction |
| ClientApp.ChooseEndpoint | client/src/App.tsx:157-161 | no truthy session id selects start; an id with phase `final` selects final; any other id selects continue |
| ClientApp.SubmitText | client/src/App.tsx:131-135 | nothing is sent while sending or with blank input; otherwise the trimmed input is sent |
| ClientApp.SubmittedTextIsTidy | client/src/App.tsx:131-135 | the sent text is non-empty and already trimmed |
| ClientApp.StartPayload | client/src/App.tsx:151-155 | the start body; no contract of its own, its acceptance is stated by `StartPayloadAccepted` |
| ClientApp.ContinuePayload | client/src/App.tsx:157-160 | the continue and final body; no contract of its own, its acceptance is stated by `ContinuePayloadAccepted` |
| ClientApp.StartPayloadAccepted | client/src/App.tsx:151-155 | a start body built from a submitted text passes the server's start schema with the current version, message, delta and hint |
| ClientApp.ContinuePayloadAccepted | client/src/App.tsx:157-160 | with an id of eight or more characters, the continue and final bodies pass the continue schema |
| ClientApp.NextFinalMarkdown | client/src/App.tsx:175-182 | the final markdown is replaced exactly when the envelope is flagged and extraction gives a non-empty string |
| ClientApp.AfterEnvelope | client/src/App.tsx:163-164 | the session id and phase are taken from the envelope |
| ClientApp.NextEndpointAfterReply | client/src/App.tsx:157-164 | after an answered final turn the next submit goes to final; after a start or continue turn it goes to final exactly when the turn ended in `final` |

## Left out

- Streaming transport (`client.responses.stream`, event callbacks, `finalResponse`): the events and the final response are the `Reply` parameter.
- Network and process plumbing: Express, CORS, the JSON body limit, `app.listen`, `/api/health`, and the fallback error middleware. A malformed JSON body (a 500 from the middleware) is not modelled.
- Zod's issue list in the 400 body: only the status and message are modelled.
- `console.error(error)` in `handleError`: logging is output only and is not modelled.
- server/src/env.ts: it only reads environment variables. `openaiEnabled` and the vector store id are `Config` fields.
- server/src/prompt.ts: the prompt text is `Config.systemPrompt`, and only the version constant is kept.
- `JSON.stringify` of the memory in the prompt: it is the abstract `Config.serialize`. Its output depends on the insertion order of the memory's keys, but `serialize` takes an unordered map, so the memory message cannot reflect that order.
- client/src/lib/api.ts: its `fetch` calls and error shaping are network I/O. Only the request body it sends and its version constant are modelled.
- client/src/lib/markdown.ts and the React rendering and state (`useState`, the hidden input ref, keyboard handlers, input resets, the phase label): these are presentation.
- Id generation (`uuid()`, `crypto.randomUUID`, `Math.random`): ids are parameters, and freshness is a precondition.
- Concurrent requests on one session: turns are modelled one after another.
- JavaScript numbers: JSON numbers are integers here, since no operation of the core computes on them.
- Strings are sequences of `char`, not UTF-16 code units. Surrogate pairs of astral characters are not modelled. They affect `slice(-4000)`, the zod `min(1)` and `min(8)` length checks, and the indices of a string delta.
- Strings.AsciiLower: only ASCII letters are lowered, where `toLowerCase` also lowers other scripts. The phase markers are ASCII, so detection is affected only when a non-ASCII capital lowers into an ASCII letter.
- Json.DeepMerge: does not model the `__proto__` key. `JSON.parse` makes `"__proto__"` an own key of a delta, but `output[key] = ...` then sets the prototype and creates no own key. The map model keeps the key, so for a delta such as `{"__proto__": {}}` the model's memory has a key where the source's has none (and `buildMessages` then sends a memory message where the source does not).
- Json.DeepMerge: requires `Mergeable`, which excludes a delta object landing on a stored array. There the source copies the array into a new array and adds keys to it.
- SessionStore.Store.MergeMemory: requires `DeltaFits`, which is the same exclusion at the top level.
- Server.Continue: requires `ContinueDeltaFits`, which is the same exclusion for the stored session.
- Server.Finalize: requires `ContinueDeltaFits`, which is the same exclusion for the stored session.
- Server.Start: requires a fresh id for the created session, which is what `uuid()` provides.
- The SDK's own type for `output_text`: it is a joined string in the SDK, while the code uses it as a list; the model follows the code.
