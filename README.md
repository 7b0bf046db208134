# vibe-coding-plus, modelled in Dafny

vibe-coding-plus is a local coding assistant. A browser panel records
speech and sends it to a relay. The relay forwards the audio to a
transcription server and chat turns to a language-model server. The model
proposes file edits, which a person can preview, write into the project's
`src` directory and check by running the test command. This project models
the relay's request handlers, its path sandbox and its CORS rule. It also
models the panel's client logic: choosing a recording format, reading the
transcription reply, turning a model reply into plan steps, and the state
the panel keeps as its buttons are used.

Layout, one module per file:

- `js.dfy` (`Js`): JSON values as JavaScript sees them, plus truthiness,
  `?.`, `||` and `String()`.
- `http.dfy` (`Http`): an upstream reply as a value and a handler's reply.
- `text.dfy` (`Text`): splitting on a character, JavaScript whitespace,
  `trim`, `join` and removing a value from a list.
- `cors.dfy` (`Cors`): the CORS middleware of `server/index.mjs`.
- `paths.dfy` (`Paths`): `safeResolve`, with Node's POSIX `path.join`
  written out as a stack of path segments.
- `workspace.dfy` (`Workspace`): `/patch/preview` and `/patch/apply`. The
  class `Disk` holds the project's files in a map. Its `Preview` and
  `Apply` methods keep the handlers' loops and are proved against
  prefix-recursive functions.
- `relay.dfy` (`Relay`): the `/asr`, `/chat`, `/asr/health` and
  `/test/run` handlers of `server/index.mjs`.
- `legacy_relay.dfy` (`LegacyRelay`): the `/asr` and `/chat` handlers of
  the older `server/index.js`.
- `local_llm.dfy` (`LocalLlm`): `makePlan` of `src/lib/localLlm.ts`.
- `vibe_panel.dfy` (`VibePanel`): the component
  `src/components/VibeCodingPlus.tsx`. The class `Panel` holds the intent,
  the plan, the draft patches and the two status lines.

Every `fetch` is an input: `Some(Fetched(status, text, json))` is the
response, where `json` is what `JSON.parse` gives for the body (None when
the body is not JSON). `None` stands for a `fetch` that rejected. The
message of an error that reaches a `catch` is an input `thrown`.

Where the code and the design description differ, the model follows the
code:

- `/patch/apply` checks each path just before writing it. A batch whose
  second path escapes has already written the first file
  (`Workspace.EscapeAfterWriteKeepsFirstWrite`).
- `path.join` keeps a trailing "/", so `"src/"` itself passes the sandbox
  check (`Paths.SrcSlashAccepted`).
- An empty patch list is answered with `ok: true`, not with status 400.
- The relay attaches no upstream credential and checks no API key.
- The upstream URLs have built-in defaults, so no "missing upstream" error
  exists.
- The chat `text` is passed on as it is. It is not always a string: a
  truthy non-string `content` is returned unchanged.
- `/asr` accepts an upload of zero bytes.
- The panel polls `GET /asr` for health. The relay has no such route, so
  the status pill only reflects the relay's answer to an unknown route. The
  poll is not modelled.

## Model

| member | source | states |
|---|---|---|
| Js.Or | server/index.mjs:37 | `a \|\| b` is the left operand exactly when it is truthy, otherwise the right one |
| Js.Get | src/components/VibeCodingPlus.tsx:54 | `v?.key` is defined only on an object that has that member, and then it is that member |
| Js.ErrorText | server/index.mjs:40 | `e?.message \|\| fallback`: a non-empty message wins, otherwise the fallback |
| Js.NatToString | src/components/VibeCodingPlus.tsx:50 | `String(n)` of a status code is a non-empty string of digits with no leading zero (unless it is "0") whose decimal value is `n` |
| Text.Split | src/components/VibeCodingPlus.tsx:94-95 | `split('\n')` gives at least one piece and no piece holds the separator |
| Text.SplitAppend | src/components/VibeCodingPlus.tsx:95 | splitting `a + sep + b` gives the pieces of `a` followed by the pieces of `b` |
| Text.SplitNoSeparator | src/components/VibeCodingPlus.tsx:95 | a text without the separator splits into itself alone |
| Text.Trim | src/components/VibeCodingPlus.tsx:96 | `trim()` is no longer than its input and starts and ends with a non-space when it is non-empty |
| Text.TrimShape | src/components/VibeCodingPlus.tsx:96 | `trim()` is a slice of the input with only whitespace cut on either side |
| Text.AllSpacesTrimEmpty | src/lib/localLlm.ts:19 | a line of whitespace trims to "", which `filter(Boolean)` drops |
| Text.TrimmedIsFixed | src/lib/localLlm.ts:19 | a text with no whitespace at either end is its own `trim()` |
| Text.Without | src/components/VibeCodingPlus.tsx:347 | `filter(x => x !== v)` removes every `v`, keeps every other value as often as before, and changes nothing when `v` is absent |
| Text.WithoutAppend | src/components/VibeCodingPlus.tsx:347 | the filter distributes over concatenation, so the kept values stay in their order |
| Text.WithoutOne | src/components/VibeCodingPlus.tsx:347 | one element is dropped exactly when it equals `v` |
| Cors.LiteralThenDigitsIff | server/index.mjs:15 | the test "literal, then one or more digits, to the end, ignoring case" holds exactly when some decimal port completes the literal |
| Cors.HostIff | server/index.mjs:15 | for either loopback host, the regex branch holds exactly when the origin spells that host with some decimal port |
| Cors.AllowedOriginIff | server/index.mjs:15 | the origin regex accepts exactly the `http://<localhost or 127.0.0.1>:<digits>` origins, ignoring case |
| Cors.Middleware | server/index.mjs:13-21 | the origin is echoed exactly when it is a loopback origin; methods and headers are always set and nothing else is; OPTIONS, and only OPTIONS, is answered at once with 200 |
| Cors.LoopbackWithPort | server/index.mjs:15 | any decimal port on either loopback host is accepted |
| Cors.AcceptedOrigins | server/index.mjs:15 | the dev-server origins `http://localhost:5173` and `http://127.0.0.1:3000` are accepted |
| Cors.UpperCaseOriginAccepted | server/index.mjs:15 | the `i` flag makes `HTTP://LocalHost:8080` acceptable |
| Cors.RejectedOrigins | server/index.mjs:15 | no port, `https`, a path after the port, or no origin at all is refused |
| Paths.Render | server/index.mjs:67-68 | a non-empty list of segments is written as an absolute path starting with "/" |
| Paths.SafeResolve | server/index.mjs:66-72 | a path is accepted exactly when its join with the root starts with the safe prefix; then it is that join, otherwise the error is `outside-allowed-path` |
| Paths.FoldNames | server/index.mjs:68 | normalising plain names appends them to the directories so far |
| Paths.FoldKeepsNames | server/index.mjs:68 | normalisation leaves only plain names, whatever segments it is given |
| Paths.SafeResolveIff | server/index.mjs:66-72 | a client path is accepted exactly when, after normalisation, it names the root, then `src`, then more, or `src` itself written with a trailing "/" |
| Paths.AcceptedStaysInRoot | server/index.mjs:66-72 | an accepted path lies strictly inside the project root |
| Paths.SrcAloneRejected | server/index.mjs:67-70 | `src` without a trailing "/" is refused |
| Paths.ParentRejected | server/index.mjs:67-70 | `../<name>` is refused |
| Paths.SrcParentRejected | server/index.mjs:67-70 | `src/../<name>` climbs back out of `src` and is refused |
| Paths.SrcSlashAccepted | server/index.mjs:67-70 | `src/` itself is accepted, because the join keeps the trailing "/" |
| Paths.SrcFileAccepted | server/index.mjs:67-71 | `src/<name>` is accepted and resolves to the root, then `src`, then the name |
| Workspace.FilesOf | server/index.mjs:97 | `patches.map(p => p.file)` has one entry per patch, in order |
| Workspace.Disk.constructor | server/index.mjs:66-67 | a disk fixes its root and files, and its path check is `safeResolve` for that root |
| Workspace.Disk.Preview | server/index.mjs:74-88 | the loop reads only and its answer is the preview function of the current files, with `patches \|\| []` for a missing list |
| Workspace.Disk.Apply | server/index.mjs:90-101 | the loop leaves the files and the answer of the apply function run over the old files |
| Workspace.PreviewRejectionSticks | server/index.mjs:79 | once a path is refused, the later patches do not change the preview's answer |
| Workspace.PreviewContract | server/index.mjs:74-88 | the preview succeeds exactly when every file resolves; then it has one entry per patch, in order, with `file` and `after` copied and `before` read from disk, "" for a missing file; otherwise its error is the one some patch produced |
| Workspace.PreviewMissingFile | server/index.mjs:81 | a file that does not exist is previewed as empty |
| Workspace.PreviewEscapeRefusesBatch | server/index.mjs:79-86 | an escaping path anywhere in the batch refuses the whole preview with 400 and `outside-allowed-path` |
| Workspace.ApplyFailureSticks | server/index.mjs:92-99 | once a patch fails, the later ones change nothing |
| Workspace.ApplySucceeds | server/index.mjs:90-97 | the apply succeeds exactly when no patch fails; then `applied` lists the patch files, every file holds the `after` of the last patch aimed at it, and every other file is unchanged |
| Workspace.ApplyStaysUnderPrefix | server/index.mjs:92-96 | whether the run succeeds or stops, every file it adds or changes lies under the safe prefix, and no file disappears |
| Workspace.ApplyStopsAtFirstFailure | server/index.mjs:92-99 | a failure at patch `k` leaves patches before `k` written, reports that failure, and answers 400 |
| Workspace.LastPatchWins | server/index.mjs:92-96 | of two patches to one file, the second one's content is what stays |
| Workspace.WriteThenRead | server/index.mjs:81-95 | after applying a patch, a preview of the same file shows the written content as `before` |
| Workspace.EscapeAfterWriteKeepsFirstWrite | server/index.mjs:92-99 | a valid patch followed by an escaping one answers 400 with the first file already written |
| Relay.Setting | server/index.mjs:23-24 | an unset or empty variable falls back to the built-in URL |
| Relay.FirstTruthy | server/index.mjs:37 | reference rule: the first of a list of members that is truthy, or none when all are falsy |
| Relay.TranscriptIsFirstTruthy | server/index.mjs:37 | the transcript is the text of the first truthy of `text`, `result`, `transcript`, otherwise "" |
| Relay.AsrNormalised | server/index.mjs:37-40 | a readable body gives 200 with `text` and `raw`; an unreadable or `null` body gives 500 with the thrown message |
| Relay.JsonOrText | server/index.mjs:36 | intended rule: the parsed JSON, otherwise `{ text: <body> }` |
| Relay.AsrAsWritten | server/index.mjs:28-42 | as written, an ok upstream whose body is not JSON ends in the 500 |
| Relay.Asr | server/index.mjs:28-42 | no file gives 400 `no file`; otherwise the upload is part `file`, name `audio.webm`, the uploaded type and bytes; a rejected fetch gives 500; a non-ok upstream gives 502 `whisper upstream` with its body; a JSON body gives its transcript; a text body is the transcript |
| Relay.TextOnlyTranscript | server/index.mjs:36-37 | a body that is not JSON becomes its own transcript |
| Relay.AsrAsWrittenAgrees | server/index.mjs:36 | the as-written and intended handlers differ only on an ok upstream whose body is not JSON |
| Relay.AsrPlainTextReply | server/index.mjs:36 | a plain-text reply "hi" is a 500 as written and the transcript "hi" as intended |
| Relay.TranscriptFallsThrough | server/index.mjs:37 | an empty `text` falls through to `transcript` |
| Relay.RequestBody | server/index.mjs:46 | `req.body \|\| {}` |
| Relay.OllamaRequest | server/index.mjs:49-50 | the Ollama request has `messages` (or []), `stream: false`, and `model` exactly when the body had one, and nothing else |
| Relay.OrEmpty | server/index.mjs:53 | `v \|\| ''` is the member when truthy, otherwise "" |
| Relay.ChatReply | server/index.mjs:51-62 | a rejected fetch or a non-JSON body gives 500; a non-ok upstream gives 502 with the dialect's label and its body; otherwise 200 with the extracted `text` and the `raw` data |
| Relay.Chat | server/index.mjs:44-64 | a URL containing `/api/chat` gets the Ollama request and the `ollama upstream` reply rules; any other URL gets the body unchanged and the `llm upstream` rules |
| Relay.OllamaTextRule | server/index.mjs:53 | the Ollama text is `message.content` when truthy, otherwise "" |
| Relay.OpenAiTextRule | server/index.mjs:59 | the OpenAI-style text is the first choice's `message.content` when truthy, otherwise "" |
| Relay.OpenAiTextMissing | server/index.mjs:59 | without `choices`, or with an empty list of them, the text is "" |
| Relay.DefaultChatForwards | server/index.mjs:24 | with the built-in URL the body is forwarded unchanged |
| Relay.NotOllamaDefault | server/index.mjs:24 | the built-in URL does not contain `/api/chat` |
| Relay.NoSlashApi | server/index.mjs:48 | a text in which no "/" is followed by "a" does not contain `/api/chat` |
| Relay.Health | server/index.mjs:114-127 | OPTIONS is tried only when GET gets no answer; it answers 200 `ok: true` exactly when either probe got an answer, otherwise 502 `unreachable` |
| Relay.AnyStatusIsReachable | server/index.mjs:118-119 | any answer to the GET, whatever its status, is reported as reachable with that status |
| Relay.TestCommand | server/index.mjs:104 | `req.body?.cmd` when truthy, otherwise `npx vitest run --reporter=basic` |
| Relay.TestReply | server/index.mjs:109 | the close reply has exactly `ok`, `code`, `stdout` and `stderr`; `ok` exactly when the exit code is 0; `code` is null when a signal ended the command |
| LegacyRelay.AsrAsWritten | server/index.js:17-36 | the older `/asr` as written: no file gives 400 `no file`; the upload is part `file`, name `audio.webm`, the uploaded type and bytes; a rejected fetch gives 500; a non-ok upstream gives 502 `whisper upstream` with its body; an ok body that is not JSON, or is `null`, gives 500; a JSON body gives its transcript and `raw` |
| LegacyRelay.Asr | server/index.js:17-36 | intended: an ok body that is not JSON is the transcript, with `raw` set to `{ text: <body> }`; every other case is as written |
| LegacyRelay.AsrAgreesWithRelay | server/index.js:17-36 | the older `/asr` computes the same exchange as the newer one, as written and as intended |
| LegacyRelay.AsrPlainTextReply | server/index.js:29 | a plain-text reply "hi" is a 500 as written and the transcript "hi" as intended |
| LegacyRelay.Chat | server/index.js:39-57 | the older relay forwards `req.body \|\| {}` unchanged; a non-ok upstream gives 502 `llama upstream`; otherwise the same rules as the OpenAI path |
| LegacyRelay.ChatAgreesWithRelay | server/index.js:39-57 | against an OpenAI-style URL the two relays send the same body and reply alike, except for the label of an upstream failure |
| LocalLlm.UserContent | src/lib/localLlm.ts:9 | the user message is `Task: <task>`, a newline, then `Context files: ` and the files joined by ", " |
| LocalLlm.Request | src/lib/localLlm.ts:7-12 | the request is the configured model at temperature 0.2 with the system prompt and then the user message |
| LocalLlm.SkipNewlines | src/lib/localLlm.ts:19 | a run of newlines is skipped to its end |
| LocalLlm.SplitRuns | src/lib/localLlm.ts:19 | `split(/\n+/)` gives at least one piece, none holding a newline, only the first and last possibly empty, the first empty exactly when the text starts with a newline |
| LocalLlm.StripParenShape | src/lib/localLlm.ts:19 | removing `^\d+\)\s*` leaves a suffix; a line not starting with a digit is unchanged; a change means digits then ")" led the line |
| LocalLlm.MapAll | src/lib/localLlm.ts:19 | `map(f)` has one element per line, each `f` of that line |
| LocalLlm.NonEmpty | src/lib/localLlm.ts:19 | `filter(Boolean)` keeps only non-empty elements of its input, never more of them |
| LocalLlm.StepsAreTrimmed | src/lib/localLlm.ts:19 | every step is non-empty and has no whitespace at either end |
| LocalLlm.CleanOne | src/lib/localLlm.ts:19 | one line gives its tidied form, unless that is blank |
| LocalLlm.CleanStepsAppend | src/lib/localLlm.ts:19 | steps work line by line and keep the lines' order |
| LocalLlm.Take | src/lib/localLlm.ts:19 | `slice(0, n)` is a prefix: the whole list when it has at most `n` elements, otherwise exactly its first `n` |
| LocalLlm.StepsOf | src/lib/localLlm.ts:19 | the steps are exactly the first six of the cleaned pieces, or all of them when there are at most six |
| LocalLlm.ReplyText | src/lib/localLlm.ts:18 | `data?.text` when truthy, otherwise the built-in three-line reply |
| LocalLlm.MakePlan | src/lib/localLlm.ts:6-24 | a rejected fetch, a non-ok status, a non-JSON body or a non-string text gives the fallback plan; otherwise the steps of the text, `~1m` and `validate test coverage`; never more than six steps |
| LocalLlm.TidyNumbered | src/lib/localLlm.ts:19 | `N) text` tidies to `text` |
| LocalLlm.BlankLineDropped | src/lib/localLlm.ts:19 | a blank line contributes no step |
| LocalLlm.NewlinesAddEmptyPieces | src/lib/localLlm.ts:19 | extra newlines only add blank pieces, which give no steps |
| LocalLlm.SplitRunsMatchesSplit | src/lib/localLlm.ts:19 | splitting on newline runs and on single newlines agree on the first piece and give the same steps from the rest |
| LocalLlm.StepsOfLines | src/lib/localLlm.ts:19 | the steps of a text are the steps of its lines |
| LocalLlm.ThreeLines | src/lib/localLlm.ts:19 | three lines joined by newlines split back into those three lines |
| LocalLlm.ThreeSteps | src/lib/localLlm.ts:19 | three lines that tidy to non-blank steps give those steps, in order |
| LocalLlm.NumberedSteps | src/lib/localLlm.ts:17-19 | a reply `1) a`, `2) b`, `3) c` gives the steps a, b, c |
| LocalLlm.DefaultReplySteps | src/lib/localLlm.ts:18-19 | the built-in reply gives `Analyze files`, `Implement change`, `Run tests` |
| LocalLlm.BlankReplyGivesNoSteps | src/lib/localLlm.ts:18-20 | a truthy reply with no words gives a plan with no steps, not the fallback |
| VibePanel.PickMimeType | src/components/VibeCodingPlus.tsx:29-36 | the chosen type is the first supported candidate, or "" when none is supported |
| VibePanel.RecorderOptions | src/components/VibeCodingPlus.tsx:37 | options are given exactly when a type was chosen, and then carry it |
| VibePanel.TextOrEmpty | src/components/VibeCodingPlus.tsx:54 | `data?.text \|\| ''` |
| VibePanel.ClientTranscript | src/components/VibeCodingPlus.tsx:49-60 | intended: a rejected fetch reports the thrown message; a non-ok reply reports `ASR upstream <status>`; JSON gives its `text`; a text body is the transcript |
| VibePanel.ClientTranscriptAsWritten | src/components/VibeCodingPlus.tsx:52-57 | as written, an ok reply whose body is not JSON reaches `onError`; every other reply is handled as intended |
| VibePanel.PlainTextTranscript | src/components/VibeCodingPlus.tsx:52-57 | the plain-text reply "hello" is the transcript as intended and an error as written |
| VibePanel.PlannerRequest | src/components/VibeCodingPlus.tsx:76-83 | the planner sends the configured model at 0.2 with its system prompt and `Task: …\nFiles: …` |
| VibePanel.FirstDot | src/components/VibeCodingPlus.tsx:96 | the leftmost position where `\s*\d+\.\s*` matches, with the match's end, or none anywhere |
| VibePanel.StripNumberingAsWrittenShape | src/components/VibeCodingPlus.tsx:96 | as written, the replacement removes a leading `N)`, otherwise the leftmost `N.` anywhere in the line |
| VibePanel.StripNumberingShape | src/components/VibeCodingPlus.tsx:96 | intended: only a leading number goes, leaving a suffix, and a line without one is kept |
| VibePanel.StripNumberingAgrees | src/components/VibeCodingPlus.tsx:96 | the two rules agree when the line starts with `N)`, when the leftmost `N.` is at its start, or when there is none |
| VibePanel.VersionNumberMangled | src/components/VibeCodingPlus.tsx:96 | as written, the step "v2.0" becomes "v0" |
| VibePanel.VersionNumberKept | src/components/VibeCodingPlus.tsx:96 | under the anchored rule "v2.0" is kept |
| VibePanel.NumberedStep | src/components/VibeCodingPlus.tsx:96 | `N) text` and `N. text` become `text` |
| VibePanel.NumberedStepAsWritten | src/components/VibeCodingPlus.tsx:96 | the as-written pattern also turns `N) text` and `N. text` into `text` |
| VibePanel.StepOfTrimmed | src/components/VibeCodingPlus.tsx:96 | a step has no whitespace at either end, under the as-written rule and under the intended one |
| VibePanel.PlanStepsAreTrimmed | src/components/VibeCodingPlus.tsx:94-97 | every planner step of the as-written chain, and of the intended chain, is non-empty with no whitespace at either end |
| VibePanel.PlanStepsAgree | src/components/VibeCodingPlus.tsx:94-97 | the as-written and intended chains give the same steps when every line starts with `N)`, has its leftmost `N.` at its start, or has none |
| VibePanel.VersionStep | src/components/VibeCodingPlus.tsx:94-97 | the text "v2.0" gives the step "v0" as written and "v2.0" as intended |
| VibePanel.PlannerText | src/components/VibeCodingPlus.tsx:91-93 | `data?.text`, else the first choice's content, else "" |
| VibePanel.PlanWithLlm | src/components/VibeCodingPlus.tsx:75-103 | as written: a rejected fetch or a non-string text throws; a non-ok reply throws its body; a non-JSON body reads as `{}`; otherwise the steps of the as-written chain, or the four default steps when there are none, with `~45s`; a plan never has zero steps |
| VibePanel.PlanWithLlmIntended | src/components/VibeCodingPlus.tsx:75-103 | intended: the same cases, with the steps of the anchored chain |
| VibePanel.VersionStepPlanned | src/components/VibeCodingPlus.tsx:94-102 | a reply with the text "v2.0" plans the step "v0" as written and "v2.0" as intended |
| VibePanel.NonJsonPlansDefault | src/components/VibeCodingPlus.tsx:90-99 | an ok reply that is not JSON plans with the default steps, as written and as intended |
| VibePanel.PlanAfter | src/components/VibeCodingPlus.tsx:226-234 | the planner's plan, or the default steps with the risk `planner error; using default plan` |
| VibePanel.BodyOr | src/components/VibeCodingPlus.tsx:244 | the parsed body, the fallback for a non-JSON body, none for a rejected fetch |
| VibePanel.PreviewedPatches | src/components/VibeCodingPlus.tsx:243-246 | new patches exist exactly when the reply is ok, JSON, and has a `results` array, and they are that array |
| VibePanel.PreviewMessage | src/components/VibeCodingPlus.tsx:243-252 | `Preview failed` for a rejected or non-ok reply, `Preview refreshed from disk ✓` with results, `Preview returned no results` otherwise |
| VibePanel.ApplyMessage | src/components/VibeCodingPlus.tsx:263-267 | `Applied ✓` exactly when the reply is ok and has a truthy `ok`, otherwise `Apply failed` |
| VibePanel.TestMessage | src/components/VibeCodingPlus.tsx:278-282 | `Tests failed to run` for a rejected, non-ok or falsy reply; otherwise the mark, ` exit <code>`, a newline and `stdout \|\| stderr \|\| ''` |
| VibePanel.PassingRunMessage | src/components/VibeCodingPlus.tsx:280 | a run with exit 0 and some output shows a tick, `exit 0` and that output |
| VibePanel.Panel.constructor | src/components/VibeCodingPlus.tsx:155-191 | the panel starts with the built-in intent and plan, the given draft and empty status lines |
| VibePanel.Panel.HandlePlan | src/components/VibeCodingPlus.tsx:226-234 | only the plan changes, to the planned or the fallback plan |
| VibePanel.Panel.PreviewPatch | src/components/VibeCodingPlus.tsx:236-254 | sends the draft; the draft is replaced only by a `results` array; the apply status is the preview message; nothing else changes |
| VibePanel.Panel.ApplyPatch | src/components/VibeCodingPlus.tsx:256-269 | sends the draft; only the apply status changes |
| VibePanel.Panel.RunTests | src/components/VibeCodingPlus.tsx:271-284 | sends `{}`; only the test status changes |
| VibePanel.Panel.RemoveFile | src/components/VibeCodingPlus.tsx:347 | the files become the filter of the old files (every copy of the chip goes, the others stay in order, as `Text.WithoutAppend` states); nothing else changes |
| VibePanel.Panel.RemoveConstraint | src/components/VibeCodingPlus.tsx:351 | the constraints become the filter of the old constraints; every copy of the chip goes; nothing else changes |

## Left out

- HTTP transport, express routing, body parsing and multer: each handler is a function of the parsed request.
- Concurrency: each request is handled as one uninterrupted step. Two `/patch/apply` requests whose awaited `writeFile` calls interleave over the same files are not modelled.
- Workspace.Disk.Preview: the requested patches are a list of `{ file, after }`; a `patches` value that is not an array (`for…of` throws, giving 400) or whose elements have no string `file` (`path.join` throws, giving 400) is not modelled.
- Workspace.Disk.Apply: the same restriction to a list of `{ file, after }`; the 400 that a non-array `patches` or a non-string `file` produces is not modelled.
- The network: every `fetch` is an input value, and a rejected `fetch` is `None`.
- The real file system: files are a map from absolute path to content. Operating system write failures are a set of paths that cannot be written. `access` and a failed read both give "".
- Process execution in `/test/run`: only the command choice and the reply on `close` are modelled, not running the command or collecting its output.
- Timers, `setInterval` and the panel's health poll of `GET /asr`: they are clock-driven.
- The microphone, `MediaRecorder` events and the 4-second stop timer.
- JSX rendering and the other panel state (listening, partial and final transcripts, approval, latency labels).
- `server/asr_server.py`, `server/mock-asr.mjs`, `src/lib/localAsr.ts` and `SearchBox.tsx` are not part of this model.
- `GET /health`, whose reply is the constant `{ ok: true }`.
- Js.Json: numbers are integers, because no handler computes with fractional numbers.
- Js.Get: the model covers only property names that are not properties of strings, arrays or primitives.
- VibePanel.PickMimeType: a missing `isTypeSupported`, or one that throws, is read as `supported` returning false.
- Workspace.Patch: a patch's `file` and `after` are strings; non-string fields, which the relay would pass to `path.join` and `writeFile`, are not modelled.
- VibePanel.Panel: the draft patches are arbitrary JSON, as the relay returns them; the example draft's text is a constructor argument.
- The text of errors the JavaScript runtime raises (a `TypeError`, a consumed body) is the input `thrown`; the model does not derive it from the failing step.

## Findings

| source | as written | input that shows it | evidently intended | confidence | as-written member | corrected member |
|---|---|---|---|---|---|---|
| server/index.mjs:36 | `r.json()` consumes the body; the fallback `r.text()` then rejects, so a non-JSON reply becomes a 500 | an ok transcription reply with the plain body `hi` (`Relay.AsrPlainTextReply`) | the body text is the transcript: 200 with `text: "hi"` | not executed | Relay.AsrAsWritten | Relay.Asr |
| server/index.js:29 | the same second read in the older relay's `/asr` | an ok transcription reply with the plain body `hi` (`LegacyRelay.AsrPlainTextReply`) | the body text is the transcript | not executed | LegacyRelay.AsrAsWritten | LegacyRelay.Asr |
| src/components/VibeCodingPlus.tsx:52-57 | `r.json()` consumes the body; the fallback `r.text()` rejects, so a plain-text transcript reaches `onError` | an ok `/asr` reply with the plain body `hello` (`VibePanel.PlainTextTranscript`) | `hello` is passed to `onFinal` | not executed | VibePanel.ClientTranscriptAsWritten | VibePanel.ClientTranscript |
| src/components/VibeCodingPlus.tsx:96 | `^` anchors only the `N)` alternative, so the leftmost `N.` anywhere in a step is removed | a `/chat` reply with the text `v2.0` plans the step `v0` (`VibePanel.VersionStepPlanned`; per line `VibePanel.VersionNumberMangled` with `StripNumberingAsWritten`, and kept whole under the anchored `StripNumbering`, `VibePanel.VersionNumberKept`) | only leading numbering is removed: the step stays `v2.0` | not executed | VibePanel.PlanWithLlm | VibePanel.PlanWithLlmIntended |
