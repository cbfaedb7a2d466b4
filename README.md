# WinPolicy-AI core logic in Dafny

WinPolicy-AI is a browser assistant for insurance sales agents. An agent pastes a
chat transcript or a screenshot. A hosted language model returns a structured
sales-psychology analysis, which a dashboard renders. The agent can then keep
chatting with the assistant "Neo" in two lanes: COMBAT, tied to the current
analysis, and PARTNER, a general mentor chat. The agent can also hold a live
voice call with Neo.

Most of the repository is UI and SDK calls. This project models the few parts that
are sequential and self-contained, and proves what they promise:

- `Types` (types.ts): the analysis records, chat messages and loading states. The
  probability and resistance fields stay strings, because at run time they come from
  an unchecked JSON cast. Their literal unions are the predicates
  `ParseProbability` and `ParseResistance`.
- `Dashboard` (components/Dashboard.tsx): the score band, the resistance style,
  label and icon, the probability translation and the emotion radar. All are total
  functions over any string.
- `Service` (services/geminiService.ts): the request assembly of `analyzeChat`. It
  covers the API-key guard, stripping the data-URL prefix from the image, the order
  of the parts, the empty-request guard and the empty-reply guard. The network reply
  is a parameter.
- `Schema` (services/geminiService.ts): the response contract. It says which parsed
  JSON documents are admitted and how one reads as an `AnalysisResult`.
- `History` (App.tsx): the history of analyses, newest first, cut to twenty, with
  its copy in local storage as an abstract value.
- `Chat` (App.tsx): the two lanes, and the merging of live-transcript fragments
  into one trailing `live-` message.
- `Playback` (App.tsx): the live call as a class. It holds the session and the
  audio-context refs, the voice flag and the playback scheduler: the clock
  `nextStart` and the set of active sources.
- `App` (App.tsx): the orchestrator as an explicit state value. Each handler is a
  transition function. Each awaited request is split into the step that issues it
  and the step that handles its outcome. The state records the requests in flight:
  each analysis with the text it captured, and the follow-up question with its lane
  and context. A completion event can only answer a request that is in flight.
  The analyze button is disabled while ANALYZING (App.tsx:360), so a `StartAnalysis`
  click then changes nothing. Loading a past case leaves ANALYZING while a request is
  in flight, though, so several analyses can be in flight at once and may return in
  any order.

Empty strings stand for the source's falsy values: a missing API key, an empty
text and no selected image. Ids taken from `Date.now()` and clock readings are
parameters.

Three behaviours of the code shape the model:
- History has no delete-by-id. The only removal is "clear all".
- Nothing resets the loading state to IDLE once it has left it.
- The mute check does not reliably drop outbound audio frames.

## Model

| member | source | states |
|---|---|---|
| Types.ParseProbability | types.ts:21 | a string is read as a probability exactly when it is one of the literals Low, Medium, High, in both directions |
| Types.ParseResistance | types.ts:22 | a string is read as a resistance exactly when it is one of Red, Yellow, Green, in both directions |
| Types.LoadingStateNamesDistinct | types.ts:38-43 | the four loading states have four distinct string values |
| Dashboard.ResistanceColor | components/Dashboard.tsx:19-26 | each known resistance gets its own style; every other string gets the gray default |
| Dashboard.ScoreColor | components/Dashboard.tsx:28-32 | red exactly below 40, yellow exactly on 40..69, green exactly from 70 |
| Dashboard.ScoreColorMonotone | components/Dashboard.tsx:28-32 | a higher score never gets a colder band |
| Dashboard.TranslateProb | components/Dashboard.tsx:34-38 | Low, Medium, High become 低, 中, 高; any other string passes through unchanged |
| Dashboard.ResistanceLabel | components/Dashboard.tsx:73 | 红色警戒 exactly for Red, 黄色观望 exactly for Yellow, 绿色畅通 for Green and for every unknown value |
| Dashboard.ResistanceIcons | components/Dashboard.tsx:70-72 | at most one icon; one exactly for a known level, and it is that level's icon |
| Dashboard.EmotionRadar | components/Dashboard.tsx:118-125 | the three cards show the start, middle and end emotions under their phase labels, in that order |
| Service.Split | services/geminiService.ts:99 | split yields at least one segment, no segment holds the separator, and a single segment means the input had no separator, in which case it is the input |
| Service.JoinSplit | services/geminiService.ts:99 | joining the segments with the separator gives back the input |
| Service.SplitAfterHead | services/geminiService.ts:99 | a separator-free head before the first separator is exactly the first segment |
| Service.CleanBase64 | services/geminiService.ts:99 | the payload is the second comma-separated segment whenever there is one and it is non-empty, and otherwise the whole input; it never holds a comma unless it is the whole input |
| Service.DataUrlPayload | services/geminiService.ts:99 | a data URL "header,payload" yields exactly its payload |
| Service.AnalyzeChat | services/geminiService.ts:85-145 | a missing key fails first with no request; with neither text nor image it fails with 请提供聊天文字或截图。 and sends nothing; otherwise the image part comes first as image/jpeg with the cleaned payload, the text part comes last as the prompt prefix plus the text, and each is present only for non-empty input; a transport error passes through, an empty reply fails with 未能生成分析结果。, and a non-empty reply yields its parse |
| Schema.EnumsMatchTypes | services/geminiService.ts:46-47 | the schema's enumerations are exactly the literal unions of the record types |
| Schema.DecodeItems | services/geminiService.ts:51-61 | the decoding array reads exactly when every item has both string fields, and then item by item |
| Schema.Decode | services/geminiService.ts:39-83 | a document reads as a result exactly when it meets the contract (four top-level fields, the three trust fields with an integer score and enumerated strings, all item, emotion and advice fields); a read result has in-range enums |
| Schema.DecodeEncode | services/geminiService.ts:39-83 | every result with in-range enums encodes to an admitted document that reads back unchanged |
| Schema.ScoreRangeNotEnforced | services/geminiService.ts:45 | the contract admits a score outside the documented 0..100 range |
| History.Preview | App.tsx:238 | a non-empty input gives a non-empty prefix of it of length min(len, 30); an empty input gives 案例分析 |
| History.Save | App.tsx:239 | the new item is first, the length is min(old + 1, 20), and the rest is the old list's prefix in order |
| History.SaveAllNewestFirst | App.tsx:239 | any run of saves gives the new items newest first, followed by the old list, cut to twenty |
| History.KeepsTwentyNewest | App.tsx:239 | saving n items into an empty history keeps min(n, 20) of them, the most recent first, and drops the oldest |
| History.Startup | App.tsx:75-76 | the list read at startup equals what storage holds; an unparseable or missing entry gives an empty list |
| History.SaveToHistory | App.tsx:237-242 | the list is saved as above and the stored copy equals the in-memory list |
| History.ClearHistory | App.tsx:311 | the list is empty and the stored copy is removed, so the two still agree |
| Chat.Lanes.Append | App.tsx:224-225 | the chosen lane gains exactly the message at its end; the other lane is unchanged |
| Chat.MergeTranscript | App.tsx:140-146 | after a trailing live neo message the length is unchanged, earlier messages are untouched and the last content gains the fragment; otherwise exactly one live- neo message holding the fragment is appended |
| Chat.UtteranceCoalesces | App.tsx:140-146 | consecutive fragments add at most one message, leave earlier messages untouched and leave all fragments concatenated in arrival order in the trailing message |
| Playback.Closing | App.tsx:191-192 | closing never leaves a context open, and a context that was never created stays uncreated |
| Playback.LiveCall.constructor | App.tsx:41-47 | a new call is inactive with no session or contexts, clock 0 and no active sources |
| Playback.LiveCall.Start | App.tsx:100-184 | without a key nothing changes; otherwise both contexts are open and the call is active exactly when the microphone and the session came up; on failure the session ref keeps its old value |
| Playback.LiveCall.Stop | App.tsx:186-194 | whatever the prior state, there is no session, the call is inactive and both contexts are closed; the scheduler is untouched |
| Playback.LiveCall.Schedule | App.tsx:151-159 | the chunk starts at max(nextStart, now), which is at least now and after every active source ends; nextStart becomes start + duration; the source joins the active set |
| Playback.LiveCall.Ended | App.tsx:156 | only the ended source leaves the active set |
| Playback.LiveCall.Interrupt | App.tsx:162-166 | every active source is stopped, the set is empty and nextStart is 0 |
| Playback.LiveCall.OnMessage | App.tsx:149-166 | a non-empty audio payload is scheduled when an output context exists; an interruption in the same message stops it along with every earlier source and resets the clock |
| Playback.BackToBack | App.tsx:151-158 | a second chunk never overlaps the first, and starts exactly at start1 + d1 when the clock has not passed that point |
| Playback.StopTwice | App.tsx:186-194 | hanging up twice leaves the same state as hanging up once |
| App.Init | App.tsx:35-77 | the app starts unlocked exactly when the stored flag is 'true'; IDLE, on COMBAT, with empty password, text, image, question, no error flag, no result, no error, nothing in flight, sidebar closed, the partner welcome message, and the history restored from and synced with what is stored |
| App.Login | App.tsx:83-92 | login succeeds exactly when the input equals 'xiuxiu', and then stores the flag; otherwise it raises the error flag; nothing else changes |
| App.Logout | App.tsx:94-97 | the app locks and the stored flag is removed; nothing else changes |
| App.ErrorText | App.tsx:213 | the error's own text when it is non-empty, and 分析失败 exactly when it is empty |
| App.BeginAnalyze | App.tsx:196-201 | a no-op with neither text nor image; otherwise ANALYZING with result, error and combat lane cleared, a request carrying the current text in flight, and every other field unchanged |
| App.FinishAnalyze | App.tsx:202-215 | the finished request leaves the in-flight list; on success SUCCESS, the result, a single welcome combat message and the history saved with the text that request captured; on failure ERROR with the error text; every other field unchanged |
| App.HandleAnalyze | App.tsx:196-216 | a no-op with nothing to analyze; on success SUCCESS with exactly one welcome message and one new history entry first, synced to storage; on failure ERROR with the message or 分析失败, no result, an empty combat lane and history unchanged; every other field, the partner lane included, unchanged |
| App.TrimEmptyIffBlank | App.tsx:220 | a question trims to nothing exactly when every character is ECMAScript white space |
| App.AskRequest | App.tsx:220-229 | no request for a blank question or while one is in flight; otherwise the question, its lane, that lane before the question and, in COMBAT only, the current result as context |
| App.BeginAsk | App.tsx:218-226 | an ignored question changes nothing; otherwise the input is cleared, the user message is appended to the active lane, the request is recorded as in flight, and every other field is unchanged |
| App.FinishAsk | App.tsx:227-234 | the reply is appended to the lane the question was asked in; a failure sets 伙伴 Neo 掉线了，稍后再试。 and leaves the lanes alone; nothing is in flight afterwards; every other field unchanged |
| App.HandleAskNeo | App.tsx:218-235 | ignored when blank or in flight; otherwise the active lane gains the user message and then the reply, the other lane is unchanged, the input is cleared, the notice is set only on failure, and every other field is unchanged |
| App.OnTranscript | App.tsx:139-147 | a transcript fragment always goes to the partner lane, whatever tab is showing; nothing else changes |
| App.RunKeepsInv | App.tsx:72-97 | over any sequence of events, history stays equal to its stored copy, the login state stays equal to the stored flag, a follow-up is in flight exactly while asking, ANALYZING always has a request in flight and IDLE none |
| App.NeverBackToIdle | App.tsx:196-250 | once the loading state has left IDLE, no sequence of events returns it there |
| App.LoadingEdges | App.tsx:196-250 | each step keeps the loading state, or enters ANALYZING on a start, SUCCESS or ERROR when a request in flight returns, or SUCCESS on a loaded past case |
| App.StepKeepsInv | App.tsx:72-250 | no single event breaks the invariant that RunKeepsInv carries over a run |
| App.NoStartNoFinish | App.tsx:196-250 | without a start, nothing comes into flight and the loading state stays put or shows a past case loaded from history |
| App.NoFinishNoError | App.tsx:202-215 | without a returning request, the loading state never becomes ERROR |
| App.ErrorFollowsStartAndFinish | App.tsx:196-215 | from a state with nothing in flight, ERROR is reached only after an analysis is started and a later analysis returns |
| App.RemoveAt | App.tsx:196-215 | a returned request leaves the in-flight list, the others keep their order |
| App.LoadHistoryItem | App.tsx:244-250 | the stored result is shown, SUCCESS, COMBAT tab, sidebar closed, a single history-welcome combat message; every other field, history and in-flight requests included, unchanged |
| App.ClearHistory | App.tsx:311 | the history list is empty and its stored copy removed; nothing else changes |

## Left out

- Rendering, styling, animation and scrolling are not modelled. They are UI only.
- The calls into the model SDK are not modelled: `generateContent`, `live.connect`, `sendRealtimeInput` and `close`. Their outcomes are parameters: a `Reply` for the analysis, a `Result` for analyses and follow-up answers, and `connected` for the live session.
- `askNeo`, `getApiKey`, `encodeAudio`, `decodeAudio` and `decodeAudioData` are imported from services/geminiService.ts but not defined in the part of it modelled here. So the follow-up client's preamble and its overload fallback are not part of this model. A decoded audio chunk appears only through its duration.
- The float-to-Int16 PCM loop, the 16 kHz and 24 kHz context rates and the Web Audio nodes are not modelled. They are floating point and platform audio.
- The mute check in the capture callback reads a stale closure value. Its effect depends on React closure semantics, so the model does not claim that frames are dropped while muted.
- Local storage, `Date.now()`, `setTimeout`, `FileReader`, the clipboard, `getUserMedia` and `alert` are left out. Storage is part of the state value. Ids and clock readings are parameters. The 500 ms auth-error reset is the event `AuthErrorTimeout`.
- Callbacks do not interleave and React updates are not batched: every handler is one atomic step. Two source behaviours follow from this and are not captured. `saveToHistory` prepends to the history captured when `handleAnalyze` started. The scheduler reads `nextStart` before awaiting the decode, so another message could run in between.
- The system instruction, the safety settings and the model names are not modelled. They are configuration constants with no behaviour.
- `JSON.parse` is not modelled. `Schema` works on already-parsed documents, and `Reply.parsed` is the parse of the reply text.
- Service.AnalyzeChat: the parsed reply is taken as an `AnalysisResult` as it stands. In the source the cast is unchecked, so a document that breaks the contract would still be returned. `Schema.Decode` states what checking it would admit.
- Dashboard.TranslateProb: every unknown string is modelled as passing through. In the source the lookup is on an object literal, so a name inherited from `Object.prototype`, such as "toString", would yield that inherited member instead.
- History.Preview: the cut is thirty Unicode characters. `String.prototype.slice` counts UTF-16 code units, so the two differ for characters outside the Basic Multilingual Plane.
- The trust score is modelled as an integer, as the response contract types it. A fractional score would take the same band as its value.
- The COMBAT tab button also hangs up the live call (App.tsx:289). The `SelectTab` event changes only the tab. The hang-up is `Playback.LiveCall.Stop`, since the call lives in its own object.
- The `onclose` callback of the session runs the same hang-up. It is `Playback.LiveCall.Stop` as well.
