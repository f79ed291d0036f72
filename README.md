# AUTONOBOT core in Dafny

AUTONOBOT is a browsing agent with three parts:

- An automation server (`server/index.js`). It keeps one headless Chrome process and one page, bound to one user profile. It offers `/navigate`, `/action`, `/downloads`, `/extract` and `/status` over HTTP.
- A model-facing service (`services/geminiService.ts`). It declares six tools to the language model and runs the tool-calling loop. In that loop the model's function calls are run and their results sent back in one batch per round, for at most ten rounds.
- A dashboard (`App.tsx`). It keeps the chat transcript, the action log and the scheduled tasks. It fires due tasks from a periodic tick, classifies errors for the user, offers a retry and maps each tool call to a server request.

This project models the logic of those three parts and proves what each promises.

- `common.dfy` (module `Common`) holds `Option`/`Result` and the JavaScript string primitives used elsewhere: `startsWith`, `endsWith`, `includes`, whitespace trimming and `substring(0, n)`.
- `session.dfy` (module `Session`) is the session engine. It is a class `Engine` whose fields are the server's module-level `browser`, `page` and `currentProfileId`. It also holds the set of profiles whose downloads folder exists, and handle counters that tell processes and pages apart. A ghost trail records every close, discard, launch and page opening. Methods model `closeBrowser`, each step of `initBrowser`, and the process's `disconnected` listener.
- `protocol.dfy` (module `Protocol`) holds the pure helpers of the server:
  - `parseInt` without a radix, with a round-trip lemma against `String(n)`;
  - the scroll and wait defaults;
  - the Enter-key trigger;
  - the per-action argument checks;
  - the native-then-script click fallback;
  - the downloads filter;
  - the `/extract` sentinel;
  - the screenshot fields.
- `endpoints.dfy` (module `Endpoints`) holds the request handlers as methods over an `Engine`.
- `agent.dfy` (module `Agent`) holds the tool declarations and the conversation loop:
  - `Converse` is the specification, built from the recursive `Rounds`;
  - `GenerateResponse` is the imperative `while`-over-rounds, `for`-over-calls loop, proved equal to it;
  - lemmas cover the round bound, the one-response-per-call batches, thrown tools, the protocol error and the final text.
- `app.dfy` (module `App`) holds:
  - the scheduler firing rule and the stamping of `lastRun`;
  - the task, log and history transforms;
  - error classification;
  - the tool-name dispatch;
  - a class `Console` whose fields are the dashboard's `tasks`, `logs`, `messages` and `lastInput`.

Parameters stand in for everything outside the code:

- The browser driver is a `Startup` value (launch fails, a setup step fails, or it starts) plus `Outcome` values for single driver calls.
- The page is a `Dom` value: the selectors present, those a native click does not throw on, those naming a `<select>`, and those that are not valid CSS. It also holds the driver's messages for a timed-out wait, for a click, typing or selection that throws, and for an invalid selector, and the page script's message for an invalid selector. Reading a title and running the `/extract` script are `Result`/`Outcome` values too.
- The chat service is a function `chat(k, m)`: its answer to the k-th message sent.
- The tool runner is a function `tool(round, i, call)`: the outcome of call i of a round.
- The wall clock is `nowMs` plus `hour` and `minute`.
- During a send, the server's answer to the k-th call's request is `server(k)`, and the random id and the time of the j-th log line are `stamp(j)`.

Quirks kept as written:

- The server presses Enter explicitly after typing when the text holds the two characters backslash and `n`, or the word `Enter`. The `type` tool's description and the system instruction ask the model for exactly those two characters. A real line break does not trigger this explicit press (`Protocol.RealNewlineDoesNotPressEnter`); what `page.type` itself does with a real line break is not modelled.
- `initBrowser(profileId = 'default')` uses `'default'` only when the profile is missing. `/downloads` uses `profileId || 'default'`, so it also uses `'default'` for an empty profile. Both are modelled as written (`Session.InitProfile`, `Protocol.DownloadsProfile`).
- The disconnect listener clears `browser` and `page` but keeps `currentProfileId` (`Session.Engine.OnDisconnected`).
- `handleAction` never checks the HTTP status, so an action the server refuses with a 500 answer is logged as "Acción completada" (`App.RefusedActionLoggedAsDone`). `handleNavigate` does check it.

## Model

| member | source | states |
|---|---|---|
| Session.InitProfile | server/index.js:54 | the profile argument is used as given, including the empty string; only a missing one becomes `'default'` |
| Session.Engine.constructor | server/index.js:29-32 | the server starts with no browser, no page and no bound profile |
| Session.Engine.CloseBrowser | server/index.js:37-49 | without a browser, nothing changes; otherwise a close is requested and browser, page and profile are all cleared, whether or not closing throws |
| Session.Engine.ReleaseStale | server/index.js:55-66 | a browser bound to another profile is closed; a disconnected one is dropped, never reused; afterwards any browser left is live and bound to the requested profile; a live same-profile browser and its page are kept untouched |
| Session.Engine.Launch | server/index.js:75-116 | one launch attempt: success yields a new process with a new open page; a throwing launch changes nothing; a throwing setup step keeps the started process; every failure is reported |
| Session.Engine.EnsurePage | server/index.js:118-122 | an open page is kept; a missing or closed page is replaced by a new page on the same process, or the driver's error is returned |
| Session.Engine.InitBrowser | server/index.js:54-125 | binds the profile and creates its downloads folder before anything can fail; a profile switch closes the old process first and a dead one is discarded first; a live same-profile browser is reused (with its open page, or a fresh page on it); otherwise any browser is a brand-new process; a failed launch is reported with "No se pudo iniciar el motor de navegación." and no retry; at most one launch per call; success means a live browser and an open page |
| Session.Engine.ProcessExits | server/index.js:62 | a crash makes `isConnected()` false and changes nothing else |
| Session.Engine.OnDisconnected | server/index.js:92-96 | the listener clears browser and page and leaves `currentProfileId` as it was |
| Session.Engine.PageCloses | server/index.js:119 | a page closed from outside is seen as closed; the browser is unchanged |
| Endpoints.Navigate | server/index.js:159-186 | a missing or empty url is answered 400 with its message, nothing acquired and the engine untouched; otherwise the session is acquired as `initBrowser` does (profile bound, its downloads folder added, the handed-back page live and open); a failure to acquire, to load or to read the title answers 500 with "Error navegando: " followed by that cause; success exactly when all three work, carrying the final url, the title, a data-URI screenshot and at most 20000 characters of page text |
| Endpoints.Action | server/index.js:189-255 | the session is acquired before the checks, so a refused request still binds the profile, adds its downloads folder and starts or switches the browser; success exactly when the session is acquired, the checks accept the request and the page carries the step out; an acquisition failure, a refused argument or a failing step each answer with their own message; an effect happens exactly on success; failures carry the current page's screenshot, or null |
| Endpoints.Downloads | server/index.js:258-273 | no folder for the profile (default `'default'`) gives `[]`; otherwise exactly the listed names that are not hidden and not `.crdownload`, in folder order |
| Endpoints.Extract | server/index.js:276-289 | acquires the session as `initBrowser` does; succeeds exactly when the session is acquired and the page script does not throw, otherwise answers with that error; the result is the page text, the element's text, or the "Elemento no encontrado" sentinel when the selector matches nothing |
| Endpoints.Status | server/index.js:143-156 | inactive, with its message, exactly when there is no connected browser with a page; otherwise a failed title read answers 500 with its error, and a successful one gives the url, the title and a data-URI screenshot, null when the page is closed or the capture fails |
| Endpoints.OnTerminationSignal | server/index.js:292-302 | a termination signal leaves no browser and no page; a running process is asked to close (a close request for its handle) and the bound profile is cleared; without a browser nothing happens; the downloads folders are untouched |
| Protocol.ParseIntString | server/index.js:231-233 | `parseInt` reads back every integer `String` prints |
| Protocol.ParseUnsignedNatString | server/index.js:231-233 | the digits `String` prints for a natural number parse back to that number |
| Protocol.NatStringValue | server/index.js:231-233 | the decimal digits of `n` denote `n` |
| Protocol.ParseInt | server/index.js:231-233 | `parseInt` without a radix: blank text is NaN, and a number is negative only after a minus sign and never positive after one; the definition `ParseIntString` and `NumberOr` pin down |
| Protocol.NumberOr | server/index.js:231-233 | `parseInt(value)` with a fallback: NaN and 0 give the fallback, any other number is kept |
| Protocol.ScrollDelta | server/index.js:231 | a scroll always moves the page (the delta is never 0), and a missing value scrolls 500 px |
| Protocol.WaitMillis | server/index.js:233 | a wait never collapses to no pause (never 0 ms), and a missing value waits 2000 ms |
| Protocol.ScrollAndWaitDefaults | server/index.js:230-235 | a printed non-zero number scrolls or waits exactly that much; a missing value and "0" give 500 px and 2000 ms |
| Protocol.PressesEnter | server/index.js:223 | the Enter test of line 223; both markers are at least two characters long, so a shorter text never presses Enter; the definition the three lemmas below pin down |
| Protocol.EscapedNewlinePressesEnter | server/index.js:223 | text ending in backslash-n presses Enter |
| Protocol.NoEnterWithoutMarker | server/index.js:223 | text with no backslash and no capital E never presses Enter |
| Protocol.RealNewlineDoesNotPressEnter | server/index.js:223 | "hello" plus a real line break does not press Enter; "hello" plus backslash-n does |
| Protocol.PlanAction | server/index.js:196-236 | refused exactly for: click without a selector; type without a selector or with no value; select without a selector or with an empty value; each refusal has its own message; accepted steps carry their arguments and the Enter decision; scroll and wait amounts are never 0; an unknown type does nothing |
| Protocol.Perform | server/index.js:196-236 | a selector that is not valid CSS fails every click, type and select with the browser's syntax error (from the page script for a click, from the wait otherwise); a click succeeds natively when the element is clickable, else by script when it exists, else fails with "Elemento no encontrado en DOM: "; type fails with the wait's timeout when the element is absent and with the driver's message when the click into it throws, otherwise types exactly the text; select fails likewise when the element is absent or not a `<select>`, otherwise selects the option; scroll and wait always succeed with their amounts |
| Protocol.DownloadsProfile | server/index.js:261 | a missing or empty profile lists `'default'` |
| Protocol.Listed | server/index.js:267 | a name starting with "." or ending with ".crdownload" is not listed; the test `FilterDownloads` applies |
| Protocol.FilterDownloads | server/index.js:267 | keeps exactly the names not starting with "." and not ending with ".crdownload", each as often as it appears, in order |
| Protocol.ExtractText | server/index.js:280-284 | no selector gives the body text; a matching selector gives that element's text; otherwise the sentinel |
| Protocol.PageContent | server/index.js:172 | at most 20000 characters, a prefix of the body text, and the whole text when it is short enough |
| Protocol.Screenshot | server/index.js:130-138 | an image only for an open page whose capture did not throw |
| Protocol.SuccessShotField | server/index.js:242 | always a JPEG data URI, ending in "null" when there is no image |
| Protocol.NullableShotField | server/index.js:247-253 | a data URI exactly when there is an image, otherwise null |
| Agent.DeclaredNames | services/geminiService.ts:76-78 | the declared tool names, in declaration order |
| Agent.DeclaredToolsWellFormed | services/geminiService.ts:5-78 | exactly navigate, click, type, select, wait and check_downloads, distinct, each requiring only parameters it declares; `extract` is not declared |
| Agent.ToolText | services/geminiService.ts:129-134 | a returned value is the result; a thrown error becomes "Error executing tool: " followed by its message |
| Agent.Batch | services/geminiService.ts:125-143 | one response per call |
| Agent.BatchAt | services/geminiService.ts:125-143 | response i carries call i's name and id and the text of running call i |
| Agent.ThrowingToolIsReported | services/geminiService.ts:130-134 | a throwing call is answered with the error text and the calls after it are still run and answered |
| Agent.Rounds | services/geminiService.ts:122-151 | every message after the first carries one batch; at most ten batches in all; the first reply is the one the rounds start from |
| Agent.RoundStep | services/geminiService.ts:123-150 | one round: the batch for the reply's calls is sent; a failed send ends with the protocol error; a reply starts the next round |
| Agent.RoundsAnswer | services/geminiService.ts:123-151 | each batch answers, call for call, the reply before it, in successive rounds |
| Agent.AnsweredAt | services/geminiService.ts:123-151 | the same, position by position: batch i answers reply i's non-empty calls in round i + 1 |
| Agent.RoundsFailure | services/geminiService.ts:145-150 | the rounds fail only with "Error de Protocolo IA (Tool Response).", after the batch that could not be sent |
| Agent.RoundsAnswerCount | services/geminiService.ts:123-157 | an answered run has one reply more than it has batches |
| Agent.RoundsAnswerText | services/geminiService.ts:153-157 | the answer is the last reply's text, and that reply asked for nothing or came when the ten-round cap was reached |
| Agent.Converse | services/geminiService.ts:98-158 | without a key, the missing-key error and nothing sent; with a key, at least one and at most eleven messages and at most ten batches; a failed opening message surfaces its own error |
| Agent.ConverseStart | services/geminiService.ts:120 | after a successful opening message, the conversation is the rounds from its reply |
| Agent.ConversationAnswers | services/geminiService.ts:120-151 | over a whole conversation, batch i answers reply i's calls in round i + 1 |
| Agent.ConversationEnd | services/geminiService.ts:145-157 | an answer is the last reply's text, one reply more than batches, and that reply has no calls or ten batches were sent; a failure after the opening message is the protocol error |
| Agent.RunCalls | services/geminiService.ts:125-143 | the inner `for` loop builds exactly the round's batch |
| Agent.GenerateResponse | services/geminiService.ts:98-158 | the `while` loop produces exactly the conversation `Converse` specifies |
| Agent.PersistentModelIsCapped | services/geminiService.ts:123 | a model that always asks for calls is cut off after exactly ten rounds, eleven messages in all, with an answer |
| Agent.PersistentConversation | services/geminiService.ts:120-151 | the same from the opening message: ten batches, eleven sends, an answer |
| App.Pad2 | App.tsx:85-86 | `padStart(2, '0')` gives at least two characters |
| App.Pad2Digits | App.tsx:85-86 | below 100, the two characters are the tens and units digits |
| App.CurrentTime | App.tsx:84-87 | the clock face is the five characters HH:mm |
| App.CurrentTimeInjective | App.tsx:84-87 | different minutes of the day give different clock faces |
| App.AutoCommand | App.tsx:95 | the message is exactly "[TAREA AUTOMÁTICA HH:mm] " followed by the command |
| App.Fires | App.tsx:91-93 | the firing test of lines 91-93; a task that never ran fires exactly when it is active, set for this HH:mm and the clock is past 60000 ms (the missing `lastRun` counts as 0); the definition `FiredCommandsExactly` and `NoRefireWithinMinute` pin down |
| App.FiredCommands | App.tsx:89-101 | a tick sends at most one message per task |
| App.FiredIds | App.tsx:91-98 | some id is stamped exactly when some command is sent; the definition `FiredIdsExactly` pins down |
| App.FiredCommandsExactly | App.tsx:89-96 | a tick sends exactly the commands of the tasks that are active, due at this HH:mm and last run more than 60000 ms ago (never run counts as 0) |
| App.FiredIdsExactly | App.tsx:91-98 | the ids stamped are exactly those of the firing tasks |
| App.TickStep | App.tsx:89-101 | checking one more task adds its command and id exactly when it fires |
| App.StampId | App.tsx:98 | the setter stamps `lastRun` on every task with the fired id and leaves the others as they were |
| App.Restamp | App.tsx:89-101 | after a tick, the tasks with fired ids carry now as `lastRun`; all other tasks are unchanged |
| App.StampIdRestamp | App.tsx:98 | stamping one more id is restamping with it added |
| App.TickOnlyStamps | App.tsx:95-98 | a tick changes only `lastRun`, and only to now: ids, times, commands and `active` flags are unchanged; every firing task is stamped |
| App.NoRefireWithinMinute | App.tsx:92-93 | a task that fired does not fire again on any tick within the next 60000 ms |
| App.RemoveTask | App.tsx:145 | deletion keeps exactly the tasks with another id, each as often as before, in order |
| App.Toggled | App.tsx:146 | toggling flips `active` on the tasks with that id and changes nothing else |
| App.ToggleTwice | App.tsx:146 | toggling twice restores the list |
| App.LogAfter | App.tsx:140 | each added entry lengthens the log by one |
| App.LogNewestFirst | App.tsx:132-141 | entries added one by one appear newest first, ahead of the old log, which keeps its order |
| App.HistoryForModel | App.tsx:260-263 | the history holds only "user" and "model" turns with non-blank text, no more than there are lines |
| App.HistoryOfAppended | App.tsx:260-263 | appending a line adds a turn exactly when the line is a non-blank user or assistant line; user maps to "user", assistant to "model", in order |
| App.DropSystem | App.tsx:286 | the retry filter keeps exactly the non-system lines, each as often as before, in order |
| App.HistoryIgnoresSystemLines | App.tsx:284-287 | removing system lines does not change the history sent to the model |
| App.Classify | App.tsx:272-275 | "Protocolo" wins over "fetch", which wins over "API Key"; anything else is unknown; each copy is chosen exactly in its case |
| App.ProtocolWins | App.tsx:273 | any error mentioning "Protocolo" shows the protocol copy |
| App.ProtocolFailureCopy | App.tsx:273 | the loop's protocol error reaches the user as "Error de Protocolo. Reintentando..." |
| App.ErrorLine | App.tsx:277 | the error line is a system line: the warning sign followed by exactly the classified copy |
| App.ClosingLine | App.tsx:267-278 | an answer becomes an assistant line with that text; an error becomes the classified error line |
| App.ToolTarget | App.tsx:234 | the announced target is the url, else the selector, else empty |
| App.ToolLine | App.tsx:231-238 | the announcement is a system tool line naming the tool and its target |
| App.Dispatch | App.tsx:241-250 | unknown names, and only they, get "Herramienta no encontrada"; navigate sends the url; click sends the selector and no value; type sends the text as the value; select sends the value; wait sends an empty selector and the duration as the value; check_downloads asks for the listing; extract answers at once with the prefix, the first 500 characters of the remembered page text and "..." |
| App.DeclaredToolsAreHandled | App.tsx:241-250 | every declared tool has a handler |
| App.WaitCallPlansWait | App.tsx:246 | a wait call reaches the server as a wait of the given duration, or 2000 ms |
| App.TypeCallPlansType | App.tsx:244 | a type call with a selector and a text reaches the server as typing that text, with Enter decided by the text; without either it is refused with the type message |
| App.ClickCallPlansClick | App.tsx:243 | a click call without a selector is refused by the server; with one it is a click on it |
| App.ToolLines | App.tsx:239 | one announcement per call, in call order |
| App.OneLinePerResponse | App.tsx:230-239 | the transcript gets exactly one announcement per result sent back to the model |
| App.Printed | App.tsx:180 | a present field prints as itself, a missing one as "undefined" |
| App.ActionTarget | App.tsx:187 | the pending line of an action names the selector when given, else the value when given, else nothing |
| App.HandlerLog | App.tsx:151-213 | navigate and action handlers add exactly two lines, a pending one and then an outcome under the same action; the downloads check and on-the-spot answers add none |
| App.NavigationLogged | App.tsx:152-181 | the pending line names the address; the navigation is logged as done exactly when the server answers with an `ok` status, naming the title; otherwise "Fallo: " and the address |
| App.RefusedActionLoggedAsDone | App.tsx:187-210 | an action the server refuses with a JSON error answer is still logged as "Acción completada"; only a request with no JSON answer is logged as "Error" |
| App.TwoLinesPerRequest | App.tsx:151-213 | the calls of a send add exactly two log lines per navigate, click, type, select or wait call |
| App.PendingThenOutcome | App.tsx:151-213 | the lines alternate: each pending line is followed by its outcome |
| App.Console.constructor | App.tsx:45-53 | the dashboard starts with no tasks, no log, no messages and no last input |
| App.Console.AddTask | App.tsx:144 | the task is appended at the end; nothing else changes |
| App.Console.DeleteTask | App.tsx:145 | the tasks become `RemoveTask` of the old tasks; nothing else changes |
| App.Console.ToggleTask | App.tsx:146 | the tasks become `Toggled` of the old tasks; nothing else changes |
| App.Console.AddLog | App.tsx:132-141 | the new entry goes in front of the unchanged log |
| App.Console.ToolCall | App.tsx:230-251 | the announcement is appended first, then the name selects the handler |
| App.Console.SendMessage | App.tsx:253-282 | records the input; the model sees the history of the transcript as it was before the user line; the transcript gets the user line, one announcement per call and the closing line; the log gets, newest first, the lines `CallsLog` gives for the calls made (two per navigate, click, type, select or wait call) ahead of the unchanged old log; the tasks are unchanged |
| App.Console.Retry | App.tsx:284-289 | with no last input nothing happens; otherwise every system line is removed and the same input is sent again over the same history, with the log lines of that send |
| App.Console.Tick | App.tsx:83-101 | over the task list as the tick found it: sends exactly `FiredCommands` and leaves the tasks as `Restamp` with the fired ids, at the clock face HH:mm of the given time |
| App.Console.CheckTasks | App.tsx:89-99 | the `forEach` loop over the tasks as the tick found them: sends exactly `FiredCommands` and leaves the tasks as `Restamp` with the fired ids; log, transcript and last input unchanged |

## Left out

- Puppeteer effects (launch, `goto`, clicks, typing delays, viewport, user agent, the CDP download setup, `evaluate` in the page, screenshots) are parameters. Screenshots are opaque base64 strings.
- Express routing, JSON parsing and serialisation, CORS and the listening socket are not modelled. A handler returns the reply it would send.
- The Gemini SDK (`GoogleGenAI`, `chats.create`) and the system instruction text are not modelled. The chat is a parameter, and `process.env.API_KEY` is the flag `hasKey`.
- `setInterval`, `setTimeout` and the fixed pauses (1000 ms after an action, the wait step itself) are not modelled; the clock is a parameter.
- App.Console.Tick: reads the clock once (`nowMs`), where the code calls `Date.now()` once in the test and again in the setter. It returns the commands in order instead of calling `handleSendMessage` for each.
- Filesystem calls are not modelled beyond the set of profiles with a downloads folder. The folder listing is a parameter, and a failing `mkdirSync` or `readdirSync` is not modelled.
- Concurrency between overlapping requests, `await` interleavings and React state batching are not modelled. In particular, stale closures over `messages` and `tasks` in `useCallback`/`useEffect` are not modelled: each handler sees the current state.
- App.Console.SendMessage: the tool announcements the model loop appends while it runs are modelled as appended, in order, between the user line and the closing line, which is where they end up when nothing else interleaves.
- The `fetch` calls of `handleNavigate`, `handleAction` and `handleCheckDownloads` are not modelled; `App.Dispatch` returns the request the call turns into, and the server's answer to each request is a `ServerReply` parameter. Of the response handling only the log lines are modelled (`App.HandlerLog`): the browser panel state, `setPageContent` and the text handed back to the model are not.
- Profile creation and deletion, the theme and the profile synchronisation effects are not modelled; they are storage and UI glue.
- Ids and timestamps from `Math.random` and `Date.now` are parameters: of `AddLog`, and for the log lines a send adds, the `stamp` function of `SendMessage` (the id and time of the j-th line). Message ids and timestamps are dropped.
- App.Classify: the missing-key message `"Error: Falta la API Key. ..."` being classified as "Falta API Key." is not proved. It needs the absence of "Protocolo" and "fetch" in a long string literal, which the model does not establish. The protocol case is proved (`App.ProtocolFailureCopy`).
- Strings are sequences of Unicode scalar values, not UTF-16 code units, so `substring(0, n)` limits count scalar values.
- `parseInt` results are unbounded integers, not IEEE doubles: very long digit strings do not lose precision here.
- Session.Engine.InitBrowser: a throwing `mkdirSync` or a driver error other than launch, setup and new page is not modelled.
- Protocol.Perform: what typing does inside the page is not modelled: `Typed` records the keystrokes, and `page.type` turning a real line break into an Enter key, or the field's resulting value, are not derived.
- Session.Engine.InitBrowser: `downloadDirs` is keyed by the profile string as given. `path.join` normalises paths, so profiles such as `"a/"` and `"a"`, or `""` and the downloads root itself, share a folder on disk; the model treats them as different profiles.
- App.Console.SendMessage: the `tool` parameter is not tied to `App.Dispatch`, the `server` parameter or the server endpoints. The properties proved about the conversation and the transcript hold for every tool runner. Nothing states, for example, that an unknown name is answered to the model with "Herramienta no encontrada", or that the text a navigation hands back agrees with the log line it writes.
- App.Printed: the pending line of a navigation without a url holds `undefined` itself in the code, not the text "undefined"; the model writes the text.
- Session.InitProfile: a JSON `null` profile cannot be expressed, since the profile is an `Option<string>`. In the code a `null` profile is not replaced by the default parameter; `currentProfileId` becomes `null` and `path.join` then throws, possibly after another profile's browser was closed. The model treats `null` like a missing profile.
