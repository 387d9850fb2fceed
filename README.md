# Coding-interview practice app: the code runner and the interview panel

This project models the core of a coding-interview practice application in Dafny and proves properties of the model. The application has two halves:

- **A Python code runner.** It checks a candidate's code, executes it and calls the candidate's `solution` function on each test case. There are two versions. The service driver runs an import check first, sanitises the top level and wraps each result in a one-element list. The legacy driver executes the code directly and returns the result unwrapped.
- **A web front end.** The parts modelled here are:
  - the chat panel, with its message log, request sending, `aiAnalysis` listener and speech toggle;
  - the speech-recognition hook;
  - the route middleware that guards `/dashboard`;
  - the text-to-speech endpoint, which joins streamed audio chunks into one WAV file;
  - the difficulty badge colour.

Python execution and parsing are represented by oracles, which are datatypes of functions the drivers receive as parameters. The parse tree is a small datatype of statement kinds (`PyAst.Stmt`). The front-end components are classes whose methods update the component state in place, each one specified by a pure step function (`SpeechCapture.Next`, `ChatSidebar.Apply`). Module by file:

| file | module | models |
|---|---|---|
| wrappers.dfy | Wrappers | `Option` |
| py_model.dfy | PyModel | Python values, exceptions, `==`, argument unpacking |
| py_ast.dfy | PyAst | the import check, the `__import__` hook, top-level sanitising |
| case_runner.dfy | CaseRunner | the per-case result record and the test loop shared by both drivers |
| services_driver.dfy | ServicesDriver | `run_user_code` / `run_test_cases` of the service driver |
| legacy_driver.dfy | LegacyDriver | `run_user_code` / `run_test_cases` of the legacy driver |
| driver_comparison.dfy | DriverComparison | the two drivers side by side, and the built-in adder scenario |
| js_text.dfy | JsText | `String.prototype.trim` and `toLowerCase` |
| speech_capture.dfy | SpeechCapture | the speech-recognition hook |
| chat_sidebar.dfy | ChatSidebar | the chat panel |
| route_guard.dfy | RouteGuard | the middleware |
| tts_route.dfy | TtsRoute | the TTS endpoint |
| problem_description.dfy | ProblemDescription | `getDifficultyColor` |

The two drivers differ in several ways:
- The service driver rejects disallowed imports with `ValueError`; the legacy driver runs them.
- The service driver drops top-level statements other than function and class definitions (not `async def`), plain and annotated assignments, imports and string-literal expressions such as docstrings.
- The service driver executes with a short list of builtins only.
- The service driver turns an exception raised by `solution` into a `RuntimeError`; the legacy driver lets it through, so the recorded message differs.
- The service driver wraps the result in a one-element list.

Both drivers catch only `Exception`. A `BaseException` outside it, such as `SystemExit` raised by the candidate's code, passes every handler unchanged and ends `run_test_cases` without a result list (`CaseRunner.Report.Aborted`).

For code that both drivers accept and run to the same call of `solution`, when that call returns a value `v`, the wrapping is the only difference. `DriverComparison.WrappingIsTheDifference` proves this: the service driver answers `[v]` where the legacy driver answers `v`. Test cases with scalar expected outputs therefore never succeed through the service driver. On the legacy driver's own sample scenario, all five cases pass with the legacy driver (`LegacySamplesPass`) and all five fail with the service driver (`ServicesSamplesFail`).

## Model

| member | source | states |
|---|---|---|
| PyModel.Args | codedriver/services/driver.py:135-139 | a list or tuple input is spread into the arguments; any other input is passed as the single argument |
| PyModel.PyEqReflexive | codedriver/services/driver.py:172 | the model of Python `==` on test values is reflexive, through nested lists, tuples and dictionaries |
| PyModel.PyEqSymmetric | codedriver/services/driver.py:172 | the model of Python `==` is symmetric, dictionaries being compared by keys and values |
| PyModel.SingletonListEq | codedriver/services/driver.py:144 | a wrapped output `[v]` equals the expected value only if the expected value is a one-element list whose element equals `v` |
| PyAst.OffenceError | codedriver/services/driver.py:20-25 | every rejected import raises a `ValueError` naming the module |
| PyAst.FirstDisallowed | codedriver/services/driver.py:18-21 | the first alias not on the allow-list is found, and there is none exactly when every alias is allowed |
| PyAst.FirstDisallowedAt | codedriver/services/driver.py:18-21 | the alias reported is the earliest disallowed one in source order |
| PyAst.NodeOffence | codedriver/services/driver.py:17-25 | a node is rejected exactly when one of its own imported modules is off the list; a relative `from . import` has module `None`, which is never allowed |
| PyAst.FirstOffenceCorrect | codedriver/services/driver.py:15-25 | the breadth-first walk finds an offence exactly when some import anywhere in the tree is disallowed, and the module it reports occurs in the tree and is disallowed |
| PyAst.RelativeImportRejected | codedriver/services/driver.py:23-25 | `from . import x` is always rejected, as an import from `None` |
| PyAst.ImportCheck | codedriver/services/driver.py:8-25 | unparsable code raises `SyntaxError`; otherwise the check raises nothing exactly when every import in the tree is allowed, and what it raises is a `ValueError` |
| PyAst.CheckNoImports | codedriver/services/driver.py:8-25 | the breadth-first walk raises exactly what `ImportCheck` prescribes: the error of the first offence in walk order, or nothing |
| PyAst.RestrictedImport | codedriver/services/driver.py:30-38 | the import hook refuses exactly the modules not on the list, with an `ImportError` |
| PyAst.CheckedImportsPassHook | codedriver/services/driver.py:30-38 | in code that passed the static check, every module the code imports is admitted by the hook |
| PyAst.KeepTopLevelSubsequence | codedriver/services/driver.py:40-64 | the sanitised body is a subsequence of the original, in order, made only of kept statement kinds |
| PyAst.KeepTopLevelCounts | codedriver/services/driver.py:49-61 | every kept statement survives as often as it occurred, and every other statement is removed |
| PyAst.KeepTopLevelIdempotent | codedriver/services/driver.py:40-64 | sanitising twice is the same as sanitising once |
| PyAst.KeepTopLevelModules | codedriver/services/driver.py:40-64 | sanitising adds no import, so code that passed the import check still passes it |
| PyAst.ModuleNode.constructor | codedriver/services/driver.py:82 | a module node holds the parsed top-level body |
| PyAst.SanitizeTopLevel | codedriver/services/driver.py:40-64 | the tree is changed in place to its sanitised body, and the same tree is returned |
| CaseRunner.Get | codedriver/services/driver.py:167-168 | `case.get(key)` gives the value, or `None` for a missing key |
| CaseRunner.Record | codedriver/services/driver.py:170-185 | a test result records the index, the input and the expected output; it succeeds exactly when the run returned a value equal to the expected one; an exception is recorded as its message and fails |
| CaseRunner.RunTestCases | codedriver/services/driver.py:152-187 | the list of results is returned exactly when no case raises past `except Exception`, and then holds one result per case, in order, each recording that case run on its own input; otherwise the run ends with the exception of the first case whose exception escapes, every earlier case having been caught or passed |
| ServicesDriver.RunUserCode | codedriver/services/driver.py:66-148 | unparsable code raises `SyntaxError`, a disallowed import raises `ValueError` before anything runs, and every value returned is a one-element list |
| ServicesDriver.EscapingComesFromUserCode | codedriver/services/driver.py:114-148 | a `BaseException` outside `Exception` raised by executing the code or by `solution` passes the handlers unchanged, and any exception that escapes `run_user_code` is one of those |
| ServicesDriver.RunUserCodeCalls | codedriver/services/driver.py:108-148 | when every stage before the call succeeds, the result is `[solution(*args)]` computed on the sanitised tree's namespace, or the call's `Exception` wrapped in a `RuntimeError`, or the call's other `BaseException` unchanged |
| ServicesDriver.RejectedBeforeExecution | codedriver/services/driver.py:76-78 | code with a disallowed import gets the same `ValueError` whatever the interpreter would do with it |
| ServicesDriver.MissingSolution | codedriver/services/driver.py:127-129 | code that runs but defines no callable `solution` raises that `ValueError` |
| ServicesDriver.FailuresAfterCheckAreRuntimeErrors | codedriver/services/driver.py:108-148 | a compile, execution or call failure after the checks that is an `Exception` surfaces as a `RuntimeError` |
| ServicesDriver.SecondParseNeverFails | codedriver/services/driver.py:81-84 | the "Could not parse" error is never raised, because the first parse already fails for the same code |
| ServicesDriver.RunTestCases | codedriver/services/driver.py:152-187 | with the service driver's `run_user_code`: the results are returned exactly when no case's exception escapes, one per case in order; otherwise the first escaping exception ends the run |
| ServicesDriver.SuccessNeedsSingletonExpected | codedriver/services/driver.py:144 | a case can succeed only if its expected output is a one-element list |
| LegacyDriver.RunUserCode | codedriver/driver.py:5-35 | an `Exception` from execution raises `RuntimeError` and any other `BaseException` from it passes unchanged, a missing or non-callable `solution` raises `ValueError`, and otherwise the call's own outcome is returned unwrapped, exceptions included |
| LegacyDriver.EscapingComesFromUserCode | codedriver/driver.py:20-35 | an exception that escapes `run_user_code` is the one executing the code raised, or the call's own outcome |
| LegacyDriver.RunTestCases | codedriver/driver.py:39-74 | with the legacy driver's `run_user_code`: the results are returned exactly when no case's exception escapes, one per case in order; otherwise the first escaping exception ends the run |
| DriverComparison.WrappingIsTheDifference | codedriver/services/driver.py:144 | where both drivers reach the call, the service driver returns `[v]` and the legacy driver returns `v`; a non-list expected value makes the service driver fail, while the legacy driver succeeds exactly when `v` equals it |
| DriverComparison.LegacySamplesPass | codedriver/driver.py:76-115 | on the built-in adder scenario, every case passes with the legacy driver |
| DriverComparison.ServicesSamplesFail | codedriver/services/driver.py:135-148 | on the same scenario, every case fails with the service driver, because its output is wrapped |
| JsText.SkipWhitespace | frontend/src/app/api/tts/route.ts:9 | the index found is the first non-whitespace character from the starting point on, everything skipped being whitespace |
| JsText.CutWhitespace | frontend/src/app/api/tts/route.ts:9 | the end found is just after the last non-whitespace character of the range, everything cut being whitespace |
| JsText.Leading | frontend/src/app/api/tts/route.ts:9 | the length of the leading whitespace: all whitespace before it, and a non-whitespace character at it |
| JsText.Trim | frontend/src/components/chat-sidebar.tsx:115 | the trimmed text is the slice between the leading and the trailing whitespace, has none at either end, and is empty exactly when the text is all whitespace |
| JsText.ToLower | frontend/src/components/problem-description.tsx:26 | lower-casing keeps the length |
| SpeechCapture.Mount | frontend/src/hooks/useSpeechRecognition.ts:11-21 | an instance exists exactly when the platform provides one, configured single-utterance, final results only, `en-US`; the hook starts idle |
| SpeechCapture.Transcript | frontend/src/hooks/useSpeechRecognition.ts:23-27 | the transcript is the first alternative of the first result, when there is one |
| SpeechCapture.Next | frontend/src/hooks/useSpeechRecognition.ts:29-52 | without an instance nothing happens; toggling while idle starts the instance and sets the flag; toggling while recording calls `stop` and leaves the flag set; an error or end clears the flag |
| SpeechCapture.Delivered | frontend/src/hooks/useSpeechRecognition.ts:23-27 | only a result event from an existing instance delivers a transcript |
| SpeechCapture.InertWithoutCapability | frontend/src/hooks/useSpeechRecognition.ts:14-15 | without the platform capability no event sequence changes anything or delivers a transcript |
| SpeechCapture.NextConsistent | frontend/src/hooks/useSpeechRecognition.ts:44-52 | each step keeps the invariant: the first call made is `start`, the flag is set only after a `start`, and nothing is called without an instance |
| SpeechCapture.ReachableConsistent | frontend/src/hooks/useSpeechRecognition.ts:29-52 | every reachable state satisfies that invariant |
| SpeechCapture.TranscriptsBoundedByResults | frontend/src/hooks/useSpeechRecognition.ts:23-27 | the callback runs at most once per result event |
| SpeechCapture.SpeechRecognitionHook.constructor | frontend/src/hooks/useSpeechRecognition.ts:8-21 | the hook's state after mounting is `Mount` |
| SpeechCapture.SpeechRecognitionHook.ToggleRecording | frontend/src/hooks/useSpeechRecognition.ts:44-52 | the toggle updates the state as `Next` prescribes |
| SpeechCapture.SpeechRecognitionHook.OnResult | frontend/src/hooks/useSpeechRecognition.ts:23-27 | the state is unchanged, and the transcript, if any, is appended to those delivered |
| SpeechCapture.SpeechRecognitionHook.OnError | frontend/src/hooks/useSpeechRecognition.ts:29-32 | the flag is cleared |
| SpeechCapture.SpeechRecognitionHook.OnEnd | frontend/src/hooks/useSpeechRecognition.ts:34-37 | the flag is cleared |
| ChatSidebar.Mount | frontend/src/components/chat-sidebar.tsx:104-112 | the log starts with only the greeting, the input is empty and no request is pending |
| ChatSidebar.ReplyContent | frontend/src/components/chat-sidebar.tsx:145 | a reply shows the feedback, or the fallback sentence when the feedback is missing or empty, and is never empty |
| ChatSidebar.SendMessage | frontend/src/components/chat-sidebar.tsx:114-155 | blank text changes nothing; otherwise the untrimmed text is logged as a user message and the input is cleared; a request with the closed-over code and description is sent, unless the description is missing |
| ChatSidebar.Apply | frontend/src/components/chat-sidebar.tsx:49-155 | every event at most appends one message to the end of the log; a failed request adds nothing; a parsed reply adds one chat message; an `aiAnalysis` event adds one feedback message; a request is only ever sent for a recognised transcript, with the code and description of the first render |
| ChatSidebar.LogOnlyGrows | frontend/src/components/chat-sidebar.tsx:57 | the log is append-only: the earlier log is a prefix of every later one |
| ChatSidebar.GreetingStaysFirst | frontend/src/components/chat-sidebar.tsx:104-111 | the greeting remains the first message forever |
| ChatSidebar.ApplyBalanced | frontend/src/components/chat-sidebar.tsx:125-150 | each step keeps replies plus pending requests at most the requests sent, and requests at most the user messages |
| ChatSidebar.RunBalanced | frontend/src/components/chat-sidebar.tsx:114-155 | that balance holds after any valid sequence of events |
| ChatSidebar.MountedBalanced | frontend/src/components/chat-sidebar.tsx:104-155 | in every state reached after mounting, replies never outnumber requests and requests never outnumber the user's messages |
| ChatSidebar.WithoutProblemNoRequests | frontend/src/components/chat-sidebar.tsx:64-91 | a panel whose first render had no problem description never sends a request, whatever happens later |
| ChatSidebar.TranscriptUsesCurrentProps | frontend/src/components/chat-sidebar.tsx:73-77 | with the corrected handler, a spoken question is sent with the current code and description |
| ChatSidebar.CorrectedKeepsBalance | frontend/src/components/chat-sidebar.tsx:73-77 | the corrected handler keeps the log append-only and keeps the balance between replies, requests and user messages |
| ChatSidebar.StaleCodeWitness | frontend/src/components/chat-sidebar.tsx:64-91 | as written, a spoken question asked after an edit is sent with the code from mount, where the corrected handler sends the edited code |
| ChatSidebar.ChatPanel.constructor | frontend/src/components/chat-sidebar.tsx:43-112 | the panel's first state is `Mount` |
| ChatSidebar.ChatPanel.Rerender | frontend/src/components/chat-sidebar.tsx:43 | a new render replaces the props and nothing else |
| ChatSidebar.ChatPanel.Send | frontend/src/components/chat-sidebar.tsx:114-140 | the body of `handleSendMessage` gives `SendMessage` of the props it closes over |
| ChatSidebar.ChatPanel.OnAnalyseSettled | frontend/src/components/chat-sidebar.tsx:141-154 | a settled request updates the state as `Apply` prescribes |
| ChatSidebar.ChatPanel.OnAiAnalysis | frontend/src/components/chat-sidebar.tsx:49-58 | an `aiAnalysis` event appends one feedback message |
| ChatSidebar.ChatPanel.ToggleRecording | frontend/src/components/chat-sidebar.tsx:93-102 | the panel's toggle follows the same state machine as the hook |
| ChatSidebar.ChatPanel.OnRecognitionResult | frontend/src/components/chat-sidebar.tsx:73-77 | a transcript is put in the input and sent with the props of the first render, as `Apply` prescribes |
| ChatSidebar.ChatPanel.OnRecognitionError | frontend/src/components/chat-sidebar.tsx:79-82 | the flag is cleared |
| ChatSidebar.ChatPanel.OnRecognitionEnd | frontend/src/components/chat-sidebar.tsx:84-86 | the flag is cleared |
| RouteGuard.AnyPrefix | frontend/src/middleware.ts:16-18 | a path is matched exactly when one of the routes is a prefix of it |
| RouteGuard.Middleware | frontend/src/middleware.ts:5-46 | the request is redirected to `/signin` exactly when the path is protected and has no `token` cookie |
| RouteGuard.ProtectedMeansDashboardPrefix | frontend/src/middleware.ts:10-18 | the protected paths are exactly those beginning with `/dashboard`, including siblings such as `/dashboard-old` |
| RouteGuard.SignInReachable | frontend/src/middleware.ts:26-27 | the sign-in page itself is never redirected, so the redirect cannot loop |
| RouteGuard.TokenValueIgnored | frontend/src/middleware.ts:30-36 | a `token` cookie with any value, even empty, lets the request through |
| TtsRoute.ConcatLength | frontend/src/app/api/tts/route.ts:24-31 | the joined buffer is as long as the summed chunk lengths |
| TtsRoute.ConcatPrefix | frontend/src/app/api/tts/route.ts:32-36 | joining the first chunks gives a prefix of joining more of them |
| TtsRoute.ChunkAtOffset | frontend/src/app/api/tts/route.ts:32-36 | chunk `i` lies in the buffer at the offset equal to the summed lengths before it, and fits inside the buffer |
| TtsRoute.ConcatAppend | frontend/src/app/api/tts/route.ts:26-36 | joining splits over concatenation of the chunk lists |
| TtsRoute.CopyInto | frontend/src/app/api/tts/route.ts:34 | `set` overwrites exactly the chunk's span starting at the offset, and leaves the rest unchanged |
| TtsRoute.AssembleAudio | frontend/src/app/api/tts/route.ts:23-36 | the buffer the two loops build is the chunks joined in order, and its length is their summed length |
| TtsRoute.Get | frontend/src/app/api/tts/route.ts:6-60 | 400 with the missing-`msg` error exactly when `msg` is absent or blank; the trimmed text is sent when a session opens; the session is closed only once the WAV file exists; 200 with `audio/wav` and the WAV of the joined chunks exactly when every stage succeeds, including the encoder; 500 with the TTS error otherwise |
| ProblemDescription.DifficultyColor | frontend/src/components/problem-description.tsx:25-36 | the colour is one of the four badge classes |
| ProblemDescription.ColourByWord | frontend/src/components/problem-description.tsx:26-35 | green, yellow and red are chosen exactly by `easy`, `medium` and `hard` in any letter case; everything else is grey |
| ProblemDescription.CaseInsensitive | frontend/src/components/problem-description.tsx:26 | changing the letter case of a difficulty never changes its colour |
| ProblemDescription.ColoursDistinct | frontend/src/components/problem-description.tsx:27-35 | `Easy`, `Medium` and `HARD` get the green, yellow and red badges, and the four colours are distinct |

## Left out

- Timeouts: the 15-second limits on execution and on the call, with their "timed out" errors, are not modelled. The model has no clock and no thread pool.
- Execution times: `execution_time` in each test result is not modelled, for the same reason.
- Python's own parser, compiler and interpreter are oracles. Only the statement kinds that the import check and the sanitiser look at are represented. Floats are not among the modelled values. Dictionaries are modelled with string keys only, the form a JSON object takes.
- The `print` of each checked alias in the import check is not modelled, and neither is the legacy driver's `main` printing its results. Both are output only.
- PyAst.CheckNoImports: the ensures names the error of the first offence in breadth-first order over the modelled statement kinds. Python's `ast.walk` also descends into expressions, handlers and match cases, which are not represented.
- PyAst.CheckNoImports: `SyntaxError` messages are whatever the parser oracle says.
- ServicesDriver.RunUserCode: exceptions are modelled by class and message only. The `str(e)` of a Python exception is taken to be its message. The `compile` oracle yields only `Exception`s: a `KeyboardInterrupt` arriving during compilation is not modelled.
- CaseRunner.Record: Python's `==` is modelled structurally on the values above, with any other object compared by identity. A user-defined `__eq__` on a returned object is not modelled: neither its own answer, which becomes `success` as it is and may be any value, nor an exception it raises. The comparison sits inside the loop's `try`, so such an exception would replace the recorded output by its message, or end the run if it is not an `Exception`. The recorded `input` is the value read from the case. In the source it is the `input_data` object itself, stored after the call, and its elements reach `solution` by reference, so a `solution` that mutates its arguments in place (sorting a list, say) changes the recorded input. The call oracle returns only an outcome, not the arguments after the call.
- CaseRunner.RunTestCases: inherits both `CaseRunner.Record` gaps: a user-defined `__eq__` cannot change a case's success or end the run, and the recorded `input` is the value read, not the object after a `solution` that mutates its arguments in place.
- ServicesDriver.RunTestCases: the same two gaps as `CaseRunner.RunTestCases`: user-defined `__eq__`, and the recorded `input` is the value read, not the object after a `solution` that mutates its arguments in place.
- LegacyDriver.RunTestCases: the same two gaps as `CaseRunner.RunTestCases`: user-defined `__eq__`, and the recorded `input` is the value read, not the object after a `solution` that mutates its arguments in place.
- `restricted_import` is modelled as a check on the module name alone. The real import it delegates to is not modelled.
- JsText.ToLower: only ASCII letters are lower-cased, which is enough for the three difficulty words. Full Unicode case mapping is not modelled.
- SpeechCapture: the hook's effect re-creating the instance when the `onResult` callback changes identity is not modelled. The server-side guard (`typeof window`) is folded into "no capability".
- React's batching of state updates is not modelled. Each event is applied in full before the next one.
- The panel renders no text input, so `handleSendMessage` is only ever called by the recognition handler. The model has no other send event.
- The `fetch`, the JSON parse of the reply and the `console.error` logging are not modelled. A request is represented by its body, and its completion by a `Reply` event.
- Message ids and timestamps come from the clock, and are parameters here.
- RouteGuard: the Next.js `matcher` configuration, which decides which requests reach the middleware at all, is not modelled. Neither is the absolute URL built from the request's origin: a redirect is represented by its path.
- TtsRoute: the Neuphonic websocket SDK is an oracle (open, send, close) and so is `toWav`. The speed and language options passed to the session are not modelled. The response body is represented by its bytes.

## Findings

| source | as written | input that shows it | evidently intended | confidence | as-written member | corrected member |
|---|---|---|---|---|---|---|
| frontend/src/components/chat-sidebar.tsx:64-91 | the recognition handler is installed once, by an effect with no dependencies, and calls the first render's `handleSendMessage`, which closes over the `code` and `selectedProblem` of the first render | mount with code `def f(): pass`, edit it to `def f(): return 1`, then speak "why does it fail": the request carries `def f(): pass` | a spoken question is analysed against the code and problem currently shown. This shows only when a caller passes props: the dashboard (frontend/src/components/dashboard.tsx:87) renders the panel without any, so there every spoken question throws on reading the description before any request is sent (`ChatSidebar.WithoutProblemNoRequests`) | not executed | ChatSidebar.StaleCodeWitness | ChatSidebar.TranscriptUsesCurrentProps |
