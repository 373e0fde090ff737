# Quiz agent: the two bounded loops

This project models and verifies the control core of an autonomous quiz
agent, a small Python service. It has two loops:

- **The reasoning engine** (`analyze_task_and_generate_code`). It seeds a
  chat conversation with a system message and a user message. The user
  message holds the page text and the page markup, each cut to 5000
  characters. The engine then calls a language model at most five times.
  It answers every `run_python` tool call with one tool message carrying
  the call's id and the script's combined output (`run_python_code`). The
  first reply without tool calls is parsed as JSON. If that parse fails
  and both braces occur, the slice from the first `{` to the last `}` is
  parsed instead; without both braces the answer is `None`. Every
  exception collapses to `None`.
- **The quiz driver** (`solve_quiz`). It is a `while` loop of at most ten
  passes over a chain of quiz pages. Each pass fetches the page at
  `current_url`, asks the engine for an answer, and posts
  `{email, secret, url, answer}` to the answer's `submission_url`. It
  advances `current_url` only when the server replies 200, `correct`, with a
  `url`. Every other outcome breaks the loop, including an exception inside
  a pass. The browser is closed once, after the loop, when it started at all.

Modules:

| module | file | contents |
|---|---|---|
| `Values` | values.dfy | decoded JSON values, Python truthiness, `dict.get` |
| `PyStr` | pystr.dfy | `s[:n]`, `str.find` / `str.rfind` of a character, substring search |
| `LlmUtils` | llm_utils.dfy | executor output, conversation, tool-call handling, final-answer parse, the engine as a function (`EngineFrom`) and as the imperative loop (`AnalyzeTaskAndGenerateCode`) |
| `Messages` | messages.dfy | the system text and the role/content view of each message |
| `QuizSolver` | quiz_solver.dfy | a pass as a function (`Pass`), the driver loop as a function (`QuizFrom`, `Run`) and as the imperative loop (`SolveQuiz`, with its loop body `Attempt`) |

Everything the code talks to is an oracle:

- The language model is a function from the conversation sent to it to a
  reply or an exception.
- `json.loads` is a partial function (`None` stands for `JSONDecodeError`).
- The script executor maps a `code` value to the finished process's
  (stdout, stderr), or to the exception raised.
- The browser is a `Transport` record:
  - whether chromium launches and opens its context;
  - the page load of each pass (`new_page` through `innerText`), giving
    the markup and text or an exception;
  - whether `page.close()` of each pass succeeds.

  The submission POST is in the same record. Every entry except the launch
  is a function of the pass number and its arguments.

Each imperative method is proved equal to its specification function:

- `AnswerToolCalls` equals `ToolTurns`.
- `AnalyzeTaskAndGenerateCode` equals `EngineFrom`.
- `Attempt` equals `Pass`.
- `SolveQuiz` equals `SolveEffects`: nothing when the browser fails to
  start, otherwise `Run` followed by closing the browser.

The properties are lemmas about those functions. The quiz lemmas (`RunBounded`,
`RunFollowsChain`, and those after them) hold for every pass function with
the pass shape that `PassStepShape` proves of solve_quiz's own passes.
`RunFacts` and `SolveClosesBrowserOnce` instantiate them for `Run` and
`SolveEffects`.

## Model

| member | source | states |
|---|---|---|
| Values.Truthy | quiz_solver.py:54-88 | No contract. It is Python's `not x` on a decoded value: None, false, zero, and the empty string, list and object are falsy. Its uses are stated by Judge and Submitting. |
| Values.Get | quiz_solver.py:58-87 | No contract. It is `dict.get(key)`: the value at key, or None when the key is absent. Its uses are stated by Judge and Submitting. |
| LlmUtils.ToolOutput | llm_utils.py:42-48 | A finished script gives its stdout. When stderr is non-empty, stdout is followed by the error marker and stderr. The output equals stdout exactly when stderr is empty. A raised exception (timeout included) gives a string starting with "Execution failed: ". No outcome raises. |
| LlmUtils.SplitToolOutput | llm_utils.py:42-46 | The combined output loses nothing. When stdout holds no error marker, splitting the output at the first marker gives back stdout and stderr. |
| LlmUtils.RunPythonCode | llm_utils.py:21-48 | No contract. It runs the code through the executor oracle and combines the outcome with ToolOutput. Its properties are ToolOutput's and SplitToolOutput's. |
| PyStr.Prefix | llm_utils.py:96 | `s[:n]` has length min(\|s\|, n) and is a prefix of s. |
| PyStr.Find | llm_utils.py:136 | `find` gives -1 exactly when the character is absent. Otherwise it gives an index holding the character with no earlier occurrence. |
| PyStr.RFind | llm_utils.py:137 | `rfind` gives -1 exactly when the character is absent. Otherwise it gives an index holding the character with no later occurrence. |
| LlmUtils.UserContent | llm_utils.py:96 | The user message is the text header, the first min(\|text\|, 5000) characters of the text, the markup header (exactly, between the two cut parts), then the first min(\|html\|, 5000) characters of the markup. So it is never longer than the two headers plus 10000. |
| LlmUtils.Seed | llm_utils.py:94-97 | The conversation starts as exactly [system, user], and the user message is UserContent. |
| Messages.SeedMessages | llm_utils.py:74-97 | The two seed messages have roles "system" and "user". The system message carries the fixed instructions. The user message's text embeds the truncated page text before the truncated markup. |
| LlmUtils.CodeArgument | llm_utils.py:116-117 | No contract. It is `json.loads(arguments)["code"]`, with None when either step raises. ToolTurnsAbortIff states its role. |
| LlmUtils.ToolTurns | llm_utils.py:113-124 | No contract. It is the tool messages a reply's calls produce and whether a call aborted. Its properties are ToolTurnsAbortIff and ToolTurnsAnswerEachCall, and AnswerToolCalls is proved equal to it. |
| LlmUtils.RunPythonCalls | llm_utils.py:114-115 | Every selected call is one of the reply's calls and is named run_python. Every call named run_python is selected. |
| LlmUtils.RunPythonCallsAppend | llm_utils.py:114-115 | Selecting run_python calls distributes over concatenation, so their order is kept. |
| LlmUtils.RunPythonCallsSingle | llm_utils.py:115 | A single call is kept exactly when it is named run_python. With RunPythonCallsAppend this pins the selection to the run_python calls in order. |
| LlmUtils.ToolTurnsAbortIff | llm_utils.py:113-124 | Handling a reply's tool calls aborts exactly when some run_python call has an argument that is not a JSON object with a "code" key (json.loads or `args["code"]` raises). |
| LlmUtils.ToolTurnsAnswerEachCall | llm_utils.py:114-124 | Without an abort, exactly one tool message is appended per run_python call, in order. Each carries the call's id and the output of running its code. Calls of other names append nothing. |
| LlmUtils.AnswerToolCalls | llm_utils.py:114-124 | The inner `for` loop appends exactly the tool messages ToolTurns describes, and reports the abort exactly when ToolTurns does. |
| LlmUtils.BraceSpan | llm_utils.py:135-138 | The slice is non-empty exactly when the first `{` comes no later than the last `}`. When non-empty, it starts with `{` and ends with `}`. The content is then the text before the first `{` (which has no `{`), the slice, and the text after the last `}` (which has no `}`). |
| LlmUtils.BraceSpanRecovers | llm_utils.py:135-138 | If the content is p + J + s, where p has no `{`, s has no `}`, and J starts with `{` and ends with `}`, then both braces occur and the slice is exactly J. |
| LlmUtils.BraceSpanGreedy | llm_utils.py:136-137 | If the text after such a J contains a `}`, the slice is strictly longer than J. The fallback runs past the object. |
| LlmUtils.FinalAnswer | llm_utils.py:125-139 | Absent content gives None. A successful direct parse is returned. When the direct parse fails, both braces occur and the brace slice parses, that parse is returned. Any other result than None is one of those two. |
| LlmUtils.FinalAnswerEmbedded | llm_utils.py:128-138 | When the whole content fails to parse, an object embedded with brace-free prose around it yields the parse of that object, or None when the object itself does not parse. |
| LlmUtils.EngineFrom | llm_utils.py:100-145 | No contract. It is the agent loop from a conversation with a number of turns left. Its properties are EngineCallBudget, EngineGrows, EngineTerminalReply, EngineFinalReplyGivesAnswer, EngineOnlyLastIsFinal and EngineToolLoopGivesNone. |
| LlmUtils.Analyze | llm_utils.py:70-145 | No contract. It is the result of EngineFrom from the seed with 5 turns, and AnalyzeTaskAndGenerateCode is proved to return it. |
| LlmUtils.EngineCallBudget | llm_utils.py:100-108 | One invocation calls the model at least once and at most once per remaining turn, so at most 5 times from the seed. |
| LlmUtils.EngineGrows | llm_utils.py:110-111 | The conversation only grows: every message it started with is kept, in place. |
| LlmUtils.EngineTerminalReply | llm_utils.py:113-139 | A result other than None is the final answer of the last message of the conversation. That message is an assistant reply without tool calls, appended by this invocation. |
| LlmUtils.EngineFinalReplyGivesAnswer | llm_utils.py:125-139 | The converse of EngineTerminalReply: when the invocation appended messages and the last one is an assistant reply without tool calls, the result is the final answer of that reply's content. |
| LlmUtils.EngineOnlyLastIsFinal | llm_utils.py:110-127 | Every assistant reply appended before the last message carries tool calls. A reply without them ends the invocation at once. |
| LlmUtils.EngineToolLoopGivesNone | llm_utils.py:100-145 | A model that always answers with tool calls makes the invocation return None, because the 5 turns run out or an argument is malformed. |
| LlmUtils.AnalyzeTaskAndGenerateCode | llm_utils.py:70-145 | The imperative loop returns, builds and counts exactly what EngineFrom describes from the seed with 5 turns. The early returns cover a model exception, a final reply and a malformed argument. |
| QuizSolver.Judge | quiz_solver.py:83-102 | The cursor moves only on status 200 with truthy "correct" and truthy "url", and then to that url. Correct without a url is completion. A falsy "correct" is an incorrect answer. Any other status is a failed submission. A body that does not decode to an object raises. Each case is stated in both directions. |
| QuizSolver.Answer | quiz_solver.py:31-50 | No contract. It is the engine's answer for the page at a string cursor that loads, and None when `goto` or the page load raises. Pass states its role. |
| QuizSolver.Submitting | quiz_solver.py:54-104 | A falsy result, or a falsy submission_url, stops the pass with no submission. A truthy non-object raises. Otherwise exactly one POST of {email, secret, url: current_url, answer: result["answer"]} goes to submission_url. The pass advances exactly when Judge proceeds and the page close succeeds. A close that raises breaks on the already-assigned next URL. Every other stop leaves the cursor where it was. |
| QuizSolver.Pass | quiz_solver.py:31-53 | A cursor that is not a string, or a page that fails to load, raises and stops the pass after its visit, on the same cursor. Otherwise the pass continues with the engine's answer for that page's markup and text. |
| QuizSolver.PassStepShape | quiz_solver.py:27-108 | Every pass of solve_quiz visits its cursor first and exactly once. It closes a page exactly when it advances and never closes the browser. It never stops for the cap. It breaks on another cursor only by raising after a submission. It submits at most once, as its second effect, with its cursor and the caller's email and secret. |
| QuizSolver.QuizFrom | quiz_solver.py:27-108 | No contract. It is the `while` loop from a counter and a cursor, for any pass function. Its properties are RunBounded, RunKeepsBrowser, RunFollowsChain, RunEndsOnCursor and RunSubmissions. |
| QuizSolver.Run | quiz_solver.py:16-108 | No contract. It is that loop for solve_quiz's own passes, from counter 0 and the caller's url. RunFacts states its properties. |
| QuizSolver.RunBounded | quiz_solver.py:19-28 | At most 10 passes start. The counter at exit equals the number of passes started. The cap ends a run only when all 10 passes advanced. A run that breaks closed a page for every pass but the last. |
| QuizSolver.RunKeepsBrowser | quiz_solver.py:104-110 | No pass closes the browser. |
| QuizSolver.RunFollowsChain | quiz_solver.py:83-90 | The cursor changes only in the advance branch. The first URL visited is the start cursor, and each later URL is the `url` the previous pass advanced to. |
| QuizSolver.RunEndsOnCursor | quiz_solver.py:16-108 | A run that breaks ends where the pass that stopped left current_url, with that pass's exit. That is the URL the pass visited, unless the pass raised (its page close) after moving it. A run that reaches the cap ends on the URL its last pass advanced to. |
| QuizSolver.RunSubmissions | quiz_solver.py:69-79 | Every submission in a run immediately follows the visit of its pass. It posts that pass's URL and carries the caller's email and secret unchanged. |
| QuizSolver.RunFacts | quiz_solver.py:16-108 | Once the browser is up, the loop starts 1 to 10 passes, the first on the caller's url. Pages closed are the passes minus one, or all of them when the cap was reached. No pass closes the browser. Every submission carries the caller's credentials and its pass's URL. |
| QuizSolver.TwoQuestionChain | quiz_solver.py:83-104 | Answer 1 is accepted with a next url U2 and its page closes. Answer 2 is accepted with no url. The run then completes on U2 after exactly 2 passes and closes one page. |
| QuizSolver.Attempt | quiz_solver.py:31-108 | The try block of one pass performs exactly the effects Pass describes. It advances to the same next URL, or breaks with the same exit on the same current_url. |
| QuizSolver.SolveEffects | quiz_solver.py:22-110 | No contract. It is everything solve_quiz does: nothing when the browser fails to start, otherwise the loop's effects and one browser close. |
| QuizSolver.SolveClosesBrowserOnce | quiz_solver.py:22-110 | The browser is closed exactly when it started, then once, as the last effect. The passes started are the loop's when the browser started, and none otherwise. |
| QuizSolver.SolveQuiz | quiz_solver.py:10-110 | The imperative solve_quiz performs exactly SolveEffects. When the browser starts, its counter, final cursor and exit are Run's. When launch or the context raises, no pass starts, the browser is not closed, and the exit is LaunchRaised. |

## Left out

- The HTTP front end that starts a run is not part of this model. Neither is the construction of the model client and its environment configuration.
- The temporary script file, the choice of interpreter and the `subprocess.run` mechanics are left out. The 30-second timeout is also left out. The executor is an oracle returning the two captured streams, or the exception raised, which covers a timeout and a non-string `code`.
- The browser and the HTTP client are oracles (`Transport`), and Playwright's own behaviour is not modelled. Logging, `async`/`await` and the `TOOLS` schema literal do not affect control flow and are omitted. The server's `reason` field is only logged, so the model does not keep it.
- `browser.close()` after the loop is recorded as the last effect. Whether it raises is not modelled, because nothing follows it: a raise would only make solve_quiz propagate the exception.
- `json.loads` and `response.json()` are uninterpreted partial functions. In Python, `json.loads("")` always raises, so content whose last `}` comes before its first `{` always gives None. The model leaves the parse of that empty slice to the oracle instead of fixing it to fail.
- The oracles are deterministic in their arguments. The model is a function of the conversation, and the browser and the POST are functions of the pass number and their arguments. Nondeterminism beyond that is not modelled.
- JSON numbers are `JNum(real)`. Python's JSON decoder keeps `int` and `float` apart, so `1` and `1.0` are distinct values there but not here. `NaN` and `Infinity`, which `json.loads` accepts, have no representation. The code uses numbers only through truthiness, so neither difference changes a modelled outcome.
- `char` stands for a Unicode code point. Python's `str` indexing and slicing are modelled on code points, with no encoding.
- The code has no `timed_out` flag. A timeout is an exception inside `run_python_code` and becomes an "Execution failed" string, so the model follows the code.
- A malformed tool argument aborts the engine with None rather than being reported back to the model (ToolTurnsAbortIff). Tool calls of another name get no tool message. There is no retry after an incorrect answer, and reaching the iteration cap is not a separate outcome of `solve_quiz`. The ghost `Exit` values only record which break the loop took.
- The fallback does not recover an object from anywhere in a reply. It recovers it only when the prose before the object has no `{` and the prose after it has no `}` (BraceSpanRecovers). Otherwise the slice can run past the object (BraceSpanGreedy).
- The driver can revisit a URL: a server may send the run back to a page already answered, and the code does not check for this. So no lemma claims the visited URLs are distinct.
- LlmUtils.AnalyzeTaskAndGenerateCode: its ensures ties the method to EngineFrom and does not itself repeat the call budget and growth. EngineCallBudget and EngineGrows state those about EngineFrom.
- Page objects that are opened but not closed on a break, and the context object, are not tracked. The effects record only the page closes and the one browser close.
