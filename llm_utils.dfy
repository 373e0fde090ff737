// The reasoning engine: a tool-calling conversation with a language model,
// bounded to five model calls, that offers the model one capability
// (run_python) and ends with the model's final answer parsed as JSON.
// The model, json.loads and the code executor are oracles (see Oracles).
module LlmUtils {
  import opened Values
  import opened PyStr

  /** The turn budget of the agent loop. */
  const MaxTurns: nat := 5
  /** How many characters of the page text and of the page markup are sent. */
  const TruncateAt: nat := 5000
  /** The only tool the engine answers. */
  const ToolName: string := "run_python"
  /** Marker placed between a script's stdout and its stderr. */
  const ErrorMarker: string := "\nError:\n"
  /** Prefix of the text returned when running a script raises. */
  const FailurePrefix: string := "Execution failed: "
  const TextHeader: string := "Page Text:\n"
  const HtmlHeader: string := "\n\nPage HTML Source:\n"

  // ---------------------------------------------------------------------
  // Code executor output (run_python_code)
  // ---------------------------------------------------------------------

  /** What running a script produced: the captured streams of a finished
      process, or the exception raised while writing or running it (a
      missing interpreter, a 30-second timeout, a non-string `code`). */
  datatype ExecOutcome =
    | Finished(stdout: string, stderr: string)
    | Raised(error: string, traceback: string)

  /** The text run_python_code returns for an outcome; it never raises. */
  function ToolOutput(o: ExecOutcome): (r: string)
    ensures o.Finished? ==> |o.stdout| <= |r| && r[..|o.stdout|] == o.stdout
    ensures o.Finished? ==> (r == o.stdout <==> o.stderr == [])
    ensures o.Finished? && o.stderr != [] ==>
      r[|o.stdout|..] == ErrorMarker + o.stderr
    ensures o.Raised? ==>
      |FailurePrefix| <= |r| && r[..|FailurePrefix|] == FailurePrefix
  {
    match o
    case Finished(out, err) =>
      if err != [] then out + ErrorMarker + err else out
    case Raised(e, tb) => FailurePrefix + e + "\n" + tb
  }

  /** Reads a finished script's streams back out of its tool output: the
      text before the first marker is stdout, the text after it stderr. */
  function SplitOutput(r: string): (streams: (string, string))
  {
    var i := FindSub(r, ErrorMarker, 0);
    if i < 0 then (r, []) else (r[..i], r[i + |ErrorMarker|..])
  }

  /** stdout holds no marker, not even one that runs into the marker
      appended after it. */
  ghost predicate MarkerFree(stdout: string) {
    forall j: nat :: j < |stdout| ==> !At(stdout + ErrorMarker, ErrorMarker, j)
  }

  /** The combined output loses nothing: both streams can be read back. */
  lemma SplitToolOutput(stdout: string, stderr: string)
    requires MarkerFree(stdout)
    ensures SplitOutput(ToolOutput(Finished(stdout, stderr))) == (stdout, stderr)
  {
    var r := ToolOutput(Finished(stdout, stderr));
    var m := |ErrorMarker|;
    forall j: nat | j < |stdout|
      ensures !At(r, ErrorMarker, j)
    {
      assert !At(stdout + ErrorMarker, ErrorMarker, j);
      if j + m <= |r| {
        assert r[j..j + m] == (stdout + ErrorMarker)[j..j + m];
      }
    }
    if stderr == [] {
    } else {
      assert r == stdout + ErrorMarker + stderr;
      assert At(r, ErrorMarker, |stdout|) by {
        assert r[|stdout|..|stdout| + m] == ErrorMarker;
      }
      var i := FindSub(r, ErrorMarker, 0);
      assert i == |stdout|;
    }
  }

  /** run_python_code(code): runs the script and combines its output. */
  function RunPythonCode(code: Json, exec: Json -> ExecOutcome): string {
    ToolOutput(exec(code))
  }

  // ---------------------------------------------------------------------
  // Conversation
  // ---------------------------------------------------------------------

  /** A tool invocation issued by the model; arguments is a JSON text. */
  datatype ToolCall = ToolCall(id: string, name: string, arguments: string)

  /** A model message: optional text content and its tool calls (an
      absent tool_calls list is the empty sequence). */
  datatype Reply = Reply(content: Option<string>, toolCalls: seq<ToolCall>)

  /** One chat-completion request: a reply, or an exception (a transport
      failure, a response without choices). */
  datatype ModelResponse = Replied(reply: Reply) | ModelRaised

  /** A message of the conversation. The system message always carries
      the same instructions (Messages.SystemPrompt). */
  datatype Turn =
    | SystemTurn
    | UserTurn(content: string)
    | AssistantTurn(reply: Reply)
    | ToolTurn(toolCallId: string, content: string)

  /** The engine's collaborators: the model as a function of the conversation
      sent to it, json.loads (None for a JSONDecodeError), and the executor. */
  datatype Oracles = Oracles(
    model: seq<Turn> -> ModelResponse,
    parse: string -> Option<Json>,
    exec: Json -> ExecOutcome)

  /** The user turn: page text and page markup, each cut to 5000 characters. */
  function UserContent(html: string, text: string): (r: string)
    ensures |r| <= |TextHeader| + |HtmlHeader| + 2 * TruncateAt
    ensures var t, h := Prefix(text, TruncateAt), Prefix(html, TruncateAt);
      |r| == |TextHeader| + |t| + |HtmlHeader| + |h| &&
      r[..|TextHeader|] == TextHeader &&
      r[|TextHeader|..|TextHeader| + |t|] == text[..|t|] &&
      r[|TextHeader| + |t|..|r| - |h|] == HtmlHeader &&
      r[|r| - |h|..] == html[..|h|]
  {
    TextHeader + Prefix(text, TruncateAt) + HtmlHeader + Prefix(html, TruncateAt)
  }

  /** The conversation every invocation starts from. */
  function Seed(html: string, text: string): (conv: seq<Turn>)
    ensures |conv| == 2
    ensures conv[0] == SystemTurn
    ensures conv[1] == UserTurn(UserContent(html, text))
  {
    [SystemTurn, UserTurn(UserContent(html, text))]
  }

  // ---------------------------------------------------------------------
  // Tool calls of one reply
  // ---------------------------------------------------------------------

  /** json.loads(arguments)["code"], or None when either step raises. */
  function CodeArgument(parse: string -> Option<Json>, arguments: string): Option<Json> {
    match parse(arguments)
    case Some(JObj(fields)) => if "code" in fields then Some(fields["code"]) else None
    case _ => None
  }

  /** The tool turns appended while handling tool calls, and whether a
      malformed argument raised part-way (turns then holds those before it). */
  datatype ToolPass = ToolPass(turns: seq<Turn>, aborted: bool)

  /** The inner loop over a reply's tool calls, in order: a run_python call
      runs its "code" argument and is answered with a tool turn; a call of
      any other name is skipped; a malformed argument stops the pass. */
  function ToolTurns(calls: seq<ToolCall>, o: Oracles): ToolPass
  {
    if calls == [] then ToolPass([], false)
    else if calls[0].name != ToolName then ToolTurns(calls[1..], o)
    else match CodeArgument(o.parse, calls[0].arguments)
      case None => ToolPass([], true)
      case Some(code) =>
        var rest := ToolTurns(calls[1..], o);
        ToolPass([ToolTurn(calls[0].id, RunPythonCode(code, o.exec))] + rest.turns, rest.aborted)
  }

  /** The calls the engine answers, in order. */
  function RunPythonCalls(calls: seq<ToolCall>): (r: seq<ToolCall>)
    ensures forall c :: c in r ==> c in calls && c.name == ToolName
    ensures forall k :: 0 <= k < |calls| && calls[k].name == ToolName ==> calls[k] in r
  {
    if calls == [] then []
    else if calls[0].name == ToolName then [calls[0]] + RunPythonCalls(calls[1..])
    else RunPythonCalls(calls[1..])
  }

  /** Selecting the run_python calls keeps their order: it distributes over
      concatenation, and a single call is kept exactly when it is named
      run_python. */
  lemma {:induction false} RunPythonCallsAppend(a: seq<ToolCall>, b: seq<ToolCall>)
    ensures RunPythonCalls(a + b) == RunPythonCalls(a) + RunPythonCalls(b)
  {
    if a == [] {
      assert a + b == b;
    } else {
      assert (a + b)[0] == a[0] && (a + b)[1..] == a[1..] + b;
      RunPythonCallsAppend(a[1..], b);
    }
  }

  lemma RunPythonCallsSingle(c: ToolCall)
    ensures RunPythonCalls([c]) == if c.name == ToolName then [c] else []
  {
    assert [c][1..] == [];
  }

  /** Handling tool calls aborts exactly when some run_python call has an
      argument that is not a JSON object with a "code" key. */
  lemma {:induction false} ToolTurnsAbortIff(calls: seq<ToolCall>, o: Oracles)
    ensures ToolTurns(calls, o).aborted <==>
      exists k :: 0 <= k < |calls| && calls[k].name == ToolName &&
        CodeArgument(o.parse, calls[k].arguments).None?
  {
    if calls != [] {
      ToolTurnsAbortIff(calls[1..], o);
      if ToolTurns(calls[1..], o).aborted {
        var k :| 0 <= k < |calls[1..]| && calls[1..][k].name == ToolName &&
          CodeArgument(o.parse, calls[1..][k].arguments).None?;
        assert calls[k + 1] == calls[1..][k];
      }
      forall k | 1 <= k < |calls|
        ensures calls[k] == calls[1..][k - 1]
      {
      }
    }
  }

  /** The tool message turn answers call: its code argument decodes and
      turn carries the call's id and the output of running that code. */
  predicate Answers(call: ToolCall, turn: Turn, o: Oracles) {
    CodeArgument(o.parse, call.arguments).Some? &&
    turn == ToolTurn(call.id, RunPythonCode(CodeArgument(o.parse, call.arguments).value, o.exec))
  }

  /** Without an abort, exactly one tool turn answers each run_python call,
      in order, tagged with that call's id and carrying its script's output;
      calls with any other name are not answered. */
  lemma {:induction false} ToolTurnsAnswerEachCall(calls: seq<ToolCall>, o: Oracles)
    requires !ToolTurns(calls, o).aborted
    ensures |ToolTurns(calls, o).turns| == |RunPythonCalls(calls)|
    ensures forall t :: 0 <= t < |RunPythonCalls(calls)| ==>
      Answers(RunPythonCalls(calls)[t], ToolTurns(calls, o).turns[t], o)
  {
    if calls != [] {
      ToolTurnsAnswerEachCall(calls[1..], o);
      if calls[0].name == ToolName {
        var v := ToolTurns(calls, o).turns;
        ShiftAnswers(calls[0], v[0], RunPythonCalls(calls[1..]), ToolTurns(calls[1..], o).turns,
                     RunPythonCalls(calls), v, o);
      }
    }
  }

  /** Pairing a call with its answer in front of pairwise answers. */
  lemma ShiftAnswers(c: ToolCall, m: Turn, r: seq<ToolCall>, v: seq<Turn>,
                     r': seq<ToolCall>, v': seq<Turn>, o: Oracles)
    requires r' == [c] + r && v' == [m] + v && |r| == |v| && Answers(c, m, o)
    requires forall t :: 0 <= t < |r| ==> Answers(r[t], v[t], o)
    ensures |r'| == |v'|
    ensures forall t :: 0 <= t < |r'| ==> Answers(r'[t], v'[t], o)
  {
    forall t | 1 <= t < |r'|
      ensures Answers(r'[t], v'[t], o)
    {
      assert r'[t] == r[t - 1] && v'[t] == v[t - 1];
    }
  }

  // ---------------------------------------------------------------------
  // Final answer
  // ---------------------------------------------------------------------

  /** content[content.find("{") : content.rfind("}") + 1]. */
  function BraceSpan(c: string): (r: string)
    requires '{' in c && '}' in c
    ensures r != [] ==> r[0] == '{' && r[|r| - 1] == '}'
    ensures r != [] ==>
      c == c[..Find(c, '{')] + r + c[RFind(c, '}') + 1..] &&
      '{' !in c[..Find(c, '{')] && '}' !in c[RFind(c, '}') + 1..]
    ensures r != [] <==> Find(c, '{') <= RFind(c, '}')
  {
    var start := Find(c, '{');
    var end := RFind(c, '}') + 1;
    // content[start:end], empty when the last '}' comes before the first '{'
    if start < end then
      SpanParts(c, start, end);
      c[start..end]
    else []
  }

  /** A slice from a '{' at i to a '}' at j - 1 starts and ends with them,
      and the string is its part before i, the slice, and its part from j. */
  lemma SpanParts(c: string, i: nat, j: nat)
    requires i < j <= |c| && c[i] == '{' && c[j - 1] == '}'
    ensures |c[i..j]| == j - i && c[i..j][0] == '{' && c[i..j][j - i - 1] == '}'
    ensures c == c[..i] + c[i..j] + c[j..]
  {
  }

  /** A JSON object surrounded by text with no '{' before it and no '}'
      after it is extracted exactly. */
  lemma BraceSpanRecovers(prefix: string, body: string, suffix: string)
    requires '{' !in prefix && '}' !in suffix
    requires |body| > 0 && body[0] == '{' && body[|body| - 1] == '}'
    ensures '{' in prefix + body + suffix && '}' in prefix + body + suffix
    ensures BraceSpan(prefix + body + suffix) == body
  {
    var c := prefix + body + suffix;
    var lo, hi := |prefix|, |prefix| + |body| - 1;
    assert c[lo] == '{' && c[hi] == '}';
    assert c[..lo] == prefix;
    assert c[hi + 1..] == suffix;
    assert c[lo..hi + 1] == body;
  }

  /** The fallback is greedy: a '}' in the prose after the object makes the
      extracted span run past the object. */
  lemma BraceSpanGreedy(prefix: string, body: string, suffix: string)
    requires '{' !in prefix && '}' in suffix
    requires |body| > 0 && body[0] == '{' && body[|body| - 1] == '}'
    ensures '{' in prefix + body + suffix && '}' in prefix + body + suffix
    ensures |BraceSpan(prefix + body + suffix)| > |body|
  {
    var c := prefix + body + suffix;
    var lo := |prefix|;
    var j :| 0 <= j < |suffix| && suffix[j] == '}';
    var hi := |prefix| + |body| + j;
    assert c[lo] == '{' && c[hi] == '}';
    assert c[..lo] == prefix;
  }

  /** The engine's result for a reply without tool calls: json.loads of the
      content; on a JSONDecodeError the parse of the brace span when both
      braces occur; None when the content is absent (json.loads(None)
      raises), when there is no brace pair, or when the fallback parse
      raises. */
  function FinalAnswer(content: Option<string>, parse: string -> Option<Json>): (r: Json)
    ensures content.None? ==> r == JNull
    ensures content.Some? && parse(content.value).Some? ==> r == parse(content.value).value
    ensures (content.Some? && parse(content.value).None? && '{' in content.value && '}' in content.value &&
             parse(BraceSpan(content.value)).Some?) ==> r == parse(BraceSpan(content.value)).value
    ensures r != JNull ==> (content.Some? &&
      (parse(content.value) == Some(r) ||
       ('{' in content.value && '}' in content.value && parse(content.value).None? &&
        parse(BraceSpan(content.value)) == Some(r))))
  {
    match content
    case None => JNull
    case Some(c) =>
      match parse(c)
      case Some(v) => v
      case None =>
        if '{' in c && '}' in c then
          match parse(BraceSpan(c))
          case Some(v) => v
          case None => JNull
        else JNull
  }

  /** Prose around a JSON object does not hide it: when the whole content
      does not parse, the answer is the parse of the embedded object. */
  lemma FinalAnswerEmbedded(prefix: string, body: string, suffix: string,
                            parse: string -> Option<Json>)
    requires '{' !in prefix && '}' !in suffix
    requires |body| > 0 && body[0] == '{' && body[|body| - 1] == '}'
    requires parse(prefix + body + suffix).None?
    ensures FinalAnswer(Some(prefix + body + suffix), parse) ==
      if parse(body).Some? then parse(body).value else JNull
  {
    BraceSpanRecovers(prefix, body, suffix);
  }

  // ---------------------------------------------------------------------
  // The agent loop
  // ---------------------------------------------------------------------

  /** What an invocation returns, the conversation it built and how many
      times it called the model. */
  datatype EngineRun = EngineRun(result: Json, conversation: seq<Turn>, modelCalls: nat)

  /** The loop from conversation conv with turns model calls left. */
  function EngineFrom(conv: seq<Turn>, turns: nat, o: Oracles): EngineRun
    decreases turns
  {
    if turns == 0 then EngineRun(JNull, conv, 0)
    else match o.model(conv)
      case ModelRaised => EngineRun(JNull, conv, 1)
      case Replied(reply) =>
        var withReply := conv + [AssistantTurn(reply)];
        if reply.toolCalls == [] then
          EngineRun(FinalAnswer(reply.content, o.parse), withReply, 1)
        else
          var pass := ToolTurns(reply.toolCalls, o);
          if pass.aborted then EngineRun(JNull, withReply + pass.turns, 1)
          else
            var rest := EngineFrom(withReply + pass.turns, turns - 1, o);
            rest.(modelCalls := rest.modelCalls + 1)
  }

  /** analyze_task_and_generate_code as a function of its inputs. */
  function Analyze(html: string, text: string, o: Oracles): Json {
    EngineFrom(Seed(html, text), MaxTurns, o).result
  }

  /** The model is called at most once per remaining turn, and at least once. */
  lemma {:induction false} EngineCallBudget(conv: seq<Turn>, turns: nat, o: Oracles)
    ensures EngineFrom(conv, turns, o).modelCalls <= turns
    ensures 0 < turns ==> 1 <= EngineFrom(conv, turns, o).modelCalls
    decreases turns
  {
    if turns > 0 && o.model(conv).Replied? {
      var reply := o.model(conv).reply;
      var pass := ToolTurns(reply.toolCalls, o);
      if reply.toolCalls != [] && !pass.aborted {
        EngineCallBudget(conv + [AssistantTurn(reply)] + pass.turns, turns - 1, o);
      }
    }
  }

  /** The conversation only grows: every turn it started with is kept. */
  lemma {:induction false} EngineGrows(conv: seq<Turn>, turns: nat, o: Oracles)
    ensures conv <= EngineFrom(conv, turns, o).conversation
    decreases turns
  {
    if turns > 0 && o.model(conv).Replied? {
      var reply := o.model(conv).reply;
      var pass := ToolTurns(reply.toolCalls, o);
      if reply.toolCalls != [] && !pass.aborted {
        EngineGrows(conv + [AssistantTurn(reply)] + pass.turns, turns - 1, o);
      }
    }
  }

  /** A result other than None is the final answer of the conversation's
      last turn, a reply without tool calls that the loop appended. */
  lemma {:induction false} EngineTerminalReply(conv: seq<Turn>, turns: nat, o: Oracles)
    ensures var r := EngineFrom(conv, turns, o);
      r.result != JNull ==>
        |conv| < |r.conversation| &&
        r.conversation[|r.conversation| - 1].AssistantTurn? &&
        r.conversation[|r.conversation| - 1].reply.toolCalls == [] &&
        r.result == FinalAnswer(r.conversation[|r.conversation| - 1].reply.content, o.parse)
    decreases turns
  {
    if turns > 0 && o.model(conv).Replied? {
      var reply := o.model(conv).reply;
      var pass := ToolTurns(reply.toolCalls, o);
      if reply.toolCalls != [] && !pass.aborted {
        EngineTerminalReply(conv + [AssistantTurn(reply)] + pass.turns, turns - 1, o);
      }
    }
  }

  /** A run that ends on a reply without tool calls, appended by the loop,
      returns the final answer of that reply's content. */
  lemma {:induction false} EngineFinalReplyGivesAnswer(conv: seq<Turn>, turns: nat, o: Oracles)
    ensures var r := EngineFrom(conv, turns, o);
      (|conv| < |r.conversation| &&
       r.conversation[|r.conversation| - 1].AssistantTurn? &&
       r.conversation[|r.conversation| - 1].reply.toolCalls == []) ==>
        r.result == FinalAnswer(r.conversation[|r.conversation| - 1].reply.content, o.parse)
    decreases turns
  {
    if turns > 0 && o.model(conv).Replied? {
      var reply := o.model(conv).reply;
      var pass := ToolTurns(reply.toolCalls, o);
      var next := conv + [AssistantTurn(reply)] + pass.turns;
      if reply.toolCalls != [] {
        ToolTurnsAreToolTurns(reply.toolCalls, o);
        if !pass.aborted {
          EngineFinalReplyGivesAnswer(next, turns - 1, o);
          EngineGrows(next, turns - 1, o);
        }
      }
    }
  }

  /** Every assistant turn the engine appends before the last turn carries
      tool calls: a reply without them ends the invocation at once. */
  lemma {:induction false} EngineOnlyLastIsFinal(conv: seq<Turn>, turns: nat, o: Oracles)
    ensures var r := EngineFrom(conv, turns, o);
      forall i :: |conv| <= i < |r.conversation| - 1 && r.conversation[i].AssistantTurn? ==>
        r.conversation[i].reply.toolCalls != []
    decreases turns
  {
    if turns > 0 && o.model(conv).Replied? {
      var reply := o.model(conv).reply;
      var pass := ToolTurns(reply.toolCalls, o);
      var next := conv + [AssistantTurn(reply)] + pass.turns;
      if reply.toolCalls != [] {
        ToolTurnsAreToolTurns(reply.toolCalls, o);
        if !pass.aborted {
          EngineOnlyLastIsFinal(next, turns - 1, o);
          EngineGrows(next, turns - 1, o);
          var r := EngineFrom(next, turns - 1, o);
          assert forall i :: |conv| <= i < |next| ==> r.conversation[i] == next[i];
        }
      }
    }
  }

  /** The tool-call handler appends only tool turns. */
  lemma {:induction false} ToolTurnsAreToolTurns(calls: seq<ToolCall>, o: Oracles)
    ensures forall t :: 0 <= t < |ToolTurns(calls, o).turns| ==> ToolTurns(calls, o).turns[t].ToolTurn?
  {
    if calls != [] {
      ToolTurnsAreToolTurns(calls[1..], o);
    }
  }

  /** A model that answers every request with tool calls exhausts the turn
      budget (or aborts) and the invocation returns None. */
  lemma {:induction false} EngineToolLoopGivesNone(conv: seq<Turn>, turns: nat, o: Oracles)
    requires forall c :: o.model(c).Replied? && o.model(c).reply.toolCalls != []
    ensures EngineFrom(conv, turns, o).result == JNull
    decreases turns
  {
    if turns > 0 {
      var reply := o.model(conv).reply;
      var pass := ToolTurns(reply.toolCalls, o);
      if !pass.aborted {
        EngineToolLoopGivesNone(conv + [AssistantTurn(reply)] + pass.turns, turns - 1, o);
      }
    }
  }

  /** The run whole seen after calls model calls: the loop from conversation
      conv with turns calls left produces the rest of whole. */
  ghost predicate EngineResumes(whole: EngineRun, conv: seq<Turn>, turns: nat, calls: nat, o: Oracles) {
    EngineFrom(conv, turns, o).result == whole.result &&
    EngineFrom(conv, turns, o).conversation == whole.conversation &&
    EngineFrom(conv, turns, o).modelCalls + calls == whole.modelCalls
  }

  /** A model call that raises ends the run with None. */
  lemma EngineResumesRaised(whole: EngineRun, conv: seq<Turn>, turns: nat, calls: nat, o: Oracles)
    requires turns > 0 && EngineResumes(whole, conv, turns, calls, o)
    requires o.model(conv).ModelRaised?
    ensures whole == EngineRun(JNull, conv, calls + 1)
  {
  }

  /** A reply without tool calls ends the run with its final answer. */
  lemma EngineResumesFinal(whole: EngineRun, conv: seq<Turn>, turns: nat, calls: nat, o: Oracles,
                           reply: Reply)
    requires turns > 0 && EngineResumes(whole, conv, turns, calls, o)
    requires o.model(conv) == Replied(reply) && reply.toolCalls == []
    ensures whole == EngineRun(FinalAnswer(reply.content, o.parse), conv + [AssistantTurn(reply)], calls + 1)
  {
  }

  /** A tool pass that aborts ends the run with None after the turns it
      appended. */
  lemma EngineResumesAborted(whole: EngineRun, conv: seq<Turn>, turns: nat, calls: nat, o: Oracles,
                             reply: Reply, appended: seq<Turn>)
    requires turns > 0 && EngineResumes(whole, conv, turns, calls, o)
    requires o.model(conv) == Replied(reply) && reply.toolCalls != []
    requires ToolTurns(reply.toolCalls, o) == ToolPass(appended, true)
    ensures whole == EngineRun(JNull, conv + [AssistantTurn(reply)] + appended, calls + 1)
  {
  }

  /** A tool pass that completes leaves the rest of the run to the next turn. */
  lemma EngineResumesTools(whole: EngineRun, conv: seq<Turn>, turns: nat, calls: nat, o: Oracles,
                           reply: Reply, appended: seq<Turn>)
    requires turns > 0 && EngineResumes(whole, conv, turns, calls, o)
    requires o.model(conv) == Replied(reply) && reply.toolCalls != []
    requires ToolTurns(reply.toolCalls, o) == ToolPass(appended, false)
    ensures EngineResumes(whole, conv + [AssistantTurn(reply)] + appended, turns - 1, calls + 1, o)
  {
  }

  /** The tool pass from the k-th call on, unfolded by one call. */
  lemma ToolTurnsFrom(calls: seq<ToolCall>, k: nat, o: Oracles)
    requires k < |calls|
    ensures calls[k].name != ToolName ==> ToolTurns(calls[k..], o) == ToolTurns(calls[k + 1..], o)
    ensures calls[k].name == ToolName && CodeArgument(o.parse, calls[k].arguments).None? ==>
      ToolTurns(calls[k..], o) == ToolPass([], true)
    ensures calls[k].name == ToolName && CodeArgument(o.parse, calls[k].arguments).Some? ==>
      ToolTurns(calls[k..], o) ==
        ToolPass([ToolTurn(calls[k].id, RunPythonCode(CodeArgument(o.parse, calls[k].arguments).value, o.exec))]
                   + ToolTurns(calls[k + 1..], o).turns,
                 ToolTurns(calls[k + 1..], o).aborted)
  {
    assert calls[k..][1..] == calls[k + 1..];
  }

  /** The inner for loop over a reply's tool calls: the tool messages
      appended, in order, and whether a malformed argument ended the turn. */
  method AnswerToolCalls(calls: seq<ToolCall>, o: Oracles) returns (appended: seq<Turn>, aborted: bool)
    ensures ToolPass(appended, aborted) == ToolTurns(calls, o)
  {
    appended, aborted := [], false;
    var k := 0;
    while k < |calls|
      invariant 0 <= k <= |calls|
      invariant ToolTurns(calls, o) ==
        ToolPass(appended + ToolTurns(calls[k..], o).turns, ToolTurns(calls[k..], o).aborted)
    {
      var call := calls[k];
      ToolTurnsFrom(calls, k, o);
      if call.name == ToolName {
        var code := CodeArgument(o.parse, call.arguments);
        if code.None? {
          // json.loads or args["code"] raises; the turn ends the run
          aborted := true;
          return;
        }
        var output := RunPythonCode(code.value, o.exec);
        ghost var rest := ToolTurns(calls[k + 1..], o).turns;
        assert appended + ([ToolTurn(call.id, output)] + rest) ==
          (appended + [ToolTurn(call.id, output)]) + rest;
        appended := appended + [ToolTurn(call.id, output)];
      }
      k := k + 1;
    }
    assert calls[k..] == [];
  }

  /** analyze_task_and_generate_code: at most MaxTurns model calls; the
      tool calls of a reply are answered in order; the first reply without
      tool calls gives the final answer; a model or tool-argument exception
      and an exhausted turn budget give None. */
  method AnalyzeTaskAndGenerateCode(html: string, text: string, o: Oracles)
    returns (result: Json, ghost messages: seq<Turn>, ghost modelCalls: nat)
    ensures EngineRun(result, messages, modelCalls) == EngineFrom(Seed(html, text), MaxTurns, o)
    ensures result == Analyze(html, text, o)
  {
    ghost var whole := EngineFrom(Seed(html, text), MaxTurns, o);
    var conv := Seed(html, text);
    ghost var calls := 0;
    for turn := 0 to MaxTurns
      invariant calls == turn
      invariant EngineResumes(whole, conv, MaxTurns - turn, calls, o)
    {
      var response := o.model(conv);
      if response.ModelRaised? {
        EngineResumesRaised(whole, conv, MaxTurns - turn, calls, o);
        result, messages, modelCalls := JNull, conv, calls + 1;
        return;
      }
      var msg := response.reply;
      ghost var before := conv;
      conv := conv + [AssistantTurn(msg)];
      if msg.toolCalls == [] {
        EngineResumesFinal(whole, before, MaxTurns - turn, calls, o, msg);
        result, messages, modelCalls := FinalAnswer(msg.content, o.parse), conv, calls + 1;
        return;
      }
      var appended, aborted := AnswerToolCalls(msg.toolCalls, o);
      conv := conv + appended;
      if aborted {
        EngineResumesAborted(whole, before, MaxTurns - turn, calls, o, msg, appended);
        result, messages, modelCalls := JNull, conv, calls + 1;
        return;
      }
      EngineResumesTools(whole, before, MaxTurns - turn, calls, o, msg, appended);
      calls := calls + 1;
    }
    result, messages, modelCalls := JNull, conv, calls;
  }
}
