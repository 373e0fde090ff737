// The quiz driver: a while loop of at most ten passes over a chain of quiz
// pages. Each pass fetches the page at current_url, asks the reasoning engine
// for an answer, submits it, and advances current_url only when the server
// accepts the answer and names a next URL. The browser, its pages and the
// HTTP POST are oracles (see Transport).
module QuizSolver {
  import opened Values
  import LlmUtils

  const MaxIterations: nat := 10

  /** The JSON body of the submission POST. */
  datatype Payload = Payload(email: string, secret: string, url: Json, answer: Json)

  /** Loading a page: its markup and its body's innerText, or an exception
      (navigation error, timeout, no body). */
  datatype FetchOutcome = Fetched(html: string, text: string) | FetchRaised

  /** The POST: a status code with the body as response.json() decodes it
      (None when that raises), or a transport exception. */
  datatype PostOutcome = Posted(status: int, body: Option<Json>) | PostRaised

  /** The browser and the HTTP client: whether chromium launches and opens
      its context, page loads (new_page through innerText), submissions, and
      whether closing the page of a pass succeeds. All but launch are indexed
      by the pass number, because the remote pages and server may answer
      differently over time. */
  datatype Transport = Transport(
    launch: bool,
    fetch: (nat, string) -> FetchOutcome,
    post: (nat, Json, Payload) -> PostOutcome,
    close: nat -> bool)

  /** Visible effects of a run, in order: a pass starting on a URL, a
      submission, closing the pass's page, closing the browser. */
  datatype Effect =
    | Visit(iteration: nat, url: Json)
    | Submit(target: Json, payload: Payload)
    | ClosePage
    | CloseBrowser

  /** Which exit of the loop was taken. */
  datatype Exit =
    | NoResult          // the engine's result is falsy
    | NoSubmissionUrl   // the result's submission_url is falsy
    | Completed         // status 200, correct, no next url
    | Incorrect         // status 200, correct falsy
    | StatusNotOk       // any status other than 200
    | PassRaised        // an exception inside the pass
    | BoundReached      // the iteration counter reached its cap
    | LaunchRaised      // the browser failed to start; solve_quiz raises

  /** A pass either advances the cursor or ends the run; at is current_url
      when the loop breaks: the pass's own cursor, or the next URL when the
      page close raised after current_url was assigned. */
  datatype PassResult =
    | Advance(next: Json, effects: seq<Effect>)
    | Stop(exit: Exit, effects: seq<Effect>, at: Json)

  /** How the server's answer to a submission ends a pass. */
  datatype Judgement = Proceed(next: Json) | Halt(exit: Exit)

  /** The fields of a decoded 200 response that has a JSON object body. */
  predicate AcceptedBody(response: PostOutcome) {
    response.Posted? && response.status == 200 &&
    response.body.Some? && response.body.value.JObj?
  }

  /** Evaluating the submission response: the cursor moves only on status
      200 with a truthy "correct" and a truthy "url"; a missing next URL is
      completion, a falsy "correct" is an incorrect answer, another status
      is a failed submission, and a transport error, a body that does not
      decode or decodes to a non-object raise. */
  function Judge(response: PostOutcome): (j: Judgement)
    ensures j.Proceed? <==> (AcceptedBody(response) &&
      Truthy(Get(response.body.value.fields, "correct")) &&
      Truthy(Get(response.body.value.fields, "url")))
    ensures j.Proceed? ==> j.next == Get(response.body.value.fields, "url") && Truthy(j.next)
    ensures j == Halt(Completed) <==> (AcceptedBody(response) &&
      Truthy(Get(response.body.value.fields, "correct")) &&
      !Truthy(Get(response.body.value.fields, "url")))
    ensures j == Halt(Incorrect) <==> (AcceptedBody(response) &&
      !Truthy(Get(response.body.value.fields, "correct")))
    ensures j == Halt(StatusNotOk) <==> response.Posted? && response.status != 200
    ensures j.Halt? ==> j.exit in {Completed, Incorrect, StatusNotOk, PassRaised}
  {
    match response
    case PostRaised => Halt(PassRaised)
    case Posted(status, body) =>
      if status != 200 then Halt(StatusNotOk)
      else match body
        case Some(JObj(fields)) =>
          if Truthy(Get(fields, "correct")) then
            var next := Get(fields, "url");
            if Truthy(next) then Proceed(next) else Halt(Completed)
          else Halt(Incorrect)
        case _ => Halt(PassRaised)
  }

  /** The reasoning engine seen from the driver: the decoded answer for a
      page's markup and text. */
  function Analyzer(o: LlmUtils.Oracles): (string, string) -> Json {
    (html: string, text: string) => LlmUtils.Analyze(html, text, o)
  }

  /** The answer the engine gives for the page of a pass, when the page loads. */
  function Answer(iteration: nat, cur: Json, t: Transport, analyze: (string, string) -> Json): Option<Json> {
    if cur.JStr? && t.fetch(iteration, cur.s).Fetched? then
      Some(analyze(t.fetch(iteration, cur.s).html, t.fetch(iteration, cur.s).text))
    else None
  }

  /** The rest of a pass once the engine has answered result: the answer is
      posted only when result is a truthy object with a truthy
      submission_url; the pass advances when Judge proceeds and the page then
      closes, and a page close that raises breaks the loop on the new URL. */
  function Submitting(iteration: nat, cur: Json, result: Json, email: string, secret: string,
                      t: Transport): (r: PassResult)
    ensures 1 <= |r.effects| <= 3 && r.effects[0] == Visit(iteration, cur)
    ensures |r.effects| == 1 <==>
      !Truthy(result) || !result.JObj? || !Truthy(Get(result.fields, "submission_url"))
    ensures !Truthy(result) ==> r == Stop(NoResult, r.effects, cur)
    ensures Truthy(result) && !result.JObj? ==> r == Stop(PassRaised, r.effects, cur)
    ensures result.JObj? && Truthy(result) && !Truthy(Get(result.fields, "submission_url")) ==>
      r == Stop(NoSubmissionUrl, r.effects, cur)
    ensures 1 < |r.effects| ==> (result.JObj? &&
      r.effects[1] == Submit(Get(result.fields, "submission_url"),
                             Payload(email, secret, cur, Get(result.fields, "answer"))) &&
      var j := Judge(t.post(iteration, r.effects[1].target, r.effects[1].payload));
      (r.Advance? <==> j.Proceed? && t.close(iteration)) &&
      (r.Advance? ==> r.next == j.next && r.effects == r.effects[..2] + [ClosePage]) &&
      (r.Stop? ==> |r.effects| == 2 &&
                   (j.Proceed? ==> r.exit == PassRaised && r.at == j.next) &&
                   (j.Halt? ==> r.exit == j.exit && r.at == cur)))
  {
    var visit := [Visit(iteration, cur)];
    if !Truthy(result) then Stop(NoResult, visit, cur)
    else if !result.JObj? then Stop(PassRaised, visit, cur)
    else
      var target := Get(result.fields, "submission_url");
      if !Truthy(target) then Stop(NoSubmissionUrl, visit, cur)
      else
        var payload := Payload(email, secret, cur, Get(result.fields, "answer"));
        var submitted := visit + [Submit(target, payload)];
        match Judge(t.post(iteration, target, payload))
        case Proceed(next) =>
          // current_url = next_url has run before page.close()
          if t.close(iteration) then Advance(next, submitted + [ClosePage])
          else Stop(PassRaised, submitted, next)
        case Halt(exit) => Stop(exit, submitted, cur)
  }

  /** One pass of the loop body, numbered iteration (already incremented),
      on cursor cur: a cursor that is not a string or a page that fails to
      load raises; otherwise the engine's answer for the page is submitted. */
  function Pass(iteration: nat, cur: Json, email: string, secret: string,
                t: Transport, analyze: (string, string) -> Json): (r: PassResult)
    ensures Answer(iteration, cur, t, analyze).None? ==> r == Stop(PassRaised, [Visit(iteration, cur)], cur)
    ensures Answer(iteration, cur, t, analyze).Some? ==>
      r == Submitting(iteration, cur, Answer(iteration, cur, t, analyze).value, email, secret, t)
  {
    if !cur.JStr? then Stop(PassRaised, [Visit(iteration, cur)], cur)
    else match t.fetch(iteration, cur.s)
      case FetchRaised => Stop(PassRaised, [Visit(iteration, cur)], cur)
      case Fetched(html, text) => Submitting(iteration, cur, analyze(html, text), email, secret, t)
  }

  /** A pass as a function of its number and cursor, the rest fixed. */
  function PassStep(email: string, secret: string, t: Transport, analyze: (string, string) -> Json)
    : (nat, Json) -> PassResult
  {
    (iteration: nat, cur: Json) => Pass(iteration, cur, email, secret, t, analyze)
  }

  /** Where a run ends: its effects (before the browser is closed), the
      final counter, the final cursor and the exit taken. */
  datatype Outcome = Outcome(effects: seq<Effect>, iterations: nat, currentUrl: Json, exit: Exit)

  /** The loop from counter i and cursor cur, each pass taken by step. */
  function QuizFrom(i: nat, cur: Json, step: (nat, Json) -> PassResult): Outcome
    decreases MaxIterations - i
  {
    if i >= MaxIterations then Outcome([], i, cur, BoundReached)
    else match step(i + 1, cur)
      case Stop(exit, effects, at) => Outcome(effects, i + 1, at, exit)
      case Advance(next, effects) =>
        var rest := QuizFrom(i + 1, next, step);
        rest.(effects := effects + rest.effects)
  }

  /** solve_quiz(url, email, secret) as a function of its inputs. */
  function Run(url: string, email: string, secret: string,
               t: Transport, o: LlmUtils.Oracles): Outcome {
    QuizFrom(0, JStr(url), PassStep(email, secret, t, Analyzer(o)))
  }

  /** The URLs of the passes started, in order. */
  function Visited(effects: seq<Effect>): seq<Json> {
    if effects == [] then []
    else (if effects[0].Visit? then [effects[0].url] else []) + Visited(effects[1..])
  }

  function PagesClosed(effects: seq<Effect>): nat {
    if effects == [] then 0
    else (if effects[0] == ClosePage then 1 else 0) + PagesClosed(effects[1..])
  }

  lemma {:induction false} VisitedAppend(a: seq<Effect>, b: seq<Effect>)
    ensures Visited(a + b) == Visited(a) + Visited(b)
    ensures PagesClosed(a + b) == PagesClosed(a) + PagesClosed(b)
  {
    if a != [] {
      assert (a + b)[0] == a[0];
      assert (a + b)[1..] == a[1..] + b;
      VisitedAppend(a[1..], b);
    } else {
      assert a + b == b;
    }
  }

  /** What the loop needs of one pass p, numbered iteration, on cursor cur:
      it starts one visit of its cursor, closes a page exactly when it
      advances, never closes the browser, never stops on the counter's cap,
      breaks on a cursor other than its own only by raising after a
      submission, and every submission it makes is its second effect and
      posts its cursor with the caller's email and secret. */
  predicate PassShape(p: PassResult, iteration: nat, cur: Json, email: string, secret: string) {
    Visited(p.effects) == [cur] && p.effects != [] && p.effects[0] == Visit(iteration, cur) &&
    PagesClosed(p.effects) == (if p.Advance? then 1 else 0) &&
    CloseBrowser !in p.effects &&
    (p.Stop? ==> p.exit != BoundReached) &&
    (p.Stop? && p.at != cur ==> p.exit == PassRaised && |p.effects| == 2 && p.effects[1].Submit?) &&
    (forall k :: 0 <= k < |p.effects| && p.effects[k].Submit? ==>
      k == 1 && p.effects[k].payload.url == cur &&
      p.effects[k].payload.email == email && p.effects[k].payload.secret == secret)
  }

  ghost predicate StepShape(step: (nat, Json) -> PassResult, email: string, secret: string) {
    forall iteration: nat, cur: Json {:trigger PassShape(step(iteration, cur), iteration, cur, email, secret)} ::
      PassShape(step(iteration, cur), iteration, cur, email, secret)
  }

  /** Every pass after the engine has answered has that shape. */
  lemma SubmittingShape(iteration: nat, cur: Json, result: Json, email: string, secret: string,
                        t: Transport)
    ensures PassShape(Submitting(iteration, cur, result, email, secret, t), iteration, cur, email, secret)
  {
    var e := Submitting(iteration, cur, result, email, secret, t).effects;
    assert e == [e[0]] + e[1..];
    VisitedAppend([e[0]], e[1..]);
    if |e| > 1 {
      assert e[1..] == [e[1]] + e[2..];
      VisitedAppend([e[1]], e[2..]);
      if |e| > 2 {
        assert e[2..] == [e[2]] && e[2] == ClosePage;
      }
    }
    assert forall k :: 0 <= k < |e| ==> e[k] != CloseBrowser;
  }

  /** The passes of solve_quiz have that shape, whatever the engine answers. */
  lemma PassStepShape(email: string, secret: string, t: Transport, analyze: (string, string) -> Json)
    ensures StepShape(PassStep(email, secret, t, analyze), email, secret)
  {
    forall iteration: nat, cur: Json
      ensures PassShape(PassStep(email, secret, t, analyze)(iteration, cur), iteration, cur, email, secret)
    {
      var a := Answer(iteration, cur, t, analyze);
      if a.Some? {
        SubmittingShape(iteration, cur, a.value, email, secret, t);
      } else {
        assert Visited([Visit(iteration, cur)]) == [cur];
      }
    }
  }

  /** At most MaxIterations passes start; the counter at exit is the number
      of passes started; a page is closed for each pass that advanced and for
      no other; the loop condition ends a run only at the cap. */
  lemma {:induction false} RunBounded(i: nat, cur: Json, step: (nat, Json) -> PassResult,
                                      email: string, secret: string)
    requires i <= MaxIterations && StepShape(step, email, secret)
    ensures var r := QuizFrom(i, cur, step);
      i <= r.iterations <= MaxIterations &&
      (i < MaxIterations ==> i < r.iterations) &&
      |Visited(r.effects)| == r.iterations - i &&
      (r.exit == BoundReached <==> r.iterations == MaxIterations && PagesClosed(r.effects) == r.iterations - i) &&
      (r.exit != BoundReached ==> PagesClosed(r.effects) + 1 == r.iterations - i)
    decreases MaxIterations - i
  {
    if i < MaxIterations {
      var p := step(i + 1, cur);
      TrailStep(i, cur, step, email, secret);
      if p.Advance? {
        RunBounded(i + 1, p.next, step, email, secret);
      }
    }
  }

  /** No pass closes the browser: solve_quiz closes it once, after the loop. */
  lemma {:induction false} RunKeepsBrowser(i: nat, cur: Json, step: (nat, Json) -> PassResult,
                                           email: string, secret: string)
    requires i <= MaxIterations && StepShape(step, email, secret)
    ensures CloseBrowser !in QuizFrom(i, cur, step).effects
    decreases MaxIterations - i
  {
    if i < MaxIterations {
      var p := step(i + 1, cur);
      assert PassShape(p, i + 1, cur, email, secret);
      if p.Advance? {
        RunKeepsBrowser(i + 1, p.next, step, email, secret);
      }
    }
  }

  /** Pass number it + k + 1 advanced from the k-th visited URL to the next one. */
  predicate AdvancedTo(step: (nat, Json) -> PassResult, it: nat, v: seq<Json>, k: nat)
    requires k + 1 < |v|
  {
    step(it + k + 1, v[k]).Advance? && step(it + k + 1, v[k]).next == v[k + 1]
  }

  /** The URLs visited by the loop from counter i and cursor cur. */
  function Trail(i: nat, cur: Json, step: (nat, Json) -> PassResult): seq<Json> {
    Visited(QuizFrom(i, cur, step).effects)
  }

  /** Prefixing the chain w of a loop from counter j == i + 1 with a cursor
      that pass j advanced from to w's first URL gives a chain from i. */
  lemma ChainCons(step: (nat, Json) -> PassResult, i: nat, j: nat, cur: Json, w: seq<Json>, v: seq<Json>)
    requires j == i + 1 && v == [cur] + w
    requires forall k: nat :: k + 1 < |w| ==> AdvancedTo(step, j, w, k)
    requires w != [] ==> step(j, cur).Advance? && step(j, cur).next == w[0]
    ensures forall k: nat :: k + 1 < |v| ==> AdvancedTo(step, i, v, k)
  {
    forall k: nat | k + 1 < |v|
      ensures AdvancedTo(step, i, v, k)
    {
      if k > 0 {
        assert AdvancedTo(step, j, w, k - 1);
        assert v[k] == w[k - 1] && v[k + 1] == w[k];
        assert i + k + 1 == (i + 1) + (k - 1) + 1;
      }
    }
  }

  /** The cursor moves only by advancing: the URLs visited form the chain of
      next URLs that successive passes advanced to, starting from cur. */
  lemma {:induction false} RunFollowsChain(i: nat, cur: Json, step: (nat, Json) -> PassResult,
                                           email: string, secret: string)
    requires i <= MaxIterations && StepShape(step, email, secret)
    ensures Trail(i, cur, step) != [] ==> Trail(i, cur, step)[0] == cur
    ensures forall k: nat :: k + 1 < |Trail(i, cur, step)| ==> AdvancedTo(step, i, Trail(i, cur, step), k)
    decreases MaxIterations - i
  {
    if i < MaxIterations {
      var p := step(i + 1, cur);
      TrailStep(i, cur, step, email, secret);
      if p.Advance? {
        RunFollowsChain(i + 1, p.next, step, email, secret);
        ChainCons(step, i, i + 1, cur, Trail(i + 1, p.next, step), Trail(i, cur, step));
      }
    }
  }

  /** The pass that ends a loop from counter i that visited the URLs v:
      the one numbered by the count of passes, on the last URL visited. */
  function FinalPass(step: (nat, Json) -> PassResult, i: nat, v: seq<Json>): PassResult
    requires v != []
  {
    step(i + |v|, v[|v| - 1])
  }

  lemma FinalPassCons(step: (nat, Json) -> PassResult, i: nat, cur: Json, w: seq<Json>)
    ensures w == [] ==> FinalPass(step, i, [cur] + w) == step(i + 1, cur)
    ensures w != [] ==> FinalPass(step, i, [cur] + w) == FinalPass(step, i + 1, w)
  {
    if w != [] {
      assert ([cur] + w)[|w|] == w[|w| - 1];
      assert i + |[cur] + w| == i + 1 + |w|;
    }
  }

  /** One pass of the loop, seen from the outcome, the visited URLs and the
      pages closed. */
  lemma TrailStep(i: nat, cur: Json, step: (nat, Json) -> PassResult,
                  email: string, secret: string)
    requires i < MaxIterations && StepShape(step, email, secret)
    ensures step(i + 1, cur).Stop? ==>
      Trail(i, cur, step) == [cur] &&
      PagesClosed(QuizFrom(i, cur, step).effects) == 0 &&
      QuizFrom(i, cur, step).exit != BoundReached &&
      (step(i + 1, cur).at != cur ==> step(i + 1, cur).exit == PassRaised) &&
      QuizFrom(i, cur, step) ==
        Outcome(step(i + 1, cur).effects, i + 1, step(i + 1, cur).at, step(i + 1, cur).exit)
    ensures step(i + 1, cur).Advance? ==>
      Trail(i, cur, step) == [cur] + Trail(i + 1, step(i + 1, cur).next, step) &&
      PagesClosed(QuizFrom(i, cur, step).effects) ==
        1 + PagesClosed(QuizFrom(i + 1, step(i + 1, cur).next, step).effects) &&
      QuizFrom(i, cur, step).iterations == QuizFrom(i + 1, step(i + 1, cur).next, step).iterations &&
      QuizFrom(i, cur, step).exit == QuizFrom(i + 1, step(i + 1, cur).next, step).exit &&
      QuizFrom(i, cur, step).currentUrl == QuizFrom(i + 1, step(i + 1, cur).next, step).currentUrl
  {
    var p := step(i + 1, cur);
    assert PassShape(p, i + 1, cur, email, secret);
    if p.Advance? {
      VisitedAppend(p.effects, QuizFrom(i + 1, p.next, step).effects);
    }
  }
  /** Where the cursor is when the loop exits: a run that breaks ends where
      its last pass, the one that stopped, left current_url, which is the URL
      that pass visited unless the pass raised after moving it; a run that
      reaches the cap ends on the URL its last pass advanced to. */
  lemma {:induction false} RunEndsOnCursor(i: nat, cur: Json, step: (nat, Json) -> PassResult,
                                           email: string, secret: string)
    requires i < MaxIterations && StepShape(step, email, secret)
    ensures Trail(i, cur, step) != []
    ensures QuizFrom(i, cur, step).exit != BoundReached ==>
      FinalPass(step, i, Trail(i, cur, step)).Stop? &&
      FinalPass(step, i, Trail(i, cur, step)).exit == QuizFrom(i, cur, step).exit &&
      QuizFrom(i, cur, step).currentUrl == FinalPass(step, i, Trail(i, cur, step)).at &&
      (QuizFrom(i, cur, step).currentUrl != Trail(i, cur, step)[|Trail(i, cur, step)| - 1] ==>
         QuizFrom(i, cur, step).exit == PassRaised)
    ensures QuizFrom(i, cur, step).exit == BoundReached ==>
      FinalPass(step, i, Trail(i, cur, step)).Advance? &&
      FinalPass(step, i, Trail(i, cur, step)).next == QuizFrom(i, cur, step).currentUrl
    decreases MaxIterations - i
  {
    var p := step(i + 1, cur);
    TrailStep(i, cur, step, email, secret);
    if p.Advance? {
      var w := Trail(i + 1, p.next, step);
      FinalPassCons(step, i, cur, w);
      if i + 1 < MaxIterations {
        RunEndsOnCursor(i + 1, p.next, step, email, secret);
        assert ([cur] + w)[|w|] == w[|w| - 1];
      } else {
        assert QuizFrom(i + 1, p.next, step) == Outcome([], i + 1, p.next, BoundReached);
      }
    } else {
      FinalPassCons(step, i, cur, []);
    }
  }

  /** A submission at position k of effects e immediately follows the start
      of its pass, posts the URL that pass visited, and carries the caller's
      email and secret. */
  predicate SubmitFollowsVisit(e: seq<Effect>, k: nat, email: string, secret: string)
    requires k < |e|
  {
    e[k].Submit? ==>
      0 < k && e[k - 1].Visit? && e[k - 1].url == e[k].payload.url &&
      e[k].payload.email == email && e[k].payload.secret == secret
  }

  /** Every submission in a run immediately follows the start of its pass,
      posts the URL that pass visited, and carries the caller's email and
      secret unchanged. */
  lemma {:induction false} RunSubmissions(i: nat, cur: Json, step: (nat, Json) -> PassResult,
                                          email: string, secret: string)
    requires i <= MaxIterations && StepShape(step, email, secret)
    ensures forall k: nat :: k < |QuizFrom(i, cur, step).effects| ==>
      SubmitFollowsVisit(QuizFrom(i, cur, step).effects, k, email, secret)
    decreases MaxIterations - i
  {
    if i < MaxIterations {
      var p := step(i + 1, cur);
      assert PassShape(p, i + 1, cur, email, secret);
      if p.Advance? {
        RunSubmissions(i + 1, p.next, step, email, secret);
        var rest := QuizFrom(i + 1, p.next, step).effects;
        var e := p.effects + rest;
        forall k: nat | k < |e|
          ensures SubmitFollowsVisit(e, k, email, secret)
        {
          if k < |p.effects| {
            assert e[k] == p.effects[k];
            if k > 0 {
              assert e[k - 1] == p.effects[k - 1];
            }
          } else {
            var k': nat := k - |p.effects|;
            assert SubmitFollowsVisit(rest, k', email, secret);
            assert e[k] == rest[k'];
            if k' > 0 {
              assert e[k - 1] == rest[k' - 1];
            }
          }
        }
      }
    }
  }

  /** The loop of solve_quiz once the browser is up: between one and
      MaxIterations passes start, the first on the caller's url; a page is
      closed for every pass but the last unless the cap ended the run; no
      pass closes the browser; every submission carries the caller's email
      and secret and the URL of its pass. */
  lemma RunFacts(url: string, email: string, secret: string, t: Transport, o: LlmUtils.Oracles)
    ensures var r := Run(url, email, secret, t, o);
      1 <= r.iterations <= MaxIterations &&
      |Visited(r.effects)| == r.iterations &&
      Visited(r.effects)[0] == JStr(url) &&
      PagesClosed(r.effects) == (if r.exit == BoundReached then r.iterations else r.iterations - 1) &&
      CloseBrowser !in r.effects
    ensures var r := Run(url, email, secret, t, o);
      forall k: nat :: k < |r.effects| ==> SubmitFollowsVisit(r.effects, k, email, secret)
  {
    var step := PassStep(email, secret, t, Analyzer(o));
    PassStepShape(email, secret, t, Analyzer(o));
    RunBounded(0, JStr(url), step, email, secret);
    RunFollowsChain(0, JStr(url), step, email, secret);
    RunKeepsBrowser(0, JStr(url), step, email, secret);
    RunSubmissions(0, JStr(url), step, email, secret);
  }

  /** The two accepting responses of a quiz chain: correct with a next URL,
      and correct with none. */
  lemma JudgeAccepts(u: string)
    requires u != []
    ensures Judge(Posted(200, Some(JObj(map["correct" := JBool(true), "url" := JStr(u)])))) == Proceed(JStr(u))
    ensures Judge(Posted(200, Some(JObj(map["correct" := JBool(true)])))) == Halt(Completed)
  {
  }

  /** A run of two passes, the first advancing and the second stopping. */
  lemma TwoPassRun(step: (nat, Json) -> PassResult, c1: Json, c2: Json,
                   e1: seq<Effect>, e2: seq<Effect>, exit: Exit)
    requires step(1, c1) == Advance(c2, e1) && step(2, c2) == Stop(exit, e2, c2)
    ensures QuizFrom(0, c1, step) == Outcome(e1 + e2, 2, c2, exit)
  {
  }

  /** A two-question chain: the first answer is accepted with a next URL and
      its page closes, the second is accepted with none; the run completes on
      the second URL after exactly two passes, and closes only the first page. */
  lemma TwoQuestionChain(u1: string, u2: string, email: string, secret: string,
                         t: Transport, analyze: (string, string) -> Json, r1: Json, r2: Json)
    requires u2 != [] && t.close(1)
    requires Answer(1, JStr(u1), t, analyze) == Some(r1) && r1.JObj? &&
      Truthy(Get(r1.fields, "submission_url"))
    requires Answer(2, JStr(u2), t, analyze) == Some(r2) && r2.JObj? &&
      Truthy(Get(r2.fields, "submission_url"))
    requires t.post(1, Get(r1.fields, "submission_url"),
                    Payload(email, secret, JStr(u1), Get(r1.fields, "answer"))) ==
      Posted(200, Some(JObj(map["correct" := JBool(true), "url" := JStr(u2)])))
    requires t.post(2, Get(r2.fields, "submission_url"),
                    Payload(email, secret, JStr(u2), Get(r2.fields, "answer"))) ==
      Posted(200, Some(JObj(map["correct" := JBool(true)])))
    ensures var r := QuizFrom(0, JStr(u1), PassStep(email, secret, t, analyze));
      r.iterations == 2 && r.exit == Completed && r.currentUrl == JStr(u2) &&
      PagesClosed(r.effects) == 1
  {
    JudgeAccepts(u2);
    var step := PassStep(email, secret, t, analyze);
    var p1 := Submitting(1, JStr(u1), r1, email, secret, t);
    var p2 := Submitting(2, JStr(u2), r2, email, secret, t);
    assert step(1, JStr(u1)) == p1 && step(2, JStr(u2)) == p2;
    assert p1 == Advance(JStr(u2), p1.effects);
    assert p2 == Stop(Completed, p2.effects, JStr(u2));
    TwoPassRun(step, JStr(u1), JStr(u2), p1.effects, p2.effects, Completed);
    SubmittingShape(1, JStr(u1), r1, email, secret, t);
    SubmittingShape(2, JStr(u2), r2, email, secret, t);
    VisitedAppend(p1.effects, p2.effects);
  }

  /** The outcome whole seen after the effects done so far: the loop from
      counter i and cursor cur produces the rest of whole. */
  predicate Resumes(whole: Outcome, done: seq<Effect>, i: nat, cur: Json, step: (nat, Json) -> PassResult) {
    done + QuizFrom(i, cur, step).effects == whole.effects &&
    QuizFrom(i, cur, step).iterations == whole.iterations &&
    QuizFrom(i, cur, step).currentUrl == whole.currentUrl &&
    QuizFrom(i, cur, step).exit == whole.exit
  }

  /** A pass that advances keeps the rest of a run resumable from its next
      cursor. */
  lemma ResumesAdvance(whole: Outcome, done: seq<Effect>, i: nat, cur: Json,
                       step: (nat, Json) -> PassResult, next: Json, effects: seq<Effect>)
    requires i < MaxIterations && Resumes(whole, done, i, cur, step)
    requires step(i + 1, cur) == Advance(next, effects)
    ensures Resumes(whole, done + effects, i + 1, next, step)
  {
    var rest := QuizFrom(i + 1, next, step).effects;
    assert done + (effects + rest) == (done + effects) + rest;
  }

  /** A pass that stops completes the run. */
  lemma ResumesStop(whole: Outcome, done: seq<Effect>, i: nat, cur: Json,
                    step: (nat, Json) -> PassResult, exit: Exit, effects: seq<Effect>, at: Json)
    requires i < MaxIterations && Resumes(whole, done, i, cur, step)
    requires step(i + 1, cur) == Stop(exit, effects, at)
    ensures whole == Outcome(done + effects, i + 1, at, exit)
  {
  }

  /** The try block of one pass of solve_quiz, numbered iteration, on
      cursor currentUrl: its effects, whether it advanced, current_url when
      the pass ends, and otherwise the exit it breaks with. */
  method Attempt(iteration: nat, currentUrl: Json, email: string, secret: string,
                 t: Transport, o: LlmUtils.Oracles)
    returns (effects: seq<Effect>, advanced: bool, cursor: Json, exit: Exit)
    ensures Pass(iteration, currentUrl, email, secret, t, Analyzer(o)) ==
      if advanced then Advance(cursor, effects) else Stop(exit, effects, cursor)
  {
    effects := [Visit(iteration, currentUrl)];
    advanced, cursor, exit := false, currentUrl, PassRaised;
    if !currentUrl.JStr? {
      // page.goto raises on a url that is not a string
      return;
    }
    var page := t.fetch(iteration, currentUrl.s);
    if page.FetchRaised? {
      return;
    }
    var result: Json;
    ghost var messages: seq<LlmUtils.Turn>, calls: nat;
    result, messages, calls := LlmUtils.AnalyzeTaskAndGenerateCode(page.html, page.text, o);
    assert result == Analyzer(o)(page.html, page.text);
    if !Truthy(result) {
      exit := NoResult;
      return;
    }
    if !result.JObj? {
      // result.get raises on a decoded value that is not a dict
      return;
    }
    var answer := Get(result.fields, "answer");
    var submissionUrl := Get(result.fields, "submission_url");
    if !Truthy(submissionUrl) {
      exit := NoSubmissionUrl;
      return;
    }
    var payload := Payload(email, secret, currentUrl, answer);
    effects := effects + [Submit(submissionUrl, payload)];
    var response := t.post(iteration, submissionUrl, payload);
    if response.PostRaised? {
      return;
    }
    if response.status == 200 {
      if !(response.body.Some? && response.body.value.JObj?) {
        // response.json() or resp_json.get raises
        return;
      }
      var respJson := response.body.value.fields;
      if Truthy(Get(respJson, "correct")) {
        var nextUrl := Get(respJson, "url");
        if Truthy(nextUrl) {
          cursor := nextUrl;
        } else {
          exit := Completed;
          return;
        }
      } else {
        exit := Incorrect;
        return;
      }
    } else {
      exit := StatusNotOk;
      return;
    }
    if !t.close(iteration) {
      // page.close() raises after current_url has moved
      return;
    }
    effects := effects + [ClosePage];
    advanced := true;
  }

  /** What solve_quiz does, in order: nothing when the browser fails to
      start (the exception leaves solve_quiz before the loop), otherwise
      the loop's effects and then one browser close. */
  function SolveEffects(url: string, email: string, secret: string,
                        t: Transport, o: LlmUtils.Oracles): seq<Effect> {
    if t.launch then Run(url, email, secret, t, o).effects + [CloseBrowser] else []
  }

  /** The browser is closed exactly when it started, once, as the last
      effect; the passes started are the loop's when it started and none
      otherwise. */
  lemma SolveClosesBrowserOnce(url: string, email: string, secret: string,
                               t: Transport, o: LlmUtils.Oracles)
    ensures var e := SolveEffects(url, email, secret, t, o);
      (CloseBrowser in e <==> t.launch) &&
      (t.launch ==> e[|e| - 1] == CloseBrowser && CloseBrowser !in e[..|e| - 1]) &&
      |Visited(e)| == if t.launch then Run(url, email, secret, t, o).iterations else 0
  {
    var step := PassStep(email, secret, t, Analyzer(o));
    PassStepShape(email, secret, t, Analyzer(o));
    RunKeepsBrowser(0, JStr(url), step, email, secret);
    RunBounded(0, JStr(url), step, email, secret);
    var r := Run(url, email, secret, t, o).effects;
    VisitedAppend(r, [CloseBrowser]);
    assert (r + [CloseBrowser])[..|r|] == r;
  }

  /** solve_quiz: the driver loop, which breaks at each exit of a pass; the
      browser is closed once, after the loop, when it started at all. */
  method SolveQuiz(url: string, email: string, secret: string,
                   t: Transport, o: LlmUtils.Oracles)
    returns (effects: seq<Effect>, ghost passes: nat, ghost lastUrl: Json, ghost exit: Exit)
    ensures effects == SolveEffects(url, email, secret, t, o)
    ensures t.launch ==> (passes == Run(url, email, secret, t, o).iterations &&
      lastUrl == Run(url, email, secret, t, o).currentUrl && exit == Run(url, email, secret, t, o).exit)
    ensures !t.launch ==> passes == 0 && lastUrl == JStr(url) && exit == LaunchRaised
  {
    var currentUrl := JStr(url);
    var iteration := 0;
    effects := [];
    if !t.launch {
      // chromium.launch or new_context raises outside the try block
      passes, lastUrl, exit := 0, currentUrl, LaunchRaised;
      return;
    }
    ghost var step := PassStep(email, secret, t, Analyzer(o));
    ghost var whole := Run(url, email, secret, t, o);
    exit := BoundReached;
    assert effects + whole.effects == whole.effects;
    while iteration < MaxIterations
      invariant iteration <= MaxIterations
      invariant Resumes(whole, effects, iteration, currentUrl, step)
    {
      var passEffects, advanced, cursor, passExit :=
        Attempt(iteration + 1, currentUrl, email, secret, t, o);
      assert step(iteration + 1, currentUrl) ==
        if advanced then Advance(cursor, passEffects) else Stop(passExit, passEffects, cursor);
      if !advanced {
        ResumesStop(whole, effects, iteration, currentUrl, step, passExit, passEffects, cursor);
        iteration, effects, currentUrl, exit := iteration + 1, effects + passEffects, cursor, passExit;
        break;
      }
      ResumesAdvance(whole, effects, iteration, currentUrl, step, cursor, passEffects);
      iteration, effects, currentUrl := iteration + 1, effects + passEffects, cursor;
    }
    passes, lastUrl := iteration, currentUrl;
    effects := effects + [CloseBrowser];
  }
}
