/** The tool loop around a model, once with whole replies and once with streams of events. */
module Generate {
  import opened GoStrings
  import opened StreamAccumulator

  datatype Result<T> = Ok(value: T) | Err(error: string)

  datatype ToolResult = ToolResult(callId: string, name: string, content: string, isError: bool)

  datatype Message =
    | System(text: string)
    | User(text: string)
    | Assistant(content: seq<Part>)
    | Tool(result: ToolResult)

  /** A tool on offer; one without a handler is passive and is left to the caller. */
  datatype ToolDef = ToolDef(name: string, active: bool)

  datatype Config = Config(tools: seq<ToolDef>, maxRounds: nat) {
    predicate HasActive() { exists t :: t in tools && t.active }

    /** The tool a name stands for: the last one of that name. */
    function Find(name: string): Option<ToolDef> { FindIn(tools, name) }
  }

  function FindIn(tools: seq<ToolDef>, name: string): (t: Option<ToolDef>)
    ensures t.Some? ==> t.value.name == name
  {
    if tools == [] then None
    else if tools[|tools| - 1].name == name then Some(tools[|tools| - 1])
    else FindIn(tools[..|tools| - 1], name)
  }

  /** Of several tools with one name the last one counts. */
  lemma {:induction false} FindIsLast(tools: seq<ToolDef>, i: nat)
    requires i < |tools| && forall j :: i < j < |tools| ==> tools[j].name != tools[i].name
    ensures FindIn(tools, tools[i].name) == Some(tools[i])
  {
    if i < |tools| - 1 {
      FindIsLast(tools[..|tools| - 1], i);
    }
  }

  lemma {:induction false} FindFinds(tools: seq<ToolDef>, name: string)
    ensures FindIn(tools, name).None? <==> forall j :: 0 <= j < |tools| ==> tools[j].name != name
  {
    if tools != [] {
      FindFinds(tools[..|tools| - 1], name);
    }
  }

  /** What running the k-th call of a round comes to: the handler's output, or the error that stands in for it. */
  type Runner = (nat, nat, Call) -> (string, bool)

  /** A model: what it replies to the n-th request, given the messages sent. */
  type Replies = (nat, seq<Message>) -> Result<Response>

  type Streams = (nat, seq<Message>) -> Result<seq<Event>>

  function CallsOf(content: seq<Part>): seq<Call> {
    if content == [] then []
    else
      CallsOf(content[..|content| - 1])
      + match content[|content| - 1] case TextPart(_) => [] case CallPart(c) => [c]
  }

  /** The calls of a reply are its call parts, in order. */
  lemma CallsOfPart(p: Part)
    ensures CallsOf([p]) == match p case TextPart(_) => [] case CallPart(c) => [c]
  {
    assert [p][..0] == [];
  }

  lemma {:induction false} CallsJoin(a: seq<Part>, b: seq<Part>)
    ensures CallsOf(a + b) == CallsOf(a) + CallsOf(b)
  {
    if b == [] {
      assert a + b == a;
    } else {
      var n := |b| - 1;
      CallsJoin(a, b[..n]);
      assert (a + b)[..|a| + n] == a + b[..n];
    }
  }

  /** A call part is the call with as many before it as there are call parts before it. */
  lemma CallAt(content: seq<Part>, p: nat)
    requires p < |content| && content[p].CallPart?
    ensures var i := |CallsOf(content[..p])|; i < |CallsOf(content)| && CallsOf(content)[i] == content[p].call
  {
    hide CallsOf;
    CallsOfPart(content[p]);
    CallsJoin(content[..p], [content[p]]);
    CallsJoin(content[..p] + [content[p]], content[p + 1..]);
    assert content == content[..p] + [content[p]] + content[p + 1..];
  }

  /** And each call stands in a call part. */
  lemma {:induction false} CallHasPart(content: seq<Part>, i: nat) returns (p: nat)
    requires i < |CallsOf(content)|
    ensures p < |content| && content[p] == CallPart(CallsOf(content)[i]) && i == |CallsOf(content[..p])|
  {
    var n := |content| - 1;
    if i < |CallsOf(content[..n])| {
      p := CallHasPart(content[..n], i);
      assert content[..n][..p] == content[..p];
    } else {
      p := n;
    }
  }

  /** Reading the calls off a reply. */
  method ToolCalls(content: seq<Part>) returns (calls: seq<Call>)
    ensures calls == CallsOf(content)
  {
    calls := [];
    var i := 0;
    while i < |content|
      invariant 0 <= i <= |content| && calls == CallsOf(content[..i])
    {
      assert content[..i + 1][..i] == content[..i];
      if content[i].CallPart? {
        calls := calls + [content[i].call];
      }
      i := i + 1;
    }
    assert content[..i] == content;
  }

  function ResultOf(c: Config, run: Runner, round: nat, k: nat, call: Call): ToolResult {
    var t := c.Find(call.name);
    if t.None? || !t.value.active then ToolResult(call.id, call.name, "unknown tool: " + call.name, true)
    else
      var (content, isError) := run(round, k, call);
      ToolResult(call.id, call.name, content, isError)
  }

  function ResultsOf(c: Config, run: Runner, round: nat, calls: seq<Call>): (rs: seq<ToolResult>)
    ensures |rs| == |calls|
  {
    seq(|calls|, k requires 0 <= k < |calls| => ResultOf(c, run, round, k, calls[k]))
  }

  function Below(n: nat): (s: set<nat>)
    ensures forall k: nat :: k in s <==> k < n
  {
    if n == 0 then {} else Below(n - 1) + {n - 1}
  }

  /** All calls run at once and finish in any order; each writes its own place in the results. */
  method ExecuteToolCalls(c: Config, run: Runner, round: nat, calls: seq<Call>) returns (results: seq<ToolResult>)
    ensures results == ResultsOf(c, run, round, calls)
  {
    results := seq(|calls|, k => ToolResult("", "", "", false));
    var running := Below(|calls|);
    while running != {}
      invariant |results| == |calls| && running <= Below(|calls|)
      invariant forall k :: 0 <= k < |calls| && k !in running ==> results[k] == ResultOf(c, run, round, k, calls[k])
      decreases running
    {
      var i :| i in running;
      var t := c.Find(calls[i].name);
      var r := ToolResult(calls[i].id, calls[i].name, "", false);
      if t.None? || !t.value.active {
        r := r.(isError := true, content := "unknown tool: " + calls[i].name);
      } else {
        var (content, isError) := run(round, i, calls[i]);
        r := r.(isError := isError, content := content);
      }
      results := results[i := r];
      running := running - {i};
    }
  }

  function ToolMessages(rs: seq<ToolResult>): (ms: seq<Message>)
    ensures |ms| == |rs|
  {
    seq(|rs|, k requires 0 <= k < |rs| => Tool(rs[k]))
  }

  predicate PassiveCall(c: Config, calls: seq<Call>) {
    exists k :: 0 <= k < |calls| && c.Find(calls[k].name).Some? && !c.Find(calls[k].name).value.active
  }

  /** Whether a reply ends the loop: nothing to run, tool loops off, the budget spent, or a call meant for the caller. */
  predicate Stops(c: Config, used: nat, calls: seq<Call>) {
    calls == [] || !c.HasActive() || c.maxRounds == 0 || used >= c.maxRounds || PassiveCall(c, calls)
  }

  datatype Step = Step(response: Response, results: seq<ToolResult>)

  datatype Outcome = Done(response: Response) | Failed(error: string)

  /** A whole run: the messages of every request, the steps completed, and how it ended. */
  datatype Trace = Trace(sent: seq<seq<Message>>, steps: seq<Step>, outcome: Outcome)

  /** The messages after a round of tools. */
  function After(c: Config, run: Runner, history: seq<Message>, used: nat, resp: Response): seq<Message> {
    history + [Assistant(resp.content)] + ToolMessages(ResultsOf(c, run, used, CallsOf(resp.content)))
  }

  /** The loop as it should be, from a history on. */
  function Loop(c: Config, replies: Replies, run: Runner, history: seq<Message>, used: nat): Trace
    decreases c.maxRounds - used
  {
    match replies(used, history)
    case Err(e) => Trace([history], [], Failed(e))
    case Ok(resp) =>
      var calls := CallsOf(resp.content);
      if Stops(c, used, calls) then Trace([history], [Step(resp, [])], Done(resp))
      else
        var rest := Loop(c, replies, run, After(c, run, history, used, resp), used + 1);
        Trace([history] + rest.sent, [Step(resp, ResultsOf(c, run, used, calls))] + rest.steps, rest.outcome)
  }

  /** A run continued by another. */
  function Then(sent: seq<seq<Message>>, steps: seq<Step>, rest: Trace): Trace {
    Trace(sent + rest.sent, steps + rest.steps, rest.outcome)
  }

  lemma ThenTwice(sent: seq<seq<Message>>, steps: seq<Step>, h: seq<Message>, s: Step, rest: Trace)
    ensures Then(sent, steps, Then([h], [s], rest)) == Then(sent + [h], steps + [s], rest)
  {
    assert sent + ([h] + rest.sent) == sent + [h] + rest.sent;
    assert steps + ([s] + rest.steps) == steps + [s] + rest.steps;
  }

  lemma NothingYet(t: Trace)
    ensures Then([], [], t) == t
  {
  }

  /** The loop by the reply it gets, behind what has been done before. */
  lemma LoopCases(c: Config, replies: Replies, run: Runner, history: seq<Message>, used: nat, sent: seq<seq<Message>>,
                  steps: seq<Step>)
    ensures var reply, t := replies(used, history), Then(sent, steps, Loop(c, replies, run, history, used));
      match reply
      case Err(e) => t == Trace(sent + [history], steps, Failed(e))
      case Ok(resp) =>
        var calls := CallsOf(resp.content);
        t == if Stops(c, used, calls) then Trace(sent + [history], steps + [Step(resp, [])], Done(resp))
          else Then(sent + [history], steps + [Step(resp, ResultsOf(c, run, used, calls))],
                    Loop(c, replies, run, After(c, run, history, used, resp), used + 1))
  {
    hide Stops, ResultsOf, ToolMessages, CallsOf;
    assert steps + [] == steps;
    var reply := replies(used, history);
    if reply.Ok? {
      var calls := CallsOf(reply.value.content);
      ThenTwice(sent, steps, history, Step(reply.value, ResultsOf(c, run, used, calls)),
                Loop(c, replies, run, After(c, run, history, used, reply.value), used + 1));
    }
  }

  /** The search for a call meant for the caller. */
  method FindPassive(c: Config, calls: seq<Call>) returns (found: bool)
    ensures found == PassiveCall(c, calls)
  {
    var k := 0;
    while k < |calls|
      invariant 0 <= k <= |calls|
      invariant forall j :: 0 <= j < k ==> !(c.Find(calls[j].name).Some? && !c.Find(calls[j].name).value.active)
    {
      var t := c.Find(calls[k].name);
      if t.Some? && !t.value.active {
        return true;
      }
      k := k + 1;
    }
    return false;
  }

  /** Generating with whole replies. */
  method Generate(c: Config, replies: Replies, run: Runner, messages: seq<Message>) returns (t: Trace)
    ensures t == Loop(c, replies, run, messages, 0)
  {
    hide Stops, ResultsOf, ToolMessages, CallsOf, Loop, Then;
    var history, used := messages, 0;
    var sent: seq<seq<Message>> := [];
    var steps: seq<Step> := [];
    ghost var all := Loop(c, replies, run, messages, 0);
    NothingYet(all);
    while true
      invariant Then(sent, steps, Loop(c, replies, run, history, used)) == all
      decreases c.maxRounds - used
    {
      var reply := replies(used, history);
      LoopCases(c, replies, run, history, used, sent, steps);
      if reply.Err? {
        t := Trace(sent + [history], steps, Failed(reply.error));
        return;
      }
      var resp := reply.value;
      var calls := ToolCalls(resp.content);
      var stops := StopsBeforeTools(c, used, calls);
      if stops {
        return Trace(sent + [history], steps + [Step(resp, [])], Done(resp));
      }
      var next := history + [Assistant(resp.content)];
      var passive := FindPassive(c, calls);
      StopsSplit(c, used, calls);
      if passive {
        return Trace(sent + [history], steps + [Step(resp, [])], Done(resp));
      }
      var results := ExecuteToolCalls(c, run, used, calls);
      sent, steps := sent + [history], steps + [Step(resp, results)];
      history := next + ToolMessages(results);
      used := used + 1;
    }
  }

  /** The first test of the loop, made before the calls are looked at one by one. */
  predicate StopsEarly(c: Config, used: nat, calls: seq<Call>) {
    calls == [] || !c.HasActive() || c.maxRounds == 0 || used >= c.maxRounds
  }

  lemma StopsSplit(c: Config, used: nat, calls: seq<Call>)
    ensures Stops(c, used, calls) <==> StopsEarly(c, used, calls) || PassiveCall(c, calls)
    ensures !Stops(c, used, calls) ==> used < c.maxRounds
  {
  }

  method StopsBeforeTools(c: Config, used: nat, calls: seq<Call>) returns (stops: bool)
    ensures stops == StopsEarly(c, used, calls) && (stops ==> Stops(c, used, calls))
  {
    var hasActive, i := false, 0;
    while i < |c.tools|
      invariant 0 <= i <= |c.tools| && (hasActive <==> exists k :: 0 <= k < i && c.tools[k].active)
    {
      if c.tools[i].active {
        hasActive := true;
        assert c.tools[i] in c.tools;
        break;
      }
      i := i + 1;
    }
    stops := calls == [] || !hasActive || c.maxRounds == 0 || used >= c.maxRounds;
  }

  // ----- properties of the loop

  /** The model is asked at most once more than there are rounds, and every request but the last belongs to a step. */
  lemma {:induction false} RoundsAreBounded(c: Config, replies: Replies, run: Runner, history: seq<Message>, used: nat)
    requires used <= c.maxRounds
    ensures var t := Loop(c, replies, run, history, used);
      && 1 <= |t.sent| <= c.maxRounds - used + 1
      && |t.steps| == (if t.outcome.Done? then |t.sent| else |t.sent| - 1)
      && (t.outcome.Done? ==> t.outcome.response == t.steps[|t.steps| - 1].response)
    decreases c.maxRounds - used
  {
    hide Stops, ResultsOf, ToolMessages, CallsOf;
    var reply := replies(used, history);
    if reply.Ok? {
      var calls := CallsOf(reply.value.content);
      StopsSplit(c, used, calls);
      if !Stops(c, used, calls) {
        RoundsAreBounded(c, replies, run, After(c, run, history, used, reply.value), used + 1);
      }
    }
  }

  /** Each request repeats the one before, then the reply to it, then one result for each of its calls, in their order. */
  lemma {:induction false} RequestsGrow(c: Config, replies: Replies, run: Runner, history: seq<Message>, used: nat, k: nat)
    requires var t := Loop(c, replies, run, history, used); k + 1 < |t.sent|
    ensures var t := Loop(c, replies, run, history, used);
      k < |t.steps| && var s := t.steps[k];
      && t.sent[k + 1] == t.sent[k] + [Assistant(s.response.content)] + ToolMessages(s.results)
      && |s.results| == |CallsOf(s.response.content)|
      && forall i :: 0 <= i < |s.results| ==>
        s.results[i].callId == CallsOf(s.response.content)[i].id && s.results[i].name == CallsOf(s.response.content)[i].name
    decreases c.maxRounds - used, k
  {
    hide Stops, ToolMessages, CallsOf, FindIn;
    var reply := replies(used, history);
    var calls := CallsOf(reply.value.content);
    StopsSplit(c, used, calls);
    var next := After(c, run, history, used, reply.value);
    var rest := Loop(c, replies, run, next, used + 1);
    if k == 0 {
      FirstSent(c, replies, run, next, used + 1);
    } else {
      RequestsGrow(c, replies, run, next, used + 1, k - 1);
    }
  }

  /** A reply asks for tools: it holds a call part, and none for a passive tool. */
  predicate AsksForTools(c: Config, content: seq<Part>) {
    && (exists p :: 0 <= p < |content| && content[p].CallPart?)
    && forall p :: 0 <= p < |content| && content[p].CallPart? ==>
      c.Find(content[p].call.name).None? || c.Find(content[p].call.name).value.active
  }

  /** The loop goes on exactly if the reply asks for tools, some tool is active, and there is a round left. */
  lemma StopsExactly(c: Config, used: nat, content: seq<Part>)
    ensures !Stops(c, used, CallsOf(content))
       <==> AsksForTools(c, content) && (exists t :: t in c.tools && t.active) && used < c.maxRounds
  {
    hide CallsOf, FindIn;
    var calls := CallsOf(content);
    if calls != [] {
      var p := CallHasPart(content, 0);
    }
    forall p | 0 <= p < |content| && content[p].CallPart?
      ensures content[p].call in calls
    {
      CallAt(content, p);
    }
    forall i | 0 <= i < |calls|
      ensures exists p :: 0 <= p < |content| && content[p] == CallPart(calls[i])
    {
      var p := CallHasPart(content, i);
    }
  }

  /** What a call comes to: the handler's output, or a complaint about its name. */
  predicate Answers(c: Config, run: Runner, round: nat, k: nat, call: Call, r: ToolResult) {
    && r.callId == call.id && r.name == call.name
    && match c.Find(call.name)
       case None => r.isError && r.content == "unknown tool: " + call.name
       case Some(t) => t.active ==> (r.content, r.isError) == run(round, k, call)
  }

  /**
   * After every reply that asks for tools, with rounds left, there is another request; it repeats the one before and
   * the reply, and then holds, for each call part of the reply in order, what running that call came to.
   */
  lemma {:induction false} CallsAreRun(c: Config, replies: Replies, run: Runner, history: seq<Message>, used: nat, k: nat)
    requires var t := Loop(c, replies, run, history, used); k < |t.sent| && replies(used + k, t.sent[k]).Ok?
    ensures var t := Loop(c, replies, run, history, used);
      var content := replies(used + k, t.sent[k]).value.content;
      && (k + 1 < |t.sent| <==> AsksForTools(c, content) && c.HasActive() && used + k < c.maxRounds)
      && (k + 1 < |t.sent| ==>
            && |t.sent[k + 1]| == |t.sent[k]| + 1 + |CallsOf(content)|
            && t.sent[k + 1][..|t.sent[k]|] == t.sent[k] && t.sent[k + 1][|t.sent[k]|] == Assistant(content)
            && forall p :: 0 <= p < |content| && content[p].CallPart? ==>
              var i := |CallsOf(content[..p])|;
              && i < |CallsOf(content)| && t.sent[k + 1][|t.sent[k]| + 1 + i].Tool?
              && Answers(c, run, used + k, i, content[p].call, t.sent[k + 1][|t.sent[k]| + 1 + i].result))
    decreases k
  {
    hide Stops, CallsOf, ToolMessages, ResultsOf, FindIn, AsksForTools, Answers;
    var reply := replies(used, history);
    FirstSent(c, replies, run, history, used);
    var content := reply.value.content;
    StopsExactly(c, used, content);
    var next := After(c, run, history, used, reply.value);
    if k == 0 {
      OneMoreRequest(c, run, history, used, reply.value);
      if !Stops(c, used, CallsOf(content)) {
        StopsSplit(c, used, CallsOf(content));
        FirstSent(c, replies, run, next, used + 1);
      }
    } else {
      StopsSplit(c, used, CallsOf(content));
      CallsAreRun(c, replies, run, next, used + 1, k - 1);
    }
  }

  lemma OneMoreRequest(c: Config, run: Runner, history: seq<Message>, used: nat, resp: Response)
    ensures var next, n := After(c, run, history, used, resp), |history|;
      && |next| == n + 1 + |CallsOf(resp.content)| && next[..n] == history && next[n] == Assistant(resp.content)
      && forall p :: 0 <= p < |resp.content| && resp.content[p].CallPart? ==>
        var i := |CallsOf(resp.content[..p])|;
        && i < |CallsOf(resp.content)| && next[n + 1 + i].Tool?
        && Answers(c, run, used, i, resp.content[p].call, next[n + 1 + i].result)
  {
    hide CallsOf, FindIn;
    var calls := CallsOf(resp.content);
    var next, n := After(c, run, history, used, resp), |history|;
    forall p | 0 <= p < |resp.content| && resp.content[p].CallPart?
      ensures var i := |CallsOf(resp.content[..p])|;
        i < |calls| && next[n + 1 + i].Tool? && Answers(c, run, used, i, resp.content[p].call, next[n + 1 + i].result)
    {
      CallAt(resp.content, p);
      var i := |CallsOf(resp.content[..p])|;
      assert next[n + 1 + i] == Tool(ResultOf(c, run, used, i, calls[i]));
    }
  }

  lemma FirstSent(c: Config, replies: Replies, run: Runner, history: seq<Message>, used: nat)
    ensures var t := Loop(c, replies, run, history, used); |t.sent| > 0 && t.sent[0] == history
  {
  }

  /** Two runs that went the same way; if they failed, perhaps with different words. */
  predicate SameRun(a: Trace, b: Trace) {
    && a.sent == b.sent && a.steps == b.steps
    && (a.outcome == b.outcome || (a.outcome.Failed? && b.outcome.Failed?))
  }

  /** Two models that reply alike. */
  ghost predicate SameReplies(a: Replies, b: Replies) {
    forall n, h :: a(n, h) == b(n, h) || (a(n, h).Err? && b(n, h).Err?)
  }

  lemma {:induction false} SameLoop(c: Config, a: Replies, b: Replies, run: Runner, history: seq<Message>, used: nat)
    requires SameReplies(a, b)
    ensures SameRun(Loop(c, a, run, history, used), Loop(c, b, run, history, used))
    decreases c.maxRounds - used
  {
    hide Stops, ResultsOf, ToolMessages, CallsOf;
    var reply := a(used, history);
    assert reply == b(used, history) || (reply.Err? && b(used, history).Err?);
    if reply.Ok? {
      var calls := CallsOf(reply.value.content);
      StopsSplit(c, used, calls);
      if !Stops(c, used, calls) {
        SameLoop(c, a, b, run, After(c, run, history, used, reply.value), used + 1);
      }
    }
  }

  // ----- streams

  predicate Fails(ev: Event) { ev.kind.Failure? && ev.err.Some? }

  /** The events up to and including the first failure. */
  function Read(evs: seq<Event>): seq<Event> {
    if evs == [] then [] else if Fails(evs[0]) then [evs[0]] else [evs[0]] + Read(evs[1..])
  }

  /** What a stream amounts to: a failure, or the response of its last finish. */
  function Reply(stream: Result<seq<Event>>): Result<Response> {
    match stream
    case Err(e) => Err(e)
    case Ok(evs) =>
      var got := Read(evs);
      if got != [] && Fails(got[|got| - 1]) then Err(got[|got| - 1].err.value)
      else if Final(got).None? then Err(NO_FINISH)
      else Ok(Final(got).value)
  }

  const NO_FINISH := "stream ended without finish event"

  /** The events passed on as they come: a start only in the first step, a finish not yet. */
  function Forwarded(evs: seq<Event>, first: bool): seq<Event> {
    if evs == [] then []
    else
      var ev := evs[|evs| - 1];
      var before := Forwarded(evs[..|evs| - 1], first);
      if ev.kind.Finish? || (ev.kind.StreamStart? && !first) then before else before + [ev]
  }

  function LastFinish(evs: seq<Event>): Option<Event> {
    if evs == [] then None
    else if evs[|evs| - 1].kind.Finish? then Some(evs[|evs| - 1])
    else LastFinish(evs[..|evs| - 1])
  }

  function FailureEvent(e: string): Event { Event(Failure, "", "", None, None, None, None, Some(e)) }

  function StepEvent(fin: Event, resp: Response): Event {
    Event(StepFinish, "", "", None, fin.finish, fin.usage, Some(resp), None)
  }

  /** There is a finish event exactly when there is a final response. */
  lemma {:induction false} FinishHasResponse(evs: seq<Event>)
    ensures LastFinish(evs).Some? <==> Final(evs).Some?
    ensures LastFinish(evs).Some? ==> LastFinish(evs).value.kind.Finish?
    ensures LastFinish(evs).Some? && LastFinish(evs).value.response.Some? ==> Final(evs) == LastFinish(evs).value.response
  {
    if evs != [] {
      FinishHasResponse(evs[..|evs| - 1]);
    }
  }

  /** What the consumer sees of a stream before it is decided whether to go on; of a failing one, that is all. */
  function Shown(stream: Result<seq<Event>>, first: bool): seq<Event> {
    match stream
    case Err(e) => [FailureEvent(e)]
    case Ok(evs) =>
      var got := Read(evs);
      if (got != [] && Fails(got[|got| - 1])) || LastFinish(got).Some? then Forwarded(got, first)
      else Forwarded(got, first) + [FailureEvent(NO_FINISH)]
  }

  /** The finish event kept back. */
  function Held(stream: Result<seq<Event>>): (ev: Event)
    requires Reply(stream).Ok?
    ensures ev.kind.Finish?
  {
    FinishHasResponse(Read(stream.value));
    LastFinish(Read(stream.value)).value
  }

  /** What the consumer of the high-level stream gets to see. */
  function Output(c: Config, streams: Streams, run: Runner, history: seq<Message>, used: nat): seq<Event>
    decreases c.maxRounds - used
  {
    var stream := streams(used, history);
    match Reply(stream)
    case Err(_) => Shown(stream, used == 0)
    case Ok(resp) =>
      if Stops(c, used, CallsOf(resp.content)) then Shown(stream, used == 0) + [Held(stream).(response := Some(resp))]
      else
        Shown(stream, used == 0) + [StepEvent(Held(stream), resp)]
        + Output(c, streams, run, After(c, run, history, used, resp), used + 1)
  }

  function RepliesOf(streams: Streams): Replies { (n: nat, h: seq<Message>) => Reply(streams(n, h)) }

  function Finishes(evs: seq<Event>): nat {
    if evs == [] then 0 else Finishes(evs[..|evs| - 1]) + if evs[|evs| - 1].kind.Finish? then 1 else 0
  }

  lemma {:induction false} FinishesJoin(a: seq<Event>, b: seq<Event>)
    ensures Finishes(a + b) == Finishes(a) + Finishes(b)
  {
    if b == [] {
      assert a + b == a;
    } else {
      assert (a + b)[..|a + b| - 1] == a + b[..|b| - 1];
      FinishesJoin(a, b[..|b| - 1]);
    }
  }

  lemma {:induction false} ForwardedHasNoFinish(evs: seq<Event>, first: bool)
    ensures Finishes(Forwarded(evs, first)) == 0
  {
    if evs != [] {
      var ev := evs[|evs| - 1];
      var before := Forwarded(evs[..|evs| - 1], first);
      ForwardedHasNoFinish(evs[..|evs| - 1], first);
      assert (before + [ev])[..|before|] == before;
    }
  }

  lemma ShownHasNoFinish(stream: Result<seq<Event>>, first: bool)
    ensures Finishes(Shown(stream, first)) == 0
  {
    hide Forwarded, Finishes, Read, LastFinish;
    match stream {
      case Err(e) => OneEvent([], FailureEvent(e));
      case Ok(evs) =>
        ForwardedHasNoFinish(Read(evs), first);
        OneEvent(Forwarded(Read(evs), first), FailureEvent(NO_FINISH));
    }
  }

  /**
   * Exactly one finish event is passed on if the run succeeds, and none if it fails; it comes last, and carries the final
   * response.
   */
  lemma {:induction false} OneFinish(c: Config, streams: Streams, run: Runner, history: seq<Message>, used: nat)
    ensures var t, out := Loop(c, RepliesOf(streams), run, history, used), Output(c, streams, run, history, used);
      && Finishes(out) == (if t.outcome.Done? then 1 else 0)
      && (t.outcome.Done? ==>
        out != [] && out[|out| - 1].kind.Finish? && out[|out| - 1].response == Some(t.outcome.response))
    decreases c.maxRounds - used
  {
    hide Stops, ResultsOf, ToolMessages, CallsOf, Shown, Finishes, Loop, Reply, After;
    var stream := streams(used, history);
    LoopCases(c, RepliesOf(streams), run, history, used, [], []);
    NothingYet(Loop(c, RepliesOf(streams), run, history, used));
    ShownHasNoFinish(stream, used == 0);
    if Reply(stream).Ok? {
      var resp, shown := Reply(stream).value, Shown(stream, used == 0);
      var calls := CallsOf(resp.content);
      StopsSplit(c, used, calls);
      OneEvent(shown, Held(stream).(response := Some(resp)));
      OneEvent(shown, StepEvent(Held(stream), resp));
      if !Stops(c, used, calls) {
        var next := After(c, run, history, used, resp);
        OneFinish(c, streams, run, next, used + 1);
        FinishesJoin(shown + [StepEvent(Held(stream), resp)], Output(c, streams, run, next, used + 1));
      }
    }
  }

  /** A run that fails ends with the failure that made it fail, shown to the consumer. */
  lemma {:induction false} FailureIsLast(c: Config, streams: Streams, run: Runner, history: seq<Message>, used: nat)
    ensures var t, out := Loop(c, RepliesOf(streams), run, history, used), Output(c, streams, run, history, used);
      t.outcome.Failed? ==>
        out != [] && out[|out| - 1].kind.Failure? && out[|out| - 1].err == Some(t.outcome.error)
    decreases c.maxRounds - used
  {
    hide Stops, ResultsOf, ToolMessages, CallsOf, Shown, Loop, Reply, After;
    var stream := streams(used, history);
    LoopCases(c, RepliesOf(streams), run, history, used, [], []);
    NothingYet(Loop(c, RepliesOf(streams), run, history, used));
    if Reply(stream).Err? {
      ShownFails(stream, used == 0);
    } else {
      var resp := Reply(stream).value;
      StopsSplit(c, used, CallsOf(resp.content));
      if !Stops(c, used, CallsOf(resp.content)) {
        FailureIsLast(c, streams, run, After(c, run, history, used, resp), used + 1);
      }
    }
  }

  lemma ShownFails(stream: Result<seq<Event>>, first: bool)
    requires Reply(stream).Err?
    ensures var out := Shown(stream, first);
      out != [] && out[|out| - 1].kind.Failure? && out[|out| - 1].err == Some(Reply(stream).error)
    ensures stream.Err? ==> Shown(stream, first) == [Event(Failure, "", "", None, None, None, None, Some(stream.error))]
  {
    if stream.Ok? {
      FinishHasResponse(Read(stream.value));
    }
    hide Read, Final, LastFinish;
  }

  /** A stream that neither finishes nor fails counts as failed, and says why. */
  lemma NoFinishFails(evs: seq<Event>)
    requires forall i :: 0 <= i < |evs| ==> !evs[i].kind.Finish? && !Fails(evs[i])
    ensures Reply(Ok(evs)) == Err("stream ended without finish event")
  {
    NothingFinal(evs);
    NothingFails(evs);
  }

  lemma {:induction false} NothingFinal(evs: seq<Event>)
    requires forall i :: 0 <= i < |evs| ==> !evs[i].kind.Finish?
    ensures Final(evs) == None
  {
    if evs != [] {
      NothingFinal(evs[..|evs| - 1]);
    }
  }

  lemma {:induction false} NothingFails(evs: seq<Event>)
    requires forall i :: 0 <= i < |evs| ==> !Fails(evs[i])
    ensures Read(evs) == evs
  {
    if evs != [] {
      NothingFails(evs[1..]);
    }
  }

  /** After every request but the last, the consumer sees that a step is over, with its response, and why and at what cost it ended. */
  lemma {:induction false} StepsShown(
    c: Config, streams: Streams, run: Runner, history: seq<Message>, used: nat, k: nat) returns (p: nat)
    requires k + 1 < |Loop(c, RepliesOf(streams), run, history, used).sent|
    ensures
      var out, stream := Output(c, streams, run, history, used),
                         streams(used + k, Loop(c, RepliesOf(streams), run, history, used).sent[k]);
      && p < |out| && Reply(stream).Ok? && out[p].kind.StepFinish?
      && out[p].response == Some(Reply(stream).value)
      && out[p].finish == Held(stream).finish && out[p].usage == Held(stream).usage
      && out[p].delta == "" && out[p].textId == "" && out[p].call == None && out[p].err == None
    decreases k
  {
    hide Stops, ResultsOf, ToolMessages, CallsOf, Shown, Loop, Reply, After, Held;
    var stream := streams(used, history);
    FirstSent(c, RepliesOf(streams), run, history, used);
    LoopCases(c, RepliesOf(streams), run, history, used, [], []);
    NothingYet(Loop(c, RepliesOf(streams), run, history, used));
    var resp := Reply(stream).value;
    var shown := Shown(stream, used == 0);
    StopsSplit(c, used, CallsOf(resp.content));
    if k == 0 {
      p := |shown|;
    } else {
      var q := StepsShown(c, streams, run, After(c, run, history, used, resp), used + 1, k - 1);
      p := |shown| + 1 + q;
    }
  }

  lemma OneEvent(evs: seq<Event>, ev: Event)
    ensures Finishes([]) == 0 && [] + [ev] == [ev]
    ensures Finishes(evs + [ev]) == Finishes(evs) + if ev.kind.Finish? then 1 else 0
  {
    assert (evs + [ev])[..|evs|] == evs;
  }

  /** How far reading has got: no failure among the first i events. */
  lemma ReadStep(evs: seq<Event>, i: nat)
    requires i < |evs| && Read(evs) == evs[..i] + Read(evs[i..])
    ensures Fails(evs[i]) ==> Read(evs) == evs[..i + 1]
    ensures !Fails(evs[i]) ==> Read(evs) == evs[..i + 1] + Read(evs[i + 1..])
  {
    hide Read, Fails;
    ReadOne(evs[i..]);
    Cut(evs, i);
    Regroup(evs[..i], evs[i], Read(evs[i + 1..]));
    hide *;
  }

  lemma Cut(evs: seq<Event>, i: nat)
    requires i < |evs|
    ensures evs[i..] != [] && evs[i..][0] == evs[i] && evs[i..][1..] == evs[i + 1..]
    ensures evs[..i + 1] == evs[..i] + [evs[i]]
  {
  }

  lemma Regroup(a: seq<Event>, x: Event, b: seq<Event>)
    ensures a + ([x] + b) == a + [x] + b
  {
  }

  lemma ReadOne(evs: seq<Event>)
    requires evs != []
    ensures Read(evs) == if Fails(evs[0]) then [evs[0]] else [evs[0]] + Read(evs[1..])
  {
  }

  lemma ReadAll(evs: seq<Event>)
    requires Read(evs) == evs[..|evs|] + Read(evs[|evs|..])
    ensures Read(evs) == evs
  {
    assert evs[|evs|..] == [] && evs[..|evs|] == evs;
  }

  lemma ForwardedStep(evs: seq<Event>, i: nat, first: bool)
    requires i < |evs|
    ensures Forwarded(evs[..i + 1], first) ==
      if evs[i].kind.Finish? || (evs[i].kind.StreamStart? && !first) then Forwarded(evs[..i], first)
      else Forwarded(evs[..i], first) + [evs[i]]
    ensures LastFinish(evs[..i + 1]) == if evs[i].kind.Finish? then Some(evs[i]) else LastFinish(evs[..i])
  {
    assert evs[..i + 1][..i] == evs[..i];
  }

  /** One step's events: accumulated, passed on, the finish kept back; a failure ends it at once. */
  method ReadStream(evs: seq<Event>, first: bool)
    returns (acc: StreamAccumulator, finishEv: Option<Event>, shown: seq<Event>, failure: Option<string>)
    ensures fresh(acc) && acc.Valid() && acc.events == Read(evs)
    ensures shown == Forwarded(Read(evs), first) && finishEv == LastFinish(Read(evs))
    ensures var got := Read(evs);
      failure == if got != [] && Fails(got[|got| - 1]) then got[|got| - 1].err else None
  {
    hide Forwarded, LastFinish, Read, StreamAccumulator.Valid;
    acc := new StreamAccumulator();
    finishEv, shown, failure := None, [], None;
    var i := 0;
    assert evs[..0] == [] && evs[0..] == evs;
    NothingForwarded(first);
    while i < |evs|
      invariant 0 <= i <= |evs| && fresh(acc) && acc.Valid() && acc.events == evs[..i]
      invariant Read(evs) == evs[..i] + Read(evs[i..])
      invariant shown == Forwarded(evs[..i], first) && finishEv == LastFinish(evs[..i]) && failure == None
      invariant i != 0 ==> !Fails(evs[i - 1])
    {
      var ev := evs[i];
      acc.Process(ev);
      assert evs[..i + 1] == evs[..i] + [ev];
      ReadStep(evs, i);
      ForwardedStep(evs, i, first);
      if ev.kind.Finish? {
        finishEv := Some(ev);
      } else if ev.kind.StreamStart? {
        if first {
          shown := shown + [ev];
        }
      } else {
        shown := shown + [ev];
        if ev.kind.Failure? && ev.err.Some? {
          failure := ev.err;
          return;
        }
      }
      i := i + 1;
    }
    ReadAll(evs);
    assert evs[..i] == evs;
  }

  lemma NothingForwarded(first: bool)
    ensures Forwarded([], first) == [] && LastFinish([]) == None
  {
  }

  /** One request: its events, and in the end a response or an error. A finish always comes with a response. */
  method StreamStep(stream: Result<seq<Event>>, first: bool)
    returns (reply: Result<Response>, finishEv: Option<Event>, shown: seq<Event>)
    ensures reply == Reply(stream) && shown == Shown(stream, first)
    ensures reply.Ok? ==> finishEv == Some(Held(stream))
  {
    hide Forwarded, LastFinish, Final, Read, Collected;
    finishEv := None;
    if stream.Err? {
      return Err(stream.error), None, [FailureEvent(stream.error)];
    }
    var acc, failure;
    acc, finishEv, shown, failure := ReadStream(stream.value, first);
    FinishHasResponse(acc.events);
    if failure.Some? {
      return Err(failure.value), None, shown;
    }
    if finishEv.None? {
      return Err(NO_FINISH), None, shown + [FailureEvent(NO_FINISH)];
    }
    var stepResp := finishEv.value.response;
    if stepResp.None? {
      stepResp := acc.final;
    }
    if stepResp.None? {
      assert false;
    }
    reply := Ok(stepResp.value);
  }

  /** Streams under a context: from where it has ended, none opens. */
  function Until(ended: nat -> Option<string>, streams: Streams): Streams {
    (n: nat, h: seq<Message>) => if ended(n).Some? then Err(ended(n).value) else streams(n, h)
  }

  /**
   * Generating with streams: the run, how many of its requests are sent (a context that has ended keeps the next one
   * back), what the consumer sees, and the final response or the error.
   */
  method StreamGenerate(
    c: Config, ended: nat -> Option<string>, streams: Streams, run: Runner, messages: seq<Message>)
    returns (t: Trace, requests: nat, out: seq<Event>, final: Option<Response>, err: Option<string>)
    ensures t == Loop(c, RepliesOf(Until(ended, streams)), run, messages, 0)
    ensures out == Output(c, Until(ended, streams), run, messages, 0)
    ensures t.outcome == if final.Some? then Done(final.value) else Failed(if err.Some? then err.value else "")
    ensures final.Some? <==> err.None?
    ensures |t.sent| > 0 && requests == if ended(|t.sent| - 1).Some? then |t.sent| - 1 else |t.sent|
  {
    hide Stops, ResultsOf, ToolMessages, CallsOf, Loop, Then, Reply, Shown, StopsEarly, PassiveCall, Held, StepEvent;
    hide Output, RepliesOf, Until;
    var history, used := messages, 0;
    var sent: seq<seq<Message>> := [];
    var steps: seq<Step> := [];
    out, final, err := [], None, None;
    ghost var all := Loop(c, RepliesOf(Until(ended, streams)), run, messages, 0);
    NothingYet(all);
    while true
      invariant Then(sent, steps, Loop(c, RepliesOf(Until(ended, streams)), run, history, used)) == all
      invariant out + Output(c, Until(ended, streams), run, history, used) == Output(c, Until(ended, streams), run, messages, 0)
      invariant final == None && err == None && |sent| == used && forall n :: 0 <= n < used ==> ended(n).None?
      decreases c.maxRounds - used
    {
      StreamCases(c, ended, streams, run, history, used, sent, steps);
      if ended(used).Some? {
        var e := ended(used).value;
        return Trace(sent + [history], steps, Failed(e)), used, out + [FailureEvent(e)], None, Some(e);
      }
      var reply, finishEv, shown := StreamStep(streams(used, history), used == 0);
      if reply.Err? {
        return Trace(sent + [history], steps, Failed(reply.error)), used + 1, out + shown, None, Some(reply.error);
      }
      var resp := reply.value;
      var calls := ToolCalls(resp.content);
      var stopNow := StopsBeforeTools(c, used, calls);
      if !stopNow {
        stopNow := FindPassive(c, calls);
      }
      StopsSplit(c, used, calls);
      if stopNow {
        var fin := finishEv.value.(response := Some(resp));
        assert out + shown + [fin] == out + (shown + [fin]);
        return Trace(sent + [history], steps + [Step(resp, [])], Done(resp)), used + 1, out + shown + [fin], Some(resp), None;
      }
      var next := history + [Assistant(resp.content)];
      var results := ExecuteToolCalls(c, run, used, calls);
      next := next + ToolMessages(results);
      var stepEv := StepEvent(finishEv.value, resp);
      OutputThen(out, shown, stepEv, Output(c, Until(ended, streams), run, next, used + 1));
      sent, steps, out := sent + [history], steps + [Step(resp, results)], out + shown + [stepEv];
      history := next;
      used := used + 1;
    }
  }

  /** One step of the loop, in what it asks and in what it forwards. */
  lemma StreamCases(
    c: Config, ended: nat -> Option<string>, streams: Streams, run: Runner, history: seq<Message>, used: nat,
    sent: seq<seq<Message>>, steps: seq<Step>)
    ensures var open := Until(ended, streams);
      var reply, shown := Reply(open(used, history)), Shown(open(used, history), used == 0);
      var t, out := Then(sent, steps, Loop(c, RepliesOf(open), run, history, used)), Output(c, open, run, history, used);
      match reply
      case Err(e) => t == Trace(sent + [history], steps, Failed(e)) && out == shown
      case Ok(resp) =>
        var calls, held := CallsOf(resp.content), Held(open(used, history));
        if Stops(c, used, calls) then
          && t == Trace(sent + [history], steps + [Step(resp, [])], Done(resp))
          && out == shown + [held.(response := Some(resp))]
        else
          var next := After(c, run, history, used, resp);
          && t == Then(sent + [history], steps + [Step(resp, ResultsOf(c, run, used, calls))],
                       Loop(c, RepliesOf(open), run, next, used + 1))
          && out == shown + [StepEvent(held, resp)] + Output(c, open, run, next, used + 1)
    ensures var stream := Until(ended, streams)(used, history);
      && (ended(used).None? ==> stream == streams(used, history))
      && (ended(used).Some? ==> Reply(stream) == Err(ended(used).value)
                                && Shown(stream, used == 0) == [FailureEvent(ended(used).value)])
  {
    hide Stops, ResultsOf, ToolMessages, CallsOf, After, Held, StepEvent, Loop, Then;
    LoopCases(c, RepliesOf(Until(ended, streams)), run, history, used, sent, steps);
  }

  lemma OutputThen(out: seq<Event>, shown: seq<Event>, ev: Event, rest: seq<Event>)
    ensures out + (shown + [ev] + rest) == out + shown + [ev] + rest
  {
  }

  /**
   * Streaming simulates generating: against models that reply alike, both send the same requests, run the same tool rounds,
   * stop in the same way and end with the same response.
   */
  lemma StreamSimulates(c: Config, replies: Replies, streams: Streams, run: Runner, messages: seq<Message>)
    requires SameReplies(replies, RepliesOf(streams))
    ensures SameRun(Loop(c, replies, run, messages, 0), Loop(c, RepliesOf(streams), run, messages, 0))
  {
    SameLoop(c, replies, RepliesOf(streams), run, messages, 0);
  }
}
