/** The agent session: one user input, worked off in rounds of model replies and tool calls. */
module Session {
  import opened GoStrings
  import A = StreamAccumulator
  import G = Generate

  type Call = A.Call

  /** What came of a call; the model gets `output`, the guards read `full`. */
  datatype Result = Result(callId: string, name: string, output: string, full: string, isError: bool)

  datatype Turn =
    | UserInput(text: string)
    | Steering(text: string)
    | Assistant(text: string, calls: seq<Call>)
    | Tool(callId: string, name: string, output: string, isError: bool)

  datatype Message =
    | SystemMessage(text: string)
    | UserMessage(text: string)
    | AssistantMessage(text: string, calls: seq<Call>)
    | ToolMessage(callId: string, name: string, output: string, isError: bool)

  /** A reply, or an error; only an error of the model's own that cannot be retried closes the session. */
  datatype Reply = Reply(text: string, calls: seq<Call>) | Refused(error: string, retryable: bool)

  /** A filter may veto a call; otherwise the registry runs it. */
  datatype Execution = Vetoed(reason: string) | Ran(output: string, full: string, isError: bool)

  datatype Config = Config(
    maxRounds: nat, maxTurns: int, detectLoops: bool, window: nat, malformedLimit: int, errorLimit: int,
    parallel: bool)

  /**
   * What the session meets: the reply to the n-th request, what the k-th call of that round comes to, the messages
   * steered in at any time of the n-th round (the queue is only read at its end), and whether the caller has given up
   * by then. The digest stands for SHA-256.
   */
  datatype World = World(
    system: string,
    replies: (nat, seq<Message>) -> Reply,
    tools: (nat, nat, Call) -> Execution,
    nudges: nat -> seq<string>,
    cancelled: nat -> bool,
    digest: string -> string)

  const LOOP_WARNING := "Loop detection: you are repeating the same tool calls. Stop and change approach."
  const MALFORMED := "invalid tool arguments JSON"

  function MessageOf(t: Turn): Message {
    match t
    case UserInput(text) => UserMessage(text)
    case Steering(text) => UserMessage(text)
    case Assistant(text, calls) => AssistantMessage(text, calls)
    case Tool(callId, name, output, isError) => ToolMessage(callId, name, output, isError)
  }

  function Request(w: World, history: seq<Turn>): (r: seq<Message>)
    ensures |r| == |history| + 1
  {
    [SystemMessage(w.system)] + seq(|history|, k requires 0 <= k < |history| => MessageOf(history[k]))
  }

  predicate Blank(s: string) { TrimSpace(s) == "" }

  predicate Contains(s: string, t: string) { exists i :: 0 <= i <= |s| && t <= s[i..] }

  /** A call that runs under a blank id is answered under one made up from its arguments. */
  function ResultOf(w: World, n: nat, k: nat, call: Call): Result {
    match w.tools(n, k, call)
    case Vetoed(reason) => Result(call.id, call.name, reason, reason, true)
    case Ran(output, full, isError) =>
      Result(if Blank(call.id) then "call_" + w.digest(call.arguments) else call.id, call.name, output, full, isError)
  }

  function ResultsOf(w: World, n: nat, calls: seq<Call>): (rs: seq<Result>)
    ensures |rs| == |calls|
  {
    seq(|calls|, k requires 0 <= k < |calls| => ResultOf(w, n, k, calls[k]))
  }

  // ---------------------------------------------------------------- fingerprints

  function Mark(w: World, name: string, content: string): (s: string)
    ensures s != ""
  {
    TrimSpace(name) + ":" + w.digest(content) + ";"
  }

  function CallsPrint(w: World, calls: seq<Call>): (fp: string)
    ensures fp == "" <==> calls == []
  {
    if calls == [] then ""
    else
      var c := calls[|calls| - 1];
      CallsPrint(w, calls[..|calls| - 1]) + Mark(w, c.name, c.arguments)
  }

  predicate IsMalformed(r: Result) { r.isError && Contains(r.full, MALFORMED) }

  /** The malformed calls of a round; empty exactly if there are none. */
  function MalformedPrint(w: World, calls: seq<Call>, results: seq<Result>): (fp: string)
    requires |calls| == |results|
    ensures fp == "" <==> forall k :: 0 <= k < |results| ==> !IsMalformed(results[k])
  {
    if calls == [] then ""
    else
      var n := |calls| - 1;
      MalformedPrint(w, calls[..n], results[..n])
      + if IsMalformed(results[n]) then Mark(w, calls[n].name, calls[n].arguments) else ""
  }

  function OutputsPrint(w: World, calls: seq<Call>, results: seq<Result>): (fp: string)
    requires |calls| == |results|
    ensures fp == "" <==> calls == []
  {
    if calls == [] then ""
    else
      var n := |calls| - 1;
      OutputsPrint(w, calls[..n], results[..n]) + Mark(w, calls[n].name, results[n].full)
  }

  /** A round all of whose calls failed; empty exactly if one did not. */
  function ErrorPrint(w: World, calls: seq<Call>, results: seq<Result>): (fp: string)
    requires |calls| == |results| > 0
    ensures fp == "" <==> exists k :: 0 <= k < |results| && !results[k].isError
  {
    if forall k :: 0 <= k < |results| ==> results[k].isError then OutputsPrint(w, calls, results) else ""
  }

  method ToolCallsFingerprint(w: World, calls: seq<Call>) returns (fp: string)
    ensures fp == CallsPrint(w, calls)
  {
    if |calls| == 0 { return ""; }
    fp := "";
    for k := 0 to |calls|
      invariant fp == CallsPrint(w, calls[..k])
    {
      assert calls[..k + 1][..k] == calls[..k];
      fp := fp + (TrimSpace(calls[k].name) + ":" + w.digest(calls[k].arguments) + ";");
    }
    assert calls[..|calls|] == calls;
  }

  method MalformedToolCallsFingerprint(w: World, calls: seq<Call>, results: seq<Result>) returns (fp: string)
    ensures fp == if |calls| == |results| then MalformedPrint(w, calls, results) else ""
  {
    if |calls| == 0 || |calls| != |results| { return ""; }
    fp := "";
    for k := 0 to |calls|
      invariant fp == MalformedPrint(w, calls[..k], results[..k])
    {
      assert calls[..k + 1][..k] == calls[..k] && results[..k + 1][..k] == results[..k];
      if results[k].isError && Contains(results[k].full, MALFORMED) {
        fp := fp + (TrimSpace(calls[k].name) + ":" + w.digest(calls[k].arguments) + ";");
      }
    }
    assert calls[..|calls|] == calls && results[..|calls|] == results;
  }

  method RepeatedErrorToolCallsFingerprint(w: World, calls: seq<Call>, results: seq<Result>) returns (fp: string)
    ensures fp == if |calls| == |results| > 0 then ErrorPrint(w, calls, results) else ""
  {
    if |calls| == 0 || |calls| != |results| { return ""; }
    for k := 0 to |results|
      invariant forall j :: 0 <= j < k ==> results[j].isError
    {
      if !results[k].isError { return ""; }
    }
    fp := "";
    for k := 0 to |calls|
      invariant fp == OutputsPrint(w, calls[..k], results[..k])
    {
      assert calls[..k + 1][..k] == calls[..k] && results[..k + 1][..k] == results[..k];
      assert Mark(w, calls[k].name, results[k].full) == TrimSpace(calls[k].name) + ":" + w.digest(results[k].full) + ";";
      fp := fp + (TrimSpace(calls[k].name) + ":" + w.digest(results[k].full) + ";");
    }
    assert calls[..|calls|] == calls && results[..|calls|] == results;
  }

  // ---------------------------------------------------------------- runs of equal fingerprints

  /** How many of the last fingerprints are the same and not empty. */
  function RunLength(fps: seq<string>): (n: nat)
    ensures n <= |fps|
  {
    if fps == [] || fps[|fps| - 1] == "" then 0
    else if |fps| >= 2 && fps[|fps| - 2] == fps[|fps| - 1] then RunLength(fps[..|fps| - 1]) + 1
    else 1
  }

  /** The last n fingerprints are one and the same, and there is one. */
  predicate EndsInRun(fps: seq<string>, n: nat) {
    && n <= |fps|
    && forall k :: |fps| - n <= k < |fps| ==> fps[k] == fps[|fps| - 1] && fps[k] != ""
  }

  /** The length of the last run reaches n exactly when the last n fingerprints agree. */
  lemma {:induction false} RunReaches(fps: seq<string>, n: nat)
    ensures RunLength(fps) >= n <==> EndsInRun(fps, n)
  {
    if 1 < n <= |fps| {
      RunReaches(fps[..|fps| - 1], n - 1);
      RunShrinks(fps, n);
    }
  }

  lemma RunShrinks(fps: seq<string>, n: nat)
    requires 1 < n <= |fps|
    ensures EndsInRun(fps, n)
       <==> && EndsInRun(fps[..|fps| - 1], n - 1)
            && fps[|fps| - 1] != "" && fps[|fps| - 2] == fps[|fps| - 1]
  {
    var rest := fps[..|fps| - 1];
    assert forall k :: 0 <= k < |rest| ==> rest[k] == fps[k];
    assert EndsInRun(fps, n) ==> fps[|fps| - 2] == fps[|fps| - 1];
    assert EndsInRun(rest, n - 1) ==> forall k :: |fps| - n <= k < |fps| - 1 ==> fps[k] == rest[|rest| - 1];
  }

  lemma RunGrowsByOne(fps: seq<string>, fp: string)
    ensures RunLength(fps + [fp]) <= RunLength(fps) + 1
  {
    assert (fps + [fp])[..|fps|] == fps;
  }

  /** What the pair of locals behind each guard says of the fingerprints so far. */
  ghost predicate Counts(last: string, repeats: nat, fps: seq<string>) {
    && repeats == RunLength(fps)
    && last == if fps == [] then "" else fps[|fps| - 1]
  }

  lemma CountOn(last: string, repeats: nat, fps: seq<string>, fp: string)
    requires Counts(last, repeats, fps)
    ensures Counts(fp, if fp == "" then 0 else if fp == last then repeats + 1 else 1, fps + [fp])
  {
    assert (fps + [fp])[..|fps|] == fps;
  }

  // ---------------------------------------------------------------- the story of an input

  /** A round whose calls were all answered. */
  datatype Round = Round(text: string, calls: seq<Call>, warned: bool, results: seq<Result>, steered: seq<string>)

  function ToolTurns(results: seq<Result>): seq<Turn> {
    if results == [] then []
    else
      var r := results[|results| - 1];
      ToolTurns(results[..|results| - 1]) + [Tool(r.callId, r.name, r.output, r.isError)]
  }

  function SteeringTurns(messages: seq<string>): seq<Turn> {
    if messages == [] then []
    else SteeringTurns(messages[..|messages| - 1]) + [Steering(messages[|messages| - 1])]
  }

  /** A round as far as its tool calls; a loop warning falls between the calls and their answers. */
  function Opening(text: string, calls: seq<Call>, warned: bool): seq<Turn> {
    [Assistant(text, calls)] + if warned then [Steering(LOOP_WARNING)] else []
  }

  function Turns(r: Round): seq<Turn> {
    Opening(r.text, r.calls, r.warned) + ToolTurns(r.results) + SteeringTurns(r.steered)
  }

  function Story(rounds: seq<Round>): seq<Turn> {
    if rounds == [] then [] else Story(rounds[..|rounds| - 1]) + Turns(rounds[|rounds| - 1])
  }

  datatype End =
    | WasClosed
    | Cancelled
    | TurnLimit
    | ModelFailed(error: string, retryable: bool)
    | Replied(text: string)
    | MalformedLoop(repeats: nat)
    | FailingLoop(repeats: nat)
    | RoundsSpent
  {
    predicate Guarded() { MalformedLoop? || FailingLoop? }
  }

  /**
   * How an input went: the rounds completed, the number of rounds begun and of requests sent, the turns of a round
   * left unfinished, the steering still queued, and the end.
   */
  datatype Trace = Trace(
    rounds: seq<Round>, begun: nat, requests: nat, tail: seq<Turn>, queue: seq<string>, end: End)

  function CallPrints(w: World, rounds: seq<Round>): (fps: seq<string>)
    ensures |fps| == |rounds|
  {
    seq(|rounds|, k requires 0 <= k < |rounds| => CallsPrint(w, rounds[k].calls))
  }

  predicate Complete(r: Round) { r.calls != [] && |r.results| == |r.calls| }

  function MalformedPrints(w: World, rounds: seq<Round>): (fps: seq<string>)
    requires forall r :: r in rounds ==> Complete(r)
    ensures |fps| == |rounds|
  {
    seq(|rounds|, k requires 0 <= k < |rounds| =>
      assert Complete(rounds[k]); MalformedPrint(w, rounds[k].calls, rounds[k].results))
  }

  function ErrorPrints(w: World, rounds: seq<Round>): (fps: seq<string>)
    requires forall r :: r in rounds ==> Complete(r)
    ensures |fps| == |rounds|
  {
    seq(|rounds|, k requires 0 <= k < |rounds| =>
      assert Complete(rounds[k]); ErrorPrint(w, rounds[k].calls, rounds[k].results))
  }

  predicate WarnedIn(rounds: seq<Round>) { exists r :: r in rounds && r.warned }

  /** A warning is due once, when the calls have repeated often enough. */
  predicate WarningDue(w: World, c: Config, past: seq<Round>, calls: seq<Call>) {
    c.detectLoops && !WarnedIn(past) && RunLength(CallPrints(w, past) + [CallsPrint(w, calls)]) >= c.window
  }

  predicate Reached(limit: int, repeats: nat) { limit > 0 && repeats >= limit }

  function Kept(messages: seq<string>): seq<string> {
    if messages == [] then []
    else
      Kept(messages[..|messages| - 1])
      + if Blank(messages[|messages| - 1]) then [] else [messages[|messages| - 1]]
  }

  /** An input worked off as it should be, judging each round by all the rounds before it and keeping no counters. */
  function Play(w: World, c: Config, start: seq<Turn>, turns: nat, queue: seq<string>, past: seq<Round>): Trace
    requires forall r :: r in past ==> Complete(r)
    decreases c.maxRounds - |past|
  {
    var n := turns + |past| + 1;
    var waiting := queue + Kept(w.nudges(n));
    if |past| >= c.maxRounds then Trace(past, |past|, |past|, [], queue, RoundsSpent)
    else if w.cancelled(turns + |past|) then Trace(past, |past|, |past|, [], waiting, Cancelled)
    else if c.maxTurns > 0 && n > c.maxTurns then Trace(past, |past| + 1, |past|, [], waiting, TurnLimit)
    else
      match w.replies(n, Request(w, start + Story(past)))
      case Refused(error, retryable) =>
        Trace(past, |past| + 1, |past| + 1, [], waiting, ModelFailed(error, retryable))
      case Reply(text, calls) =>
        if calls == [] then Trace(past, |past| + 1, |past| + 1, [Assistant(text, [])], waiting, Replied(text))
        else
          var warned := WarningDue(w, c, past, calls);
          var results := ResultsOf(w, n, calls);
          var malformed := RunLength(MalformedPrints(w, past) + [MalformedPrint(w, calls, results)]);
          var failing := RunLength(ErrorPrints(w, past) + [ErrorPrint(w, calls, results)]);
          if Reached(c.malformedLimit, malformed) then
            Trace(past, |past| + 1, |past| + 1, Opening(text, calls, warned), waiting, MalformedLoop(malformed))
          else if Reached(c.errorLimit, failing) then
            Trace(past, |past| + 1, |past| + 1, Opening(text, calls, warned), waiting, FailingLoop(failing))
          else Play(w, c, start, turns, [], past + [Round(text, calls, warned, results, waiting)])
  }

  function After(start: seq<Turn>, t: Trace): seq<Turn> { start + Story(t.rounds) + t.tail }

  lemma OneMoreRound(w: World, past: seq<Round>, r: Round)
    requires Complete(r) && forall p :: p in past ==> Complete(p)
    ensures CallPrints(w, past + [r]) == CallPrints(w, past) + [CallsPrint(w, r.calls)]
    ensures MalformedPrints(w, past + [r]) == MalformedPrints(w, past) + [MalformedPrint(w, r.calls, r.results)]
    ensures ErrorPrints(w, past + [r]) == ErrorPrints(w, past) + [ErrorPrint(w, r.calls, r.results)]
    ensures WarnedIn(past + [r]) == (WarnedIn(past) || r.warned)
    ensures Story(past + [r]) == Story(past) + Turns(r)
  {
    hide CallsPrint, MalformedPrint, ErrorPrint, Turns;
    assert (past + [r])[..|past|] == past;
    assert r in past + [r];
    assert forall p :: p in past ==> p in past + [r];
  }

  lemma TurnsJoined(start: seq<Turn>, past: seq<Round>, r: Round)
    ensures start + Story(past) + Opening(r.text, r.calls, r.warned) + ToolTurns(r.results) + SteeringTurns(r.steered)
         == start + (Story(past) + Turns(r))
  {
    hide Story, Opening, ToolTurns, SteeringTurns;
  }

  /** The locals of the round loop, and what they say of the rounds so far. */
  datatype Counters = Counters(
    toolFP: string, repeats: nat, warned: bool,
    malformedFP: string, malformedRepeats: nat, errorFP: string, errorRepeats: nat)
  {
    ghost predicate Track(w: World, c: Config, past: seq<Round>)
      requires forall r :: r in past ==> Complete(r)
    {
      && Counts(malformedFP, malformedRepeats, MalformedPrints(w, past))
      && Counts(errorFP, errorRepeats, ErrorPrints(w, past))
      && warned == WarnedIn(past)
      && (c.detectLoops && !warned ==> Counts(toolFP, repeats, CallPrints(w, past)))
    }
  }

  lemma NoRounds(w: World, c: Config)
    ensures Story([]) == [] && Counters("", 0, false, "", 0, "", 0).Track(w, c, [])
  {
  }

  lemma OpeningJoined(h: seq<Turn>, text: string, calls: seq<Call>, warned: bool)
    ensures h + Opening(text, calls, warned)
         == if warned then h + [Assistant(text, calls)] + [Steering(LOOP_WARNING)] else h + [Assistant(text, calls)]
  {
  }

  /** The ends that leave no turns behind, and the plain reply. */
  lemma PlayEnds(w: World, c: Config, start: seq<Turn>, turns: nat, queue: seq<string>, past: seq<Round>)
    requires forall r :: r in past ==> Complete(r)
    ensures |past| >= c.maxRounds ==>
      Play(w, c, start, turns, queue, past) == Trace(past, |past|, |past|, [], queue, RoundsSpent)
    ensures |past| < c.maxRounds && w.cancelled(turns + |past|) ==>
      var waiting := queue + Kept(w.nudges(turns + |past| + 1));
      Play(w, c, start, turns, queue, past) == Trace(past, |past|, |past|, [], waiting, Cancelled)
    ensures |past| < c.maxRounds && !w.cancelled(turns + |past|) ==>
      var n := turns + |past| + 1;
      var waiting := queue + Kept(w.nudges(n));
      if c.maxTurns > 0 && n > c.maxTurns then
        Play(w, c, start, turns, queue, past) == Trace(past, |past| + 1, |past|, [], waiting, TurnLimit)
      else
        match w.replies(n, Request(w, start + Story(past)))
        case Refused(error, retryable) =>
          Play(w, c, start, turns, queue, past)
          == Trace(past, |past| + 1, |past| + 1, [], waiting, ModelFailed(error, retryable))
        case Reply(text, calls) => calls == [] ==>
          Play(w, c, start, turns, queue, past)
          == Trace(past, |past| + 1, |past| + 1, [Assistant(text, [])], waiting, Replied(text))
  {
    hide Request, Story, WarningDue, ResultsOf, Kept, Opening, RunLength, Reached;
    hide MalformedPrint, MalformedPrints, ErrorPrint, ErrorPrints;
  }

  predicate Asks(w: World, c: Config, start: seq<Turn>, turns: nat, past: seq<Round>, text: string, calls: seq<Call>) {
    var n := turns + |past| + 1;
    && |past| < c.maxRounds
    && !w.cancelled(turns + |past|)
    && !(c.maxTurns > 0 && n > c.maxTurns)
    && w.replies(n, Request(w, start + Story(past))) == Reply(text, calls)
    && calls != []
  }

  /** A round with tool calls, judged by counters that stand for the fingerprints so far. */
  lemma PlayGuards(w: World, c: Config, start: seq<Turn>, turns: nat, queue: seq<string>, past: seq<Round>, r: Round,
                   malformedFP: string, malformed: nat, errorFP: string, errors: nat)
    requires forall p :: p in past ==> Complete(p)
    requires Asks(w, c, start, turns, past, r.text, r.calls)
    requires r.warned == WarningDue(w, c, past, r.calls) && r.results == ResultsOf(w, turns + |past| + 1, r.calls)
    requires r.steered == queue + Kept(w.nudges(turns + |past| + 1))
    ensures Complete(r)
    ensures Counts(malformedFP, malformed, MalformedPrints(w, past) + [MalformedPrint(w, r.calls, r.results)])
            && Reached(c.malformedLimit, malformed) ==>
      Play(w, c, start, turns, queue, past)
      == Trace(past, |past| + 1, |past| + 1, Opening(r.text, r.calls, r.warned), r.steered, MalformedLoop(malformed))
    ensures Counts(malformedFP, malformed, MalformedPrints(w, past) + [MalformedPrint(w, r.calls, r.results)])
            && Counts(errorFP, errors, ErrorPrints(w, past) + [ErrorPrint(w, r.calls, r.results)])
            && !Reached(c.malformedLimit, malformed) ==>
      Play(w, c, start, turns, queue, past)
      == if Reached(c.errorLimit, errors) then
           Trace(past, |past| + 1, |past| + 1, Opening(r.text, r.calls, r.warned), r.steered, FailingLoop(errors))
         else Play(w, c, start, turns, [], past + [r])
  {
    hide Request, Story, WarningDue, ResultsOf, Kept, Opening, RunLength, Reached;
    hide MalformedPrint, MalformedPrints, ErrorPrint, ErrorPrints;
  }

  // ---------------------------------------------------------------- the session

  class Session {
    const config: Config
    var history: seq<Turn>
    var turns: nat
    var steeringQueue: seq<string>
    var closed: bool

    constructor (c: Config)
      ensures config == c && history == [] && turns == 0 && steeringQueue == [] && !closed
    {
      config, history, turns, steeringQueue, closed := c, [], 0, [], false;
    }

    method Close()
      modifies this`closed
      ensures closed
    {
      if closed { return; }
      closed := true;
    }

    method Steer(msg: string)
      modifies this`steeringQueue
      ensures steeringQueue == if closed then old(steeringQueue) else old(steeringQueue) + Kept([msg])
    {
      if closed { return; }
      if TrimSpace(msg) == "" { return; }
      steeringQueue := steeringQueue + [msg];
    }

    method DrainSteering() returns (out: seq<string>)
      modifies this`steeringQueue
      ensures out == old(steeringQueue) && steeringQueue == []
    {
      if |steeringQueue| == 0 { return []; }
      out := steeringQueue;
      steeringQueue := [];
    }

    method ExecTool(w: World, n: nat, k: nat, call: Call) returns (r: Result)
      ensures r == ResultOf(w, n, k, call)
    {
      match w.tools(n, k, call)
      case Vetoed(reason) => return Result(call.id, call.name, reason, reason, true);
      case Ran(output, full, isError) =>
        var callId := call.id;
        if TrimSpace(callId) == "" {
          callId := "call_" + w.digest(call.arguments);
        }
        return Result(callId, call.name, output, full, isError);
    }

    /** The calls of a round, all at once in any order if the profile allows it; each fills its own place. */
    method ExecTools(w: World, n: nat, calls: seq<Call>) returns (results: seq<Result>)
      ensures results == ResultsOf(w, n, calls)
    {
      results := seq(|calls|, _ => Result("", "", "", "", false));
      if config.parallel && |calls| > 1 {
        var running := G.Below(|calls|);
        while running != {}
          invariant |results| == |calls|
          invariant running <= G.Below(|calls|)
          invariant forall k :: 0 <= k < |calls| && k !in running ==> results[k] == ResultOf(w, n, k, calls[k])
          decreases running
        {
          var i :| i in running;
          var r := ExecTool(w, n, i, calls[i]);
          results := results[i := r];
          running := running - {i};
        }
      } else {
        for i := 0 to |calls|
          invariant |results| == |calls|
          invariant forall k :: 0 <= k < i ==> results[k] == ResultOf(w, n, k, calls[k])
        {
          var r := ExecTool(w, n, i, calls[i]);
          results := results[i := r];
        }
      }
    }

    /** The messages others steer in during a round. */
    method TakeNudges(messages: seq<string>)
      requires !closed
      modifies this`steeringQueue
      ensures steeringQueue == old(steeringQueue) + Kept(messages)
    {
      for k := 0 to |messages|
        invariant steeringQueue == old(steeringQueue) + Kept(messages[..k])
      {
        assert messages[..k + 1][..k] == messages[..k];
        Steer(messages[k]);
      }
      assert messages[..|messages|] == messages;
    }

    method AppendResults(results: seq<Result>)
      modifies this`history
      ensures history == old(history) + ToolTurns(results)
    {
      for k := 0 to |results|
        invariant history == old(history) + ToolTurns(results[..k])
      {
        assert results[..k + 1][..k] == results[..k];
        history := history + [Tool(results[k].callId, results[k].name, results[k].output, results[k].isError)];
      }
      assert results[..|results|] == results;
    }

    method InjectSteering()
      modifies this`history, this`steeringQueue
      ensures history == old(history) + SteeringTurns(old(steeringQueue)) && steeringQueue == []
    {
      var queued := DrainSteering();
      for k := 0 to |queued|
        invariant steeringQueue == [] && history == old(history) + SteeringTurns(queued[..k])
      {
        assert queued[..k + 1][..k] == queued[..k];
        history := history + [Steering(queued[k])];
      }
      assert queued[..|queued|] == queued;
    }

    /** Counts the calls' fingerprint and, if they have repeated long enough, puts a warning in the history. */
    method DetectLoop(w: World, calls: seq<Call>, last: string, repeats: nat, ghost fps: seq<string>)
      returns (last': string, repeats': nat)
      requires Counts(last, repeats, fps) && calls != []
      modifies this`history
      ensures Counts(last', repeats', fps + [CallsPrint(w, calls)])
      ensures history == if repeats' >= config.window then old(history) + [Steering(LOOP_WARNING)] else old(history)
    {
      var fp := ToolCallsFingerprint(w, calls);
      CountOn(last, repeats, fps, fp);
      if fp != "" && fp == last {
        last', repeats' := last, repeats + 1;
      } else {
        last', repeats' := fp, 1;
      }
      if repeats' >= config.window {
        history := history + [Steering(LOOP_WARNING)];
      }
    }

    /** Counts a round's fingerprint for a guard; a round without one starts over. */
    method Tally(last: string, repeats: nat, fp: string, ghost fps: seq<string>) returns (repeats': nat)
      requires Counts(last, repeats, fps)
      ensures Counts(fp, repeats', fps + [fp])
    {
      CountOn(last, repeats, fps, fp);
      if fp != "" {
        if fp == last {
          repeats' := repeats + 1;
        } else {
          repeats' := 1;
        }
      } else {
        repeats' := 0;
      }
    }

    /** A round after the model has asked for tools: warn, run them, let the guards judge, and record the answers. */
    method ToolRound(w: World, text: string, calls: seq<Call>, k: Counters,
                     ghost start: seq<Turn>, ghost before: nat, ghost queue: seq<string>, ghost past: seq<Round>)
      returns (end: Option<End>, k': Counters, ghost r: Round)
      requires !closed && turns == before + |past| + 1 && calls != []
      requires forall p :: p in past ==> Complete(p)
      requires Asks(w, config, start, before, past, text, calls)
      requires history == start + Story(past) + [Assistant(text, calls)]
      requires k.Track(w, config, past) && steeringQueue == queue + Kept(w.nudges(turns))
      modifies this`history, this`steeringQueue
      ensures Complete(r)
      ensures end.None? ==> k'.Track(w, config, past + [r]) && history == start + Story(past + [r])
      ensures end.None? ==>
        Play(w, config, start, before, queue, past) == Play(w, config, start, before, steeringQueue, past + [r])
      ensures end.Some? ==>
        var t := Play(w, config, start, before, queue, past);
        && end.value == t.end && history == After(start, t) && steeringQueue == t.queue
        && t.begun == |past| + 1 && !t.end.ModelFailed?
    {
      hide Story, Turns, Opening, ToolTurns, SteeringTurns, Kept, Request, ResultOf, ResultsOf, RunLength, Asks;
      hide CallsPrint, MalformedPrint, ErrorPrint, CallPrints, MalformedPrints, ErrorPrints, WarnedIn, Play;
      k' := k;
      if config.detectLoops && !k.warned {
        var toolFP, repeats := DetectLoop(w, calls, k.toolFP, k.repeats, CallPrints(w, past));
        k' := k'.(toolFP := toolFP, repeats := repeats, warned := repeats >= config.window);
      }
      ghost var warned := WarningDue(w, config, past, calls);
      OpeningJoined(start + Story(past), text, calls, warned);
      var results := ExecTools(w, turns, calls);
      r := Round(text, calls, warned, results, steeringQueue);
      OneMoreRound(w, past, r);

      var malformedFP := MalformedToolCallsFingerprint(w, calls, results);
      var malformed := Tally(k.malformedFP, k.malformedRepeats, malformedFP, MalformedPrints(w, past));
      if Reached(config.malformedLimit, malformed) {
        PlayGuards(w, config, start, before, queue, past, r, malformedFP, malformed, "", 0);
        return Some(MalformedLoop(malformed)), k', r;
      }

      var errorFP := RepeatedErrorToolCallsFingerprint(w, calls, results);
      var errors := Tally(k.errorFP, k.errorRepeats, errorFP, ErrorPrints(w, past));
      PlayGuards(w, config, start, before, queue, past, r, malformedFP, malformed, errorFP, errors);
      if Reached(config.errorLimit, errors) {
        return Some(FailingLoop(errors)), k', r;
      }
      k' := k'.(malformedFP := malformedFP, malformedRepeats := malformed, errorFP := errorFP, errorRepeats := errors);
      AppendResults(results);
      InjectSteering();
      TurnsJoined(start, past, r);
      end := None;
    }

    /** A round up to the model's answer: it ends the input, or its calls are on record and yet to be run. */
    method AskModel(w: World, ghost start: seq<Turn>, ghost before: nat, ghost past: seq<Round>)
      returns (end: Option<End>, reply: Reply)
      requires !closed && turns == before + |past| && |past| < config.maxRounds
      requires history == start + Story(past) && forall r :: r in past ==> Complete(r)
      modifies this`closed, this`turns, this`history, this`steeringQueue
      ensures end.None? ==>
        && reply.Reply? && reply.calls != [] && Asks(w, config, start, before, past, reply.text, reply.calls)
        && !closed && turns == before + |past| + 1 && history == start + Story(past) + [Assistant(reply.text, reply.calls)]
        && steeringQueue == old(steeringQueue) + Kept(w.nudges(turns))
      ensures end.Some? ==>
        var t := Play(w, config, start, before, old(steeringQueue), past);
        && end.value == t.end && history == After(start, t) && turns == before + t.begun && steeringQueue == t.queue
        && closed == (t.end.ModelFailed? && !t.end.retryable)
    {
      hide Story, Request, Play, Kept, Complete;
      reply := Refused("", false);
      assert history + [] == history;
      PlayEnds(w, config, start, before, steeringQueue, past);
      TakeNudges(w.nudges(turns + 1));
      if w.cancelled(turns) {
        return Some(Cancelled), reply;
      }
      turns := turns + 1;
      if config.maxTurns > 0 && turns > config.maxTurns {
        return Some(TurnLimit), reply;
      }
      reply := w.replies(turns, Request(w, history));
      if reply.Refused? {
        if !reply.retryable { Close(); }
        return Some(ModelFailed(reply.error, reply.retryable)), reply;
      }
      history := history + [Assistant(reply.text, reply.calls)];
      if |reply.calls| == 0 {
        return Some(Replied(reply.text)), reply;
      }
      end := None;
    }

    /** Works off one input; `gone` says whether the caller had given up before it began. */
    method ProcessOneInput(w: World, input: string, gone: bool) returns (end: End)
      modifies this
      ensures old(closed) ==> end == WasClosed
      ensures !old(closed) && gone ==> end == Cancelled
      ensures old(closed) || gone ==> unchanged(this)
      ensures !old(closed) && !gone ==>
        var start := old(history) + [UserInput(input)];
        var t := Play(w, config, start, old(turns), old(steeringQueue), []);
        && end == t.end
        && history == After(start, t)
        && turns == old(turns) + t.begun
        && steeringQueue == t.queue
        && closed == (t.end.ModelFailed? && !t.end.retryable)
    {
      hide Story, Request, Play, Counters.Track, Kept, Complete;
      if closed { return WasClosed; }
      if gone { return Cancelled; }
      history := history + [UserInput(input)];
      ghost var start := history;
      ghost var past: seq<Round> := [];
      ghost var all := Play(w, config, start, turns, steeringQueue, []);
      var k := Counters("", 0, false, "", 0, "", 0);
      NoRounds(w, config);
      assert start + Story([]) == start;
      for round := 0 to config.maxRounds
        invariant |past| == round && !closed && turns == old(turns) + round
        invariant forall r :: r in past ==> Complete(r)
        invariant history == start + Story(past)
        invariant Play(w, config, start, old(turns), steeringQueue, past) == all
        invariant k.Track(w, config, past)
      {
        ghost var queue := steeringQueue;
        var stop, reply := AskModel(w, start, old(turns), past);
        if stop.Some? {
          return stop.value;
        }
        ghost var r;
        stop, k, r := ToolRound(w, reply.text, reply.calls, k, start, old(turns), queue, past);
        if stop.Some? {
          return stop.value;
        }
        past := past + [r];
      }
      assert history + [] == history;
      PlayEnds(w, config, start, old(turns), steeringQueue, past);
      return RoundsSpent;
    }
  }
}
