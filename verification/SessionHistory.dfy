/** What the histories of a session look like to the model, over one input and over many. */
module SessionHistory {
  import opened GoStrings
  import opened Session

  /** How exact to be: must the answers follow their calls at once, and must they carry the calls' own ids? */
  datatype Rule = Rule(adjacent: bool, sameId: bool)

  /** Nothing owed, some calls still to be answered in this order, or past repair. */
  datatype Phase = Clear | Owing(calls: seq<Call>) | Lost

  predicate Answers(rule: Rule, call: Call, callId: string, name: string) {
    name == call.name && (rule.sameId ==> callId == call.id)
  }

  function Next(rule: Rule, p: Phase, t: Turn): Phase {
    match t
    case UserInput(_) => if p.Clear? then Clear else Lost
    case Steering(_) => if p.Owing? && rule.adjacent then Lost else p
    case Assistant(_, calls) => if !p.Clear? then Lost else if calls == [] then Clear else Owing(calls)
    case Tool(callId, name, _, _) =>
      if p.Owing? && p.calls != [] && Answers(rule, p.calls[0], callId, name) then
        if |p.calls| == 1 then Clear else Owing(p.calls[1..])
      else Lost
  }

  function From(rule: Rule, p: Phase, h: seq<Turn>): Phase {
    if h == [] then p else Next(rule, From(rule, p, h[..|h| - 1]), h[|h| - 1])
  }

  /** Where a history leaves the conversation; it may be sent to the model when it is clear. */
  function Standing(rule: Rule, h: seq<Turn>): Phase { From(rule, Clear, h) }

  lemma {:induction false} FromJoin(rule: Rule, p: Phase, a: seq<Turn>, b: seq<Turn>)
    ensures From(rule, p, a + b) == From(rule, From(rule, p, a), b)
  {
    if b == [] {
      assert a + b == a;
    } else {
      var n := |b| - 1;
      FromJoin(rule, p, a, b[..n]);
      assert (a + b)[..|a| + n] == a + b[..n];
    }
  }

  lemma {:induction false} LostForGood(rule: Rule, h: seq<Turn>)
    ensures From(rule, Lost, h) == Lost
  {
    if h != [] {
      LostForGood(rule, h[..|h| - 1]);
    }
  }

  lemma {:induction false} SteeringIsHarmless(rule: Rule, p: Phase, messages: seq<string>)
    requires !p.Owing?
    ensures From(rule, p, SteeringTurns(messages)) == p
  {
    if messages != [] {
      var n := |messages| - 1;
      SteeringIsHarmless(rule, p, messages[..n]);
      assert SteeringTurns(messages)[..|SteeringTurns(messages)| - 1] == SteeringTurns(messages[..n]);
    }
  }

  predicate AnswersAll(rule: Rule, calls: seq<Call>, results: seq<Result>)
    requires |results| <= |calls|
  {
    forall k :: 0 <= k < |results| ==> Answers(rule, calls[k], results[k].callId, results[k].name)
  }

  /** Answers in call order settle the calls one by one. */
  lemma {:induction false} ToolsSettle(rule: Rule, calls: seq<Call>, results: seq<Result>)
    requires 0 < |calls| && |results| <= |calls|
    ensures From(rule, Owing(calls), ToolTurns(results))
         == if !AnswersAll(rule, calls, results) then Lost
            else if |results| == |calls| then Clear
            else Owing(calls[|results|..])
  {
    hide Answers, AnswersAll, From, ToolTurns;
    NoneSettled(rule, calls);
    if results == [] {
      assert calls[0..] == calls;
    } else {
      var n := |results| - 1;
      ToolsSettle(rule, calls, results[..n]);
      OneMoreAnswer(rule, Owing(calls), calls, results);
      assert calls[n..][0] == calls[n] && calls[n..][1..] == calls[n + 1..];
    }
  }

  lemma NoneSettled(rule: Rule, calls: seq<Call>)
    ensures From(rule, Owing(calls), ToolTurns([])) == Owing(calls) && AnswersAll(rule, calls, [])
  {
  }

  lemma OneMoreAnswer(rule: Rule, p: Phase, calls: seq<Call>, results: seq<Result>)
    requires 0 < |results| <= |calls|
    ensures var n := |results| - 1;
      var r := results[n];
      && From(rule, p, ToolTurns(results))
         == Next(rule, From(rule, p, ToolTurns(results[..n])), Tool(r.callId, r.name, r.output, r.isError))
      && (AnswersAll(rule, calls, results)
          <==> AnswersAll(rule, calls, results[..n]) && Answers(rule, calls[n], r.callId, r.name))
  {
    hide Answers, Next;
    var n := |results| - 1;
    var before := results[..n];
    assert ToolTurns(results)[..|ToolTurns(results)| - 1] == ToolTurns(before);
    assert forall k :: 0 <= k < n ==> before[k] == results[k];
  }

  /** A completed round that leaves the history clear. */
  predicate Fits(rule: Rule, r: Round)
    requires Complete(r)
  {
    (rule.adjacent ==> !r.warned) && AnswersAll(rule, r.calls, r.results)
  }

  lemma OpeningOwes(rule: Rule, text: string, calls: seq<Call>, warned: bool)
    requires calls != []
    ensures From(rule, Clear, Opening(text, calls, warned)) == if rule.adjacent && warned then Lost else Owing(calls)
  {
    var one := [Assistant(text, calls)];
    assert one[..0] == [] && From(rule, Clear, one) == Owing(calls);
    if warned {
      var warning := [Steering(LOOP_WARNING)];
      FromJoin(rule, Clear, one, warning);
      assert warning[..0] == [] && From(rule, Owing(calls), warning[..0]) == Owing(calls);
    } else {
      assert Opening(text, calls, warned) == one;
    }
  }

  lemma RoundStands(rule: Rule, r: Round)
    requires Complete(r)
    ensures From(rule, Clear, Turns(r)) == if Fits(rule, r) then Clear else Lost
  {
    hide From, Opening, ToolTurns, SteeringTurns;
    var opening := Opening(r.text, r.calls, r.warned);
    OpeningOwes(rule, r.text, r.calls, r.warned);
    FromJoin(rule, Clear, opening, ToolTurns(r.results));
    ToolsSettle(rule, r.calls, r.results);
    LostForGood(rule, ToolTurns(r.results));
    FromJoin(rule, Clear, opening + ToolTurns(r.results), SteeringTurns(r.steered));
    SteeringIsHarmless(rule, From(rule, Clear, opening + ToolTurns(r.results)), r.steered);
  }

  lemma {:induction false} StoryStands(rule: Rule, rounds: seq<Round>)
    requires forall r :: r in rounds ==> Complete(r)
    ensures From(rule, Clear, Story(rounds)) == if forall r :: r in rounds ==> Fits(rule, r) then Clear else Lost
  {
    hide Turns, Fits;
    if rounds != [] {
      var n := |rounds| - 1;
      var (past, r) := (rounds[..n], rounds[n]);
      StoryStands(rule, past);
      FromJoin(rule, Clear, Story(past), Turns(r));
      RoundStands(rule, r);
      LostForGood(rule, Turns(r));
      assert rounds == past + [r];
    }
  }

  /** A round as the session plays it: which calls were run, when it warned, and that no guard had cause to stop it. */
  predicate Genuine(w: World, c: Config, turns: nat, past: seq<Round>, r: Round)
    requires forall p :: p in past ==> Complete(p)
  {
    && Complete(r)
    && r.results == ResultsOf(w, turns + |past| + 1, r.calls)
    && r.warned == WarningDue(w, c, past, r.calls)
    && !Reached(c.malformedLimit, RunLength(MalformedPrints(w, past + [r])))
    && !Reached(c.errorLimit, RunLength(ErrorPrints(w, past + [r])))
  }

  predicate AllComplete(rounds: seq<Round>) { forall r :: r in rounds ==> Complete(r) }

  predicate AllGenuine(w: World, c: Config, turns: nat, rounds: seq<Round>) {
    AllComplete(rounds) && forall i :: 0 <= i < |rounds| ==> Genuine(w, c, turns, rounds[..i], rounds[i])
  }

  lemma GenuineSoFar(w: World, c: Config, turns: nat, past: seq<Round>, r: Round)
    requires AllGenuine(w, c, turns, past) && Genuine(w, c, turns, past, r)
    ensures AllGenuine(w, c, turns, past + [r])
  {
    hide Genuine;
    var rounds := past + [r];
    assert Complete(r) by { GenuineIsComplete(w, c, turns, past, r); }
    forall i | 0 <= i < |rounds|
      ensures Genuine(w, c, turns, rounds[..i], rounds[i])
    {
      if i < |past| {
        assert rounds[..i] == past[..i];
      } else {
        assert rounds[..i] == past;
      }
    }
  }

  lemma GenuineIsComplete(w: World, c: Config, turns: nat, past: seq<Round>, r: Round)
    requires AllComplete(past) && Genuine(w, c, turns, past, r)
    ensures Complete(r)
  {
  }

  /** The calls the model made last, when an input ends within a round. */
  function LastCalls(t: Trace): seq<Call> {
    if t.tail != [] && t.tail[0].Assistant? then t.tail[0].calls else []
  }

  /** What the model says to the request after some rounds. */
  function ReplyTo(w: World, start: seq<Turn>, turns: nat, rounds: seq<Round>): Reply {
    w.replies(turns + |rounds| + 1, Request(w, start + Story(rounds)))
  }

  /** The input ended between a reply's calls and their answers. */
  predicate Unanswered(w: World, c: Config, start: seq<Turn>, turns: nat, t: Trace) {
    && LastCalls(t) != []
    && ReplyTo(w, start, turns, t.rounds) == Reply(t.tail[0].text, LastCalls(t))
    && t.tail == Opening(t.tail[0].text, LastCalls(t), WarningDue(w, c, t.rounds, LastCalls(t)))
  }

  /** The end has the cause it names. */
  predicate WellEnded(w: World, c: Config, start: seq<Turn>, turns: nat, t: Trace)
    requires AllComplete(t.rounds)
  {
    var n := turns + |t.rounds| + 1;
    var calls := LastCalls(t);
    var results := ResultsOf(w, n, calls);
    var malformed := RunLength(MalformedPrints(w, t.rounds) + [MalformedPrint(w, calls, results)]);
    && |t.rounds| <= t.requests <= |t.rounds| + 1 && t.requests <= t.begun <= c.maxRounds
    && match t.end
       case WasClosed => false
       case Cancelled => t.tail == [] && w.cancelled(turns + |t.rounds|)
       case TurnLimit => t.tail == [] && 0 < c.maxTurns < n
       case RoundsSpent => t.tail == [] && |t.rounds| == c.maxRounds
       case ModelFailed(e, again) => t.tail == [] && ReplyTo(w, start, turns, t.rounds) == Refused(e, again)
       case Replied(text) =>
         t.tail == [Assistant(text, [])] && ReplyTo(w, start, turns, t.rounds) == Reply(text, [])
       case MalformedLoop(k) =>
         && Unanswered(w, c, start, turns, t)
         && k == malformed && Reached(c.malformedLimit, k)
       case FailingLoop(k) =>
         && Unanswered(w, c, start, turns, t)
         && k == RunLength(ErrorPrints(w, t.rounds) + [ErrorPrint(w, calls, results)])
         && Reached(c.errorLimit, k) && !Reached(c.malformedLimit, malformed)
  }

  lemma EndsWell(w: World, c: Config, start: seq<Turn>, turns: nat, queue: seq<string>, past: seq<Round>)
    requires AllComplete(past) && |past| <= c.maxRounds
    requires forall text, calls :: !Asks(w, c, start, turns, past, text, calls)
    ensures var t := Play(w, c, start, turns, queue, past);
      t.rounds == past && WellEnded(w, c, start, turns, t)
  {
    hide Play, Story, Request, ResultsOf, RunLength, WarningDue;
    hide MalformedPrint, MalformedPrints, ErrorPrint, ErrorPrints;
    PlayEnds(w, c, start, turns, queue, past);
    var reply := ReplyTo(w, start, turns, past);
    if reply.Reply? {
      assert !Asks(w, c, start, turns, past, reply.text, reply.calls);
    }
  }

  lemma GuardEndsWell(w: World, c: Config, start: seq<Turn>, turns: nat, queue: seq<string>, past: seq<Round>, r: Round)
    requires AllComplete(past) && Asks(w, c, start, turns, past, r.text, r.calls)
    requires r == Round(r.text, r.calls, WarningDue(w, c, past, r.calls),
                        ResultsOf(w, turns + |past| + 1, r.calls), queue + Kept(w.nudges(turns + |past| + 1)))
    ensures Complete(r)
    ensures var t := Play(w, c, start, turns, queue, past);
      if Genuine(w, c, turns, past, r) then t == Play(w, c, start, turns, [], past + [r])
      else t.rounds == past && WellEnded(w, c, start, turns, t)
  {
    hide Play, Story, Request, ResultsOf, RunLength, WarningDue, Kept, Reached;
    hide MalformedPrint, MalformedPrints, ErrorPrint, ErrorPrints, CallPrints, CallsPrint;
    assert Complete(r);
    OneMoreRound(w, past, r);
    var ms := MalformedPrints(w, past) + [MalformedPrint(w, r.calls, r.results)];
    var es := ErrorPrints(w, past) + [ErrorPrint(w, r.calls, r.results)];
    PlayGuards(w, c, start, turns, queue, past, r, ms[|past|], RunLength(ms), es[|past|], RunLength(es));
  }

  /** Every round played is genuine, and the end has the cause it names. */
  lemma {:induction false} PlayIsGenuine(
    w: World, c: Config, start: seq<Turn>, turns: nat, queue: seq<string>, past: seq<Round>)
    requires AllGenuine(w, c, turns, past) && |past| <= c.maxRounds
    ensures var t := Play(w, c, start, turns, queue, past);
      AllGenuine(w, c, turns, t.rounds) && AllComplete(t.rounds) && WellEnded(w, c, start, turns, t)
    decreases c.maxRounds - |past|
  {
    hide AllGenuine, Genuine, Play, WellEnded, Asks;
    GenuineAreComplete(w, c, turns, past);
    if text, calls :| Asks(w, c, start, turns, past, text, calls) {
      AskedInTime(w, c, start, turns, past, text, calls);
      var n := turns + |past| + 1;
      var warned := WarningDue(w, c, past, calls);
      var r := Round(text, calls, warned, ResultsOf(w, n, calls), queue + Kept(w.nudges(n)));
      GuardEndsWell(w, c, start, turns, queue, past, r);
      if Genuine(w, c, turns, past, r) {
        GenuineSoFar(w, c, turns, past, r);
        PlayIsGenuine(w, c, start, turns, [], past + [r]);
      }
    } else {
      EndsWell(w, c, start, turns, queue, past);
    }
  }

  lemma AskedInTime(
    w: World, c: Config, start: seq<Turn>, turns: nat, past: seq<Round>, text: string, calls: seq<Call>)
    requires Asks(w, c, start, turns, past, text, calls)
    ensures |past| < c.maxRounds
  {
  }

  lemma GenuineAreComplete(w: World, c: Config, turns: nat, rounds: seq<Round>)
    requires AllGenuine(w, c, turns, rounds)
    ensures AllComplete(rounds)
  {
  }

  /** An input as played from the start. */
  function Played(w: World, c: Config, start: seq<Turn>, turns: nat, queue: seq<string>): (t: Trace)
    ensures AllGenuine(w, c, turns, t.rounds) && AllComplete(t.rounds) && WellEnded(w, c, start, turns, t)
  {
    PlayIsGenuine(w, c, start, turns, queue, []);
    Play(w, c, start, turns, queue, [])
  }

  // ---------------------------------------------------------------- the guards

  predicate RunOf(fps: seq<string>, limit: int) { limit > 0 && EndsInRun(fps, limit) }

  lemma ReachedIsRun(fps: seq<string>, limit: int)
    ensures Reached(limit, RunLength(fps)) <==> RunOf(fps, limit)
  {
    if limit > 0 {
      RunReaches(fps, limit);
    }
  }

  lemma LimitIsHit(fps: seq<string>, fp: string, limit: int)
    requires !Reached(limit, RunLength(fps)) && Reached(limit, RunLength(fps + [fp]))
    ensures RunLength(fps + [fp]) == limit
  {
    RunGrowsByOne(fps, fp);
  }

  /** Completed rounds never end in a run as long as either limit. */
  lemma NoRunSurvives(w: World, c: Config, turns: nat, rounds: seq<Round>, i: nat)
    requires AllGenuine(w, c, turns, rounds) && AllComplete(rounds) && i <= |rounds|
    ensures !RunOf(MalformedPrints(w, rounds[..i]), c.malformedLimit)
    ensures !RunOf(ErrorPrints(w, rounds[..i]), c.errorLimit)
  {
    hide MalformedPrint, ErrorPrint, EndsInRun, RunLength;
    ReachedIsRun(MalformedPrints(w, rounds[..i]), c.malformedLimit);
    ReachedIsRun(ErrorPrints(w, rounds[..i]), c.errorLimit);
    if i == 0 {
      NothingRuns();
    } else {
      assert Genuine(w, c, turns, rounds[..i - 1], rounds[i - 1]);
      assert rounds[..i - 1] + [rounds[i - 1]] == rounds[..i];
    }
  }

  lemma NothingRuns()
    ensures RunLength([]) == 0
  {
  }

  /** Each guard stops the input in the first round that makes its limit of equal fingerprints in a row. */
  lemma GuardsStopAtTheFirstRun(w: World, c: Config, start: seq<Turn>, turns: nat, queue: seq<string>)
    ensures var t := Played(w, c, start, turns, queue);
      && (forall i :: 0 <= i <= |t.rounds| ==>
            && !RunOf(MalformedPrints(w, t.rounds[..i]), c.malformedLimit)
            && !RunOf(ErrorPrints(w, t.rounds[..i]), c.errorLimit))
    ensures var t := Played(w, c, start, turns, queue);
      var calls := LastCalls(t);
      var results := ResultsOf(w, turns + |t.rounds| + 1, calls);
      && (t.end.MalformedLoop? ==>
            && t.end.repeats == c.malformedLimit
            && RunOf(MalformedPrints(w, t.rounds) + [MalformedPrint(w, calls, results)], c.malformedLimit))
      && (t.end.FailingLoop? ==>
            && calls != []
            && t.end.repeats == c.errorLimit
            && RunOf(ErrorPrints(w, t.rounds) + [ErrorPrint(w, calls, results)], c.errorLimit)
            && !RunOf(MalformedPrints(w, t.rounds) + [MalformedPrint(w, calls, results)], c.malformedLimit))
  {
    hide MalformedPrint, ErrorPrint, RunOf, Reached, Played, AllGenuine, Genuine, RunLength;
    var t := Played(w, c, start, turns, queue);
    forall i: nat | i <= |t.rounds|
      ensures !RunOf(MalformedPrints(w, t.rounds[..i]), c.malformedLimit)
      ensures !RunOf(ErrorPrints(w, t.rounds[..i]), c.errorLimit)
    {
      NoRunSurvives(w, c, turns, t.rounds, i);
    }
    assert t.rounds[..|t.rounds|] == t.rounds;
    if t.end.Guarded() {
      var calls := LastCalls(t);
      var results := ResultsOf(w, turns + |t.rounds| + 1, calls);
      var (ms, m) := (MalformedPrints(w, t.rounds), MalformedPrint(w, calls, results));
      var (es, e) := (ErrorPrints(w, t.rounds), ErrorPrint(w, calls, results));
      ReachedIsRun(ms, c.malformedLimit);
      ReachedIsRun(es, c.errorLimit);
      ReachedIsRun(ms + [m], c.malformedLimit);
      ReachedIsRun(es + [e], c.errorLimit);
      if t.end.MalformedLoop? {
        LimitIsHit(ms, m, c.malformedLimit);
      } else {
        LimitIsHit(es, e, c.errorLimit);
      }
    }
  }

  /** Round j makes a window of equal calls in a row. */
  predicate Repeats(w: World, c: Config, rounds: seq<Round>, j: nat)
    requires j < |rounds|
  {
    EndsInRun(CallPrints(w, rounds[..j + 1]), c.window)
  }

  lemma WarnsExactly(w: World, c: Config, turns: nat, rounds: seq<Round>, j: nat)
    requires AllGenuine(w, c, turns, rounds) && AllComplete(rounds) && j < |rounds|
    ensures rounds[j].warned
       <==> c.detectLoops && !WarnedIn(rounds[..j]) && Repeats(w, c, rounds, j)
  {
    hide EndsInRun, RunLength, CallsPrint, WarnedIn;
    assert Genuine(w, c, turns, rounds[..j], rounds[j]);
    assert CallPrints(w, rounds[..j + 1]) == CallPrints(w, rounds[..j]) + [CallsPrint(w, rounds[j].calls)];
    RunReaches(CallPrints(w, rounds[..j + 1]), c.window);
  }

  /** The loop warning is given once, in the first round that makes a window of equal calls in a row. */
  lemma WarnsAtTheFirstRun(w: World, c: Config, start: seq<Turn>, turns: nat, queue: seq<string>, i: nat)
    requires i < |Played(w, c, start, turns, queue).rounds|
    ensures var rounds := Played(w, c, start, turns, queue).rounds;
      rounds[i].warned
      <==> c.detectLoops && Repeats(w, c, rounds, i) && forall j :: 0 <= j < i ==> !Repeats(w, c, rounds, j)
  {
    hide Repeats, Played, WarnedIn, AllGenuine, WellEnded;
    var rounds := Played(w, c, start, turns, queue).rounds;
    WarnsExactly(w, c, turns, rounds, i);
    WarnedEarlier(rounds, i);
    if c.detectLoops && !WarnedIn(rounds[..i]) {
      forall j | 0 <= j < i
        ensures !Repeats(w, c, rounds, j)
      {
        WarnsExactly(w, c, turns, rounds, j);
        WarnedEarlier(rounds, j);
      }
    } else if WarnedIn(rounds[..i]) {
      var j :| 0 <= j < i && rounds[j].warned;
      WarnsExactly(w, c, turns, rounds, j);
    }
  }

  lemma WarnedEarlier(rounds: seq<Round>, i: nat)
    requires i <= |rounds|
    ensures WarnedIn(rounds[..i]) <==> exists j :: 0 <= j < i && rounds[j].warned
  {
    if WarnedIn(rounds[..i]) {
      var r :| r in rounds[..i] && r.warned;
      var j :| 0 <= j < i && rounds[..i][j] == r;
      assert rounds[j].warned;
    } else {
      assert forall j :: 0 <= j < i ==> rounds[j] in rounds[..i];
    }
  }

  // ---------------------------------------------------------------- the requests

  /** A made-up id is never blank. */
  lemma MadeUpIdIsNotBlank(digest: string)
    ensures !Blank("call_" + digest)
  {
    var s := "call_" + digest;
    assert s[0] == 'c' && TrimLeft(s) == s;
    var k := TrimRightTrims(s);
  }

  /** An answer names the call's own id unless the call ran under a blank one. */
  lemma IdsMatchExactly(w: World, n: nat, k: nat, call: Call)
    ensures ResultOf(w, n, k, call).name == call.name
    ensures ResultOf(w, n, k, call).callId == call.id <==> (Blank(call.id) ==> w.tools(n, k, call).Vetoed?)
  {
    MadeUpIdIsNotBlank(w.digest(call.arguments));
  }

  /** No call of the round ran under a blank id. */
  predicate OwnIds(w: World, n: nat, calls: seq<Call>) {
    forall k :: 0 <= k < |calls| && Blank(calls[k].id) ==> w.tools(n, k, calls[k]).Vetoed?
  }

  lemma FitsExactly(rule: Rule, w: World, n: nat, r: Round)
    requires Complete(r) && r.results == ResultsOf(w, n, r.calls)
    ensures Fits(rule, r) <==> (rule.adjacent ==> !r.warned) && (rule.sameId ==> OwnIds(w, n, r.calls))
  {
    hide ResultOf, Blank;
    forall k | 0 <= k < |r.calls|
      ensures Answers(rule, r.calls[k], r.results[k].callId, r.results[k].name)
         <==> (rule.sameId && Blank(r.calls[k].id) ==> w.tools(n, k, r.calls[k]).Vetoed?)
    {
      IdsMatchExactly(w, n, k, r.calls[k]);
    }
  }

  function HistoryAt(start: seq<Turn>, t: Trace, i: nat): seq<Turn>
    requires i <= |t.rounds|
  {
    start + Story(t.rounds[..i])
  }

  lemma InputStands(rule: Rule, h: seq<Turn>, input: string)
    ensures Standing(rule, h + [UserInput(input)]) == if Standing(rule, h).Clear? then Clear else Lost
  {
    FromJoin(rule, Clear, h, [UserInput(input)]);
    assert [UserInput(input)][..0] == [];
  }

  lemma RoundsStand(rule: Rule, h: seq<Turn>, input: string, rounds: seq<Round>)
    requires AllComplete(rounds)
    ensures Standing(rule, h + [UserInput(input)] + Story(rounds))
         == if Standing(rule, h).Clear? && forall r :: r in rounds ==> Fits(rule, r) then Clear else Lost
  {
    hide From, Story, Fits;
    InputStands(rule, h, input);
    FromJoin(rule, Clear, h + [UserInput(input)], Story(rounds));
    StoryStands(rule, rounds);
    LostForGood(rule, Story(rounds));
  }

  lemma GenuineFits(rule: Rule, w: World, c: Config, turns: nat, rounds: seq<Round>, j: nat)
    requires AllGenuine(w, c, turns, rounds) && AllComplete(rounds) && j < |rounds|
    ensures Fits(rule, rounds[j])
       <==> (rule.adjacent ==> !rounds[j].warned) && (rule.sameId ==> OwnIds(w, turns + j + 1, rounds[j].calls))
  {
    hide OwnIds, Fits, ResultsOf, WarningDue, MalformedPrints, ErrorPrints, RunLength;
    assert Genuine(w, c, turns, rounds[..j], rounds[j]);
    FitsExactly(rule, w, turns + j + 1, rounds[j]);
  }

  lemma AllFit(rule: Rule, w: World, c: Config, turns: nat, rounds: seq<Round>, i: nat)
    requires AllGenuine(w, c, turns, rounds) && AllComplete(rounds) && i <= |rounds|
    ensures (forall r :: r in rounds[..i] ==> Fits(rule, r))
       <==> && (rule.adjacent ==> forall j :: 0 <= j < i ==> !rounds[j].warned)
            && (rule.sameId ==> forall j :: 0 <= j < i ==> OwnIds(w, turns + j + 1, rounds[j].calls))
  {
    hide OwnIds, Fits, AllGenuine;
    forall j | 0 <= j < i
      ensures Fits(rule, rounds[j])
         <==> (rule.adjacent ==> !rounds[j].warned) && (rule.sameId ==> OwnIds(w, turns + j + 1, rounds[j].calls))
    {
      GenuineFits(rule, w, c, turns, rounds, j);
    }
    assert forall j :: 0 <= j < i ==> rounds[j] in rounds[..i];
  }

  /**
   * A request is legal exactly when the history was before the input and, if answers must follow their calls at once,
   * no loop warning has come between, and, if they must carry the calls' ids, no call ran under a blank one.
   */
  lemma RequestsAreLegalExactly(
    rule: Rule, w: World, c: Config, h: seq<Turn>, turns: nat, queue: seq<string>, input: string, i: nat)
    requires i <= |Played(w, c, h + [UserInput(input)], turns, queue).rounds|
    ensures var start := h + [UserInput(input)];
      var t := Played(w, c, start, turns, queue);
      Standing(rule, HistoryAt(start, t, i))
      == if && Standing(rule, h).Clear?
            && (rule.adjacent ==> forall j :: 0 <= j < i ==> !t.rounds[j].warned)
            && (rule.sameId ==> forall j :: 0 <= j < i ==> OwnIds(w, turns + j + 1, t.rounds[j].calls))
         then Clear else Lost
  {
    hide Played, OwnIds, Story, Fits, Standing, AllGenuine, WellEnded;
    var t := Played(w, c, h + [UserInput(input)], turns, queue);
    RoundsStand(rule, h, input, t.rounds[..i]);
    AllFit(rule, w, c, turns, t.rounds, i);
  }

  /** Only the two guards leave calls unanswered, and they leave exactly the last reply's. */
  lemma OnlyGuardsLeaveCalls(w: World, c: Config, h: seq<Turn>, turns: nat, queue: seq<string>, input: string)
    ensures var start := h + [UserInput(input)];
      var t := Played(w, c, start, turns, queue);
      Standing(Rule(false, false), After(start, t))
      == if !Standing(Rule(false, false), h).Clear? then Lost
         else if t.end.Guarded() then Owing(LastCalls(t))
         else Clear
    ensures var t := Played(w, c, h + [UserInput(input)], turns, queue);
      LastCalls(t) != [] <==> t.end.Guarded()
  {
    hide Played, From, Story, Opening, WarningDue, RunLength, OwnIds;
    var start := h + [UserInput(input)];
    var t := Played(w, c, start, turns, queue);
    var rule := Rule(false, false);
    RequestsAreLegalExactly(rule, w, c, h, turns, queue, input, |t.rounds|);
    assert t.rounds[..|t.rounds|] == t.rounds;
    FromJoin(rule, Clear, start + Story(t.rounds), t.tail);
    LostForGood(rule, t.tail);
    TailStands(rule, w, c, start, turns, t);
  }

  lemma TailStands(rule: Rule, w: World, c: Config, start: seq<Turn>, turns: nat, t: Trace)
    requires AllComplete(t.rounds) && WellEnded(w, c, start, turns, t) && !rule.adjacent
    ensures From(rule, Clear, t.tail) == if t.end.Guarded() then Owing(LastCalls(t)) else Clear
    ensures LastCalls(t) != [] <==> t.end.Guarded()
  {
    hide WarningDue, ResultsOf, RunLength, MalformedPrint, MalformedPrints, ErrorPrint, ErrorPrints;
    if t.end.Guarded() {
      var calls := LastCalls(t);
      OpeningOwes(rule, t.tail[0].text, calls, WarningDue(w, c, t.rounds, calls));
    } else if t.end.Replied? {
      assert t.tail[..0] == [];
    }
  }

  // ---------------------------------------------------------------- input after input

  /**
   * An input as it reaches the session: what it meets, what is queued by then, whether the caller has given up before
   * it begins, and whether by its end the caller has given up or its error says so.
   */
  datatype Visit = Visit(world: World, input: string, queue: seq<string>, gone: bool, over: bool)

  datatype Sitting = Sitting(start: seq<Turn>, trace: Trace)

  /** An error closes the session if the caller has given up, or if it is one of the model's that cannot be retried. */
  predicate Closes(end: End, over: bool) {
    end.Cancelled? || (end.ModelFailed? && !end.retryable) || (!end.Replied? && over)
  }

  /** A session's inputs one after the other; a closed session takes no more of them. */
  function Converse(c: Config, h: seq<Turn>, turns: nat, closed: bool, visits: seq<Visit>): (ss: seq<Sitting>)
    ensures forall s :: s in ss ==> AllComplete(s.trace.rounds)
    decreases |visits|
  {
    if visits == [] || closed || visits[0].gone then []
    else
      var v := visits[0];
      var start := h + [UserInput(v.input)];
      var t := Played(v.world, c, start, turns, v.queue);
      [Sitting(start, t)] + Converse(c, After(start, t), turns + t.begun, Closes(t.end, v.over), visits[1..])
  }

  lemma ConverseStep(c: Config, h: seq<Turn>, turns: nat, closed: bool, visits: seq<Visit>)
    requires Converse(c, h, turns, closed, visits) != []
    ensures visits != []
    ensures var v := visits[0];
      var start := h + [UserInput(v.input)];
      var t := Played(v.world, c, start, turns, v.queue);
      Converse(c, h, turns, closed, visits)
      == [Sitting(start, t)] + Converse(c, After(start, t), turns + t.begun, Closes(t.end, v.over), visits[1..])
  {
    hide Played, Closes, After, AllComplete, AllGenuine, WellEnded;
  }

  predicate GuardedBefore(ss: seq<Sitting>, k: nat)
    requires k <= |ss|
  {
    exists j :: 0 <= j < k && ss[j].trace.end.Guarded()
  }

  /**
   * Over any inputs, every request has each earlier call answered once and in order as long as no guard has stopped
   * an input; from then on no request of the session has.
   */
  lemma {:induction false} LegalUntilAGuardStops(
    c: Config, h: seq<Turn>, turns: nat, closed: bool, visits: seq<Visit>, k: nat, i: nat)
    requires var ss := Converse(c, h, turns, closed, visits); k < |ss| && i <= |ss[k].trace.rounds|
    ensures var ss := Converse(c, h, turns, closed, visits);
      Standing(Rule(false, false), HistoryAt(ss[k].start, ss[k].trace, i))
      == if Standing(Rule(false, false), h).Clear? && !GuardedBefore(ss, k) then Clear else Lost
    decreases |visits|
  {
    hide Converse, Played, Standing, HistoryAt, After, GuardedBefore, Closes, LastCalls;
    hide AllComplete, AllGenuine, WellEnded;
    var rule := Rule(false, false);
    ConverseStep(c, h, turns, closed, visits);
    var v := visits[0];
    var start := h + [UserInput(v.input)];
    var t := Played(v.world, c, start, turns, v.queue);
    if k == 0 {
      RequestsAreLegalExactly(rule, v.world, c, h, turns, v.queue, v.input, i);
      NoneBefore(Converse(c, h, turns, closed, visits));
    } else {
      OnlyGuardsLeaveCalls(v.world, c, h, turns, v.queue, v.input);
      var stop := Closes(t.end, v.over);
      var rest := Converse(c, After(start, t), turns + t.begun, stop, visits[1..]);
      LegalUntilAGuardStops(c, After(start, t), turns + t.begun, stop, visits[1..], k - 1, i);
      GuardedFirst(Sitting(start, t), rest, k - 1);
    }
  }

  lemma NoneBefore(ss: seq<Sitting>)
    ensures !GuardedBefore(ss, 0)
  {
  }

  lemma GuardedFirst(s: Sitting, rest: seq<Sitting>, k: nat)
    requires k <= |rest|
    ensures GuardedBefore([s] + rest, k + 1) <==> s.trace.end.Guarded() || GuardedBefore(rest, k)
  {
    var ss := [s] + rest;
    if GuardedBefore(rest, k) {
      var j :| 0 <= j < k && rest[j].trace.end.Guarded();
      assert ss[j + 1].trace.end.Guarded();
    }
    if GuardedBefore(ss, k + 1) {
      var j :| 0 <= j < k + 1 && ss[j].trace.end.Guarded();
      assert j > 0 ==> rest[j - 1] == ss[j];
    }
    assert ss[0] == s;
  }

  // ---------------------------------------------------------------- a model that is stuck

  /** A model that makes one and the same failing call whatever it is sent. */
  function Stuck(call: Call): World {
    World("", (n, ms) => Reply("", [call]), (n, k, c) => Ran("no", "no", true), n => [], n => false, s => "")
  }

  function StuckRound(call: Call, warned: bool): Round {
    Round("", [call], warned, ResultsOf(Stuck(call), 0, [call]), [])
  }

  lemma AllTheSame(fps: seq<string>, fp: string)
    requires fp != "" && forall k :: 0 <= k < |fps| ==> fps[k] == fp
    ensures RunLength(fps) == |fps|
  {
    RunReaches(fps, |fps|);
  }

  lemma LastIsEmpty(fps: seq<string>)
    requires fps != [] && fps[|fps| - 1] == ""
    ensures RunLength(fps) == 0
  {
  }

  lemma NotMalformed(call: Call)
    ensures MalformedPrint(Stuck(call), [call], ResultsOf(Stuck(call), 0, [call])) == ""
  {
    var r := ResultsOf(Stuck(call), 0, [call])[0];
    assert r.full == "no" && |MALFORMED| > 2;
    assert !IsMalformed(r);
  }

  lemma StuckStep(call: Call, c: Config, start: seq<Turn>, past: seq<Round>)
    requires |past| < c.maxRounds && c.maxTurns == 0 && c.errorLimit > 0
    requires AllComplete(past) && forall r :: r in past ==> r == StuckRound(call, r.warned)
    ensures var n := |past| + 1;
      var warned := c.detectLoops && !WarnedIn(past) && n >= c.window;
      Play(Stuck(call), c, start, 0, [], past)
      == if n >= c.errorLimit then Trace(past, n, n, Opening("", [call], warned), [], FailingLoop(n))
         else Play(Stuck(call), c, start, 0, [], past + [StuckRound(call, warned)])
  {
    hide CallsPrint, MalformedPrint, ErrorPrint, Story, Request, RunLength, WarnedIn, Play;
    var w := Stuck(call);
    var results := ResultsOf(w, 0, [call]);
    assert results == ResultsOf(w, |past| + 1, [call]);
    assert results[0].isError;
    var calls := CallPrints(w, past) + [CallsPrint(w, [call])];
    var errors := ErrorPrints(w, past) + [ErrorPrint(w, [call], results)];
    AllTheSame(calls, CallsPrint(w, [call]));
    AllTheSame(errors, ErrorPrint(w, [call], results));
    var r := StuckRound(call, WarningDue(w, c, past, [call]));
    var malformed := MalformedPrints(w, past) + [MalformedPrint(w, [call], results)];
    NotMalformed(call);
    assert malformed[|past|] == "";
    LastIsEmpty(malformed);
    PlayGuards(w, c, start, 0, [], past, r, malformed[|past|], RunLength(malformed), errors[|past|], |errors|);
  }

  lemma StuckTwice(call: Call, c: Config, start: seq<Turn>)
    requires c == Config(200, 0, true, 10, 3, 2, false)
    ensures var t := Play(Stuck(call), c, start, 0, [], []);
      t.end == FailingLoop(2) && t.tail == Opening("", [call], false)
  {
    hide Play, Opening;
    StuckStep(call, c, start, []);
    StuckStep(call, c, start, [] + [StuckRound(call, false)]);
  }

  /** With a guard at two equal failures the second reply's call stays open, and the next request is past repair. */
  lemma GuardLeavesCallsOpen(call: Call, c: Config, input: string, next: string)
    requires c == Config(200, 0, true, 10, 3, 2, false)
    ensures var start := [UserInput(input)];
      var t := Played(Stuck(call), c, start, 0, []);
      && t.end == FailingLoop(2)
      && Standing(Rule(false, false), After(start, t)) == Owing([call])
      && Standing(Rule(false, false), After(start, t) + [UserInput(next)]) == Lost
  {
    hide Play, From, Story, AllGenuine, WellEnded, WarningDue, Stuck;
    var start := [UserInput(input)];
    StuckTwice(call, c, start);
    assert [] + [UserInput(input)] == start;
    OnlyGuardsLeaveCalls(Stuck(call), c, [], 0, [], input);
    StartsClear(Rule(false, false));
    InputStands(Rule(false, false), After(start, Played(Stuck(call), c, start, 0, [])), next);
  }

  lemma StartsClear(rule: Rule)
    ensures Standing(rule, []) == Clear
  {
  }
}
