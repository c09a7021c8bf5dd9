/** The requests a session sends, as messages: what the turns of the history become, and when the model accepts them. */
module SessionRequests {
  import opened Session
  import opened SessionHistory

  // ---------------------------------------------------------------- legality, over messages alone

  /**
   * The messages settle the calls still open and then keep to the rule themselves: every call of an assistant message
   * is answered, once and in order, before the next assistant message and before the end. If answers must follow at
   * once, nothing else may come between.
   */
  predicate Settles(rule: Rule, open: seq<Call>, ms: seq<Message>)
    decreases |ms|
  {
    if ms == [] then open == []
    else
      match ms[0]
      case SystemMessage(_) => (open == [] || !rule.adjacent) && Settles(rule, open, ms[1..])
      case UserMessage(_) => (open == [] || !rule.adjacent) && Settles(rule, open, ms[1..])
      case AssistantMessage(_, calls) => open == [] && Settles(rule, calls, ms[1..])
      case ToolMessage(callId, name, _, _) =>
        open != [] && Answers(rule, open[0], callId, name) && Settles(rule, open[1..], ms[1..])
  }

  predicate Legal(rule: Rule, ms: seq<Message>) { Settles(rule, [], ms) }

  /** The tool messages from a place on, up to the next assistant message. */
  function ToolsFrom(ms: seq<Message>): (ts: seq<Message>)
    ensures forall k :: 0 <= k < |ts| ==> ts[k].ToolMessage?
  {
    if ms == [] || ms[0].AssistantMessage? then []
    else (if ms[0].ToolMessage? then [ms[0]] else []) + ToolsFrom(ms[1..])
  }

  /** In a legal list the tool messages behind each assistant message answer its calls, one for one. */
  lemma {:induction false} LegalAnswers(rule: Rule, open: seq<Call>, ms: seq<Message>)
    requires Settles(rule, open, ms)
    ensures |ToolsFrom(ms)| == |open|
    ensures forall k :: 0 <= k < |open| ==> Answers(rule, open[k], ToolsFrom(ms)[k].callId, ToolsFrom(ms)[k].name)
  {
    hide Answers;
    if ms != [] && !ms[0].AssistantMessage? {
      var rest := if ms[0].ToolMessage? then open[1..] else open;
      LegalAnswers(rule, rest, ms[1..]);
      if ms[0].ToolMessage? {
        assert open == [open[0]] + rest && ToolsFrom(ms) == [ms[0]] + ToolsFrom(ms[1..]);
      } else {
        assert ToolsFrom(ms) == ToolsFrom(ms[1..]);
      }
    }
  }

  lemma {:induction false} AllLegalAnswers(rule: Rule, open: seq<Call>, ms: seq<Message>, i: nat)
    requires Settles(rule, open, ms) && i < |ms| && ms[i].AssistantMessage?
    ensures var tools, calls := ToolsFrom(ms[i + 1..]), ms[i].calls;
      |tools| == |calls| && forall k :: 0 <= k < |calls| ==> Answers(rule, calls[k], tools[k].callId, tools[k].name)
    decreases i
  {
    hide Answers;
    if i == 0 {
      LegalAnswers(rule, ms[0].calls, ms[1..]);
    } else {
      assert ms[1..][i - 1] == ms[i] && ms[1..][i..] == ms[i + 1..];
      match ms[0]
      case AssistantMessage(_, calls) => AllLegalAnswers(rule, calls, ms[1..], i - 1);
      case ToolMessage(_, _, _, _) => AllLegalAnswers(rule, open[1..], ms[1..], i - 1);
      case _ => AllLegalAnswers(rule, open, ms[1..], i - 1);
    }
  }

  // ---------------------------------------------------------------- what is sent

  /** A request is the system prompt and then one message for every turn, with nothing of the turn left out. */
  lemma RequestIsHistory(w: World, h: seq<Turn>)
    ensures |Request(w, h)| == |h| + 1 && Request(w, h)[0] == SystemMessage(w.system)
    ensures forall k :: 0 <= k < |h| ==>
      match h[k]
      case UserInput(text) => Request(w, h)[k + 1] == UserMessage(text)
      case Steering(text) => Request(w, h)[k + 1] == UserMessage(text)
      case Assistant(text, calls) => Request(w, h)[k + 1] == AssistantMessage(text, calls)
      case Tool(callId, name, output, isError) => Request(w, h)[k + 1] == ToolMessage(callId, name, output, isError)
  {
  }

  function Messages(h: seq<Turn>): (ms: seq<Message>)
    ensures |ms| == |h|
  {
    seq(|h|, k requires 0 <= k < |h| => MessageOf(h[k]))
  }

  /** A phase and the messages still to come. */
  predicate Accepts(rule: Rule, p: Phase, ms: seq<Message>) {
    match p
    case Clear => Settles(rule, [], ms)
    case Owing(calls) => Settles(rule, calls, ms)
    case Lost => false
  }

  /** As a message, an input that comes while calls are open is no worse than steering. */
  function NextSent(rule: Rule, p: Phase, t: Turn): Phase {
    if t.UserInput? && p.Owing? && !rule.adjacent then p else Next(rule, p, t)
  }

  function Sent(rule: Rule, p: Phase, h: seq<Turn>): Phase {
    if h == [] then p else NextSent(rule, Sent(rule, p, h[..|h| - 1]), h[|h| - 1])
  }

  predicate Proper(p: Phase) { p.Owing? ==> p.calls != [] }

  lemma AcceptsStep(rule: Rule, p: Phase, t: Turn, ms: seq<Message>)
    requires Proper(p)
    ensures Proper(NextSent(rule, p, t))
    ensures Accepts(rule, p, [MessageOf(t)] + ms) <==> Accepts(rule, NextSent(rule, p, t), ms)
  {
    hide Answers;
    assert ([MessageOf(t)] + ms)[1..] == ms;
    assert p.Owing? && |p.calls| == 1 ==> p.calls[1..] == [];
  }

  lemma {:induction false} AcceptsSent(rule: Rule, p: Phase, h: seq<Turn>, ms: seq<Message>)
    requires Proper(p)
    ensures Proper(Sent(rule, p, h))
    ensures Accepts(rule, p, Messages(h) + ms) <==> Accepts(rule, Sent(rule, p, h), ms)
  {
    hide Accepts, NextSent, MessageOf;
    if h == [] {
      assert Messages(h) + ms == ms;
    } else {
      var n := |h| - 1;
      AcceptsSent(rule, p, h[..n], [MessageOf(h[n])] + ms);
      assert Messages(h) + ms == Messages(h[..n]) + ([MessageOf(h[n])] + ms);
      AcceptsStep(rule, Sent(rule, p, h[..n]), h[n], ms);
    }
  }

  /** A request is legal exactly if its turns leave nothing open. */
  lemma RequestAccepted(rule: Rule, w: World, h: seq<Turn>)
    ensures Legal(rule, Request(w, h)) <==> Sent(rule, Clear, h) == Clear
  {
    hide Sent;
    assert Request(w, h) == [SystemMessage(w.system)] + Messages(h);
    assert Request(w, h)[1..] == Messages(h) + [];
    AcceptsSent(rule, Clear, h, []);
  }

  // ---------------------------------------------------------------- the requests of a session

  lemma {:induction false} SentJoin(rule: Rule, p: Phase, a: seq<Turn>, b: seq<Turn>)
    ensures Sent(rule, p, a + b) == Sent(rule, Sent(rule, p, a), b)
  {
    hide NextSent;
    if b == [] {
      assert a + b == a;
    } else {
      var n := |b| - 1;
      SentJoin(rule, p, a, b[..n]);
      assert (a + b)[..|a| + n] == a + b[..n];
    }
  }

  lemma {:induction false} LostStaysLost(rule: Rule, h: seq<Turn>)
    ensures Sent(rule, Lost, h) == Lost
  {
    if h != [] {
      LostStaysLost(rule, h[..|h| - 1]);
    }
  }

  /** Turns the session adds by itself: none is an input, and a reply comes first. */
  predicate OwnTurns(seg: seq<Turn>) {
    (forall k :: 0 <= k < |seg| ==> !seg[k].UserInput?) && (seg != [] ==> seg[0].Assistant?)
  }

  /** Both readings of a history agree, or it is past repair for the one and not settled for the other. */
  predicate Agree(p: Phase, q: Phase) { q == p || (p.Lost? && (q.Lost? || (q.Owing? && q.calls != []))) }

  lemma {:induction false} NoInputsAgree(rule: Rule, p: Phase, seg: seq<Turn>)
    requires forall k :: 0 <= k < |seg| ==> !seg[k].UserInput?
    ensures Sent(rule, p, seg) == From(rule, p, seg)
  {
    hide Next;
    if seg != [] {
      NoInputsAgree(rule, p, seg[..|seg| - 1]);
    }
  }

  lemma OwnTurnsAgree(rule: Rule, p: Phase, q: Phase, seg: seq<Turn>)
    requires Agree(p, q) && OwnTurns(seg)
    ensures Agree(From(rule, p, seg), Sent(rule, q, seg))
  {
    hide From, Sent;
    if q == p {
      NoInputsAgree(rule, p, seg);
    } else {
      LostForGood(rule, seg);
      if seg == [] {
        NothingSent(rule, q);
      } else {
        assert seg == [seg[0]] + seg[1..];
        SentJoin(rule, q, [seg[0]], seg[1..]);
        OneSent(rule, q, seg[0]);
        LostStaysLost(rule, seg[1..]);
      }
    }
  }

  lemma NothingSent(rule: Rule, q: Phase)
    ensures Sent(rule, q, []) == q
  {
  }

  lemma OneSent(rule: Rule, q: Phase, t: Turn)
    ensures Sent(rule, q, [t]) == NextSent(rule, q, t)
  {
    assert [t][..0] == [];
  }

  lemma InputAgrees(rule: Rule, h: seq<Turn>, input: string)
    requires Agree(Standing(rule, h), Sent(rule, Clear, h)) && Proper(Sent(rule, Clear, h))
    ensures Agree(Standing(rule, h + [UserInput(input)]), Sent(rule, Clear, h + [UserInput(input)]))
  {
    hide From, Sent;
    InputStands(rule, h, input);
    SentJoin(rule, Clear, h, [UserInput(input)]);
    OneSent(rule, Sent(rule, Clear, h), UserInput(input));
  }

  lemma {:induction false} StoryIsOwn(rounds: seq<Round>)
    ensures OwnTurns(Story(rounds))
  {
    if rounds != [] {
      var n := |rounds| - 1;
      StoryIsOwn(rounds[..n]);
      TurnsAreOwn(rounds[n]);
      var a, b := Story(rounds[..n]), Turns(rounds[n]);
      assert Story(rounds) == a + b;
      if a == [] {
        assert a + b == b;
      }
    }
  }

  lemma TurnsAreOwn(r: Round)
    ensures OwnTurns(Turns(r)) && Turns(r) != []
  {
    ToolTurnsOnly(r.results);
    SteeringTurnsOnly(r.steered);
    hide ToolTurns, SteeringTurns;
    assert Turns(r)[0] == Assistant(r.text, r.calls);
  }

  lemma {:induction false} ToolTurnsOnly(results: seq<Result>)
    ensures forall k :: 0 <= k < |ToolTurns(results)| ==> ToolTurns(results)[k].Tool?
  {
    if results != [] {
      ToolTurnsOnly(results[..|results| - 1]);
    }
  }

  lemma {:induction false} SteeringTurnsOnly(messages: seq<string>)
    ensures forall k :: 0 <= k < |SteeringTurns(messages)| ==> SteeringTurns(messages)[k].Steering?
  {
    if messages != [] {
      SteeringTurnsOnly(messages[..|messages| - 1]);
    }
  }

  lemma TailIsOwn(w: World, c: Config, start: seq<Turn>, turns: nat, t: Trace)
    requires AllComplete(t.rounds) && WellEnded(w, c, start, turns, t)
    ensures OwnTurns(t.tail)
  {
    hide WarningDue, ResultsOf, RunLength, MalformedPrint, MalformedPrints, ErrorPrint, ErrorPrints;
  }

  /** Story by story, both readings keep in step. */
  lemma StoryAgrees(rule: Rule, start: seq<Turn>, rounds: seq<Round>)
    requires Agree(Standing(rule, start), Sent(rule, Clear, start))
    ensures Agree(Standing(rule, start + Story(rounds)), Sent(rule, Clear, start + Story(rounds)))
  {
    hide From, Sent, Story, OwnTurns;
    StoryIsOwn(rounds);
    FromJoin(rule, Clear, start, Story(rounds));
    SentJoin(rule, Clear, start, Story(rounds));
    OwnTurnsAgree(rule, Standing(rule, start), Sent(rule, Clear, start), Story(rounds));
  }

  lemma SittingAgrees(rule: Rule, w: World, c: Config, start: seq<Turn>, turns: nat, queue: seq<string>)
    requires Agree(Standing(rule, start), Sent(rule, Clear, start))
    ensures var h := After(start, Played(w, c, start, turns, queue)); Agree(Standing(rule, h), Sent(rule, Clear, h))
  {
    hide From, Sent, Story, OwnTurns, Played, WellEnded, AllGenuine;
    var t := Played(w, c, start, turns, queue);
    StoryAgrees(rule, start, t.rounds);
    TailIsOwn(w, c, start, turns, t);
    var h := start + Story(t.rounds);
    FromJoin(rule, Clear, h, t.tail);
    SentJoin(rule, Clear, h, t.tail);
    OwnTurnsAgree(rule, Standing(rule, h), Sent(rule, Clear, h), t.tail);
  }

  /** Every request of a session is legal, as a list of messages, exactly when its history stands clear. */
  lemma {:induction false} RequestsSentExactly(
    rule: Rule, c: Config, h: seq<Turn>, turns: nat, closed: bool, visits: seq<Visit>, k: nat, i: nat, w: World)
    requires Agree(Standing(rule, h), Sent(rule, Clear, h))
    requires var ss := Converse(c, h, turns, closed, visits); k < |ss| && i <= |ss[k].trace.rounds|
    ensures var ss := Converse(c, h, turns, closed, visits);
      var sent := HistoryAt(ss[k].start, ss[k].trace, i);
      Legal(rule, Request(w, sent)) <==> Standing(rule, sent).Clear?
    decreases |visits|
  {
    hide Converse, Played, From, Sent, Story, Agree, Closes, After, AllComplete, AllGenuine, WellEnded, Legal;
    ConverseStep(c, h, turns, closed, visits);
    var v := visits[0];
    var start := h + [UserInput(v.input)];
    var t := Played(v.world, c, start, turns, v.queue);
    SentIsProper(rule, h);
    InputAgrees(rule, h, v.input);
    if k == 0 {
      StoryAgrees(rule, start, t.rounds[..i]);
      var sent := HistoryAt(start, t, i);
      RequestAccepted(rule, w, sent);
      AgreeOnClear(Standing(rule, sent), Sent(rule, Clear, sent));
    } else {
      SittingAgrees(rule, v.world, c, start, turns, v.queue);
      RequestsSentExactly(rule, c, After(start, t), turns + t.begun, Closes(t.end, v.over), visits[1..], k - 1, i, w);
    }
  }

  lemma AgreeOnClear(p: Phase, q: Phase)
    requires Agree(p, q)
    ensures p.Clear? <==> q == Clear
  {
  }

  lemma SentIsProper(rule: Rule, h: seq<Turn>)
    ensures Proper(Sent(rule, Clear, h))
  {
    hide Sent;
    AcceptsSent(rule, Clear, h, []);
  }

  /** In the life of a session, the requests are legal until a guard stops an input, and none is after that. */
  lemma SessionRequestsAreLegal(c: Config, visits: seq<Visit>, k: nat, i: nat, w: World)
    requires var ss := Converse(c, [], 0, false, visits); k < |ss| && i <= |ss[k].trace.rounds|
    ensures var ss := Converse(c, [], 0, false, visits);
      Legal(Rule(false, false), Request(w, HistoryAt(ss[k].start, ss[k].trace, i))) <==> !GuardedBefore(ss, k)
  {
    hide Converse, Legal, GuardedBefore, HistoryAt;
    StartsAgree(Rule(false, false));
    RequestsSentExactly(Rule(false, false), c, [], 0, false, visits, k, i, w);
    LegalUntilAGuardStops(c, [], 0, false, visits, k, i);
  }

  lemma StartsAgree(rule: Rule)
    ensures Standing(rule, []) == Clear && Agree(Standing(rule, []), Sent(rule, Clear, []))
  {
  }
}
