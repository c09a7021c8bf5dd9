/** Questions parked until somebody answers them, gives up or cancels: every locked section and every wake-up is one step. */
module Interviewer {
  import opened GoStrings

  /** What Ask returns: an answer somebody posted, or the note that nobody did in time. */
  datatype Answer = Real(text: string) | TimedOut

  /** Where one call of Ask stands: waiting, woken but not yet tidied up, or returned. */
  datatype Phase = Waiting | Woken(ans: Answer) | Returned(ans: Answer)

  /** One call of Ask: its answer channel of capacity one, its timer, and which answer was accepted for it. */
  datatype Ask = Ask(chan: seq<string>, expired: bool, phase: Phase, accepted: Option<string>)

  const NEW_ASK := Ask([], false, Waiting, None)

  /** Question ids are the numbers in "q-1", "q-2", and so on. */
  datatype State = State(pending: set<nat>, qidSeq: nat, cancelled: bool, asks: map<nat, Ask>)

  const START := State({}, 0, false, map[])

  datatype Step =
    | Begin
    | Post(qid: nat, text: string)
    | Expire(qid: nat)
    | Cancel
    | TakeAnswer(qid: nat)
    | TakeTimeout(qid: nat)
    | TakeCancel(qid: nat)
    | End(qid: nat)

  predicate Enabled(s: State, t: Step) {
    match t
    case Expire(q) => q in s.asks
    case TakeAnswer(q) => q in s.asks && s.asks[q].phase == Waiting && s.asks[q].chan != []
    case TakeTimeout(q) => q in s.asks && s.asks[q].phase == Waiting && s.asks[q].expired
    case TakeCancel(q) => q in s.asks && s.asks[q].phase == Waiting && s.cancelled
    case End(q) => q in s.asks && s.asks[q].phase.Woken?
    case _ => true
  }

  /** Asking takes the next id and parks the question. */
  function BeginStep(s: State): State {
    var q := s.qidSeq + 1;
    s.(qidSeq := q, pending := s.pending + {q}, asks := s.asks[q := NEW_ASK])
  }

  /** What posting an answer reports: whether the question is pending and its channel has room. */
  predicate Accepts(s: State, qid: nat)
    requires s.pending <= s.asks.Keys
  {
    qid in s.pending && |s.asks[qid].chan| < 1
  }

  function PostStep(s: State, qid: nat, text: string): State
    requires s.pending <= s.asks.Keys
  {
    if Accepts(s, qid) then
      s.(pending := s.pending - {qid},
         asks := s.asks[qid := s.asks[qid].(chan := s.asks[qid].chan + [text], accepted := Some(text))])
    else s
  }

  function Apply(s: State, t: Step): State
    requires s.pending <= s.asks.Keys && Enabled(s, t)
  {
    match t
    case Begin => BeginStep(s)
    case Post(q, text) => PostStep(s, q, text)
    case Expire(q) => s.(asks := s.asks[q := s.asks[q].(expired := true)])
    case Cancel => s.(cancelled := true)
    case TakeAnswer(q) =>
      var a := s.asks[q];
      s.(asks := s.asks[q := a.(chan := a.chan[1..], phase := Woken(Real(a.chan[0])))])
    case TakeTimeout(q) => s.(asks := s.asks[q := s.asks[q].(phase := Woken(TimedOut))])
    case TakeCancel(q) => s.(asks := s.asks[q := s.asks[q].(phase := Woken(TimedOut))])
    case End(q) => s.(asks := s.asks[q := s.asks[q].(phase := Returned(s.asks[q].phase.ans))], pending := s.pending - {q})
  }

  // ----- what every reachable state keeps

  ghost predicate AskInv(s: State, q: nat)
    requires q in s.asks
  {
    var a := s.asks[q];
    && (q in s.pending ==> a.chan == [] && a.accepted == None)
    && (a.phase == Waiting && q !in s.pending ==> a.accepted.Some? && a.chan == [a.accepted.value])
    && (a.chan != [] ==> a.accepted.Some? && a.chan == [a.accepted.value])
    && (!a.phase.Waiting? && a.phase.ans.Real? ==> a.accepted == Some(a.phase.ans.text) && a.chan == [])
    && (!a.phase.Waiting? && a.phase.ans.TimedOut? ==> a.expired || s.cancelled)
  }

  ghost predicate Inv(s: State) {
    && s.pending <= s.asks.Keys
    && (forall q :: q in s.asks ==> 1 <= q <= s.qidSeq)
    && forall q :: q in s.asks ==> AskInv(s, q)
  }

  lemma StepKeeps(s: State, t: Step)
    requires Inv(s) && Enabled(s, t)
    ensures Inv(Apply(s, t))
  {
    hide AskInv;
    var u := Apply(s, t);
    forall q | q in u.asks
      ensures AskInv(u, q)
    {
      AskKept(s, t, q);
    }
  }

  lemma AskKept(s: State, t: Step, q: nat)
    requires s.pending <= s.asks.Keys && Enabled(s, t) && q in Apply(s, t).asks
    requires q in s.asks ==> AskInv(s, q)
    ensures AskInv(Apply(s, t), q)
  {
  }

  ghost predicate Run(states: seq<State>, steps: seq<Step>) {
    && |states| == |steps| + 1 && states[0] == START
    && forall i :: 0 <= i < |steps| ==>
      states[i].pending <= states[i].asks.Keys && Enabled(states[i], steps[i]) && states[i + 1] == Apply(states[i], steps[i])
  }

  lemma {:induction false} RunsKeepInv(states: seq<State>, steps: seq<Step>, n: nat)
    requires Run(states, steps) && n < |states|
    ensures Inv(states[n])
    decreases n
  {
    if n != 0 {
      RunsKeepInv(states, steps, n - 1);
      assert states[n - 1 + 1] == Apply(states[n - 1], steps[n - 1]);
      StepKeeps(states[n - 1], steps[n - 1]);
    }
  }

  /** Ids are never used twice: a new question's id belongs to no question before it. */
  lemma IdsAreFresh(states: seq<State>, steps: seq<Step>, n: nat)
    requires Run(states, steps) && n < |states|
    ensures states[n].qidSeq + 1 !in states[n].asks
  {
    RunsKeepInv(states, steps, n);
  }

  /** The channel of a pending question is empty: the "already answered" branch is never taken. */
  lemma PendingIsUnanswered(states: seq<State>, steps: seq<Step>, n: nat, q: nat)
    requires Run(states, steps) && n < |states|
    ensures states[n].pending <= states[n].asks.Keys
    ensures Accepts(states[n], q) <==> q in states[n].pending
  {
    RunsKeepInv(states, steps, n);
    if q in states[n].pending {
      assert AskInv(states[n], q);
    }
  }

  /** The accepted answer is fixed by the one post that was accepted: nothing before, nothing else after. */
  lemma AcceptedOnce(states: seq<State>, steps: seq<Step>, n: nat, q: nat)
    requires Run(states, steps) && n < |steps| && q in states[n].asks
    ensures q in states[n + 1].asks && states[n].pending <= states[n].asks.Keys
    ensures states[n].asks[q].accepted.Some? ==>
      states[n + 1].asks[q].accepted == states[n].asks[q].accepted && !Accepts(states[n], q)
    ensures states[n].asks[q].accepted.None? && states[n + 1].asks[q].accepted.Some? ==>
      steps[n].Post? && steps[n].qid == q && Accepts(states[n], q) && states[n + 1].asks[q].accepted == Some(steps[n].text)
  {
    RunsKeepInv(states, steps, n);
    assert Enabled(states[n], steps[n]) && states[n + 1] == Apply(states[n], steps[n]);
    assert AskInv(states[n], q);
  }

  /** Over a whole run, a question accepts at most one answer, and an Ask that returns a real answer returns that one. */
  lemma {:induction false} AcceptedForever(states: seq<State>, steps: seq<Step>, n: nat, m: nat, q: nat)
    requires Run(states, steps) && n <= m < |states| && q in states[n].asks && states[n].asks[q].accepted.Some?
    ensures q in states[m].asks && states[m].asks[q].accepted == states[n].asks[q].accepted
    ensures q !in states[m].pending
    ensures !states[m].asks[q].phase.Waiting? && states[m].asks[q].phase.ans.Real? ==>
      states[m].asks[q].phase.ans.text == states[n].asks[q].accepted.value
    decreases m
  {
    if n < m {
      AcceptedForever(states, steps, n, m - 1, q);
      AcceptedOnce(states, steps, m - 1, q);
    }
    RunsKeepInv(states, steps, m);
    assert AskInv(states[m], q);
  }

  /** Nothing is answered out of thin air: a real answer that Ask returns was accepted by an earlier post. */
  lemma {:induction false} RealAnswersWerePosted(states: seq<State>, steps: seq<Step>, n: nat, q: nat) returns (k: nat)
    requires Run(states, steps) && n < |states| && q in states[n].asks && states[n].asks[q].accepted.Some?
    ensures k < n && steps[k] == Post(q, states[n].asks[q].accepted.value)
    ensures states[k].pending <= states[k].asks.Keys && Accepts(states[k], q)
    decreases n
  {
    RunsKeepInv(states, steps, n - 1);
    assert Enabled(states[n - 1], steps[n - 1]) && states[n - 1 + 1] == Apply(states[n - 1], steps[n - 1]);
    if q in states[n - 1].asks {
      AcceptedOnce(states, steps, n - 1, q);
    }
    if q in states[n - 1].asks && states[n - 1].asks[q].accepted.Some? {
      k := RealAnswersWerePosted(states, steps, n - 1, q);
    } else {
      k := n - 1;
    }
  }

  /** Posting can succeed and the matching Ask still report a timeout: the timer fires before it takes the answer. */
  lemma AcceptedYetTimedOut(text: string) returns (states: seq<State>, steps: seq<Step>)
    ensures Run(states, steps) && steps == [Begin, Post(1, text), Expire(1), TakeTimeout(1), End(1)]
    ensures states[1].pending <= states[1].asks.Keys && Accepts(states[1], 1)
    ensures 1 in states[5].asks && states[5].asks[1].accepted == Some(text) && states[5].asks[1].phase == Returned(TimedOut)
  {
    var s1 := BeginStep(START);
    var s2 := PostStep(s1, 1, text);
    var s3 := Apply(s2, Expire(1));
    var s4 := Apply(s3, TakeTimeout(1));
    states := [START, s1, s2, s3, s4, Apply(s4, End(1))];
    steps := [Begin, Post(1, text), Expire(1), TakeTimeout(1), End(1)];
  }

  // ----- when an accepted answer is the one returned

  /** An answer has been accepted, and the call has yet to wake up. */
  ghost predicate Holding(s: State, q: nat) {
    q in s.asks && s.asks[q].phase == Waiting && s.asks[q].accepted.Some?
  }

  /** Something else than an answer can wake the call. */
  ghost predicate AtRisk(s: State, q: nat)
    requires q in s.asks
  {
    s.asks[q].expired || s.cancelled
  }

  /** The call has woken up, with the accepted answer or without it. */
  ghost predicate Answered(s: State, q: nat, text: string) {
    q in s.asks && !s.asks[q].phase.Waiting? && s.asks[q].phase.ans == Real(text)
  }

  ghost predicate Lost(s: State, q: nat) {
    q in s.asks && !s.asks[q].phase.Waiting? && s.asks[q].phase.ans == TimedOut
  }

  /** One step leaves an accepted answer waiting or hands it over, and can lose it exactly if there is a risk. */
  lemma HoldingStep(s: State, t: Step, q: nat)
    requires Inv(s) && Enabled(s, t) && Holding(s, q)
    ensures var u := Apply(s, t);
      || (Holding(u, q) && u.asks[q].accepted == s.asks[q].accepted)
      || Answered(u, q, s.asks[q].accepted.value)
      || (AtRisk(s, q) && Lost(u, q))
    ensures q in Apply(s, t).asks
    ensures !AtRisk(s, q) && t != Expire(q) && t != Cancel ==> !AtRisk(Apply(s, t), q)
    ensures Enabled(s, TakeAnswer(q))
    ensures AtRisk(s, q) <==> Enabled(s, TakeTimeout(q)) || Enabled(s, TakeCancel(q))
  {
    assert AskInv(s, q);
  }

  lemma AnsweredStep(s: State, t: Step, q: nat, text: string)
    requires Inv(s) && Enabled(s, t) && Answered(s, q, text)
    ensures Answered(Apply(s, t), q, text)
  {
    assert AskInv(s, q);
  }

  ghost predicate Continues(states: seq<State>, steps: seq<Step>, more: seq<State>, after: seq<Step>) {
    Run(states, steps) && Run(more, after) && states <= more && steps <= after
  }

  /** From the n-th state on, neither the question's timer nor a cancellation comes before the call has woken up. */
  ghost predicate Undisturbed(states: seq<State>, steps: seq<Step>, n: nat, q: nat)
    requires |states| == |steps| + 1
  {
    forall k :: n <= k < |steps| && q in states[k].asks && states[k].asks[q].phase == Waiting ==>
      steps[k] != Expire(q) && steps[k] != Cancel
  }

  /** Without a risk, and undisturbed, the accepted answer is kept or handed over. */
  lemma {:induction false} KeptOrAnswered(states: seq<State>, steps: seq<Step>, n: nat, m: nat, q: nat)
    requires Run(states, steps) && n <= m < |states| && Holding(states[n], q) && !AtRisk(states[n], q)
    requires Undisturbed(states, steps, n, q)
    ensures var text := states[n].asks[q].accepted.value;
      || (Holding(states[m], q) && !AtRisk(states[m], q) && states[m].asks[q].accepted == Some(text))
      || Answered(states[m], q, text)
    decreases m
  {
    if n < m {
      var text := states[n].asks[q].accepted.value;
      KeptOrAnswered(states, steps, n, m - 1, q);
      RunsKeepInv(states, steps, m - 1);
      assert Enabled(states[m - 1], steps[m - 1]) && states[m - 1 + 1] == Apply(states[m - 1], steps[m - 1]);
      if Holding(states[m - 1], q) {
        HoldingStep(states[m - 1], steps[m - 1], q);
      } else {
        AnsweredStep(states[m - 1], steps[m - 1], q, text);
      }
    }
  }

  /** Where there is a risk, the very next step can lose the answer. */
  lemma RiskLoses(states: seq<State>, steps: seq<Step>, q: nat) returns (more: seq<State>, after: seq<Step>)
    requires Run(states, steps) && Holding(states[|steps|], q) && AtRisk(states[|steps|], q)
    ensures Continues(states, steps, more, after) && Undisturbed(more, after, |steps|, q) && Lost(more[|after|], q)
  {
    var s := states[|steps|];
    RunsKeepInv(states, steps, |steps|);
    var t := if s.asks[q].expired then TakeTimeout(q) else TakeCancel(q);
    more, after := states + [Apply(s, t)], steps + [t];
    forall i | 0 <= i < |after|
      ensures more[i].pending <= more[i].asks.Keys && Enabled(more[i], after[i]) && more[i + 1] == Apply(more[i], after[i])
    {
      if i < |steps| {
        assert more[i] == states[i] && more[i + 1] == states[i + 1] && after[i] == steps[i];
      }
    }
  }

  lemma {:induction false} AnsweredForever(states: seq<State>, steps: seq<Step>, n: nat, m: nat, q: nat, text: string)
    requires Run(states, steps) && n <= m < |states| && Answered(states[n], q, text)
    ensures Answered(states[m], q, text)
    decreases m
  {
    if n < m {
      AnsweredForever(states, steps, n, m - 1, q, text);
      RunsKeepInv(states, steps, m - 1);
      assert Enabled(states[m - 1], steps[m - 1]) && states[m - 1 + 1] == Apply(states[m - 1], steps[m - 1]);
      AnsweredStep(states[m - 1], steps[m - 1], q, text);
    }
  }

  /** However the run goes on undisturbed, the call has returned the answer or is still to take it. */
  ghost predicate Delivers(states: seq<State>, steps: seq<Step>, q: nat, text: string) {
    forall more, after :: Continues(states, steps, more, after) && Undisturbed(more, after, |steps|, q) ==>
      Holding(more[|after|], q) || Answered(more[|after|], q, text)
  }

  /**
   * An accepted answer is the one returned in every undisturbed continuation exactly if the call has taken it already,
   * or the timer has not fired and nobody has cancelled so far.
   */
  lemma AcceptedIsReturnedExactly(states: seq<State>, steps: seq<Step>, q: nat)
    requires Run(states, steps) && q in states[|steps|].asks && states[|steps|].asks[q].accepted.Some?
    ensures var s := states[|steps|];
      var text := s.asks[q].accepted.value;
      Delivers(states, steps, q, text) <==> Answered(s, q, text) || !AtRisk(s, q)
  {
    var s := states[|steps|];
    var text := s.asks[q].accepted.value;
    RunsKeepInv(states, steps, |steps|);
    assert AskInv(s, q);
    if Answered(s, q, text) {
      forall more, after | Continues(states, steps, more, after)
        ensures Answered(more[|after|], q, text)
      {
        assert more[|steps|] == s;
        AnsweredForever(more, after, |steps|, |after|, q, text);
      }
    } else if Lost(s, q) {
      assert Continues(states, steps, states, steps) && Undisturbed(states, steps, |steps|, q);
    } else if AtRisk(s, q) {
      var more, after := RiskLoses(states, steps, q);
      assert !Holding(more[|after|], q) && !Answered(more[|after|], q, text);
    } else {
      forall more, after | Continues(states, steps, more, after) && Undisturbed(more, after, |steps|, q)
        ensures Holding(more[|after|], q) || Answered(more[|after|], q, text)
      {
        assert more[|steps|] == s;
        KeptOrAnswered(more, after, |steps|, |after|, q);
      }
    }
  }

  /**
   * Whenever a post is accepted, the call waiting for it or not, its answer is the one returned in every undisturbed
   * continuation exactly if the timer has not fired and nobody has cancelled so far.
   */
  lemma PostIsReturnedExactly(states: seq<State>, steps: seq<Step>, q: nat, text: string)
    requires Run(states, steps) && steps != [] && steps[|steps| - 1] == Post(q, text)
    requires var before := states[|steps| - 1]; before.pending <= before.asks.Keys && Accepts(before, q)
    ensures q in states[|steps|].asks
    ensures Delivers(states, steps, q, text) <==> !AtRisk(states[|steps|], q)
  {
    hide Delivers;
    var n := |steps| - 1;
    RunsKeepInv(states, steps, n);
    assert Enabled(states[n], steps[n]) && states[n + 1] == Apply(states[n], steps[n]);
    assert AskInv(states[n], q);
    AcceptedIsReturnedExactly(states, steps, q);
  }

  class WebInterviewer {
    var pending: set<nat>
    var qidSeq: nat
    var cancelled: bool
    var asks: map<nat, Ask>

    ghost function Now(): State
      reads this
    {
      State(pending, qidSeq, cancelled, asks)
    }

    constructor ()
      ensures Now() == START && Inv(Now())
    {
      pending, qidSeq, cancelled, asks := {}, 0, false, map[];
    }

    /** The locked first part of Ask. */
    method AskBegin() returns (qid: nat)
      requires Inv(Now())
      modifies this
      ensures Now() == BeginStep(old(Now())) && Inv(Now()) && qid == qidSeq && qid !in old(asks)
    {
      StepKeeps(Now(), Begin);
      qidSeq := qidSeq + 1;
      qid := qidSeq;
      asks := asks[qid := NEW_ASK];
      pending := pending + {qid};
    }

    /** The locked last part of Ask, run as it returns. */
    method AskEnd(qid: nat) returns (ans: Answer)
      requires Inv(Now()) && qid in asks && asks[qid].phase.Woken?
      modifies this
      ensures Now() == Apply(old(Now()), End(qid)) && Inv(Now()) && ans == old(asks)[qid].phase.ans
      ensures ans.Real? ==> asks[qid].accepted == Some(ans.text)
    {
      StepKeeps(Now(), End(qid));
      ans := asks[qid].phase.ans;
      assert AskInv(Now(), qid);
      asks := asks[qid := asks[qid].(phase := Returned(ans))];
      pending := pending - {qid};
    }

    /** Delivers an answer to a pending question; false if there is no such question. */
    method Post(qid: nat, text: string) returns (ok: bool)
      requires Inv(Now())
      modifies this
      ensures Now() == PostStep(old(Now()), qid, text) && Inv(Now())
      ensures ok == (qid in old(pending))
      ensures ok ==> asks[qid].accepted == Some(text) && qid !in pending
    {
      StepKeeps(Now(), Step.Post(qid, text));
      if qid !in pending {
        return false;
      }
      assert AskInv(Now(), qid);
      var a := asks[qid];
      if |a.chan| < 1 {
        asks := asks[qid := a.(chan := a.chan + [text], accepted := Some(text))];
        pending := pending - {qid};
        return true;
      } else {
        assert false;
      }
      ok := false;
    }

    /** Wakes every waiting Ask; calling it again changes nothing. */
    method CancelAll()
      requires Inv(Now())
      modifies this
      ensures Now() == Apply(old(Now()), Cancel) && Inv(Now())
    {
      StepKeeps(Now(), Cancel);
      if !cancelled {
        cancelled := true;
      }
    }
  }
}
