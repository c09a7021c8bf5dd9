/** A response sent as a stream of events comes back out of the accumulator as it was. */
module StreamRoundTrip {
  import opened GoStrings
  import opened StreamAccumulator

  /** A part to be sent: its id among the texts, if it is one, and where what it says is cut in two. */
  datatype Sending = Sending(textId: string, part: Part, cut: nat) {
    function Ref(): Ref { if part.TextPart? then TextRef(textId) else CallRef(part.call.id) }

    /** Ids, names, types and arguments have no white space around them; only the type and the arguments may be empty. */
    predicate Sendable() {
      match part
      case TextPart(t) => IsTrimmed(textId) && textId != "" && t != "" && cut <= |t|
      case CallPart(c) =>
        && IsTrimmed(c.id) && c.id != "" && IsTrimmed(c.name) && c.name != "" && IsTrimmed(c.kind)
        && IsTrimmed(c.arguments) && cut <= |c.arguments|
    }

    /** A start, two deltas, and for a call an end that says everything once more. */
    function Events(): seq<Event>
      requires Sendable()
    {
      match part
      case TextPart(t) => [OfText(TextStart, textId, ""), OfText(TextDelta, textId, t[..cut]), OfText(TextDelta, textId, t[cut..])]
      case CallPart(c) =>
        [OfCall(ToolStart, c.(arguments := "")), OfCall(ToolDelta, Call(c.id, "", "", c.arguments[..cut])),
         OfCall(ToolDelta, Call(c.id, "", "", c.arguments[cut..])), OfCall(ToolEnd, c)]
    }

    /** What arrives: a call without a type is a function. */
    function Received(): Part {
      if part.CallPart? && part.call.kind == "" then CallPart(part.call.(kind := "function")) else part
    }
  }

  predicate IsTrimmed(s: string) { TrimSpace(s) == s }

  function OfText(kind: Kind, id: string, delta: string): Event { Event(kind, delta, id, None, None, None, None, None) }

  function OfCall(kind: Kind, call: Call): Event { Event(kind, "", "", Some(call), None, None, None, None) }

  ghost predicate AllSendable(items: seq<Sending>) {
    && (forall i :: 0 <= i < |items| ==> items[i].Sendable())
    && forall i, j :: 0 <= i < j < |items| ==> items[i].Ref() != items[j].Ref()
  }

  ghost function Stream(items: seq<Sending>): seq<Event>
    requires AllSendable(items)
  {
    if items == [] then [] else Stream(items[..|items| - 1]) + items[|items| - 1].Events()
  }

  /** An event about one part leaves the others as they are. */
  lemma {:induction false} OthersSame(evs: seq<Event>, ev: Event, parts: seq<Ref>)
    requires RefOf(evs, ev).Some? ==> RefOf(evs, ev).value !in parts
    ensures Content(evs + [ev], parts) == Content(evs, parts)
  {
    hide TrimSpace, TextOf, NameOf, KindOf, Whole, Deltas, RefOf;
    if parts != [] {
      OthersSame(evs, ev, parts[..|parts| - 1]);
      assert parts[|parts| - 1] in parts;
      match parts[|parts| - 1] {
        case TextRef(id) => OneMoreText(evs, ev, id);
        case CallRef(id) => OneMoreCall(evs, ev, id);
      }
    }
  }

  /** One more event of the part that is being sent. */
  lemma OneMoreEvent(evs: seq<Event>, ev: Event, parts: seq<Ref>, r: Ref)
    requires RefOf(evs, ev) == Some(r) && r !in parts && (Parts(evs) == parts || Parts(evs) == parts + [r])
    ensures Parts(evs + [ev]) == parts + [r]
    ensures Content(evs + [ev], parts) == Content(evs, parts)
  {
    hide RefOf, Content, Nameless, FinishOf, UsageOf, Final, Total;
    OneMore(evs, ev);
    OthersSame(evs, ev, parts);
  }

  lemma TextArrives(evs: seq<Event>, s: Sending)
    requires s.Sendable() && s.part.TextPart? && s.Ref() !in Parts(evs)
    ensures var all := evs + s.Events();
      && Parts(all) == Parts(evs) + [s.Ref()] && Content(all, Parts(evs)) == Content(evs, Parts(evs))
      && TextOf(all, s.textId) == s.part.text
  {
    hide Parts, Content, TextOf;
    var id, t, r, parts := s.textId, s.part.text, s.Ref(), Parts(evs);
    var e1, e2, e3 := OfText(TextStart, id, ""), OfText(TextDelta, id, t[..s.cut]), OfText(TextDelta, id, t[s.cut..]);
    var s1 := evs + [e1];
    var s2 := s1 + [e2];
    Unmentioned(evs, id);
    OneMoreEvent(evs, e1, parts, r);
    OneMoreText(evs, e1, id);
    OneMoreEvent(s1, e2, parts, r);
    OneMoreText(s1, e2, id);
    OneMoreEvent(s2, e3, parts, r);
    OneMoreText(s2, e3, id);
    assert evs + s.Events() == s2 + [e3] && "" + t[..s.cut] + t[s.cut..] == t;
  }

  /** One more event of the call that is being sent. */
  lemma CallStep(evs: seq<Event>, kind: Kind, c: Call, parts: seq<Ref>)
    requires kind.ToolStart? || kind.ToolDelta? || kind.ToolEnd?
    requires IsTrimmed(c.id) && c.id != "" && IsTrimmed(c.name) && IsTrimmed(c.kind)
    requires CallRef(c.id) !in parts && (Parts(evs) == parts || Parts(evs) == parts + [CallRef(c.id)])
    ensures var all := evs + [OfCall(kind, c)];
      && Parts(all) == parts + [CallRef(c.id)] && Content(all, parts) == Content(evs, parts)
      && NameOf(all, c.id) == (if c.name != "" then c.name else NameOf(evs, c.id))
      && KindOf(all, c.id) == (if c.kind != "" then c.kind else KindOf(evs, c.id))
      && Deltas(all, c.id) == (if kind.ToolDelta? then Deltas(evs, c.id) + c.arguments else Deltas(evs, c.id))
      && Whole(all, c.id) ==
        (if !kind.ToolDelta? && Whole(evs, c.id) == "" && Deltas(evs, c.id) == "" then c.arguments else Whole(evs, c.id))
  {
    hide Parts, Content, NameOf, KindOf, Whole, Deltas, TrimSpace;
    var ev := OfCall(kind, c);
    OneMoreEvent(evs, ev, parts, CallRef(c.id));
    OneMoreCall(evs, ev, c.id);
  }

  lemma CallArrives(evs: seq<Event>, s: Sending)
    requires s.Sendable() && s.part.CallPart? && s.Ref() !in Parts(evs)
    ensures var all, c := evs + s.Events(), s.part.call;
      && Parts(all) == Parts(evs) + [s.Ref()] && Content(all, Parts(evs)) == Content(evs, Parts(evs))
      && NameOf(all, c.id) == c.name && KindOf(all, c.id) == c.kind
      && Whole(all, c.id) + Deltas(all, c.id) == c.arguments
  {
    hide Parts, Content, NameOf, KindOf, Whole, Deltas, TrimSpace, OfCall, Sending.Events;
    var c, parts := s.part.call, Parts(evs);
    var a, b := c.arguments[..s.cut], c.arguments[s.cut..];
    var first, p, q := c.(arguments := ""), Call(c.id, "", "", a), Call(c.id, "", "", b);
    var s1 := evs + [OfCall(ToolStart, first)];
    var s2 := s1 + [OfCall(ToolDelta, p)];
    var s3 := s2 + [OfCall(ToolDelta, q)];
    FourEvents(evs, s);
    Joined(c.arguments, s.cut);
    Unmentioned(evs, c.id);
    CallStep(evs, ToolStart, first, parts);
    CallStep(s1, ToolDelta, p, parts);
    CallStep(s2, ToolDelta, q, parts);
    CallStep(s3, ToolEnd, c, parts);
  }

  lemma FourEvents(evs: seq<Event>, s: Sending)
    requires s.Sendable() && s.part.CallPart?
    ensures var c := s.part.call;
      evs + s.Events() ==
      evs + [OfCall(ToolStart, c.(arguments := ""))] + [OfCall(ToolDelta, Call(c.id, "", "", c.arguments[..s.cut]))]
        + [OfCall(ToolDelta, Call(c.id, "", "", c.arguments[s.cut..]))] + [OfCall(ToolEnd, c)]
  {
    hide TrimSpace, OfCall;
  }

  /** The empty text is trimmed, and a text cut in two can be put together again. */
  lemma Joined(t: string, cut: nat)
    requires cut <= |t|
    ensures IsTrimmed("") && "" + t[..cut] + t[cut..] == t && "" + t == t && t + "" == t
  {
  }

  /** What a part sent in pieces shows once they are all there. */
  lemma PartArrives(evs: seq<Event>, s: Sending)
    requires s.Sendable() && s.Ref() !in Parts(evs)
    ensures var all := evs + s.Events();
      Parts(all) == Parts(evs) + [s.Ref()] && Content(all, Parts(all)) == Content(evs, Parts(evs)) + [s.Received()]
  {
    hide TextOf, NameOf, KindOf, Whole, Deltas, Parts, Sending.Events, TrimSpace;
    var all := evs + s.Events();
    if s.part.TextPart? {
      TextArrives(evs, s);
    } else {
      CallArrives(evs, s);
    }
    assert Parts(all)[..|Parts(all)| - 1] == Parts(evs);
    assert s.Sendable();
  }

  lemma NothingArrives()
    ensures Stream([]) == [] && Parts([]) == [] && Content([], []) == []
  {
  }

  lemma {:induction false} StreamArrives(items: seq<Sending>)
    requires AllSendable(items)
    ensures var evs := Stream(items);
      && |Parts(evs)| == |items| == |Content(evs, Parts(evs))|
      && forall i :: 0 <= i < |items| ==>
           Parts(evs)[i] == items[i].Ref() && Content(evs, Parts(evs))[i] == items[i].Received()
  {
    hide Content, Parts, Sending.Events, Sending.Ref, Sending.Received, Sending.Sendable;
    if items == [] {
      NothingArrives();
    } else {
      var front, last := items[..|items| - 1], items[|items| - 1];
      StreamArrives(front);
      var evs := Stream(front);
      assert last.Ref() !in Parts(evs);
      PartArrives(evs, last);
    }
  }

  /** A response sent part by part and then finished is the response received, whatever the cuts: every part once, in order, and whole. */
  lemma StreamRoundTrip(items: seq<Sending>, finish: FinishReason, usage: Usage)
    requires AllSendable(items)
    ensures
      var end := Event(Finish, "", "", None, Some(finish), Some(usage), None, None);
      Final(Stream(items) + [end]) ==
      Some(Response(if items == [] then [TextPart("")] else seq(|items|, i requires 0 <= i < |items| => items[i].Received()),
                    finish, usage))
  {
    hide Content, Parts, RefOf;
    var evs := Stream(items);
    var end := Event(Finish, "", "", None, Some(finish), Some(usage), None, None);
    StreamArrives(items);
    NoPart(evs, end);
    OthersSame(evs, end, Parts(evs));
    var content := Content(evs, Parts(evs));
    FinishedTotal(evs, end, content);
    EachReceived(items, content);
    hide *;
  }

  lemma EachReceived(items: seq<Sending>, content: seq<Part>)
    requires |content| == |items| && forall i :: 0 <= i < |items| ==> content[i] == items[i].Received()
    ensures content == seq(|items|, i requires 0 <= i < |items| => items[i].Received())
  {
    hide *;
  }

  lemma FinishedTotal(evs: seq<Event>, end: Event, content: seq<Part>)
    requires end.kind.Finish? && end.response.None? && end.finish.Some? && end.usage.Some?
    requires RefOf(evs, end) == None && content == Content(evs + [end], Parts(evs))
    ensures Final(evs + [end]) ==
      Some(Response(if content == [] then [TextPart("")] else content, end.finish.value, end.usage.value))
  {
    hide Content, Parts, RefOf, Nameless, FinishOf, UsageOf;
    OneMore(evs, end);
  }

  lemma NoPart(evs: seq<Event>, ev: Event)
    requires ev.kind.Finish?
    ensures RefOf(evs, ev) == None
  {
  }
}
