/** Turning a stream of model events back into one response. */
module StreamAccumulator {
  import opened GoStrings

  datatype Call = Call(id: string, name: string, kind: string, arguments: string)

  datatype Part = TextPart(text: string) | CallPart(call: Call)

  /** Why a response ended and what it cost; the zero values stand for "not reported". */
  datatype FinishReason = FinishReason(reason: string)
  datatype Usage = Usage(input: int, output: int)

  datatype Response = Response(content: seq<Part>, finish: FinishReason, usage: Usage)

  /** The kinds of events; the accumulator passes over the last four. */
  datatype Kind =
    | TextStart | TextDelta | ToolStart | ToolDelta | ToolEnd | Finish | StreamStart | StepFinish | Failure | Other

  datatype Event = Event(
    kind: Kind, delta: string, textId: string, call: Option<Call>, finish: Option<FinishReason>, usage: Option<Usage>,
    response: Option<Response>, err: Option<string>)

  /** A part of the response under construction. */
  datatype Ref = TextRef(id: string) | CallRef(id: string)

  // ----- what a list of events means

  predicate IsTool(ev: Event) { (ev.kind.ToolStart? || ev.kind.ToolDelta? || ev.kind.ToolEnd?) && ev.call.Some? }

  predicate IsText(ev: Event) { ev.kind.TextStart? || ev.kind.TextDelta? }

  /** How many tool events so far came without an id; each of those gets an id of its own. */
  function Nameless(evs: seq<Event>): nat {
    if evs == [] then 0
    else
      var ev := evs[|evs| - 1];
      Nameless(evs[..|evs| - 1]) + if IsTool(ev) && TrimSpace(ev.call.value.id) == "" then 1 else 0
  }

  /** The part that an event is about, after the events before it. */
  function RefOf(before: seq<Event>, ev: Event): Option<Ref> {
    if IsText(ev) then
      var id := TrimSpace(ev.textId);
      Some(TextRef(if id == "" then "text_0" else id))
    else if IsTool(ev) then
      var id := TrimSpace(ev.call.value.id);
      Some(CallRef(if id == "" then "tool_call_" + Decimal(1 + Nameless(before)) else id))
    else None
  }

  /** The parts in the order they are first mentioned, each once. */
  function Parts(evs: seq<Event>): seq<Ref> {
    if evs == [] then []
    else
      var before, ev := evs[..|evs| - 1], evs[|evs| - 1];
      var r := RefOf(before, ev);
      if r.Some? && r.value !in Parts(before) then Parts(before) + [r.value] else Parts(before)
  }

  /** All the text sent for a part, joined up. */
  function TextOf(evs: seq<Event>, id: string): string {
    if evs == [] then ""
    else
      var before, ev := evs[..|evs| - 1], evs[|evs| - 1];
      TextOf(before, id) + if ev.kind.TextDelta? && RefOf(before, ev) == Some(TextRef(id)) then ev.delta else ""
  }

  /** The pieces of a call's arguments sent as deltas, joined up. */
  function Deltas(evs: seq<Event>, id: string): string {
    if evs == [] then ""
    else
      var before, ev := evs[..|evs| - 1], evs[|evs| - 1];
      Deltas(before, id) + if ev.kind.ToolDelta? && RefOf(before, ev) == Some(CallRef(id)) then ev.call.value.arguments else ""
  }

  /** The arguments given whole: the first that a start or an end of the call brings, if no delta came before it. */
  function Whole(evs: seq<Event>, id: string): string {
    if evs == [] then ""
    else
      var before, ev := evs[..|evs| - 1], evs[|evs| - 1];
      if Whole(before, id) == "" && Deltas(before, id) == ""
        && (ev.kind.ToolStart? || ev.kind.ToolEnd?) && RefOf(before, ev) == Some(CallRef(id))
      then ev.call.value.arguments
      else Whole(before, id)
  }

  /** The last name a call was given that is not blank; and the same for its type. */
  function NameOf(evs: seq<Event>, id: string): string {
    if evs == [] then ""
    else
      var before, ev := evs[..|evs| - 1], evs[|evs| - 1];
      if IsTool(ev) && RefOf(before, ev) == Some(CallRef(id)) && TrimSpace(ev.call.value.name) != ""
      then TrimSpace(ev.call.value.name)
      else NameOf(before, id)
  }

  function KindOf(evs: seq<Event>, id: string): string {
    if evs == [] then ""
    else
      var before, ev := evs[..|evs| - 1], evs[|evs| - 1];
      if IsTool(ev) && RefOf(before, ev) == Some(CallRef(id)) && TrimSpace(ev.call.value.kind) != ""
      then TrimSpace(ev.call.value.kind)
      else KindOf(before, id)
  }

  predicate Finished(evs: seq<Event>) { exists i :: 0 <= i < |evs| && evs[i].kind.Finish? }

  function FinishOf(evs: seq<Event>): FinishReason {
    if evs == [] then FinishReason("")
    else
      var ev := evs[|evs| - 1];
      if ev.kind.Finish? then (if ev.finish.Some? then ev.finish.value else FinishReason(""))
      else FinishOf(evs[..|evs| - 1])
  }

  function UsageOf(evs: seq<Event>): Usage {
    if evs == [] then Usage(0, 0)
    else
      var ev := evs[|evs| - 1];
      if ev.kind.Finish? then (if ev.usage.Some? then ev.usage.value else Usage(0, 0)) else UsageOf(evs[..|evs| - 1])
  }

  /** What a part contributes: text that is not empty, or a call that has a name. */
  function Rendered(evs: seq<Event>, r: Ref): seq<Part> {
    match r
    case TextRef(id) => if TextOf(evs, id) != "" then [TextPart(TextOf(evs, id))] else []
    case CallRef(id) =>
      if NameOf(evs, id) == "" then []
      else [CallPart(Call(id, NameOf(evs, id), if KindOf(evs, id) == "" then "function" else KindOf(evs, id),
                          TrimSpace(Whole(evs, id) + Deltas(evs, id))))]
  }

  function Content(evs: seq<Event>, parts: seq<Ref>): seq<Part> {
    if parts == [] then [] else Content(evs, parts[..|parts| - 1]) + Rendered(evs, parts[|parts| - 1])
  }

  /** The response that a list of events adds up to. */
  function Total(evs: seq<Event>): Response {
    var content := Content(evs, Parts(evs));
    Response(if content == [] then [TextPart("")] else content, FinishOf(evs), UsageOf(evs))
  }

  /** The final response: the one the last finish event brings, or else what everything up to it adds up to. */
  function Final(evs: seq<Event>): Option<Response> {
    if evs == [] then None
    else
      var ev := evs[|evs| - 1];
      if ev.kind.Finish? then (if ev.response.Some? then ev.response else Some(Total(evs))) else Final(evs[..|evs| - 1])
  }

  /** Whether any event so far had something to show. */
  predicate Visible(evs: seq<Event>) {
    exists i :: 0 <= i < |evs| && (IsTool(evs[i]) || (evs[i].kind.TextDelta? && evs[i].delta != ""))
  }

  /** What one more event adds to each of these. */
  lemma OneMore(evs: seq<Event>, ev: Event)
    ensures var all, r := evs + [ev], RefOf(evs, ev);
      && Parts(all) == (if r.Some? && r.value !in Parts(evs) then Parts(evs) + [r.value] else Parts(evs))
      && Nameless(all) == Nameless(evs) + (if IsTool(ev) && TrimSpace(ev.call.value.id) == "" then 1 else 0)
      && (!ev.kind.Finish? ==> FinishOf(all) == FinishOf(evs) && UsageOf(all) == UsageOf(evs) && Final(all) == Final(evs))
    ensures ev.kind.Finish? ==>
      var all := evs + [ev];
      && FinishOf(all) == (if ev.finish.Some? then ev.finish.value else FinishReason(""))
      && UsageOf(all) == (if ev.usage.Some? then ev.usage.value else Usage(0, 0))
      && Final(all) == (if ev.response.Some? then ev.response else Some(Total(all)))
    ensures Finished(evs + [ev]) <==> Finished(evs) || ev.kind.Finish?
    ensures Visible(evs + [ev]) <==> Visible(evs) || IsTool(ev) || (ev.kind.TextDelta? && ev.delta != "")
  {
    hide TrimSpace;
    var all := evs + [ev];
    assert all[..|all| - 1] == evs && all[|all| - 1] == ev;
    assert forall i :: 0 <= i < |evs| ==> all[i] == evs[i];
  }

  lemma OneMoreText(evs: seq<Event>, ev: Event, id: string)
    ensures TextOf(evs + [ev], id) ==
      if ev.kind.TextDelta? && RefOf(evs, ev) == Some(TextRef(id)) then TextOf(evs, id) + ev.delta else TextOf(evs, id)
  {
    hide TrimSpace;
    assert (evs + [ev])[..|evs|] == evs;
  }

  lemma OneMoreCall(evs: seq<Event>, ev: Event, id: string)
    ensures var all, mine := evs + [ev], RefOf(evs, ev) == Some(CallRef(id));
      && NameOf(all, id) == (if mine && TrimSpace(ev.call.value.name) != "" then TrimSpace(ev.call.value.name) else NameOf(evs, id))
      && KindOf(all, id) == (if mine && TrimSpace(ev.call.value.kind) != "" then TrimSpace(ev.call.value.kind) else KindOf(evs, id))
      && Deltas(all, id) == (if mine && ev.kind.ToolDelta? then Deltas(evs, id) + ev.call.value.arguments else Deltas(evs, id))
      && Whole(all, id) ==
        (if mine && !ev.kind.ToolDelta? && Whole(evs, id) == "" && Deltas(evs, id) == "" then ev.call.value.arguments
         else Whole(evs, id))
  {
    hide TrimSpace;
    assert (evs + [ev])[..|evs|] == evs;
  }

  /** A part nobody has mentioned has nothing in it. */
  lemma {:induction false} Unmentioned(evs: seq<Event>, id: string)
    ensures TextRef(id) !in Parts(evs) ==> TextOf(evs, id) == ""
    ensures CallRef(id) !in Parts(evs) ==>
      NameOf(evs, id) == "" && KindOf(evs, id) == "" && Deltas(evs, id) == "" && Whole(evs, id) == ""
  {
    hide TrimSpace;
    if evs != [] {
      Unmentioned(evs[..|evs| - 1], id);
    }
  }

  /** Parts come once each. */
  lemma {:induction false} PartsDiffer(evs: seq<Event>, i: nat, j: nat)
    requires i < j < |Parts(evs)|
    ensures Parts(evs)[i] != Parts(evs)[j]
  {
    hide TrimSpace;
    var before := evs[..|evs| - 1];
    if j < |Parts(before)| {
      PartsDiffer(before, i, j);
    }
  }

  /** Exactly the parts that some event is about are there. */
  ghost predicate Mentioned(evs: seq<Event>, r: Ref) { exists i :: 0 <= i < |evs| && MentionedAt(evs, i, r) }

  ghost predicate MentionedAt(evs: seq<Event>, i: nat, r: Ref)
    requires i < |evs|
  {
    RefOf(evs[..i], evs[i]) == Some(r)
  }

  lemma {:induction false} PartsAreMentioned(evs: seq<Event>, r: Ref)
    ensures r in Parts(evs) <==> Mentioned(evs, r)
  {
    hide RefOf;
    if evs != [] {
      var n := |evs| - 1;
      var before := evs[..n];
      PartsAreMentioned(before, r);
      forall i | 0 <= i < n
        ensures MentionedAt(before, i, r) <==> MentionedAt(evs, i, r)
      {
        assert before[..i] == evs[..i] && before[i] == evs[i];
      }
      assert MentionedAt(evs, n, r) <==> RefOf(before, evs[n]) == Some(r);
    }
  }

  /** The order is that of first mention: the parts of a shorter list are the first of the parts of a longer one. */
  lemma {:induction false} PartsGrow(evs: seq<Event>, n: nat)
    requires n <= |evs|
    ensures Parts(evs[..n]) <= Parts(evs)
  {
    if n < |evs| {
      PartsGrow(evs[..|evs| - 1], n);
      assert evs[..|evs| - 1][..n] == evs[..n];
    } else {
      assert evs[..n] == evs;
    }
  }

  /** Arguments sent in pieces are never doubled: once there are any, an end of the call adds nothing. */
  lemma EndAddsNothing(evs: seq<Event>, ev: Event, id: string)
    requires ev.kind.ToolEnd? && Whole(evs, id) + Deltas(evs, id) != ""
    ensures Whole(evs + [ev], id) + Deltas(evs + [ev], id) == Whole(evs, id) + Deltas(evs, id)
  {
    hide TrimSpace;
    OneMoreCall(evs, ev, id);
  }

  // ----- the accumulator

  /** Keys of calls are trimmed and not blank. */
  lemma CallIdTrimmed(evs: seq<Event>, ev: Event)
    requires IsTool(ev)
    ensures var id := RefOf(evs, ev).value.id; id != "" && TrimSpace(id) == id
  {
    if TrimSpace(ev.call.value.id) == "" {
      var d := Decimal(1 + Nameless(evs));
      DigitsLast(1 + Nameless(evs));
      var id := "tool_call_" + d;
      assert id[0] == 't' && id[|id| - 1] == d[|d| - 1];
      TrimmedAlready(id);
    } else {
      TrimTwice(ev.call.value.id);
    }
  }

  lemma DigitsLast(n: nat)
    ensures !IsSpace(Decimal(n)[|Decimal(n)| - 1])
  {
  }

  datatype CallState = CallState(id: string, name: string, kind: string, args: string, sawDelta: bool)

  function Key(r: Ref): string {
    match r
    case TextRef(id) => "text:" + id
    case CallRef(id) => "tool_call:" + id
  }

  lemma KeysDiffer(a: Ref, b: Ref)
    requires Key(a) == Key(b)
    ensures a == b
  {
    var k := Key(a);
    if a.TextRef? {
      assert k[1] == 'e' && k[5..] == a.id;
    } else {
      assert k[1] == 'o' && k[10..] == a.id;
    }
    if b.TextRef? {
      assert k[1] == 'e' && k[5..] == b.id;
    } else {
      assert k[1] == 'o' && k[10..] == b.id;
    }
  }

  /** The accumulator's fields. */
  datatype Fields = Fields(
    textById: map<string, string>, callById: map<string, CallState>, contentLog: seq<Ref>, seenParts: set<string>,
    finish: Option<FinishReason>, usage: Option<Usage>, nextToolId: nat)

  /** The state a call is in after the events so far. */
  ghost predicate CallIs(c: CallState, evs: seq<Event>, id: string) {
    && c.id == id && id != "" && TrimSpace(id) == id
    && c.name == NameOf(evs, id) && TrimSpace(c.name) == c.name
    && c.kind == KindOf(evs, id) && TrimSpace(c.kind) == c.kind
    && c.args == Whole(evs, id) + Deltas(evs, id)
    && (c.sawDelta <==> Deltas(evs, id) != "")
  }

  /** The log and its index of keys. */
  ghost predicate LogIs(f: Fields, evs: seq<Event>) {
    && f.contentLog == Parts(evs) && f.nextToolId == 1 + Nameless(evs)
    && (forall r :: r in f.contentLog <==> Key(r) in f.seenParts)
  }

  /** Every field says what the events so far add up to. */
  ghost predicate Collected(f: Fields, evs: seq<Event>) {
    && LogIs(f, evs)
    && (forall id :: id in f.textById <==> TextRef(id) in f.contentLog)
    && (forall id :: id in f.callById <==> CallRef(id) in f.contentLog)
    && (forall id :: id in f.textById ==> f.textById[id] == TextOf(evs, id))
    && (forall id :: id in f.callById ==> CallIs(f.callById[id], evs, id))
    && (if f.finish.Some? then f.finish.value else FinishReason("")) == FinishOf(evs)
    && (if f.usage.Some? then f.usage.value else Usage(0, 0)) == UsageOf(evs)
  }

  // ----- what the operations do to the fields

  function WithPart(f: Fields, r: Ref): Fields {
    if Key(r) in f.seenParts then f else f.(seenParts := f.seenParts + {Key(r)}, contentLog := f.contentLog + [r])
  }

  function WithText(f: Fields, k: string): (g: Fields)
    ensures k in g.textById
  {
    if k in f.textById then f else WithPart(f.(textById := f.textById[k := ""]), TextRef(k))
  }

  function WithCall(f: Fields, k: string): (g: Fields)
    ensures k in g.callById
  {
    if k in f.callById then f else WithPart(f.(callById := f.callById[k := CallState(k, "", "", "", false)]), CallRef(k))
  }

  function Named(c: CallState, call: Call): CallState {
    c.(name := if TrimSpace(call.name) != "" then TrimSpace(call.name) else c.name,
       kind := if TrimSpace(call.kind) != "" then TrimSpace(call.kind) else c.kind)
  }

  /** A start or an end fills in arguments that are still missing; a delta always adds to them. */
  function Fed(c: CallState, kind: Kind, arguments: string): CallState {
    if kind.ToolDelta? then
      (if arguments != "" then c.(sawDelta := true, args := c.args + arguments) else c)
    else if !c.sawDelta && c.args == "" && arguments != "" then c.(args := arguments)
    else c
  }

  function TextUpdate(f: Fields, k: string, added: string): Fields {
    var g := WithText(f, k);
    if added != "" then g.(textById := g.textById[k := g.textById[k] + added]) else g
  }

  function CallUpdate(f: Fields, k: string, ev: Event): Fields
    requires IsTool(ev)
  {
    var call := ev.call.value;
    var g := WithCall(if TrimSpace(call.id) == "" then f.(nextToolId := f.nextToolId + 1) else f, k);
    g.(callById := g.callById[k := Fed(Named(g.callById[k], call), ev.kind, call.arguments)])
  }

  /** Recording the part of an event keeps the log the list of parts. */
  lemma LogMore(f: Fields, evs: seq<Event>, ev: Event, r: Ref)
    requires LogIs(f, evs) && RefOf(evs, ev) == Some(r)
    ensures WithPart(f, r).contentLog == Parts(evs + [ev])
    ensures WithPart(f, r).contentLog == if r in f.contentLog then f.contentLog else f.contentLog + [r]
    ensures forall q :: q in WithPart(f, r).contentLog <==> Key(q) in WithPart(f, r).seenParts
  {
    hide TrimSpace, Parts, Nameless, Key, RefOf, Final, Total;
    OneMore(evs, ev);
    forall q
      ensures q in WithPart(f, r).contentLog <==> Key(q) in WithPart(f, r).seenParts
    {
      if Key(q) == Key(r) {
        KeysDiffer(q, r);
      }
    }
  }

  /** The text an event brings. */
  function Added(ev: Event): string { if ev.kind.TextDelta? then ev.delta else "" }

  /** The texts after a text event. */
  lemma TextsMore(f: Fields, evs: seq<Event>, ev: Event, k: string)
    requires Collected(f, evs) && IsText(ev) && RefOf(evs, ev) == Some(TextRef(k))
    ensures var g := TextUpdate(f, k, Added(ev));
      forall id :: id in g.textById ==> g.textById[id] == TextOf(evs + [ev], id)
  {
    hide TrimSpace, Parts, TextOf, CallIs, FinishOf, UsageOf, Key, RefOf, Nameless;
    var g := TextUpdate(f, k, Added(ev));
    Unmentioned(evs, k);
    forall id | id in g.textById
      ensures g.textById[id] == TextOf(evs + [ev], id)
    {
      OneMoreText(evs, ev, id);
    }
  }

  /** The log after a text event, and what else does and does not change. */
  lemma TextLog(f: Fields, evs: seq<Event>, ev: Event, k: string)
    requires LogIs(f, evs) && IsText(ev) && RefOf(evs, ev) == Some(TextRef(k))
    requires forall id :: id in f.textById <==> TextRef(id) in f.contentLog
    ensures var g := TextUpdate(f, k, Added(ev));
      && LogIs(g, evs + [ev]) && g.callById == f.callById && g.finish == f.finish && g.usage == f.usage
      && g.contentLog == (if TextRef(k) in f.contentLog then f.contentLog else f.contentLog + [TextRef(k)])
      && g.textById.Keys == f.textById.Keys + {k}
  {
    hide TrimSpace, Parts, Key, RefOf, Nameless, Final, Total, Added, TextUpdate, WithPart;
    OneMore(evs, ev);
    LogMore(f, evs, ev, TextRef(k));
    TextUpdated(f, k, Added(ev));
  }

  lemma TextUpdated(f: Fields, k: string, added: string)
    ensures var g, h := TextUpdate(f, k, added), WithPart(f, TextRef(k));
      && g.callById == f.callById && g.finish == f.finish && g.usage == f.usage && g.nextToolId == f.nextToolId
      && g.textById.Keys == f.textById.Keys + {k}
      && (k !in f.textById ==> g.contentLog == h.contentLog && g.seenParts == h.seenParts)
      && (k in f.textById ==> g.contentLog == f.contentLog && g.seenParts == f.seenParts)
  {
    hide Key;
  }

  lemma TextCollected(f: Fields, evs: seq<Event>, ev: Event, k: string)
    requires Collected(f, evs) && IsText(ev) && RefOf(evs, ev) == Some(TextRef(k))
    ensures Collected(TextUpdate(f, k, Added(ev)), evs + [ev])
  {
    hide TrimSpace, Parts, TextOf, CallIs, FinishOf, UsageOf, RefOf, Nameless, Final, Total, LogIs, TextUpdate, Added;
    var all, g := evs + [ev], TextUpdate(f, k, Added(ev));
    OneMore(evs, ev);
    TextLog(f, evs, ev, k);
    TextsMore(f, evs, ev, k);
    forall id | id in g.callById
      ensures CallIs(g.callById[id], all, id)
    {
      CallSame(f.callById[id], evs, ev, id);
    }
  }

  /** Adding to arguments given partly whole, partly in pieces. */
  lemma ArgumentsMore(whole: string, deltas: string, more: string)
    ensures (whole + deltas) + more == whole + (deltas + more)
    ensures whole + deltas == "" <==> whole == "" && deltas == ""
    ensures more + "" == more
    ensures deltas + more != "" <==> deltas != "" || more != ""
  {
    assert |whole + deltas| == |whole| + |deltas| && |deltas + more| == |deltas| + |more|;
  }

  /** A call after a tool event of its own. */
  lemma CallMore(c: CallState, evs: seq<Event>, ev: Event, k: string)
    requires CallIs(c, evs, k) && IsTool(ev) && RefOf(evs, ev) == Some(CallRef(k))
    ensures CallIs(Fed(Named(c, ev.call.value), ev.kind, ev.call.value.arguments), evs + [ev], k)
  {
    hide TrimSpace, NameOf, KindOf, Whole, Deltas, RefOf;
    OneMoreCall(evs, ev, k);
    TrimTwice(ev.call.value.name);
    TrimTwice(ev.call.value.kind);
    ArgumentsMore(Whole(evs, k), Deltas(evs, k), ev.call.value.arguments);
  }

  /** A call after an event that is not its own. */
  lemma CallSame(c: CallState, evs: seq<Event>, ev: Event, id: string)
    requires CallIs(c, evs, id) && RefOf(evs, ev) != Some(CallRef(id))
    ensures CallIs(c, evs + [ev], id)
  {
    hide TrimSpace, NameOf, KindOf, Whole, Deltas, RefOf;
    OneMoreCall(evs, ev, id);
  }

  lemma CallNew(evs: seq<Event>, ev: Event, k: string)
    requires IsTool(ev) && RefOf(evs, ev) == Some(CallRef(k)) && CallRef(k) !in Parts(evs)
    ensures CallIs(CallState(k, "", "", "", false), evs, k)
  {
    CallIdTrimmed(evs, ev);
    Unmentioned(evs, k);
    TrimmedAlready("");
  }

  /** The calls after a tool event. */
  lemma CallsMore(f: Fields, evs: seq<Event>, ev: Event, k: string)
    requires Collected(f, evs) && IsTool(ev) && RefOf(evs, ev) == Some(CallRef(k))
    ensures var g := CallUpdate(f, k, ev);
      forall id :: id in g.callById ==> CallIs(g.callById[id], evs + [ev], id)
  {
    hide TrimSpace, Parts, TextOf, CallIs, FinishOf, UsageOf, Key, RefOf, Nameless, Named, Fed;
    var g := CallUpdate(f, k, ev);
    if k !in f.callById {
      CallNew(evs, ev, k);
    }
    forall id | id in g.callById
      ensures CallIs(g.callById[id], evs + [ev], id)
    {
      if id == k {
        CallMore(if k in f.callById then f.callById[k] else CallState(k, "", "", "", false), evs, ev, k);
      } else {
        CallSame(f.callById[id], evs, ev, id);
      }
    }
  }

  lemma CallCollected(f: Fields, evs: seq<Event>, ev: Event, k: string)
    requires Collected(f, evs) && IsTool(ev) && RefOf(evs, ev) == Some(CallRef(k))
    ensures Collected(CallUpdate(f, k, ev), evs + [ev])
  {
    hide TrimSpace, Parts, TextOf, CallIs, FinishOf, UsageOf, Key, RefOf, Nameless, Final, Total, CallUpdate, WithPart;
    var all, g := evs + [ev], CallUpdate(f, k, ev);
    CallUpdated(f, k, ev);
    OneMore(evs, ev);
    LogMore(f, evs, ev, CallRef(k));
    CallsMore(f, evs, ev, k);
    forall id | id in g.textById
      ensures g.textById[id] == TextOf(all, id)
    {
      OneMoreText(evs, ev, id);
    }
  }

  lemma CallUpdated(f: Fields, k: string, ev: Event)
    requires IsTool(ev)
    ensures var g, h := CallUpdate(f, k, ev), WithPart(f, CallRef(k));
      && g.textById == f.textById && g.finish == f.finish && g.usage == f.usage
      && g.callById.Keys == f.callById.Keys + {k}
      && g.nextToolId == f.nextToolId + (if TrimSpace(ev.call.value.id) == "" then 1 else 0)
      && (k !in f.callById ==> g.contentLog == h.contentLog && g.seenParts == h.seenParts)
      && (k in f.callById ==> g.contentLog == f.contentLog && g.seenParts == f.seenParts)
  {
    hide TrimSpace, Key, Named, Fed;
  }

  lemma FinishCollected(f: Fields, evs: seq<Event>, ev: Event)
    requires Collected(f, evs) && RefOf(evs, ev) == None
    ensures Collected(if ev.kind.Finish? then f.(finish := ev.finish, usage := ev.usage) else f, evs + [ev])
  {
    hide TrimSpace, Parts, TextOf, CallIs, FinishOf, UsageOf, Key, Nameless, Final, Total;
    var all := evs + [ev];
    OneMore(evs, ev);
    forall id | id in f.textById
      ensures f.textById[id] == TextOf(all, id)
    {
      OneMoreText(evs, ev, id);
    }
    forall id | id in f.callById
      ensures CallIs(f.callById[id], all, id)
    {
      CallSame(f.callById[id], evs, ev, id);
    }
  }

  // ----- what has been seen so far does not change the response unless it shows

  /** A text event without text changes nothing in the response. */
  lemma {:induction false} ContentSame(evs: seq<Event>, ev: Event, parts: seq<Ref>)
    requires IsText(ev) && (ev.kind.TextDelta? ==> ev.delta == "")
    ensures Content(evs + [ev], parts) == Content(evs, parts)
  {
    hide TrimSpace, TextOf, NameOf, KindOf, Whole, Deltas, RefOf;
    assert forall t: string :: t + "" == t;
    if parts != [] {
      ContentSame(evs, ev, parts[..|parts| - 1]);
      match parts[|parts| - 1] {
        case TextRef(id) => OneMoreText(evs, ev, id);
        case CallRef(id) => NotACall(evs, ev, id); OneMoreCall(evs, ev, id);
      }
    }
  }

  lemma NotACall(evs: seq<Event>, ev: Event, id: string)
    requires !IsTool(ev)
    ensures RefOf(evs, ev) != Some(CallRef(id))
  {
    hide TrimSpace;
  }

  lemma SilentTextShowsNothing(evs: seq<Event>, ev: Event)
    requires IsText(ev) && (ev.kind.TextDelta? ==> ev.delta == "")
    ensures Total(evs + [ev]) == Total(evs)
  {
    hide TrimSpace, TextOf, Content, FinishOf, UsageOf, Final, Nameless, Parts;
    OneMore(evs, ev);
    ContentSame(evs, ev, Parts(evs));
    var r := RefOf(evs, ev).value;
    if r !in Parts(evs) {
      Unmentioned(evs, r.id);
      OneMoreText(evs, ev, r.id);
      NewPartIsEmpty(evs + [ev], Parts(evs), r);
    }
  }

  lemma NewPartIsEmpty(evs: seq<Event>, parts: seq<Ref>, r: Ref)
    requires Rendered(evs, r) == []
    ensures Content(evs, parts + [r]) == Content(evs, parts)
  {
    assert (parts + [r])[..|parts|] == parts;
  }

  /** An event about nothing, not a finish, changes nothing. */
  lemma {:induction false} OtherContentSame(evs: seq<Event>, ev: Event, parts: seq<Ref>)
    requires RefOf(evs, ev) == None
    ensures Content(evs + [ev], parts) == Content(evs, parts)
  {
    hide TrimSpace, TextOf, NameOf, KindOf, Whole, Deltas, RefOf;
    if parts != [] {
      OtherContentSame(evs, ev, parts[..|parts| - 1]);
      match parts[|parts| - 1] {
        case TextRef(id) => OneMoreText(evs, ev, id);
        case CallRef(id) => OneMoreCall(evs, ev, id);
      }
    }
  }

  lemma OtherShowsNothing(evs: seq<Event>, ev: Event)
    requires RefOf(evs, ev) == None && !ev.kind.Finish?
    ensures Total(evs + [ev]) == Total(evs)
  {
    hide TrimSpace, TextOf, Content, FinishOf, UsageOf, Final, Nameless, Parts;
    OneMore(evs, ev);
    OtherContentSame(evs, ev, Parts(evs));
  }

  function TextKey(ev: Event): string {
    var id := TrimSpace(ev.textId);
    if id == "" then "text_0" else id
  }

  lemma TextKeyIsRef(evs: seq<Event>, ev: Event)
    requires IsText(ev)
    ensures RefOf(evs, ev) == Some(TextRef(TextKey(ev))) && !IsTool(ev) && !ev.kind.Finish?
  {
    hide TrimSpace;
  }

  /** The key of a tool event's call. */
  function CallKey(f: Fields, ev: Event): string
    requires IsTool(ev)
  {
    var id := TrimSpace(ev.call.value.id);
    if id == "" then "tool_call_" + Decimal(f.nextToolId) else id
  }

  lemma CallKeyIsRef(f: Fields, evs: seq<Event>, ev: Event)
    requires Collected(f, evs) && IsTool(ev)
    ensures RefOf(evs, ev) == Some(CallRef(CallKey(f, ev)))
  {
    hide TrimSpace, Decimal, CallIs, Parts, Key;
  }

  lemma NotAFinish(ev: Event)
    requires IsTool(ev)
    ensures !ev.kind.Finish?
  {
  }

  /** Naming a call and then feeding it is one update. */
  lemma UpdatedTwice(f: Fields, k: string, ev: Event)
    requires IsTool(ev)
    ensures var call := ev.call.value;
      var g := WithCall(if TrimSpace(call.id) == "" then f.(nextToolId := f.nextToolId + 1) else f, k);
      var h := g.(callById := g.callById[k := Named(g.callById[k], call)]);
      h.(callById := h.callById[k := Fed(h.callById[k], ev.kind, call.arguments)]) == CallUpdate(f, k, ev)
  {
    hide TrimSpace, WithCall, Named, Fed;
  }

  class StreamAccumulator {
    var textById: map<string, string>
    var callById: map<string, CallState>
    var contentLog: seq<Ref>
    var seenParts: set<string>
    var finish: Option<FinishReason>
    var usage: Option<Usage>
    var final: Option<Response>
    var partial: Option<Response>
    var nextToolId: nat
    ghost var events: seq<Event>

    ghost function Now(): Fields
      reads this
    {
      Fields(textById, callById, contentLog, seenParts, finish, usage, nextToolId)
    }

    /** The responses on offer: the final one, and before the finish whatever there is so far. */
    ghost predicate Valid()
      reads this
    {
      && Collected(Now(), events)
      && final == Final(events)
      && (!Finished(events) ==> (partial.Some? <==> Visible(events)) && (partial.Some? ==> partial.value == Total(events)))
    }

    constructor ()
      ensures Valid() && events == []
    {
      textById, callById, contentLog, seenParts, nextToolId := map[], map[], [], {}, 1;
      finish, usage, final, partial, events := None, None, None, None, [];
    }

    method RecordContent(r: Ref)
      modifies this`seenParts, this`contentLog
      ensures Now() == WithPart(old(Now()), r)
    {
      if Key(r) in seenParts {
        return;
      }
      seenParts := seenParts + {Key(r)};
      contentLog := contentLog + [r];
    }

    /** Finds the text part with an id, starting it if need be. */
    method EnsureText(id: string) returns (k: string)
      modifies this`textById, this`seenParts, this`contentLog
      ensures k == if TrimSpace(id) == "" then "text_0" else id
      ensures Now() == WithText(old(Now()), k)
    {
      hide TrimSpace, WithPart;
      k := if TrimSpace(id) == "" then "text_0" else id;
      if k !in textById {
        textById := textById[k := ""];
        RecordContent(TextRef(k));
      }
    }

    /** Finds the call with an id, or a new id, starting it if need be, and takes over its name and type. */
    method EnsureToolCall(call: Call) returns (k: string)
      modifies this`callById, this`seenParts, this`contentLog, this`nextToolId
      ensures k == if TrimSpace(call.id) == "" then "tool_call_" + Decimal(old(nextToolId)) else TrimSpace(call.id)
      ensures var f := old(Now());
        var g := WithCall(if TrimSpace(call.id) == "" then f.(nextToolId := f.nextToolId + 1) else f, k);
        Now() == g.(callById := g.callById[k := Named(g.callById[k], call)])
    {
      hide TrimSpace, WithPart;
      k := TrimSpace(call.id);
      if k == "" {
        k := "tool_call_" + Decimal(nextToolId);
        nextToolId := nextToolId + 1;
      }
      if k !in callById {
        callById := callById[k := CallState(k, "", "", "", false)];
        RecordContent(CallRef(k));
      }
      var c := callById[k];
      var name := TrimSpace(call.name);
      if name != "" {
        c := c.(name := name);
      }
      var kind := TrimSpace(call.kind);
      if kind != "" {
        c := c.(kind := kind);
      }
      callById := callById[k := c];
    }

    /** What one entry of the log contributes. */
    method RenderPart(ref: Ref) returns (parts: seq<Part>)
      requires Collected(Now(), events) && ref in contentLog
      ensures parts == Rendered(events, ref)
    {
      hide TrimSpace, TextOf, NameOf, KindOf, Whole, Deltas, Parts;
      match ref {
        case TextRef(id) =>
          var txt := textById[id];
          parts := if txt != "" then [TextPart(txt)] else [];
        case CallRef(id) =>
          assert CallIs(Now().callById[id], events, id);
          var c := callById[id];
          if TrimSpace(c.id) == "" || TrimSpace(c.name) == "" {
            return [];
          }
          var kind := TrimSpace(c.kind);
          parts := [CallPart(Call(c.id, c.name, if kind == "" then "function" else kind, TrimSpace(c.args)))];
      }
    }

    /** The response as it stands. */
    method BuildResponse() returns (r: Response)
      requires Collected(Now(), events)
      ensures r == Total(events)
    {
      hide Rendered, TrimSpace, CallIs;
      var content: seq<Part> := [];
      var i := 0;
      while i < |contentLog|
        invariant 0 <= i <= |contentLog| && content == Content(events, contentLog[..i])
      {
        assert contentLog[..i + 1][..i] == contentLog[..i];
        var parts := RenderPart(contentLog[i]);
        content := content + parts;
        i := i + 1;
      }
      assert contentLog[..i] == contentLog;
      if content == [] {
        content := [TextPart("")];
      }
      r := Response(
        content,
        if finish.Some? then finish.value else FinishReason(""),
        if usage.Some? then usage.value else Usage(0, 0));
    }

    /** A text event, as far as the fields are concerned. */
    method TakeText(ev: Event) returns (k: string)
      requires IsText(ev)
      modifies this`textById, this`seenParts, this`contentLog
      ensures k == TextKey(ev) && Now() == TextUpdate(old(Now()), k, Added(ev))
    {
      TrimTwice(ev.textId);
      hide TrimSpace, WithText;
      k := EnsureText(TrimSpace(ev.textId));
      if ev.kind.TextDelta? && ev.delta != "" {
        textById := textById[k := textById[k] + ev.delta];
      }
    }

    /** A text event: starts its part; a delta with text adds to it. */
    method ProcessText(ev: Event)
      requires Valid() && IsText(ev)
      modifies this
      ensures Valid() && events == old(events) + [ev]
    {
      hide TrimSpace, Parts, Total, Final, Visible, Finished, TextUpdate, Collected, TextKey, RefOf, Added;
      ghost var before := events;
      var k := TakeText(ev);
      events := events + [ev];
      OneMore(before, ev);
      TextKeyIsRef(before, ev);
      TextCollected(old(Now()), before, ev, k);
      if ev.kind.TextDelta? && ev.delta != "" {
        var r := BuildResponse();
        partial := Some(r);
      } else {
        SilentTextShowsNothing(before, ev);
      }
    }

    /** The arguments of a call: a delta adds to them, a start or an end fills them in if there are none. */
    method Feed(k: string, kind: Kind, arguments: string)
      requires k in callById
      modifies this`callById
      ensures Now() == old(Now()).(callById := old(callById)[k := Fed(old(callById)[k], kind, arguments)])
    {
      var c := callById[k];
      if kind.ToolDelta? {
        if arguments != "" {
          c := c.(sawDelta := true, args := c.args + arguments);
        }
      } else if !c.sawDelta && c.args == "" && arguments != "" {
        c := c.(args := arguments);
      }
      callById := callById[k := c];
    }

    /** A tool event, as far as the fields are concerned. */
    method TakeTool(ev: Event) returns (k: string)
      requires IsTool(ev)
      modifies this`callById, this`seenParts, this`contentLog, this`nextToolId
      ensures k == CallKey(old(Now()), ev) && Now() == CallUpdate(old(Now()), k, ev)
    {
      hide TrimSpace, WithCall, Named, Fed, CallUpdate;
      k := EnsureToolCall(ev.call.value);
      Feed(k, ev.kind, ev.call.value.arguments);
      UpdatedTwice(old(Now()), k, ev);
    }

    /** A tool event: starts its call, names it, and feeds it arguments. */
    method ProcessTool(ev: Event)
      requires Valid() && IsTool(ev)
      modifies this
      ensures Valid() && events == old(events) + [ev]
    {
      hide TrimSpace, Parts, Total, Final, Visible, Finished, CallUpdate, Collected, CallKey, RefOf, IsTool;
      ghost var before := events;
      var k := TakeTool(ev);
      events := events + [ev];
      NotAFinish(ev);
      OneMore(before, ev);
      CallKeyIsRef(old(Now()), before, ev);
      CallCollected(old(Now()), before, ev, k);
      var r := BuildResponse();
      partial := Some(r);
    }

    /** A finish event: the response it brings, or the one collected. */
    method ProcessFinish(ev: Event)
      requires Valid() && ev.kind.Finish?
      modifies this
      ensures Valid() && events == old(events) + [ev] && partial == final
    {
      hide TrimSpace, Parts, Total, Final, Visible, Finished, Collected;
      finish := ev.finish;
      usage := ev.usage;
      events := events + [ev];
      OneMore(old(events), ev);
      FinishCollected(old(Now()), old(events), ev);
      if ev.response.Some? {
        final := ev.response;
        partial := ev.response;
        return;
      }
      var r := BuildResponse();
      final := Some(r);
      partial := Some(r);
    }

    method Process(ev: Event)
      requires Valid()
      modifies this
      ensures Valid() && events == old(events) + [ev]
    {
      hide TrimSpace, Parts, Total, Final, Visible, Finished, Collected;
      if IsText(ev) {
        ProcessText(ev);
      } else if IsTool(ev) {
        ProcessTool(ev);
      } else if ev.kind.Finish? {
        ProcessFinish(ev);
      } else {
        events := events + [ev];
        OneMore(old(events), ev);
        FinishCollected(Now(), old(events), ev);
        OtherShowsNothing(old(events), ev);
      }
    }
  }
}
