/** Fan-out of progress events to clients, each with a bounded channel of its own; every method runs under one lock. */
module Broadcaster {

  /** A progress event; not every one can be put into JSON. */
  datatype Event = Event(json: string, encodable: bool)

  /** A buffered channel, and what its reader has taken out of it. */
  datatype Chan = Chan(buf: seq<Event>, cap: nat, closed: bool, got: seq<Event>) {
    /** Everything that was ever put in. */
    function All(): seq<Event> { got + buf }

    predicate Full() { |buf| == cap }
  }

  /** The whole state. `dropped` and `left` record which clients were thrown out and which went of their own accord. */
  datatype State = State(
    history: seq<Event>, clients: set<nat>, chans: map<nat, Chan>, nextId: nat, closed: bool, doneClosed: bool,
    dropped: set<nat>, left: set<nat>)

  const HEADROOM: nat := 256

  const START := State([], {}, map[], 0, false, false, {}, {})

  // ----- the steps

  /** A send to one client: into the buffer if there is room, else the channel is closed. */
  function Offered(c: Chan, ev: Event): Chan {
    if c.Full() then c.(closed := true) else c.(buf := c.buf + [ev])
  }

  function SendStep(s: State, ev: Event): State
    requires s.clients <= s.chans.Keys
  {
    if s.closed then s
    else
      var slow := set id | id in s.clients && s.chans[id].Full();
      s.(history := s.history + [ev], clients := s.clients - slow, dropped := s.dropped + slow,
         chans := map id | id in s.chans :: if id in s.clients then Offered(s.chans[id], ev) else s.chans[id])
  }

  /** The state when an event has been offered to some of the clients. */
  ghost function PartSent(s: State, ev: Event, told: set<nat>): State
    requires told <= s.clients <= s.chans.Keys
  {
    var slow := set id | id in told && s.chans[id].Full();
    s.(history := s.history + [ev], clients := s.clients - slow, dropped := s.dropped + slow,
       chans := map id | id in s.chans :: if id in told then Offered(s.chans[id], ev) else s.chans[id])
  }

  function OfferStep(s: State, id: nat, ev: Event): State
    requires id in s.chans
  {
    var c := s.chans[id];
    s.(chans := s.chans[id := Offered(c, ev)], clients := if c.Full() then s.clients - {id} else s.clients,
       dropped := if c.Full() then s.dropped + {id} else s.dropped)
  }

  lemma PartSentStep(s: State, ev: Event, told: set<nat>, id: nat)
    requires told <= s.clients <= s.chans.Keys && id in s.clients && id !in told && !s.closed
    ensures PartSent(s, ev, told).chans.Keys == s.chans.Keys && PartSent(s, ev, told).chans[id] == s.chans[id]
    ensures PartSent(s, ev, told + {id}) == OfferStep(PartSent(s, ev, told), id, ev)
  {
    var t, u := PartSent(s, ev, told), PartSent(s, ev, told + {id});
    assert u.chans == t.chans[id := Offered(s.chans[id], ev)];
    assert u.clients == if s.chans[id].Full() then t.clients - {id} else t.clients;
    assert u.dropped == if s.chans[id].Full() then t.dropped + {id} else t.dropped;
  }

  lemma PartSentEnds(s: State, ev: Event)
    requires s.clients <= s.chans.Keys && !s.closed
    ensures PartSent(s, ev, {}) == s.(history := s.history + [ev])
    ensures PartSent(s, ev, s.clients) == SendStep(s, ev)
  {
    assert PartSent(s, ev, {}).chans == s.chans && PartSent(s, ev, {}).clients == s.clients;
    assert PartSent(s, ev, {}).dropped == s.dropped;
    assert PartSent(s, ev, s.clients).chans == SendStep(s, ev).chans;
  }

  function SubscribeStep(s: State): State {
    var c := Chan(s.history, |s.history| + HEADROOM, s.closed, []);
    s.(chans := s.chans[s.nextId := c], nextId := s.nextId + 1,
       clients := if s.closed then s.clients else s.clients + {s.nextId})
  }

  function UnsubscribeStep(s: State, id: nat): State
    requires s.clients <= s.chans.Keys
  {
    if id in s.clients then
      s.(clients := s.clients - {id}, chans := s.chans[id := s.chans[id].(closed := true)], left := s.left + {id})
    else s
  }

  function Shut(c: Chan): Chan { c.(closed := true) }

  /** Closing twice would close the done channel twice, which panics: a caller closes once. */
  function CloseStep(s: State): State
    requires !s.doneClosed && s.clients <= s.chans.Keys
  {
    s.(closed := true, doneClosed := true, clients := {},
       chans := map id | id in s.chans :: if id in s.clients then Shut(s.chans[id]) else s.chans[id])
  }

  /** A reader takes the next event out of its channel. */
  function ReceiveStep(s: State, id: nat): State
    requires id in s.chans && s.chans[id].buf != []
  {
    var c := s.chans[id];
    s.(chans := s.chans[id := c.(got := c.got + [c.buf[0]], buf := c.buf[1..])])
  }

  // ----- what every reachable state keeps

  ghost predicate ChanInv(s: State, id: nat)
    requires id in s.chans
  {
    var c := s.chans[id];
    && |c.buf| <= c.cap
    && c.All() <= s.history
    && (id in s.clients <==> !c.closed)
    && (id in s.clients ==> c.All() == s.history)
    && (id in s.dropped ==> c.closed && c.cap <= |c.All()| < |s.history|)
    && (id in s.left ==> c.closed)
    && (c.closed && id !in s.dropped && id !in s.left ==> s.closed && c.All() == s.history)
  }

  ghost predicate Inv(s: State) {
    && s.clients <= s.chans.Keys
    && (forall id: nat :: id in s.chans <==> id < s.nextId)
    && (s.closed ==> s.clients == {})
    && s.doneClosed == s.closed
    && s.dropped <= s.chans.Keys && s.left <= s.chans.Keys && s.dropped !! s.left
    && forall id :: id in s.chans ==> ChanInv(s, id)
  }

  datatype Step = Send(ev: Event) | Subscribe | Unsubscribe(id: nat) | Close | Receive(id: nat)

  predicate Enabled(s: State, t: Step) {
    match t
    case Close => !s.doneClosed
    case Receive(id) => id in s.chans && s.chans[id].buf != []
    case _ => true
  }

  function Apply(s: State, t: Step): State
    requires s.clients <= s.chans.Keys && Enabled(s, t)
  {
    match t
    case Send(ev) => SendStep(s, ev)
    case Subscribe => SubscribeStep(s)
    case Unsubscribe(id) => UnsubscribeStep(s, id)
    case Close => CloseStep(s)
    case Receive(id) => ReceiveStep(s, id)
  }

  lemma SendKeeps(s: State, ev: Event)
    requires Inv(s)
    ensures s.clients <= s.chans.Keys && Inv(SendStep(s, ev))
  {
    var t := SendStep(s, ev);
    forall id | id in t.chans
      ensures ChanInv(t, id)
    {
      assert ChanInv(s, id);
    }
  }

  lemma SubscribeKeeps(s: State)
    requires Inv(s)
    ensures Inv(SubscribeStep(s))
  {
    var t := SubscribeStep(s);
    forall id | id in t.chans
      ensures ChanInv(t, id)
    {
      assert id != s.nextId ==> ChanInv(s, id);
    }
  }

  lemma UnsubscribeKeeps(s: State, id: nat)
    requires Inv(s)
    ensures Inv(UnsubscribeStep(s, id))
  {
    var t := UnsubscribeStep(s, id);
    forall k | k in t.chans
      ensures ChanInv(t, k)
    {
      assert ChanInv(s, k);
    }
    assert id in s.clients ==> ChanInv(s, id);
  }

  lemma CloseKeeps(s: State)
    requires Inv(s) && !s.doneClosed
    ensures s.clients <= s.chans.Keys && Inv(CloseStep(s))
  {
    var t := CloseStep(s);
    forall id | id in t.chans
      ensures ChanInv(t, id)
    {
      assert ChanInv(s, id);
    }
  }

  lemma ReceiveKeeps(s: State, id: nat)
    requires Inv(s) && id in s.chans && s.chans[id].buf != []
    ensures Inv(ReceiveStep(s, id))
    ensures ReceiveStep(s, id).chans[id].All() == s.chans[id].All()
  {
    var t := ReceiveStep(s, id);
    assert t.chans[id].All() == s.chans[id].All();
    forall k | k in t.chans
      ensures ChanInv(t, k)
    {
      assert ChanInv(s, k);
    }
  }

  /** A run from the start: each step enabled where it is taken. */
  ghost predicate Run(states: seq<State>, steps: seq<Step>) {
    && |states| == |steps| + 1 && states[0] == START
    && forall i :: 0 <= i < |steps| ==>
      states[i].clients <= states[i].chans.Keys && Enabled(states[i], steps[i]) && states[i + 1] == Apply(states[i], steps[i])
  }

  /** In every interleaving of sends, subscriptions, departures, closing and receives, the invariant holds throughout. */
  lemma {:induction false} RunsKeepInv(states: seq<State>, steps: seq<Step>, n: nat)
    requires Run(states, steps) && n < |states|
    ensures Inv(states[n])
    decreases n
  {
    if n != 0 {
      RunsKeepInv(states, steps, n - 1);
      var s, t := states[n - 1], steps[n - 1];
      assert Enabled(s, t) && states[n - 1 + 1] == Apply(s, t);
      match t {
        case Send(ev) => SendKeeps(s, ev);
        case Subscribe => SubscribeKeeps(s);
        case Unsubscribe(id) => UnsubscribeKeeps(s, id);
        case Close => CloseKeeps(s);
        case Receive(id) => ReceiveKeeps(s, id);
      }
    }
  }

  /** No channel that is closed is ever sent to or closed again: whoever a step touches is a client, and clients are open. */
  lemma ClientsAreOpen(states: seq<State>, steps: seq<Step>, n: nat, id: nat)
    requires Run(states, steps) && n < |states| && id in states[n].clients
    ensures id in states[n].chans && !states[n].chans[id].closed
  {
    RunsKeepInv(states, steps, n);
    assert ChanInv(states[n], id);
  }

  /** A send drops exactly the clients whose buffers are full. */
  lemma DropsAreForced(states: seq<State>, steps: seq<Step>, n: nat, id: nat)
    requires Run(states, steps) && n < |steps| && id !in states[n].dropped
    ensures id in states[n + 1].dropped <==>
      steps[n].Send? && !states[n].closed && id in states[n].clients && states[n].chans[id].Full()
  {
    RunsKeepInv(states, steps, n);
    assert states[n + 1] == Apply(states[n], steps[n]);
  }

  /**
   * A client that has drained its closed channel without unsubscribing has received everything if and only if it was never
   * dropped, and then the broadcaster has finished; one that was dropped has missed something, whatever it is told.
   */
  lemma DrainedClient(states: seq<State>, steps: seq<Step>, n: nat, id: nat)
    requires Run(states, steps) && n < |states| && id in states[n].chans
    requires states[n].chans[id].closed && states[n].chans[id].buf == [] && id !in states[n].left
    ensures states[n].chans[id].got <= states[n].history
    ensures states[n].chans[id].got == states[n].history <==> id !in states[n].dropped
    ensures id !in states[n].dropped ==> states[n].doneClosed
  {
    RunsKeepInv(states, steps, n);
    assert ChanInv(states[n], id);
  }

  /** A client not yet gone has, received or waiting, the whole history; one that is gone has a prefix of it. */
  lemma LiveClient(states: seq<State>, steps: seq<Step>, n: nat, id: nat)
    requires Run(states, steps) && n < |states| && id in states[n].chans
    ensures states[n].chans[id].All() <= states[n].history
    ensures id in states[n].clients ==> states[n].chans[id].All() == states[n].history
  {
    RunsKeepInv(states, steps, n);
    assert ChanInv(states[n], id);
  }

  // ----- a slow client can be told that everything is done

  function Sends(s: State, ev: Event, n: nat): State
    requires Inv(s)
    ensures Inv(Sends(s, ev, n))
  {
    if n == 0 then s else
      SendKeeps(Sends(s, ev, n - 1), ev);
      SendStep(Sends(s, ev, n - 1), ev)
  }

  function Drained(s: State, id: nat): (t: State)
    requires Inv(s) && id in s.chans
    ensures Inv(t) && id in t.chans && t.chans[id].buf == [] && t.chans[id].closed == s.chans[id].closed
    ensures t.chans[id].All() == s.chans[id].All() && t.doneClosed == s.doneClosed && t.history == s.history
    ensures t.dropped == s.dropped
    decreases |s.chans[id].buf|
  {
    if s.chans[id].buf == [] then s else
      ReceiveKeeps(s, id);
      Drained(ReceiveStep(s, id), id)
  }

  lemma StartInv()
    ensures Inv(START)
  {
  }

  lemma SendToOne(s: State, ev: Event)
    requires !s.closed && s.clients == {0} && 0 in s.chans && !s.chans[0].Full()
    ensures SendStep(s, ev).clients == {0} && SendStep(s, ev).dropped == s.dropped && 0 in SendStep(s, ev).chans
    ensures SendStep(s, ev).chans[0] == s.chans[0].(buf := s.chans[0].buf + [ev])
    ensures !SendStep(s, ev).closed && SendStep(s, ev).history == s.history + [ev]
  {
    assert (set id | id in s.clients && s.chans[id].Full()) == {};
  }

  lemma {:induction false} OneClientFills(ev: Event, n: nat)
    requires n <= HEADROOM && Inv(SubscribeStep(START))
    ensures var s := Sends(SubscribeStep(START), ev, n);
      !s.closed && s.clients == {0} && 0 in s.chans && |s.chans[0].buf| == n == |s.history| && s.chans[0].cap == HEADROOM
      && s.chans[0].got == [] && s.dropped == {}
  {
    hide SendStep, Sends, SubscribeStep, Inv;
    var start := SubscribeStep(START);
    if n == 0 {
      OneClientStarts();
      SendsStep(start, ev, 0);
    } else {
      OneClientFills(ev, n - 1);
      SendsStep(start, ev, n);
      SendToOne(Sends(start, ev, n - 1), ev);
    }
  }

  lemma OneClientStarts()
    ensures var s := SubscribeStep(START);
      !s.closed && s.clients == {0} && 0 in s.chans && s.chans[0] == Chan([], HEADROOM, false, [])
      && s.history == [] && s.dropped == {} && !s.doneClosed
  {
  }

  lemma SendsStep(s: State, ev: Event, n: nat)
    requires Inv(s)
    ensures n == 0 ==> Sends(s, ev, n) == s
    ensures n != 0 ==> Sends(s, ev, n - 1).clients <= Sends(s, ev, n - 1).chans.Keys
    ensures n != 0 ==> Sends(s, ev, n) == SendStep(Sends(s, ev, n - 1), ev)
  {
    hide SendStep, Inv;
    if n != 0 {
      SendKeeps(Sends(s, ev, n - 1), ev);
    }
  }

  /** One subscriber, 257 events before it reads any, then the close: it drains, sees "done", and has missed an event. */
  lemma SlowClientSeesDone(ev: Event)
    ensures Inv(SubscribeStep(START))
    ensures var s := Sends(SubscribeStep(START), ev, 257);
      !s.doneClosed && Inv(CloseStep(s)) && 0 in CloseStep(s).chans
      && var t := Drained(CloseStep(s), 0);
      t.chans[0].closed && t.chans[0].buf == [] && t.doneClosed && 0 in t.dropped && |t.chans[0].got| < |t.history|
  {
    hide Inv, ChanInv, SendStep, CloseStep, Sends, SubscribeStep, Drained;
    StartInv();
    SubscribeKeeps(START);
    OneClientFills(ev, HEADROOM);
    var start := SubscribeStep(START);
    SendsStep(start, ev, HEADROOM + 1);
    LastIsDropped(Sends(start, ev, HEADROOM), ev);
  }

  /** A send to a single client whose channel is full, then the close. */
  lemma LastIsDropped(s: State, ev: Event)
    requires Inv(s) && !s.closed && s.clients == {0} && 0 in s.chans && s.chans[0].Full()
    ensures var d := SendStep(s, ev);
      !d.doneClosed && Inv(d) && Inv(CloseStep(d)) && 0 in CloseStep(d).chans
      && var t := Drained(CloseStep(d), 0);
      t.chans[0].closed && t.chans[0].buf == [] && t.doneClosed && 0 in t.dropped && |t.chans[0].got| < |t.history|
  {
    hide ChanInv;
    assert (set id | id in s.clients && s.chans[id].Full()) == {0};
    var d := SendStep(s, ev);
    SendKeeps(s, ev);
    CloseKeeps(d);
    DroppedMissed(Drained(CloseStep(d), 0), 0);
  }

  lemma DroppedMissed(s: State, id: nat)
    requires Inv(s) && id in s.chans && id in s.dropped && s.chans[id].buf == []
    ensures s.chans[id].closed && |s.chans[id].got| < |s.history|
  {
    assert ChanInv(s, id);
  }

  // ----- the reading side

  const DONE_FRAME := "event: done\ndata: {}\n\n"

  /** What the reader writes for an event; one that cannot be encoded is passed over. */
  function Frame(ev: Event): string { if ev.encodable then "data: " + ev.json + "\n\n" else "" }

  function Frames(evs: seq<Event>): string {
    if evs == [] then "" else Frames(evs[..|evs| - 1]) + Frame(evs[|evs| - 1])
  }

  /** All that is written for a client by the time its channel is closed and drained. */
  function Served(s: State, id: nat): string
    requires id in s.chans
  {
    Frames(s.chans[id].got) + if s.doneClosed then DONE_FRAME else ""
  }

  lemma SendClosed(s: State, ev: Event)
    requires s.clients <= s.chans.Keys && s.closed
    ensures SendStep(s, ev) == s
  {
  }

  /** A new channel, filled with the history; there is always room for it. */
  method Replayed(history: seq<Event>) returns (c: Chan)
    ensures c == Chan(history, |history| + 256, false, [])
  {
    c := Chan([], |history| + HEADROOM, false, []);
    var i := 0;
    while i < |history|
      invariant 0 <= i <= |history| && c == Chan(history[..i], |history| + HEADROOM, false, [])
    {
      assert !c.Full();
      c := c.(buf := c.buf + [history[i]]);
      i := i + 1;
    }
    assert history[..i] == history;
  }

  class Broadcaster {
    var history: seq<Event>
    var clients: set<nat>
    var chans: map<nat, Chan>
    var nextId: nat
    var closed: bool
    var doneClosed: bool
    ghost var dropped: set<nat>
    ghost var left: set<nat>

    ghost function Now(): State
      reads this
    {
      State(history, clients, chans, nextId, closed, doneClosed, dropped, left)
    }

    constructor ()
      ensures Now() == START && Inv(Now())
    {
      history, clients, chans, nextId, closed, doneClosed := [], {}, map[], 0, false, false;
      dropped, left := {}, {};
      new;
      StartInv();
    }

    /** The non-blocking send to one client. */
    method Offer(id: nat, ev: Event)
      requires id in chans
      modifies this
      ensures Now() == OfferStep(old(Now()), id, ev)
    {
      var c := chans[id];
      if !c.Full() {
        chans := chans[id := c.(buf := c.buf + [ev])];
      } else {
        chans := chans[id := c.(closed := true)];
        clients := clients - {id};
        dropped := dropped + {id};
      }
    }

    /** An event goes to every client; one with a full buffer is dropped rather than waited for. */
    method Send(ev: Event)
      requires Inv(Now())
      modifies this
      ensures Now() == SendStep(old(Now()), ev) && Inv(Now())
    {
      hide Inv, SendStep, PartSent, OfferStep;
      SendKeeps(Now(), ev);
      if closed {
        SendClosed(Now(), ev);
        return;
      }
      PartSentEnds(Now(), ev);
      history := history + [ev];
      var todo := clients;
      ghost var told: set<nat> := {};
      while todo != {}
        invariant told + todo == old(clients) && told !! todo && Now() == PartSent(old(Now()), ev, told)
        decreases todo
      {
        var id :| id in todo;
        PartSentStep(old(Now()), ev, told, id);
        Offer(id, ev);
        todo, told := todo - {id}, told + {id};
      }
      assert told == old(clients);
    }

    /** A new client's channel starts with all the history, and room for what comes after. */
    method Subscribe() returns (id: nat)
      requires Inv(Now())
      modifies this
      ensures id == old(nextId) && Now() == SubscribeStep(old(Now())) && Inv(Now())
      ensures id in chans && chans[id] == Chan(old(history), |old(history)| + 256, old(closed), [])
    {
      hide Inv;
      SubscribeKeeps(Now());
      var c := Replayed(history);
      id := nextId;
      nextId := nextId + 1;
      if closed {
        chans := chans[id := c.(closed := true)];
        return;
      }
      chans := chans[id := c];
      clients := clients + {id};
    }

    /** The function handed out by Subscribe: does nothing for a client that is already gone. */
    method Unsubscribe(id: nat)
      requires Inv(Now())
      modifies this
      ensures Now() == UnsubscribeStep(old(Now()), id) && Inv(Now())
    {
      UnsubscribeKeeps(Now(), id);
      if id in clients {
        clients := clients - {id};
        chans := chans[id := chans[id].(closed := true)];
        left := left + {id};
      }
    }

    method Close()
      requires Inv(Now()) && !doneClosed
      modifies this
      ensures Now() == CloseStep(old(Now())) && Inv(Now())
    {
      hide Inv;
      CloseKeeps(Now());
      closed := true;
      doneClosed := true;
      while clients != {}
        invariant clients <= old(clients) <= chans.Keys == old(chans).Keys && closed && doneClosed
        invariant history == old(history) && nextId == old(nextId) && dropped == old(dropped) && left == old(left)
        invariant forall id :: id in chans ==>
          chans[id] == if id in old(clients) - clients then Shut(old(chans)[id]) else old(chans)[id]
        decreases clients
      {
        var id :| id in clients;
        chans := chans[id := chans[id].(closed := true)];
        clients := clients - {id};
      }
      assert chans == CloseStep(old(Now())).chans;
    }

    method History() returns (out: seq<Event>)
      ensures out == history
    {
      out := history;
    }

    /**
     * One turn of the loop that writes a client's events out, when its channel has something for it: an event's frame, or,
     * at the end, the done frame if the broadcaster has finished; then the client unsubscribes.
     */
    method Serve(id: nat) returns (out: string, more: bool)
      requires Inv(Now()) && id in chans && (chans[id].buf != [] || chans[id].closed)
      modifies this
      ensures Inv(Now()) && more == (old(chans)[id].buf != [])
      ensures more ==> Now() == ReceiveStep(old(Now()), id) && out == Frame(old(chans)[id].buf[0])
      ensures !more ==> Now() == old(Now()) && out == if doneClosed then DONE_FRAME else ""
      ensures !more ==> old(Frames(chans[id].got)) + out == Served(Now(), id)
      ensures old(Frames(chans[id].got)) + (if more then out else "") == Frames(chans[id].got)
    {
      var c := chans[id];
      more := c.buf != [];
      if more {
        ReceiveKeeps(Now(), id);
        var ev := c.buf[0];
        chans := chans[id := c.(got := c.got + [ev], buf := c.buf[1..])];
        out := Frame(ev);
        assert chans[id].got[..|chans[id].got| - 1] == c.got;
        return;
      }
      out := if doneClosed then DONE_FRAME else "";
      assert ChanInv(Now(), id);
      Unsubscribe(id);
    }
  }
}
