/** Reading server-sent events line by line. */
module SseParser {
  import opened GoStrings
  import B = Broadcaster

  datatype SseEvent = SseEvent(name: string, data: string)

  /** The event being put together: its name and its data lines, each with a newline behind it. */
  datatype State = State(cur: string, buf: string)

  const EMPTY := State("", "")

  /** Where the first newline is; past the end if there is none. */
  function NewlineAt(s: string): (i: nat)
    ensures i <= |s| && (i < |s| ==> s[i] == '\n') && forall j :: 0 <= j < i ==> s[j] != '\n'
  {
    if s == "" || s[0] == '\n' then 0 else 1 + NewlineAt(s[1..])
  }

  /** A line without the carriage returns and newlines at its end. */
  function TrimEnd(s: string): string {
    if s != "" && (s[|s| - 1] == '\r' || s[|s| - 1] == '\n') then TrimEnd(s[..|s| - 1]) else s
  }

  function TrimSpaces(s: string): string { if s != "" && s[0] == ' ' then TrimSpaces(s[1..]) else s }

  function HasPrefix(s: string, p: string): bool { p <= s }

  function TrimSuffixNewline(s: string): string { if s != "" && s[|s| - 1] == '\n' then s[..|s| - 1] else s }

  function Flush(st: State): seq<SseEvent> {
    if st.cur == "" && st.buf == "" then [] else [SseEvent(st.cur, TrimSuffixNewline(st.buf))]
  }

  /** What a line that is not blank does to the event being put together. */
  function Field(st: State, line: string): State {
    if HasPrefix(line, "event:") then st.(cur := TrimSpace(line[6..]))
    else if HasPrefix(line, "data:") then st.(buf := st.buf + TrimSpaces(line[5..]) + "\n")
    else st
  }

  /** The events of a text, from a state on: blank lines end events, and so does the end of the text. */
  function Parse(s: string, st: State): seq<SseEvent>
    decreases |s|
  {
    var i := NewlineAt(s);
    var line := TrimEnd(s[..i]);
    var after := if line == "" then EMPTY else Field(st, line);
    (if line == "" then Flush(st) else [])
    + if i == |s| then Flush(after) else Parse(s[i + 1..], after)
  }

  function Events(s: string): seq<SseEvent> { Parse(s, EMPTY) }

  /** The events handed over before the callback refuses one. */
  function Taken(evs: seq<SseEvent>, refuses: SseEvent -> bool): seq<SseEvent> {
    if evs == [] then [] else if refuses(evs[0]) then [evs[0]] else [evs[0]] + Taken(evs[1..], refuses)
  }

  predicate Refused(evs: seq<SseEvent>, refuses: SseEvent -> bool) {
    evs != [] && (refuses(evs[0]) || Refused(evs[1..], refuses))
  }

  lemma {:induction false} TakenJoin(a: seq<SseEvent>, b: seq<SseEvent>, refuses: SseEvent -> bool)
    ensures Refused(a + b, refuses) <==> Refused(a, refuses) || Refused(b, refuses)
    ensures Taken(a + b, refuses) == if Refused(a, refuses) then Taken(a, refuses) else a + Taken(b, refuses)
  {
    if a == [] {
      assert a + b == b;
    } else {
      assert (a + b)[1..] == a[1..] + b;
      TakenJoin(a[1..], b, refuses);
      if !Refused(a, refuses) {
        assert [a[0]] + (a[1..] + Taken(b, refuses)) == a + Taken(b, refuses);
      }
    }
  }

  lemma {:induction false} TakenAll(evs: seq<SseEvent>, refuses: SseEvent -> bool)
    requires !Refused(evs, refuses)
    ensures Taken(evs, refuses) == evs
  {
    if evs != [] {
      TakenAll(evs[1..], refuses);
    }
  }

  /** Hands over the event a line has completed, if there is one. */
  method Deliver(evs: seq<SseEvent>, before: seq<SseEvent>, refuses: SseEvent -> bool, ghost later: seq<SseEvent>)
    returns (taken: seq<SseEvent>, stop: bool)
    requires |evs| <= 1 && !Refused(before, refuses)
    ensures taken == before + evs
    ensures stop ==> Refused(before + (evs + later), refuses) && Taken(before + (evs + later), refuses) == taken
    ensures !stop ==> !Refused(taken, refuses) && before + (evs + later) == taken + later
  {
    hide Taken, Refused;
    taken, stop := before + evs, false;
    if evs == [] {
      assert evs + later == later && before + evs == before;
      return;
    }
    var ev := evs[0];
    assert evs == [ev];
    stop := refuses(ev);
    FirstTaken(ev, later, refuses);
    FirstTaken(ev, [], refuses);
    TakenJoin(before, [ev] + [], refuses);
    TakenJoin(before, [ev] + later, refuses);
    assert [ev] + [] == [ev] && before + ([ev] + later) == before + [ev] + later;
  }

  lemma FirstTaken(ev: SseEvent, later: seq<SseEvent>, refuses: SseEvent -> bool)
    ensures refuses(ev) ==> Refused([ev] + later, refuses) && Taken([ev] + later, refuses) == [ev]
    ensures !Refused([], refuses) && (Refused([ev] + [], refuses) <==> refuses(ev))
  {
    assert ([ev] + later)[1..] == later && ([ev] + [])[1..] == [];
  }

  /** One turn: the line's own event, if it ends one, then what is left. */
  lemma ParseTurn(s: string, st: State)
    ensures var i := NewlineAt(s);
      var line := TrimEnd(s[..i]);
      var first, after := if line == "" then Flush(st) else [], if line == "" then EMPTY else Field(st, line);
      Parse(s, st) == first + (if i == |s| then Flush(after) else Parse(s[i + 1..], after))
      && |Flush(st)| <= 1 && |Flush(after)| <= 1
  {
    hide TrimEnd, Field, NewlineAt;
  }

  /** The reading loop; an event the callback refuses ends it. */
  method ParseSse(s: string, refuses: SseEvent -> bool) returns (taken: seq<SseEvent>, err: bool)
    ensures taken == Taken(Events(s), refuses) && err == Refused(Events(s), refuses)
  {
    hide TrimEnd, Flush, Field, NewlineAt, Parse, Taken, Refused;
    var rest, st := s, EMPTY;
    taken := [];
    NothingRefused(refuses);
    while true
      invariant Events(s) == taken + Parse(rest, st) && !Refused(taken, refuses)
      decreases |rest|
    {
      ParseTurn(rest, st);
      var i := NewlineAt(rest);
      var line := TrimEnd(rest[..i]);
      var first := if line == "" then Flush(st) else [];
      st := if line == "" then EMPTY else Field(st, line);
      taken, err := Deliver(first, taken, refuses, if i == |rest| then Flush(st) else Parse(rest[i + 1..], st));
      if err {
        return;
      }
      if i == |rest| {
        assert Flush(st) + [] == Flush(st);
        taken, err := Deliver(Flush(st), taken, refuses, []);
        if !err {
          TakenAll(taken, refuses);
        }
        return;
      }
      rest := rest[i + 1..];
    }
  }

  lemma NothingRefused(refuses: SseEvent -> bool)
    ensures !Refused([], refuses)
  {
  }

  // ----- printing

  /** A data text as lines of its own. */
  function DataLines(d: string): string
    decreases |d|
  {
    var i := NewlineAt(d);
    if i == |d| then "data: " + d + "\n" else "data: " + d[..i] + "\n" + DataLines(d[i + 1..])
  }

  function Print(ev: SseEvent): string {
    (if ev.name == "" then "" else "event: " + ev.name + "\n") + DataLines(ev.data) + "\n"
  }

  function PrintAll(evs: seq<SseEvent>): string { if evs == [] then "" else Print(evs[0]) + PrintAll(evs[1..]) }

  /** No line of the data starts with a space or ends with a carriage return. */
  predicate CleanLine(l: string) { l != "" ==> l[0] != ' ' && l[|l| - 1] != '\r' }

  predicate CleanData(d: string)
    decreases |d|
  {
    var i := NewlineAt(d);
    CleanLine(d[..i]) && (i < |d| ==> CleanData(d[i + 1..]))
  }

  predicate Clean(ev: SseEvent) { '\n' !in ev.name && TrimSpace(ev.name) == ev.name && CleanData(ev.data) }

  /** A printed data text as it is read back. */
  function ReadBack(d: string): (r: string)
    decreases |d|
  {
    var i := NewlineAt(d);
    if i == |d| then TrimSpaces(TrimEnd(d)) else TrimSpaces(TrimEnd(d[..i])) + "\n" + ReadBack(d[i + 1..])
  }

  lemma {:induction false} TrimSpacesShortens(s: string)
    ensures |TrimSpaces(s)| <= |s| && (TrimSpaces(s) == s <==> s == "" || s[0] != ' ')
  {
    if s != "" && s[0] == ' ' {
      TrimSpacesShortens(s[1..]);
    }
  }

  lemma {:induction false} TrimEndShortens(s: string)
    ensures |TrimEnd(s)| <= |s| && TrimEnd(s) == s[..|TrimEnd(s)|]
    ensures TrimEnd(s) == s <==> s == "" || (s[|s| - 1] != '\r' && s[|s| - 1] != '\n')
  {
    if s != "" && (s[|s| - 1] == '\r' || s[|s| - 1] == '\n') {
      TrimEndShortens(s[..|s| - 1]);
    }
  }

  /** A line without newlines is read back as it is if and only if it is clean. */
  lemma LineReadBack(l: string)
    requires '\n' !in l
    ensures |TrimSpaces(TrimEnd(l))| <= |l| && (TrimSpaces(TrimEnd(l)) == l <==> CleanLine(l))
  {
    TrimEndShortens(l);
    TrimSpacesShortens(TrimEnd(l));
    TrimSpacesShortens(l);
    if l != "" {
      assert l[|l| - 1] in l;
    }
  }

  /** Data is read back as it is if and only if every line of it is clean. */
  lemma {:induction false} DataReadBack(d: string)
    ensures |ReadBack(d)| <= |d| && (ReadBack(d) == d <==> CleanData(d))
    decreases |d|
  {
    hide TrimSpaces, TrimEnd, CleanLine, NewlineAt;
    var i := NewlineAt(d);
    var l := d[..i];
    LineReadBack(l);
    if i == |d| {
      assert l == d;
    } else {
      var t := d[i + 1..];
      DataReadBack(t);
      assert d == l + "\n" + t;
      SplitLengths(TrimSpaces(TrimEnd(l)), ReadBack(t), l, t);
    }
  }

  /** Two texts no longer than two others make the same line and rest only if each is the same. */
  lemma SplitLengths(a: string, b: string, l: string, t: string)
    requires |a| <= |l| && |b| <= |t|
    ensures a + "\n" + b == l + "\n" + t <==> a == l && b == t
    ensures |a + "\n" + b| <= |l + "\n" + t|
  {
    var x, y := a + "\n" + b, l + "\n" + t;
    if x == y {
      assert |a| == |l| && |b| == |t|;
      assert a == x[..|l|] && b == x[|l| + 1..] && l == y[..|l|] && t == y[|l| + 1..];
    }
  }

  /** A line followed by more text is parsed first. */
  lemma ParseLine(l: string, rest: string, st: State)
    requires '\n' !in l
    ensures Parse(l + "\n" + rest, st) ==
      if TrimEnd(l) == "" then Flush(st) + Parse(rest, EMPTY) else Parse(rest, Field(st, TrimEnd(l)))
  {
    hide TrimEnd, Flush, Field;
    var s := l + "\n" + rest;
    NewlineFound(l, rest);
    assert s[..|l|] == l && s[|l| + 1..] == rest;
  }

  lemma {:induction false} NewlineFound(l: string, rest: string)
    requires '\n' !in l
    ensures NewlineAt(l + "\n" + rest) == |l|
  {
    var s := l + "\n" + rest;
    assert s[|l|] == '\n' && forall j :: 0 <= j < |l| ==> s[j] == l[j];
  }

  lemma TrimEndOfPrefixed(p: string, l: string)
    requires p != "" && p[|p| - 1] != '\r' && p[|p| - 1] != '\n'
    ensures TrimEnd(p + l) == p + TrimEnd(l)
    decreases |l|
  {
    if l == "" {
      assert p + l == p;
    } else if l[|l| - 1] == '\r' || l[|l| - 1] == '\n' {
      assert (p + l)[..|p + l| - 1] == p + l[..|l| - 1];
      TrimEndOfPrefixed(p, l[..|l| - 1]);
    }
  }

  lemma DataField(l: string, st: State)
    requires '\n' !in l
    ensures TrimEnd("data: " + l) != ""
    ensures Field(st, TrimEnd("data: " + l)) == st.(buf := st.buf + TrimSpaces(TrimEnd(l)) + "\n")
  {
    var p := "data: ";
    assert p[|p| - 1] == ' ';
    TrimEndOfPrefixed(p, l);
    var line := p + TrimEnd(l);
    assert line[..5] == "data:" && line[5..] == " " + TrimEnd(l);
    assert (" " + TrimEnd(l))[1..] == TrimEnd(l);
    assert line[0] == 'd';
  }

  /** The data lines of an event add up in the buffer. */
  lemma {:induction false} ParseData(d: string, rest: string, st: State)
    ensures Parse(DataLines(d) + rest, st) == Parse(rest, st.(buf := st.buf + ReadBack(d) + "\n"))
    decreases |d|
  {
    hide TrimEnd, TrimSpaces, Field, Parse, Flush;
    var i := NewlineAt(d);
    var l := d[..i];
    var after := st.(buf := st.buf + TrimSpaces(TrimEnd(l)) + "\n");
    DataField(l, st);
    if i == |d| {
      assert l == d;
      assert DataLines(d) + rest == "data: " + l + "\n" + rest;
      ParseLine("data: " + l, rest, st);
    } else {
      var t := d[i + 1..];
      assert DataLines(d) + rest == "data: " + l + "\n" + (DataLines(t) + rest);
      ParseLine("data: " + l, DataLines(t) + rest, st);
      ParseData(t, rest, after);
      assert st.buf + TrimSpaces(TrimEnd(l)) + "\n" + ReadBack(t) + "\n"
        == st.buf + (TrimSpaces(TrimEnd(l)) + "\n" + ReadBack(t)) + "\n";
    }
  }

  /** An event as it is read back. */
  function ReadEvent(ev: SseEvent): SseEvent {
    SseEvent(if ev.name == "" then "" else TrimSpace(" " + TrimEnd(ev.name)), ReadBack(ev.data))
  }

  lemma NameField(name: string)
    ensures TrimEnd("event: " + name) != ""
    ensures Field(EMPTY, TrimEnd("event: " + name)) == State(TrimSpace(" " + TrimEnd(name)), "")
  {
    hide TrimSpace;
    TrimEndOfPrefixed("event: ", name);
    var line := "event: " + TrimEnd(name);
    assert line[..6] == "event:" && line[6..] == " " + TrimEnd(name);
  }

  /** A printed event whose name has no newline is read back as one event, and reading starts afresh behind it. */
  lemma ParsePrinted(ev: SseEvent, rest: string)
    requires '\n' !in ev.name
    ensures Parse(Print(ev) + rest, EMPTY) == [ReadEvent(ev)] + Parse(rest, EMPTY)
  {
    hide TrimSpace, Parse, ReadBack, DataLines;
    var st := State(ReadEvent(ev).name, "");
    var tail := DataLines(ev.data) + ("\n" + rest);
    if ev.name == "" {
      assert Print(ev) + rest == tail;
    } else {
      var l := "event: " + ev.name;
      assert Print(ev) + rest == l + "\n" + tail;
      NameField(ev.name);
      ParseLine(l, tail, EMPTY);
    }
    ParseData(ev.data, "\n" + rest, st);
    var full := State(st.cur, ReadBack(ev.data) + "\n");
    assert st.buf + ReadBack(ev.data) + "\n" == full.buf;
    assert "\n" + rest == "" + "\n" + rest;
    ParseLine("", rest, full);
    assert full.buf[..|full.buf| - 1] == ReadBack(ev.data);
  }

  lemma NothingToParse()
    ensures Events("") == []
  {
  }

  /** Events without stray white space in names or data are read back from their printed form, in order. */
  lemma {:induction false} PrintParseRoundTrip(evs: seq<SseEvent>)
    requires forall i :: 0 <= i < |evs| ==> Clean(evs[i])
    ensures Events(PrintAll(evs)) == evs
  {
    hide Parse, Print, ReadEvent, Clean;
    if evs == [] {
      NothingToParse();
    } else {
      NoNewline(evs[0]);
      ParsePrinted(evs[0], PrintAll(evs[1..]));
      CleanIsReadBack(evs[0]);
      PrintParseRoundTrip(evs[1..]);
    }
  }

  lemma NoNewline(ev: SseEvent)
    requires Clean(ev)
    ensures '\n' !in ev.name
  {
  }

  lemma CleanIsReadBack(ev: SseEvent)
    requires '\n' !in ev.name
    ensures ReadEvent(ev) == ev <==> Clean(ev)
  {
    DataReadBack(ev.data);
    hide TrimSpace, TrimEnd, ReadBack, CleanData;
    TrimmedAlready("");
    if ev.name != "" {
      LeadingSpace(TrimEnd(ev.name));
      TrimTwice(TrimEnd(ev.name));
      TrimSpaceTrims(ev.name);
      TrimEndShortens(ev.name);
    }
  }

  lemma LeadingSpace(s: string)
    ensures TrimSpace(" " + s) == TrimSpace(s)
  {
    assert (" " + s)[1..] == s;
  }

  /** No event that is read ever has a newline in its name. */
  lemma {:induction false} NamesHaveNoNewline(s: string, st: State, k: nat)
    requires '\n' !in st.cur && k < |Parse(s, st)|
    ensures '\n' !in Parse(s, st)[k].name
    decreases |s|
  {
    hide Parse, TrimEnd, Field, Flush, NewlineAt;
    ParseTurn(s, st);
    var i := NewlineAt(s);
    var line := TrimEnd(s[..i]);
    LineNoNewline(s, i);
    var first, after := if line == "" then Flush(st) else [], if line == "" then EMPTY else Field(st, line);
    FieldName(st, line);
    FlushName(st, k);
    FlushName(after, k - |first|);
    if k >= |first| && i < |s| {
      NamesHaveNoNewline(s[i + 1..], after, k - |first|);
    }
  }

  lemma LineNoNewline(s: string, i: nat)
    requires i == NewlineAt(s)
    ensures '\n' !in TrimEnd(s[..i])
  {
    TrimEndShortens(s[..i]);
  }

  lemma FlushName(st: State, k: int)
    ensures 0 <= k < |Flush(st)| ==> Flush(st)[k].name == st.cur
  {
  }

  lemma FieldName(st: State, line: string)
    requires '\n' !in st.cur && '\n' !in line
    ensures '\n' !in Field(st, line).cur
  {
    hide TrimSpace, TrimSpaces;
    if 6 <= |line| {
      TrimmedPart(line[6..]);
    }
  }

  lemma TrimmedPart(s: string)
    ensures forall c :: c in TrimSpace(s) ==> c in s
  {
    var i := TrimLeftTrims(s);
    var j := TrimRightTrims(TrimLeft(s));
  }

  /** An event is read back from its printed form as it is if and only if it is clean. */
  lemma RoundTripExactly(ev: SseEvent)
    ensures Events(Print(ev)) == [ev] <==> Clean(ev)
  {
    hide Parse, Print, ReadEvent, CleanData, TrimSpace;
    if '\n' in ev.name {
      if Events(Print(ev)) == [ev] {
        NamesHaveNoNewline(Print(ev), EMPTY, 0);
      }
    } else {
      ParsePrinted(ev, "");
      assert Print(ev) + "" == Print(ev);
      NothingToParse();
      assert [ReadEvent(ev)] + [] == [ReadEvent(ev)];
      assert [ReadEvent(ev)][0] == ReadEvent(ev) && [ev][0] == ev;
      CleanIsReadBack(ev);
    }
  }

  // ----- lines that say nothing

  lemma {:induction false} TrimEndBlank(s: string)
    ensures TrimEnd(s) == "" <==> forall i :: 0 <= i < |s| ==> s[i] == '\r' || s[i] == '\n'
  {
    if s != "" && (s[|s| - 1] == '\r' || s[|s| - 1] == '\n') {
      var t := s[..|s| - 1];
      TrimEndBlank(t);
      assert forall i :: 0 <= i < |t| ==> s[i] == t[i];
    }
  }

  /** A line that is not blank, and neither names the event nor brings data, is passed over. */
  lemma OtherLine(l: string, st: State)
    requires !("event:" <= l) && !("data:" <= l)
    ensures TrimEnd(l) != "" ==> Field(st, TrimEnd(l)) == st
  {
    TrimEndShortens(l);
    hide TrimEnd;
    NoPrefix("event:", TrimEnd(l), l);
    NoPrefix("data:", TrimEnd(l), l);
  }

  lemma NoPrefix(p: string, t: string, l: string)
    requires t <= l && !(p <= l)
    ensures !(p <= t)
  {
  }

  /** Comments, ids, retry times and the like may be taken out of a text without changing its events. */
  lemma OtherLinesSayNothing(front: string, l: string, rest: string)
    requires front != "" ==> front[|front| - 1] == '\n'
    requires '\n' !in l && !("event:" <= l) && !("data:" <= l) && exists i :: 0 <= i < |l| && l[i] != '\r'
    ensures Events(front + (l + "\n" + rest)) == Events(front + rest)
  {
    TrimEndBlank(l);
    assert TrimEnd(l) != "" by {
      var i :| 0 <= i < |l| && l[i] != '\r';
      assert l[i] in l;
    }
    PassedOver(front, l, rest, EMPTY);
  }

  lemma {:induction false} PassedOver(front: string, l: string, rest: string, st: State)
    requires front != "" ==> front[|front| - 1] == '\n'
    requires '\n' !in l && !("event:" <= l) && !("data:" <= l) && TrimEnd(l) != ""
    ensures Parse(front + (l + "\n" + rest), st) == Parse(front + rest, st)
    decreases |front|
  {
    hide Parse, TrimEnd, Field, NewlineAt;
    if front == "" {
      assert "" + (l + "\n" + rest) == l + "\n" + rest && "" + rest == rest;
      ParseLine(l, rest, st);
      OtherLine(l, st);
    } else {
      var i := NewlineAt(front);
      var f, g := front[..i], front[i + 1..];
      assert front == f + "\n" + g;
      assert front + (l + "\n" + rest) == f + "\n" + (g + (l + "\n" + rest)) && front + rest == f + "\n" + (g + rest);
      ParseLine(f, g + (l + "\n" + rest), st);
      ParseLine(f, g + rest, st);
      PassedOver(g, l, rest, if TrimEnd(f) == "" then EMPTY else Field(st, TrimEnd(f)));
    }
  }

  /** The space behind the colon is optional, and any number of spaces there is no part of the value. */
  lemma FieldLines(blanks: string, v: string, rest: string, st: State)
    requires '\n' !in v && forall i :: 0 <= i < |blanks| ==> blanks[i] == ' '
    ensures CleanLine(v) ==>
      Parse("data:" + (blanks + v) + "\n" + rest, st) == Parse(rest, State(st.cur, st.buf + v + "\n"))
    ensures TrimSpace(v) == v ==>
      Parse("event:" + (blanks + v) + "\n" + rest, st) == Parse(rest, State(v, st.buf))
  {
    hide Parse, TrimEnd, TrimSpaces, TrimSpace, Field;
    TrimSpaceTrims(v);
    if CleanLine(v) || TrimSpace(v) == v {
      SpacesBefore(blanks, v);
      NotTrimmed(blanks, v);
      var d, e := "data:" + (blanks + v), "event:" + (blanks + v);
      FieldsOf(blanks + v, st);
      ParseLine(d, rest, st);
      ParseLine(e, rest, st);
    }
  }

  lemma FieldsOf(v: string, st: State)
    ensures Field(st, "data:" + TrimEnd(v)) == st.(buf := st.buf + TrimSpaces(TrimEnd(v)) + "\n")
    ensures Field(st, "event:" + TrimEnd(v)) == st.(cur := TrimSpace(TrimEnd(v)))
    ensures TrimEnd("data:" + v) == "data:" + TrimEnd(v) && TrimEnd("event:" + v) == "event:" + TrimEnd(v)
  {
    TrimEndOfPrefixed("data:", v);
    TrimEndOfPrefixed("event:", v);
    hide TrimEnd, TrimSpaces, TrimSpace;
    var t := TrimEnd(v);
    assert ("data:" + t)[..5] == "data:" && ("data:" + t)[5..] == t;
    assert ("event:" + t)[..6] == "event:" && ("event:" + t)[6..] == t;
    assert ("data:" + t)[0] == 'd';
  }

  lemma {:induction false} SpacesBefore(blanks: string, v: string)
    requires forall i :: 0 <= i < |blanks| ==> blanks[i] == ' '
    ensures (v != "" ==> v[0] != ' ') ==> TrimSpaces(blanks + v) == v
    ensures TrimSpace(blanks + v) == TrimSpace(v)
  {
    if blanks == "" {
      assert blanks + v == v;
    } else {
      SpacesBefore(blanks[1..], v);
      assert blanks + v == " " + (blanks[1..] + v) && (" " + (blanks[1..] + v))[1..] == blanks[1..] + v;
      LeadingSpace(blanks[1..] + v);
    }
  }

  lemma NotTrimmed(blanks: string, v: string)
    requires forall i :: 0 <= i < |blanks| ==> blanks[i] == ' '
    requires v != "" ==> v[|v| - 1] != '\r' && v[|v| - 1] != '\n'
    ensures TrimEnd(blanks + v) == blanks + v
  {
    TrimEndShortens(blanks + v);
  }

  // ----- the server's own frames

  /** JSON as the encoder writes it: on one line, with no white space around it. */
  predicate Compact(json: string) { '\n' !in json && CleanLine(json) }

  /** The event a frame stands for. */
  function Received(ev: B.Event): seq<SseEvent> { if ev.encodable then [SseEvent("", ev.json)] else [] }

  function AllReceived(evs: seq<B.Event>): seq<SseEvent> {
    if evs == [] then [] else AllReceived(evs[..|evs| - 1]) + Received(evs[|evs| - 1])
  }

  lemma {:induction false} OneLine(s: string)
    requires '\n' !in s
    ensures NewlineAt(s) == |s|
  {
    if s != "" {
      OneLine(s[1..]);
    }
  }

  lemma FrameIsPrinted(json: string)
    requires Compact(json)
    ensures "data: " + json + "\n\n" == Print(SseEvent("", json)) && Clean(SseEvent("", json))
  {
    OneLine(json);
    assert json[..|json|] == json;
  }

  /** What the server writes for a run of events, a client's parser turns back into those events, in order. */
  lemma {:induction false} FramesParse(evs: seq<B.Event>, rest: string)
    requires forall i :: 0 <= i < |evs| && evs[i].encodable ==> Compact(evs[i].json)
    ensures Parse(B.Frames(evs) + rest, EMPTY) == AllReceived(evs) + Parse(rest, EMPTY)
  {
    hide Parse, Compact, AllReceived, Received, B.Frames, B.Frame;
    NoFrames();
    if evs == [] {
      assert B.Frames(evs) + rest == rest && AllReceived(evs) + Parse(rest, EMPTY) == Parse(rest, EMPTY);
    } else {
      var before, ev := evs[..|evs| - 1], evs[|evs| - 1];
      LastFrame(evs);
      assert B.Frames(before) + B.Frame(ev) + rest == B.Frames(before) + (B.Frame(ev) + rest);
      FramesParse(before, B.Frame(ev) + rest);
      FrameParses(ev, rest);
      assert AllReceived(before) + (Received(ev) + Parse(rest, EMPTY))
          == AllReceived(before) + Received(ev) + Parse(rest, EMPTY);
    }
  }

  lemma NoFrames()
    ensures B.Frames([]) == "" && AllReceived([]) == []
  {
  }

  lemma LastFrame(evs: seq<B.Event>)
    requires evs != []
    ensures var before, ev := evs[..|evs| - 1], evs[|evs| - 1];
      B.Frames(evs) == B.Frames(before) + B.Frame(ev) && AllReceived(evs) == AllReceived(before) + Received(ev)
  {
    hide B.Frame, Received;
  }

  lemma FrameParses(ev: B.Event, rest: string)
    requires ev.encodable ==> Compact(ev.json)
    ensures Parse(B.Frame(ev) + rest, EMPTY) == Received(ev) + Parse(rest, EMPTY)
  {
    hide Parse, Print, ReadEvent, Clean, Compact;
    if ev.encodable {
      FrameIsPrinted(ev.json);
      ParsePrinted(SseEvent("", ev.json), rest);
      CleanIsReadBack(SseEvent("", ev.json));
    } else {
      assert B.Frame(ev) + rest == rest;
    }
  }

  /** With the done frame at the end, the parser ends with the event "done". */
  lemma DoneParses(evs: seq<B.Event>)
    requires forall i :: 0 <= i < |evs| && evs[i].encodable ==> Compact(evs[i].json)
    ensures Events(B.Frames(evs) + B.DONE_FRAME) == AllReceived(evs) + [SseEvent("done", "{}")]
  {
    hide Parse, Events, AllReceived, B.Frames, Compact;
    DoneAlone();
    FramesThen(evs, B.DONE_FRAME, [SseEvent("done", "{}")]);
  }

  lemma FramesThen(evs: seq<B.Event>, rest: string, last: seq<SseEvent>)
    requires forall i :: 0 <= i < |evs| && evs[i].encodable ==> Compact(evs[i].json)
    requires Events(rest) == last
    ensures Events(B.Frames(evs) + rest) == AllReceived(evs) + last
  {
    hide Parse, AllReceived, B.Frames, Compact;
    FramesParse(evs, rest);
  }

  lemma DoneAlone()
    ensures Events(B.DONE_FRAME) == [SseEvent("done", "{}")]
  {
    hide Parse, Print, ReadEvent, Clean;
    var done := SseEvent("done", "{}");
    DoneIsPrinted();
    PrintedAlone(done);
    CleanIsReadBack(done);
  }

  lemma PrintedAlone(ev: SseEvent)
    requires '\n' !in ev.name
    ensures Events(Print(ev)) == [ReadEvent(ev)]
  {
    hide Parse, Print, ReadEvent;
    ParsePrinted(ev, "");
    NothingToParse();
    assert Print(ev) + "" == Print(ev);
  }

  lemma DoneIsPrinted()
    ensures Print(SseEvent("done", "{}")) == B.DONE_FRAME && Clean(SseEvent("done", "{}"))
  {
    hide NewlineAt, DataLines, CleanData, TrimSpace;
    DoneData();
    TrimmedAlready("done");
    DoneJoins("event: ", "done", "\n", "data: {}\n");
  }

  lemma DoneJoins(a: string, b: string, c: string, d: string)
    requires a == "event: " && b == "done" && c == "\n" && d == "data: {}\n"
    ensures a + b + c + d + "\n" == B.DONE_FRAME
  {
    assert a + b + c == "event: done\n";
    assert d + "\n" == "data: {}\n\n";
    assert "event: done\n" + "data: {}\n\n" == B.DONE_FRAME;
    assert a + b + c + d + "\n" == (a + b + c) + (d + "\n");
  }

  lemma DoneData()
    ensures DataLines("{}") == "data: {}\n" && CleanData("{}")
  {
    assert NewlineAt("{}") == 2;
  }

  /**
   * What a client of the server parses, once its channel is closed and drained and it has not left by itself: the
   * events it got, and the event "done" if the broadcaster has finished. If it was never dropped these are all events
   * of the history that could be encoded, in order, and then "done".
   */
  lemma DrainedClientReads(states: seq<B.State>, steps: seq<B.Step>, n: nat, id: nat)
    requires B.Run(states, steps) && n < |states| && id in states[n].chans
    requires states[n].chans[id].closed && states[n].chans[id].buf == [] && id !in states[n].left
    requires forall i :: 0 <= i < |states[n].history| && states[n].history[i].encodable ==>
      Compact(states[n].history[i].json)
    ensures var s := states[n];
      Events(B.Served(s, id))
      == AllReceived(s.chans[id].got) + if s.doneClosed then [SseEvent("done", "{}")] else []
    ensures id !in states[n].dropped ==>
      Events(B.Served(states[n], id)) == AllReceived(states[n].history) + [SseEvent("done", "{}")]
  {
    hide Parse, AllReceived, Compact, B.Run, B.Frames;
    B.DrainedClient(states, steps, n, id);
    var s := states[n];
    var got := s.chans[id].got;
    assert forall i :: 0 <= i < |got| ==> got[i] == s.history[i];
    if s.doneClosed {
      DoneParses(got);
    } else {
      FramesParse(got, "");
      NothingToParse();
      assert B.Frames(got) + "" == B.Frames(got) && AllReceived(got) + [] == AllReceived(got);
    }
  }
}
