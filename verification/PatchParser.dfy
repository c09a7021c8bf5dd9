/** Reading a patch: its file operations, from its lines. */
module PatchParser {
  import opened GoStrings
  import opened PatchApply

  datatype Op =
    | AddFile(path: string, lines: seq<string>)
    | DeleteFile(path: string)
    | UpdateFile(path: string, moveTo: string, hunks: seq<Hunk>)

  datatype ParseResult =
    | Parsed(ops: seq<Op>)
    | NoBegin
    | NoEnd
    | NotAdded(path: string, line: string)
    | Unexpected(line: string)

  const BEGIN := "*** Begin Patch"
  const END := "*** End Patch"
  const STARS := "*** "
  const ADD := "*** Add File: "
  const DELETE := "*** Delete File: "
  const UPDATE := "*** Update File: "
  const MOVE := "*** Move to: "

  /** A line that ends the lines of an operation. */
  predicate Ends(l: string) { HasPrefix(l, STARS) || TrimSpace(l) == END }

  /** The added lines at the front, and what comes behind them; none if a line among them does not belong. */
  function Added(ls: seq<string>): (r: Option<(seq<string>, seq<string>)>)
    ensures r.Some? ==> |r.value.1| <= |ls|
  {
    if ls == [] || Ends(ls[0]) then Some(([], ls))
    else if !HasPrefix(ls[0], "+") then None
    else
      var r := Added(ls[1..]);
      if r.None? then None else Some(([ls[0][1..]] + r.value.0, r.value.1))
  }

  /** The line that does not belong. */
  function Stray(ls: seq<string>): string
    requires Added(ls).None?
  {
    if !HasPrefix(ls[0], "+") then ls[0] else Stray(ls[1..])
  }

  /** The hunks at the front, the first of them begun already, and what comes behind them. */
  function Hunks(ls: seq<string>, cur: Hunk): (r: (seq<Hunk>, seq<string>))
    ensures |r.1| <= |ls|
  {
    if ls == [] || Ends(ls[0]) then (if cur == [] then [] else [cur], ls)
    else if HasPrefix(ls[0], "@@") && cur != [] then
      var r := Hunks(ls[1..], []);
      ([cur] + r.0, r.1)
    else Hunks(ls[1..], cur + [ls[0]])
  }

  /** The target of a move, if the next line gives one, and what comes behind it. */
  function Move(ls: seq<string>): (r: (string, seq<string>))
    ensures |r.1| <= |ls|
  {
    if ls != [] && HasPrefix(ls[0], MOVE) then (TrimSpace(ls[0][|MOVE|..]), ls[1..]) else ("", ls)
  }

  function Ops(ls: seq<string>): ParseResult
    decreases |ls|
  {
    if ls == [] then NoEnd
    else
      var l := ls[0];
      if TrimSpace(l) == END then Parsed([])
      else if TrimSpace(l) == "" then Ops(ls[1..])
      else if HasPrefix(l, ADD) then
        var path := TrimSpace(l[|ADD|..]);
        var r := Added(ls[1..]);
        if r.None? then NotAdded(path, Stray(ls[1..])) else Before(AddFile(path, r.value.0), Ops(r.value.1))
      else if HasPrefix(l, DELETE) then Before(DeleteFile(TrimSpace(l[|DELETE|..])), Ops(ls[1..]))
      else if HasPrefix(l, UPDATE) then
        var m := Move(ls[1..]);
        var r := Hunks(m.1, []);
        Before(UpdateFile(TrimSpace(l[|UPDATE|..]), m.0, r.0), Ops(r.1))
      else Unexpected(l)
  }

  function Before(op: Op, r: ParseResult): ParseResult { if r.Parsed? then Parsed([op] + r.ops) else r }

  /** What a patch says: nothing without its first line, nothing without its last. */
  function Meaning(ls: seq<string>): ParseResult {
    if ls == [] || TrimSpace(ls[0]) != BEGIN then NoBegin else Ops(ls[1..])
  }

  // ----- the code

  function Behind(ops: seq<Op>, r: ParseResult): ParseResult { if r.Parsed? then Parsed(ops + r.ops) else r }

  lemma BehindBefore(ops: seq<Op>, op: Op, r: ParseResult)
    ensures Behind(ops, Before(op, r)) == Behind(ops + [op], r)
  {
    if r.Parsed? {
      assert ops + ([op] + r.ops) == ops + [op] + r.ops;
    }
  }

  /** The loop over the lines of a new file. */
  method ReadAdded(lines: seq<string>, start: nat) returns (content: seq<string>, i: nat, ok: bool)
    requires start <= |lines|
    ensures start <= i <= |lines| && (ok <==> Added(lines[start..]).Some?)
    ensures ok ==> Added(lines[start..]) == Some((content, lines[i..]))
    ensures !ok ==> i < |lines| && lines[i] == Stray(lines[start..])
  {
    hide Ends;
    content, i, ok := [], start, true;
    NothingAdded(Added(lines[start..]));
    while i < |lines|
      invariant start <= i <= |lines|
      invariant Added(lines[start..]) == AfterAdded(content, Added(lines[i..]))
      invariant Added(lines[i..]).None? ==> Stray(lines[start..]) == Stray(lines[i..])
    {
      assert lines[i..][0] == lines[i] && lines[i..][1..] == lines[i + 1..];
      var l := lines[i];
      if Ends(l) {
        break;
      }
      if !HasPrefix(l, "+") {
        return content, i, false;
      }
      AfterAddedTwice(content, l[1..], Added(lines[i + 1..]));
      content := content + [l[1..]];
      i := i + 1;
    }
    assert content + [] == content;
  }

  function AfterAdded(content: seq<string>, r: Option<(seq<string>, seq<string>)>): Option<(seq<string>, seq<string>)> {
    if r.None? then None else Some((content + r.value.0, r.value.1))
  }

  lemma NothingAdded(r: Option<(seq<string>, seq<string>)>)
    ensures AfterAdded([], r) == r
  {
    if r.Some? {
      assert [] + r.value.0 == r.value.0;
    }
  }

  lemma AfterAddedTwice(content: seq<string>, l: string, r: Option<(seq<string>, seq<string>)>)
    ensures AfterAdded(content, AfterAdded([l], r)) == AfterAdded(content + [l], r)
  {
    if r.Some? {
      assert content + ([l] + r.value.0) == content + [l] + r.value.0;
    }
  }

  /** The loop over the lines of an update: a separator ends a hunk that has lines. */
  method ReadHunks(lines: seq<string>, start: nat) returns (hunks: seq<Hunk>, i: nat)
    requires start <= |lines|
    ensures start <= i <= |lines| && Hunks(lines[start..], []) == (hunks, lines[i..])
  {
    hide Ends;
    var cur: Hunk := [];
    hunks, i := [], start;
    assert [] + Hunks(lines[start..], cur).0 == Hunks(lines[start..], cur).0;
    while i < |lines|
      invariant start <= i <= |lines|
      invariant Hunks(lines[start..], []) == (hunks + Hunks(lines[i..], cur).0, Hunks(lines[i..], cur).1)
    {
      assert lines[i..][0] == lines[i] && lines[i..][1..] == lines[i + 1..];
      var l := lines[i];
      if Ends(l) {
        break;
      }
      if HasPrefix(l, "@@") && cur != [] {
        assert hunks + ([cur] + Hunks(lines[i + 1..], []).0) == hunks + [cur] + Hunks(lines[i + 1..], []).0;
        hunks, cur := hunks + [cur], [];
      } else {
        cur := cur + [l];
      }
      i := i + 1;
    }
    if cur != [] {
      hunks := hunks + [cur];
    } else {
      assert hunks + [] == hunks;
    }
  }

  /** An update behind its header: where the file goes, if anywhere, then the hunks. */
  method ReadUpdate(lines: seq<string>, start: nat) returns (moveTo: string, hunks: seq<Hunk>, i: nat)
    requires start <= |lines|
    ensures start <= i <= |lines|
    ensures var m := Move(lines[start..]); moveTo == m.0 && Hunks(m.1, []) == (hunks, lines[i..])
  {
    hide TrimSpace, Hunks;
    moveTo, i := "", start;
    if i < |lines| && HasPrefix(lines[i], MOVE) {
      moveTo := TrimSpace(lines[i][|MOVE|..]);
      i := i + 1;
    }
    hunks, i := ReadHunks(lines, i);
  }

  method ParsePatch(lines: seq<string>) returns (r: ParseResult)
    ensures r == Meaning(lines)
  {
    hide TrimSpace, Added, Hunks, Stray, Move;
    var i := 0;
    if i >= |lines| || TrimSpace(lines[i]) != BEGIN {
      return NoBegin;
    }
    i := i + 1;
    var ops: seq<Op> := [];
    NothingBefore(Ops(lines[1..]));
    while i < |lines|
      invariant 1 <= i <= |lines| && Meaning(lines) == Behind(ops, Ops(lines[i..]))
      decreases |lines| - i
    {
      assert lines[i..][0] == lines[i] && lines[i..][1..] == lines[i + 1..];
      var l := lines[i];
      i := i + 1;
      if TrimSpace(l) == END {
        return Parsed(ops);
      }
      if TrimSpace(l) == "" {
        continue;
      }
      if HasPrefix(l, ADD) {
        var path := TrimSpace(l[|ADD|..]);
        var content, j, ok := ReadAdded(lines, i);
        if !ok {
          return NotAdded(path, lines[j]);
        }
        i := j;
        BehindBefore(ops, AddFile(path, content), Ops(lines[i..]));
        ops := ops + [AddFile(path, content)];
      } else if HasPrefix(l, DELETE) {
        var path := TrimSpace(l[|DELETE|..]);
        BehindBefore(ops, DeleteFile(path), Ops(lines[i..]));
        ops := ops + [DeleteFile(path)];
      } else if HasPrefix(l, UPDATE) {
        var path := TrimSpace(l[|UPDATE|..]);
        var moveTo, hunks, j := ReadUpdate(lines, i);
        i := j;
        BehindBefore(ops, UpdateFile(path, moveTo, hunks), Ops(lines[i..]));
        ops := ops + [UpdateFile(path, moveTo, hunks)];
      } else {
        return Unexpected(l);
      }
    }
    r := NoEnd;
  }

  lemma NothingBefore(r: ParseResult)
    ensures Behind([], r) == r
  {
    if r.Parsed? {
      assert [] + r.ops == r.ops;
    }
  }

  // ----- writing a patch

  function PlusLines(ls: seq<string>): seq<string> { if ls == [] then [] else ["+" + ls[0]] + PlusLines(ls[1..]) }

  /** Hunks with separators between them. */
  function HunkLines(hs: seq<Hunk>): seq<string> {
    if hs == [] then [] else if |hs| == 1 then hs[0] else hs[0] + ["@@"] + HunkLines(hs[1..])
  }

  function Render(op: Op): seq<string> {
    match op
    case AddFile(path, lines) => [ADD + path] + PlusLines(lines)
    case DeleteFile(path) => [DELETE + path]
    case UpdateFile(path, moveTo, hunks) =>
      [UPDATE + path] + (if moveTo == "" then [] else [MOVE + moveTo]) + HunkLines(hunks)
  }

  function RenderOps(ops: seq<Op>): (ls: seq<string>)
    ensures ls != []
  {
    if ops == [] then [END] else Render(ops[0]) + RenderOps(ops[1..])
  }

  /** The text of a patch. */
  function PatchLines(ops: seq<Op>): seq<string> { [BEGIN] + RenderOps(ops) }

  predicate CleanPath(p: string) { TrimSpace(p) == p }

  /** A hunk has lines, none of which ends it, and only the first may look like a separator. */
  predicate GoodHunk(h: Hunk) {
    h != [] && (forall i :: 0 <= i < |h| ==> !Ends(h[i])) && forall i :: 1 <= i < |h| ==> !HasPrefix(h[i], "@@")
  }

  predicate GoodOp(op: Op) {
    match op
    case AddFile(path, _) => CleanPath(path)
    case DeleteFile(path) => CleanPath(path)
    case UpdateFile(path, moveTo, hunks) =>
      CleanPath(path) && CleanPath(moveTo) && forall i :: 0 <= i < |hunks| ==> GoodHunk(hunks[i])
  }

  /** Trimming a line that does not start with white space leaves a front part of it. */
  lemma TrimmedIsFront(s: string) returns (k: nat)
    requires s != "" && !IsSpace(s[0])
    ensures 1 <= k <= |s| && TrimSpace(s) == s[..k]
  {
    k := TrimRightTrims(s);
  }

  /** A line that starts with other than white space or an end marker's letters is not blank and does not end a patch. */
  lemma NotEnd(s: string, n: nat)
    requires s != "" && !IsSpace(s[0]) && n < |s| && n < |END| && s[n] != END[n]
    ensures TrimSpace(s) != END && TrimSpace(s) != ""
  {
    var k := TrimmedIsFront(s);
  }

  lemma Prefixed(p: string, x: string)
    ensures HasPrefix(p + x, p) && (p + x)[|p|..] == x
  {
  }

  lemma Markers(path: string)
    ensures var l := ADD + path; TrimSpace(l) != END && TrimSpace(l) != "" && Ends(l) && !HasPrefix(l, MOVE)
    ensures var l := DELETE + path;
      TrimSpace(l) != END && TrimSpace(l) != "" && Ends(l) && !HasPrefix(l, MOVE) && !HasPrefix(l, ADD)
    ensures var l := UPDATE + path; TrimSpace(l) != END && TrimSpace(l) != "" && Ends(l) && !HasPrefix(l, MOVE)
    ensures var l := UPDATE + path; !HasPrefix(l, ADD) && !HasPrefix(l, DELETE)
  {
    var a, d, u := ADD + path, DELETE + path, UPDATE + path;
    NotEnd(a, 4);
    NotEnd(d, 4);
    NotEnd(u, 4);
    assert a[4] == 'A' && d[4] == 'D' && u[4] == 'U' && MOVE[4] == 'M' && ADD[4] == 'A' && DELETE[4] == 'D';
    assert a[..4] == STARS && d[..4] == STARS && u[..4] == STARS;
  }

  lemma AddedEnds(rest: seq<string>)
    requires rest != [] && Ends(rest[0])
    ensures Added(rest) == Some(([], rest))
  {
  }

  lemma AddedMore(l: string, rest: seq<string>)
    ensures Added(["+" + l] + rest)
         == var r := Added(rest); if r.None? then None else Some(([l] + r.value.0, r.value.1))
  {
    var plus, all := "+" + l, ["+" + l] + rest;
    NotEnd(plus, 0);
    assert plus[0] == '+' && plus[1..] == l && all[1..] == rest;
  }

  lemma {:induction false} AddedBack(ls: seq<string>, rest: seq<string>)
    requires rest != [] && Ends(rest[0])
    ensures Added(PlusLines(ls) + rest) == Some((ls, rest))
  {
    hide Ends, Added;
    if ls == [] {
      assert PlusLines(ls) + rest == rest;
      AddedEnds(rest);
    } else {
      AddedMore(ls[0], PlusLines(ls[1..]) + rest);
      assert PlusLines(ls) + rest == ["+" + ls[0]] + (PlusLines(ls[1..]) + rest);
      AddedBack(ls[1..], rest);
      assert [ls[0]] + ls[1..] == ls;
    }
  }

  /** The lines of a hunk are gathered one by one. */
  lemma {:induction false} HunkGathered(ls: seq<string>, tail: seq<string>, cur: Hunk)
    requires forall i :: 0 <= i < |ls| ==> !Ends(ls[i])
    requires forall i :: 0 <= i < |ls| && (i != 0 || cur != []) ==> !HasPrefix(ls[i], "@@")
    ensures Hunks(ls + tail, cur) == Hunks(tail, cur + ls)
  {
    hide Ends;
    if ls == [] {
      assert ls + tail == tail && cur + ls == cur;
    } else {
      var all := ls + tail;
      assert all[0] == ls[0] && all[1..] == ls[1..] + tail;
      HunkGathered(ls[1..], tail, cur + [ls[0]]);
      assert cur + [ls[0]] + ls[1..] == cur + ls;
    }
  }

  lemma {:induction false} HunksBack(hs: seq<Hunk>, rest: seq<string>)
    requires rest != [] && Ends(rest[0])
    requires forall i :: 0 <= i < |hs| ==> GoodHunk(hs[i])
    ensures Hunks(HunkLines(hs) + rest, []) == (hs, rest)
  {
    hide Ends, Hunks, HunkLines;
    NoHunkLines();
    if hs == [] {
      assert HunkLines(hs) + rest == rest;
      HunksEnd(rest, []);
    } else {
      HunkLinesStep(hs);
      var tail := if |hs| == 1 then rest else ["@@"] + (HunkLines(hs[1..]) + rest);
      assert HunkLines(hs) + rest == hs[0] + tail;
      HunkGathered(hs[0], tail, []);
      assert [] + hs[0] == hs[0];
      if |hs| == 1 {
        HunksEnd(rest, hs[0]);
        assert hs == [hs[0]];
      } else {
        HunksSplit(HunkLines(hs[1..]) + rest, hs[0]);
        HunksBack(hs[1..], rest);
        assert [hs[0]] + hs[1..] == hs;
      }
    }
  }

  lemma NoHunkLines()
    ensures HunkLines([]) == []
  {
  }

  lemma HunkLinesStep(hs: seq<Hunk>)
    requires hs != []
    ensures HunkLines(hs) == if |hs| == 1 then hs[0] else hs[0] + ["@@"] + HunkLines(hs[1..])
  {
  }

  lemma HunksEnd(rest: seq<string>, cur: Hunk)
    requires rest != [] && Ends(rest[0])
    ensures Hunks(rest, cur) == (if cur == [] then [] else [cur], rest)
  {
  }

  lemma HunksSplit(ls: seq<string>, cur: Hunk)
    requires cur != []
    ensures Hunks(["@@"] + ls, cur) == ([cur] + Hunks(ls, []).0, Hunks(ls, []).1)
  {
    hide Ends;
    SeparatorDoesNotEnd();
    assert (["@@"] + ls)[1..] == ls;
  }

  lemma SeparatorDoesNotEnd()
    ensures !Ends("@@")
  {
    NotEnd("@@", 0);
  }

  /** What follows an operation in a rendered patch ends it, and is no move. */
  lemma RestEnds(ops: seq<Op>)
    ensures var rest := RenderOps(ops); Ends(rest[0]) && !HasPrefix(rest[0], MOVE)
  {
    hide TrimSpace;
    if ops == [] {
      assert END[4] == 'E' && MOVE[4] == 'M' && END[..4] == STARS;
    } else {
      Markers(ops[0].path);
    }
  }

  /** The parser by its first line. */
  lemma OpsFrom(l: string, tail: seq<string>)
    requires TrimSpace(l) != END && TrimSpace(l) != ""
    ensures HasPrefix(l, ADD) && Added(tail).Some? ==>
      Ops([l] + tail) == Before(AddFile(TrimSpace(l[|ADD|..]), Added(tail).value.0), Ops(Added(tail).value.1))
    ensures !HasPrefix(l, ADD) && HasPrefix(l, DELETE) ==>
      Ops([l] + tail) == Before(DeleteFile(TrimSpace(l[|DELETE|..])), Ops(tail))
    ensures !HasPrefix(l, ADD) && !HasPrefix(l, DELETE) && HasPrefix(l, UPDATE) ==>
      Ops([l] + tail) == Before(UpdateFile(TrimSpace(l[|UPDATE|..]), Move(tail).0, Hunks(Move(tail).1, []).0),
                                Ops(Hunks(Move(tail).1, []).1))
  {
    hide TrimSpace, Added, Hunks, Move;
    assert ([l] + tail)[0] == l && ([l] + tail)[1..] == tail;
  }

  lemma UpdateBack(path: string, moveTo: string, hunks: seq<Hunk>, rest: seq<string>)
    requires GoodOp(UpdateFile(path, moveTo, hunks)) && rest != [] && Ends(rest[0]) && !HasPrefix(rest[0], MOVE)
    ensures Ops(Render(UpdateFile(path, moveTo, hunks)) + rest) == Before(UpdateFile(path, moveTo, hunks), Ops(rest))
  {
    hide TrimSpace, Ends, Hunks, HunkLines, Ops, Move, GoodHunk, HasPrefix;
    Markers(path);
    Prefixed(UPDATE, path);
    var moved := if moveTo == "" then [] else [MOVE + moveTo];
    MoveBack(moveTo, hunks, rest);
    HunksBack(hunks, rest);
    OpsFrom(UPDATE + path, moved + (HunkLines(hunks) + rest));
    assert [UPDATE + path] + moved + HunkLines(hunks) + rest == [UPDATE + path] + (moved + (HunkLines(hunks) + rest));
  }

  /** One operation, read back from its lines. */
  lemma OpBack(op: Op, rest: seq<string>)
    requires GoodOp(op) && rest != [] && Ends(rest[0]) && !HasPrefix(rest[0], MOVE)
    ensures Ops(Render(op) + rest) == Before(op, Ops(rest))
  {
    hide TrimSpace, Ends, Added, PlusLines, Ops, GoodHunk, HasPrefix;
    match op {
      case AddFile(path, lines) =>
        Markers(path);
        Prefixed(ADD, path);
        AddedBack(lines, rest);
        OpsFrom(ADD + path, PlusLines(lines) + rest);
        assert [ADD + path] + PlusLines(lines) + rest == [ADD + path] + (PlusLines(lines) + rest);
      case DeleteFile(path) =>
        Markers(path);
        Prefixed(DELETE, path);
        OpsFrom(DELETE + path, rest);
      case UpdateFile(path, moveTo, hunks) =>
        UpdateBack(path, moveTo, hunks, rest);
    }
  }

  lemma MoveBack(moveTo: string, hunks: seq<Hunk>, rest: seq<string>)
    requires CleanPath(moveTo) && rest != [] && !HasPrefix(rest[0], MOVE)
    requires forall i :: 0 <= i < |hunks| ==> GoodHunk(hunks[i])
    ensures Move((if moveTo == "" then [] else [MOVE + moveTo]) + (HunkLines(hunks) + rest)) == (moveTo, HunkLines(hunks) + rest)
  {
    var tail := HunkLines(hunks) + rest;
    FirstHunkLine(hunks, rest);
    hide TrimSpace, HunkLines, GoodHunk;
    if moveTo == "" {
      assert [] + tail == tail;
    } else {
      Prefixed(MOVE, moveTo);
      assert ([MOVE + moveTo] + tail)[0] == MOVE + moveTo && ([MOVE + moveTo] + tail)[1..] == tail;
    }
  }

  /** No line that can follow an update's first line by itself is a move. */
  lemma FirstHunkLine(hunks: seq<Hunk>, rest: seq<string>)
    requires rest != [] && !HasPrefix(rest[0], MOVE)
    requires forall i :: 0 <= i < |hunks| ==> GoodHunk(hunks[i])
    ensures var tail := HunkLines(hunks) + rest; tail != [] && !HasPrefix(tail[0], MOVE)
  {
    if hunks == [] {
      assert HunkLines(hunks) + rest == rest;
    } else {
      var l := hunks[0][0];
      assert GoodHunk(hunks[0]) && !Ends(l);
      assert (HunkLines(hunks) + rest)[0] == l;
      MoveEnds(l);
    }
  }

  lemma MoveEnds(l: string)
    ensures HasPrefix(l, MOVE) ==> Ends(l)
  {
    hide TrimSpace;
    assert MOVE[..4] == STARS;
    if HasPrefix(l, MOVE) {
      assert l[..4] == MOVE[..4];
    }
  }

  lemma {:induction false} OpsBack(ops: seq<Op>)
    requires forall i :: 0 <= i < |ops| ==> GoodOp(ops[i])
    ensures Ops(RenderOps(ops)) == Parsed(ops)
  {
    if ops == [] {
      TrimmedAlready(END);
    } else {
      hide Ops, Render, GoodOp, Ends;
      RestEnds(ops[1..]);
      OpsBack(ops[1..]);
      OpBack(ops[0], RenderOps(ops[1..]));
      assert [ops[0]] + ops[1..] == ops;
    }
  }

  // ----- what can be read at all

  lemma {:induction false} HunksAreGood(ls: seq<string>, cur: Hunk)
    requires cur == [] || GoodHunk(cur)
    ensures forall i :: 0 <= i < |Hunks(ls, cur).0| ==> GoodHunk(Hunks(ls, cur).0[i])
    decreases |ls|
  {
    hide Ends;
    if ls != [] && !Ends(ls[0]) {
      if HasPrefix(ls[0], "@@") && cur != [] {
        HunksAreGood(ls[1..], []);
      } else {
        assert GoodHunk(cur + [ls[0]]);
        HunksAreGood(ls[1..], cur + [ls[0]]);
      }
    }
  }

  /** Whatever text is read as a patch, its operations can be written down again. */
  lemma {:induction false} ReadOpsAreGood(ls: seq<string>)
    requires Ops(ls).Parsed?
    ensures forall i :: 0 <= i < |Ops(ls).ops| ==> GoodOp(Ops(ls).ops[i])
    decreases |ls|
  {
    hide TrimSpace, Ends, Hunks, Added, GoodHunk;
    var l := ls[0];
    if TrimSpace(l) == END {
    } else if TrimSpace(l) == "" {
      ReadOpsAreGood(ls[1..]);
    } else if HasPrefix(l, ADD) {
      TrimTwice(l[|ADD|..]);
      ReadOpsAreGood(Added(ls[1..]).value.1);
    } else if HasPrefix(l, DELETE) {
      TrimTwice(l[|DELETE|..]);
      ReadOpsAreGood(ls[1..]);
    } else {
      TrimTwice(l[|UPDATE|..]);
      MoveIsClean(ls[1..]);
      HunksAreGood(Move(ls[1..]).1, []);
      ReadOpsAreGood(Hunks(Move(ls[1..]).1, []).1);
    }
  }

  lemma MoveIsClean(ls: seq<string>)
    ensures CleanPath(Move(ls).0)
  {
    if ls != [] && HasPrefix(ls[0], MOVE) {
      TrimTwice(ls[0][|MOVE|..]);
    } else {
      TrimmedAlready("");
    }
  }

  /** Reading a patch recovers a list of operations from its rendered lines exactly if each of them is good. */
  lemma PatchRoundTrip(ops: seq<Op>)
    ensures Meaning(PatchLines(ops)) == Parsed(ops) <==> forall i :: 0 <= i < |ops| ==> GoodOp(ops[i])
  {
    hide Ops, Render, GoodOp;
    TrimmedAlready(BEGIN);
    assert PatchLines(ops)[1..] == RenderOps(ops);
    if forall i :: 0 <= i < |ops| ==> GoodOp(ops[i]) {
      OpsBack(ops);
    } else if Ops(RenderOps(ops)).Parsed? {
      ReadOpsAreGood(RenderOps(ops));
    }
  }

  /** Writing down what was read and reading it again changes nothing. */
  lemma ReadAgain(ls: seq<string>)
    requires Meaning(ls).Parsed?
    ensures Meaning(PatchLines(Meaning(ls).ops)) == Meaning(ls)
  {
    hide Ops, Render, GoodOp;
    ReadOpsAreGood(ls[1..]);
    PatchRoundTrip(Meaning(ls).ops);
  }

  /** A patch in so many words: a new file, a file removed, and a file changed in two places and moved. */
  lemma PatchInWords(a: string, x: string, y: string, d: string, u: string, m: string, g: Hunk, h: Hunk)
    requires CleanPath(a) && CleanPath(d) && CleanPath(u) && CleanPath(m) && m != "" && GoodHunk(g) && GoodHunk(h)
    ensures
      Meaning(["*** Begin Patch", "*** Add File: " + a, "+" + x, "+" + y, "*** Delete File: " + d,
               "*** Update File: " + u, "*** Move to: " + m] + g + ["@@"] + h + ["*** End Patch"])
      == Parsed([AddFile(a, [x, y]), DeleteFile(d), UpdateFile(u, m, [g, h])])
  {
    hide CleanPath, GoodHunk, Render, RenderOps, Meaning, HunkLines, PlusLines;
    var add, del, upd := AddFile(a, [x, y]), DeleteFile(d), UpdateFile(u, m, [g, h]);
    PatchRoundTrip([add, del, upd]);
    InWords(a, x, y, d, u, m, g, h);
    ThreeOps(add, del, upd);
    assert ["*** Begin Patch", "*** Add File: " + a, "+" + x, "+" + y, "*** Delete File: " + d,
            "*** Update File: " + u, "*** Move to: " + m] + g + ["@@"] + h + ["*** End Patch"]
        == PatchLines([add, del, upd]);
  }

  lemma InWords(a: string, x: string, y: string, d: string, u: string, m: string, g: Hunk, h: Hunk)
    requires m != ""
    ensures Render(AddFile(a, [x, y])) == ["*** Add File: " + a, "+" + x, "+" + y]
    ensures Render(DeleteFile(d)) == ["*** Delete File: " + d]
    ensures Render(UpdateFile(u, m, [g, h])) == ["*** Update File: " + u, "*** Move to: " + m] + (g + ["@@"] + h)
  {
    assert [x, y][1..] == [y] && [y][1..] == [] && PlusLines([y]) == ["+" + y];
    assert [g, h][1..] == [h] && HunkLines([h]) == h;
    var add: Op, upd: Op := AddFile(a, [x, y]), UpdateFile(u, m, [g, h]);
    assert Render(add) == [ADD + a] + PlusLines([x, y]) && Render(upd) == [UPDATE + u] + [MOVE + m] + HunkLines([g, h]);
  }

  lemma ThreeOps(p: Op, q: Op, r: Op)
    ensures PatchLines([p, q, r]) == ["*** Begin Patch"] + Render(p) + Render(q) + Render(r) + ["*** End Patch"]
  {
    hide Render;
    assert [p, q, r][1..] == [q, r] && [q, r][1..] == [r] && [r][1..] == [];
    assert RenderOps([r]) == Render(r) + ["*** End Patch"];
    assert RenderOps([q, r]) == Render(q) + RenderOps([r]);
  }
}
