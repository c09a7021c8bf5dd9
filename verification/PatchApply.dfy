/** Applying the hunks of a patch to the lines of a file. */
module PatchApply {
  import opened GoStrings

  /** Diff lines as they stand in the patch, prefix and all. */
  type Hunk = seq<string>

  datatype Result<T> = Ok(value: T) | Err(error: Error)

  datatype Error =
    | AnchorNotFound(anchor: string)
    | ContextMismatch(want: string, line: nat)
    | DeleteMismatch(want: string, line: nat)

  predicate HasPrefix(s: string, p: string) { p <= s }

  /** A line that names what the file holds: context or deletion. */
  predicate IsOld(l: string) { l != "" && (l[0] == ' ' || l[0] == '-') }

  /** A line that names what the file is to hold: context or insertion. */
  predicate IsNew(l: string) { l != "" && (l[0] == ' ' || l[0] == '+') }

  /** The lines a hunk expects, and the lines it leaves in their place. */
  function Old(h: Hunk): seq<string> { if h == [] then [] else OldPart(h[0]) + Old(h[1..]) }

  function New(h: Hunk): seq<string> { if h == [] then [] else NewPart(h[0]) + New(h[1..]) }

  function OldPart(l: string): seq<string> { if IsOld(l) then [l[1..]] else [] }

  function NewPart(l: string): seq<string> { if IsNew(l) then [l[1..]] else [] }

  /** The first line a hunk expects; empty if it expects none, or a blank one. */
  function Anchor(h: Hunk): string { if Old(h) == [] then "" else Old(h)[0] }

  /** The first place at or after a position where a line stands, or -1. */
  function FirstAt(lines: seq<string>, want: string, start: nat): (k: int)
    requires start <= |lines|
    ensures k == -1 || start <= k < |lines|
    decreases |lines| - start
  {
    if start == |lines| then -1 else if lines[start] == want then start else FirstAt(lines, want, start + 1)
  }

  lemma {:induction false} FirstAtIsFirst(lines: seq<string>, want: string, start: nat)
    requires start <= |lines|
    ensures var k := FirstAt(lines, want, start);
      if k == -1 then forall i :: start <= i < |lines| ==> lines[i] != want
      else lines[k] == want && forall i :: start <= i < k ==> lines[i] != want
    decreases |lines| - start
  {
    if start < |lines| && lines[start] != want {
      FirstAtIsFirst(lines, want, start + 1);
    }
  }

  /** Where a hunk goes: to its anchor's first match, or, without an anchor, right where the last hunk ended; -1 if nowhere. */
  function PlaceOf(lines: seq<string>, h: Hunk, pos: nat): (k: int)
    requires pos <= |lines|
    ensures k == -1 || pos <= k <= |lines|
  {
    if Anchor(h) == "" then pos else FirstAt(lines, Anchor(h), pos)
  }

  /** The expected lines stand at a place. */
  predicate Fits(lines: seq<string>, k: nat, want: seq<string>) { k + |want| <= |lines| && lines[k..k + |want|] == want }

  /** The result of applying hunks from a position on; none if one of them has no place or does not fit. */
  function Applied(lines: seq<string>, hunks: seq<Hunk>, pos: nat): Option<seq<string>>
    requires pos <= |lines|
    decreases |hunks|
  {
    if hunks == [] then Some(lines[pos..])
    else
      var h, k := hunks[0], PlaceOf(lines, hunks[0], pos);
      if k == -1 || !Fits(lines, k, Old(h)) then None
      else
        var rest := Applied(lines, hunks[1..], k + |Old(h)|);
        if rest.None? then None else Some(lines[pos..k] + New(h) + rest.value)
  }

  /** A hunk line that is at fault: all before it matched, and the file ends or differs where it stands. */
  ghost predicate AtFault(lines: seq<string>, start: nat, h: Hunk, i: nat) {
    && i < |h| && IsOld(h[i])
    && Fits(lines, start, Old(h[..i]))
    && var pos := start + |Old(h[..i])|; pos >= |lines| || lines[pos] != h[i][1..]
  }

  /** The complaint about the i-th line of a hunk; lines of the file are counted from one. */
  ghost predicate Blames(lines: seq<string>, start: nat, h: Hunk, i: nat, e: Error) {
    && AtFault(lines, start, h, i)
    && var n := start + |Old(h[..i])| + 1;
       e == if h[i][0] == ' ' then ContextMismatch(h[i][1..], n) else DeleteMismatch(h[i][1..], n)
  }

  /** The error that stops a patch: the first hunk without a place, or the line at fault in the first that does not fit. */
  ghost predicate Complaint(lines: seq<string>, hunks: seq<Hunk>, pos: nat, e: Error)
    requires pos <= |lines|
    decreases |hunks|
  {
    hunks != [] &&
    var h, k := hunks[0], PlaceOf(lines, hunks[0], pos);
    if k == -1 then e == AnchorNotFound(Anchor(h))
    else if !Fits(lines, k, Old(h)) then exists i: nat :: Blames(lines, k, h, i, e)
    else Complaint(lines, hunks[1..], k + |Old(h)|, e)
  }

  // ----- the code

  method FirstAnchor(h: Hunk) returns (a: string)
    ensures a == Anchor(h)
  {
    var i := 0;
    assert h[0..] == h;
    while i < |h|
      invariant 0 <= i <= |h| && Old(h) == Old(h[i..])
    {
      assert h[i..][1..] == h[i + 1..];
      var l := h[i];
      if l != "" && !HasPrefix(l, "@@") && (l[0] == ' ' || l[0] == '-') {
        return l[1..];
      }
      i := i + 1;
    }
    a := "";
  }

  method IndexOfLine(lines: seq<string>, want: string, start: nat) returns (k: int)
    requires start <= |lines|
    ensures k == FirstAt(lines, want, start)
  {
    var i := start;
    while i < |lines|
      invariant start <= i <= |lines| && FirstAt(lines, want, start) == FirstAt(lines, want, i)
    {
      if lines[i] == want {
        return i;
      }
      i := i + 1;
    }
    k := -1;
  }

  /** Goes through one hunk line by line from where it is placed. */
  method ApplyHunk(lines: seq<string>, h: Hunk, start: nat) returns (r: Result<seq<string>>, pos: nat)
    requires start <= |lines|
    ensures r.Ok? <==> Fits(lines, start, Old(h))
    ensures r.Ok? ==> r.value == New(h) && pos == start + |Old(h)| <= |lines|
    ensures r.Err? ==> exists i: nat :: Blames(lines, start, h, i, r.error)
  {
    var out: seq<string> := [];
    pos := start;
    var i := 0;
    NoLines(h);
    hide Old, New;
    while i < |h|
      invariant 0 <= i <= |h| && pos == start + |Old(h[..i])| <= |lines|
      invariant lines[start..pos] == Old(h[..i]) && out == New(h[..i])
    {
      var l := h[i];
      OneMoreLine(h, i);
      assert pos < |lines| ==> lines[start..pos + 1] == lines[start..pos] + [lines[pos]];
      if !HasPrefix(l, "@@") && l != "" {
        var body := l[1..];
        if l[0] == ' ' {
          if pos >= |lines| || lines[pos] != body {
            CannotFit(lines, start, h, i);
            assert Blames(lines, start, h, i, ContextMismatch(body, pos + 1));
            return Err(ContextMismatch(body, pos + 1)), pos;
          }
          out := out + [body];
          pos := pos + 1;
        } else if l[0] == '-' {
          if pos >= |lines| || lines[pos] != body {
            CannotFit(lines, start, h, i);
            assert Blames(lines, start, h, i, DeleteMismatch(body, pos + 1));
            return Err(DeleteMismatch(body, pos + 1)), pos;
          }
          pos := pos + 1;
        } else if l[0] == '+' {
          out := out + [body];
        }
      }
      i := i + 1;
    }
    assert h[..i] == h;
    r := Ok(out);
  }

  lemma {:induction false} OldJoin(a: Hunk, b: Hunk)
    ensures Old(a + b) == Old(a) + Old(b) && New(a + b) == New(a) + New(b)
  {
    if a == [] {
      assert a + b == b;
    } else {
      assert (a + b)[0] == a[0] && (a + b)[1..] == a[1..] + b;
      hide OldPart, NewPart;
      OldJoin(a[1..], b);
      assert OldPart(a[0]) + (Old(a[1..]) + Old(b)) == OldPart(a[0]) + Old(a[1..]) + Old(b);
      assert NewPart(a[0]) + (New(a[1..]) + New(b)) == NewPart(a[0]) + New(a[1..]) + New(b);
    }
  }

  lemma NoLines(h: Hunk)
    ensures Old(h[..0]) == [] && New(h[..0]) == []
  {
  }

  lemma OneMoreLine(h: Hunk, i: nat)
    requires i < |h|
    ensures Old(h[..i + 1]) == Old(h[..i]) + if IsOld(h[i]) then [h[i][1..]] else []
    ensures New(h[..i + 1]) == New(h[..i]) + if IsNew(h[i]) then [h[i][1..]] else []
  {
    assert h[..i + 1] == h[..i] + [h[i]];
    OldJoin(h[..i], [h[i]]);
    assert [h[i]][1..] == [];
  }

  /** Lines that fit are all there. */
  lemma FitsAt(lines: seq<string>, k: nat, want: seq<string>, j: nat)
    requires j < |want|
    ensures Fits(lines, k, want) ==> k + j < |lines| && lines[k + j] == want[j]
  {
    if Fits(lines, k, want) {
      assert lines[k..k + |want|][j] == lines[k + j];
    }
  }

  /** An expected line that is not there rules the whole hunk out. */
  lemma CannotFit(lines: seq<string>, start: nat, h: Hunk, i: nat)
    requires i < |h| && IsOld(h[i])
    requires var pos := start + |Old(h[..i])|; pos >= |lines| || lines[pos] != h[i][1..]
    ensures !Fits(lines, start, Old(h))
  {
    OldAt(h, i);
    FitsAt(lines, start, Old(h), |Old(h[..i])|);
  }

  lemma OldAt(h: Hunk, i: nat)
    requires i < |h| && IsOld(h[i])
    ensures |Old(h[..i])| < |Old(h)| && Old(h)[|Old(h[..i])|] == h[i][1..]
  {
    hide Old, New;
    OneMoreLine(h, i);
    assert h == h[..i + 1] + h[i + 1..];
    OldJoin(h[..i + 1], h[i + 1..]);
  }

  /** The loop over the hunks of an update. */
  method ApplyHunks(lines: seq<string>, hunks: seq<Hunk>) returns (r: Result<seq<string>>)
    ensures r.Ok? <==> Applied(lines, hunks, 0).Some?
    ensures r.Ok? ==> r.value == Applied(lines, hunks, 0).value
    ensures r.Err? ==> Complaint(lines, hunks, 0, r.error)
  {
    hide Old, New, Anchor, Fits, Blames, Complaint, Carries;
    var out: seq<string> := [];
    var pos, i := 0, 0;
    assert hunks[0..] == hunks;
    NothingBehind(Applied(lines, hunks, 0));
    CarriesItself(lines, hunks);
    while i < |hunks|
      invariant 0 <= i <= |hunks| && 0 <= pos <= |lines|
      invariant Applied(lines, hunks, 0) == Behind(out, Applied(lines, hunks[i..], pos))
      invariant Carries(lines, hunks[i..], pos, hunks)
    {
      var h := hunks[i];
      assert hunks[i..][1..] == hunks[i + 1..];
      var anchor := FirstAnchor(h);
      var k := pos;
      if anchor != "" {
        k := IndexOfLine(lines, anchor, pos);
        if k < 0 {
          ComplaintHere(lines, hunks[i..], pos, 0, AnchorNotFound(anchor));
          Carried(lines, hunks[i..], pos, hunks, AnchorNotFound(anchor));
          return Err(AnchorNotFound(anchor));
        }
      }
      var one, next := ApplyHunk(lines, h, k);
      if one.Err? {
        ghost var f: nat :| Blames(lines, k, h, f, one.error);
        ComplaintHere(lines, hunks[i..], pos, f, one.error);
        Carried(lines, hunks[i..], pos, hunks, one.error);
        return Err(one.error);
      }
      CarryOn(lines, hunks[i..], pos, hunks);
      BehindTwice(out, lines[pos..k] + one.value, Applied(lines, hunks[i + 1..], next));
      out := out + (lines[pos..k] + one.value);
      pos := next;
      i := i + 1;
    }
    out := out + lines[pos..];
    r := Ok(out);
  }

  /** A complaint about what is left of a patch is one about the whole. */
  ghost predicate Carries(lines: seq<string>, rest: seq<Hunk>, pos: nat, hunks: seq<Hunk>) {
    pos <= |lines| && forall e :: Complaint(lines, rest, pos, e) ==> Complaint(lines, hunks, 0, e)
  }

  lemma CarriesItself(lines: seq<string>, hunks: seq<Hunk>)
    ensures Carries(lines, hunks, 0, hunks)
  {
  }

  lemma Carried(lines: seq<string>, rest: seq<Hunk>, pos: nat, hunks: seq<Hunk>, e: Error)
    requires Carries(lines, rest, pos, hunks) && Complaint(lines, rest, pos, e)
    ensures Complaint(lines, hunks, 0, e)
  {
  }

  lemma CarryOn(lines: seq<string>, rest: seq<Hunk>, pos: nat, hunks: seq<Hunk>)
    requires Carries(lines, rest, pos, hunks) && rest != []
    requires var k := PlaceOf(lines, rest[0], pos); k != -1 && Fits(lines, k, Old(rest[0]))
    ensures Carries(lines, rest[1..], PlaceOf(lines, rest[0], pos) + |Old(rest[0])|, hunks)
  {
    hide Old, Anchor, Blames;
  }

  lemma ComplaintHere(lines: seq<string>, rest: seq<Hunk>, pos: nat, i: nat, e: Error)
    requires pos <= |lines| && rest != []
    requires var k := PlaceOf(lines, rest[0], pos);
      if k == -1 then e == AnchorNotFound(Anchor(rest[0]))
      else !Fits(lines, k, Old(rest[0])) && Blames(lines, k, rest[0], i, e)
    ensures Complaint(lines, rest, pos, e)
  {
  }

  /** There is only one line to blame. */
  lemma OneAtFault(lines: seq<string>, start: nat, h: Hunk, i: nat, j: nat)
    requires AtFault(lines, start, h, i) && AtFault(lines, start, h, j)
    ensures i == j
  {
    if i < j {
      FaultEndsFit(lines, start, h, i, j);
    } else if j < i {
      FaultEndsFit(lines, start, h, j, i);
    }
  }

  lemma FaultEndsFit(lines: seq<string>, start: nat, h: Hunk, i: nat, j: nat)
    requires AtFault(lines, start, h, i) && i < j <= |h|
    ensures !Fits(lines, start, Old(h[..j]))
  {
    assert h[..j][..i] == h[..i] && h[..j][i] == h[i];
    CannotFit(lines, start, h[..j], i);
  }

  /** A patch that can be complained about does not apply, and there is only one complaint to make. */
  lemma {:induction false} OneComplaint(lines: seq<string>, hunks: seq<Hunk>, pos: nat, e: Error, f: Error)
    requires pos <= |lines| && Complaint(lines, hunks, pos, e)
    ensures Applied(lines, hunks, pos).None?
    ensures Complaint(lines, hunks, pos, f) ==> f == e
    decreases |hunks|
  {
    hide Old, Anchor, AtFault;
    var h, k := hunks[0], PlaceOf(lines, hunks[0], pos);
    if k != -1 && Fits(lines, k, Old(h)) {
      OneComplaint(lines, hunks[1..], k + |Old(h)|, e, f);
    } else if k != -1 && Complaint(lines, hunks, pos, f) {
      var i: nat :| Blames(lines, k, h, i, e);
      var j: nat :| Blames(lines, k, h, j, f);
      OneAtFault(lines, k, h, i, j);
    }
  }

  function Behind(out: seq<string>, rest: Option<seq<string>>): Option<seq<string>> {
    if rest.None? then None else Some(out + rest.value)
  }

  lemma NothingBehind(rest: Option<seq<string>>)
    ensures Behind([], rest) == rest
  {
    if rest.Some? {
      assert [] + rest.value == rest.value;
    }
  }

  lemma BehindTwice(a: seq<string>, b: seq<string>, rest: Option<seq<string>>)
    ensures Behind(a, Behind(b, rest)) == Behind(a + b, rest)
  {
    if rest.Some? {
      assert a + (b + rest.value) == a + b + rest.value;
    }
  }

  // ----- what applying hunks means

  /** The untouched stretches before, between and behind the hunks. */
  function Gaps(lines: seq<string>, hunks: seq<Hunk>, pos: nat): (gs: seq<seq<string>>)
    requires pos <= |lines| && Applied(lines, hunks, pos).Some?
    ensures |gs| == |hunks| + 1
    decreases |hunks|
  {
    if hunks == [] then [lines[pos..]]
    else
      var k := PlaceOf(lines, hunks[0], pos);
      [lines[pos..k]] + Gaps(lines, hunks[1..], k + |Old(hunks[0])|)
  }

  /** Stretches with blocks between them. */
  function Woven(gaps: seq<seq<string>>, blocks: seq<seq<string>>): seq<string>
    requires |gaps| == |blocks| + 1
  {
    if blocks == [] then gaps[0] else gaps[0] + blocks[0] + Woven(gaps[1..], blocks[1..])
  }

  function Olds(hunks: seq<Hunk>): (bs: seq<seq<string>>)
    ensures |bs| == |hunks|
  {
    if hunks == [] then [] else [Old(hunks[0])] + Olds(hunks[1..])
  }

  function News(hunks: seq<Hunk>): (bs: seq<seq<string>>)
    ensures |bs| == |hunks|
  {
    if hunks == [] then [] else [New(hunks[0])] + News(hunks[1..])
  }

  /**
   * The original is the stretches woven with what the hunks expect, the result the same stretches woven with what they leave:
   * every line is kept, replaced or inserted in its place.
   */
  lemma {:induction false} AppliedWeaves(lines: seq<string>, hunks: seq<Hunk>, pos: nat)
    requires pos <= |lines| && Applied(lines, hunks, pos).Some?
    ensures var gaps := Gaps(lines, hunks, pos);
      Woven(gaps, Olds(hunks)) == lines[pos..] && Woven(gaps, News(hunks)) == Applied(lines, hunks, pos).value
    decreases |hunks|
  {
    hide Old, New, PlaceOf, Applied, Gaps, Woven, Olds, News;
    if hunks == [] {
      NothingWoven(lines, hunks, pos);
    } else {
      AppliedStep(lines, hunks, pos);
      var h := hunks[0];
      var k := PlaceOf(lines, h, pos);
      var next := k + |Old(h)|;
      AppliedWeaves(lines, hunks[1..], next);
      var gap, gaps := lines[pos..k], Gaps(lines, hunks[1..], next);
      BlocksMore(hunks);
      WovenMore(gap, gaps, Old(h), Olds(hunks[1..]));
      WovenMore(gap, gaps, New(h), News(hunks[1..]));
      Stretches(lines, pos, k, next);
    }
  }

  lemma NothingWoven(lines: seq<string>, hunks: seq<Hunk>, pos: nat)
    requires pos <= |lines| && hunks == []
    ensures Applied(lines, hunks, pos) == Some(lines[pos..])
    ensures var gaps := Gaps(lines, hunks, pos);
      Woven(gaps, Olds(hunks)) == lines[pos..] && Woven(gaps, News(hunks)) == lines[pos..]
  {
  }

  /** The first hunk has its place in the file, and the others apply behind it. */
  predicate Begins(lines: seq<string>, hunks: seq<Hunk>, pos: nat)
    requires pos <= |lines| && hunks != []
  {
    var k := PlaceOf(lines, hunks[0], pos);
    var next := k + |Old(hunks[0])|;
    pos <= k <= next <= |lines| && Applied(lines, hunks[1..], next).Some?
  }

  /** The first hunk of a patch that applies stands in its place, and the others apply behind it. */
  lemma AppliedStep(lines: seq<string>, hunks: seq<Hunk>, pos: nat)
    requires pos <= |lines| && hunks != [] && Applied(lines, hunks, pos).Some?
    ensures Begins(lines, hunks, pos)
    ensures var k := PlaceOf(lines, hunks[0], pos);
      var next := k + |Old(hunks[0])|;
      && lines[k..next] == Old(hunks[0])
      && Applied(lines, hunks, pos).value == lines[pos..k] + New(hunks[0]) + Applied(lines, hunks[1..], next).value
      && Gaps(lines, hunks, pos) == [lines[pos..k]] + Gaps(lines, hunks[1..], next)
  {
    hide Old, New, Anchor;
  }

  lemma BlocksMore(hunks: seq<Hunk>)
    requires hunks != []
    ensures Olds(hunks) == [Old(hunks[0])] + Olds(hunks[1..]) && News(hunks) == [New(hunks[0])] + News(hunks[1..])
  {
    hide Old, New;
  }

  lemma WovenMore(gap: seq<string>, gaps: seq<seq<string>>, block: seq<string>, blocks: seq<seq<string>>)
    requires |gaps| == |blocks| + 1
    ensures Woven([gap] + gaps, [block] + blocks) == gap + block + Woven(gaps, blocks)
  {
    assert ([gap] + gaps)[1..] == gaps && ([block] + blocks)[1..] == blocks;
  }

  lemma Stretches(lines: seq<string>, pos: nat, k: nat, next: nat)
    requires pos <= k <= next <= |lines|
    ensures lines[pos..k] + lines[k..next] + lines[next..] == lines[pos..]
  {
  }

  // ----- turning a patch round

  /** A diff line with insertion and deletion exchanged. */
  function Swapped(l: string): string {
    if l != "" && l[0] == '-' then "+" + l[1..] else if l != "" && l[0] == '+' then "-" + l[1..] else l
  }

  function Inverted(h: Hunk): (g: Hunk) { if h == [] then [] else [Swapped(h[0])] + Inverted(h[1..]) }

  function InvertedAll(hunks: seq<Hunk>): (gs: seq<Hunk>)
    ensures |gs| == |hunks|
  {
    if hunks == [] then [] else [Inverted(hunks[0])] + InvertedAll(hunks[1..])
  }

  /** An inverted hunk expects what the hunk leaves, and leaves what it expects. */
  lemma {:induction false} InvertedSwaps(h: Hunk)
    ensures Old(Inverted(h)) == New(h) && New(Inverted(h)) == Old(h)
  {
    if h != [] {
      InvertedSwaps(h[1..]);
      assert Inverted(h)[1..] == Inverted(h[1..]);
    }
  }

  /** The first line a hunk leaves; empty if it leaves none, or a blank one. */
  function NewAnchor(h: Hunk): string { if New(h) == [] then "" else New(h)[0] }

  /**
   * A hunk can be found again: the first line it leaves does not occur in the stretch before it, or, if it leaves
   * nothing to look for, there is no such stretch.
   */
  predicate FoundAgain(lines: seq<string>, h: Hunk, pos: nat)
    requires pos <= |lines| && PlaceOf(lines, h, pos) != -1
  {
    var k := PlaceOf(lines, h, pos);
    if NewAnchor(h) == "" then k == pos else NewAnchor(h) !in lines[pos..k]
  }

  predicate AllFoundAgain(lines: seq<string>, hunks: seq<Hunk>, pos: nat)
    requires pos <= |lines| && Applied(lines, hunks, pos).Some?
    decreases |hunks|
  {
    hunks == []
    || (FoundAgain(lines, hunks[0], pos)
        && AllFoundAgain(lines, hunks[1..], PlaceOf(lines, hunks[0], pos) + |Old(hunks[0])|))
  }

  /** The line a hunk is placed by does not stand anywhere before it. */
  lemma AnchorIsFirst(lines: seq<string>, h: Hunk, pos: nat, i: nat)
    requires pos <= |lines| && PlaceOf(lines, h, pos) != -1 && pos <= i < PlaceOf(lines, h, pos)
    ensures Old(h) != [] && lines[i] != Old(h)[0]
  {
    FirstAtIsFirst(lines, Anchor(h), pos);
  }

  /** In the result the inverted hunk goes to its own place if it can be found again, and else to one before. */
  lemma InvertedGoes(lines: seq<string>, h: Hunk, pos: nat, result: seq<string>, at: nat, rest: seq<string>)
    requires pos <= |lines| && PlaceOf(lines, h, pos) != -1 && at <= |result|
    requires result[at..] == lines[pos..PlaceOf(lines, h, pos)] + New(h) + rest
    ensures var own := at + (PlaceOf(lines, h, pos) - pos);
      at <= PlaceOf(result, Inverted(h), at) <= own
      && (PlaceOf(result, Inverted(h), at) == own <==> FoundAgain(lines, h, pos))
  {
    hide Inverted, Old, New;
    InvertedSwaps(h);
    var gap := lines[pos..PlaceOf(lines, h, pos)];
    var a, own := NewAnchor(h), at + |gap|;
    Pieces(result, at, gap, New(h), rest);
    assert forall i :: at <= i < own ==> result[i] == result[at..own][i - at] == gap[i - at];
    if a != "" {
      assert result[own] == result[own..own + |New(h)|][0] == a;
      FirstAtIsFirst(result, a, at);
      if a in gap {
        var i :| 0 <= i < |gap| && gap[i] == a;
        assert result[at + i] == a;
      }
    }
  }

  /** The inverted hunks give the original back exactly if every hunk can be found again. */
  lemma {:induction false} InvertedRestores(lines: seq<string>, hunks: seq<Hunk>, pos: nat, result: seq<string>, at: nat)
    requires pos <= |lines| && Applied(lines, hunks, pos).Some? && at <= |result|
    requires result[at..] == Applied(lines, hunks, pos).value
    ensures Applied(result, InvertedAll(hunks), at) == Some(lines[pos..]) <==> AllFoundAgain(lines, hunks, pos)
    decreases |hunks|
  {
    hide Old, New, Inverted, PlaceOf, FoundAgain, Applied, InvertedAll, AllFoundAgain;
    if hunks == [] {
      NothingInverted(lines, hunks, pos, result, at);
    } else {
      AppliedStep(lines, hunks, pos);
      InvertedStep(lines, hunks, pos);
      var h := hunks[0];
      InvertedSwaps(h);
      var k := PlaceOf(lines, h, pos);
      var next := k + |Old(h)|;
      var gap, rest := lines[pos..k], Applied(lines, hunks[1..], next).value;
      var own := at + |gap|;
      Pieces(result, at, gap, New(h), rest);
      InvertedGoes(lines, h, pos, result, at, rest);
      Stretches(lines, pos, k, next);
      if FoundAgain(lines, h, pos) {
        FirstHunk(result, Inverted(h), InvertedAll(hunks[1..]), at, own);
        InvertedRestores(lines, hunks[1..], next, result, own + |New(h)|);
        SameFronts(Applied(result, InvertedAll(hunks[1..]), own + |New(h)|), gap + Old(h), lines[next..]);
      } else {
        Misplaced(lines, hunks, pos, result, at);
      }
    }
  }

  lemma NothingInverted(lines: seq<string>, hunks: seq<Hunk>, pos: nat, result: seq<string>, at: nat)
    requires pos <= |lines| && hunks == [] && at <= |result| && Applied(lines, hunks, pos) == Some(result[at..])
    ensures Applied(result, InvertedAll(hunks), at) == Some(lines[pos..]) && AllFoundAgain(lines, hunks, pos)
  {
  }

  lemma InvertedStep(lines: seq<string>, hunks: seq<Hunk>, pos: nat)
    requires pos <= |lines| && hunks != [] && Applied(lines, hunks, pos).Some? && Begins(lines, hunks, pos)
    ensures InvertedAll(hunks) == [Inverted(hunks[0])] + InvertedAll(hunks[1..])
    ensures var next := PlaceOf(lines, hunks[0], pos) + |Old(hunks[0])|;
      AllFoundAgain(lines, hunks, pos) <==> FoundAgain(lines, hunks[0], pos) && AllFoundAgain(lines, hunks[1..], next)
  {
    hide Old, New, Anchor, Inverted, FoundAgain;
  }

  lemma SameFronts(rest: Option<seq<string>>, front: seq<string>, tail: seq<string>)
    ensures (if rest.None? then None else Some(front + rest.value)) == Some(front + tail) <==> rest == Some(tail)
  {
    if rest.Some? {
      assert (front + rest.value)[|front|..] == rest.value && (front + tail)[|front|..] == tail;
    }
  }

  lemma AppliedHere(lines: seq<string>, hunks: seq<Hunk>, pos: nat) returns (rest: seq<string>)
    requires pos <= |lines| && Applied(lines, hunks, pos).Some? && hunks != []
    ensures var k := PlaceOf(lines, hunks[0], pos);
      k != -1 && Applied(lines, hunks, pos).value == lines[pos..k] + New(hunks[0]) + rest
  {
    hide Old, New, PlaceOf;
    rest := Applied(lines, hunks[1..], PlaceOf(lines, hunks[0], pos) + |Old(hunks[0])|).value;
  }

  /** What a text that starts with a stretch and a block has where the stretch ends. */
  lemma BlockAt(gap: seq<string>, block: seq<string>, rest: seq<string>)
    requires block != []
    ensures (gap + block + rest)[|gap|] == block[0]
  {
  }

  /** A hunk put back before its own place leaves a line there that cannot have been there. */
  lemma Misplaced(lines: seq<string>, hunks: seq<Hunk>, pos: nat, result: seq<string>, at: nat)
    requires pos <= |lines| && Applied(lines, hunks, pos).Some? && at <= |result| && hunks != []
    requires result[at..] == Applied(lines, hunks, pos).value
    requires PlaceOf(lines, hunks[0], pos) != -1 && !FoundAgain(lines, hunks[0], pos)
    ensures Applied(result, InvertedAll(hunks), at) != Some(lines[pos..])
  {
    hide Old, New, Inverted, PlaceOf, FoundAgain, Applied;
    var h := hunks[0];
    InvertedSwaps(h);
    var rest := AppliedHere(lines, hunks, pos);
    InvertedGoes(lines, h, pos, result, at, rest);
    var j := PlaceOf(result, Inverted(h), at);
    AnchorIsFirst(lines, h, pos, pos + (j - at));
    var back := Applied(result, InvertedAll(hunks), at);
    if back.Some? {
      var more := AppliedHere(result, InvertedAll(hunks), at);
      BlockAt(result[at..j], Old(h), more);
      assert lines[pos..][j - at] == lines[pos + (j - at)];
    }
  }

  /** Applying a first hunk that has a place and fits. */
  lemma FirstHunk(lines: seq<string>, h: Hunk, hunks: seq<Hunk>, pos: nat, k: nat)
    requires pos <= |lines| && PlaceOf(lines, h, pos) == k && Fits(lines, k, Old(h))
    ensures var rest := Applied(lines, hunks, k + |Old(h)|);
      Applied(lines, [h] + hunks, pos) == if rest.None? then None else Some(lines[pos..k] + New(h) + rest.value)
  {
    hide Old, New;
    assert ([h] + hunks)[1..] == hunks;
  }

  lemma Pieces(s: seq<string>, at: nat, a: seq<string>, b: seq<string>, c: seq<string>)
    requires at <= |s| && s[at..] == a + b + c
    ensures at + |a| + |b| <= |s| && s[at..at + |a|] == a && s[at + |a|..at + |a| + |b|] == b && s[at + |a| + |b|..] == c
  {
    var t := s[at..];
    assert t[..|a|] == a && t[|a|..|a| + |b|] == b && t[|a| + |b|..] == c;
    assert s[at..at + |a|] == t[..|a|] && s[at + |a|..at + |a| + |b|] == t[|a|..|a| + |b|];
    assert s[at + |a| + |b|..] == t[|a| + |b|..];
  }

  /** A whole patch, applied and then taken back: the original returns exactly if every hunk can be found again. */
  lemma PatchUndone(lines: seq<string>, hunks: seq<Hunk>)
    requires Applied(lines, hunks, 0).Some?
    ensures Applied(Applied(lines, hunks, 0).value, InvertedAll(hunks), 0) == Some(lines)
       <==> AllFoundAgain(lines, hunks, 0)
  {
    var result := Applied(lines, hunks, 0).value;
    assert result[0..] == result && lines[0..] == lines;
    InvertedRestores(lines, hunks, 0, result, 0);
  }

  /** Otherwise the original may be lost: "x" becomes a second "a", and taking it back changes the first. */
  lemma InverseMayGoAstray()
    ensures Applied(["a", "x"], [["-x", "+a"]], 0) == Some(["a", "a"])
    ensures Applied(["a", "a"], InvertedAll([["-x", "+a"]]), 0) == Some(["x", "a"])
  {
    hide *;
    var h: Hunk, before: seq<string>, after: seq<string> := ["-x", "+a"], ["a", "x"], ["a", "a"];
    OneLineOut("x", "a");
    assert "-" + "x" == "-x" && "+" + "a" == "+a";
    InvertedSwaps(h);
    Replaced(before, h, "x", "a", 1);
    Replaced(after, Inverted(h), "a", "x", 0);
    assert before[1 := "a"] == after && after[0 := "x"] == ["x", "a"];
    OneInverted(h);
  }

  lemma OneInverted(h: Hunk)
    ensures InvertedAll([h]) == [Inverted(h)]
  {
    var none: seq<Hunk> := [];
    assert [h][1..] == none && InvertedAll(none) == none;
  }

  lemma NoHunks(lines: seq<string>, pos: nat)
    requires pos <= |lines|
    ensures Applied(lines, [], pos) == Some(lines[pos..])
  {
  }

  /** A hunk that replaces one line replaces the first line like it. */
  lemma Replaced(lines: seq<string>, h: Hunk, x: string, y: string, k: nat)
    requires Old(h) == [x] && New(h) == [y] && x != "" && k < |lines| && lines[k] == x
    requires forall i :: 0 <= i < k ==> lines[i] != x
    ensures Applied(lines, [h], 0) == Some(lines[k := y])
  {
    hide Old, New, Applied, FirstAt;
    FirstAtIsFirst(lines, x, 0);
    assert lines[k..k + 1] == [x];
    FirstHunk(lines, h, [], 0, k);
    NoHunks(lines, k + 1);
    assert [h] + [] == [h];
    assert lines[0..k] + [y] + lines[k + 1..] == lines[k := y];
  }

  lemma OneLineOut(x: string, y: string)
    ensures Old(["-" + x, "+" + y]) == [x] && New(["-" + x, "+" + y]) == [y]
  {
    var a, b := "-" + x, "+" + y;
    var none: Hunk := [];
    assert [a, b][1..] == [b] && [b][1..] == none && a[1..] == x && b[1..] == y;
    assert Old([b]) == [] && New([b]) == [y];
  }
}
