/** When a comment may be taken out without a trace: what stands on its two sides must not run together. */
module DotJoin {
  import opened GoStrings
  import opened DotLexer
  import C = DotComments

  predicate HasLetter(s: string) { exists i :: 0 <= i < |s| && IsAlpha(s[i]) }

  predicate AllDigits(s: string) { forall i :: 0 <= i < |s| ==> IsDigit(s[i]) }

  /** A number may still take the character: a unit's letter, a digit before the unit, or the point of a whole number. */
  predicate NumberGoesOn(lit: string, c: char) {
    IsAlpha(c) || (IsDigit(c) && !HasLetter(lit)) || (c == '.' && AllDigits(lit))
  }

  /** A token that is not complete when the character follows at once. */
  predicate GoesOn(t: Tok, c: char) {
    match t.kind
    case Text => false
    case Symbol => t.lit == "-" && c == '>'
    case Ident => if t.lit != "" && IsIdentStart(t.lit[0]) then IsIdentContinue(c) else NumberGoesOn(t.lit, c)
  }

  /** The last token of the first text takes in the start of the second. */
  predicate TokenJoins(x: string, y: string)
    requires Lex(x).Tokens?
  {
    var ts := Lex(x).toks;
    y != "" && ts != [] && Tail(x) == "" && GoesOn(ts[|ts| - 1], y[0])
  }

  /** A text that breaks off behind the point of a number. */
  predicate OpenPoint(x: string) {
    x != "" && x[|x| - 1] == '.' && Lex(x[..|x| - 1]).Tokens? && TokenJoins(x[..|x| - 1], ".")
  }

  /** The second text goes on where the first breaks off: in its last token, or in the fraction of a number. */
  predicate Joins(x: string, y: string) {
    if Lex(x).Tokens? then TokenJoins(x, y) else OpenPoint(x) && y != "" && IsDigit(y[0])
  }

  // ----- a token ends exactly where it cannot go on

  lemma NumberEnds(s: string)
    requires Number(s).Token? && Number(s).len < |s|
    ensures !NumberGoesOn(s[..Number(s).len], s[Number(s).len])
  {
    hide End;
    var n := Number(s).len;
    var d := End(s, 0, IsDigit);
    RunAt(s, 0, IsDigit);
    if d < |s| && s[d] == '.' {
      var e := End(s, d + 1, IsDigit);
      RunAt(s, d + 1, IsDigit);
      RunAt(s, e, IsAlpha);
      assert s[..n][d] == '.';
      assert e < n ==> IsAlpha(s[..n][e]);
    } else {
      RunAt(s, d, IsAlpha);
      assert d < n ==> IsAlpha(s[..n][d]);
    }
  }

  /** Whatever follows, if it cannot be taken in, the number is the same. */
  lemma NumberStays(s: string, t: string)
    requires Number(s).Token? && Number(s).len <= |s| && Number(s).len <= |t|
    requires t[..Number(s).len] == s[..Number(s).len]
    requires Number(s).len < |t| ==> !NumberGoesOn(s[..Number(s).len], t[Number(s).len])
    ensures Number(t) == Number(s)
  {
    hide End;
    var n := Number(s).len;
    var d := End(s, 0, IsDigit);
    RunAt(s, 0, IsDigit);
    SameFront(s, t, n, d);
    if d < |s| && s[d] == '.' {
      var e := End(s, d + 1, IsDigit);
      RunAt(s, d + 1, IsDigit);
      RunAt(s, e, IsAlpha);
      SameFront(s, t, n, e);
      NoLetters(s, n, d, e);
      RunAgain(s, t, 0, IsDigit);
      RunAgain(s, t, d + 1, IsDigit);
      RunAgain(s, t, e, IsAlpha);
    } else {
      RunAt(s, d, IsAlpha);
      NoLetters(s, n, d, d);
      assert d == n ==> AllDigits(s[..n]);
      RunAgain(s, t, 0, IsDigit);
      RunAgain(s, t, d, IsAlpha);
    }
  }

  /** A number that ends with its digits has no letters. */
  lemma NoLetters(s: string, n: nat, d: nat, e: nat)
    requires d <= e <= |s| && n <= |s| && forall i :: 0 <= i < e && i != d ==> IsDigit(s[i])
    requires d < e ==> s[d] == '.'
    ensures e == n ==> !HasLetter(s[..n])
  {
  }

  lemma {:induction false} TextSame(s: string, t: string)
    requires TextFrom(s).Token? && TextFrom(s).len <= |s| && TextFrom(s).len <= |t|
    requires t[..TextFrom(s).len] == s[..TextFrom(s).len]
    ensures TextFrom(t) == TextFrom(s)
  {
    hide Unescaped;
    TextAdvances(s);
    var n := TextFrom(s).len;
    assert t[0] == t[..n][0] == s[..n][0] == s[0];
    if s[0] == '"' {
    } else if s[0] == '\\' {
      TextAdvances(s[2..]);
      assert t[1] == t[..n][1] == s[..n][1] == s[1];
      assert t[2..][..n - 2] == t[..n][2..] == s[..n][2..] == s[2..][..n - 2];
      TextSame(s[2..], t[2..]);
    } else {
      TextAdvances(s[1..]);
      assert t[1..][..n - 1] == t[..n][1..] == s[..n][1..] == s[1..][..n - 1];
      TextSame(s[1..], t[1..]);
    }
  }

  /** The token at the front does not go on where it ends. */
  lemma FirstEnds(s: string)
    requires s != "" && First(s).Token? && First(s).len < |s|
    ensures var f := First(s); !GoesOn(Tok(f.kind, f.lit), s[f.len])
  {
    NotOthers(s);
    FirstLexeme(s);
    if s[0] == '"' {
      TextAdvances(s[1..]);
    } else if IsSymbol(s[0]) || s[0] == '-' {
    } else if IsIdentStart(s[0]) {
      RunAt(s, 1, IsIdentContinue);
    } else {
      KindsOfFirst(s);
      NumberEnds(s);
    }
  }

  /** The token at the front is the same in every text that starts with it and does not go on with it. */
  lemma FirstSame(s: string, t: string)
    requires s != "" && First(s).Token? && First(s).len <= |s| && First(s).len <= |t|
    requires t[..First(s).len] == s[..First(s).len]
    requires var f := First(s); f.len < |t| ==> !GoesOn(Tok(f.kind, f.lit), t[f.len])
    ensures First(t) == First(s)
  {
    hide End, TextFrom;
    var f := First(s);
    FirstAdvances(s);
    assert t[0] == t[..f.len][0] == s[..f.len][0] == s[0];
    NotOthers(s);
    FirstLexeme(s);
    if s[0] == '"' {
      TextAdvances(s[1..]);
      assert t[1..][..f.len - 1] == t[..f.len][1..] == s[..f.len][1..] == s[1..][..f.len - 1];
      TextSame(s[1..], t[1..]);
    } else if IsSymbol(s[0]) || s[0] == '-' {
      assert 1 < f.len ==> t[1] == t[..f.len][1] == s[..f.len][1] == s[1];
    } else if IsIdentStart(s[0]) {
      RunAgain(s, t, 1, IsIdentContinue);
    } else {
      KindsOfFirst(s);
      KindsOfFirst(t);
      NumberStays(s, t);
    }
  }

  /** The token at the front is the same with more text behind, unless it ends the text and goes on. */
  lemma FirstStays(s: string, z: string)
    requires s != "" && First(s).Token?
    requires var f := First(s); f.len == |s| && z != "" ==> !GoesOn(Tok(f.kind, f.lit), z[0])
    ensures First(s + z) == First(s)
  {
    hide First, GoesOn;
    FirstAdvances(s);
    if First(s).len < |s| {
      FirstEnds(s);
    }
    FirstSame(s, s + z);
  }

  // ----- two texts one behind the other

  function Behind(ts: seq<Tok>, r: Result): Result { if r.Tokens? then Tokens(ts + r.toks) else r }

  lemma BehindAhead(t: Tok, ts: seq<Tok>, r: Result)
    ensures Behind([t] + ts, r) == Ahead(t, Behind(ts, r))
  {
    if r.Tokens? {
      assert [t] + ts + r.toks == [t] + (ts + r.toks);
    }
  }

  lemma {:induction false} BlanksSkipped(x: string, y: string)
    requires AllBlank(x)
    ensures Lex(x + y) == Lex(y)
  {
    hide Lex;
    if x == "" {
      assert x + y == y;
    } else {
      BlanksSkipped(x[1..], y);
      BlankAhead(x[0], x[1..] + y);
      assert x + y == [x[0]] + (x[1..] + y);
    }
  }

  lemma BlankAhead(c: char, s: string)
    requires IsBlank(c)
    ensures Lex([c] + s) == Lex(s)
  {
    hide First;
    var t := [c] + s;
    EndStep(t, 0, IsBlank);
    assert t[1..] == s;
    EndShift(t, 1, 0, IsBlank);
    hide End;
    assert t[1 + End(s, 0, IsBlank)..] == s[End(s, 0, IsBlank)..];
  }

  /** The first token of a text, and what is left behind it. */
  lemma LexFront(x: string, z: string) returns (t: string)
    requires Lex(x).Tokens?
    ensures t == "" ==> AllBlank(x) && Lex(x).toks == [] && Tail(x) == x
    ensures t != "" ==>
      && First(t).Token? && 1 <= First(t).len <= |t| <= |x|
      && var f := First(t);
         var rest := t[f.len..];
         && Lex(rest).Tokens? && Lex(x).toks == [Tok(f.kind, f.lit)] + Lex(rest).toks && Tail(x) == Tail(rest)
         && Lex(x + z) == Lex(t + z) && !IsBlank(t[0])
  {
    hide First, End;
    var n := End(x, 0, IsBlank);
    t := x[n..];
    RunAt(x, 0, IsBlank);
    if t == "" {
      assert x[..n] == x;
    } else {
      FirstAdvances(t);
      BlanksSkipped(x[..n], t + z);
      assert x[..n] + (t + z) == x + z;
    }
  }

  lemma LexTwoPart(t: string, z: string)
    requires t != "" && !IsBlank(t[0]) && First(t).Token? && First(t + z) == First(t)
    ensures First(t).len <= |t|
    ensures var f := First(t); Lex(t + z) == Ahead(Tok(f.kind, f.lit), Lex(t[f.len..] + z))
  {
    FirstAdvances(t);
    hide First;
    var f := First(t);
    var rest := t[f.len..] + z;
    assert t + z == t[..f.len] + rest;
    LexOne(t[..f.len], rest);
  }

  /** Joining is a matter of the last token. */
  lemma JoinsBehind(x: string, rest: string, t: Tok, z: string)
    requires Lex(x).Tokens? && Lex(rest).Tokens?
    requires Lex(x).toks == [t] + Lex(rest).toks && Tail(x) == Tail(rest) && rest != ""
    ensures TokenJoins(x, z) <==> TokenJoins(rest, z)
  {
    if Lex(rest).toks == [] {
      var u := LexFront(rest, z);
    }
  }

  lemma LastJoins(x: string, t: Tok, z: string)
    requires Lex(x).Tokens? && Lex(x).toks == [t] && Tail(x) == "" && z != ""
    ensures TokenJoins(x, z) <==> GoesOn(t, z[0])
  {
  }

  /** Texts that do not join lex one after the other. */
  lemma {:induction false} LexesApart(x: string, z: string)
    requires Lex(x).Tokens? && !TokenJoins(x, z)
    ensures Lex(x + z) == Behind(Lex(x).toks, Lex(z))
    decreases |x|
  {
    hide Lex, First, TokenJoins, Tail, AllBlank;
    var t := LexFront(x, z);
    if t == "" {
      BlanksSkipped(x, z);
      assert Lex(z).Tokens? ==> [] + Lex(z).toks == Lex(z).toks;
    } else {
      var f := First(t);
      var rest, tok := t[f.len..], Tok(f.kind, f.lit);
      NothingLexed();
      if rest == "" {
        assert [tok] + [] == [tok];
        if z != "" { LastJoins(x, tok, z); }
      } else {
        JoinsBehind(x, rest, tok, z);
      }
      FirstStays(t, z);
      LexTwoPart(t, z);
      if rest == "" {
        assert rest + z == z;
        BehindAhead(tok, [], Lex(z));
        assert Lex(z).Tokens? ==> [] + Lex(z).toks == Lex(z).toks;
      } else {
        LexesApart(rest, z);
        BehindAhead(tok, Lex(rest).toks, Lex(z));
      }
    }
  }

  lemma NothingLexed()
    ensures Lex("") == Tokens([]) && Tail("") == ""
  {
  }

  /** A last token that goes on is not found again. */
  lemma LastGrows(t: string, z: string)
    requires t != "" && First(t).Token? && First(t).len == |t| && z != "" && First(t).kind != Text
    requires GoesOn(Tok(First(t).kind, First(t).lit), z[0])
    ensures First(t + z).Token? ==> First(t + z).lit != First(t).lit
  {
    var s := t + z;
    FirstLexeme(t);
    if First(s).Token? && First(s).lit == First(t).lit {
      SameKind(t, s);
      FirstLexeme(s);
      assert s[|t|] == z[0];
      FirstEnds(s);
      assert false;
    }
  }

  lemma SameKind(t: string, s: string)
    requires t != "" && s != "" && t[0] == s[0] && First(t).Token? && First(s).Token?
    ensures First(s).kind == First(t).kind
  {
    KindsOfFirst(t);
    KindsOfFirst(s);
    hide End;
    if t[0] == '"' {
      TextAdvances(t[1..]);
      TextAdvances(s[1..]);
    }
  }

  /** Texts that join, and lex with a blank between them, do not lex to the same without it. */
  lemma {:induction false} LexesTogether(x: string, z: string)
    requires Lex(x).Tokens? && Lex(z).Tokens? && TokenJoins(x, z)
    ensures Lex(x + z) != Behind(Lex(x).toks, Lex(z))
    decreases |x|
  {
    hide Lex, First, TokenJoins, Tail, AllBlank;
    var t := LexFront(x, z);
    JoinsNeedsToken(x, z);
    var f := First(t);
    var rest, tok := t[f.len..], Tok(f.kind, f.lit);
    NothingLexed();
    BehindAhead(tok, Lex(rest).toks, Lex(z));
    if rest == "" {
      assert [tok] + [] == [tok];
      LastJoins(x, tok, z);
      LastGrows(t, z);
      FrontToken(t, z);
    } else {
      JoinsBehind(x, rest, tok, z);
      FirstStays(t, z);
      LexTwoPart(t, z);
      LexesTogether(rest, z);
      if Lex(x + z) == Behind(Lex(x).toks, Lex(z)) {
        AheadBoth(tok, Lex(rest + z), Behind(Lex(rest).toks, Lex(z)));
      }
    }
  }

  lemma AheadBoth(t: Tok, a: Result, b: Result)
    requires Ahead(t, a) == Ahead(t, b)
    ensures a == b
  {
    if a.Tokens? {
      assert ([t] + a.toks)[1..] == a.toks && ([t] + b.toks)[1..] == b.toks;
    }
  }

  lemma JoinsNeedsToken(x: string, z: string)
    requires Lex(x).Tokens? && TokenJoins(x, z)
    ensures Lex(x).toks != [] && Tail(x) == "" && z != ""
  {
  }

  /** The first token of two texts is that of the front. */
  lemma FrontToken(t: string, z: string)
    requires t != "" && !IsBlank(t[0])
    ensures Lex(t + z).Tokens? ==>
      First(t + z).Token? && Lex(t + z).toks != [] && Lex(t + z).toks[0].lit == First(t + z).lit
  {
    hide First;
    var s := t + z;
    EndStep(s, 0, IsBlank);
    assert s[0..] == s;
  }

  // ----- a text that does not lex by itself

  /** Digits and a point, and nothing behind it. */
  predicate PointLast(t: string) { |t| >= 2 && t[|t| - 1] == '.' && AllDigits(t[..|t| - 1]) }

  /** A character that is none, or a point without a fraction, stays an error, unless the fraction follows. */
  lemma BadStays(t: string, z: string)
    requires t != "" && First(t).Bad? && (First(t).error == UnexpectedChar || First(t).error == MalformedFloat)
    requires !(PointLast(t) && z != "" && IsDigit(z[0]))
    ensures First(t + z) == First(t)
  {
    var s := t + z;
    assert s[0] == t[0];
    KindsOfFirst(t);
    KindsOfFirst(s);
    hide End, TextFrom;
    if t[0] == '"' {
      TextErrors(t[1..]);
    } else if IsDigit(t[0]) {
      var d := End(t, 0, IsDigit);
      RunAt(t, 0, IsDigit);
      RunAgain(t, s, 0, IsDigit);
      EndStep(t, d + 1, IsDigit);
      EndStep(s, d + 1, IsDigit);
      RunAt(t, d + 1, IsDigit);
      if d + 1 < |t| {
        assert s[d + 1] == t[d + 1];
      } else {
        assert t[..|t| - 1] == t[..d];
        assert z != "" ==> s[d + 1] == z[0];
      }
    }
  }

  lemma {:induction false} TextErrors(s: string)
    ensures TextFrom(s).Bad? ==> TextFrom(s).error == OpenString || TextFrom(s).error == OpenEscape
  {
    if s == "" || s[0] == '"' {
    } else if s[0] == '\\' {
      if |s| > 1 { TextErrors(s[2..]); }
    } else {
      TextErrors(s[1..]);
    }
  }

  /** The blanks at the front are the same as long as what they stand before is. */
  lemma SameBlanks(x: string, u: string)
    requires u <= x && End(x, 0, IsBlank) < |u|
    ensures End(u, 0, IsBlank) == End(x, 0, IsBlank) && Lex(u) == Lex(u[End(x, 0, IsBlank)..])
  {
    hide Lex, End;
    var n := End(x, 0, IsBlank);
    RunAt(x, 0, IsBlank);
    RunAgain(x, u, 0, IsBlank);
    BlanksSkipped(u[..n], u[n..]);
    assert u[..n] + u[n..] == u;
  }

  lemma PointOpens(x: string)
    requires PointLast(x[End(x, 0, IsBlank)..])
    ensures OpenPoint(x)
  {
    hide Lex, First, Pieces, Tail, End, AllDigits, TokenJoins;
    var n := End(x, 0, IsBlank);
    var u := x[..|x| - 1];
    var t := u[n..];
    assert t == x[n..][..|x| - n - 1];
    SameBlanks(x, u);
    WholeNumber(t);
    NothingLexed();
    assert t + "" == t && t[|t|..] + "" == "" && t[|t|..] == "";
    LexTwoPart(t, "");
    PiecesStep(u);
    DigitsTakePoint(u, t);
  }

  lemma DigitsTakePoint(u: string, t: string)
    requires t != "" && AllDigits(t) && Lex(u) == Tokens([Tok(Ident, t)]) && Tail(u) == ""
    ensures TokenJoins(u, ".")
  {
    hide Lex, Tail;
  }

  lemma WholeNumber(t: string)
    requires t != "" && AllDigits(t)
    ensures First(t) == Token(Ident, t, |t|) && !IsBlank(t[0])
  {
    KindsOfFirst(t);
    SpanIs(t, |t|, IsDigit);
    assert t[0..] == t && t[..|t|] == t;
    EndStep(t, |t|, IsAlpha);
  }

  lemma PointBehind(x: string)
    requires x[End(x, 0, IsBlank)..] != ""
    requires var t := x[End(x, 0, IsBlank)..];
      First(t).Token? && First(t).len <= |t| && OpenPoint(t[First(t).len..])
    ensures OpenPoint(x)
  {
    hide Lex, First, Pieces, Tail, End, TokenJoins, GoesOn;
    var n := End(x, 0, IsBlank);
    var t := x[n..];
    var f := First(t);
    var rest := t[f.len..];
    var u, last := x[..|x| - 1], rest[..|rest| - 1];
    JoinsNeedsToken(last, ".");
    NothingLexed();
    var front := u[n..];
    assert front == t[..|t| - 1] && front[f.len..] == last && front + "" == front && last + "" == last;
    FirstEnds(t);
    FirstSame(t, front);
    RunAt(x, 0, IsBlank);
    LexTwoPart(front, "");
    SameBlanks(x, u);
    PiecesStep(u);
    JoinsBehind(u, last, Tok(f.kind, f.lit), ".");
  }

  lemma FailureStep(x: string)
    requires Lex(x).Failure?
    ensures var t := x[End(x, 0, IsBlank)..];
      && t != "" && (First(t).Bad? ==> Lex(x) == Failure(First(t).error))
      && (First(t).Token? ==> 1 <= First(t).len <= |t| && Lex(x) == Lex(t[First(t).len..]))
  {
    hide First, End;
    FirstAdvances(x[End(x, 0, IsBlank)..]);
  }

  lemma BadFront(s: string)
    requires s != "" && !IsBlank(s[0]) && First(s).Bad?
    ensures Lex(s) == Failure(First(s).error)
  {
    hide First;
    EndStep(s, 0, IsBlank);
    assert s[0..] == s;
  }

  lemma ScanFront(x: string)
    requires C.Scan(x, C.Code) == C.Code
    ensures C.Scan(x[End(x, 0, IsBlank)..], C.Code) == C.Code
  {
    hide End;
    RunAt(x, 0, IsBlank);
    PlainModes(x, End(x, 0, IsBlank));
  }

  /** What cannot be lexed fails in the same way whatever follows, unless it breaks off at a point and a digit follows. */
  lemma {:induction false} FailsOn(x: string, z: string)
    requires Lex(x).Failure? && C.Scan(x, C.Code) == C.Code
    requires !(OpenPoint(x) && z != "" && IsDigit(z[0]))
    ensures Lex(x + z) == Lex(x)
    decreases |x|
  {
    hide Lex, First, OpenPoint, End, C.Scan, GoesOn, PointLast;
    var n := End(x, 0, IsBlank);
    var t := x[n..];
    FailureStep(x);
    RunAt(x, 0, IsBlank);
    BlanksSkipped(x[..n], t + z);
    assert x[..n] + (t + z) == x + z;
    ScanFront(x);
    FirstModes(t);
    var f := First(t);
    if f.Token? {
      var rest := t[f.len..];
      NothingLexed();
      FirstStays(t, z);
      LexTwoPart(t, z);
      if OpenPoint(rest) { PointBehind(x); }
      FailsOn(rest, z);
    } else {
      if PointLast(t) { PointOpens(x); }
      BadStays(t, z);
      BadFront(t + z);
    }
  }

  /** A blank between two texts changes nothing exactly if they do not join (unless neither way can be lexed). */
  lemma BlankMatters(x: string, y: string)
    requires Lex(x).Tokens? || C.Scan(x, C.Code) == C.Code
    ensures !Joins(x, y) ==> Lex(x + y) == Lex(x + " " + y)
    ensures Lex(x + y).Tokens? || Lex(x + " " + y).Tokens? ==> (Lex(x + y) == Lex(x + " " + y) <==> !Joins(x, y))
  {
    hide Lex, Tail, OpenPoint, TokenJoins, C.Scan;
    BlankSkipped(y);
    assert x + " " + y == x + (" " + y);
    if Lex(x).Failure? {
      FailsOn(x, " " + y);
      if !Joins(x, y) {
        FailsOn(x, y);
      }
    } else {
      NeverJoinsBlank(x, y);
      LexesApart(x, " " + y);
      if !TokenJoins(x, y) {
        LexesApart(x, y);
      } else if Lex(y).Tokens? {
        LexesTogether(x, y);
      }
    }
  }

  lemma NeverJoinsBlank(x: string, y: string)
    requires Lex(x).Tokens?
    ensures !TokenJoins(x, " " + y)
  {
    hide Lex, Tail;
  }

  // ----- taking a comment out

  /**
   * A block comment acts as a blank exactly if the code on its two sides does not join (unless the text cannot be
   * lexed either way).
   */
  lemma CommentIsBlankExactly(x: string, c: string, y: string)
    requires C.NoOpener(x, C.Code) && C.Scan(x, C.Code) == C.Code && (x != "" ==> x[|x| - 1] != '/')
    requires C.Inside(c) && C.Strip(y, C.Code).Clean?
    ensures var commented, rest := C.Strip(x + ("/*" + c + "*/" + y), C.Code), C.Strip(y, C.Code).text;
      && commented == C.Clean(x + rest)
      && (!Joins(x, rest) ==> Lex(commented.text) == Lex(x + " " + rest))
      && (Lex(commented.text).Tokens? || Lex(x + " " + rest).Tokens? ==>
            (Lex(commented.text) == Lex(x + " " + rest) <==> !Joins(x, rest)))
  {
    hide Lex, Tail, C.Strip, Joins;
    C.BlockCutOut(x, c, y);
    BlankMatters(x, C.Strip(y, C.Code).text);
  }
}
