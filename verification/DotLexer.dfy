/** Cutting a graph description into tokens. */
module DotLexer {
  import opened GoStrings
  import C = DotComments

  datatype Kind = Ident | Text | Symbol

  datatype Error = UnexpectedChar | MalformedFloat | OpenString | OpenEscape

  /** What the lexer makes of the next characters: a token and how many of them it takes, or an error. */
  datatype Lexed = Token(kind: Kind, lit: string, len: nat) | Bad(error: Error)

  predicate IsBlank(c: char) { c == '\n' || c == '\r' || c == '\t' || c == ' ' }

  predicate IsAlpha(c: char) { 'a' <= c <= 'z' || 'A' <= c <= 'Z' }

  predicate IsDigit(c: char) { '0' <= c <= '9' }

  predicate IsIdentStart(c: char) { c == '_' || IsAlpha(c) }

  predicate IsIdentContinue(c: char) { IsIdentStart(c) || IsDigit(c) }

  predicate IsSymbol(c: char) { c in "{}[],;=.:/" }

  /** How many characters at the front are of one kind. */
  function Span(s: string, p: char -> bool): (n: nat)
    ensures n <= |s|
  {
    if s != "" && p(s[0]) then 1 + Span(s[1..], p) else 0
  }

  /** Where a run of characters of one kind ends. */
  function End(s: string, from: nat, p: char -> bool): (n: nat)
    requires from <= |s|
    ensures from <= n <= |s|
  {
    from + Span(s[from..], p)
  }

  lemma {:induction false} SpanIsLongest(s: string, p: char -> bool)
    ensures var n := Span(s, p); (forall i :: 0 <= i < n ==> p(s[i])) && (n < |s| ==> !p(s[n]))
  {
    if s != "" && p(s[0]) {
      SpanIsLongest(s[1..], p);
    }
  }

  /** What a character behind a backslash stands for; an unknown one keeps its backslash. */
  function Unescaped(c: char): (s: string)
    ensures s != ""
  {
    match c
    case '"' => "\""
    case '\\' => "\\"
    case 'n' => "\n"
    case 't' => "\t"
    case _ => "\\" + [c]
  }

  function Grown(lit: string, len: nat, r: Lexed): Lexed { if r.Token? then Token(r.kind, lit + r.lit, len + r.len) else r }

  /** A string from behind its opening quote on. */
  function TextFrom(s: string): Lexed {
    if s == "" then Bad(OpenString)
    else if s[0] == '"' then Token(Text, "", 1)
    else if s[0] == '\\' then
      if |s| == 1 then Bad(OpenEscape) else Grown(Unescaped(s[1]), 2, TextFrom(s[2..]))
    else Grown([s[0]], 1, TextFrom(s[1..]))
  }

  /** A number with an optional fraction and unit. */
  function Number(s: string): Lexed {
    var d := End(s, 0, IsDigit);
    if d < |s| && s[d] == '.' then
      var e := End(s, d + 1, IsDigit);
      if e == d + 1 then Bad(MalformedFloat)
      else
        var n := End(s, e, IsAlpha);
        Token(Ident, s[..n], n)
    else
      var n := End(s, d, IsAlpha);
      Token(Ident, s[..n], n)
  }

  /** The token at the front. */
  function First(s: string): Lexed
    requires s != ""
  {
    var c := s[0];
    if IsSymbol(c) then Token(Symbol, [c], 1)
    else if c == '-' then (if 1 < |s| && s[1] == '>' then Token(Symbol, "->", 2) else Token(Symbol, "-", 1))
    else if c == '"' then Grown("", 1, TextFrom(s[1..]))
    else if IsIdentStart(c) then
      var n := End(s, 1, IsIdentContinue);
      Token(Ident, s[..n], n)
    else if IsDigit(c) then Number(s)
    else Bad(UnexpectedChar)
  }

  /** A token is at least one character, and never more than there are. */
  lemma FirstAdvances(s: string)
    requires s != ""
    ensures First(s).Token? ==> 1 <= First(s).len <= |s|
  {
    if s[0] == '"' {
      TextAdvances(s[1..]);
    }
  }

  lemma {:induction false} TextAdvances(s: string)
    ensures TextFrom(s).Token? ==> 1 <= TextFrom(s).len <= |s| && TextFrom(s).kind == Text
  {
    if s == "" || s[0] == '"' {
    } else if s[0] == '\\' {
      if |s| > 1 {
        TextAdvances(s[2..]);
      }
    } else {
      TextAdvances(s[1..]);
    }
  }

  datatype Tok = Tok(kind: Kind, lit: string)

  datatype Result = Tokens(toks: seq<Tok>) | Failure(error: Error)

  function Ahead(t: Tok, r: Result): Result { if r.Tokens? then Tokens([t] + r.toks) else r }

  /** All the tokens of a text. */
  function Lex(s: string): Result
    decreases |s|
  {
    var t := s[End(s, 0, IsBlank)..];
    if t == "" then Tokens([])
    else
      var f := First(t);
      if f.Bad? then Failure(f.error)
      else
        FirstAdvances(t);
        Ahead(Tok(f.kind, f.lit), Lex(t[f.len..]))
  }

  // ----- the code

  lemma EndStep(s: string, i: nat, p: char -> bool)
    requires i <= |s|
    ensures i < |s| && p(s[i]) ==> End(s, i, p) == End(s, i + 1, p)
    ensures i == |s| || !p(s[i]) ==> End(s, i, p) == i
  {
    if i < |s| {
      assert s[i..][1..] == s[i + 1..];
    }
  }

  /** Places in the rest of a text are places in the text. */
  lemma EndShift(s: string, start: nat, k: nat, p: char -> bool)
    requires start + k <= |s|
    ensures start + End(s[start..], k, p) == End(s, start + k, p)
  {
    assert s[start..][k..] == s[start + k..];
  }

  class Lexer {
    const src: string
    var i: nat

    constructor (s: string)
      ensures src == s && i == 0
    {
      src, i := s, 0;
    }

    /** One of the loops that run over characters of a kind. */
    method Skip(p: char -> bool)
      requires i <= |src|
      modifies this
      ensures i == End(src, old(i), p) && i <= |src|
    {
      hide End;
      while i < |src| && p(src[i])
        invariant i <= |src| && End(src, old(i), p) == End(src, i, p)
      {
        EndStep(src, i, p);
        i := i + 1;
      }
      EndStep(src, i, p);
    }

    method LexIdent() returns (r: Lexed)
      requires i < |src| && IsIdentStart(src[i])
      modifies this
      ensures r == First(src[old(i)..]) && r.Token? && i == old(i) + r.len
    {
      hide End;
      var start := i;
      i := i + 1;
      Skip(IsIdentContinue);
      ghost var s := src[start..];
      EndShift(src, start, 1, IsIdentContinue);
      assert src[start..i] == s[..i - start];
      NotOthers(s);
      r := Token(Ident, src[start..i], i - start);
    }

    method LexBareNumberish() returns (r: Lexed)
      requires i < |src| && IsDigit(src[i])
      modifies this
      ensures i <= |src| && r == Number(src[old(i)..]) && (r.Token? ==> i == old(i) + r.len)
    {
      hide Number, End;
      var start := i;
      NumberAt(src, start);
      Skip(IsDigit);
      if i < |src| && src[i] == '.' {
        i := i + 1;
        EndStep(src, i, IsDigit);
        if i >= |src| || !IsDigit(src[i]) {
          return Bad(MalformedFloat);
        }
        Skip(IsDigit);
      }
      Skip(IsAlpha);
      r := Token(Ident, src[start..i], i - start);
    }

    method LexString() returns (r: Lexed)
      requires i < |src| && src[i] == '"'
      modifies this
      ensures i <= |src| && r == First(src[old(i)..]) && (r.Token? ==> i == old(i) + r.len)
    {
      hide First, TextFrom, Unescaped;
      var start := i;
      i := i + 1;
      var lit := "";
      TextStart(src, start);
      while i < |src|
        invariant start < i <= |src| && First(src[start..]) == Grown(lit, i - start, TextFrom(src[i..]))
        decreases |src| - i
      {
        TextStep(src, i, lit, i - start);
        var ch := src[i];
        i := i + 1;
        if ch == '"' {
          return Token(Text, lit, i - start);
        }
        if ch == '\\' {
          if i >= |src| {
            return Bad(OpenEscape);
          }
          var esc := src[i];
          i := i + 1;
          lit := lit + Unescaped(esc);
        } else {
          lit := lit + [ch];
        }
      }
      TextEnds();
      assert src[i..] == "";
      r := Bad(OpenString);
    }

    /** The next token; none at the end. Blank characters before it are skipped, and it strictly advances. */
    method Next() returns (r: Option<Lexed>, pos: nat)
      requires i <= |src|
      modifies this
      ensures i <= |src| && pos == End(src, old(i), IsBlank)
      ensures r.None? <==> pos == |src|
      ensures r.Some? ==> r.value == First(src[pos..])
      ensures r.Some? && r.value.Token? ==> i == pos + r.value.len && old(i) < i
    {
      Skip(IsBlank);
      pos := i;
      if i >= |src| {
        return None, pos;
      }
      ghost var s := src[i..];
      assert s[0] == src[i] && (i + 1 < |src| ==> s[1] == src[i + 1]);
      NotOthers(s);
      var ch := src[i];
      var t: Lexed;
      if IsSymbol(ch) {
        i := i + 1;
        t := Token(Symbol, [ch], 1);
      } else if ch == '-' {
        if i + 1 < |src| && src[i + 1] == '>' {
          i := i + 2;
          t := Token(Symbol, "->", 2);
        } else {
          i := i + 1;
          t := Token(Symbol, "-", 1);
        }
      } else if ch == '"' {
        FirstAdvances(s);
        t := LexString();
      } else if IsIdentStart(ch) {
        t := LexIdent();
      } else if IsDigit(ch) {
        FirstAdvances(s);
        t := LexBareNumberish();
      } else {
        t := Bad(UnexpectedChar);
      }
      r := Some(t);
    }
  }

  /** A number by its places in the source. */
  lemma NumberAt(src: string, start: nat)
    requires start <= |src|
    ensures var d := End(src, start, IsDigit);
      if d < |src| && src[d] == '.' then
        var e := End(src, d + 1, IsDigit);
        if e == d + 1 then Number(src[start..]) == Bad(MalformedFloat)
        else
          var n := End(src, e, IsAlpha);
          Number(src[start..]) == Token(Ident, src[start..n], n - start)
      else
        var n := End(src, d, IsAlpha);
        Number(src[start..]) == Token(Ident, src[start..n], n - start)
  {
    hide End;
    var s := src[start..];
    EndShift(src, start, 0, IsDigit);
    var d := End(s, 0, IsDigit);
    if d < |s| && s[d] == '.' {
      EndShift(src, start, d + 1, IsDigit);
      var e := End(s, d + 1, IsDigit);
      EndShift(src, start, e, IsAlpha);
      assert s[..End(s, e, IsAlpha)] == src[start..start + End(s, e, IsAlpha)];
    } else {
      EndShift(src, start, d, IsAlpha);
      assert s[..End(s, d, IsAlpha)] == src[start..start + End(s, d, IsAlpha)];
    }
  }

  lemma TextStart(src: string, start: nat)
    requires start < |src| && src[start] == '"'
    ensures First(src[start..]) == Grown("", 1, TextFrom(src[start + 1..]))
  {
    hide TextFrom;
    var s := src[start..];
    assert s[0] == '"' && s[1..] == src[start + 1..];
    NotOthers(s);
  }

  lemma TextEnds()
    ensures TextFrom("") == Bad(OpenString)
  {
  }

  /** The first characters of the kinds of tokens are different. */
  lemma NotOthers(s: string)
    requires s != ""
    ensures s[0] == '"' || s[0] == '-' || IsIdentStart(s[0]) || IsDigit(s[0]) ==> !IsSymbol(s[0])
  {
  }

  /** One turn of the string loop. */
  lemma TextStep(src: string, i: nat, lit: string, n: nat)
    requires i < |src|
    ensures src[i] == '"' ==> Grown(lit, n, TextFrom(src[i..])) == Token(Text, lit, n + 1)
    ensures src[i] == '\\' && i + 1 == |src| ==> TextFrom(src[i..]) == Bad(OpenEscape)
    ensures src[i] == '\\' && i + 1 < |src| ==>
      Grown(lit, n, TextFrom(src[i..])) == Grown(lit + Unescaped(src[i + 1]), n + 2, TextFrom(src[i + 2..]))
    ensures src[i] != '"' && src[i] != '\\' ==>
      Grown(lit, n, TextFrom(src[i..])) == Grown(lit + [src[i]], n + 1, TextFrom(src[i + 1..]))
  {
    hide Unescaped;
    var s := src[i..];
    assert s[1..] == src[i + 1..] && (i + 1 < |src| ==> s[2..] == src[i + 2..] && s[1] == src[i + 1]);
    assert lit + "" == lit;
    if s[0] == '\\' && |s| > 1 {
      GrownTwice(lit, n, Unescaped(s[1]), 2, TextFrom(s[2..]));
    } else if s[0] != '"' && s[0] != '\\' {
      GrownTwice(lit, n, [s[0]], 1, TextFrom(s[1..]));
    }
  }

  lemma GrownTwice(a: string, m: nat, b: string, n: nat, r: Lexed)
    ensures Grown(a, m, Grown(b, n, r)) == Grown(a + b, m + n, r)
  {
    if r.Token? {
      assert a + (b + r.lit) == a + b + r.lit;
    }
  }

  /** A run of characters of a kind by its places. */
  lemma RunAt(s: string, from: nat, p: char -> bool)
    requires from <= |s|
    ensures var end := End(s, from, p); (forall i :: from <= i < end ==> p(s[i])) && (end < |s| ==> !p(s[end]))
  {
    var t := s[from..];
    SpanIsLongest(t, p);
    assert forall i :: from <= i < |s| ==> s[i] == t[i - from];
  }

  // ----- nothing is lost

  /** A token as it stands in the text, and the blank characters before it. */
  datatype Piece = Piece(blank: string, lexeme: string)

  function Pieces(s: string): seq<Piece>
    requires Lex(s).Tokens?
    decreases |s|
  {
    var n := End(s, 0, IsBlank);
    var t := s[n..];
    if t == "" then []
    else
      FirstAdvances(t);
      var len := First(t).len;
      [Piece(s[..n], t[..len])] + Pieces(t[len..])
  }

  function Tail(s: string): string
    requires Lex(s).Tokens?
    decreases |s|
  {
    var t := s[End(s, 0, IsBlank)..];
    if t == "" then s
    else
      FirstAdvances(t);
      Tail(t[First(t).len..])
  }

  function Joined(ps: seq<Piece>): string { if ps == [] then "" else ps[0].blank + ps[0].lexeme + Joined(ps[1..]) }

  predicate AllBlank(s: string) { forall i :: 0 <= i < |s| ==> IsBlank(s[i]) }

  /** A piece stands for its token: a string between quotes, anything else letter for letter. */
  predicate StandsFor(p: Piece, t: Tok) {
    AllBlank(p.blank) && p.lexeme != ""
    && if t.kind == Text then p.lexeme[0] == '"' && p.lexeme[|p.lexeme| - 1] == '"' else p.lexeme == t.lit
  }

  lemma PiecesStep(s: string)
    requires Lex(s).Tokens?
    ensures var n := End(s, 0, IsBlank);
      var t := s[n..];
      if t == "" then Lex(s).toks == [] && Pieces(s) == [] && Tail(s) == s
      else
        var f := First(t);
        && f.Token? && 1 <= f.len <= |t| && Lex(t[f.len..]).Tokens?
        && Lex(s).toks == [Tok(f.kind, f.lit)] + Lex(t[f.len..]).toks
        && Pieces(s) == [Piece(s[..n], t[..f.len])] + Pieces(t[f.len..]) && Tail(s) == Tail(t[f.len..])
  {
    hide First, End, IsBlank;
    var t := s[End(s, 0, IsBlank)..];
    if t != "" {
      FirstAdvances(t);
    }
  }

  /** The text is its lexemes and the blanks between them: tokens and blanks together rebuild the source. */
  lemma {:induction false} LexingIsLossless(s: string)
    requires Lex(s).Tokens?
    ensures Joined(Pieces(s)) + Tail(s) == s && AllBlank(Tail(s))
    ensures |Pieces(s)| == |Lex(s).toks|
    ensures forall i :: 0 <= i < |Pieces(s)| ==> StandsFor(Pieces(s)[i], Lex(s).toks[i])
    decreases |s|
  {
    hide First, End, IsBlank, Joined, StandsFor, Lex, Pieces, Tail;
    var n := End(s, 0, IsBlank);
    PiecesStep(s);
    var t := s[n..];
    RunAt(s, 0, IsBlank);
    if t == "" {
      NothingJoined();
      assert "" + s == s && s[..n] == s;
    } else {
      var f := First(t);
      var rest := t[f.len..];
      LexingIsLossless(rest);
      FirstLexeme(t);
      PieceStands(s[..n], t[..f.len], Tok(f.kind, f.lit));
      JoinedMore(Piece(s[..n], t[..f.len]), Pieces(rest), Tail(rest));
      hide *;
      assert s[..n] + t[..f.len] + rest == s;
    }
  }

  lemma NothingJoined()
    ensures Joined([]) == ""
  {
  }

  lemma JoinedMore(p: Piece, ps: seq<Piece>, tail: string)
    ensures Joined([p] + ps) + tail == p.blank + p.lexeme + (Joined(ps) + tail)
  {
    assert ([p] + ps)[1..] == ps;
  }

  lemma PieceStands(blank: string, lexeme: string, t: Tok)
    requires AllBlank(blank) && lexeme != ""
    requires if t.kind == Text then lexeme[0] == '"' && lexeme[|lexeme| - 1] == '"' else lexeme == t.lit
    ensures StandsFor(Piece(blank, lexeme), t)
  {
  }

  lemma FirstLexeme(s: string)
    requires s != "" && First(s).Token?
    ensures var f := First(s);
      1 <= f.len <= |s|
      && if f.kind == Text then s[0] == '"' && s[f.len - 1] == '"' else s[..f.len] == f.lit
  {
    FirstAdvances(s);
    NotOthers(s);
    if s[0] == '"' {
      TextCloses(s[1..]);
    } else if s[0] == '-' && 1 < |s| && s[1] == '>' {
      assert s[..2] == "->";
    } else {
      assert s[..1] == [s[0]];
    }
  }

  lemma {:induction false} TextCloses(s: string)
    requires TextFrom(s).Token?
    ensures 1 <= TextFrom(s).len <= |s| && s[TextFrom(s).len - 1] == '"' && TextFrom(s).kind == Text
  {
    hide Unescaped;
    if s[0] == '"' {
    } else if s[0] == '\\' {
      TextCloses(s[2..]);
    } else {
      TextCloses(s[1..]);
    }
  }

  // ----- strings end where the comment stripper thinks they do

  lemma {:induction false} TextModes(s: string)
    ensures TextFrom(s).Token? ==> TextFrom(s).len <= |s| && C.Scan(s, C.Quoted) == C.Scan(s[TextFrom(s).len..], C.Code)
    ensures TextFrom(s).Bad? ==> C.Scan(s, C.Quoted) != C.Code
  {
    hide Unescaped;
    if s == "" {
    } else if s[0] == '"' {
    } else if s[0] == '\\' {
      if |s| == 1 {
        assert s[1..] == "";
      } else {
        TextModes(s[2..]);
        assert s[1..][0] == s[1] && s[1..][1..] == s[2..];
        var r := TextFrom(s[2..]);
        assert r.Token? ==> s[2..][r.len..] == s[2 + r.len..];
      }
    } else {
      TextModes(s[1..]);
      var r := TextFrom(s[1..]);
      assert r.Token? ==> s[1..][r.len..] == s[1 + r.len..];
    }
  }

  lemma {:induction false} PlainModes(s: string, n: nat)
    requires n <= |s| && forall i :: 0 <= i < n ==> s[i] != '"'
    ensures C.Scan(s, C.Code) == C.Scan(s[n..], C.Code)
    decreases n
  {
    if n != 0 {
      PlainModes(s[1..], n - 1);
      assert s[1..][n - 1..] == s[n..];
    }
  }

  /** Tokens that are not strings hold no quotes. */
  lemma NoQuotes(s: string)
    requires s != "" && s[0] != '"' && First(s).Token?
    ensures First(s).len <= |s| && forall i :: 0 <= i < First(s).len ==> s[i] != '"'
  {
    FirstAdvances(s);
    if IsSymbol(s[0]) || s[0] == '-' {
    } else if IsIdentStart(s[0]) {
      RunAt(s, 1, IsIdentContinue);
    } else {
      NumberNoQuotes(s);
    }
  }

  lemma NumberNoQuotes(s: string)
    requires Number(s).Token?
    ensures Number(s).len <= |s| && forall i :: 0 <= i < Number(s).len ==> s[i] != '"'
  {
    hide End;
    RunAt(s, 0, IsDigit);
    var d := End(s, 0, IsDigit);
    if d < |s| && s[d] == '.' {
      RunAt(s, d + 1, IsDigit);
      RunAt(s, End(s, d + 1, IsDigit), IsAlpha);
    } else {
      RunAt(s, d, IsAlpha);
    }
  }

  /** In a text that ends outside strings, lexing never finds a string or an escape left open. */
  lemma {:induction false} StringsClose(s: string)
    requires C.Scan(s, C.Code) == C.Code
    ensures Lex(s).Failure? ==> Lex(s).error != OpenString && Lex(s).error != OpenEscape
    decreases |s|
  {
    hide First, TextFrom, End;
    var n := End(s, 0, IsBlank);
    var t := s[n..];
    RunAt(s, 0, IsBlank);
    PlainModes(s, n);
    if t != "" {
      FirstAdvances(t);
      FirstModes(t);
      if First(t).Token? {
        StringsClose(t[First(t).len..]);
      }
    }
  }

  lemma FirstModes(s: string)
    requires s != "" && C.Scan(s, C.Code) == C.Code
    ensures First(s).Token? ==> First(s).len <= |s| && C.Scan(s[First(s).len..], C.Code) == C.Code
    ensures First(s).Bad? ==> First(s).error != OpenString && First(s).error != OpenEscape
  {
    hide First, C.Scan;
    if s[0] == '"' {
      QuotedModes(s);
    } else {
      PlainErrors(s);
      if First(s).Token? {
        NoQuotes(s);
        PlainModes(s, First(s).len);
      }
    }
  }

  lemma QuotedModes(s: string)
    requires s != "" && s[0] == '"' && C.Scan(s, C.Code) == C.Code
    ensures First(s).Token? && First(s).len <= |s| && C.Scan(s[First(s).len..], C.Code) == C.Code
  {
    OpeningQuote(s);
    TextModes(s[1..]);
    var r := TextFrom(s[1..]);
    hide *;
    assert s[1..][r.len..] == s[1 + r.len..];
  }

  lemma OpeningQuote(s: string)
    requires s != "" && s[0] == '"'
    ensures C.Scan(s, C.Code) == C.Scan(s[1..], C.Quoted)
    ensures var r := TextFrom(s[1..]); if r.Token? then First(s).Token? && First(s).len == 1 + r.len else First(s) == r
  {
    hide TextFrom;
    NotOthers(s);
  }

  lemma PlainErrors(s: string)
    requires s != "" && s[0] != '"'
    ensures First(s).Bad? ==> First(s).error == UnexpectedChar || First(s).error == MalformedFloat
  {
    hide End;
  }

  /** So after comments have been stripped without complaint, it never does. */
  lemma StrippedStringsClose(src: string)
    requires C.Strip(src, C.Code).Clean?
    ensures var r := Lex(C.Strip(src, C.Code).text);
      r.Failure? ==> r.error != OpenString && r.error != OpenEscape
  {
    C.StrippedIsClean(src, C.Code);
    StringsClose(C.Strip(src, C.Code).text);
  }

  // ----- writing tokens out again

  function Escape(s: string): string {
    if s == "" then "" else Escaped(s[0]) + Escape(s[1..])
  }

  function Escaped(c: char): string { if c == '"' || c == '\\' then ['\\', c] else [c] }

  /** A token as it is written out. */
  function Shown(t: Tok): string { if t.kind == Text then "\"" + Escape(t.lit) + "\"" else t.lit }

  function Render(ts: seq<Tok>): string { if ts == [] then "" else Shown(ts[0]) + (" " + Render(ts[1..])) }

  lemma {:induction false} EscapeRoundTrip(lit: string, rest: string)
    ensures TextFrom(Escape(lit) + ("\"" + rest)) == Token(Text, lit, |Escape(lit)| + 1)
  {
    hide Unescaped, Escaped, TextFrom;
    if lit == "" {
      assert Escape(lit) + ("\"" + rest) == "\"" + rest;
      QuoteEnds(rest);
    } else {
      EscapeRoundTrip(lit[1..], rest);
      var t := Escape(lit[1..]) + ("\"" + rest);
      EscapedChar(lit[0], t);
      assert Escape(lit) + ("\"" + rest) == Escaped(lit[0]) + t;
      assert lit == [lit[0]] + lit[1..];
    }
  }

  lemma QuoteEnds(rest: string)
    ensures TextFrom("\"" + rest) == Token(Text, "", 1)
  {
  }

  lemma EscapedChar(c: char, t: string)
    ensures TextFrom(Escaped(c) + t) == Grown([c], |Escaped(c)|, TextFrom(t))
  {
    var s := Escaped(c) + t;
    if c == '"' || c == '\\' {
      assert s[0] == '\\' && s[1] == c && s[2..] == t && Unescaped(c) == [c];
    } else {
      assert s[0] == c && s[1..] == t;
    }
  }

  // ----- what single characters and escapes mean

  predicate Plain(s: string) { '"' !in s && '\\' !in s }

  lemma {:induction false} PlainText(s: string, rest: string)
    requires Plain(s)
    ensures TextFrom(s + rest) == Grown(s, |s|, TextFrom(rest))
  {
    var t := s + rest;
    if s == "" {
      assert t == rest;
      assert TextFrom(rest).Token? ==> "" + TextFrom(rest).lit == TextFrom(rest).lit;
    } else {
      PlainText(s[1..], rest);
      assert t[1..] == s[1..] + rest && t[0] == s[0] && s[0] in s;
      PlainChar(t);
      assert [s[0]] + s[1..] == s;
      GrownTwice([s[0]], 1, s[1..], |s| - 1, TextFrom(rest));
      hide *;
    }
  }

  lemma PlainChar(s: string)
    requires s != "" && s[0] != '"' && s[0] != '\\'
    ensures TextFrom(s) == Grown([s[0]], 1, TextFrom(s[1..]))
  {
  }

  /**
   * Between plain text, `\n` and `\t` stand for the two white space characters, a quote and a backslash for themselves;
   * before any other character the backslash stays.
   */
  lemma EscapeMeans(a: string, c: char, b: string)
    requires Plain(a) && Plain(b)
    ensures
      var r := Lex("\"" + (a + (['\\', c] + (b + "\""))));
      && (c == 'n' ==> r == Tokens([Tok(Text, a + "\n" + b)]))
      && (c == 't' ==> r == Tokens([Tok(Text, a + "\t" + b)]))
      && (c == '"' || c == '\\' ==> r == Tokens([Tok(Text, a + [c] + b)]))
      && (c != 'n' && c != 't' && c != '"' && c != '\\' ==> r == Tokens([Tok(Text, a + ['\\', c] + b)]))
  {
    hide Lex, TextFrom;
    var s2 := b + "\"";
    var s1 := ['\\', c] + s2;
    var s := a + s1;
    PlainText(a, s1);
    EscapeRead(c, s2);
    PlainText(b, "\"");
    QuoteEnds("");
    assert "\"" + "" == "\"";
    TextAlone(s, a + (Unescaped(c) + (b + "")), |s|);
    assert a + (Unescaped(c) + (b + "")) == a + Unescaped(c) + b;
    assert "\\" + [c] == ['\\', c];
  }

  lemma EscapeRead(c: char, rest: string)
    ensures TextFrom(['\\', c] + rest) == Grown(Unescaped(c), 2, TextFrom(rest))
  {
    var s := ['\\', c] + rest;
    assert s[2..] == rest && s[1] == c;
  }

  /** A text that is one string lexes to one token. */
  lemma TextAlone(s: string, lit: string, n: nat)
    requires TextFrom(s) == Token(Text, lit, n) && n == |s|
    ensures Lex("\"" + s) == Tokens([Tok(Text, lit)])
  {
    hide TextFrom;
    var t := "\"" + s;
    assert t[1..] == s && t[0..] == t && t[1 + n..] == "" && "" + lit == lit;
    assert End(t, 0, IsBlank) == 0;
    assert First(t) == Token(Text, lit, 1 + n);
    assert Lex("") == Tokens([]);
  }

  /** A text that starts like a name is one token exactly if it is all letters, digits and underscores. */
  lemma NameAlone(s: string)
    requires s != "" && (s[0] == '_' || 'A' <= s[0] <= 'Z' || 'a' <= s[0] <= 'z')
    ensures
      Lex(s) == Tokens([Tok(Ident, s)]) <==>
      forall i :: 0 <= i < |s| ==> s[i] == '_' || 'A' <= s[i] <= 'Z' || 'a' <= s[i] <= 'z' || '0' <= s[i] <= '9'
  {
    hide First, End, Lex;
    RunAt(s, 1, IsIdentContinue);
    var n := End(s, 1, IsIdentContinue);
    LexesName(s, n);
    if n == |s| {
      assert s[..n] == s && s[n..] == "";
      assert forall i :: 1 <= i < |s| ==> IsIdentContinue(s[i]);
    } else {
      assert |s[..n]| != |s| && !IsIdentContinue(s[n]);
    }
  }

  lemma LexesName(s: string, n: nat)
    requires s != "" && IsIdentStart(s[0]) && n == End(s, 1, IsIdentContinue)
    ensures 0 < n <= |s| && Lex(s) == Ahead(Tok(Ident, s[..n]), Lex(s[n..])) && Lex("") == Tokens([])
  {
    hide Lex, End;
    assert First(s) == Token(Ident, s[..n], n);
    LexesFirst(s);
  }

  lemma LexesFirst(s: string)
    requires s != "" && !IsBlank(s[0]) && First(s).Token? && First(s).len <= |s|
    ensures Lex(s) == Ahead(Tok(First(s).kind, First(s).lit), Lex(s[First(s).len..])) && Lex("") == Tokens([])
  {
    hide First;
    assert End(s, 0, IsBlank) == 0 && s[0..] == s;
  }

  /** What each character is as a text of its own. */
  lemma CharacterAlone(c: char)
    ensures
      Lex([c]) ==
      if c in " \t\r\n" then Tokens([])
      else if c in "{}[],;=.:/-" then Tokens([Tok(Symbol, [c])])
      else if c == '_' || 'A' <= c <= 'Z' || 'a' <= c <= 'z' || '0' <= c <= '9' then Tokens([Tok(Ident, [c])])
      else Failure(if c == '"' then OpenString else UnexpectedChar)
  {
    var t := [c];
    assert t[0..] == t && t[1..] == "" && t[..1] == t;
    assert Lex("") == Tokens([]);
  }

  lemma {:induction false} SpanIs(s: string, n: nat, p: char -> bool)
    requires n <= |s| && (forall i :: 0 <= i < n ==> p(s[i])) && (n < |s| ==> !p(s[n]))
    ensures Span(s, p) == n
    decreases n
  {
    if n != 0 {
      SpanIs(s[1..], n - 1, p);
    }
  }

  /** A run of characters of a kind is found again where the text is the same and something else follows. */
  lemma RunAgain(s: string, t: string, from: nat, p: char -> bool)
    requires from <= |s| && End(s, from, p) <= |t|
    requires var end := End(s, from, p); t[..end] == s[..end] && (end < |t| ==> !p(t[end]))
    ensures End(t, from, p) == End(s, from, p)
  {
    hide Span;
    RunAt(s, from, p);
    var end := End(s, from, p);
    forall i | 0 <= i < end - from
      ensures p(t[from..][i])
    {
      assert t[from + i] == t[..end][from + i] == s[..end][from + i] == s[from + i];
    }
    SpanIs(t[from..], end - from, p);
  }

  lemma SameFront(s: string, t: string, n: nat, k: nat)
    requires k <= n <= |s| && n <= |t| && s[..n] == t[..n]
    ensures s[..k] == t[..k] && (k < n ==> s[k] == t[k])
  {
    assert s[..k] == s[..n][..k] && t[..k] == t[..n][..k];
    assert k < n ==> s[k] == s[..n][k] == t[..n][k];
  }

  /** A number with a blank behind it is found again. */
  lemma NumberAgain(s: string, t: string)
    requires Number(s).Token? && Number(s).len < |t| && t[Number(s).len] == ' '
    requires Number(s).len <= |s| && t[..Number(s).len] == s[..Number(s).len]
    ensures Number(t) == Number(s)
  {
    hide End;
    var n := Number(s).len;
    var d := End(s, 0, IsDigit);
    RunAt(s, 0, IsDigit);
    SameFront(s, t, n, d);
    if d < |s| && s[d] == '.' {
      var e := End(s, d + 1, IsDigit);
      SameFront(s, t, n, e);
      RunAt(s, e, IsAlpha);
      RunAt(s, d + 1, IsDigit);
      RunAgain(s, t, 0, IsDigit);
      RunAgain(s, t, d + 1, IsDigit);
      RunAgain(s, t, e, IsAlpha);
    } else {
      RunAt(s, d, IsAlpha);
      RunAgain(s, t, 0, IsDigit);
      RunAgain(s, t, d, IsAlpha);
    }
  }

  lemma IdentAgain(s: string, t: string)
    requires s != "" && IsIdentStart(s[0]) && First(s).len < |t| && t[First(s).len] == ' '
    requires First(s).Token? && First(s).len <= |s| && t[..First(s).len] == s[..First(s).len]
    ensures First(t) == First(s)
  {
    hide End;
    NotOthers(s);
    SameFront(s, t, First(s).len, 0);
    NotOthers(t);
    RunAgain(s, t, 1, IsIdentContinue);
  }

  lemma TextAgain(lit: string, rest: string)
    ensures var shown := Shown(Tok(Text, lit));
      shown != "" && shown[0] == '"' && First(shown + rest) == Token(Text, lit, |shown|)
  {
    hide TextFrom, Escape;
    var t := Shown(Tok(Text, lit)) + rest;
    EscapeRoundTrip(lit, rest);
    assert t[1..] == Escape(lit) + ("\"" + rest);
    NotOthers(t);
    assert "" + lit == lit;
  }

  lemma SymbolAgain(s: string, t: string)
    requires s != "" && (IsSymbol(s[0]) || s[0] == '-') && First(s).Token? && First(s).len < |t| && t[First(s).len] == ' '
    requires First(s).len <= |s| && t[..First(s).len] == s[..First(s).len]
    ensures First(t) == First(s)
  {
    SameFront(s, t, First(s).len, 0);
    SameFront(s, t, First(s).len, 1);
  }

  /** The token at the front, written out with a blank behind it, is found again. */
  lemma FirstAgain(s: string, rest: string)
    requires s != "" && First(s).Token? && rest != "" && rest[0] == ' '
    ensures var f := First(s);
      var shown := Shown(Tok(f.kind, f.lit));
      shown != "" && !IsBlank(shown[0]) && First(shown + rest) == Token(f.kind, f.lit, |shown|)
  {
    FirstAdvances(s);
    FirstLexeme(s);
    var f := First(s);
    if f.kind == Text {
      TextAgain(f.lit, rest);
    } else {
      var t := s[..f.len] + rest;
      assert t[..f.len] == s[..f.len] && t[f.len] == ' ' && t[0] == s[0];
      KindsOfFirst(s);
      if IsSymbol(s[0]) || s[0] == '-' {
        SymbolAgain(s, t);
      } else if IsIdentStart(s[0]) {
        IdentAgain(s, t);
      } else {
        KindsOfFirst(t);
        NumberAgain(s, t);
      }
    }
  }

  /** Which token it is can be seen from the first character. */
  lemma KindsOfFirst(s: string)
    requires s != ""
    ensures First(s).Token? && First(s).kind != Text ==> s[0] != '"' && !IsBlank(s[0])
    ensures First(s).Token? && !IsSymbol(s[0]) && s[0] != '-' && s[0] != '"' && !IsIdentStart(s[0]) ==> IsDigit(s[0])
    ensures IsDigit(s[0]) ==> First(s) == Number(s)
  {
    hide End, TextFrom;
    NotOthers(s);
    if s[0] == '"' {
      TextAdvances(s[1..]);
    }
  }

  lemma BlankSkipped(s: string)
    ensures Lex(" " + s) == Lex(s)
  {
    hide First;
    var t := " " + s;
    EndStep(t, 0, IsBlank);
    assert t[1..] == s;
    EndShift(t, 1, 0, IsBlank);
    hide End;
    assert t[1 + End(s, 0, IsBlank)..] == s[End(s, 0, IsBlank)..];
  }

  /** Writing the tokens of a text with blanks between them, strings escaped again, and lexing that gives the same tokens. */
  lemma {:induction false} LexAgain(s: string)
    requires Lex(s).Tokens?
    ensures Lex(Render(Lex(s).toks)) == Lex(s)
    decreases |s|
  {
    hide First, End, Shown;
    var t := s[End(s, 0, IsBlank)..];
    if t == "" {
      NothingToLex();
    } else {
      FirstAdvances(t);
      var f := First(t);
      var rest := Lex(t[f.len..]).toks;
      LexAgain(t[f.len..]);
      var toks := [Tok(f.kind, f.lit)] + rest;
      assert toks[1..] == rest;
      FirstAgain(t, " " + Render(rest));
      BlankSkipped(Render(rest));
      LexOne(Shown(toks[0]), " " + Render(rest));
    }
  }

  lemma NothingToLex()
    ensures Lex("") == Tokens([])
  {
  }

  /** Lexing a text that starts with a token just long enough. */
  lemma LexOne(shown: string, rest: string)
    requires shown != "" && !IsBlank(shown[0]) && First(shown + rest).Token? && First(shown + rest).len == |shown|
    ensures var f := First(shown + rest); Lex(shown + rest) == Ahead(Tok(f.kind, f.lit), Lex(rest))
  {
    hide First;
    var s := shown + rest;
    EndStep(s, 0, IsBlank);
    hide End;
    assert s[0..] == s && s[|shown|..] == rest;
  }
}
