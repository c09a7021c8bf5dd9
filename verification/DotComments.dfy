/** Taking the comments out of a graph description, but not what looks like one inside a string. */
module DotComments {
  import opened GoStrings

  datatype Stripped = Clean(text: string) | OpenComment | OpenString

  /** Outside strings, inside one, or inside one right behind a backslash. */
  datatype Mode = Code | Quoted | Escaped

  /** The mode after one more character that is kept. */
  function Next(m: Mode, c: char): Mode {
    match m
    case Code => if c == '"' then Quoted else Code
    case Quoted => if c == '\\' then Escaped else if c == '"' then Code else Quoted
    case Escaped => Quoted
  }

  predicate LineOpener(s: string) { "//" <= s }

  predicate BlockOpener(s: string) { "/*" <= s }

  lemma OpenersByLetters(s: string)
    ensures LineOpener(s) <==> 2 <= |s| && s[0] == '/' && s[1] == '/'
    ensures BlockOpener(s) <==> 2 <= |s| && s[0] == '/' && s[1] == '*'
  {
    if 2 <= |s| {
      assert s[..2] == [s[0], s[1]];
    }
  }

  /** How many characters come before the next newline, or before the end. */
  function ToLineEnd(s: string): (n: nat)
    ensures n <= |s|
  {
    if s == "" || s[0] == '\n' then 0 else 1 + ToLineEnd(s[1..])
  }

  /** How many characters it takes to get behind the next end of a block comment; none if there is no end. */
  function ToBlockEnd(s: string): (n: Option<nat>)
    ensures n.Some? ==> 2 <= n.value <= |s|
  {
    if |s| < 2 then None
    else if "*/" <= s then Some(2)
    else
      var n := ToBlockEnd(s[1..]);
      if n.None? then None else Some(n.value + 1)
  }

  function Behind(text: string, r: Stripped): Stripped { if r.Clean? then Clean(text + r.text) else r }

  /** The text without its comments. */
  function Strip(s: string, m: Mode): Stripped
    decreases |s|
  {
    if s == "" then (if m == Code then Clean("") else OpenString)
    else if m == Code && LineOpener(s) then Strip(s[2 + ToLineEnd(s[2..])..], Code)
    else if m == Code && BlockOpener(s) then
      var n := ToBlockEnd(s[2..]);
      if n.None? then OpenComment else Strip(s[2 + n.value..], Code)
    else Behind([s[0]], Strip(s[1..], Next(m, s[0])))
  }

  // ----- the code

  lemma BehindTwice(a: string, b: string, r: Stripped)
    ensures Behind(a, Behind(b, r)) == Behind(a + b, r)
  {
    if r.Clean? {
      assert a + (b + r.text) == a + b + r.text;
    }
  }

  lemma BehindNothing(r: Stripped)
    ensures Behind("", r) == r
  {
    if r.Clean? {
      assert "" + r.text == r.text;
    }
  }

  method SkipLine(s: string, start: nat) returns (i: nat)
    requires start <= |s|
    ensures i == start + ToLineEnd(s[start..]) && i <= |s|
  {
    i := start;
    while i < |s| && s[i] != '\n'
      invariant start <= i <= |s| && start + ToLineEnd(s[start..]) == i + ToLineEnd(s[i..])
    {
      assert s[i..][1..] == s[i + 1..];
      i := i + 1;
    }
  }

  /** The loop that looks for the end of a block comment. */
  method SkipBlock(s: string, start: nat) returns (i: nat)
    requires start <= |s|
    ensures start <= i <= |s|
    ensures i + 1 >= |s| <==> ToBlockEnd(s[start..]).None?
    ensures i + 1 < |s| ==> start + ToBlockEnd(s[start..]).value == i + 2
  {
    i := start;
    while i + 1 < |s| && !(s[i] == '*' && s[i + 1] == '/')
      invariant start <= i <= |s|
      invariant ToBlockEnd(s[start..]) == Later(i - start, ToBlockEnd(s[i..]))
    {
      assert s[i..][1..] == s[i + 1..];
      i := i + 1;
    }
  }

  function Later(k: nat, n: Option<nat>): Option<nat> { if n.None? then None else Some(n.value + k) }

  method StripComments(src: string) returns (r: Stripped)
    ensures r == Strip(src, Code)
  {
    hide ToLineEnd, ToBlockEnd, Strip;
    var out := "";
    var m := Code;
    var i := 0;
    assert src[0..] == src;
    BehindNothing(Strip(src, Code));
    while i < |src|
      invariant 0 <= i <= |src| && Strip(src, Code) == Behind(out, Strip(src[i..], m))
      decreases |src| - i
    {
      var ch := src[i];
      if m == Code && ch == '/' && i + 1 < |src| && src[i + 1] == '/' {
        StripLine(src, i);
        i := SkipLine(src, i + 2);
      } else if m == Code && ch == '/' && i + 1 < |src| && src[i + 1] == '*' {
        var j := SkipBlock(src, i + 2);
        StripBlock(src, i);
        if j + 1 >= |src| {
          return OpenComment;
        }
        i := j + 2;
      } else {
        StripKeep(src, i, m);
        BehindTwice(out, [ch], Strip(src[i + 1..], Next(m, ch)));
        out := out + [ch];
        m := Next(m, ch);
        i := i + 1;
      }
    }
    StripEnd(src, i, m, out);
    r := if m != Code then OpenString else Clean(out);
  }

  /** A line comment: the newline stays. */
  lemma StripLine(s: string, i: nat)
    requires i + 1 < |s| && s[i] == '/' && s[i + 1] == '/'
    ensures Strip(s[i..], Code) == Strip(s[i + 2 + ToLineEnd(s[i + 2..])..], Code)
  {
    hide ToLineEnd, LineOpener, BlockOpener;
    var rest := s[i..];
    OpenersByLetters(rest);
    assert rest[2..] == s[i + 2..];
    var n := ToLineEnd(rest[2..]);
    assert rest[2 + n..] == s[i + 2 + n..];
  }

  lemma StripBlock(s: string, i: nat)
    requires i + 1 < |s| && s[i] == '/' && s[i + 1] == '*'
    ensures var n := ToBlockEnd(s[i + 2..]);
      Strip(s[i..], Code) == if n.None? then OpenComment else Strip(s[i + 2 + n.value..], Code)
  {
    hide ToBlockEnd, LineOpener, BlockOpener;
    var rest := s[i..];
    OpenersByLetters(rest);
    assert rest[2..] == s[i + 2..];
    var n := ToBlockEnd(rest[2..]);
    assert n.Some? ==> rest[2 + n.value..] == s[i + 2 + n.value..];
  }

  lemma StripKeep(s: string, i: nat, m: Mode)
    requires i < |s| && !(m == Code && s[i] == '/' && i + 1 < |s| && (s[i + 1] == '/' || s[i + 1] == '*'))
    ensures Strip(s[i..], m) == Behind([s[i]], Strip(s[i + 1..], Next(m, s[i])))
  {
    hide ToLineEnd, ToBlockEnd, LineOpener, BlockOpener;
    OpenersByLetters(s[i..]);
    assert s[i..][1..] == s[i + 1..];
  }

  lemma StripEnd(s: string, i: nat, m: Mode, out: string)
    requires i == |s|
    ensures Behind(out, Strip(s[i..], m)) == if m != Code then OpenString else Clean(out)
  {
    assert out + "" == out && s[i..] == "";
  }

  // ----- what is left

  /** The mode at the end of a text without comments. */
  function Scan(s: string, m: Mode): Mode { if s == "" then m else Scan(s[1..], Next(m, s[0])) }

  /** No comment starts outside the strings. */
  predicate NoOpener(s: string, m: Mode) {
    s == "" || (!(m == Code && (LineOpener(s) || BlockOpener(s))) && NoOpener(s[1..], Next(m, s[0])))
  }

  /** A stripped text starts like what is left of the source, unless a comment stands first; and comments start with a slash. */
  lemma {:induction false} SlashStays(s: string)
    requires Strip(s, Code).Clean? && s != "" && s[0] != '/'
    ensures Strip(s, Code).text != "" && Strip(s, Code).text[0] == s[0]
  {
  }

  /** The stripped text has no comment left, and ends outside strings. */
  lemma {:induction false} StrippedIsClean(s: string, m: Mode)
    requires Strip(s, m).Clean?
    ensures NoOpener(Strip(s, m).text, m) && Scan(Strip(s, m).text, m) == Code
    decreases |s|
  {
    if s == "" {
    } else if m == Code && LineOpener(s) {
      StrippedIsClean(s[2 + ToLineEnd(s[2..])..], Code);
    } else if m == Code && BlockOpener(s) {
      StrippedIsClean(s[2 + ToBlockEnd(s[2..]).value..], Code);
    } else {
      var c, k := s[0], Next(m, s[0]);
      StrippedIsClean(s[1..], k);
      var rest := Strip(s[1..], k).text;
      assert Strip(s, m).text == [c] + rest;
      if m == Code && c == '/' && rest != "" {
        SlashFollowed(s);
      }
      CleanFront(c, rest, m);
    }
  }

  lemma CleanFront(c: char, rest: string, m: Mode)
    requires NoOpener(rest, Next(m, c)) && Scan(rest, Next(m, c)) == Code
    requires m == Code && c == '/' && rest != "" ==> !LineOpener("/" + rest) && !BlockOpener("/" + rest)
    ensures NoOpener([c] + rest, m) && Scan([c] + rest, m) == Code
  {
    assert ([c] + rest)[1..] == rest;
    assert c == '/' ==> [c] + rest == "/" + rest;
    OpenersByLetters([c] + rest);
  }

  /** Behind a slash that is kept comes the character that followed it in the source. */
  lemma SlashFollowed(s: string)
    requires s != "" && s[0] == '/' && !LineOpener(s) && !BlockOpener(s)
    requires Strip(s[1..], Code).Clean? && Strip(s[1..], Code).text != ""
    ensures var t := "/" + Strip(s[1..], Code).text; !LineOpener(t) && !BlockOpener(t)
  {
    var rest := Strip(s[1..], Code).text;
    if s[1..] != "" {
      OpenersByLetters(s);
      SlashStays(s[1..]);
      OpenersByLetters("/" + rest);
    }
  }

  /** Stripping leaves a text as it is if and only if it has no comment and ends outside strings. */
  lemma {:induction false} StripsToItself(s: string, m: Mode)
    ensures Strip(s, m) == Clean(s) <==> NoOpener(s, m) && Scan(s, m) == Code
    ensures Strip(s, m).Clean? ==> |Strip(s, m).text| <= |s|
    decreases |s|
  {
    if s == "" {
    } else if m == Code && LineOpener(s) {
      StripsToItself(s[2 + ToLineEnd(s[2..])..], Code);
    } else if m == Code && BlockOpener(s) {
      if ToBlockEnd(s[2..]).Some? {
        StripsToItself(s[2 + ToBlockEnd(s[2..]).value..], Code);
      }
    } else {
      var c, r := s[0], Strip(s[1..], Next(m, s[0]));
      StripsToItself(s[1..], Next(m, s[0]));
      assert s == [c] + s[1..];
      if r.Clean? {
        assert ([c] + r.text)[1..] == r.text;
      }
    }
  }

  /** Stripping twice is stripping once. */
  lemma StripIdempotent(s: string)
    requires Strip(s, Code).Clean?
    ensures Strip(Strip(s, Code).text, Code) == Strip(s, Code)
  {
    StrippedIsClean(s, Code);
    StripsToItself(Strip(s, Code).text, Code);
  }

  // ----- what a comment leaves on its two sides

  /** Text that can be the inside of a block comment. */
  predicate Inside(c: string) { forall i :: 0 <= i < |c| - 1 ==> !(c[i] == '*' && c[i + 1] == '/') }

  lemma EndByLetters(s: string)
    requires 2 <= |s|
    ensures "*/" <= s <==> s[0] == '*' && s[1] == '/'
  {
    assert s[..2] == [s[0], s[1]];
  }

  lemma {:induction false} ToOwnEnd(c: string, y: string)
    requires Inside(c)
    ensures ToBlockEnd(c + ("*/" + y)) == Some(|c| + 2)
  {
    var s := c + ("*/" + y);
    if c == "" {
      assert s[..2] == "*/";
    } else {
      ToOwnEnd(c[1..], y);
      assert s[1..] == c[1..] + ("*/" + y);
      EndByLetters(s);
      assert s[1] == if |c| > 1 then c[1] else '*';
    }
  }

  /** Code without comments is kept, whatever comes behind it, unless its last slash opens one. */
  lemma {:induction false} FrontKept(x: string, rest: string, m: Mode)
    requires NoOpener(x, m) && Scan(x, m) == Code && (x != "" ==> x[|x| - 1] != '/')
    ensures Strip(x + rest, m) == Behind(x, Strip(rest, Code))
  {
    var s := x + rest;
    if x == "" {
      assert s == rest;
      BehindNothing(Strip(rest, Code));
    } else {
      assert s[0] == x[0] && s[1..] == x[1..] + rest;
      FrontKept(x[1..], rest, Next(m, x[0]));
      OpenersByLetters(x);
      assert s[0..] == s && (|x| > 1 ==> s[1] == x[1]);
      StripKeep(s, 0, m);
      BehindTwice([x[0]], x[1..], Strip(rest, Code));
      assert [x[0]] + x[1..] == x;
    }
  }

  /** Cutting a block comment out puts what stands on its two sides together. */
  lemma BlockCutOut(x: string, c: string, y: string)
    requires NoOpener(x, Code) && Scan(x, Code) == Code && (x != "" ==> x[|x| - 1] != '/') && Inside(c)
    ensures Strip(x + ("/*" + c + "*/" + y), Code) == Behind(x, Strip(y, Code))
  {
    hide Strip, NoOpener, Scan, ToBlockEnd;
    var s := "/*" + c + "*/" + y;
    FrontKept(x, s, Code);
    StripBlock(s, 0);
    ToOwnEnd(c, y);
    assert s[0..] == s && s[2..] == c + ("*/" + y);
    assert s[2 + (|c| + 2)..] == y;
  }

  lemma {:induction false} ToOwnLineEnd(c: string, rest: string)
    requires '\n' !in c && (rest != "" ==> rest[0] == '\n')
    ensures ToLineEnd(c + rest) == |c|
  {
    var s := c + rest;
    if c != "" {
      ToOwnLineEnd(c[1..], rest);
      assert s[1..] == c[1..] + rest;
    }
  }

  /** Cutting a line comment out leaves the newline behind it. */
  lemma LineCutOut(x: string, c: string, y: string)
    requires NoOpener(x, Code) && Scan(x, Code) == Code && (x != "" ==> x[|x| - 1] != '/') && '\n' !in c
    ensures Strip(x + ("//" + c + "\n" + y), Code) == Behind(x + "\n", Strip(y, Code))
    ensures Strip(x + ("//" + c), Code) == Clean(x)
  {
    hide Strip, NoOpener, Scan, ToLineEnd;
    LineSkipped(x, c, "\n" + y);
    assert "//" + c + "\n" + y == "//" + c + ("\n" + y) && ("\n" + y)[0..] == "\n" + y && ("\n" + y)[1..] == y;
    StripKeep("\n" + y, 0, Code);
    BehindTwice(x, "\n", Strip(y, Code));
    LineSkipped(x, c, "");
    assert "//" + c + "" == "//" + c && ""[0..] == "";
    StripEnd("", 0, Code, x);
  }

  lemma LineSkipped(x: string, c: string, rest: string)
    requires NoOpener(x, Code) && Scan(x, Code) == Code && (x != "" ==> x[|x| - 1] != '/')
    requires '\n' !in c && (rest != "" ==> rest[0] == '\n')
    ensures Strip(x + ("//" + c + rest), Code) == Behind(x, Strip(rest, Code))
  {
    hide Strip, NoOpener, Scan, ToLineEnd;
    var s := "//" + c + rest;
    FrontKept(x, s, Code);
    StripLine(s, 0);
    ToOwnLineEnd(c, rest);
    assert s[0..] == s && s[2..] == c + rest && s[2 + |c|..] == rest;
  }

  /** A comment is not white space: what stands on its two sides is joined. */
  lemma CommentsJoinNeighbours()
    ensures Strip("a/**/b", Code) == Clean("ab")
  {
    hide Strip;
    var s := "a/**/b";
    StripKeep(s, 0, Code);
    StripBlock(s, 1);
    StripKeep(s, 5, Code);
    StripEnd(s, 6, Code, "b");
    FoundAtOnce(s[3..]);
    assert s[0..] == s && "a" + "b" == "ab" && [s[5]] == "b";
    BehindTwice("a", "b", Strip(s[6..], Code));
  }

  lemma FoundAtOnce(s: string)
    requires 2 <= |s| && s[0] == '*' && s[1] == '/'
    ensures ToBlockEnd(s) == Some(2)
  {
    assert s[..2] == "*/";
  }
}
