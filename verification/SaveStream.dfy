/** The typed writers and readers of the save file, on top of its encryption. */
module SaveStream {
  import opened SaveCipher

  type Int32 = i: int | -0x8000_0000 <= i < 0x8000_0000
  type UInt32 = i: int | 0 <= i < 0x1_0000_0000
  type Int16 = i: int | -0x8000 <= i < 0x8000

  /** A run of characters short enough for its length to fit the count written before it. */
  type Chars = s: seq<Byte> | |s| < 0x7FFF_FFFF

  /** Characters without the terminator, which leaves room for it. */
  type Unterminated = s: seq<Byte> | |s| < 0x7FFF_FFFE && forall i :: 0 <= i < |s| ==> s[i] != 0

  /** A C string: none at all, or the characters before its terminator. */
  datatype Text = NoText | Text(chars: Unterminated)

  /** The characters before the first terminator. */
  function UpToNul(s: seq<Byte>): (t: seq<Byte>)
    ensures |t| <= |s| && forall i :: 0 <= i < |t| ==> t[i] != 0
  {
    if s == [] || s[0] == 0 then [] else [s[0]] + UpToNul(s[1..])
  }

  lemma {:induction false} TerminatorFound(s: Unterminated)
    ensures UpToNul(s + [0]) == s
  {
    if s != [] {
      assert (s + [0])[1..] == s[1..] + [0];
      TerminatorFound(s[1..]);
    }
  }

  /** The buffer a string of a given length is read into: none for length zero. */
  function BufferOf(t: Text): (s: Chars) { match t case NoText => [] case Text(s) => s + [0] }

  function TextOf(len: int, buffer: seq<Byte>): Text {
    var chars := UpToNul(buffer);
    if 0 < len && |chars| < 0x7FFF_FFFE then Text(chars) else NoText
  }

  lemma TextRoundTrip(t: Text)
    ensures TextOf(|BufferOf(t)|, BufferOf(t)) == t
  {
    if t.Text? {
      TerminatorFound(t.chars);
    }
  }

  // ----- bytes of a number

  function Le(v: nat, n: nat): (s: seq<Byte>)
    ensures |s| == n
  {
    if n == 0 then [] else [v % 256] + Le(v / 256, n - 1)
  }

  function FromLe(s: seq<Byte>): nat { if s == [] then 0 else s[0] + 256 * FromLe(s[1..]) }

  function Pow256(n: nat): nat { if n == 0 then 1 else 256 * Pow256(n - 1) }

  lemma {:induction false} LeRoundTrip(v: nat, n: nat)
    requires v < Pow256(n)
    ensures FromLe(Le(v, n)) == v
  {
    if n != 0 {
      LeRoundTrip(v / 256, n - 1);
    }
  }

  lemma Pow256s()
    ensures Pow256(2) == 0x1_0000 && Pow256(4) == 0x1_0000_0000
  {
    assert Pow256(4) == 256 * Pow256(3) && Pow256(3) == 256 * Pow256(2) && Pow256(2) == 256 * Pow256(1);
  }

  lemma {:induction false} FromLeBound(s: seq<Byte>)
    ensures FromLe(s) < Pow256(|s|)
  {
    if s != [] {
      FromLeBound(s[1..]);
    }
  }

  /** The bytes of an int in two's complement, least significant first on every machine. */
  function IntBytes(i: Int32): (s: seq<Byte>)
    ensures |s| == 4
  {
    Le(if i < 0 then i + 0x1_0000_0000 else i, 4)
  }

  function ShortBytes(i: Int16): (s: seq<Byte>)
    ensures |s| == 2
  {
    Le(if i < 0 then i + 0x1_0000 else i, 2)
  }

  /** The value a signed variable takes when the bytes are stored in it. */
  function Signed(v: int, width: int): int { if 2 * v >= width then v - width else v }

  function SignedInt(s: seq<Byte>): Int32
    requires |s| == 4
  {
    FromLeBound(s);
    Pow256s();
    Signed(FromLe(s), 0x1_0000_0000)
  }

  function Unsigned(s: seq<Byte>): UInt32
    requires |s| == 4
  {
    FromLeBound(s);
    Pow256s();
    FromLe(s)
  }

  function SignedShort(s: seq<Byte>): Int16
    requires |s| == 2
  {
    FromLeBound(s);
    Pow256s();
    Signed(FromLe(s), 0x1_0000)
  }

  lemma IntRoundTrip(i: Int32)
    ensures SignedInt(IntBytes(i)) == i
  {
    Pow256s();
    LeRoundTrip(if i < 0 then i + 0x1_0000_0000 else i, 4);
  }

  lemma ShortRoundTrip(i: Int16)
    ensures SignedShort(ShortBytes(i)) == i
  {
    Pow256s();
    LeRoundTrip(if i < 0 then i + 0x1_0000 else i, 2);
  }

  lemma UIntRoundTrip(i: UInt32)
    ensures Unsigned(Le(i, 4)) == i
  {
    Pow256s();
    LeRoundTrip(i, 4);
  }

  // ----- cells

  /** One call of a typed writer. */
  datatype Cell =
    | IntCell(i: Int32)
    | UIntCell(u: UInt32)
    | ShortCell(s: Int16)
    | CharCell(c: Byte)
    | BoolCell(b: bool)
    | CharsCell(cs: Chars)
    | StringCell(t: Text)

  /** The runs of bytes the writer hands to the encrypting write, each encrypted on its own. */
  function CellBytes(c: Cell): seq<Byte> {
    match c
    case IntCell(i) => Crypt(IntBytes(i))
    case UIntCell(u) => Crypt(Le(u, 4))
    case ShortCell(s) => Crypt(ShortBytes(s))
    case CharCell(c) => Crypt([c])
    case BoolCell(b) => Crypt([if b then 1 else 0])
    case CharsCell(cs) => Crypt(IntBytes(|cs|)) + Crypt(cs)
    case StringCell(t) =>
      var s := BufferOf(t);
      Crypt(IntBytes(|s|)) + (Crypt(IntBytes(|s|)) + Crypt(s))
  }

  function Enc(cs: seq<Cell>): seq<Byte> { if cs == [] then [] else CellBytes(cs[0]) + Enc(cs[1..]) }

  lemma {:induction false} EncMore(cs: seq<Cell>, c: Cell)
    ensures Enc(cs + [c]) == Enc(cs) + CellBytes(c)
  {
    hide CellBytes;
    if cs == [] {
      assert Enc([c]) == CellBytes(c) + Enc([]);
    } else {
      assert (cs + [c])[1..] == cs[1..] + [c];
      EncMore(cs[1..], c);
    }
  }

  // ----- writing

  /** A file being written: its bytes, how many more the disk takes, and whether a write has failed. */
  datatype Out = Out(bytes: seq<Byte>, room: nat, failed: bool)

  /** Writing a run of bytes: nothing after a failure; a run that does not fit is cut off and fails. */
  function Put(o: Out, s: seq<Byte>): Out {
    if o.failed then o
    else if |s| <= o.room then Out(o.bytes + s, o.room - |s|, false)
    else Out(o.bytes + s[..o.room], 0, true)
  }

  /** Two writes in a row are one write of both, failures included. */
  lemma PutTwice(o: Out, a: seq<Byte>, b: seq<Byte>)
    ensures Put(Put(o, a), b) == Put(o, a + b)
  {
    if !o.failed && |a| <= o.room {
      if |b| <= o.room - |a| {
        assert o.bytes + a + b == o.bytes + (a + b);
      } else {
        assert o.bytes + a + b[..o.room - |a|] == o.bytes + (a + b)[..o.room];
      }
    } else if !o.failed {
      assert (a + b)[..o.room] == a[..o.room];
    }
  }

  class SaveFile {
    const capacity: nat
    var out: Out
    ghost var log: seq<Cell>

    /** The file is what a disk of this capacity holds of everything that was to be written. */
    ghost predicate Valid()
      reads this
    {
      out == Put(Out([], capacity, false), Enc(log))
    }

    constructor (room: nat)
      ensures Valid() && capacity == room && log == []
    {
      capacity, out, log := room, Out([], room, false), [];
    }

    /** One character; a full disk refuses it. */
    method PutC(c: Byte) returns (ok: bool)
      requires !out.failed
      modifies this`out
      ensures ok == (old(out).room != 0)
      ensures out == if ok then Put(old(out), [c]) else old(out)
    {
      ok := out.room != 0;
      if ok {
        out := Out(out.bytes + [c], out.room - 1, false);
      }
    }

    /** The encrypting write: byte by byte until the disk is full. */
    method EncWrite(s: seq<Byte>) returns (n: nat)
      requires !out.failed
      modifies this`out
      ensures n == if |s| <= old(out).room then |s| else old(out).room
      ensures out == Put(old(out), Crypt(s)[..n])
    {
      hide CryptFrom, Xor;
      var p := START;
      n := 0;
      ghost var done: seq<Byte> := [];
      while n < |s|
        invariant 0 <= n <= |s| && |done| == n <= old(out).room && p.Valid()
        invariant done + CryptFrom(s[n..], p) == Crypt(s)
        invariant out == Put(old(out), done)
      {
        assert done == Crypt(s)[..n];
        CryptStep(done, s, n, p, Crypt(s));
        var ok := PutC(Xor(s[n], p.KeyByte()));
        if !ok {
          break;
        }
        PutTwice(old(out), done, [Xor(s[n], p.KeyByte())]);
        done := done + [Xor(s[n], p.KeyByte())];
        p := p.Next();
        n := n + 1;
      }
      assert done == Crypt(s)[..n];
    }

    /** The write every typed writer uses: a short one marks the file as failed for good. */
    method RsWrite(s: seq<Byte>)
      modifies this`out
      ensures out == Put(old(out), Crypt(s))
    {
      if out.failed {
        return;
      }
      var n := EncWrite(s);
      if n != |s| {
        out := out.(failed := true);
      } else {
        assert Crypt(s)[..n] == Crypt(s);
      }
    }

    method WriteIntBytes(c: Int32)
      modifies this`out
      ensures out == Put(old(out), Crypt(IntBytes(c)))
    {
      if out.failed {
        return;
      }
      RsWrite(IntBytes(c));
    }

    method WriteCharsBytes(cs: Chars)
      modifies this`out
      ensures out == Put(old(out), Crypt(IntBytes(|cs|)) + Crypt(cs))
    {
      if out.failed {
        return;
      }
      WriteIntBytes(|cs|);
      RsWrite(cs);
      PutTwice(old(out), Crypt(IntBytes(|cs|)), Crypt(cs));
    }

    /** Notes in the log what has just been written. */
    ghost method Logged(o: Out, c: Cell)
      requires o == Put(Out([], capacity, false), Enc(log)) && out == Put(o, CellBytes(c))
      modifies this`log
      ensures Valid() && log == old(log) + [c]
    {
      PutTwice(Out([], capacity, false), Enc(log), CellBytes(c));
      EncMore(log, c);
      log := log + [c];
    }

    method RsWriteInt(c: Int32)
      requires Valid()
      modifies this`out, this`log
      ensures Valid() && log == old(log) + [IntCell(c)]
    {
      WriteIntBytes(c);
      Logged(old(out), IntCell(c));
    }

    method RsWriteMarker(id: Int32)
      requires Valid()
      modifies this`out, this`log
      ensures Valid() && log == old(log) + [IntCell(id)]
    {
      RsWriteInt(id);
    }

    method RsWriteUInt(c: UInt32)
      requires Valid()
      modifies this`out, this`log
      ensures Valid() && log == old(log) + [UIntCell(c)]
    {
      hide Crypt, Enc, Put;
      RsWrite(Le(c, 4));
      Logged(old(out), UIntCell(c));
    }

    method RsWriteShort(c: Int16)
      requires Valid()
      modifies this`out, this`log
      ensures Valid() && log == old(log) + [ShortCell(c)]
    {
      hide Crypt, Enc, Put;
      RsWrite(ShortBytes(c));
      Logged(old(out), ShortCell(c));
    }

    method RsWriteChar(c: Byte)
      requires Valid()
      modifies this`out, this`log
      ensures Valid() && log == old(log) + [CharCell(c)]
    {
      hide Crypt, Enc, Put;
      RsWrite([c]);
      Logged(old(out), CharCell(c));
    }

    method RsWriteBoolean(b: bool)
      requires Valid()
      modifies this`out, this`log
      ensures Valid() && log == old(log) + [BoolCell(b)]
    {
      hide Crypt, Enc, Put;
      RsWrite([if b then 1 else 0]);
      Logged(old(out), BoolCell(b));
    }

    method RsWriteChars(cs: Chars)
      requires Valid()
      modifies this`out, this`log
      ensures Valid() && log == old(log) + [CharsCell(cs)]
    {
      hide Crypt, Enc, Put;
      WriteCharsBytes(cs);
      Logged(old(out), CharsCell(cs));
    }

    /** A string goes out with its length twice over: once for itself, once with its characters. */
    method RsWriteString(t: Text)
      requires Valid()
      modifies this`out, this`log
      ensures Valid() && log == old(log) + [StringCell(t)]
    {
      hide IntBytes, Crypt, Enc, BufferOf;
      if out.failed {
        Logged(old(out), StringCell(t));
        return;
      }
      var cs := BufferOf(t);
      WriteIntBytes(|cs|);
      WriteIntBytes(|cs|);
      RsWrite(cs);
      PutTwice(Put(old(out), Crypt(IntBytes(|cs|))), Crypt(IntBytes(|cs|)), Crypt(cs));
      PutTwice(old(out), Crypt(IntBytes(|cs|)), Crypt(IntBytes(|cs|)) + Crypt(cs));
      Logged(old(out), StringCell(t));
    }
  }

  // ----- reading

  /** A file being read: what is left of it, and the two error flags. */
  datatype In = In(rest: seq<Byte>, readError: bool, formatError: bool) {
    predicate Failed() { readError || formatError }
  }

  class LoadFile {
    var state: In
    /** What the file was written from, for as long as reading keeps in step with it. */
    ghost const script: seq<Cell>
    ghost var at: nat

    constructor (bytes: seq<Byte>, ghost cells: seq<Cell>)
      ensures state == In(bytes, false, false) && script == cells && at == 0
    {
      state, script, at := In(bytes, false, false), cells, 0;
    }

    /** Nothing has failed, and the rest of the file is the rest of the script. */
    ghost predicate OnTrack()
      reads this
    {
      !state.Failed() && at <= |script| && state.rest == Enc(script[at..])
    }

    /** Reading is in step, and the given cells come next. */
    ghost predicate Upcoming(cs: seq<Cell>)
      reads this
    {
      OnTrack() && at + |cs| <= |script| && script[at..at + |cs|] == cs
    }

    /** The decrypting read: as much as there is, up to size bytes. */
    method EncRead(size: nat) returns (s: seq<Byte>)
      modifies this`state
      ensures var n := if size <= |old(state).rest| then size else |old(state).rest|;
        s == Crypt(old(state).rest[..n]) && state == old(state).(rest := old(state).rest[n..])
    {
      var n := if size <= |state.rest| then size else |state.rest|;
      s := Decrypt(state.rest[..n]);
      state := state.(rest := state.rest[n..]);
    }

    /** The read every typed reader uses: nothing after an error; a short read is one. */
    method RsRead(size: nat) returns (s: seq<Byte>)
      modifies this`state
      ensures old(state).Failed() ==> state == old(state)
      ensures !old(state).Failed() && size <= |old(state).rest|
        ==> s == Crypt(old(state).rest[..size]) && state == old(state).(rest := old(state).rest[size..])
      ensures !old(state).Failed() && size > |old(state).rest| ==> state.readError && state.rest == []
    {
      s := [];
      if state.Failed() {
        return;
      }
      s := EncRead(size);
      if |s| != size {
        assert state.rest == [];
        state := state.(readError := true);
      }
    }

    /** Reading is in step and there is more to come. */
    ghost predicate Due()
      reads this
    {
      OnTrack() && at < |script|
    }

    /** What is left of the file after the cell that is due. */
    ghost function After(): seq<Byte>
      reads this
    {
      if at < |script| then Enc(script[at + 1..]) else []
    }

    lemma DueBytes()
      requires Due()
      ensures state.rest == CellBytes(script[at]) + After()
    {
      assert script[at..][1..] == script[at + 1..];
    }

    lemma DueChars(cs: Chars)
      requires Due() && script[at] == CharsCell(cs)
      ensures state.rest == Crypt(IntBytes(|cs|)) + (Crypt(cs) + After())
    {
      hide Crypt, IntBytes, Enc, OnTrack;
      DueBytes();
    }

    lemma DueString(cs: Chars)
      requires Due() && script[at].StringCell?
      requires cs == BufferOf(script[at].t)
      ensures state.rest == Crypt(IntBytes(|cs|)) + (Crypt(IntBytes(|cs|)) + (Crypt(cs) + After()))
    {
      hide Crypt, IntBytes, Enc, OnTrack;
      DueBytes();
    }

    /** One run of bytes that was written on its own. */
    method ReadRun(size: nat, ghost run: seq<Byte>, ghost after: seq<Byte>) returns (s: seq<Byte>)
      modifies this`state
      ensures old(state).Failed() ==> state == old(state)
      ensures !old(state).Failed() && |run| == size && old(state).rest == Crypt(run) + after
        ==> s == run && state == old(state).(rest := after)
      ensures |s| != size ==> state.Failed()
    {
      hide Crypt;
      s := RsRead(size);
      if !old(state).Failed() && |run| == size && old(state).rest == Crypt(run) + after {
        assert old(state).rest[..size] == Crypt(run) && old(state).rest[size..] == after;
        CryptTwice(run);
      }
    }

    method ReadIntBytes(ghost i: Int32, ghost after: seq<Byte>) returns (v: Int32)
      modifies this`state
      ensures old(state).Failed() ==> state == old(state)
      ensures !old(state).Failed() && old(state).rest == Crypt(IntBytes(i)) + after
        ==> v == i && state == old(state).(rest := after)
    {
      v := 0;
      if state.Failed() {
        return;
      }
      var s := ReadRun(4, IntBytes(i), after);
      if |s| == 4 {
        v := SignedInt(s);
      }
      IntRoundTrip(i);
    }

    method RsReadInt() returns (v: Int32)
      modifies this`state, this`at
      ensures old(state).Failed() ==> state.Failed()
      ensures old(Due()) && script[old(at)].IntCell? ==> v == script[old(at)].i && OnTrack() && at == old(at) + 1
    {
      ghost var due := Due() && script[at].IntCell?;
      if due {
        DueBytes();
      }
      v := ReadIntBytes(if due then script[at].i else 0, After());
      if due {
        at := at + 1;
      }
    }

    /** A marker other than the expected one is a format error. */
    method RsReadMarker(id: Int32)
      modifies this`state, this`at
      ensures old(state).Failed() ==> state.Failed()
      ensures old(Due()) && script[old(at)] == IntCell(id) ==> OnTrack() && at == old(at) + 1
      ensures old(Due()) && script[old(at)].IntCell? && script[old(at)].i != id ==> state.formatError
    {
      if state.Failed() {
        return;
      }
      var nid := RsReadInt();
      if !state.Failed() && nid != id {
        state := state.(formatError := true);
      }
    }

    method RsReadUInt() returns (v: UInt32)
      modifies this`state, this`at
      ensures old(state).Failed() ==> state.Failed()
      ensures old(Due()) && script[old(at)].UIntCell? ==> v == script[old(at)].u && OnTrack() && at == old(at) + 1
    {
      ghost var due := Due() && script[at].UIntCell?;
      ghost var u := if due then script[at].u else 0;
      if due {
        DueBytes();
        UIntRoundTrip(u);
      }
      hide Le, Crypt;
      v := 0;
      var s := ReadRun(4, Le(u, 4), After());
      if |s| == 4 {
        v := Unsigned(s);
      }
      if due {
        at := at + 1;
      }
    }

    method RsReadShort() returns (v: Int16)
      modifies this`state, this`at
      ensures old(state).Failed() ==> state.Failed()
      ensures old(Due()) && script[old(at)].ShortCell? ==> v == script[old(at)].s && OnTrack() && at == old(at) + 1
    {
      hide ShortBytes, Crypt;
      ghost var due := Due() && script[at].ShortCell?;
      ghost var i := if due then script[at].s else 0;
      if due {
        DueBytes();
        ShortRoundTrip(i);
      }
      v := 0;
      var s := ReadRun(2, ShortBytes(i), After());
      if |s| == 2 {
        v := SignedShort(s);
      }
      if due {
        at := at + 1;
      }
    }

    method RsReadChar() returns (c: Byte)
      modifies this`state, this`at
      ensures old(state).Failed() ==> state.Failed()
      ensures old(Due()) && script[old(at)].CharCell? ==> c == script[old(at)].c && OnTrack() && at == old(at) + 1
    {
      hide Enc, Crypt;
      ghost var due := Due() && script[at].CharCell?;
      if due {
        DueBytes();
      }
      c := 0;
      var s := ReadRun(1, [if due then script[at].c else 0], After());
      if |s| == 1 {
        c := s[0];
      }
      if due {
        at := at + 1;
      }
    }

    method RsReadBoolean() returns (b: bool)
      modifies this`state, this`at
      ensures old(state).Failed() ==> state.Failed()
      ensures old(Due()) && script[old(at)].BoolCell? ==> b == script[old(at)].b && OnTrack() && at == old(at) + 1
    {
      hide Enc, Crypt;
      ghost var due := Due() && script[at].BoolCell?;
      if due {
        DueBytes();
      }
      ghost var byte: Byte := if due && script[at].b then 1 else 0;
      var s := ReadRun(1, [byte], After());
      b := |s| == 1 && s[0] != 0;
      if due {
        at := at + 1;
      }
    }

    method ReadCharsBytes(count: int, ghost cs: Chars, ghost after: seq<Byte>) returns (s: seq<Byte>)
      modifies this`state
      ensures old(state).Failed() ==> state == old(state)
      ensures !old(state).Failed() && old(state).rest == Crypt(IntBytes(|cs|)) + (Crypt(cs) + after)
        ==> if |cs| == count then s == cs && state == old(state).(rest := after) else state.formatError
    {
      hide Crypt, IntBytes;
      s := [];
      if state.Failed() {
        return;
      }
      var value := ReadIntBytes(|cs|, Crypt(cs) + after);
      if value != count {
        state := state.(formatError := true);
      }
      if 0 <= count {
        s := ReadRun(count, cs, after);
      }
    }

    /** A count other than the expected one is a format error. */
    method RsReadChars(count: nat) returns (s: seq<Byte>)
      modifies this`state, this`at
      ensures old(state).Failed() ==> state.Failed()
      ensures old(Due()) && script[old(at)].CharsCell? ==>
        if |script[old(at)].cs| == count then s == script[old(at)].cs && OnTrack() && at == old(at) + 1
        else state.formatError
    {
      ghost var due := Due() && script[at].CharsCell?;
      ghost var cs: Chars := if due then script[at].cs else [];
      hide Crypt, IntBytes, Enc, CellBytes;
      if due {
        DueChars(cs);
      }
      s := ReadCharsBytes(count, cs, After());
      if due && |cs| == count {
        at := at + 1;
      }
    }

    /** A string of length zero is none at all; a length no memory can be had for is a read error. */
    method RsReadNewString() returns (t: Text)
      modifies this`state, this`at
      ensures old(state).Failed() ==> state.Failed()
      ensures old(Due()) && script[old(at)].StringCell? ==> t == script[old(at)].t && OnTrack() && at == old(at) + 1
    {
      ghost var due := Due() && script[at].StringCell?;
      ghost var cs: Chars := if due then BufferOf(script[at].t) else [];
      hide Crypt, IntBytes, Enc, CellBytes, BufferOf, TextOf;
      if due {
        DueString(cs);
      }
      t := NoText;
      if state.Failed() {
        return;
      }
      var len := ReadIntBytes(|cs|, Crypt(IntBytes(|cs|)) + (Crypt(cs) + After()));
      if len < 0 {
        state := state.(readError := true);
      }
      var buf := ReadCharsBytes(len, cs, After());
      t := TextOf(len, buf);
      if due {
        TextRoundTrip(script[at].t);
        at := at + 1;
      }
    }
  }
}
