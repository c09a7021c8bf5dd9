/** The cipher's constant tables, and what the tables compiled from them at start-up compute. */
module DesTables {
  import opened DesBits

  /** Initial permutation: output bit i is input bit IpEntry(i), counting from 1. */
  function IpEntry(i: nat): (v: int) {
    match i
    case 0 => 58 case 1 => 50 case 2 => 42 case 3 => 34 case 4 => 26 case 5 => 18 case 6 => 10 case 7 => 2
    case 8 => 60 case 9 => 52 case 10 => 44 case 11 => 36 case 12 => 28 case 13 => 20 case 14 => 12 case 15 => 4
    case 16 => 62 case 17 => 54 case 18 => 46 case 19 => 38 case 20 => 30 case 21 => 22 case 22 => 14 case 23 => 6
    case 24 => 64 case 25 => 56 case 26 => 48 case 27 => 40 case 28 => 32 case 29 => 24 case 30 => 16 case 31 => 8
    case 32 => 57 case 33 => 49 case 34 => 41 case 35 => 33 case 36 => 25 case 37 => 17 case 38 => 9 case 39 => 1
    case 40 => 59 case 41 => 51 case 42 => 43 case 43 => 35 case 44 => 27 case 45 => 19 case 46 => 11 case 47 => 3
    case 48 => 61 case 49 => 53 case 50 => 45 case 51 => 37 case 52 => 29 case 53 => 21 case 54 => 13 case 55 => 5
    case 56 => 63 case 57 => 55 case 58 => 47 case 59 => 39 case 60 => 31 case 61 => 23 case 62 => 15 case _ => 7
  }

  /** The standard's table for the inverse of the initial permutation. */
  function FpEntry(i: nat): (v: int) {
    match i
    case 0 => 40 case 1 => 8 case 2 => 48 case 3 => 16 case 4 => 56 case 5 => 24 case 6 => 64 case 7 => 32
    case 8 => 39 case 9 => 7 case 10 => 47 case 11 => 15 case 12 => 55 case 13 => 23 case 14 => 63 case 15 => 31
    case 16 => 38 case 17 => 6 case 18 => 46 case 19 => 14 case 20 => 54 case 21 => 22 case 22 => 62 case 23 => 30
    case 24 => 37 case 25 => 5 case 26 => 45 case 27 => 13 case 28 => 53 case 29 => 21 case 30 => 61 case 31 => 29
    case 32 => 36 case 33 => 4 case 34 => 44 case 35 => 12 case 36 => 52 case 37 => 20 case 38 => 60 case 39 => 28
    case 40 => 35 case 41 => 3 case 42 => 43 case 43 => 11 case 44 => 51 case 45 => 19 case 46 => 59 case 47 => 27
    case 48 => 34 case 49 => 2 case 50 => 42 case 51 => 10 case 52 => 50 case 53 => 18 case 54 => 58 case 55 => 26
    case 56 => 33 case 57 => 1 case 58 => 41 case 59 => 9 case 60 => 49 case 61 => 17 case 62 => 57 case _ => 25
  }

  /** Key permutation: which of the 64 key bits goes to bit i of the 56 that are used. */
  function KeyEntry(i: nat): (v: int) {
    match i
    case 0 => 57 case 1 => 49 case 2 => 41 case 3 => 33 case 4 => 25 case 5 => 17 case 6 => 9 case 7 => 1
    case 8 => 58 case 9 => 50 case 10 => 42 case 11 => 34 case 12 => 26 case 13 => 18 case 14 => 10 case 15 => 2
    case 16 => 59 case 17 => 51 case 18 => 43 case 19 => 35 case 20 => 27 case 21 => 19 case 22 => 11 case 23 => 3
    case 24 => 60 case 25 => 52 case 26 => 44 case 27 => 36 case 28 => 63 case 29 => 55 case 30 => 47 case 31 => 39
    case 32 => 31 case 33 => 23 case 34 => 15 case 35 => 7 case 36 => 62 case 37 => 54 case 38 => 46 case 39 => 38
    case 40 => 30 case 41 => 22 case 42 => 14 case 43 => 6 case 44 => 61 case 45 => 53 case 46 => 45 case 47 => 37
    case 48 => 29 case 49 => 21 case 50 => 13 case 51 => 5 case 52 => 28 case 53 => 20 case 54 => 12 case _ => 4
  }

  /** Key compression: which of the 56 rotated bits goes to bit i of a 48-bit round key. */
  function CompEntry(i: nat): (v: int) {
    match i
    case 0 => 14 case 1 => 17 case 2 => 11 case 3 => 24 case 4 => 1 case 5 => 5 case 6 => 3 case 7 => 28
    case 8 => 15 case 9 => 6 case 10 => 21 case 11 => 10 case 12 => 23 case 13 => 19 case 14 => 12 case 15 => 4
    case 16 => 26 case 17 => 8 case 18 => 16 case 19 => 7 case 20 => 27 case 21 => 20 case 22 => 13 case 23 => 2
    case 24 => 41 case 25 => 52 case 26 => 31 case 27 => 37 case 28 => 47 case 29 => 55 case 30 => 30 case 31 => 40
    case 32 => 51 case 33 => 45 case 34 => 33 case 35 => 48 case 36 => 44 case 37 => 49 case 38 => 39 case 39 => 56
    case 40 => 34 case 41 => 53 case 42 => 46 case 43 => 42 case 44 => 50 case 45 => 36 case 46 => 29 case _ => 32
  }

  /** P-box: output bit i is S-box output bit PboxEntry(i), counting from 1. */
  function PboxEntry(i: nat): (v: int) {
    match i
    case 0 => 16 case 1 => 7 case 2 => 20 case 3 => 21 case 4 => 29 case 5 => 12 case 6 => 28 case 7 => 17
    case 8 => 1 case 9 => 15 case 10 => 23 case 11 => 26 case 12 => 5 case 13 => 18 case 14 => 31 case 15 => 10
    case 16 => 2 case 17 => 8 case 18 => 24 case 19 => 14 case 20 => 32 case 21 => 27 case 22 => 3 case 23 => 9
    case 24 => 19 case 25 => 13 case 26 => 30 case 27 => 6 case 28 => 22 case 29 => 11 case 30 => 4 case _ => 25
  }

  function Ip(): seq<int> { seq(64, i requires 0 <= i < 64 => IpEntry(i)) }

  function KeyPerm(): seq<int> { seq(56, i requires 0 <= i < 56 => KeyEntry(i)) }

  function CompPerm(): seq<int> { seq(48, i requires 0 <= i < 48 => CompEntry(i)) }

  function Pbox(): seq<int> { seq(32, i requires 0 <= i < 32 => PboxEntry(i)) }

  /** How far round i rotates the key halves. */
  function KeyShift(i: nat): nat { if i == 0 || i == 1 || i == 8 || i == 15 then 1 else 2 }

  /** S-box values have four bits. */
  type Nibble = n: int | 0 <= n < 16

  function S1(row: nat, column: nat): Nibble {
    match row
    case 0 => (
      match column
      case 0 => 14 case 1 => 4 case 2 => 13 case 3 => 1 case 4 => 2 case 5 => 15 case 6 => 11 case 7 => 8
      case 8 => 3 case 9 => 10 case 10 => 6 case 11 => 12 case 12 => 5 case 13 => 9 case 14 => 0 case _ => 7)
    case 1 => (
      match column
      case 0 => 0 case 1 => 15 case 2 => 7 case 3 => 4 case 4 => 14 case 5 => 2 case 6 => 13 case 7 => 1
      case 8 => 10 case 9 => 6 case 10 => 12 case 11 => 11 case 12 => 9 case 13 => 5 case 14 => 3 case _ => 8)
    case 2 => (
      match column
      case 0 => 4 case 1 => 1 case 2 => 14 case 3 => 8 case 4 => 13 case 5 => 6 case 6 => 2 case 7 => 11
      case 8 => 15 case 9 => 12 case 10 => 9 case 11 => 7 case 12 => 3 case 13 => 10 case 14 => 5 case _ => 0)
    case _ => (
      match column
      case 0 => 15 case 1 => 12 case 2 => 8 case 3 => 2 case 4 => 4 case 5 => 9 case 6 => 1 case 7 => 7
      case 8 => 5 case 9 => 11 case 10 => 3 case 11 => 14 case 12 => 10 case 13 => 0 case 14 => 6 case _ => 13)
  }

  function S2(row: nat, column: nat): Nibble {
    match row
    case 0 => (
      match column
      case 0 => 15 case 1 => 1 case 2 => 8 case 3 => 14 case 4 => 6 case 5 => 11 case 6 => 3 case 7 => 4
      case 8 => 9 case 9 => 7 case 10 => 2 case 11 => 13 case 12 => 12 case 13 => 0 case 14 => 5 case _ => 10)
    case 1 => (
      match column
      case 0 => 3 case 1 => 13 case 2 => 4 case 3 => 7 case 4 => 15 case 5 => 2 case 6 => 8 case 7 => 14
      case 8 => 12 case 9 => 0 case 10 => 1 case 11 => 10 case 12 => 6 case 13 => 9 case 14 => 11 case _ => 5)
    case 2 => (
      match column
      case 0 => 0 case 1 => 14 case 2 => 7 case 3 => 11 case 4 => 10 case 5 => 4 case 6 => 13 case 7 => 1
      case 8 => 5 case 9 => 8 case 10 => 12 case 11 => 6 case 12 => 9 case 13 => 3 case 14 => 2 case _ => 15)
    case _ => (
      match column
      case 0 => 13 case 1 => 8 case 2 => 10 case 3 => 1 case 4 => 3 case 5 => 15 case 6 => 4 case 7 => 2
      case 8 => 11 case 9 => 6 case 10 => 7 case 11 => 12 case 12 => 0 case 13 => 5 case 14 => 14 case _ => 9)
  }

  function S3(row: nat, column: nat): Nibble {
    match row
    case 0 => (
      match column
      case 0 => 10 case 1 => 0 case 2 => 9 case 3 => 14 case 4 => 6 case 5 => 3 case 6 => 15 case 7 => 5
      case 8 => 1 case 9 => 13 case 10 => 12 case 11 => 7 case 12 => 11 case 13 => 4 case 14 => 2 case _ => 8)
    case 1 => (
      match column
      case 0 => 13 case 1 => 7 case 2 => 0 case 3 => 9 case 4 => 3 case 5 => 4 case 6 => 6 case 7 => 10
      case 8 => 2 case 9 => 8 case 10 => 5 case 11 => 14 case 12 => 12 case 13 => 11 case 14 => 15 case _ => 1)
    case 2 => (
      match column
      case 0 => 13 case 1 => 6 case 2 => 4 case 3 => 9 case 4 => 8 case 5 => 15 case 6 => 3 case 7 => 0
      case 8 => 11 case 9 => 1 case 10 => 2 case 11 => 12 case 12 => 5 case 13 => 10 case 14 => 14 case _ => 7)
    case _ => (
      match column
      case 0 => 1 case 1 => 10 case 2 => 13 case 3 => 0 case 4 => 6 case 5 => 9 case 6 => 8 case 7 => 7
      case 8 => 4 case 9 => 15 case 10 => 14 case 11 => 3 case 12 => 11 case 13 => 5 case 14 => 2 case _ => 12)
  }

  function S4(row: nat, column: nat): Nibble {
    match row
    case 0 => (
      match column
      case 0 => 7 case 1 => 13 case 2 => 14 case 3 => 3 case 4 => 0 case 5 => 6 case 6 => 9 case 7 => 10
      case 8 => 1 case 9 => 2 case 10 => 8 case 11 => 5 case 12 => 11 case 13 => 12 case 14 => 4 case _ => 15)
    case 1 => (
      match column
      case 0 => 13 case 1 => 8 case 2 => 11 case 3 => 5 case 4 => 6 case 5 => 15 case 6 => 0 case 7 => 3
      case 8 => 4 case 9 => 7 case 10 => 2 case 11 => 12 case 12 => 1 case 13 => 10 case 14 => 14 case _ => 9)
    case 2 => (
      match column
      case 0 => 10 case 1 => 6 case 2 => 9 case 3 => 0 case 4 => 12 case 5 => 11 case 6 => 7 case 7 => 13
      case 8 => 15 case 9 => 1 case 10 => 3 case 11 => 14 case 12 => 5 case 13 => 2 case 14 => 8 case _ => 4)
    case _ => (
      match column
      case 0 => 3 case 1 => 15 case 2 => 0 case 3 => 6 case 4 => 10 case 5 => 1 case 6 => 13 case 7 => 8
      case 8 => 9 case 9 => 4 case 10 => 5 case 11 => 11 case 12 => 12 case 13 => 7 case 14 => 2 case _ => 14)
  }

  function S5(row: nat, column: nat): Nibble {
    match row
    case 0 => (
      match column
      case 0 => 2 case 1 => 12 case 2 => 4 case 3 => 1 case 4 => 7 case 5 => 10 case 6 => 11 case 7 => 6
      case 8 => 8 case 9 => 5 case 10 => 3 case 11 => 15 case 12 => 13 case 13 => 0 case 14 => 14 case _ => 9)
    case 1 => (
      match column
      case 0 => 14 case 1 => 11 case 2 => 2 case 3 => 12 case 4 => 4 case 5 => 7 case 6 => 13 case 7 => 1
      case 8 => 5 case 9 => 0 case 10 => 15 case 11 => 10 case 12 => 3 case 13 => 9 case 14 => 8 case _ => 6)
    case 2 => (
      match column
      case 0 => 4 case 1 => 2 case 2 => 1 case 3 => 11 case 4 => 10 case 5 => 13 case 6 => 7 case 7 => 8
      case 8 => 15 case 9 => 9 case 10 => 12 case 11 => 5 case 12 => 6 case 13 => 3 case 14 => 0 case _ => 14)
    case _ => (
      match column
      case 0 => 11 case 1 => 8 case 2 => 12 case 3 => 7 case 4 => 1 case 5 => 14 case 6 => 2 case 7 => 13
      case 8 => 6 case 9 => 15 case 10 => 0 case 11 => 9 case 12 => 10 case 13 => 4 case 14 => 5 case _ => 3)
  }

  function S6(row: nat, column: nat): Nibble {
    match row
    case 0 => (
      match column
      case 0 => 12 case 1 => 1 case 2 => 10 case 3 => 15 case 4 => 9 case 5 => 2 case 6 => 6 case 7 => 8
      case 8 => 0 case 9 => 13 case 10 => 3 case 11 => 4 case 12 => 14 case 13 => 7 case 14 => 5 case _ => 11)
    case 1 => (
      match column
      case 0 => 10 case 1 => 15 case 2 => 4 case 3 => 2 case 4 => 7 case 5 => 12 case 6 => 9 case 7 => 5
      case 8 => 6 case 9 => 1 case 10 => 13 case 11 => 14 case 12 => 0 case 13 => 11 case 14 => 3 case _ => 8)
    case 2 => (
      match column
      case 0 => 9 case 1 => 14 case 2 => 15 case 3 => 5 case 4 => 2 case 5 => 8 case 6 => 12 case 7 => 3
      case 8 => 7 case 9 => 0 case 10 => 4 case 11 => 10 case 12 => 1 case 13 => 13 case 14 => 11 case _ => 6)
    case _ => (
      match column
      case 0 => 4 case 1 => 3 case 2 => 2 case 3 => 12 case 4 => 9 case 5 => 5 case 6 => 15 case 7 => 10
      case 8 => 11 case 9 => 14 case 10 => 1 case 11 => 7 case 12 => 6 case 13 => 0 case 14 => 8 case _ => 13)
  }

  function S7(row: nat, column: nat): Nibble {
    match row
    case 0 => (
      match column
      case 0 => 4 case 1 => 11 case 2 => 2 case 3 => 14 case 4 => 15 case 5 => 0 case 6 => 8 case 7 => 13
      case 8 => 3 case 9 => 12 case 10 => 9 case 11 => 7 case 12 => 5 case 13 => 10 case 14 => 6 case _ => 1)
    case 1 => (
      match column
      case 0 => 13 case 1 => 0 case 2 => 11 case 3 => 7 case 4 => 4 case 5 => 9 case 6 => 1 case 7 => 10
      case 8 => 14 case 9 => 3 case 10 => 5 case 11 => 12 case 12 => 2 case 13 => 15 case 14 => 8 case _ => 6)
    case 2 => (
      match column
      case 0 => 1 case 1 => 4 case 2 => 11 case 3 => 13 case 4 => 12 case 5 => 3 case 6 => 7 case 7 => 14
      case 8 => 10 case 9 => 15 case 10 => 6 case 11 => 8 case 12 => 0 case 13 => 5 case 14 => 9 case _ => 2)
    case _ => (
      match column
      case 0 => 6 case 1 => 11 case 2 => 13 case 3 => 8 case 4 => 1 case 5 => 4 case 6 => 10 case 7 => 7
      case 8 => 9 case 9 => 5 case 10 => 0 case 11 => 15 case 12 => 14 case 13 => 2 case 14 => 3 case _ => 12)
  }

  function S8(row: nat, column: nat): Nibble {
    match row
    case 0 => (
      match column
      case 0 => 13 case 1 => 2 case 2 => 8 case 3 => 4 case 4 => 6 case 5 => 15 case 6 => 11 case 7 => 1
      case 8 => 10 case 9 => 9 case 10 => 3 case 11 => 14 case 12 => 5 case 13 => 0 case 14 => 12 case _ => 7)
    case 1 => (
      match column
      case 0 => 1 case 1 => 15 case 2 => 13 case 3 => 8 case 4 => 10 case 5 => 3 case 6 => 7 case 7 => 4
      case 8 => 12 case 9 => 5 case 10 => 6 case 11 => 11 case 12 => 0 case 13 => 14 case 14 => 9 case _ => 2)
    case 2 => (
      match column
      case 0 => 7 case 1 => 11 case 2 => 4 case 3 => 1 case 4 => 9 case 5 => 12 case 6 => 14 case 7 => 2
      case 8 => 0 case 9 => 6 case 10 => 10 case 11 => 13 case 12 => 15 case 13 => 3 case 14 => 5 case _ => 8)
    case _ => (
      match column
      case 0 => 2 case 1 => 1 case 2 => 14 case 3 => 7 case 4 => 4 case 5 => 10 case 6 => 8 case 7 => 13
      case 8 => 15 case 9 => 12 case 10 => 9 case 11 => 0 case 12 => 3 case 13 => 5 case 14 => 6 case _ => 11)
  }

  /** The entry of an S-box in a row and a column. */
  function Cell(box: nat, row: nat, column: nat): Nibble
    requires box < 8
  {
    match box
    case 0 => S1(row, column) case 1 => S2(row, column) case 2 => S3(row, column) case 3 => S4(row, column)
    case 4 => S5(row, column) case 5 => S6(row, column) case 6 => S7(row, column) case _ => S8(row, column)
  }

  /** Entry i of an S-box, row after row. */
  function Box(box: nat, i: nat): (v: nat)
    requires box < 8 && i < 64
    ensures v < 16
  {
    Cell(box, i / 16, i % 16)
  }

  // ----- inverted permutations

  /** The table is a list of different numbers from 1 to size. */
  ghost predicate Places(p: seq<int>, size: nat) {
    && (forall i :: 0 <= i < |p| ==> 1 <= p[i] <= size)
    && (forall i, j :: 0 <= i < j < |p| ==> p[i] != p[j])
  }

  /** The inverse of the first n entries, with 255 in the places they do not mention. */
  function Inverted(p: seq<int>, size: nat, n: nat): (inv: seq<int>)
    requires n <= |p| && forall i :: 0 <= i < |p| ==> 1 <= p[i] <= size
    ensures |inv| == size
  {
    if n == 0 then seq(size, i => 255) else Inverted(p, size, n - 1)[p[n - 1] - 1 := n - 1]
  }

  /** The inverting loops of the start-up code. */
  method Invert(p: seq<int>, size: nat) returns (inv: seq<int>)
    requires forall i :: 0 <= i < |p| ==> 1 <= p[i] <= size
    ensures inv == Inverted(p, size, |p|)
  {
    inv := seq(size, i => 255);
    var i := 0;
    while i < |p|
      invariant 0 <= i <= |p| && inv == Inverted(p, size, i)
    {
      inv := inv[p[i] - 1 := i];
      i := i + 1;
    }
  }

  /** Inverting a table of different numbers really inverts it. */
  lemma {:induction false} InvertedInverts(p: seq<int>, size: nat, n: nat)
    requires Places(p, size) && n <= |p|
    ensures var inv := Inverted(p, size, n);
      && (forall i :: 0 <= i < n ==> inv[p[i] - 1] == i)
      && (forall v :: 0 <= v < size ==> inv[v] == 255 || (0 <= inv[v] < n && p[inv[v]] == v + 1))
    decreases n
  {
    if n != 0 {
      InvertedInverts(p, size, n - 1);
    }
  }

  lemma IpPlaces(i: nat, j: nat)
    requires i < j < 64
    ensures 1 <= IpEntry(i) <= 64 && 1 <= IpEntry(j) <= 64 && IpEntry(i) != IpEntry(j)
  {
  }

  lemma KeyPlaces(i: nat, j: nat)
    requires i < j < 56
    ensures 1 <= KeyEntry(i) <= 64 && 1 <= KeyEntry(j) <= 64 && KeyEntry(i) != KeyEntry(j)
  {
  }

  lemma CompPlaces(i: nat, j: nat)
    requires i < j < 48
    ensures 1 <= CompEntry(i) <= 56 && 1 <= CompEntry(j) <= 56 && CompEntry(i) != CompEntry(j)
  {
  }

  /** The tables hold different numbers of the right size. */
  lemma DataTables()
    ensures Places(Ip(), 64) && Places(Pbox(), 32)
  {
    forall i, j | 0 <= i < j < 64 ensures 1 <= Ip()[i] <= 64 && 1 <= Ip()[j] <= 64 && Ip()[i] != Ip()[j] {
      IpPlaces(i, j);
    }
  }

  lemma KeyTables()
    ensures Places(KeyPerm(), 64) && Places(CompPerm(), 56)
  {
    forall i, j | 0 <= i < j < 56
      ensures 1 <= KeyPerm()[i] <= 64 && 1 <= KeyPerm()[j] <= 64 && KeyPerm()[i] != KeyPerm()[j]
    {
      KeyPlaces(i, j);
    }
    forall i, j | 0 <= i < j < 48
      ensures 1 <= CompPerm()[i] <= 56 && 1 <= CompPerm()[j] <= 56 && CompPerm()[i] != CompPerm()[j]
    {
      CompPlaces(i, j);
    }
  }

  lemma FpInvertsLow(i: nat)
    requires i < 32
    ensures 1 <= FpEntry(i) <= 64 && IpEntry(FpEntry(i) - 1) == i + 1
  {
  }

  lemma FpInvertsHigh(i: nat)
    requires 32 <= i < 64
    ensures 1 <= FpEntry(i) <= 64 && IpEntry(FpEntry(i) - 1) == i + 1
  {
  }

  lemma FpInverts(i: nat)
    requires i < 64
    ensures 1 <= FpEntry(i) <= 64 && IpEntry(FpEntry(i) - 1) == i + 1
  {
    hide FpEntry, IpEntry;
    if i < 32 {
      FpInvertsLow(i);
    } else {
      FpInvertsHigh(i);
    }
  }

  // ----- OR-mask tables

  /** Which output positions a mask table is for, and at which bit of the word the first of them goes. */
  datatype Half = Half(lo: nat, hi: nat, at: nat) {
    predicate Valid() { lo <= hi && hi - lo + at <= 32 }
  }

  const LEFT32 := Half(0, 32, 0)
  const RIGHT32 := Half(32, 64, 0)
  const LEFT28 := Half(0, 28, 4)
  const RIGHT28 := Half(28, 56, 4)
  const LEFT24 := Half(0, 24, 8)
  const RIGHT24 := Half(24, 48, 8)

  /** The mask for one input bit that goes to output position v. */
  function OneMask(v: int, h: Half): Word
    requires h.Valid()
  {
    if h.lo <= v < h.hi then Bit32(v - h.lo + h.at) else Zero()
  }

  /** The masks of the first j bits that are set in the index i, OR-ed together; bit b goes where perm[from + b] says. */
  function OrMask(perm: seq<int>, from: nat, w: nat, i: nat, h: Half, j: nat): Word
    requires h.Valid() && j <= w && from + w <= |perm|
  {
    if j == 0 then Zero()
    else if IndexBit(i, w, j - 1) then Or(OrMask(perm, from, w, i, h, j - 1), OneMask(perm[from + j - 1], h))
    else OrMask(perm, from, w, i, h, j - 1)
  }

  /** The table row for one group of w input bits: one entry for every value of the group. */
  function MaskRow(perm: seq<int>, from: nat, w: nat, h: Half): (row: seq<Word>)
    requires h.Valid() && from + w <= |perm|
    ensures |row| == Pow2(w)
  {
    seq(Pow2(w), i requires 0 <= i < Pow2(w) => OrMask(perm, from, w, i, h, w))
  }

  /** The permutation is long enough for all the groups. */
  predicate Covers(perm: seq<int>, groups: nat, stride: nat, w: nat) {
    forall k :: 0 <= k < groups ==> k * stride + w <= |perm|
  }

  /** A whole table: one row for each group of w input bits, the groups `stride` bits apart. */
  function Masks(perm: seq<int>, groups: nat, stride: nat, w: nat, h: Half): (t: seq<seq<Word>>)
    requires h.Valid() && Covers(perm, groups, stride, w)
    ensures |t| == groups
  {
    seq(groups, k requires 0 <= k < groups => MaskRow(perm, k * stride, w, h))
  }

  /** The innermost loop of the start-up code: one table entry. */
  method BuildMask(perm: seq<int>, from: nat, w: nat, i: nat, h: Half) returns (m: Word)
    requires h.Valid() && from + w <= |perm|
    ensures m == OrMask(perm, from, w, i, h, w)
  {
    m := Zero();
    var j := 0;
    while j < w
      invariant 0 <= j <= w && m == OrMask(perm, from, w, i, h, j)
    {
      if IndexBit(i, w, j) {
        m := Or(m, OneMask(perm[from + j], h));
      }
      j := j + 1;
    }
  }

  /** The loops around it: one table. */
  method BuildMasks(perm: seq<int>, groups: nat, stride: nat, w: nat, h: Half) returns (t: seq<seq<Word>>)
    requires h.Valid() && Covers(perm, groups, stride, w)
    ensures t == Masks(perm, groups, stride, w, h)
  {
    t := [];
    var k := 0;
    while k < groups
      invariant 0 <= k <= groups && |t| == k
      invariant forall x :: 0 <= x < k ==> t[x] == MaskRow(perm, x * stride, w, h)
    {
      var row: seq<Word> := [];
      var i := 0;
      while i < Pow2(w)
        invariant 0 <= i <= Pow2(w) && |row| == i
        invariant row == MaskRow(perm, k * stride, w, h)[..i]
      {
        var m := BuildMask(perm, k * stride, w, i, h);
        row := row + [m];
        i := i + 1;
      }
      t := t + [row];
      k := k + 1;
    }
  }

  /** Position n of perm is the one place that feeds bit o of the word a table is for. */
  ghost predicate Feeds(perm: seq<int>, n: nat, h: Half, o: nat) {
    && h.Valid() && n < |perm| && h.lo <= perm[n] < h.hi && o == perm[n] - h.lo + h.at
    && forall m :: 0 <= m < |perm| && perm[m] == perm[n] ==> m == n
  }

  /** An entry has bit o set exactly when the index has the bit set that feeds it. */
  lemma {:induction false} MaskBit(perm: seq<int>, from: nat, w: nat, i: nat, h: Half, j: nat, n: nat, o: nat)
    requires Feeds(perm, n, h, o) && j <= w && from + w <= |perm| && o < 32
    ensures OrMask(perm, from, w, i, h, j)[o] <==> from <= n < from + j && IndexBit(i, w, n - from)
    decreases j
  {
    if j != 0 {
      MaskBit(perm, from, w, i, h, j - 1, n, o);
    }
  }

  /** A bit that is fed by nothing stays clear. */
  lemma {:induction false} UnfedBit(perm: seq<int>, from: nat, w: nat, i: nat, h: Half, j: nat, o: nat)
    requires h.Valid() && j <= w && from + w <= |perm| && o < h.at <= 32
    ensures !OrMask(perm, from, w, i, h, j)[o]
    decreases j
  {
    if j != 0 {
      UnfedBit(perm, from, w, i, h, j - 1, o);
    }
  }

  /** The entry of a row that a group of bits selects. */
  function Lookup(row: seq<Word>, bits: seq<bool>): Word
    requires |row| == Pow2(|bits|)
  {
    ValueBound(bits);
    row[Value(bits)]
  }

  lemma LookupBit(perm: seq<int>, from: nat, bits: seq<bool>, h: Half, n: nat, o: nat)
    requires Feeds(perm, n, h, o) && o < 32 && from + |bits| <= |perm|
    ensures Lookup(MaskRow(perm, from, |bits|, h), bits)[o] <==> from <= n < from + |bits| && bits[n - from]
  {
    ValueBound(bits);
    MaskBit(perm, from, |bits|, Value(bits), h, |bits|, n, o);
    if from <= n < from + |bits| {
      IndexBitOfValue(bits, n - from);
    }
  }

  lemma LookupUnfed(perm: seq<int>, from: nat, bits: seq<bool>, h: Half, o: nat)
    requires h.Valid() && o < h.at && from + |bits| <= |perm|
    ensures !Lookup(MaskRow(perm, from, |bits|, h), bits)[o]
  {
    ValueBound(bits);
    UnfedBit(perm, from, |bits|, Value(bits), h, |bits|, o);
  }

  /** Every row has an entry for every value of its group. */
  predicate Fits(t: seq<seq<Word>>, g: seq<seq<bool>>) {
    |t| == |g| && forall k :: 0 <= k < |t| ==> |t[k]| == Pow2(|g[k]|)
  }

  /** What the cipher does with a table: look up every group of bits and OR the entries. */
  function Gather(t: seq<seq<Word>>, g: seq<seq<bool>>): Word
    requires Fits(t, g)
  {
    if t == [] then Zero() else Or(Gather(t[..|t| - 1], g[..|g| - 1]), Lookup(t[|t| - 1], g[|g| - 1]))
  }

  /** A word has a bit set exactly when one of the entries has. */
  lemma {:induction false} GatherBit(t: seq<seq<Word>>, g: seq<seq<bool>>, o: nat)
    requires Fits(t, g) && o < 32
    ensures Gather(t, g)[o] <==> exists k :: 0 <= k < |t| && Lookup(t[k], g[k])[o]
  {
    if t != [] {
      GatherBit(t[..|t| - 1], g[..|g| - 1], o);
      assert forall k :: 0 <= k < |t| - 1 ==> t[..|t| - 1][k] == t[k] && g[..|g| - 1][k] == g[k];
    }
  }

  /** Groups of w bits each. */
  predicate Groups(g: seq<seq<bool>>, w: nat) {
    forall k :: 0 <= k < |g| ==> |g[k]| == w
  }

  /** A position lies in one group only. */
  lemma OtherGroup(x: nat, k: nat, stride: nat, w: nat, n: nat)
    requires w <= stride && k * stride <= n < k * stride + w
    ensures x * stride <= n < x * stride + w ==> x == k
  {
    if x < k {
      assert (x + 1) * stride <= k * stride;
    } else if k < x {
      assert (k + 1) * stride <= x * stride;
    }
  }

  lemma EntryBit(perm: seq<int>, groups: nat, bits: seq<bool>, stride: nat, h: Half, n: nat, o: nat, k: nat, x: nat)
    requires k < groups && x < groups && |bits| <= stride && k * stride <= n < k * stride + |bits|
    requires Covers(perm, groups, stride, |bits|) && Feeds(perm, n, h, o) && o < 32
    ensures Lookup(Masks(perm, groups, stride, |bits|, h)[x], bits)[o] <==> x == k && bits[n - k * stride]
  {
    LookupBit(perm, x * stride, bits, h, n, o);
    OtherGroup(x, k, stride, |bits|, n);
  }

  lemma TableFits(perm: seq<int>, g: seq<seq<bool>>, stride: nat, w: nat, h: Half)
    requires Groups(g, w) && h.Valid() && Covers(perm, |g|, stride, w)
    ensures Fits(Masks(perm, |g|, stride, w, h), g)
  {
  }

  /** Looking up a block in a table moves every bit to the place the permutation gives it. */
  lemma GatherMoves(perm: seq<int>, g: seq<seq<bool>>, stride: nat, w: nat, h: Half, n: nat, o: nat, k: nat)
    requires Groups(g, w) && k < |g| && w <= stride && k * stride <= n < k * stride + w
    requires Covers(perm, |g|, stride, w) && Feeds(perm, n, h, o) && o < 32
    ensures Fits(Masks(perm, |g|, stride, w, h), g)
    ensures Gather(Masks(perm, |g|, stride, w, h), g)[o] <==> g[k][n - k * stride]
  {
    TableFits(perm, g, stride, w, h);
    var t, bit := Masks(perm, |g|, stride, w, h), g[k][n - k * stride];
    forall x | 0 <= x < |g|
      ensures Lookup(t[x], g[x])[o] <==> x == k && bit
    {
      assert |g[x]| == w;
      hide *;
      EntryBit(perm, |g|, g[x], stride, h, n, o, k, x);
    }
    hide *;
    GatherBit(t, g, o);
  }

  lemma EntryUnfed(perm: seq<int>, groups: nat, bits: seq<bool>, stride: nat, h: Half, o: nat, x: nat)
    requires x < groups && Covers(perm, groups, stride, |bits|) && h.Valid() && o < h.at
    ensures !Lookup(Masks(perm, groups, stride, |bits|, h)[x], bits)[o]
  {
    LookupUnfed(perm, x * stride, bits, h, o);
  }

  lemma GatherUnfed(perm: seq<int>, g: seq<seq<bool>>, stride: nat, w: nat, h: Half, o: nat)
    requires Groups(g, w) && h.Valid() && o < h.at
    requires Covers(perm, |g|, stride, w)
    ensures Fits(Masks(perm, |g|, stride, w, h), g)
    ensures !Gather(Masks(perm, |g|, stride, w, h), g)[o]
  {
    TableFits(perm, g, stride, w, h);
    var t := Masks(perm, |g|, stride, w, h);
    forall x | 0 <= x < |g|
      ensures !Lookup(t[x], g[x])[o]
    {
      assert |g[x]| == w;
      hide *;
      EntryUnfed(perm, |g|, g[x], stride, h, o, x);
    }
    assert o < 32;
    hide *;
    GatherBit(t, g, o);
  }

  // ----- fields of a word

  /** The n bits of a word that end s bits from its right: what the source writes (w >> s) & (2^n - 1). */
  function Field(w: Word, s: nat, n: nat): (f: seq<bool>)
    requires s + n <= 32
    ensures |f| == n
  {
    w[32 - s - n..32 - s]
  }

  lemma PowersOfTwo()
    ensures Pow2(4) == 16 && Pow2(6) == 64 && Pow2(7) == 128 && Pow2(8) == 256
  {
    assert Pow2(4) == 2 * Pow2(3) && Pow2(3) == 2 * Pow2(2) && Pow2(6) == 2 * Pow2(5) && Pow2(5) == 2 * Pow2(4);
    assert Pow2(8) == 2 * Pow2(7) && Pow2(7) == 2 * Pow2(6);
  }

  /** Leading zeros do not change a number. */
  lemma {:induction false} LeadingZeros(n: nat, bits: seq<bool>)
    ensures Value(seq(n, i => false) + bits) == Value(bits)
  {
    var z := seq(n, i => false);
    if bits != [] {
      assert (z + bits)[..n + |bits| - 1] == z + bits[..|bits| - 1];
      LeadingZeros(n, bits[..|bits| - 1]);
    } else if n != 0 {
      assert (z + bits)[..n - 1] == seq(n - 1, i => false) + bits;
      LeadingZeros(n - 1, bits);
    }
  }

  /** A field's number is the number left by the shift and the mask. */
  lemma FieldIsShift(w: Word, s: nat, n: nat)
    requires s + n <= 32
    ensures Value(And(Shr(w, s), Ones(32 - n, 32))) == Value(Field(w, s, n))
  {
    LeadingZeros(32 - n, Field(w, s, n));
    assert And(Shr(w, s), Ones(32 - n, 32)) == seq(32 - n, i => false) + Field(w, s, n);
  }

  /** Where the bits above a field are clear, the mask may be left out. */
  lemma TopFieldIsShift(w: Word, s: nat, n: nat)
    requires s + n <= 32 && forall i :: 0 <= i < 32 - s - n ==> !w[i]
    ensures Value(Shr(w, s)) == Value(Field(w, s, n))
  {
    FieldIsShift(w, s, n);
    assert And(Shr(w, s), Ones(32 - n, 32)) == Shr(w, s);
  }
}
