/** The design rules of the S-boxes, which hold of every box and for all inputs. */
module DesSboxes {
  import opened DesAnswers
  import opened DesBits
  import opened DesStandard
  import opened DesTables

  /** How many of their four bits differ. */
  function Differences(a: Nibble, b: Nibble): nat {
    (if DigitBit(a, 0) != DigitBit(b, 0) then 1 else 0) + (if DigitBit(a, 1) != DigitBit(b, 1) then 1 else 0)
    + (if DigitBit(a, 2) != DigitBit(b, 2) then 1 else 0) + (if DigitBit(a, 3) != DigitBit(b, 3) then 1 else 0)
  }

  /** At most one does. */
  predicate Near(a: Nibble, b: Nibble) {
    match a
    case 0 => b == 0 || b == 1 || b == 2 || b == 4 || b == 8
    case 1 => b == 1 || b == 0 || b == 3 || b == 5 || b == 9
    case 2 => b == 2 || b == 3 || b == 0 || b == 6 || b == 10
    case 3 => b == 3 || b == 2 || b == 1 || b == 7 || b == 11
    case 4 => b == 4 || b == 5 || b == 6 || b == 0 || b == 12
    case 5 => b == 5 || b == 4 || b == 7 || b == 1 || b == 13
    case 6 => b == 6 || b == 7 || b == 4 || b == 2 || b == 14
    case 7 => b == 7 || b == 6 || b == 5 || b == 3 || b == 15
    case 8 => b == 8 || b == 9 || b == 10 || b == 12 || b == 0
    case 9 => b == 9 || b == 8 || b == 11 || b == 13 || b == 1
    case 10 => b == 10 || b == 11 || b == 8 || b == 14 || b == 2
    case 11 => b == 11 || b == 10 || b == 9 || b == 15 || b == 3
    case 12 => b == 12 || b == 13 || b == 14 || b == 8 || b == 4
    case 13 => b == 13 || b == 12 || b == 15 || b == 9 || b == 5
    case 14 => b == 14 || b == 15 || b == 12 || b == 10 || b == 6
    case _ => b == 15 || b == 14 || b == 13 || b == 11 || b == 7
  }

  lemma NearIsClose(a: Nibble, b: Nibble)
    ensures Near(a, b) <==> Differences(a, b) < 2
  {
    if a < 4 {} else if a < 8 {} else if a < 12 {} else {}
  }

  lemma NearBothWays(a: Nibble, b: Nibble)
    ensures Differences(a, b) == Differences(b, a)
  {
    hide DigitBit;
  }

  /** Four values, none near its two neighbours in a square. */
  predicate Square(p: Nibble, q: Nibble, r: Nibble, s: Nibble) { !Near(p, q) && !Near(r, s) && !Near(p, r) && !Near(q, s) }

  /** Nor near the one across. */
  predicate AllApart(p: Nibble, q: Nibble, r: Nibble, s: Nibble) { Square(p, q, r, s) && !Near(p, s) && !Near(q, r) }

  // ----- box by box

  lemma S1Rows(c: nat)
    requires c < 16
    ensures Square(S1(0, c), S1(1, c), S1(2, c), S1(3, c))
  {
  }

  lemma S1Ends(r: nat, m: nat)
    requires r < 4 && m < 4
    ensures Square(S1(r, 2 * m), S1(r, 2 * m + 1), S1(r, 2 * m + 8), S1(r, 2 * m + 9))
  {
  }

  lemma S1Middle(r: nat, e: nat)
    requires r < 4 && (e == 0 || e == 1 || e == 8 || e == 9)
    ensures AllApart(S1(r, e), S1(r, e + 2), S1(r, e + 4), S1(r, e + 6))
  {
  }

  lemma S1Differs(r: nat, c: nat, d: nat)
    requires r < 4 && c < d < 16
    ensures S1(r, c) != S1(r, d)
  {
  }

  lemma S2Rows(c: nat)
    requires c < 16
    ensures Square(S2(0, c), S2(1, c), S2(2, c), S2(3, c))
  {
  }

  lemma S2Ends(r: nat, m: nat)
    requires r < 4 && m < 4
    ensures Square(S2(r, 2 * m), S2(r, 2 * m + 1), S2(r, 2 * m + 8), S2(r, 2 * m + 9))
  {
  }

  lemma S2Middle(r: nat, e: nat)
    requires r < 4 && (e == 0 || e == 1 || e == 8 || e == 9)
    ensures AllApart(S2(r, e), S2(r, e + 2), S2(r, e + 4), S2(r, e + 6))
  {
  }

  lemma S2Differs(r: nat, c: nat, d: nat)
    requires r < 4 && c < d < 16
    ensures S2(r, c) != S2(r, d)
  {
  }

  lemma S3Rows(c: nat)
    requires c < 16
    ensures Square(S3(0, c), S3(1, c), S3(2, c), S3(3, c))
  {
  }

  lemma S3Ends(r: nat, m: nat)
    requires r < 4 && m < 4
    ensures Square(S3(r, 2 * m), S3(r, 2 * m + 1), S3(r, 2 * m + 8), S3(r, 2 * m + 9))
  {
  }

  lemma S3Middle(r: nat, e: nat)
    requires r < 4 && (e == 0 || e == 1 || e == 8 || e == 9)
    ensures AllApart(S3(r, e), S3(r, e + 2), S3(r, e + 4), S3(r, e + 6))
  {
  }

  lemma S3Differs(r: nat, c: nat, d: nat)
    requires r < 4 && c < d < 16
    ensures S3(r, c) != S3(r, d)
  {
  }

  lemma S4Rows(c: nat)
    requires c < 16
    ensures Square(S4(0, c), S4(1, c), S4(2, c), S4(3, c))
  {
  }

  lemma S4Ends(r: nat, m: nat)
    requires r < 4 && m < 4
    ensures Square(S4(r, 2 * m), S4(r, 2 * m + 1), S4(r, 2 * m + 8), S4(r, 2 * m + 9))
  {
  }

  lemma S4Middle(r: nat, e: nat)
    requires r < 4 && (e == 0 || e == 1 || e == 8 || e == 9)
    ensures AllApart(S4(r, e), S4(r, e + 2), S4(r, e + 4), S4(r, e + 6))
  {
  }

  lemma S4Differs(r: nat, c: nat, d: nat)
    requires r < 4 && c < d < 16
    ensures S4(r, c) != S4(r, d)
  {
  }

  lemma S5Rows(c: nat)
    requires c < 16
    ensures Square(S5(0, c), S5(1, c), S5(2, c), S5(3, c))
  {
  }

  lemma S5Ends(r: nat, m: nat)
    requires r < 4 && m < 4
    ensures Square(S5(r, 2 * m), S5(r, 2 * m + 1), S5(r, 2 * m + 8), S5(r, 2 * m + 9))
  {
  }

  lemma S5Middle(r: nat, e: nat)
    requires r < 4 && (e == 0 || e == 1 || e == 8 || e == 9)
    ensures AllApart(S5(r, e), S5(r, e + 2), S5(r, e + 4), S5(r, e + 6))
  {
  }

  lemma S5Differs(r: nat, c: nat, d: nat)
    requires r < 4 && c < d < 16
    ensures S5(r, c) != S5(r, d)
  {
  }

  lemma S6Rows(c: nat)
    requires c < 16
    ensures Square(S6(0, c), S6(1, c), S6(2, c), S6(3, c))
  {
  }

  lemma S6Ends(r: nat, m: nat)
    requires r < 4 && m < 4
    ensures Square(S6(r, 2 * m), S6(r, 2 * m + 1), S6(r, 2 * m + 8), S6(r, 2 * m + 9))
  {
  }

  lemma S6Middle(r: nat, e: nat)
    requires r < 4 && (e == 0 || e == 1 || e == 8 || e == 9)
    ensures AllApart(S6(r, e), S6(r, e + 2), S6(r, e + 4), S6(r, e + 6))
  {
  }

  lemma S6Differs(r: nat, c: nat, d: nat)
    requires r < 4 && c < d < 16
    ensures S6(r, c) != S6(r, d)
  {
  }

  lemma S7Rows(c: nat)
    requires c < 16
    ensures Square(S7(0, c), S7(1, c), S7(2, c), S7(3, c))
  {
  }

  lemma S7Ends(r: nat, m: nat)
    requires r < 4 && m < 4
    ensures Square(S7(r, 2 * m), S7(r, 2 * m + 1), S7(r, 2 * m + 8), S7(r, 2 * m + 9))
  {
  }

  lemma S7Middle(r: nat, e: nat)
    requires r < 4 && (e == 0 || e == 1 || e == 8 || e == 9)
    ensures AllApart(S7(r, e), S7(r, e + 2), S7(r, e + 4), S7(r, e + 6))
  {
  }

  lemma S7Differs(r: nat, c: nat, d: nat)
    requires r < 4 && c < d < 16
    ensures S7(r, c) != S7(r, d)
  {
  }

  lemma S8Rows(c: nat)
    requires c < 16
    ensures Square(S8(0, c), S8(1, c), S8(2, c), S8(3, c))
  {
  }

  lemma S8Ends(r: nat, m: nat)
    requires r < 4 && m < 4
    ensures Square(S8(r, 2 * m), S8(r, 2 * m + 1), S8(r, 2 * m + 8), S8(r, 2 * m + 9))
  {
  }

  lemma S8Middle(r: nat, e: nat)
    requires r < 4 && (e == 0 || e == 1 || e == 8 || e == 9)
    ensures AllApart(S8(r, e), S8(r, e + 2), S8(r, e + 4), S8(r, e + 6))
  {
  }

  lemma S8Differs(r: nat, c: nat, d: nat)
    requires r < 4 && c < d < 16
    ensures S8(r, c) != S8(r, d)
  {
  }

  // ----- any box

  lemma Rows(box: nat, c: nat)
    requires box < 8 && c < 16
    ensures Square(Cell(box, 0, c), Cell(box, 1, c), Cell(box, 2, c), Cell(box, 3, c))
  {
    hide S1, S2, S3, S4, S5, S6, S7, S8, Square, AllApart;
    match box
    case 0 => S1Rows(c);
    case 1 => S2Rows(c);
    case 2 => S3Rows(c);
    case 3 => S4Rows(c);
    case 4 => S5Rows(c);
    case 5 => S6Rows(c);
    case 6 => S7Rows(c);
    case _ => S8Rows(c);
  }

  lemma Ends(box: nat, r: nat, m: nat)
    requires box < 8 && r < 4 && m < 4
    ensures Square(Cell(box, r, 2 * m), Cell(box, r, 2 * m + 1), Cell(box, r, 2 * m + 8), Cell(box, r, 2 * m + 9))
  {
    hide S1, S2, S3, S4, S5, S6, S7, S8, Square, AllApart;
    match box
    case 0 => S1Ends(r, m);
    case 1 => S2Ends(r, m);
    case 2 => S3Ends(r, m);
    case 3 => S4Ends(r, m);
    case 4 => S5Ends(r, m);
    case 5 => S6Ends(r, m);
    case 6 => S7Ends(r, m);
    case _ => S8Ends(r, m);
  }

  lemma Middle(box: nat, r: nat, e: nat)
    requires box < 8 && r < 4 && (e == 0 || e == 1 || e == 8 || e == 9)
    ensures AllApart(Cell(box, r, e), Cell(box, r, e + 2), Cell(box, r, e + 4), Cell(box, r, e + 6))
  {
    hide S1, S2, S3, S4, S5, S6, S7, S8, Square, AllApart;
    match box
    case 0 => S1Middle(r, e);
    case 1 => S2Middle(r, e);
    case 2 => S3Middle(r, e);
    case 3 => S4Middle(r, e);
    case 4 => S5Middle(r, e);
    case 5 => S6Middle(r, e);
    case 6 => S7Middle(r, e);
    case _ => S8Middle(r, e);
  }

  lemma Differs(box: nat, r: nat, c: nat, d: nat)
    requires box < 8 && r < 4 && c < d < 16
    ensures Cell(box, r, c) != Cell(box, r, d)
  {
    hide S1, S2, S3, S4, S5, S6, S7, S8, Square, AllApart;
    match box
    case 0 => S1Differs(r, c, d);
    case 1 => S2Differs(r, c, d);
    case 2 => S3Differs(r, c, d);
    case 3 => S4Differs(r, c, d);
    case 4 => S5Differs(r, c, d);
    case 5 => S6Differs(r, c, d);
    case 6 => S7Differs(r, c, d);
    case _ => S8Differs(r, c, d);
  }

  // ----- six bits in, four bits out

  function RowOf(six: seq<bool>): (r: nat)
    requires |six| == 6
    ensures r < 4
  {
    (if six[0] then 2 else 0) + (if six[5] then 1 else 0)
  }

  function ColumnOf(six: seq<bool>): (c: nat)
    requires |six| == 6
    ensures c < 16
  {
    (if six[1] then 8 else 0) + (if six[2] then 4 else 0) + (if six[3] then 2 else 0) + (if six[4] then 1 else 0)
  }

  lemma OutputIsCell(box: nat, six: seq<bool>)
    requires box < 8 && |six| == 6
    ensures BoxOutput(box, six) == Cell(box, RowOf(six), ColumnOf(six))
  {
    hide Cell, Value;
    TwoDigits([six[0], six[5]]);
    FourDigits(six[1..5]);
  }

  /** Each row is a permutation: with the outer two bits fixed, different middle bits give different outputs. */
  lemma RowsPermute(box: nat, six: seq<bool>, other: seq<bool>)
    requires box < 8 && |six| == |other| == 6 && six != other && six[0] == other[0] && six[5] == other[5]
    ensures BoxOutput(box, six) != BoxOutput(box, other)
  {
    hide Cell, BoxOutput;
    OutputIsCell(box, six);
    OutputIsCell(box, other);
    var r, c, d := RowOf(six), ColumnOf(six), ColumnOf(other);
    assert c != d;
    if c < d { Differs(box, r, c, d); } else { Differs(box, r, d, c); }
  }

  lemma Apart(a: Nibble, b: Nibble)
    requires !Near(a, b) || !Near(b, a)
    ensures Differences(a, b) >= 2
  {
    hide Near, Differences;
    NearIsClose(a, b);
    NearIsClose(b, a);
    NearBothWays(a, b);
  }

  /** One input bit changed changes at least two output bits. */
  lemma OneBitSpreads(box: nat, six: seq<bool>, j: nat)
    requires box < 8 && |six| == 6 && j < 6
    ensures Differences(BoxOutput(box, six), BoxOutput(box, six[j := !six[j]])) >= 2
  {
    hide Cell, BoxOutput, Near, Differences;
    var other := six[j := !six[j]];
    OutputIsCell(box, six);
    OutputIsCell(box, other);
    var r, c := RowOf(six), ColumnOf(six);
    Rows(box, c);
    Ends(box, r, (if six[2] then 2 else 0) + if six[3] then 1 else 0);
    Middle(box, r, (if six[1] then 8 else 0) + if six[4] then 1 else 0);
    Apart(BoxOutput(box, six), BoxOutput(box, other));
  }

  /** So do the two bits in the middle, changed together. */
  lemma MiddleSpreads(box: nat, six: seq<bool>)
    requires box < 8 && |six| == 6
    ensures Differences(BoxOutput(box, six), BoxOutput(box, six[2 := !six[2]][3 := !six[3]])) >= 2
  {
    hide Cell, BoxOutput, Near, Differences;
    var other := six[2 := !six[2]][3 := !six[3]];
    OutputIsCell(box, six);
    OutputIsCell(box, other);
    Middle(box, RowOf(six), (if six[1] then 8 else 0) + if six[4] then 1 else 0);
    Apart(BoxOutput(box, six), BoxOutput(box, other));
  }
}
