/**
 * The 64-bit words that hold a 7-wide, 6-high board, and the 8-bit column
 * patterns they are made of.
 *
 * Cell (c, r) -- column c, row r counted from the bottom -- is bit 7 * c + r.
 * Each column owns a 7-bit field; its top bit (row 6) is a guard bit that no
 * stone ever occupies, and bits 49..63 are never used. A column's field,
 * shifted down to bit 0, is an 8-bit pattern; `Pack` places seven patterns
 * side by side.
 *
 * Every fact about whole words is stated once here, as an implication whose
 * premise is a named predicate over the column patterns. The board module
 * then reasons about patterns, which the solver decides cheaply, and about
 * words only by instantiating these facts.
 */
module Bits {

  /** The 42 cells of the board: every field's rows 0..5. */
  const BoardMask: bv64 := 0xFDFB_F7EF_DFBF
  /** The lowest bit of every field: the sum of the sentinels `posBottom`. */
  const BottomMask: bv64 := 0x408_1020_4081

  /** Bit i of x is set. */
  predicate Has(x: bv64, i: bv64) { i < 64 && (x >> i) & 1 == 1 }

  /** Every bit of x is a bit of y. */
  predicate Subset(x: bv64, y: bv64) { x & !y == 0 }

  /** The single bit of cell (c, r). */
  function CellBit(c: bv64, r: bv64): bv64
    requires c < 7 && r < 7
  {
    1 << (7 * c + r)
  }

  /** `x + y` and `x - y` on words, named so that equal operands give equal results without bit-level reasoning. */
  function Add(x: bv64, y: bv64): bv64 { x + y }
  function Sub(x: bv64, y: bv64): bv64 { x - y }

  /**
   * A small column or row number as a bit index. A lookup, rather than a
   * conversion, keeps the solver's reasoning about bit positions cheap.
   */
  function Idx(n: int): (b: bv64)
    requires 0 <= n < 8
    ensures b < 8
  {
    if n == 0 then 0 else if n == 1 then 1 else if n == 2 then 2 else if n == 3 then 3
    else if n == 4 then 4 else if n == 5 then 5 else if n == 6 then 6 else 7
  }

  lemma IdxSucc(n: int)
    requires 0 <= n < 7
    ensures Idx(n + 1) == Idx(n) + 1
  {}

  // ---------------------------------------------------------------------
  // Column patterns

  /** The bit of row r in a column pattern (none beyond row 7). */
  function Row(r: int): bv8
    requires 0 <= r
  {
    if r == 0 then 1 else if r == 1 then 2 else if r == 2 then 4 else if r == 3 then 8
    else if r == 4 then 16 else if r == 5 then 32 else if r == 6 then 64 else if r == 7 then 128 else 0
  }

  /** A pattern within rows 0..5: stones only, guard row empty. */
  predicate Low(v: bv8) { v < 0x40 }

  /** A pattern that fits a 7-bit field. */
  predicate Small(v: bv8) { v < 0x80 }

  /** Every row of v is a row of w. */
  predicate Inside(v: bv8, w: bv8) { v & !w == 0 }

  /** The pattern of column c, by its number. */
  function Pick(v0: bv8, v1: bv8, v2: bv8, v3: bv8, v4: bv8, v5: bv8, v6: bv8, c: int): bv8
    requires 0 <= c < 7
  {
    if c == 0 then v0 else if c == 1 then v1 else if c == 2 then v2 else if c == 3 then v3
    else if c == 4 then v4 else if c == 5 then v5 else v6
  }

  /** The pattern of the k lowest rows: a column holding k stones. */
  function Stack(k: int): bv8
    requires 0 <= k <= 7
  {
    if k == 0 then 0 else if k == 1 then 1 else if k == 2 then 3 else if k == 3 then 7
    else if k == 4 then 15 else if k == 5 then 31 else if k == 6 then 63 else 127
  }

  /** The pattern with a stone on row r, for rows 0..5, exactly where a_r holds. */
  function Pat(a0: bool, a1: bool, a2: bool, a3: bool, a4: bool, a5: bool): bv8
  {
    (if a0 then 1 else 0) | (if a1 then 2 else 0) | (if a2 then 4 else 0) |
    (if a3 then 8 else 0) | (if a4 then 16 else 0) | (if a5 then 32 else 0)
  }

  /** The flag of row r. */
  function Sel(a0: bool, a1: bool, a2: bool, a3: bool, a4: bool, a5: bool, r: int): bool
  {
    if r == 0 then a0 else if r == 1 then a1 else if r == 2 then a2 else if r == 3 then a3
    else if r == 4 then a4 else if r == 5 then a5 else false
  }

  lemma PatOr(a0: bool, a1: bool, a2: bool, a3: bool, a4: bool, a5: bool, b0: bool, b1: bool, b2: bool, b3: bool, b4: bool, b5: bool)
    ensures Pat(a0, a1, a2, a3, a4, a5) | Pat(b0, b1, b2, b3, b4, b5) == Pat(a0 || b0, a1 || b1, a2 || b2, a3 || b3, a4 || b4, a5 || b5)
  {}

  lemma PatAnd(a0: bool, a1: bool, a2: bool, a3: bool, a4: bool, a5: bool, b0: bool, b1: bool, b2: bool, b3: bool, b4: bool, b5: bool)
    ensures Pat(a0, a1, a2, a3, a4, a5) & Pat(b0, b1, b2, b3, b4, b5) == Pat(a0 && b0, a1 && b1, a2 && b2, a3 && b3, a4 && b4, a5 && b5)
  {}

  lemma PatAndNot(a0: bool, a1: bool, a2: bool, a3: bool, a4: bool, a5: bool, b0: bool, b1: bool, b2: bool, b3: bool, b4: bool, b5: bool)
    ensures Pat(a0, a1, a2, a3, a4, a5) & !Pat(b0, b1, b2, b3, b4, b5) == Pat(a0 && !b0, a1 && !b1, a2 && !b2, a3 && !b3, a4 && !b4, a5 && !b5)
  {}

  /** Patterns are equal only when their flags are. */
  lemma PatSame(a0: bool, a1: bool, a2: bool, a3: bool, a4: bool, a5: bool, b0: bool, b1: bool, b2: bool, b3: bool, b4: bool, b5: bool)
    ensures Pat(a0, a1, a2, a3, a4, a5) == Pat(b0, b1, b2, b3, b4, b5) ==> a0 == b0 && a1 == b1 && a2 == b2 && a3 == b3 && a4 == b4 && a5 == b5
  {}

  /** Row r of a pattern is its flag r. */
  lemma PatRow(a0: bool, a1: bool, a2: bool, a3: bool, a4: bool, a5: bool, r: int)
    requires 0 <= r
    ensures Pat(a0, a1, a2, a3, a4, a5) & Row(r) != 0 <==> Sel(a0, a1, a2, a3, a4, a5, r)
  {}

  lemma PatLow(a0: bool, a1: bool, a2: bool, a3: bool, a4: bool, a5: bool)
    ensures Low(Pat(a0, a1, a2, a3, a4, a5)) && Small(Pat(a0, a1, a2, a3, a4, a5))
  {}

  /** The k lowest rows as a pattern. */
  lemma PatStack(k: int)
    requires 0 <= k <= 6
    ensures Stack(k) == Pat(0 < k, 1 < k, 2 < k, 3 < k, 4 < k, 5 < k)
  {}

  // ---------------------------------------------------------------------
  // Words made of column patterns

  /** Pattern v placed in the field of column c. */
  function Place(v: bv8, c: int): bv64
    requires 0 <= c < 7
  {
    var w := v as bv64;
    if c == 0 then w else if c == 1 then w << 7 else if c == 2 then w << 14 else if c == 3 then w << 21
    else if c == 4 then w << 28 else if c == 5 then w << 35 else w << 42
  }

  /** Seven patterns side by side, added up as `sum(posAll)` adds up the columns. */
  function Pack(v0: bv8, v1: bv8, v2: bv8, v3: bv8, v4: bv8, v5: bv8, v6: bv8): bv64
  {
    (v0 as bv64) + ((v1 as bv64) << 7) + ((v2 as bv64) << 14) + ((v3 as bv64) << 21) +
    ((v4 as bv64) << 28) + ((v5 as bv64) << 35) + ((v6 as bv64) << 42)
  }

  /** Place with a known column is a fixed shift. */
  lemma PlaceFixed(v: bv8)
    ensures Place(v, 0) == v as bv64 && Place(v, 1) == (v as bv64) << 7 && Place(v, 2) == (v as bv64) << 14
    ensures Place(v, 3) == (v as bv64) << 21 && Place(v, 4) == (v as bv64) << 28
    ensures Place(v, 5) == (v as bv64) << 35 && Place(v, 6) == (v as bv64) << 42
  {}

  predicate AllLow(v0: bv8, v1: bv8, v2: bv8, v3: bv8, v4: bv8, v5: bv8, v6: bv8)
  {
    Low(v0) && Low(v1) && Low(v2) && Low(v3) && Low(v4) && Low(v5) && Low(v6)
  }

  predicate AllSmall(v0: bv8, v1: bv8, v2: bv8, v3: bv8, v4: bv8, v5: bv8, v6: bv8)
  {
    Small(v0) && Small(v1) && Small(v2) && Small(v3) && Small(v4) && Small(v5) && Small(v6)
  }

  /** Seven patterns within rows 0..5, and seven more inside them, column by column. */
  predicate Nested(v0: bv8, v1: bv8, v2: bv8, v3: bv8, v4: bv8, v5: bv8, v6: bv8,
                   w0: bv8, w1: bv8, w2: bv8, w3: bv8, w4: bv8, w5: bv8, w6: bv8)
  {
    AllLow(v0, v1, v2, v3, v4, v5, v6) &&
    Inside(w0, v0) && Inside(w1, v1) && Inside(w2, v2) && Inside(w3, v3) &&
    Inside(w4, v4) && Inside(w5, v5) && Inside(w6, v6)
  }

  lemma SubtractLow(x: bv64, y: bv64)
    requires Subset(x, y)
    ensures (y - x) & 0xFFFF_FFFF == (y & !x) & 0xFFFF_FFFF
  {}

  lemma SubtractHigh(x: bv64, y: bv64)
    requires Subset(x, y)
    ensures (y - x) >> 32 == (y & !x) >> 32
  {}

  /** Taking away a subset leaves exactly the other bits: no borrow. */
  lemma SubtractSubset(x: bv64, y: bv64)
    ensures Subset(x, y) ==> Sub(y, x) == y & !x
  {
    if Subset(x, y) {
      SubtractLow(x, y);
      SubtractHigh(x, y);
    }
  }

  lemma PackSubset(v0: bv8, v1: bv8, v2: bv8, v3: bv8, v4: bv8, v5: bv8, v6: bv8,
                   w0: bv8, w1: bv8, w2: bv8, w3: bv8, w4: bv8, w5: bv8, w6: bv8)
    ensures Nested(v0, v1, v2, v3, v4, v5, v6, w0, w1, w2, w3, w4, w5, w6) ==>
      Subset(Pack(w0, w1, w2, w3, w4, w5, w6), Pack(v0, v1, v2, v3, v4, v5, v6))
  {}

  lemma PackAndNot(v0: bv8, v1: bv8, v2: bv8, v3: bv8, v4: bv8, v5: bv8, v6: bv8,
                   w0: bv8, w1: bv8, w2: bv8, w3: bv8, w4: bv8, w5: bv8, w6: bv8)
    ensures Nested(v0, v1, v2, v3, v4, v5, v6, w0, w1, w2, w3, w4, w5, w6) ==>
      Pack(v0, v1, v2, v3, v4, v5, v6) & !Pack(w0, w1, w2, w3, w4, w5, w6) ==
      Pack(v0 & !w0, v1 & !w1, v2 & !w2, v3 & !w3, v4 & !w4, v5 & !w5, v6 & !w6)
  {}

  /** Subtracting packed patterns from the packed patterns they lie inside subtracts column by column. */
  lemma PackMinus(v0: bv8, v1: bv8, v2: bv8, v3: bv8, v4: bv8, v5: bv8, v6: bv8,
                  w0: bv8, w1: bv8, w2: bv8, w3: bv8, w4: bv8, w5: bv8, w6: bv8)
    ensures Nested(v0, v1, v2, v3, v4, v5, v6, w0, w1, w2, w3, w4, w5, w6) ==>
      Sub(Pack(v0, v1, v2, v3, v4, v5, v6), Pack(w0, w1, w2, w3, w4, w5, w6)) ==
      Pack(v0 & !w0, v1 & !w1, v2 & !w2, v3 & !w3, v4 & !w4, v5 & !w5, v6 & !w6)
  {
    PackSubset(v0, v1, v2, v3, v4, v5, v6, w0, w1, w2, w3, w4, w5, w6);
    SubtractSubset(Pack(w0, w1, w2, w3, w4, w5, w6), Pack(v0, v1, v2, v3, v4, v5, v6));
    PackAndNot(v0, v1, v2, v3, v4, v5, v6, w0, w1, w2, w3, w4, w5, w6);
  }

  /** Patterns u that are the patterns v less the patterns w inside them. */
  predicate Apart(v0: bv8, v1: bv8, v2: bv8, v3: bv8, v4: bv8, v5: bv8, v6: bv8,
                  w0: bv8, w1: bv8, w2: bv8, w3: bv8, w4: bv8, w5: bv8, w6: bv8,
                  u0: bv8, u1: bv8, u2: bv8, u3: bv8, u4: bv8, u5: bv8, u6: bv8)
  {
    Nested(v0, v1, v2, v3, v4, v5, v6, w0, w1, w2, w3, w4, w5, w6) &&
    u0 == v0 & !w0 && u1 == v1 & !w1 && u2 == v2 & !w2 && u3 == v3 & !w3 &&
    u4 == v4 & !w4 && u5 == v5 & !w5 && u6 == v6 & !w6
  }

  lemma PackApart(v0: bv8, v1: bv8, v2: bv8, v3: bv8, v4: bv8, v5: bv8, v6: bv8,
                  w0: bv8, w1: bv8, w2: bv8, w3: bv8, w4: bv8, w5: bv8, w6: bv8,
                  u0: bv8, u1: bv8, u2: bv8, u3: bv8, u4: bv8, u5: bv8, u6: bv8)
    ensures Apart(v0, v1, v2, v3, v4, v5, v6, w0, w1, w2, w3, w4, w5, w6, u0, u1, u2, u3, u4, u5, u6) ==> Sub(Pack(v0, v1, v2, v3, v4, v5, v6), Pack(w0, w1, w2, w3, w4, w5, w6)) == Pack(u0, u1, u2, u3, u4, u5, u6)
  {
    PackMinus(v0, v1, v2, v3, v4, v5, v6, w0, w1, w2, w3, w4, w5, w6);
  }

  /** Packed patterns within rows 0..5 lie on the board. */
  lemma PackOnBoard(v0: bv8, v1: bv8, v2: bv8, v3: bv8, v4: bv8, v5: bv8, v6: bv8)
    ensures AllLow(v0, v1, v2, v3, v4, v5, v6) ==> Subset(Pack(v0, v1, v2, v3, v4, v5, v6), BoardMask)
  {}

  /** The field of column c, shifted down: the pattern it holds. */
  function Field(x: bv64, c: int): bv8
    requires 0 <= c < 7
  {
    var y := if c == 0 then x else if c == 1 then x >> 7 else if c == 2 then x >> 14 else if c == 3 then x >> 21
      else if c == 4 then x >> 28 else if c == 5 then x >> 35 else x >> 42;
    (y & 0x7F) as bv8
  }

  /** Patterns that fit their fields are what the fields of the packed word hold. */
  lemma PackFields(v0: bv8, v1: bv8, v2: bv8, v3: bv8, v4: bv8, v5: bv8, v6: bv8)
    ensures AllSmall(v0, v1, v2, v3, v4, v5, v6) ==>
      var x := Pack(v0, v1, v2, v3, v4, v5, v6);
      Field(x, 0) == v0 && Field(x, 1) == v1 && Field(x, 2) == v2 && Field(x, 3) == v3 &&
      Field(x, 4) == v4 && Field(x, 5) == v5 && Field(x, 6) == v6
  {}

  lemma FieldPack(v0: bv8, v1: bv8, v2: bv8, v3: bv8, v4: bv8, v5: bv8, v6: bv8, c: int)
    requires 0 <= c < 7
    ensures AllSmall(v0, v1, v2, v3, v4, v5, v6) ==>
      Field(Pack(v0, v1, v2, v3, v4, v5, v6), c) == Pick(v0, v1, v2, v3, v4, v5, v6, c)
  {
    PackFields(v0, v1, v2, v3, v4, v5, v6);
  }

  /**
   * The test `pos & mask > 0` with `mask = posBottom[c] << r`: x has a stone
   * under the mask of cell (c, r). `Place(1, c)` is the sentinel `1 << (c * (h + 1))`.
   */
  predicate Hits(x: bv64, c: int, r: int)
    requires 0 <= c < 7 && 0 <= r < 7
  {
    x & (Place(1, c) << Idx(r)) != 0
  }

  lemma CellMask(x: bv64, c: int, r: int)
    requires 0 <= c < 7 && 0 <= r < 7
    ensures x & (Place(1, c) << Idx(r)) != 0 <==> Has(x, 7 * Idx(c) + Idx(r))
  {}

  /** The probe of cell (c, r) tests bit 7 * c + r. */
  lemma CellProbe(x: bv64, c: int, r: int)
    requires 0 <= c < 7 && 0 <= r < 7
    ensures Hits(x, c, r) <==> Has(x, 7 * Idx(c) + Idx(r))
  {
    CellMask(x, c, r);
  }

  /** Bit 7 * c + r of a word is row r of column c's field. */
  lemma FieldHas(x: bv64, c: int, r: int)
    requires 0 <= c < 7 && 0 <= r < 7
    ensures Has(x, 7 * Idx(c) + Idx(r)) <==> Field(x, c) & Row(r) != 0
  {}

  /** Adding the sentinels to packed patterns within rows 0..5 adds one to every pattern. */
  lemma PackSentinels(v0: bv8, v1: bv8, v2: bv8, v3: bv8, v4: bv8, v5: bv8, v6: bv8)
    ensures AllLow(v0, v1, v2, v3, v4, v5, v6) ==>
      Add(Pack(v0, v1, v2, v3, v4, v5, v6), BottomMask) ==
      Pack(v0 + 1, v1 + 1, v2 + 1, v3 + 1, v4 + 1, v5 + 1, v6 + 1)
  {}

  /** Subtracting twice from the same word gives back what was subtracted. */
  lemma SubSub(y: bv64, x: bv64)
    ensures Sub(y, Sub(y, x)) == x
  {
    assert Sub(y, x) == y - x;
    assert Sub(y, y - x) == y - (y - x);
  }

  lemma AddAssociates(x: bv64, y: bv64, z: bv64)
    ensures (x + y) + z == x + (y + z)
  {}

  /** Adding words with no common bit never carries. */
  lemma AddDisjoint(x: bv64, y: bv64)
    ensures x & y == 0 ==> x + y == x | y
  {}

  lemma PackOr(v0: bv8, v1: bv8, v2: bv8, v3: bv8, v4: bv8, v5: bv8, v6: bv8,
               w0: bv8, w1: bv8, w2: bv8, w3: bv8, w4: bv8, w5: bv8, w6: bv8)
    ensures AllSmall(v0, v1, v2, v3, v4, v5, v6) && AllSmall(w0, w1, w2, w3, w4, w5, w6) ==>
      Pack(w0, w1, w2, w3, w4, w5, w6) | Pack(v0, v1, v2, v3, v4, v5, v6) ==
      Pack(w0 | v0, w1 | v1, w2 | v2, w3 | v3, w4 | v4, w5 | v5, w6 | v6)
  {}

  lemma PackAnd(v0: bv8, v1: bv8, v2: bv8, v3: bv8, v4: bv8, v5: bv8, v6: bv8,
                w0: bv8, w1: bv8, w2: bv8, w3: bv8, w4: bv8, w5: bv8, w6: bv8)
    ensures AllSmall(v0, v1, v2, v3, v4, v5, v6) && AllSmall(w0, w1, w2, w3, w4, w5, w6) ==>
      Pack(w0, w1, w2, w3, w4, w5, w6) & Pack(v0, v1, v2, v3, v4, v5, v6) ==
      Pack(w0 & v0, w1 & v1, w2 & v2, w3 & v3, w4 & v4, w5 & v5, w6 & v6)
  {}

  lemma PackSame(v0: bv8, v1: bv8, v2: bv8, v3: bv8, v4: bv8, v5: bv8, v6: bv8,
                 w0: bv8, w1: bv8, w2: bv8, w3: bv8, w4: bv8, w5: bv8, w6: bv8)
    ensures v0 == w0 && v1 == w1 && v2 == w2 && v3 == w3 && v4 == w4 && v5 == w5 && v6 == w6 ==>
      Pack(v0, v1, v2, v3, v4, v5, v6) == Pack(w0, w1, w2, w3, w4, w5, w6)
  {}

  lemma PackZero(v0: bv8, v1: bv8, v2: bv8, v3: bv8, v4: bv8, v5: bv8, v6: bv8)
    ensures v0 == 0 && v1 == 0 && v2 == 0 && v3 == 0 && v4 == 0 && v5 == 0 && v6 == 0 ==> Pack(v0, v1, v2, v3, v4, v5, v6) == 0
  {}

  /** Patterns w and s with no common bit, column by column. */
  predicate Disjoint(w0: bv8, w1: bv8, w2: bv8, w3: bv8, w4: bv8, w5: bv8, w6: bv8,
                     s0: bv8, s1: bv8, s2: bv8, s3: bv8, s4: bv8, s5: bv8, s6: bv8)
  {
    AllSmall(w0, w1, w2, w3, w4, w5, w6) && AllSmall(s0, s1, s2, s3, s4, s5, s6) &&
    w0 & s0 == 0 && w1 & s1 == 0 && w2 & s2 == 0 && w3 & s3 == 0 && w4 & s4 == 0 && w5 & s5 == 0 && w6 & s6 == 0
  }

  /** Adding packed patterns with no common bit never carries from one field into the next. */
  lemma PackDisjoint(w0: bv8, w1: bv8, w2: bv8, w3: bv8, w4: bv8, w5: bv8, w6: bv8,
                     s0: bv8, s1: bv8, s2: bv8, s3: bv8, s4: bv8, s5: bv8, s6: bv8)
    ensures Disjoint(w0, w1, w2, w3, w4, w5, w6, s0, s1, s2, s3, s4, s5, s6) ==>
      Add(Pack(w0, w1, w2, w3, w4, w5, w6), Pack(s0, s1, s2, s3, s4, s5, s6)) == Pack(w0 | s0, w1 | s1, w2 | s2, w3 | s3, w4 | s4, w5 | s5, w6 | s6)
  {
    if Disjoint(w0, w1, w2, w3, w4, w5, w6, s0, s1, s2, s3, s4, s5, s6) {
      PackAnd(s0, s1, s2, s3, s4, s5, s6, w0, w1, w2, w3, w4, w5, w6);
      PackZero(w0 & s0, w1 & s1, w2 & s2, w3 & s3, w4 & s4, w5 & s5, w6 & s6);
      AddDisjoint(Pack(w0, w1, w2, w3, w4, w5, w6), Pack(s0, s1, s2, s3, s4, s5, s6));
      PackOr(s0, s1, s2, s3, s4, s5, s6, w0, w1, w2, w3, w4, w5, w6);
    }
  }

  /** Columns v within rows 0..5, and s each v plus one. */
  predicate Above(v0: bv8, v1: bv8, v2: bv8, v3: bv8, v4: bv8, v5: bv8, v6: bv8,
                  s0: bv8, s1: bv8, s2: bv8, s3: bv8, s4: bv8, s5: bv8, s6: bv8)
  {
    AllLow(v0, v1, v2, v3, v4, v5, v6) &&
    v0 + 1 == s0 && v1 + 1 == s1 && v2 + 1 == s2 && v3 + 1 == s3 && v4 + 1 == s4 && v5 + 1 == s5 && v6 + 1 == s6
  }

  lemma PackAbove(v0: bv8, v1: bv8, v2: bv8, v3: bv8, v4: bv8, v5: bv8, v6: bv8,
                  s0: bv8, s1: bv8, s2: bv8, s3: bv8, s4: bv8, s5: bv8, s6: bv8)
    ensures Above(v0, v1, v2, v3, v4, v5, v6, s0, s1, s2, s3, s4, s5, s6) ==> Add(Pack(v0, v1, v2, v3, v4, v5, v6), BottomMask) == Pack(s0, s1, s2, s3, s4, s5, s6)
  {
    if Above(v0, v1, v2, v3, v4, v5, v6, s0, s1, s2, s3, s4, s5, s6) {
      PackSentinels(v0, v1, v2, v3, v4, v5, v6);
    }
  }

  /**
   * `w + (v + sum(posBottom))`, for columns v and patterns w apart from the
   * rows s just above the columns, packs each w with its column's marker s.
   */
  lemma PackKey(v0: bv8, v1: bv8, v2: bv8, v3: bv8, v4: bv8, v5: bv8, v6: bv8,
                w0: bv8, w1: bv8, w2: bv8, w3: bv8, w4: bv8, w5: bv8, w6: bv8,
                s0: bv8, s1: bv8, s2: bv8, s3: bv8, s4: bv8, s5: bv8, s6: bv8)
    ensures Above(v0, v1, v2, v3, v4, v5, v6, s0, s1, s2, s3, s4, s5, s6) && Disjoint(w0, w1, w2, w3, w4, w5, w6, s0, s1, s2, s3, s4, s5, s6) ==>
      Add(Pack(w0, w1, w2, w3, w4, w5, w6), Add(Pack(v0, v1, v2, v3, v4, v5, v6), BottomMask)) == Pack(w0 | s0, w1 | s1, w2 | s2, w3 | s3, w4 | s4, w5 | s5, w6 | s6)
  {
    PackAbove(v0, v1, v2, v3, v4, v5, v6, s0, s1, s2, s3, s4, s5, s6);
    PackDisjoint(w0, w1, w2, w3, w4, w5, w6, s0, s1, s2, s3, s4, s5, s6);
  }

  // ---------------------------------------------------------------------
  // One column's word

  /** `c * (h + 1)`: the lowest bit of column c's field. */
  function Base(c: int): (b: bv64)
    requires 0 <= c < 7
    ensures b <= 42
  {
    if c == 0 then 0 else if c == 1 then 7 else if c == 2 then 14 else if c == 3 then 21
    else if c == 4 then 28 else if c == 5 then 35 else 42
  }

  /** The test `w >> (c * (h + 1) + s) == 0`: nothing at or above row s of column c's field. */
  predicate Emptied(w: bv64, c: int, s: int)
    requires 0 <= c < 7 && 0 <= s < 8
  {
    w >> (Base(c) + Idx(s)) == 0
  }

  lemma StackShift0(k: int, s: int)
    requires 0 <= k <= 6 && 0 <= s < 8
    ensures Emptied(Place(Stack(k), 0), 0, s) <==> k <= s
  {}

  lemma StackShift1(k: int, s: int)
    requires 0 <= k <= 6 && 0 <= s < 8
    ensures Emptied(Place(Stack(k), 1), 1, s) <==> k <= s
  {}

  lemma StackShift2(k: int, s: int)
    requires 0 <= k <= 6 && 0 <= s < 8
    ensures Emptied(Place(Stack(k), 2), 2, s) <==> k <= s
  {}

  lemma StackShift3(k: int, s: int)
    requires 0 <= k <= 6 && 0 <= s < 8
    ensures Emptied(Place(Stack(k), 3), 3, s) <==> k <= s
  {}

  lemma StackShift4(k: int, s: int)
    requires 0 <= k <= 6 && 0 <= s < 8
    ensures Emptied(Place(Stack(k), 4), 4, s) <==> k <= s
  {}

  lemma StackShift5(k: int, s: int)
    requires 0 <= k <= 6 && 0 <= s < 8
    ensures Emptied(Place(Stack(k), 5), 5, s) <==> k <= s
  {}

  lemma StackShift6(k: int, s: int)
    requires 0 <= k <= 6 && 0 <= s < 8
    ensures Emptied(Place(Stack(k), 6), 6, s) <==> k <= s
  {}

  /** A column of k stones is empty from row s up exactly when k <= s. */
  lemma StackShift(k: int, c: int, s: int)
    requires 0 <= k <= 6 && 0 <= c < 7 && 0 <= s < 8
    ensures Emptied(Place(Stack(k), c), c, s) <==> k <= s
  {
    if c == 0 { StackShift0(k, s); }
    else if c == 1 { StackShift1(k, s); }
    else if c == 2 { StackShift2(k, s); }
    else if c == 3 { StackShift3(k, s); }
    else if c == 4 { StackShift4(k, s); }
    else if c == 5 { StackShift5(k, s); }
    else { StackShift6(k, s); }
  }
}
