/**
 * The windows of four cells that the heuristic of heuristic.py scores.
 *
 * A window is one of the four base patterns `patH`, `patV`, `patD1`, `patD2`
 * (kind j = 0, 1, 2, 3) moved to an anchor cell (c, r): the walk of
 * `evaluate` keeps the window as `mask = sum(pat) << shift` with
 * `shift = 7 * c + r`, and reads a side's stones in it as the key
 * `(pos & mask) >> shift`. The lemmas `Keys0`..`Keys3` prove, for every window the walk
 * visits, that this key is a sub-pattern of the base pattern holding one bit
 * for each of the window's cells that the side occupies.
 *
 * The proof is one lemma per window: with the mask and the shift known
 * constants the solver reads the key bit by bit, which it cannot do for a
 * shift it does not know.
 */
module Windows {
  import opened Bits
  import opened BoardState

  /** `patH`, `patV`, `patD1`, `patD2`: the bits of a window's four cells at shift 0. */
  function Pattern(j: int): (p: seq<bv64>)
    requires 0 <= j < 4
    ensures |p| == 4
  {
    if j == 0 then [0x1, 0x80, 0x4000, 0x20_0000]
    else if j == 1 then [0x1, 0x2, 0x4, 0x8]
    else if j == 2 then [0x1, 0x100, 0x1_0000, 0x100_0000]
    else [0x8, 0x200, 0x8000, 0x20_0000]
  }

  /** The exponent of the bit of cell i of kind j: `i * (h + 1)`, `i`, `i * (h + 2)` and `i * h + 3`. */
  function Off(j: int, i: int): bv64
    requires 0 <= j < 4 && 0 <= i < 4
  {
    var n := Idx(i);
    if j == 0 then 7 * n else if j == 1 then n else if j == 2 then 8 * n else 6 * n + 3
  }

  /** The four lists are those heuristic.py builds from its formulas. */
  lemma PatOffsets(j: int, i: int)
    requires 0 <= j < 4 && 0 <= i < 4
    ensures Pattern(j)[i] == 1 << Off(j, i)
  {}

  /** `sum(pat)`: the mask of a window at shift 0. */
  function Mask(j: int): (m: bv64)
    requires 0 <= j < 4
  {
    if j == 0 then 0x20_4081 else if j == 1 then 0xF else if j == 2 then 0x101_0101 else 0x20_8208
  }

  /** The mask is the union of the pattern's four bits. */
  lemma MaskUnion(j: int)
    requires 0 <= j < 4
    ensures Mask(j) == Pattern(j)[0] | Pattern(j)[1] | Pattern(j)[2] | Pattern(j)[3]
    ensures Mask(j) == Add(Add(Add(Pattern(j)[0], Pattern(j)[1]), Pattern(j)[2]), Pattern(j)[3])
  {}

  /** The column of cell i of a window of kind j anchored in column c. */
  function CellCol(j: int, c: int, i: int): int
  {
    if j == 1 then c else c + i
  }

  /** The row of cell i of a window of kind j anchored in row r. */
  function CellRow(j: int, r: int, i: int): int
  {
    if j == 0 then r else if j == 3 then r + 3 - i else r + i
  }

  /** How many anchor columns the walk visits: `w` for vertical windows, `w - 3` otherwise. */
  function Across(j: int): int
  {
    if j == 1 then Width else Width - 3
  }

  /** How many anchor rows the walk visits: `h` for horizontal windows, `h - 3` otherwise. */
  function Up(j: int): int
  {
    if j == 0 then Height else Height - 3
  }

  /** The anchors the walk of `evaluate` visits. */
  predicate Anchor(j: int, c: int, r: int)
  {
    0 <= j < 4 && 0 <= c < Across(j) && 0 <= r < Up(j)
  }

  /** Cell i of window (j, c, r) lies on the board. */
  predicate OnBoard(j: int, c: int, r: int, i: int)
  {
    0 <= CellCol(j, c, i) < Width && 0 <= CellRow(j, r, i) < Height
  }

  /** The walk visits exactly the windows whose four cells all lie on the board. */
  lemma AnchorsFit(j: int, c: int, r: int)
    requires 0 <= j < 4
    ensures Anchor(j, c, r) <==> OnBoard(j, c, r, 0) && OnBoard(j, c, r, 1) && OnBoard(j, c, r, 2) && OnBoard(j, c, r, 3)
  {}

  /** 1 for a set bit or a held cell, 0 otherwise. */
  function Bit(b: bool): (n: int)
    ensures 0 <= n <= 1 && (n == 1 <==> b)
  {
    if b then 1 else 0
  }

  /** Bit i of the base pattern of kind j: `Pattern(j)[i]`. */
  function PatBit(j: int, i: int): bv64
    requires 0 <= j < 4 && 0 <= i < 4
  {
    if j == 0 then (if i == 0 then 0x1 else if i == 1 then 0x80 else if i == 2 then 0x4000 else 0x20_0000)
    else if j == 1 then (if i == 0 then 0x1 else if i == 1 then 0x2 else if i == 2 then 0x4 else 0x8)
    else if j == 2 then (if i == 0 then 0x1 else if i == 1 then 0x100 else if i == 2 then 0x1_0000 else 0x100_0000)
    else (if i == 0 then 0x8 else if i == 1 then 0x200 else if i == 2 then 0x8000 else 0x20_0000)
  }

  lemma PatBits(j: int, i: int)
    requires 0 <= j < 4 && 0 <= i < 4
    ensures Pattern(j)[i] == PatBit(j, i)
  {}

  /** How many bits of the base pattern of kind j the key k holds. */
  function WeightIn(k: bv64, j: int): (n: int)
    requires 0 <= j < 4
    ensures 0 <= n <= 4
  {
    var a, b, c, d := PatBit(j, 0), PatBit(j, 1), PatBit(j, 2), PatBit(j, 3);
    Bit(k & a != 0) + Bit(k & b != 0) + Bit(k & c != 0) + Bit(k & d != 0)
  }

  /** The bit of cell (c, r), which is also the value of `shift` at anchor (c, r). */
  function Shift(c: int, r: int): (s: bv64)
    requires 0 <= c < Width && 0 <= r < 8
    ensures s < 50
  {
    Base(c) + Idx(r)
  }

  /** `m << s`: the mask m moved up by s bits. */
  function Lift(m: bv64, s: bv64): bv64
    requires s < 64
  {
    m << s
  }

  /** Moving a mask up twice is moving it up by the sum. */
  lemma LiftMore(m: bv64, s: bv64, d: bv64)
    requires s < 50 && d <= 4
    ensures Lift(Lift(m, s), d) == Lift(m, s + d)
  {
    LiftSum(m, s, d);
  }

  lemma LiftSum(m: bv64, s: bv64, d: bv64)
    requires s < 50 && d <= 4
    ensures Lift(m << s, d) == m << (s + d)
  {
    ShiftSum(m, s, d);
  }

  lemma ShiftSum(m: bv64, s: bv64, d: bv64)
    requires s < 60 && d <= 4
    ensures (m << s) << d == m << (s + d)
  {}

  /** The next anchor row is the next bit. */
  lemma ShiftNext(c: int, r: int)
    requires 0 <= c < Width && 0 <= r < 7
    ensures Shift(c, r) + 1 == Shift(c, r + 1)
  {}

  /** Every cell of the board, and the spare cell above each column, lies below bit 49. */
  lemma ShiftBelow(c: int, r: int)
    requires 0 <= c < Width && 0 <= r <= Height
    ensures Shift(c, r) < 49
  {}

  /** Past the last anchor row of a column, the next column's bottom cell is d bits on. */
  lemma ShiftColumn(c: int, u: int, d: bv64)
    requires 0 <= c < Width - 1 && ((u == Height && d == 1) || (u == Height - 3 && d == 4))
    ensures Shift(c, u) + d == Shift(c + 1, 0)
  {}

  /** The bit of cell (c, r) is `c * (h + 1) + r`. */
  lemma ShiftCell(c: int, r: int)
    requires 0 <= c < Width && 0 <= r < 8
    ensures Shift(c, r) == 7 * Idx(c) + Idx(r)
  {}

  /** `(pos & mask) >> shift`: a side's cells under the mask, moved back to shift 0. */
  function WinKey(w: bv64, mask: bv64, shift: bv64): bv64
    requires shift < 64
  {
    (w & mask) >> shift
  }

  /** Cell (c, r) is set in w exactly when colour t holds it in the towers g. */
  ghost predicate Agrees(w: bv64, g: seq<seq<bool>>, t: bool, c: int, r: int)
    requires 0 <= c < |g| && c < Width && 0 <= r < Height
  {
    Has(w, Shift(c, r)) <==> Holds(g[c], r, t)
  }

  /** The bits of w are the cells of colour t in the towers g. */
  ghost predicate Marks(w: bv64, g: seq<seq<bool>>, t: bool)
  {
    |g| == Width && forall c, r :: 0 <= c < Width && 0 <= r < Height ==> Agrees(w, g, t, c, r)
  }

  /** How many of the four cells of window (j, c, r) colour t holds. */
  function Held(g: seq<seq<bool>>, t: bool, j: int, c: int, r: int): (n: int)
    requires |g| == Width && Anchor(j, c, r)
    ensures 0 <= n <= 4
  {
    Bit(Holds(g[CellCol(j, c, 0)], CellRow(j, r, 0), t)) + Bit(Holds(g[CellCol(j, c, 1)], CellRow(j, r, 1), t)) +
    Bit(Holds(g[CellCol(j, c, 2)], CellRow(j, r, 2), t)) + Bit(Holds(g[CellCol(j, c, 3)], CellRow(j, r, 3), t))
  }

  /** The key of w under the mask is a sub-pattern of kind j with n bits, and it is 0 exactly when n is. */
  predicate Keyed(w: bv64, mask: bv64, shift: bv64, j: int, n: int)
    requires 0 <= j < 4 && shift < 64
  {
    var k := WinKey(w, mask, shift);
    Subset(k, Mask(j)) && WeightIn(k, j) == n && (w & mask == 0 <==> n == 0)
  }

  /** `(posA & mask) == (pos & mask)`: under the mask, every stone of a is one of pos. */
  predicate Same(a: bv64, pos: bv64, mask: bv64)
  {
    a & mask == pos & mask
  }

  /** With o inside a and x the rest of a, the mask holds only o's stones exactly when it holds none of x's, and the other way round. */
  predicate Splits(a: bv64, o: bv64, x: bv64, mask: bv64)
  {
    Subset(o, a) && x == Sub(a, o) ==> (Same(a, o, mask) <==> x & mask == 0) && (Same(a, x, mask) <==> o & mask == 0)
  }

  /** The key of x read bit by bit: m is the base pattern, b0..b3 the cells' bits, p0..p3 the pattern's bits. */
  predicate Reads(x: bv64, mask: bv64, shift: bv64, m: bv64, b0: bv64, b1: bv64, b2: bv64, b3: bv64,
                  p0: bv64, p1: bv64, p2: bv64, p3: bv64)
    requires shift < 64
  {
    var k := WinKey(x, mask, shift);
    k & !m == 0 &&
    (Has(x, b0) <==> k & p0 != 0) && (Has(x, b1) <==> k & p1 != 0) &&
    (Has(x, b2) <==> k & p2 != 0) && (Has(x, b3) <==> k & p3 != 0) &&
    (x & mask == 0 <==> !Has(x, b0) && !Has(x, b1) && !Has(x, b2) && !Has(x, b3))
  }

  // -----------------------------------------------------------------------
  // The horizontal windows

  lemma Bits000(x: bv64, mask: bv64, shift: bv64)
    requires mask == 0x20_4081 && shift == 0
    ensures Reads(x, mask, shift, 0x20_4081, 0, 7, 14, 21, 0x1, 0x80, 0x4000, 0x20_0000)
  {}

  lemma Key000(w: bv64, g: seq<seq<bool>>, t: bool, j: int, c: int, r: int, mask: bv64, shift: bv64)
    requires j == 0 && c == 0 && r == 0 && shift == Shift(c, r) && mask == Lift(Mask(j), shift) && Marks(w, g, t)
    ensures Keyed(w, mask, shift, j, Held(g, t, j, c, r))
  {
    assert shift == 0 && mask == 0x20_4081;
    assert Shift(0, 0) == 0 && Agrees(w, g, t, 0, 0);
    assert Shift(1, 0) == 7 && Agrees(w, g, t, 1, 0);
    assert Shift(2, 0) == 14 && Agrees(w, g, t, 2, 0);
    assert Shift(3, 0) == 21 && Agrees(w, g, t, 3, 0);
    assert Mask(j) == 0x20_4081;
    Bits000(w, mask, shift);
  }

  lemma Apart000(a: bv64, o: bv64, x: bv64, mask: bv64)
    requires mask == 0x20_4081
    ensures Splits(a, o, x, mask)
  {
    SubtractSubset(o, a);
  }

  lemma Cut000(a: bv64, o: bv64, x: bv64, j: int, c: int, r: int, mask: bv64, shift: bv64)
    requires j == 0 && c == 0 && r == 0 && shift == Shift(c, r) && mask == Lift(Mask(j), shift)
    ensures Splits(a, o, x, mask)
  {
    assert shift == 0 && mask == 0x20_4081;
    assert Shift(0, 0) == 0 && Mask(j) == 0x20_4081;
    Apart000(a, o, x, mask);
  }

  lemma Bits001(x: bv64, mask: bv64, shift: bv64)
    requires mask == 0x40_8102 && shift == 1
    ensures Reads(x, mask, shift, 0x20_4081, 1, 8, 15, 22, 0x1, 0x80, 0x4000, 0x20_0000)
  {}

  lemma Key001(w: bv64, g: seq<seq<bool>>, t: bool, j: int, c: int, r: int, mask: bv64, shift: bv64)
    requires j == 0 && c == 0 && r == 1 && shift == Shift(c, r) && mask == Lift(Mask(j), shift) && Marks(w, g, t)
    ensures Keyed(w, mask, shift, j, Held(g, t, j, c, r))
  {
    assert shift == 1 && mask == 0x40_8102;
    assert Shift(0, 1) == 1 && Agrees(w, g, t, 0, 1);
    assert Shift(1, 1) == 8 && Agrees(w, g, t, 1, 1);
    assert Shift(2, 1) == 15 && Agrees(w, g, t, 2, 1);
    assert Shift(3, 1) == 22 && Agrees(w, g, t, 3, 1);
    assert Mask(j) == 0x20_4081;
    Bits001(w, mask, shift);
  }

  lemma Apart001(a: bv64, o: bv64, x: bv64, mask: bv64)
    requires mask == 0x40_8102
    ensures Splits(a, o, x, mask)
  {
    SubtractSubset(o, a);
  }

  lemma Cut001(a: bv64, o: bv64, x: bv64, j: int, c: int, r: int, mask: bv64, shift: bv64)
    requires j == 0 && c == 0 && r == 1 && shift == Shift(c, r) && mask == Lift(Mask(j), shift)
    ensures Splits(a, o, x, mask)
  {
    assert shift == 1 && mask == 0x40_8102;
    assert Shift(0, 1) == 1 && Mask(j) == 0x20_4081;
    Apart001(a, o, x, mask);
  }

  lemma Bits002(x: bv64, mask: bv64, shift: bv64)
    requires mask == 0x81_0204 && shift == 2
    ensures Reads(x, mask, shift, 0x20_4081, 2, 9, 16, 23, 0x1, 0x80, 0x4000, 0x20_0000)
  {}

  lemma Key002(w: bv64, g: seq<seq<bool>>, t: bool, j: int, c: int, r: int, mask: bv64, shift: bv64)
    requires j == 0 && c == 0 && r == 2 && shift == Shift(c, r) && mask == Lift(Mask(j), shift) && Marks(w, g, t)
    ensures Keyed(w, mask, shift, j, Held(g, t, j, c, r))
  {
    assert shift == 2 && mask == 0x81_0204;
    assert Shift(0, 2) == 2 && Agrees(w, g, t, 0, 2);
    assert Shift(1, 2) == 9 && Agrees(w, g, t, 1, 2);
    assert Shift(2, 2) == 16 && Agrees(w, g, t, 2, 2);
    assert Shift(3, 2) == 23 && Agrees(w, g, t, 3, 2);
    assert Mask(j) == 0x20_4081;
    Bits002(w, mask, shift);
  }

  lemma Apart002(a: bv64, o: bv64, x: bv64, mask: bv64)
    requires mask == 0x81_0204
    ensures Splits(a, o, x, mask)
  {
    SubtractSubset(o, a);
  }

  lemma Cut002(a: bv64, o: bv64, x: bv64, j: int, c: int, r: int, mask: bv64, shift: bv64)
    requires j == 0 && c == 0 && r == 2 && shift == Shift(c, r) && mask == Lift(Mask(j), shift)
    ensures Splits(a, o, x, mask)
  {
    assert shift == 2 && mask == 0x81_0204;
    assert Shift(0, 2) == 2 && Mask(j) == 0x20_4081;
    Apart002(a, o, x, mask);
  }

  lemma Bits003(x: bv64, mask: bv64, shift: bv64)
    requires mask == 0x102_0408 && shift == 3
    ensures Reads(x, mask, shift, 0x20_4081, 3, 10, 17, 24, 0x1, 0x80, 0x4000, 0x20_0000)
  {}

  lemma Key003(w: bv64, g: seq<seq<bool>>, t: bool, j: int, c: int, r: int, mask: bv64, shift: bv64)
    requires j == 0 && c == 0 && r == 3 && shift == Shift(c, r) && mask == Lift(Mask(j), shift) && Marks(w, g, t)
    ensures Keyed(w, mask, shift, j, Held(g, t, j, c, r))
  {
    assert shift == 3 && mask == 0x102_0408;
    assert Shift(0, 3) == 3 && Agrees(w, g, t, 0, 3);
    assert Shift(1, 3) == 10 && Agrees(w, g, t, 1, 3);
    assert Shift(2, 3) == 17 && Agrees(w, g, t, 2, 3);
    assert Shift(3, 3) == 24 && Agrees(w, g, t, 3, 3);
    assert Mask(j) == 0x20_4081;
    Bits003(w, mask, shift);
  }

  lemma Apart003(a: bv64, o: bv64, x: bv64, mask: bv64)
    requires mask == 0x102_0408
    ensures Splits(a, o, x, mask)
  {
    SubtractSubset(o, a);
  }

  lemma Cut003(a: bv64, o: bv64, x: bv64, j: int, c: int, r: int, mask: bv64, shift: bv64)
    requires j == 0 && c == 0 && r == 3 && shift == Shift(c, r) && mask == Lift(Mask(j), shift)
    ensures Splits(a, o, x, mask)
  {
    assert shift == 3 && mask == 0x102_0408;
    assert Shift(0, 3) == 3 && Mask(j) == 0x20_4081;
    Apart003(a, o, x, mask);
  }

  lemma Bits004(x: bv64, mask: bv64, shift: bv64)
    requires mask == 0x204_0810 && shift == 4
    ensures Reads(x, mask, shift, 0x20_4081, 4, 11, 18, 25, 0x1, 0x80, 0x4000, 0x20_0000)
  {}

  lemma Key004(w: bv64, g: seq<seq<bool>>, t: bool, j: int, c: int, r: int, mask: bv64, shift: bv64)
    requires j == 0 && c == 0 && r == 4 && shift == Shift(c, r) && mask == Lift(Mask(j), shift) && Marks(w, g, t)
    ensures Keyed(w, mask, shift, j, Held(g, t, j, c, r))
  {
    assert shift == 4 && mask == 0x204_0810;
    assert Shift(0, 4) == 4 && Agrees(w, g, t, 0, 4);
    assert Shift(1, 4) == 11 && Agrees(w, g, t, 1, 4);
    assert Shift(2, 4) == 18 && Agrees(w, g, t, 2, 4);
    assert Shift(3, 4) == 25 && Agrees(w, g, t, 3, 4);
    assert Mask(j) == 0x20_4081;
    Bits004(w, mask, shift);
  }

  lemma Apart004(a: bv64, o: bv64, x: bv64, mask: bv64)
    requires mask == 0x204_0810
    ensures Splits(a, o, x, mask)
  {
    SubtractSubset(o, a);
  }

  lemma Cut004(a: bv64, o: bv64, x: bv64, j: int, c: int, r: int, mask: bv64, shift: bv64)
    requires j == 0 && c == 0 && r == 4 && shift == Shift(c, r) && mask == Lift(Mask(j), shift)
    ensures Splits(a, o, x, mask)
  {
    assert shift == 4 && mask == 0x204_0810;
    assert Shift(0, 4) == 4 && Mask(j) == 0x20_4081;
    Apart004(a, o, x, mask);
  }

  lemma Bits005(x: bv64, mask: bv64, shift: bv64)
    requires mask == 0x408_1020 && shift == 5
    ensures Reads(x, mask, shift, 0x20_4081, 5, 12, 19, 26, 0x1, 0x80, 0x4000, 0x20_0000)
  {}

  lemma Key005(w: bv64, g: seq<seq<bool>>, t: bool, j: int, c: int, r: int, mask: bv64, shift: bv64)
    requires j == 0 && c == 0 && r == 5 && shift == Shift(c, r) && mask == Lift(Mask(j), shift) && Marks(w, g, t)
    ensures Keyed(w, mask, shift, j, Held(g, t, j, c, r))
  {
    assert shift == 5 && mask == 0x408_1020;
    assert Shift(0, 5) == 5 && Agrees(w, g, t, 0, 5);
    assert Shift(1, 5) == 12 && Agrees(w, g, t, 1, 5);
    assert Shift(2, 5) == 19 && Agrees(w, g, t, 2, 5);
    assert Shift(3, 5) == 26 && Agrees(w, g, t, 3, 5);
    assert Mask(j) == 0x20_4081;
    Bits005(w, mask, shift);
  }

  lemma Apart005(a: bv64, o: bv64, x: bv64, mask: bv64)
    requires mask == 0x408_1020
    ensures Splits(a, o, x, mask)
  {
    SubtractSubset(o, a);
  }

  lemma Cut005(a: bv64, o: bv64, x: bv64, j: int, c: int, r: int, mask: bv64, shift: bv64)
    requires j == 0 && c == 0 && r == 5 && shift == Shift(c, r) && mask == Lift(Mask(j), shift)
    ensures Splits(a, o, x, mask)
  {
    assert shift == 5 && mask == 0x408_1020;
    assert Shift(0, 5) == 5 && Mask(j) == 0x20_4081;
    Apart005(a, o, x, mask);
  }

  lemma Bits010(x: bv64, mask: bv64, shift: bv64)
    requires mask == 0x1020_4080 && shift == 7
    ensures Reads(x, mask, shift, 0x20_4081, 7, 14, 21, 28, 0x1, 0x80, 0x4000, 0x20_0000)
  {}

  lemma Key010(w: bv64, g: seq<seq<bool>>, t: bool, j: int, c: int, r: int, mask: bv64, shift: bv64)
    requires j == 0 && c == 1 && r == 0 && shift == Shift(c, r) && mask == Lift(Mask(j), shift) && Marks(w, g, t)
    ensures Keyed(w, mask, shift, j, Held(g, t, j, c, r))
  {
    assert shift == 7 && mask == 0x1020_4080;
    assert Shift(1, 0) == 7 && Agrees(w, g, t, 1, 0);
    assert Shift(2, 0) == 14 && Agrees(w, g, t, 2, 0);
    assert Shift(3, 0) == 21 && Agrees(w, g, t, 3, 0);
    assert Shift(4, 0) == 28 && Agrees(w, g, t, 4, 0);
    assert Mask(j) == 0x20_4081;
    Bits010(w, mask, shift);
  }

  lemma Apart010(a: bv64, o: bv64, x: bv64, mask: bv64)
    requires mask == 0x1020_4080
    ensures Splits(a, o, x, mask)
  {
    SubtractSubset(o, a);
  }

  lemma Cut010(a: bv64, o: bv64, x: bv64, j: int, c: int, r: int, mask: bv64, shift: bv64)
    requires j == 0 && c == 1 && r == 0 && shift == Shift(c, r) && mask == Lift(Mask(j), shift)
    ensures Splits(a, o, x, mask)
  {
    assert shift == 7 && mask == 0x1020_4080;
    assert Shift(1, 0) == 7 && Mask(j) == 0x20_4081;
    Apart010(a, o, x, mask);
  }

  lemma Bits011(x: bv64, mask: bv64, shift: bv64)
    requires mask == 0x2040_8100 && shift == 8
    ensures Reads(x, mask, shift, 0x20_4081, 8, 15, 22, 29, 0x1, 0x80, 0x4000, 0x20_0000)
  {}

  lemma Key011(w: bv64, g: seq<seq<bool>>, t: bool, j: int, c: int, r: int, mask: bv64, shift: bv64)
    requires j == 0 && c == 1 && r == 1 && shift == Shift(c, r) && mask == Lift(Mask(j), shift) && Marks(w, g, t)
    ensures Keyed(w, mask, shift, j, Held(g, t, j, c, r))
  {
    assert shift == 8 && mask == 0x2040_8100;
    assert Shift(1, 1) == 8 && Agrees(w, g, t, 1, 1);
    assert Shift(2, 1) == 15 && Agrees(w, g, t, 2, 1);
    assert Shift(3, 1) == 22 && Agrees(w, g, t, 3, 1);
    assert Shift(4, 1) == 29 && Agrees(w, g, t, 4, 1);
    assert Mask(j) == 0x20_4081;
    Bits011(w, mask, shift);
  }

  lemma Apart011(a: bv64, o: bv64, x: bv64, mask: bv64)
    requires mask == 0x2040_8100
    ensures Splits(a, o, x, mask)
  {
    SubtractSubset(o, a);
  }

  lemma Cut011(a: bv64, o: bv64, x: bv64, j: int, c: int, r: int, mask: bv64, shift: bv64)
    requires j == 0 && c == 1 && r == 1 && shift == Shift(c, r) && mask == Lift(Mask(j), shift)
    ensures Splits(a, o, x, mask)
  {
    assert shift == 8 && mask == 0x2040_8100;
    assert Shift(1, 1) == 8 && Mask(j) == 0x20_4081;
    Apart011(a, o, x, mask);
  }

  lemma Bits012(x: bv64, mask: bv64, shift: bv64)
    requires mask == 0x4081_0200 && shift == 9
    ensures Reads(x, mask, shift, 0x20_4081, 9, 16, 23, 30, 0x1, 0x80, 0x4000, 0x20_0000)
  {}

  lemma Key012(w: bv64, g: seq<seq<bool>>, t: bool, j: int, c: int, r: int, mask: bv64, shift: bv64)
    requires j == 0 && c == 1 && r == 2 && shift == Shift(c, r) && mask == Lift(Mask(j), shift) && Marks(w, g, t)
    ensures Keyed(w, mask, shift, j, Held(g, t, j, c, r))
  {
    assert shift == 9 && mask == 0x4081_0200;
    assert Shift(1, 2) == 9 && Agrees(w, g, t, 1, 2);
    assert Shift(2, 2) == 16 && Agrees(w, g, t, 2, 2);
    assert Shift(3, 2) == 23 && Agrees(w, g, t, 3, 2);
    assert Shift(4, 2) == 30 && Agrees(w, g, t, 4, 2);
    assert Mask(j) == 0x20_4081;
    Bits012(w, mask, shift);
  }

  lemma Apart012(a: bv64, o: bv64, x: bv64, mask: bv64)
    requires mask == 0x4081_0200
    ensures Splits(a, o, x, mask)
  {
    SubtractSubset(o, a);
  }

  lemma Cut012(a: bv64, o: bv64, x: bv64, j: int, c: int, r: int, mask: bv64, shift: bv64)
    requires j == 0 && c == 1 && r == 2 && shift == Shift(c, r) && mask == Lift(Mask(j), shift)
    ensures Splits(a, o, x, mask)
  {
    assert shift == 9 && mask == 0x4081_0200;
    assert Shift(1, 2) == 9 && Mask(j) == 0x20_4081;
    Apart012(a, o, x, mask);
  }

  lemma Bits013(x: bv64, mask: bv64, shift: bv64)
    requires mask == 0x8102_0400 && shift == 10
    ensures Reads(x, mask, shift, 0x20_4081, 10, 17, 24, 31, 0x1, 0x80, 0x4000, 0x20_0000)
  {}

  lemma Key013(w: bv64, g: seq<seq<bool>>, t: bool, j: int, c: int, r: int, mask: bv64, shift: bv64)
    requires j == 0 && c == 1 && r == 3 && shift == Shift(c, r) && mask == Lift(Mask(j), shift) && Marks(w, g, t)
    ensures Keyed(w, mask, shift, j, Held(g, t, j, c, r))
  {
    assert shift == 10 && mask == 0x8102_0400;
    assert Shift(1, 3) == 10 && Agrees(w, g, t, 1, 3);
    assert Shift(2, 3) == 17 && Agrees(w, g, t, 2, 3);
    assert Shift(3, 3) == 24 && Agrees(w, g, t, 3, 3);
    assert Shift(4, 3) == 31 && Agrees(w, g, t, 4, 3);
    assert Mask(j) == 0x20_4081;
    Bits013(w, mask, shift);
  }

  lemma Apart013(a: bv64, o: bv64, x: bv64, mask: bv64)
    requires mask == 0x8102_0400
    ensures Splits(a, o, x, mask)
  {
    SubtractSubset(o, a);
  }

  lemma Cut013(a: bv64, o: bv64, x: bv64, j: int, c: int, r: int, mask: bv64, shift: bv64)
    requires j == 0 && c == 1 && r == 3 && shift == Shift(c, r) && mask == Lift(Mask(j), shift)
    ensures Splits(a, o, x, mask)
  {
    assert shift == 10 && mask == 0x8102_0400;
    assert Shift(1, 3) == 10 && Mask(j) == 0x20_4081;
    Apart013(a, o, x, mask);
  }

  lemma Bits014(x: bv64, mask: bv64, shift: bv64)
    requires mask == 0x1_0204_0800 && shift == 11
    ensures Reads(x, mask, shift, 0x20_4081, 11, 18, 25, 32, 0x1, 0x80, 0x4000, 0x20_0000)
  {}

  lemma Key014(w: bv64, g: seq<seq<bool>>, t: bool, j: int, c: int, r: int, mask: bv64, shift: bv64)
    requires j == 0 && c == 1 && r == 4 && shift == Shift(c, r) && mask == Lift(Mask(j), shift) && Marks(w, g, t)
    ensures Keyed(w, mask, shift, j, Held(g, t, j, c, r))
  {
    assert shift == 11 && mask == 0x1_0204_0800;
    assert Shift(1, 4) == 11 && Agrees(w, g, t, 1, 4);
    assert Shift(2, 4) == 18 && Agrees(w, g, t, 2, 4);
    assert Shift(3, 4) == 25 && Agrees(w, g, t, 3, 4);
    assert Shift(4, 4) == 32 && Agrees(w, g, t, 4, 4);
    assert Mask(j) == 0x20_4081;
    Bits014(w, mask, shift);
  }

  lemma Apart014(a: bv64, o: bv64, x: bv64, mask: bv64)
    requires mask == 0x1_0204_0800
    ensures Splits(a, o, x, mask)
  {
    SubtractSubset(o, a);
  }

  lemma Cut014(a: bv64, o: bv64, x: bv64, j: int, c: int, r: int, mask: bv64, shift: bv64)
    requires j == 0 && c == 1 && r == 4 && shift == Shift(c, r) && mask == Lift(Mask(j), shift)
    ensures Splits(a, o, x, mask)
  {
    assert shift == 11 && mask == 0x1_0204_0800;
    assert Shift(1, 4) == 11 && Mask(j) == 0x20_4081;
    Apart014(a, o, x, mask);
  }

  lemma Bits015(x: bv64, mask: bv64, shift: bv64)
    requires mask == 0x2_0408_1000 && shift == 12
    ensures Reads(x, mask, shift, 0x20_4081, 12, 19, 26, 33, 0x1, 0x80, 0x4000, 0x20_0000)
  {}

  lemma Key015(w: bv64, g: seq<seq<bool>>, t: bool, j: int, c: int, r: int, mask: bv64, shift: bv64)
    requires j == 0 && c == 1 && r == 5 && shift == Shift(c, r) && mask == Lift(Mask(j), shift) && Marks(w, g, t)
    ensures Keyed(w, mask, shift, j, Held(g, t, j, c, r))
  {
    assert shift == 12 && mask == 0x2_0408_1000;
    assert Shift(1, 5) == 12 && Agrees(w, g, t, 1, 5);
    assert Shift(2, 5) == 19 && Agrees(w, g, t, 2, 5);
    assert Shift(3, 5) == 26 && Agrees(w, g, t, 3, 5);
    assert Shift(4, 5) == 33 && Agrees(w, g, t, 4, 5);
    assert Mask(j) == 0x20_4081;
    Bits015(w, mask, shift);
  }

  lemma Apart015(a: bv64, o: bv64, x: bv64, mask: bv64)
    requires mask == 0x2_0408_1000
    ensures Splits(a, o, x, mask)
  {
    SubtractSubset(o, a);
  }

  lemma Cut015(a: bv64, o: bv64, x: bv64, j: int, c: int, r: int, mask: bv64, shift: bv64)
    requires j == 0 && c == 1 && r == 5 && shift == Shift(c, r) && mask == Lift(Mask(j), shift)
    ensures Splits(a, o, x, mask)
  {
    assert shift == 12 && mask == 0x2_0408_1000;
    assert Shift(1, 5) == 12 && Mask(j) == 0x20_4081;
    Apart015(a, o, x, mask);
  }

  lemma Bits020(x: bv64, mask: bv64, shift: bv64)
    requires mask == 0x8_1020_4000 && shift == 14
    ensures Reads(x, mask, shift, 0x20_4081, 14, 21, 28, 35, 0x1, 0x80, 0x4000, 0x20_0000)
  {}

  lemma Key020(w: bv64, g: seq<seq<bool>>, t: bool, j: int, c: int, r: int, mask: bv64, shift: bv64)
    requires j == 0 && c == 2 && r == 0 && shift == Shift(c, r) && mask == Lift(Mask(j), shift) && Marks(w, g, t)
    ensures Keyed(w, mask, shift, j, Held(g, t, j, c, r))
  {
    assert shift == 14 && mask == 0x8_1020_4000;
    assert Shift(2, 0) == 14 && Agrees(w, g, t, 2, 0);
    assert Shift(3, 0) == 21 && Agrees(w, g, t, 3, 0);
    assert Shift(4, 0) == 28 && Agrees(w, g, t, 4, 0);
    assert Shift(5, 0) == 35 && Agrees(w, g, t, 5, 0);
    assert Mask(j) == 0x20_4081;
    Bits020(w, mask, shift);
  }

  lemma Apart020(a: bv64, o: bv64, x: bv64, mask: bv64)
    requires mask == 0x8_1020_4000
    ensures Splits(a, o, x, mask)
  {
    SubtractSubset(o, a);
  }

  lemma Cut020(a: bv64, o: bv64, x: bv64, j: int, c: int, r: int, mask: bv64, shift: bv64)
    requires j == 0 && c == 2 && r == 0 && shift == Shift(c, r) && mask == Lift(Mask(j), shift)
    ensures Splits(a, o, x, mask)
  {
    assert shift == 14 && mask == 0x8_1020_4000;
    assert Shift(2, 0) == 14 && Mask(j) == 0x20_4081;
    Apart020(a, o, x, mask);
  }

  lemma Bits021(x: bv64, mask: bv64, shift: bv64)
    requires mask == 0x10_2040_8000 && shift == 15
    ensures Reads(x, mask, shift, 0x20_4081, 15, 22, 29, 36, 0x1, 0x80, 0x4000, 0x20_0000)
  {}

  lemma Key021(w: bv64, g: seq<seq<bool>>, t: bool, j: int, c: int, r: int, mask: bv64, shift: bv64)
    requires j == 0 && c == 2 && r == 1 && shift == Shift(c, r) && mask == Lift(Mask(j), shift) && Marks(w, g, t)
    ensures Keyed(w, mask, shift, j, Held(g, t, j, c, r))
  {
    assert shift == 15 && mask == 0x10_2040_8000;
    assert Shift(2, 1) == 15 && Agrees(w, g, t, 2, 1);
    assert Shift(3, 1) == 22 && Agrees(w, g, t, 3, 1);
    assert Shift(4, 1) == 29 && Agrees(w, g, t, 4, 1);
    assert Shift(5, 1) == 36 && Agrees(w, g, t, 5, 1);
    assert Mask(j) == 0x20_4081;
    Bits021(w, mask, shift);
  }

  lemma Apart021(a: bv64, o: bv64, x: bv64, mask: bv64)
    requires mask == 0x10_2040_8000
    ensures Splits(a, o, x, mask)
  {
    SubtractSubset(o, a);
  }

  lemma Cut021(a: bv64, o: bv64, x: bv64, j: int, c: int, r: int, mask: bv64, shift: bv64)
    requires j == 0 && c == 2 && r == 1 && shift == Shift(c, r) && mask == Lift(Mask(j), shift)
    ensures Splits(a, o, x, mask)
  {
    assert shift == 15 && mask == 0x10_2040_8000;
    assert Shift(2, 1) == 15 && Mask(j) == 0x20_4081;
    Apart021(a, o, x, mask);
  }

  lemma Bits022(x: bv64, mask: bv64, shift: bv64)
    requires mask == 0x20_4081_0000 && shift == 16
    ensures Reads(x, mask, shift, 0x20_4081, 16, 23, 30, 37, 0x1, 0x80, 0x4000, 0x20_0000)
  {}

  lemma Key022(w: bv64, g: seq<seq<bool>>, t: bool, j: int, c: int, r: int, mask: bv64, shift: bv64)
    requires j == 0 && c == 2 && r == 2 && shift == Shift(c, r) && mask == Lift(Mask(j), shift) && Marks(w, g, t)
    ensures Keyed(w, mask, shift, j, Held(g, t, j, c, r))
  {
    assert shift == 16 && mask == 0x20_4081_0000;
    assert Shift(2, 2) == 16 && Agrees(w, g, t, 2, 2);
    assert Shift(3, 2) == 23 && Agrees(w, g, t, 3, 2);
    assert Shift(4, 2) == 30 && Agrees(w, g, t, 4, 2);
    assert Shift(5, 2) == 37 && Agrees(w, g, t, 5, 2);
    assert Mask(j) == 0x20_4081;
    Bits022(w, mask, shift);
  }

  lemma Apart022(a: bv64, o: bv64, x: bv64, mask: bv64)
    requires mask == 0x20_4081_0000
    ensures Splits(a, o, x, mask)
  {
    SubtractSubset(o, a);
  }

  lemma Cut022(a: bv64, o: bv64, x: bv64, j: int, c: int, r: int, mask: bv64, shift: bv64)
    requires j == 0 && c == 2 && r == 2 && shift == Shift(c, r) && mask == Lift(Mask(j), shift)
    ensures Splits(a, o, x, mask)
  {
    assert shift == 16 && mask == 0x20_4081_0000;
    assert Shift(2, 2) == 16 && Mask(j) == 0x20_4081;
    Apart022(a, o, x, mask);
  }

  lemma Bits023(x: bv64, mask: bv64, shift: bv64)
    requires mask == 0x40_8102_0000 && shift == 17
    ensures Reads(x, mask, shift, 0x20_4081, 17, 24, 31, 38, 0x1, 0x80, 0x4000, 0x20_0000)
  {}

  lemma Key023(w: bv64, g: seq<seq<bool>>, t: bool, j: int, c: int, r: int, mask: bv64, shift: bv64)
    requires j == 0 && c == 2 && r == 3 && shift == Shift(c, r) && mask == Lift(Mask(j), shift) && Marks(w, g, t)
    ensures Keyed(w, mask, shift, j, Held(g, t, j, c, r))
  {
    assert shift == 17 && mask == 0x40_8102_0000;
    assert Shift(2, 3) == 17 && Agrees(w, g, t, 2, 3);
    assert Shift(3, 3) == 24 && Agrees(w, g, t, 3, 3);
    assert Shift(4, 3) == 31 && Agrees(w, g, t, 4, 3);
    assert Shift(5, 3) == 38 && Agrees(w, g, t, 5, 3);
    assert Mask(j) == 0x20_4081;
    Bits023(w, mask, shift);
  }

  lemma Apart023(a: bv64, o: bv64, x: bv64, mask: bv64)
    requires mask == 0x40_8102_0000
    ensures Splits(a, o, x, mask)
  {
    SubtractSubset(o, a);
  }

  lemma Cut023(a: bv64, o: bv64, x: bv64, j: int, c: int, r: int, mask: bv64, shift: bv64)
    requires j == 0 && c == 2 && r == 3 && shift == Shift(c, r) && mask == Lift(Mask(j), shift)
    ensures Splits(a, o, x, mask)
  {
    assert shift == 17 && mask == 0x40_8102_0000;
    assert Shift(2, 3) == 17 && Mask(j) == 0x20_4081;
    Apart023(a, o, x, mask);
  }

  lemma Bits024(x: bv64, mask: bv64, shift: bv64)
    requires mask == 0x81_0204_0000 && shift == 18
    ensures Reads(x, mask, shift, 0x20_4081, 18, 25, 32, 39, 0x1, 0x80, 0x4000, 0x20_0000)
  {}

  lemma Key024(w: bv64, g: seq<seq<bool>>, t: bool, j: int, c: int, r: int, mask: bv64, shift: bv64)
    requires j == 0 && c == 2 && r == 4 && shift == Shift(c, r) && mask == Lift(Mask(j), shift) && Marks(w, g, t)
    ensures Keyed(w, mask, shift, j, Held(g, t, j, c, r))
  {
    assert shift == 18 && mask == 0x81_0204_0000;
    assert Shift(2, 4) == 18 && Agrees(w, g, t, 2, 4);
    assert Shift(3, 4) == 25 && Agrees(w, g, t, 3, 4);
    assert Shift(4, 4) == 32 && Agrees(w, g, t, 4, 4);
    assert Shift(5, 4) == 39 && Agrees(w, g, t, 5, 4);
    assert Mask(j) == 0x20_4081;
    Bits024(w, mask, shift);
  }

  lemma Apart024(a: bv64, o: bv64, x: bv64, mask: bv64)
    requires mask == 0x81_0204_0000
    ensures Splits(a, o, x, mask)
  {
    SubtractSubset(o, a);
  }

  lemma Cut024(a: bv64, o: bv64, x: bv64, j: int, c: int, r: int, mask: bv64, shift: bv64)
    requires j == 0 && c == 2 && r == 4 && shift == Shift(c, r) && mask == Lift(Mask(j), shift)
    ensures Splits(a, o, x, mask)
  {
    assert shift == 18 && mask == 0x81_0204_0000;
    assert Shift(2, 4) == 18 && Mask(j) == 0x20_4081;
    Apart024(a, o, x, mask);
  }

  lemma Bits025(x: bv64, mask: bv64, shift: bv64)
    requires mask == 0x102_0408_0000 && shift == 19
    ensures Reads(x, mask, shift, 0x20_4081, 19, 26, 33, 40, 0x1, 0x80, 0x4000, 0x20_0000)
  {}

  lemma Key025(w: bv64, g: seq<seq<bool>>, t: bool, j: int, c: int, r: int, mask: bv64, shift: bv64)
    requires j == 0 && c == 2 && r == 5 && shift == Shift(c, r) && mask == Lift(Mask(j), shift) && Marks(w, g, t)
    ensures Keyed(w, mask, shift, j, Held(g, t, j, c, r))
  {
    assert shift == 19 && mask == 0x102_0408_0000;
    assert Shift(2, 5) == 19 && Agrees(w, g, t, 2, 5);
    assert Shift(3, 5) == 26 && Agrees(w, g, t, 3, 5);
    assert Shift(4, 5) == 33 && Agrees(w, g, t, 4, 5);
    assert Shift(5, 5) == 40 && Agrees(w, g, t, 5, 5);
    assert Mask(j) == 0x20_4081;
    Bits025(w, mask, shift);
  }

  lemma Apart025(a: bv64, o: bv64, x: bv64, mask: bv64)
    requires mask == 0x102_0408_0000
    ensures Splits(a, o, x, mask)
  {
    SubtractSubset(o, a);
  }

  lemma Cut025(a: bv64, o: bv64, x: bv64, j: int, c: int, r: int, mask: bv64, shift: bv64)
    requires j == 0 && c == 2 && r == 5 && shift == Shift(c, r) && mask == Lift(Mask(j), shift)
    ensures Splits(a, o, x, mask)
  {
    assert shift == 19 && mask == 0x102_0408_0000;
    assert Shift(2, 5) == 19 && Mask(j) == 0x20_4081;
    Apart025(a, o, x, mask);
  }

  lemma Bits030(x: bv64, mask: bv64, shift: bv64)
    requires mask == 0x408_1020_0000 && shift == 21
    ensures Reads(x, mask, shift, 0x20_4081, 21, 28, 35, 42, 0x1, 0x80, 0x4000, 0x20_0000)
  {}

  lemma Key030(w: bv64, g: seq<seq<bool>>, t: bool, j: int, c: int, r: int, mask: bv64, shift: bv64)
    requires j == 0 && c == 3 && r == 0 && shift == Shift(c, r) && mask == Lift(Mask(j), shift) && Marks(w, g, t)
    ensures Keyed(w, mask, shift, j, Held(g, t, j, c, r))
  {
    assert shift == 21 && mask == 0x408_1020_0000;
    assert Shift(3, 0) == 21 && Agrees(w, g, t, 3, 0);
    assert Shift(4, 0) == 28 && Agrees(w, g, t, 4, 0);
    assert Shift(5, 0) == 35 && Agrees(w, g, t, 5, 0);
    assert Shift(6, 0) == 42 && Agrees(w, g, t, 6, 0);
    assert Mask(j) == 0x20_4081;
    Bits030(w, mask, shift);
  }

  lemma Apart030(a: bv64, o: bv64, x: bv64, mask: bv64)
    requires mask == 0x408_1020_0000
    ensures Splits(a, o, x, mask)
  {
    SubtractSubset(o, a);
  }

  lemma Cut030(a: bv64, o: bv64, x: bv64, j: int, c: int, r: int, mask: bv64, shift: bv64)
    requires j == 0 && c == 3 && r == 0 && shift == Shift(c, r) && mask == Lift(Mask(j), shift)
    ensures Splits(a, o, x, mask)
  {
    assert shift == 21 && mask == 0x408_1020_0000;
    assert Shift(3, 0) == 21 && Mask(j) == 0x20_4081;
    Apart030(a, o, x, mask);
  }

  lemma Bits031(x: bv64, mask: bv64, shift: bv64)
    requires mask == 0x810_2040_0000 && shift == 22
    ensures Reads(x, mask, shift, 0x20_4081, 22, 29, 36, 43, 0x1, 0x80, 0x4000, 0x20_0000)
  {}

  lemma Key031(w: bv64, g: seq<seq<bool>>, t: bool, j: int, c: int, r: int, mask: bv64, shift: bv64)
    requires j == 0 && c == 3 && r == 1 && shift == Shift(c, r) && mask == Lift(Mask(j), shift) && Marks(w, g, t)
    ensures Keyed(w, mask, shift, j, Held(g, t, j, c, r))
  {
    assert shift == 22 && mask == 0x810_2040_0000;
    assert Shift(3, 1) == 22 && Agrees(w, g, t, 3, 1);
    assert Shift(4, 1) == 29 && Agrees(w, g, t, 4, 1);
    assert Shift(5, 1) == 36 && Agrees(w, g, t, 5, 1);
    assert Shift(6, 1) == 43 && Agrees(w, g, t, 6, 1);
    assert Mask(j) == 0x20_4081;
    Bits031(w, mask, shift);
  }

  lemma Apart031(a: bv64, o: bv64, x: bv64, mask: bv64)
    requires mask == 0x810_2040_0000
    ensures Splits(a, o, x, mask)
  {
    SubtractSubset(o, a);
  }

  lemma Cut031(a: bv64, o: bv64, x: bv64, j: int, c: int, r: int, mask: bv64, shift: bv64)
    requires j == 0 && c == 3 && r == 1 && shift == Shift(c, r) && mask == Lift(Mask(j), shift)
    ensures Splits(a, o, x, mask)
  {
    assert shift == 22 && mask == 0x810_2040_0000;
    assert Shift(3, 1) == 22 && Mask(j) == 0x20_4081;
    Apart031(a, o, x, mask);
  }

  lemma Bits032(x: bv64, mask: bv64, shift: bv64)
    requires mask == 0x1020_4080_0000 && shift == 23
    ensures Reads(x, mask, shift, 0x20_4081, 23, 30, 37, 44, 0x1, 0x80, 0x4000, 0x20_0000)
  {}

  lemma Key032(w: bv64, g: seq<seq<bool>>, t: bool, j: int, c: int, r: int, mask: bv64, shift: bv64)
    requires j == 0 && c == 3 && r == 2 && shift == Shift(c, r) && mask == Lift(Mask(j), shift) && Marks(w, g, t)
    ensures Keyed(w, mask, shift, j, Held(g, t, j, c, r))
  {
    assert shift == 23 && mask == 0x1020_4080_0000;
    assert Shift(3, 2) == 23 && Agrees(w, g, t, 3, 2);
    assert Shift(4, 2) == 30 && Agrees(w, g, t, 4, 2);
    assert Shift(5, 2) == 37 && Agrees(w, g, t, 5, 2);
    assert Shift(6, 2) == 44 && Agrees(w, g, t, 6, 2);
    assert Mask(j) == 0x20_4081;
    Bits032(w, mask, shift);
  }

  lemma Apart032(a: bv64, o: bv64, x: bv64, mask: bv64)
    requires mask == 0x1020_4080_0000
    ensures Splits(a, o, x, mask)
  {
    SubtractSubset(o, a);
  }

  lemma Cut032(a: bv64, o: bv64, x: bv64, j: int, c: int, r: int, mask: bv64, shift: bv64)
    requires j == 0 && c == 3 && r == 2 && shift == Shift(c, r) && mask == Lift(Mask(j), shift)
    ensures Splits(a, o, x, mask)
  {
    assert shift == 23 && mask == 0x1020_4080_0000;
    assert Shift(3, 2) == 23 && Mask(j) == 0x20_4081;
    Apart032(a, o, x, mask);
  }

  lemma Bits033(x: bv64, mask: bv64, shift: bv64)
    requires mask == 0x2040_8100_0000 && shift == 24
    ensures Reads(x, mask, shift, 0x20_4081, 24, 31, 38, 45, 0x1, 0x80, 0x4000, 0x20_0000)
  {}

  lemma Key033(w: bv64, g: seq<seq<bool>>, t: bool, j: int, c: int, r: int, mask: bv64, shift: bv64)
    requires j == 0 && c == 3 && r == 3 && shift == Shift(c, r) && mask == Lift(Mask(j), shift) && Marks(w, g, t)
    ensures Keyed(w, mask, shift, j, Held(g, t, j, c, r))
  {
    assert shift == 24 && mask == 0x2040_8100_0000;
    assert Shift(3, 3) == 24 && Agrees(w, g, t, 3, 3);
    assert Shift(4, 3) == 31 && Agrees(w, g, t, 4, 3);
    assert Shift(5, 3) == 38 && Agrees(w, g, t, 5, 3);
    assert Shift(6, 3) == 45 && Agrees(w, g, t, 6, 3);
    assert Mask(j) == 0x20_4081;
    Bits033(w, mask, shift);
  }

  lemma Apart033(a: bv64, o: bv64, x: bv64, mask: bv64)
    requires mask == 0x2040_8100_0000
    ensures Splits(a, o, x, mask)
  {
    SubtractSubset(o, a);
  }

  lemma Cut033(a: bv64, o: bv64, x: bv64, j: int, c: int, r: int, mask: bv64, shift: bv64)
    requires j == 0 && c == 3 && r == 3 && shift == Shift(c, r) && mask == Lift(Mask(j), shift)
    ensures Splits(a, o, x, mask)
  {
    assert shift == 24 && mask == 0x2040_8100_0000;
    assert Shift(3, 3) == 24 && Mask(j) == 0x20_4081;
    Apart033(a, o, x, mask);
  }

  lemma Bits034(x: bv64, mask: bv64, shift: bv64)
    requires mask == 0x4081_0200_0000 && shift == 25
    ensures Reads(x, mask, shift, 0x20_4081, 25, 32, 39, 46, 0x1, 0x80, 0x4000, 0x20_0000)
  {}

  lemma Key034(w: bv64, g: seq<seq<bool>>, t: bool, j: int, c: int, r: int, mask: bv64, shift: bv64)
    requires j == 0 && c == 3 && r == 4 && shift == Shift(c, r) && mask == Lift(Mask(j), shift) && Marks(w, g, t)
    ensures Keyed(w, mask, shift, j, Held(g, t, j, c, r))
  {
    assert shift == 25 && mask == 0x4081_0200_0000;
    assert Shift(3, 4) == 25 && Agrees(w, g, t, 3, 4);
    assert Shift(4, 4) == 32 && Agrees(w, g, t, 4, 4);
    assert Shift(5, 4) == 39 && Agrees(w, g, t, 5, 4);
    assert Shift(6, 4) == 46 && Agrees(w, g, t, 6, 4);
    assert Mask(j) == 0x20_4081;
    Bits034(w, mask, shift);
  }

  lemma Apart034(a: bv64, o: bv64, x: bv64, mask: bv64)
    requires mask == 0x4081_0200_0000
    ensures Splits(a, o, x, mask)
  {
    SubtractSubset(o, a);
  }

  lemma Cut034(a: bv64, o: bv64, x: bv64, j: int, c: int, r: int, mask: bv64, shift: bv64)
    requires j == 0 && c == 3 && r == 4 && shift == Shift(c, r) && mask == Lift(Mask(j), shift)
    ensures Splits(a, o, x, mask)
  {
    assert shift == 25 && mask == 0x4081_0200_0000;
    assert Shift(3, 4) == 25 && Mask(j) == 0x20_4081;
    Apart034(a, o, x, mask);
  }

  lemma Bits035(x: bv64, mask: bv64, shift: bv64)
    requires mask == 0x8102_0400_0000 && shift == 26
    ensures Reads(x, mask, shift, 0x20_4081, 26, 33, 40, 47, 0x1, 0x80, 0x4000, 0x20_0000)
  {}

  lemma Key035(w: bv64, g: seq<seq<bool>>, t: bool, j: int, c: int, r: int, mask: bv64, shift: bv64)
    requires j == 0 && c == 3 && r == 5 && shift == Shift(c, r) && mask == Lift(Mask(j), shift) && Marks(w, g, t)
    ensures Keyed(w, mask, shift, j, Held(g, t, j, c, r))
  {
    assert shift == 26 && mask == 0x8102_0400_0000;
    assert Shift(3, 5) == 26 && Agrees(w, g, t, 3, 5);
    assert Shift(4, 5) == 33 && Agrees(w, g, t, 4, 5);
    assert Shift(5, 5) == 40 && Agrees(w, g, t, 5, 5);
    assert Shift(6, 5) == 47 && Agrees(w, g, t, 6, 5);
    assert Mask(j) == 0x20_4081;
    Bits035(w, mask, shift);
  }

  lemma Apart035(a: bv64, o: bv64, x: bv64, mask: bv64)
    requires mask == 0x8102_0400_0000
    ensures Splits(a, o, x, mask)
  {
    SubtractSubset(o, a);
  }

  lemma Cut035(a: bv64, o: bv64, x: bv64, j: int, c: int, r: int, mask: bv64, shift: bv64)
    requires j == 0 && c == 3 && r == 5 && shift == Shift(c, r) && mask == Lift(Mask(j), shift)
    ensures Splits(a, o, x, mask)
  {
    assert shift == 26 && mask == 0x8102_0400_0000;
    assert Shift(3, 5) == 26 && Mask(j) == 0x20_4081;
    Apart035(a, o, x, mask);
  }

  /** Every horizontal window of the walk. */
  lemma Keys0(w: bv64, g: seq<seq<bool>>, t: bool, j: int, c: int, r: int, mask: bv64, shift: bv64)
    requires j == 0 && Anchor(j, c, r) && shift == Shift(c, r) && mask == Lift(Mask(j), shift) && Marks(w, g, t)
    ensures Keyed(w, mask, shift, j, Held(g, t, j, c, r))
  {
    if c == 0 && r == 0 {
      Key000(w, g, t, j, c, r, mask, shift);
    } else if c == 0 && r == 1 {
      Key001(w, g, t, j, c, r, mask, shift);
    } else if c == 0 && r == 2 {
      Key002(w, g, t, j, c, r, mask, shift);
    } else if c == 0 && r == 3 {
      Key003(w, g, t, j, c, r, mask, shift);
    } else if c == 0 && r == 4 {
      Key004(w, g, t, j, c, r, mask, shift);
    } else if c == 0 && r == 5 {
      Key005(w, g, t, j, c, r, mask, shift);
    } else if c == 1 && r == 0 {
      Key010(w, g, t, j, c, r, mask, shift);
    } else if c == 1 && r == 1 {
      Key011(w, g, t, j, c, r, mask, shift);
    } else if c == 1 && r == 2 {
      Key012(w, g, t, j, c, r, mask, shift);
    } else if c == 1 && r == 3 {
      Key013(w, g, t, j, c, r, mask, shift);
    } else if c == 1 && r == 4 {
      Key014(w, g, t, j, c, r, mask, shift);
    } else if c == 1 && r == 5 {
      Key015(w, g, t, j, c, r, mask, shift);
    } else if c == 2 && r == 0 {
      Key020(w, g, t, j, c, r, mask, shift);
    } else if c == 2 && r == 1 {
      Key021(w, g, t, j, c, r, mask, shift);
    } else if c == 2 && r == 2 {
      Key022(w, g, t, j, c, r, mask, shift);
    } else if c == 2 && r == 3 {
      Key023(w, g, t, j, c, r, mask, shift);
    } else if c == 2 && r == 4 {
      Key024(w, g, t, j, c, r, mask, shift);
    } else if c == 2 && r == 5 {
      Key025(w, g, t, j, c, r, mask, shift);
    } else if c == 3 && r == 0 {
      Key030(w, g, t, j, c, r, mask, shift);
    } else if c == 3 && r == 1 {
      Key031(w, g, t, j, c, r, mask, shift);
    } else if c == 3 && r == 2 {
      Key032(w, g, t, j, c, r, mask, shift);
    } else if c == 3 && r == 3 {
      Key033(w, g, t, j, c, r, mask, shift);
    } else if c == 3 && r == 4 {
      Key034(w, g, t, j, c, r, mask, shift);
    } else if c == 3 && r == 5 {
      Key035(w, g, t, j, c, r, mask, shift);
    }
  }

  lemma Cuts00(a: bv64, o: bv64, x: bv64, j: int, c: int, r: int, mask: bv64, shift: bv64)
    requires j == 0 && c == 0 && 0 <= r < 6 && shift == Shift(c, r) && mask == Lift(Mask(j), shift)
    ensures Splits(a, o, x, mask)
  {
    if r == 0 {
      Cut000(a, o, x, j, c, r, mask, shift);
    } else if r == 1 {
      Cut001(a, o, x, j, c, r, mask, shift);
    } else if r == 2 {
      Cut002(a, o, x, j, c, r, mask, shift);
    } else if r == 3 {
      Cut003(a, o, x, j, c, r, mask, shift);
    } else if r == 4 {
      Cut004(a, o, x, j, c, r, mask, shift);
    } else {
      Cut005(a, o, x, j, c, r, mask, shift);
    }
  }

  lemma Cuts01(a: bv64, o: bv64, x: bv64, j: int, c: int, r: int, mask: bv64, shift: bv64)
    requires j == 0 && c == 1 && 0 <= r < 6 && shift == Shift(c, r) && mask == Lift(Mask(j), shift)
    ensures Splits(a, o, x, mask)
  {
    if r == 0 {
      Cut010(a, o, x, j, c, r, mask, shift);
    } else if r == 1 {
      Cut011(a, o, x, j, c, r, mask, shift);
    } else if r == 2 {
      Cut012(a, o, x, j, c, r, mask, shift);
    } else if r == 3 {
      Cut013(a, o, x, j, c, r, mask, shift);
    } else if r == 4 {
      Cut014(a, o, x, j, c, r, mask, shift);
    } else {
      Cut015(a, o, x, j, c, r, mask, shift);
    }
  }

  lemma Cuts02(a: bv64, o: bv64, x: bv64, j: int, c: int, r: int, mask: bv64, shift: bv64)
    requires j == 0 && c == 2 && 0 <= r < 6 && shift == Shift(c, r) && mask == Lift(Mask(j), shift)
    ensures Splits(a, o, x, mask)
  {
    if r == 0 {
      Cut020(a, o, x, j, c, r, mask, shift);
    } else if r == 1 {
      Cut021(a, o, x, j, c, r, mask, shift);
    } else if r == 2 {
      Cut022(a, o, x, j, c, r, mask, shift);
    } else if r == 3 {
      Cut023(a, o, x, j, c, r, mask, shift);
    } else if r == 4 {
      Cut024(a, o, x, j, c, r, mask, shift);
    } else {
      Cut025(a, o, x, j, c, r, mask, shift);
    }
  }

  lemma Cuts03(a: bv64, o: bv64, x: bv64, j: int, c: int, r: int, mask: bv64, shift: bv64)
    requires j == 0 && c == 3 && 0 <= r < 6 && shift == Shift(c, r) && mask == Lift(Mask(j), shift)
    ensures Splits(a, o, x, mask)
  {
    if r == 0 {
      Cut030(a, o, x, j, c, r, mask, shift);
    } else if r == 1 {
      Cut031(a, o, x, j, c, r, mask, shift);
    } else if r == 2 {
      Cut032(a, o, x, j, c, r, mask, shift);
    } else if r == 3 {
      Cut033(a, o, x, j, c, r, mask, shift);
    } else if r == 4 {
      Cut034(a, o, x, j, c, r, mask, shift);
    } else {
      Cut035(a, o, x, j, c, r, mask, shift);
    }
  }

  /** Every horizontal window of the walk splits the stones. */
  lemma Cuts0(a: bv64, o: bv64, x: bv64, j: int, c: int, r: int, mask: bv64, shift: bv64)
    requires j == 0 && Anchor(j, c, r) && shift == Shift(c, r) && mask == Lift(Mask(j), shift)
    ensures Splits(a, o, x, mask)
  {
    if c == 0 {
      Cuts00(a, o, x, j, c, r, mask, shift);
    } else if c == 1 {
      Cuts01(a, o, x, j, c, r, mask, shift);
    } else if c == 2 {
      Cuts02(a, o, x, j, c, r, mask, shift);
    } else {
      Cuts03(a, o, x, j, c, r, mask, shift);
    }
  }

  // -----------------------------------------------------------------------
  // The vertical windows

  lemma Bits100(x: bv64, mask: bv64, shift: bv64)
    requires mask == 0xF && shift == 0
    ensures Reads(x, mask, shift, 0xF, 0, 1, 2, 3, 0x1, 0x2, 0x4, 0x8)
  {}

  lemma Key100(w: bv64, g: seq<seq<bool>>, t: bool, j: int, c: int, r: int, mask: bv64, shift: bv64)
    requires j == 1 && c == 0 && r == 0 && shift == Shift(c, r) && mask == Lift(Mask(j), shift) && Marks(w, g, t)
    ensures Keyed(w, mask, shift, j, Held(g, t, j, c, r))
  {
    assert shift == 0 && mask == 0xF;
    assert Shift(0, 0) == 0 && Agrees(w, g, t, 0, 0);
    assert Shift(0, 1) == 1 && Agrees(w, g, t, 0, 1);
    assert Shift(0, 2) == 2 && Agrees(w, g, t, 0, 2);
    assert Shift(0, 3) == 3 && Agrees(w, g, t, 0, 3);
    assert Mask(j) == 0xF;
    Bits100(w, mask, shift);
  }

  lemma Apart100(a: bv64, o: bv64, x: bv64, mask: bv64)
    requires mask == 0xF
    ensures Splits(a, o, x, mask)
  {
    SubtractSubset(o, a);
  }

  lemma Cut100(a: bv64, o: bv64, x: bv64, j: int, c: int, r: int, mask: bv64, shift: bv64)
    requires j == 1 && c == 0 && r == 0 && shift == Shift(c, r) && mask == Lift(Mask(j), shift)
    ensures Splits(a, o, x, mask)
  {
    assert shift == 0 && mask == 0xF;
    assert Shift(0, 0) == 0 && Mask(j) == 0xF;
    Apart100(a, o, x, mask);
  }

  lemma Bits101(x: bv64, mask: bv64, shift: bv64)
    requires mask == 0x1E && shift == 1
    ensures Reads(x, mask, shift, 0xF, 1, 2, 3, 4, 0x1, 0x2, 0x4, 0x8)
  {}

  lemma Key101(w: bv64, g: seq<seq<bool>>, t: bool, j: int, c: int, r: int, mask: bv64, shift: bv64)
    requires j == 1 && c == 0 && r == 1 && shift == Shift(c, r) && mask == Lift(Mask(j), shift) && Marks(w, g, t)
    ensures Keyed(w, mask, shift, j, Held(g, t, j, c, r))
  {
    assert shift == 1 && mask == 0x1E;
    assert Shift(0, 1) == 1 && Agrees(w, g, t, 0, 1);
    assert Shift(0, 2) == 2 && Agrees(w, g, t, 0, 2);
    assert Shift(0, 3) == 3 && Agrees(w, g, t, 0, 3);
    assert Shift(0, 4) == 4 && Agrees(w, g, t, 0, 4);
    assert Mask(j) == 0xF;
    Bits101(w, mask, shift);
  }

  lemma Apart101(a: bv64, o: bv64, x: bv64, mask: bv64)
    requires mask == 0x1E
    ensures Splits(a, o, x, mask)
  {
    SubtractSubset(o, a);
  }

  lemma Cut101(a: bv64, o: bv64, x: bv64, j: int, c: int, r: int, mask: bv64, shift: bv64)
    requires j == 1 && c == 0 && r == 1 && shift == Shift(c, r) && mask == Lift(Mask(j), shift)
    ensures Splits(a, o, x, mask)
  {
    assert shift == 1 && mask == 0x1E;
    assert Shift(0, 1) == 1 && Mask(j) == 0xF;
    Apart101(a, o, x, mask);
  }

  lemma Bits102(x: bv64, mask: bv64, shift: bv64)
    requires mask == 0x3C && shift == 2
    ensures Reads(x, mask, shift, 0xF, 2, 3, 4, 5, 0x1, 0x2, 0x4, 0x8)
  {}

  lemma Key102(w: bv64, g: seq<seq<bool>>, t: bool, j: int, c: int, r: int, mask: bv64, shift: bv64)
    requires j == 1 && c == 0 && r == 2 && shift == Shift(c, r) && mask == Lift(Mask(j), shift) && Marks(w, g, t)
    ensures Keyed(w, mask, shift, j, Held(g, t, j, c, r))
  {
    assert shift == 2 && mask == 0x3C;
    assert Shift(0, 2) == 2 && Agrees(w, g, t, 0, 2);
    assert Shift(0, 3) == 3 && Agrees(w, g, t, 0, 3);
    assert Shift(0, 4) == 4 && Agrees(w, g, t, 0, 4);
    assert Shift(0, 5) == 5 && Agrees(w, g, t, 0, 5);
    assert Mask(j) == 0xF;
    Bits102(w, mask, shift);
  }

  lemma Apart102(a: bv64, o: bv64, x: bv64, mask: bv64)
    requires mask == 0x3C
    ensures Splits(a, o, x, mask)
  {
    SubtractSubset(o, a);
  }

  lemma Cut102(a: bv64, o: bv64, x: bv64, j: int, c: int, r: int, mask: bv64, shift: bv64)
    requires j == 1 && c == 0 && r == 2 && shift == Shift(c, r) && mask == Lift(Mask(j), shift)
    ensures Splits(a, o, x, mask)
  {
    assert shift == 2 && mask == 0x3C;
    assert Shift(0, 2) == 2 && Mask(j) == 0xF;
    Apart102(a, o, x, mask);
  }

  lemma Bits110(x: bv64, mask: bv64, shift: bv64)
    requires mask == 0x780 && shift == 7
    ensures Reads(x, mask, shift, 0xF, 7, 8, 9, 10, 0x1, 0x2, 0x4, 0x8)
  {}

  lemma Key110(w: bv64, g: seq<seq<bool>>, t: bool, j: int, c: int, r: int, mask: bv64, shift: bv64)
    requires j == 1 && c == 1 && r == 0 && shift == Shift(c, r) && mask == Lift(Mask(j), shift) && Marks(w, g, t)
    ensures Keyed(w, mask, shift, j, Held(g, t, j, c, r))
  {
    assert shift == 7 && mask == 0x780;
    assert Shift(1, 0) == 7 && Agrees(w, g, t, 1, 0);
    assert Shift(1, 1) == 8 && Agrees(w, g, t, 1, 1);
    assert Shift(1, 2) == 9 && Agrees(w, g, t, 1, 2);
    assert Shift(1, 3) == 10 && Agrees(w, g, t, 1, 3);
    assert Mask(j) == 0xF;
    Bits110(w, mask, shift);
  }

  lemma Apart110(a: bv64, o: bv64, x: bv64, mask: bv64)
    requires mask == 0x780
    ensures Splits(a, o, x, mask)
  {
    SubtractSubset(o, a);
  }

  lemma Cut110(a: bv64, o: bv64, x: bv64, j: int, c: int, r: int, mask: bv64, shift: bv64)
    requires j == 1 && c == 1 && r == 0 && shift == Shift(c, r) && mask == Lift(Mask(j), shift)
    ensures Splits(a, o, x, mask)
  {
    assert shift == 7 && mask == 0x780;
    assert Shift(1, 0) == 7 && Mask(j) == 0xF;
    Apart110(a, o, x, mask);
  }

  lemma Bits111(x: bv64, mask: bv64, shift: bv64)
    requires mask == 0xF00 && shift == 8
    ensures Reads(x, mask, shift, 0xF, 8, 9, 10, 11, 0x1, 0x2, 0x4, 0x8)
  {}

  lemma Key111(w: bv64, g: seq<seq<bool>>, t: bool, j: int, c: int, r: int, mask: bv64, shift: bv64)
    requires j == 1 && c == 1 && r == 1 && shift == Shift(c, r) && mask == Lift(Mask(j), shift) && Marks(w, g, t)
    ensures Keyed(w, mask, shift, j, Held(g, t, j, c, r))
  {
    assert shift == 8 && mask == 0xF00;
    assert Shift(1, 1) == 8 && Agrees(w, g, t, 1, 1);
    assert Shift(1, 2) == 9 && Agrees(w, g, t, 1, 2);
    assert Shift(1, 3) == 10 && Agrees(w, g, t, 1, 3);
    assert Shift(1, 4) == 11 && Agrees(w, g, t, 1, 4);
    assert Mask(j) == 0xF;
    Bits111(w, mask, shift);
  }

  lemma Apart111(a: bv64, o: bv64, x: bv64, mask: bv64)
    requires mask == 0xF00
    ensures Splits(a, o, x, mask)
  {
    SubtractSubset(o, a);
  }

  lemma Cut111(a: bv64, o: bv64, x: bv64, j: int, c: int, r: int, mask: bv64, shift: bv64)
    requires j == 1 && c == 1 && r == 1 && shift == Shift(c, r) && mask == Lift(Mask(j), shift)
    ensures Splits(a, o, x, mask)
  {
    assert shift == 8 && mask == 0xF00;
    assert Shift(1, 1) == 8 && Mask(j) == 0xF;
    Apart111(a, o, x, mask);
  }

  lemma Bits112(x: bv64, mask: bv64, shift: bv64)
    requires mask == 0x1E00 && shift == 9
    ensures Reads(x, mask, shift, 0xF, 9, 10, 11, 12, 0x1, 0x2, 0x4, 0x8)
  {}

  lemma Key112(w: bv64, g: seq<seq<bool>>, t: bool, j: int, c: int, r: int, mask: bv64, shift: bv64)
    requires j == 1 && c == 1 && r == 2 && shift == Shift(c, r) && mask == Lift(Mask(j), shift) && Marks(w, g, t)
    ensures Keyed(w, mask, shift, j, Held(g, t, j, c, r))
  {
    assert shift == 9 && mask == 0x1E00;
    assert Shift(1, 2) == 9 && Agrees(w, g, t, 1, 2);
    assert Shift(1, 3) == 10 && Agrees(w, g, t, 1, 3);
    assert Shift(1, 4) == 11 && Agrees(w, g, t, 1, 4);
    assert Shift(1, 5) == 12 && Agrees(w, g, t, 1, 5);
    assert Mask(j) == 0xF;
    Bits112(w, mask, shift);
  }

  lemma Apart112(a: bv64, o: bv64, x: bv64, mask: bv64)
    requires mask == 0x1E00
    ensures Splits(a, o, x, mask)
  {
    SubtractSubset(o, a);
  }

  lemma Cut112(a: bv64, o: bv64, x: bv64, j: int, c: int, r: int, mask: bv64, shift: bv64)
    requires j == 1 && c == 1 && r == 2 && shift == Shift(c, r) && mask == Lift(Mask(j), shift)
    ensures Splits(a, o, x, mask)
  {
    assert shift == 9 && mask == 0x1E00;
    assert Shift(1, 2) == 9 && Mask(j) == 0xF;
    Apart112(a, o, x, mask);
  }

  lemma Bits120(x: bv64, mask: bv64, shift: bv64)
    requires mask == 0x3_C000 && shift == 14
    ensures Reads(x, mask, shift, 0xF, 14, 15, 16, 17, 0x1, 0x2, 0x4, 0x8)
  {}

  lemma Key120(w: bv64, g: seq<seq<bool>>, t: bool, j: int, c: int, r: int, mask: bv64, shift: bv64)
    requires j == 1 && c == 2 && r == 0 && shift == Shift(c, r) && mask == Lift(Mask(j), shift) && Marks(w, g, t)
    ensures Keyed(w, mask, shift, j, Held(g, t, j, c, r))
  {
    assert shift == 14 && mask == 0x3_C000;
    assert Shift(2, 0) == 14 && Agrees(w, g, t, 2, 0);
    assert Shift(2, 1) == 15 && Agrees(w, g, t, 2, 1);
    assert Shift(2, 2) == 16 && Agrees(w, g, t, 2, 2);
    assert Shift(2, 3) == 17 && Agrees(w, g, t, 2, 3);
    assert Mask(j) == 0xF;
    Bits120(w, mask, shift);
  }

  lemma Apart120(a: bv64, o: bv64, x: bv64, mask: bv64)
    requires mask == 0x3_C000
    ensures Splits(a, o, x, mask)
  {
    SubtractSubset(o, a);
  }

  lemma Cut120(a: bv64, o: bv64, x: bv64, j: int, c: int, r: int, mask: bv64, shift: bv64)
    requires j == 1 && c == 2 && r == 0 && shift == Shift(c, r) && mask == Lift(Mask(j), shift)
    ensures Splits(a, o, x, mask)
  {
    assert shift == 14 && mask == 0x3_C000;
    assert Shift(2, 0) == 14 && Mask(j) == 0xF;
    Apart120(a, o, x, mask);
  }

  lemma Bits121(x: bv64, mask: bv64, shift: bv64)
    requires mask == 0x7_8000 && shift == 15
    ensures Reads(x, mask, shift, 0xF, 15, 16, 17, 18, 0x1, 0x2, 0x4, 0x8)
  {}

  lemma Key121(w: bv64, g: seq<seq<bool>>, t: bool, j: int, c: int, r: int, mask: bv64, shift: bv64)
    requires j == 1 && c == 2 && r == 1 && shift == Shift(c, r) && mask == Lift(Mask(j), shift) && Marks(w, g, t)
    ensures Keyed(w, mask, shift, j, Held(g, t, j, c, r))
  {
    assert shift == 15 && mask == 0x7_8000;
    assert Shift(2, 1) == 15 && Agrees(w, g, t, 2, 1);
    assert Shift(2, 2) == 16 && Agrees(w, g, t, 2, 2);
    assert Shift(2, 3) == 17 && Agrees(w, g, t, 2, 3);
    assert Shift(2, 4) == 18 && Agrees(w, g, t, 2, 4);
    assert Mask(j) == 0xF;
    Bits121(w, mask, shift);
  }

  lemma Apart121(a: bv64, o: bv64, x: bv64, mask: bv64)
    requires mask == 0x7_8000
    ensures Splits(a, o, x, mask)
  {
    SubtractSubset(o, a);
  }

  lemma Cut121(a: bv64, o: bv64, x: bv64, j: int, c: int, r: int, mask: bv64, shift: bv64)
    requires j == 1 && c == 2 && r == 1 && shift == Shift(c, r) && mask == Lift(Mask(j), shift)
    ensures Splits(a, o, x, mask)
  {
    assert shift == 15 && mask == 0x7_8000;
    assert Shift(2, 1) == 15 && Mask(j) == 0xF;
    Apart121(a, o, x, mask);
  }

  lemma Bits122(x: bv64, mask: bv64, shift: bv64)
    requires mask == 0xF_0000 && shift == 16
    ensures Reads(x, mask, shift, 0xF, 16, 17, 18, 19, 0x1, 0x2, 0x4, 0x8)
  {}

  lemma Key122(w: bv64, g: seq<seq<bool>>, t: bool, j: int, c: int, r: int, mask: bv64, shift: bv64)
    requires j == 1 && c == 2 && r == 2 && shift == Shift(c, r) && mask == Lift(Mask(j), shift) && Marks(w, g, t)
    ensures Keyed(w, mask, shift, j, Held(g, t, j, c, r))
  {
    assert shift == 16 && mask == 0xF_0000;
    assert Shift(2, 2) == 16 && Agrees(w, g, t, 2, 2);
    assert Shift(2, 3) == 17 && Agrees(w, g, t, 2, 3);
    assert Shift(2, 4) == 18 && Agrees(w, g, t, 2, 4);
    assert Shift(2, 5) == 19 && Agrees(w, g, t, 2, 5);
    assert Mask(j) == 0xF;
    Bits122(w, mask, shift);
  }

  lemma Apart122(a: bv64, o: bv64, x: bv64, mask: bv64)
    requires mask == 0xF_0000
    ensures Splits(a, o, x, mask)
  {
    SubtractSubset(o, a);
  }

  lemma Cut122(a: bv64, o: bv64, x: bv64, j: int, c: int, r: int, mask: bv64, shift: bv64)
    requires j == 1 && c == 2 && r == 2 && shift == Shift(c, r) && mask == Lift(Mask(j), shift)
    ensures Splits(a, o, x, mask)
  {
    assert shift == 16 && mask == 0xF_0000;
    assert Shift(2, 2) == 16 && Mask(j) == 0xF;
    Apart122(a, o, x, mask);
  }

  lemma Bits130(x: bv64, mask: bv64, shift: bv64)
    requires mask == 0x1E0_0000 && shift == 21
    ensures Reads(x, mask, shift, 0xF, 21, 22, 23, 24, 0x1, 0x2, 0x4, 0x8)
  {}

  lemma Key130(w: bv64, g: seq<seq<bool>>, t: bool, j: int, c: int, r: int, mask: bv64, shift: bv64)
    requires j == 1 && c == 3 && r == 0 && shift == Shift(c, r) && mask == Lift(Mask(j), shift) && Marks(w, g, t)
    ensures Keyed(w, mask, shift, j, Held(g, t, j, c, r))
  {
    assert shift == 21 && mask == 0x1E0_0000;
    assert Shift(3, 0) == 21 && Agrees(w, g, t, 3, 0);
    assert Shift(3, 1) == 22 && Agrees(w, g, t, 3, 1);
    assert Shift(3, 2) == 23 && Agrees(w, g, t, 3, 2);
    assert Shift(3, 3) == 24 && Agrees(w, g, t, 3, 3);
    assert Mask(j) == 0xF;
    Bits130(w, mask, shift);
  }

  lemma Apart130(a: bv64, o: bv64, x: bv64, mask: bv64)
    requires mask == 0x1E0_0000
    ensures Splits(a, o, x, mask)
  {
    SubtractSubset(o, a);
  }

  lemma Cut130(a: bv64, o: bv64, x: bv64, j: int, c: int, r: int, mask: bv64, shift: bv64)
    requires j == 1 && c == 3 && r == 0 && shift == Shift(c, r) && mask == Lift(Mask(j), shift)
    ensures Splits(a, o, x, mask)
  {
    assert shift == 21 && mask == 0x1E0_0000;
    assert Shift(3, 0) == 21 && Mask(j) == 0xF;
    Apart130(a, o, x, mask);
  }

  lemma Bits131(x: bv64, mask: bv64, shift: bv64)
    requires mask == 0x3C0_0000 && shift == 22
    ensures Reads(x, mask, shift, 0xF, 22, 23, 24, 25, 0x1, 0x2, 0x4, 0x8)
  {}

  lemma Key131(w: bv64, g: seq<seq<bool>>, t: bool, j: int, c: int, r: int, mask: bv64, shift: bv64)
    requires j == 1 && c == 3 && r == 1 && shift == Shift(c, r) && mask == Lift(Mask(j), shift) && Marks(w, g, t)
    ensures Keyed(w, mask, shift, j, Held(g, t, j, c, r))
  {
    assert shift == 22 && mask == 0x3C0_0000;
    assert Shift(3, 1) == 22 && Agrees(w, g, t, 3, 1);
    assert Shift(3, 2) == 23 && Agrees(w, g, t, 3, 2);
    assert Shift(3, 3) == 24 && Agrees(w, g, t, 3, 3);
    assert Shift(3, 4) == 25 && Agrees(w, g, t, 3, 4);
    assert Mask(j) == 0xF;
    Bits131(w, mask, shift);
  }

  lemma Apart131(a: bv64, o: bv64, x: bv64, mask: bv64)
    requires mask == 0x3C0_0000
    ensures Splits(a, o, x, mask)
  {
    SubtractSubset(o, a);
  }

  lemma Cut131(a: bv64, o: bv64, x: bv64, j: int, c: int, r: int, mask: bv64, shift: bv64)
    requires j == 1 && c == 3 && r == 1 && shift == Shift(c, r) && mask == Lift(Mask(j), shift)
    ensures Splits(a, o, x, mask)
  {
    assert shift == 22 && mask == 0x3C0_0000;
    assert Shift(3, 1) == 22 && Mask(j) == 0xF;
    Apart131(a, o, x, mask);
  }

  lemma Bits132(x: bv64, mask: bv64, shift: bv64)
    requires mask == 0x780_0000 && shift == 23
    ensures Reads(x, mask, shift, 0xF, 23, 24, 25, 26, 0x1, 0x2, 0x4, 0x8)
  {}

  lemma Key132(w: bv64, g: seq<seq<bool>>, t: bool, j: int, c: int, r: int, mask: bv64, shift: bv64)
    requires j == 1 && c == 3 && r == 2 && shift == Shift(c, r) && mask == Lift(Mask(j), shift) && Marks(w, g, t)
    ensures Keyed(w, mask, shift, j, Held(g, t, j, c, r))
  {
    assert shift == 23 && mask == 0x780_0000;
    assert Shift(3, 2) == 23 && Agrees(w, g, t, 3, 2);
    assert Shift(3, 3) == 24 && Agrees(w, g, t, 3, 3);
    assert Shift(3, 4) == 25 && Agrees(w, g, t, 3, 4);
    assert Shift(3, 5) == 26 && Agrees(w, g, t, 3, 5);
    assert Mask(j) == 0xF;
    Bits132(w, mask, shift);
  }

  lemma Apart132(a: bv64, o: bv64, x: bv64, mask: bv64)
    requires mask == 0x780_0000
    ensures Splits(a, o, x, mask)
  {
    SubtractSubset(o, a);
  }

  lemma Cut132(a: bv64, o: bv64, x: bv64, j: int, c: int, r: int, mask: bv64, shift: bv64)
    requires j == 1 && c == 3 && r == 2 && shift == Shift(c, r) && mask == Lift(Mask(j), shift)
    ensures Splits(a, o, x, mask)
  {
    assert shift == 23 && mask == 0x780_0000;
    assert Shift(3, 2) == 23 && Mask(j) == 0xF;
    Apart132(a, o, x, mask);
  }

  lemma Bits140(x: bv64, mask: bv64, shift: bv64)
    requires mask == 0xF000_0000 && shift == 28
    ensures Reads(x, mask, shift, 0xF, 28, 29, 30, 31, 0x1, 0x2, 0x4, 0x8)
  {}

  lemma Key140(w: bv64, g: seq<seq<bool>>, t: bool, j: int, c: int, r: int, mask: bv64, shift: bv64)
    requires j == 1 && c == 4 && r == 0 && shift == Shift(c, r) && mask == Lift(Mask(j), shift) && Marks(w, g, t)
    ensures Keyed(w, mask, shift, j, Held(g, t, j, c, r))
  {
    assert shift == 28 && mask == 0xF000_0000;
    assert Shift(4, 0) == 28 && Agrees(w, g, t, 4, 0);
    assert Shift(4, 1) == 29 && Agrees(w, g, t, 4, 1);
    assert Shift(4, 2) == 30 && Agrees(w, g, t, 4, 2);
    assert Shift(4, 3) == 31 && Agrees(w, g, t, 4, 3);
    assert Mask(j) == 0xF;
    Bits140(w, mask, shift);
  }

  lemma Apart140(a: bv64, o: bv64, x: bv64, mask: bv64)
    requires mask == 0xF000_0000
    ensures Splits(a, o, x, mask)
  {
    SubtractSubset(o, a);
  }

  lemma Cut140(a: bv64, o: bv64, x: bv64, j: int, c: int, r: int, mask: bv64, shift: bv64)
    requires j == 1 && c == 4 && r == 0 && shift == Shift(c, r) && mask == Lift(Mask(j), shift)
    ensures Splits(a, o, x, mask)
  {
    assert shift == 28 && mask == 0xF000_0000;
    assert Shift(4, 0) == 28 && Mask(j) == 0xF;
    Apart140(a, o, x, mask);
  }

  lemma Bits141(x: bv64, mask: bv64, shift: bv64)
    requires mask == 0x1_E000_0000 && shift == 29
    ensures Reads(x, mask, shift, 0xF, 29, 30, 31, 32, 0x1, 0x2, 0x4, 0x8)
  {}

  lemma Key141(w: bv64, g: seq<seq<bool>>, t: bool, j: int, c: int, r: int, mask: bv64, shift: bv64)
    requires j == 1 && c == 4 && r == 1 && shift == Shift(c, r) && mask == Lift(Mask(j), shift) && Marks(w, g, t)
    ensures Keyed(w, mask, shift, j, Held(g, t, j, c, r))
  {
    assert shift == 29 && mask == 0x1_E000_0000;
    assert Shift(4, 1) == 29 && Agrees(w, g, t, 4, 1);
    assert Shift(4, 2) == 30 && Agrees(w, g, t, 4, 2);
    assert Shift(4, 3) == 31 && Agrees(w, g, t, 4, 3);
    assert Shift(4, 4) == 32 && Agrees(w, g, t, 4, 4);
    assert Mask(j) == 0xF;
    Bits141(w, mask, shift);
  }

  lemma Apart141(a: bv64, o: bv64, x: bv64, mask: bv64)
    requires mask == 0x1_E000_0000
    ensures Splits(a, o, x, mask)
  {
    SubtractSubset(o, a);
  }

  lemma Cut141(a: bv64, o: bv64, x: bv64, j: int, c: int, r: int, mask: bv64, shift: bv64)
    requires j == 1 && c == 4 && r == 1 && shift == Shift(c, r) && mask == Lift(Mask(j), shift)
    ensures Splits(a, o, x, mask)
  {
    assert shift == 29 && mask == 0x1_E000_0000;
    assert Shift(4, 1) == 29 && Mask(j) == 0xF;
    Apart141(a, o, x, mask);
  }

  lemma Bits142(x: bv64, mask: bv64, shift: bv64)
    requires mask == 0x3_C000_0000 && shift == 30
    ensures Reads(x, mask, shift, 0xF, 30, 31, 32, 33, 0x1, 0x2, 0x4, 0x8)
  {}

  lemma Key142(w: bv64, g: seq<seq<bool>>, t: bool, j: int, c: int, r: int, mask: bv64, shift: bv64)
    requires j == 1 && c == 4 && r == 2 && shift == Shift(c, r) && mask == Lift(Mask(j), shift) && Marks(w, g, t)
    ensures Keyed(w, mask, shift, j, Held(g, t, j, c, r))
  {
    assert shift == 30 && mask == 0x3_C000_0000;
    assert Shift(4, 2) == 30 && Agrees(w, g, t, 4, 2);
    assert Shift(4, 3) == 31 && Agrees(w, g, t, 4, 3);
    assert Shift(4, 4) == 32 && Agrees(w, g, t, 4, 4);
    assert Shift(4, 5) == 33 && Agrees(w, g, t, 4, 5);
    assert Mask(j) == 0xF;
    Bits142(w, mask, shift);
  }

  lemma Apart142(a: bv64, o: bv64, x: bv64, mask: bv64)
    requires mask == 0x3_C000_0000
    ensures Splits(a, o, x, mask)
  {
    SubtractSubset(o, a);
  }

  lemma Cut142(a: bv64, o: bv64, x: bv64, j: int, c: int, r: int, mask: bv64, shift: bv64)
    requires j == 1 && c == 4 && r == 2 && shift == Shift(c, r) && mask == Lift(Mask(j), shift)
    ensures Splits(a, o, x, mask)
  {
    assert shift == 30 && mask == 0x3_C000_0000;
    assert Shift(4, 2) == 30 && Mask(j) == 0xF;
    Apart142(a, o, x, mask);
  }

  lemma Bits150(x: bv64, mask: bv64, shift: bv64)
    requires mask == 0x78_0000_0000 && shift == 35
    ensures Reads(x, mask, shift, 0xF, 35, 36, 37, 38, 0x1, 0x2, 0x4, 0x8)
  {}

  lemma Key150(w: bv64, g: seq<seq<bool>>, t: bool, j: int, c: int, r: int, mask: bv64, shift: bv64)
    requires j == 1 && c == 5 && r == 0 && shift == Shift(c, r) && mask == Lift(Mask(j), shift) && Marks(w, g, t)
    ensures Keyed(w, mask, shift, j, Held(g, t, j, c, r))
  {
    assert shift == 35 && mask == 0x78_0000_0000;
    assert Shift(5, 0) == 35 && Agrees(w, g, t, 5, 0);
    assert Shift(5, 1) == 36 && Agrees(w, g, t, 5, 1);
    assert Shift(5, 2) == 37 && Agrees(w, g, t, 5, 2);
    assert Shift(5, 3) == 38 && Agrees(w, g, t, 5, 3);
    assert Mask(j) == 0xF;
    Bits150(w, mask, shift);
  }

  lemma Apart150(a: bv64, o: bv64, x: bv64, mask: bv64)
    requires mask == 0x78_0000_0000
    ensures Splits(a, o, x, mask)
  {
    SubtractSubset(o, a);
  }

  lemma Cut150(a: bv64, o: bv64, x: bv64, j: int, c: int, r: int, mask: bv64, shift: bv64)
    requires j == 1 && c == 5 && r == 0 && shift == Shift(c, r) && mask == Lift(Mask(j), shift)
    ensures Splits(a, o, x, mask)
  {
    assert shift == 35 && mask == 0x78_0000_0000;
    assert Shift(5, 0) == 35 && Mask(j) == 0xF;
    Apart150(a, o, x, mask);
  }

  lemma Bits151(x: bv64, mask: bv64, shift: bv64)
    requires mask == 0xF0_0000_0000 && shift == 36
    ensures Reads(x, mask, shift, 0xF, 36, 37, 38, 39, 0x1, 0x2, 0x4, 0x8)
  {}

  lemma Key151(w: bv64, g: seq<seq<bool>>, t: bool, j: int, c: int, r: int, mask: bv64, shift: bv64)
    requires j == 1 && c == 5 && r == 1 && shift == Shift(c, r) && mask == Lift(Mask(j), shift) && Marks(w, g, t)
    ensures Keyed(w, mask, shift, j, Held(g, t, j, c, r))
  {
    assert shift == 36 && mask == 0xF0_0000_0000;
    assert Shift(5, 1) == 36 && Agrees(w, g, t, 5, 1);
    assert Shift(5, 2) == 37 && Agrees(w, g, t, 5, 2);
    assert Shift(5, 3) == 38 && Agrees(w, g, t, 5, 3);
    assert Shift(5, 4) == 39 && Agrees(w, g, t, 5, 4);
    assert Mask(j) == 0xF;
    Bits151(w, mask, shift);
  }

  lemma Apart151(a: bv64, o: bv64, x: bv64, mask: bv64)
    requires mask == 0xF0_0000_0000
    ensures Splits(a, o, x, mask)
  {
    SubtractSubset(o, a);
  }

  lemma Cut151(a: bv64, o: bv64, x: bv64, j: int, c: int, r: int, mask: bv64, shift: bv64)
    requires j == 1 && c == 5 && r == 1 && shift == Shift(c, r) && mask == Lift(Mask(j), shift)
    ensures Splits(a, o, x, mask)
  {
    assert shift == 36 && mask == 0xF0_0000_0000;
    assert Shift(5, 1) == 36 && Mask(j) == 0xF;
    Apart151(a, o, x, mask);
  }

  lemma Bits152(x: bv64, mask: bv64, shift: bv64)
    requires mask == 0x1E0_0000_0000 && shift == 37
    ensures Reads(x, mask, shift, 0xF, 37, 38, 39, 40, 0x1, 0x2, 0x4, 0x8)
  {}

  lemma Key152(w: bv64, g: seq<seq<bool>>, t: bool, j: int, c: int, r: int, mask: bv64, shift: bv64)
    requires j == 1 && c == 5 && r == 2 && shift == Shift(c, r) && mask == Lift(Mask(j), shift) && Marks(w, g, t)
    ensures Keyed(w, mask, shift, j, Held(g, t, j, c, r))
  {
    assert shift == 37 && mask == 0x1E0_0000_0000;
    assert Shift(5, 2) == 37 && Agrees(w, g, t, 5, 2);
    assert Shift(5, 3) == 38 && Agrees(w, g, t, 5, 3);
    assert Shift(5, 4) == 39 && Agrees(w, g, t, 5, 4);
    assert Shift(5, 5) == 40 && Agrees(w, g, t, 5, 5);
    assert Mask(j) == 0xF;
    Bits152(w, mask, shift);
  }

  lemma Apart152(a: bv64, o: bv64, x: bv64, mask: bv64)
    requires mask == 0x1E0_0000_0000
    ensures Splits(a, o, x, mask)
  {
    SubtractSubset(o, a);
  }

  lemma Cut152(a: bv64, o: bv64, x: bv64, j: int, c: int, r: int, mask: bv64, shift: bv64)
    requires j == 1 && c == 5 && r == 2 && shift == Shift(c, r) && mask == Lift(Mask(j), shift)
    ensures Splits(a, o, x, mask)
  {
    assert shift == 37 && mask == 0x1E0_0000_0000;
    assert Shift(5, 2) == 37 && Mask(j) == 0xF;
    Apart152(a, o, x, mask);
  }

  lemma Bits160(x: bv64, mask: bv64, shift: bv64)
    requires mask == 0x3C00_0000_0000 && shift == 42
    ensures Reads(x, mask, shift, 0xF, 42, 43, 44, 45, 0x1, 0x2, 0x4, 0x8)
  {}

  lemma Key160(w: bv64, g: seq<seq<bool>>, t: bool, j: int, c: int, r: int, mask: bv64, shift: bv64)
    requires j == 1 && c == 6 && r == 0 && shift == Shift(c, r) && mask == Lift(Mask(j), shift) && Marks(w, g, t)
    ensures Keyed(w, mask, shift, j, Held(g, t, j, c, r))
  {
    assert shift == 42 && mask == 0x3C00_0000_0000;
    assert Shift(6, 0) == 42 && Agrees(w, g, t, 6, 0);
    assert Shift(6, 1) == 43 && Agrees(w, g, t, 6, 1);
    assert Shift(6, 2) == 44 && Agrees(w, g, t, 6, 2);
    assert Shift(6, 3) == 45 && Agrees(w, g, t, 6, 3);
    assert Mask(j) == 0xF;
    Bits160(w, mask, shift);
  }

  lemma Apart160(a: bv64, o: bv64, x: bv64, mask: bv64)
    requires mask == 0x3C00_0000_0000
    ensures Splits(a, o, x, mask)
  {
    SubtractSubset(o, a);
  }

  lemma Cut160(a: bv64, o: bv64, x: bv64, j: int, c: int, r: int, mask: bv64, shift: bv64)
    requires j == 1 && c == 6 && r == 0 && shift == Shift(c, r) && mask == Lift(Mask(j), shift)
    ensures Splits(a, o, x, mask)
  {
    assert shift == 42 && mask == 0x3C00_0000_0000;
    assert Shift(6, 0) == 42 && Mask(j) == 0xF;
    Apart160(a, o, x, mask);
  }

  lemma Bits161(x: bv64, mask: bv64, shift: bv64)
    requires mask == 0x7800_0000_0000 && shift == 43
    ensures Reads(x, mask, shift, 0xF, 43, 44, 45, 46, 0x1, 0x2, 0x4, 0x8)
  {}

  lemma Key161(w: bv64, g: seq<seq<bool>>, t: bool, j: int, c: int, r: int, mask: bv64, shift: bv64)
    requires j == 1 && c == 6 && r == 1 && shift == Shift(c, r) && mask == Lift(Mask(j), shift) && Marks(w, g, t)
    ensures Keyed(w, mask, shift, j, Held(g, t, j, c, r))
  {
    assert shift == 43 && mask == 0x7800_0000_0000;
    assert Shift(6, 1) == 43 && Agrees(w, g, t, 6, 1);
    assert Shift(6, 2) == 44 && Agrees(w, g, t, 6, 2);
    assert Shift(6, 3) == 45 && Agrees(w, g, t, 6, 3);
    assert Shift(6, 4) == 46 && Agrees(w, g, t, 6, 4);
    assert Mask(j) == 0xF;
    Bits161(w, mask, shift);
  }

  lemma Apart161(a: bv64, o: bv64, x: bv64, mask: bv64)
    requires mask == 0x7800_0000_0000
    ensures Splits(a, o, x, mask)
  {
    SubtractSubset(o, a);
  }

  lemma Cut161(a: bv64, o: bv64, x: bv64, j: int, c: int, r: int, mask: bv64, shift: bv64)
    requires j == 1 && c == 6 && r == 1 && shift == Shift(c, r) && mask == Lift(Mask(j), shift)
    ensures Splits(a, o, x, mask)
  {
    assert shift == 43 && mask == 0x7800_0000_0000;
    assert Shift(6, 1) == 43 && Mask(j) == 0xF;
    Apart161(a, o, x, mask);
  }

  lemma Bits162(x: bv64, mask: bv64, shift: bv64)
    requires mask == 0xF000_0000_0000 && shift == 44
    ensures Reads(x, mask, shift, 0xF, 44, 45, 46, 47, 0x1, 0x2, 0x4, 0x8)
  {}

  lemma Key162(w: bv64, g: seq<seq<bool>>, t: bool, j: int, c: int, r: int, mask: bv64, shift: bv64)
    requires j == 1 && c == 6 && r == 2 && shift == Shift(c, r) && mask == Lift(Mask(j), shift) && Marks(w, g, t)
    ensures Keyed(w, mask, shift, j, Held(g, t, j, c, r))
  {
    assert shift == 44 && mask == 0xF000_0000_0000;
    assert Shift(6, 2) == 44 && Agrees(w, g, t, 6, 2);
    assert Shift(6, 3) == 45 && Agrees(w, g, t, 6, 3);
    assert Shift(6, 4) == 46 && Agrees(w, g, t, 6, 4);
    assert Shift(6, 5) == 47 && Agrees(w, g, t, 6, 5);
    assert Mask(j) == 0xF;
    Bits162(w, mask, shift);
  }

  lemma Apart162(a: bv64, o: bv64, x: bv64, mask: bv64)
    requires mask == 0xF000_0000_0000
    ensures Splits(a, o, x, mask)
  {
    SubtractSubset(o, a);
  }

  lemma Cut162(a: bv64, o: bv64, x: bv64, j: int, c: int, r: int, mask: bv64, shift: bv64)
    requires j == 1 && c == 6 && r == 2 && shift == Shift(c, r) && mask == Lift(Mask(j), shift)
    ensures Splits(a, o, x, mask)
  {
    assert shift == 44 && mask == 0xF000_0000_0000;
    assert Shift(6, 2) == 44 && Mask(j) == 0xF;
    Apart162(a, o, x, mask);
  }

  /** Every vertical window of the walk. */
  lemma Keys1(w: bv64, g: seq<seq<bool>>, t: bool, j: int, c: int, r: int, mask: bv64, shift: bv64)
    requires j == 1 && Anchor(j, c, r) && shift == Shift(c, r) && mask == Lift(Mask(j), shift) && Marks(w, g, t)
    ensures Keyed(w, mask, shift, j, Held(g, t, j, c, r))
  {
    if c == 0 && r == 0 {
      Key100(w, g, t, j, c, r, mask, shift);
    } else if c == 0 && r == 1 {
      Key101(w, g, t, j, c, r, mask, shift);
    } else if c == 0 && r == 2 {
      Key102(w, g, t, j, c, r, mask, shift);
    } else if c == 1 && r == 0 {
      Key110(w, g, t, j, c, r, mask, shift);
    } else if c == 1 && r == 1 {
      Key111(w, g, t, j, c, r, mask, shift);
    } else if c == 1 && r == 2 {
      Key112(w, g, t, j, c, r, mask, shift);
    } else if c == 2 && r == 0 {
      Key120(w, g, t, j, c, r, mask, shift);
    } else if c == 2 && r == 1 {
      Key121(w, g, t, j, c, r, mask, shift);
    } else if c == 2 && r == 2 {
      Key122(w, g, t, j, c, r, mask, shift);
    } else if c == 3 && r == 0 {
      Key130(w, g, t, j, c, r, mask, shift);
    } else if c == 3 && r == 1 {
      Key131(w, g, t, j, c, r, mask, shift);
    } else if c == 3 && r == 2 {
      Key132(w, g, t, j, c, r, mask, shift);
    } else if c == 4 && r == 0 {
      Key140(w, g, t, j, c, r, mask, shift);
    } else if c == 4 && r == 1 {
      Key141(w, g, t, j, c, r, mask, shift);
    } else if c == 4 && r == 2 {
      Key142(w, g, t, j, c, r, mask, shift);
    } else if c == 5 && r == 0 {
      Key150(w, g, t, j, c, r, mask, shift);
    } else if c == 5 && r == 1 {
      Key151(w, g, t, j, c, r, mask, shift);
    } else if c == 5 && r == 2 {
      Key152(w, g, t, j, c, r, mask, shift);
    } else if c == 6 && r == 0 {
      Key160(w, g, t, j, c, r, mask, shift);
    } else if c == 6 && r == 1 {
      Key161(w, g, t, j, c, r, mask, shift);
    } else if c == 6 && r == 2 {
      Key162(w, g, t, j, c, r, mask, shift);
    }
  }

  lemma Cuts10(a: bv64, o: bv64, x: bv64, j: int, c: int, r: int, mask: bv64, shift: bv64)
    requires j == 1 && c == 0 && 0 <= r < 3 && shift == Shift(c, r) && mask == Lift(Mask(j), shift)
    ensures Splits(a, o, x, mask)
  {
    if r == 0 {
      Cut100(a, o, x, j, c, r, mask, shift);
    } else if r == 1 {
      Cut101(a, o, x, j, c, r, mask, shift);
    } else {
      Cut102(a, o, x, j, c, r, mask, shift);
    }
  }

  lemma Cuts11(a: bv64, o: bv64, x: bv64, j: int, c: int, r: int, mask: bv64, shift: bv64)
    requires j == 1 && c == 1 && 0 <= r < 3 && shift == Shift(c, r) && mask == Lift(Mask(j), shift)
    ensures Splits(a, o, x, mask)
  {
    if r == 0 {
      Cut110(a, o, x, j, c, r, mask, shift);
    } else if r == 1 {
      Cut111(a, o, x, j, c, r, mask, shift);
    } else {
      Cut112(a, o, x, j, c, r, mask, shift);
    }
  }

  lemma Cuts12(a: bv64, o: bv64, x: bv64, j: int, c: int, r: int, mask: bv64, shift: bv64)
    requires j == 1 && c == 2 && 0 <= r < 3 && shift == Shift(c, r) && mask == Lift(Mask(j), shift)
    ensures Splits(a, o, x, mask)
  {
    if r == 0 {
      Cut120(a, o, x, j, c, r, mask, shift);
    } else if r == 1 {
      Cut121(a, o, x, j, c, r, mask, shift);
    } else {
      Cut122(a, o, x, j, c, r, mask, shift);
    }
  }

  lemma Cuts13(a: bv64, o: bv64, x: bv64, j: int, c: int, r: int, mask: bv64, shift: bv64)
    requires j == 1 && c == 3 && 0 <= r < 3 && shift == Shift(c, r) && mask == Lift(Mask(j), shift)
    ensures Splits(a, o, x, mask)
  {
    if r == 0 {
      Cut130(a, o, x, j, c, r, mask, shift);
    } else if r == 1 {
      Cut131(a, o, x, j, c, r, mask, shift);
    } else {
      Cut132(a, o, x, j, c, r, mask, shift);
    }
  }

  lemma Cuts14(a: bv64, o: bv64, x: bv64, j: int, c: int, r: int, mask: bv64, shift: bv64)
    requires j == 1 && c == 4 && 0 <= r < 3 && shift == Shift(c, r) && mask == Lift(Mask(j), shift)
    ensures Splits(a, o, x, mask)
  {
    if r == 0 {
      Cut140(a, o, x, j, c, r, mask, shift);
    } else if r == 1 {
      Cut141(a, o, x, j, c, r, mask, shift);
    } else {
      Cut142(a, o, x, j, c, r, mask, shift);
    }
  }

  lemma Cuts15(a: bv64, o: bv64, x: bv64, j: int, c: int, r: int, mask: bv64, shift: bv64)
    requires j == 1 && c == 5 && 0 <= r < 3 && shift == Shift(c, r) && mask == Lift(Mask(j), shift)
    ensures Splits(a, o, x, mask)
  {
    if r == 0 {
      Cut150(a, o, x, j, c, r, mask, shift);
    } else if r == 1 {
      Cut151(a, o, x, j, c, r, mask, shift);
    } else {
      Cut152(a, o, x, j, c, r, mask, shift);
    }
  }

  lemma Cuts16(a: bv64, o: bv64, x: bv64, j: int, c: int, r: int, mask: bv64, shift: bv64)
    requires j == 1 && c == 6 && 0 <= r < 3 && shift == Shift(c, r) && mask == Lift(Mask(j), shift)
    ensures Splits(a, o, x, mask)
  {
    if r == 0 {
      Cut160(a, o, x, j, c, r, mask, shift);
    } else if r == 1 {
      Cut161(a, o, x, j, c, r, mask, shift);
    } else {
      Cut162(a, o, x, j, c, r, mask, shift);
    }
  }

  /** Every vertical window of the walk splits the stones. */
  lemma Cuts1(a: bv64, o: bv64, x: bv64, j: int, c: int, r: int, mask: bv64, shift: bv64)
    requires j == 1 && Anchor(j, c, r) && shift == Shift(c, r) && mask == Lift(Mask(j), shift)
    ensures Splits(a, o, x, mask)
  {
    if c == 0 {
      Cuts10(a, o, x, j, c, r, mask, shift);
    } else if c == 1 {
      Cuts11(a, o, x, j, c, r, mask, shift);
    } else if c == 2 {
      Cuts12(a, o, x, j, c, r, mask, shift);
    } else if c == 3 {
      Cuts13(a, o, x, j, c, r, mask, shift);
    } else if c == 4 {
      Cuts14(a, o, x, j, c, r, mask, shift);
    } else if c == 5 {
      Cuts15(a, o, x, j, c, r, mask, shift);
    } else {
      Cuts16(a, o, x, j, c, r, mask, shift);
    }
  }

  // -----------------------------------------------------------------------
  // The rising windows

  lemma Bits200(x: bv64, mask: bv64, shift: bv64)
    requires mask == 0x101_0101 && shift == 0
    ensures Reads(x, mask, shift, 0x101_0101, 0, 8, 16, 24, 0x1, 0x100, 0x1_0000, 0x100_0000)
  {}

  lemma Key200(w: bv64, g: seq<seq<bool>>, t: bool, j: int, c: int, r: int, mask: bv64, shift: bv64)
    requires j == 2 && c == 0 && r == 0 && shift == Shift(c, r) && mask == Lift(Mask(j), shift) && Marks(w, g, t)
    ensures Keyed(w, mask, shift, j, Held(g, t, j, c, r))
  {
    assert shift == 0 && mask == 0x101_0101;
    assert Shift(0, 0) == 0 && Agrees(w, g, t, 0, 0);
    assert Shift(1, 1) == 8 && Agrees(w, g, t, 1, 1);
    assert Shift(2, 2) == 16 && Agrees(w, g, t, 2, 2);
    assert Shift(3, 3) == 24 && Agrees(w, g, t, 3, 3);
    assert Mask(j) == 0x101_0101;
    Bits200(w, mask, shift);
  }

  lemma Apart200(a: bv64, o: bv64, x: bv64, mask: bv64)
    requires mask == 0x101_0101
    ensures Splits(a, o, x, mask)
  {
    SubtractSubset(o, a);
  }

  lemma Cut200(a: bv64, o: bv64, x: bv64, j: int, c: int, r: int, mask: bv64, shift: bv64)
    requires j == 2 && c == 0 && r == 0 && shift == Shift(c, r) && mask == Lift(Mask(j), shift)
    ensures Splits(a, o, x, mask)
  {
    assert shift == 0 && mask == 0x101_0101;
    assert Shift(0, 0) == 0 && Mask(j) == 0x101_0101;
    Apart200(a, o, x, mask);
  }

  lemma Bits201(x: bv64, mask: bv64, shift: bv64)
    requires mask == 0x202_0202 && shift == 1
    ensures Reads(x, mask, shift, 0x101_0101, 1, 9, 17, 25, 0x1, 0x100, 0x1_0000, 0x100_0000)
  {}

  lemma Key201(w: bv64, g: seq<seq<bool>>, t: bool, j: int, c: int, r: int, mask: bv64, shift: bv64)
    requires j == 2 && c == 0 && r == 1 && shift == Shift(c, r) && mask == Lift(Mask(j), shift) && Marks(w, g, t)
    ensures Keyed(w, mask, shift, j, Held(g, t, j, c, r))
  {
    assert shift == 1 && mask == 0x202_0202;
    assert Shift(0, 1) == 1 && Agrees(w, g, t, 0, 1);
    assert Shift(1, 2) == 9 && Agrees(w, g, t, 1, 2);
    assert Shift(2, 3) == 17 && Agrees(w, g, t, 2, 3);
    assert Shift(3, 4) == 25 && Agrees(w, g, t, 3, 4);
    assert Mask(j) == 0x101_0101;
    Bits201(w, mask, shift);
  }

  lemma Apart201(a: bv64, o: bv64, x: bv64, mask: bv64)
    requires mask == 0x202_0202
    ensures Splits(a, o, x, mask)
  {
    SubtractSubset(o, a);
  }

  lemma Cut201(a: bv64, o: bv64, x: bv64, j: int, c: int, r: int, mask: bv64, shift: bv64)
    requires j == 2 && c == 0 && r == 1 && shift == Shift(c, r) && mask == Lift(Mask(j), shift)
    ensures Splits(a, o, x, mask)
  {
    assert shift == 1 && mask == 0x202_0202;
    assert Shift(0, 1) == 1 && Mask(j) == 0x101_0101;
    Apart201(a, o, x, mask);
  }

  lemma Bits202(x: bv64, mask: bv64, shift: bv64)
    requires mask == 0x404_0404 && shift == 2
    ensures Reads(x, mask, shift, 0x101_0101, 2, 10, 18, 26, 0x1, 0x100, 0x1_0000, 0x100_0000)
  {}

  lemma Key202(w: bv64, g: seq<seq<bool>>, t: bool, j: int, c: int, r: int, mask: bv64, shift: bv64)
    requires j == 2 && c == 0 && r == 2 && shift == Shift(c, r) && mask == Lift(Mask(j), shift) && Marks(w, g, t)
    ensures Keyed(w, mask, shift, j, Held(g, t, j, c, r))
  {
    assert shift == 2 && mask == 0x404_0404;
    assert Shift(0, 2) == 2 && Agrees(w, g, t, 0, 2);
    assert Shift(1, 3) == 10 && Agrees(w, g, t, 1, 3);
    assert Shift(2, 4) == 18 && Agrees(w, g, t, 2, 4);
    assert Shift(3, 5) == 26 && Agrees(w, g, t, 3, 5);
    assert Mask(j) == 0x101_0101;
    Bits202(w, mask, shift);
  }

  lemma Apart202(a: bv64, o: bv64, x: bv64, mask: bv64)
    requires mask == 0x404_0404
    ensures Splits(a, o, x, mask)
  {
    SubtractSubset(o, a);
  }

  lemma Cut202(a: bv64, o: bv64, x: bv64, j: int, c: int, r: int, mask: bv64, shift: bv64)
    requires j == 2 && c == 0 && r == 2 && shift == Shift(c, r) && mask == Lift(Mask(j), shift)
    ensures Splits(a, o, x, mask)
  {
    assert shift == 2 && mask == 0x404_0404;
    assert Shift(0, 2) == 2 && Mask(j) == 0x101_0101;
    Apart202(a, o, x, mask);
  }

  lemma Bits210(x: bv64, mask: bv64, shift: bv64)
    requires mask == 0x8080_8080 && shift == 7
    ensures Reads(x, mask, shift, 0x101_0101, 7, 15, 23, 31, 0x1, 0x100, 0x1_0000, 0x100_0000)
  {}

  lemma Key210(w: bv64, g: seq<seq<bool>>, t: bool, j: int, c: int, r: int, mask: bv64, shift: bv64)
    requires j == 2 && c == 1 && r == 0 && shift == Shift(c, r) && mask == Lift(Mask(j), shift) && Marks(w, g, t)
    ensures Keyed(w, mask, shift, j, Held(g, t, j, c, r))
  {
    assert shift == 7 && mask == 0x8080_8080;
    assert Shift(1, 0) == 7 && Agrees(w, g, t, 1, 0);
    assert Shift(2, 1) == 15 && Agrees(w, g, t, 2, 1);
    assert Shift(3, 2) == 23 && Agrees(w, g, t, 3, 2);
    assert Shift(4, 3) == 31 && Agrees(w, g, t, 4, 3);
    assert Mask(j) == 0x101_0101;
    Bits210(w, mask, shift);
  }

  lemma Apart210(a: bv64, o: bv64, x: bv64, mask: bv64)
    requires mask == 0x8080_8080
    ensures Splits(a, o, x, mask)
  {
    SubtractSubset(o, a);
  }

  lemma Cut210(a: bv64, o: bv64, x: bv64, j: int, c: int, r: int, mask: bv64, shift: bv64)
    requires j == 2 && c == 1 && r == 0 && shift == Shift(c, r) && mask == Lift(Mask(j), shift)
    ensures Splits(a, o, x, mask)
  {
    assert shift == 7 && mask == 0x8080_8080;
    assert Shift(1, 0) == 7 && Mask(j) == 0x101_0101;
    Apart210(a, o, x, mask);
  }

  lemma Bits211(x: bv64, mask: bv64, shift: bv64)
    requires mask == 0x1_0101_0100 && shift == 8
    ensures Reads(x, mask, shift, 0x101_0101, 8, 16, 24, 32, 0x1, 0x100, 0x1_0000, 0x100_0000)
  {}

  lemma Key211(w: bv64, g: seq<seq<bool>>, t: bool, j: int, c: int, r: int, mask: bv64, shift: bv64)
    requires j == 2 && c == 1 && r == 1 && shift == Shift(c, r) && mask == Lift(Mask(j), shift) && Marks(w, g, t)
    ensures Keyed(w, mask, shift, j, Held(g, t, j, c, r))
  {
    assert shift == 8 && mask == 0x1_0101_0100;
    assert Shift(1, 1) == 8 && Agrees(w, g, t, 1, 1);
    assert Shift(2, 2) == 16 && Agrees(w, g, t, 2, 2);
    assert Shift(3, 3) == 24 && Agrees(w, g, t, 3, 3);
    assert Shift(4, 4) == 32 && Agrees(w, g, t, 4, 4);
    assert Mask(j) == 0x101_0101;
    Bits211(w, mask, shift);
  }

  lemma Apart211(a: bv64, o: bv64, x: bv64, mask: bv64)
    requires mask == 0x1_0101_0100
    ensures Splits(a, o, x, mask)
  {
    SubtractSubset(o, a);
  }

  lemma Cut211(a: bv64, o: bv64, x: bv64, j: int, c: int, r: int, mask: bv64, shift: bv64)
    requires j == 2 && c == 1 && r == 1 && shift == Shift(c, r) && mask == Lift(Mask(j), shift)
    ensures Splits(a, o, x, mask)
  {
    assert shift == 8 && mask == 0x1_0101_0100;
    assert Shift(1, 1) == 8 && Mask(j) == 0x101_0101;
    Apart211(a, o, x, mask);
  }

  lemma Bits212(x: bv64, mask: bv64, shift: bv64)
    requires mask == 0x2_0202_0200 && shift == 9
    ensures Reads(x, mask, shift, 0x101_0101, 9, 17, 25, 33, 0x1, 0x100, 0x1_0000, 0x100_0000)
  {}

  lemma Key212(w: bv64, g: seq<seq<bool>>, t: bool, j: int, c: int, r: int, mask: bv64, shift: bv64)
    requires j == 2 && c == 1 && r == 2 && shift == Shift(c, r) && mask == Lift(Mask(j), shift) && Marks(w, g, t)
    ensures Keyed(w, mask, shift, j, Held(g, t, j, c, r))
  {
    assert shift == 9 && mask == 0x2_0202_0200;
    assert Shift(1, 2) == 9 && Agrees(w, g, t, 1, 2);
    assert Shift(2, 3) == 17 && Agrees(w, g, t, 2, 3);
    assert Shift(3, 4) == 25 && Agrees(w, g, t, 3, 4);
    assert Shift(4, 5) == 33 && Agrees(w, g, t, 4, 5);
    assert Mask(j) == 0x101_0101;
    Bits212(w, mask, shift);
  }

  lemma Apart212(a: bv64, o: bv64, x: bv64, mask: bv64)
    requires mask == 0x2_0202_0200
    ensures Splits(a, o, x, mask)
  {
    SubtractSubset(o, a);
  }

  lemma Cut212(a: bv64, o: bv64, x: bv64, j: int, c: int, r: int, mask: bv64, shift: bv64)
    requires j == 2 && c == 1 && r == 2 && shift == Shift(c, r) && mask == Lift(Mask(j), shift)
    ensures Splits(a, o, x, mask)
  {
    assert shift == 9 && mask == 0x2_0202_0200;
    assert Shift(1, 2) == 9 && Mask(j) == 0x101_0101;
    Apart212(a, o, x, mask);
  }

  lemma Bits220(x: bv64, mask: bv64, shift: bv64)
    requires mask == 0x40_4040_4000 && shift == 14
    ensures Reads(x, mask, shift, 0x101_0101, 14, 22, 30, 38, 0x1, 0x100, 0x1_0000, 0x100_0000)
  {}

  lemma Key220(w: bv64, g: seq<seq<bool>>, t: bool, j: int, c: int, r: int, mask: bv64, shift: bv64)
    requires j == 2 && c == 2 && r == 0 && shift == Shift(c, r) && mask == Lift(Mask(j), shift) && Marks(w, g, t)
    ensures Keyed(w, mask, shift, j, Held(g, t, j, c, r))
  {
    assert shift == 14 && mask == 0x40_4040_4000;
    assert Shift(2, 0) == 14 && Agrees(w, g, t, 2, 0);
    assert Shift(3, 1) == 22 && Agrees(w, g, t, 3, 1);
    assert Shift(4, 2) == 30 && Agrees(w, g, t, 4, 2);
    assert Shift(5, 3) == 38 && Agrees(w, g, t, 5, 3);
    assert Mask(j) == 0x101_0101;
    Bits220(w, mask, shift);
  }

  lemma Apart220(a: bv64, o: bv64, x: bv64, mask: bv64)
    requires mask == 0x40_4040_4000
    ensures Splits(a, o, x, mask)
  {
    SubtractSubset(o, a);
  }

  lemma Cut220(a: bv64, o: bv64, x: bv64, j: int, c: int, r: int, mask: bv64, shift: bv64)
    requires j == 2 && c == 2 && r == 0 && shift == Shift(c, r) && mask == Lift(Mask(j), shift)
    ensures Splits(a, o, x, mask)
  {
    assert shift == 14 && mask == 0x40_4040_4000;
    assert Shift(2, 0) == 14 && Mask(j) == 0x101_0101;
    Apart220(a, o, x, mask);
  }

  lemma Bits221(x: bv64, mask: bv64, shift: bv64)
    requires mask == 0x80_8080_8000 && shift == 15
    ensures Reads(x, mask, shift, 0x101_0101, 15, 23, 31, 39, 0x1, 0x100, 0x1_0000, 0x100_0000)
  {}

  lemma Key221(w: bv64, g: seq<seq<bool>>, t: bool, j: int, c: int, r: int, mask: bv64, shift: bv64)
    requires j == 2 && c == 2 && r == 1 && shift == Shift(c, r) && mask == Lift(Mask(j), shift) && Marks(w, g, t)
    ensures Keyed(w, mask, shift, j, Held(g, t, j, c, r))
  {
    assert shift == 15 && mask == 0x80_8080_8000;
    assert Shift(2, 1) == 15 && Agrees(w, g, t, 2, 1);
    assert Shift(3, 2) == 23 && Agrees(w, g, t, 3, 2);
    assert Shift(4, 3) == 31 && Agrees(w, g, t, 4, 3);
    assert Shift(5, 4) == 39 && Agrees(w, g, t, 5, 4);
    assert Mask(j) == 0x101_0101;
    Bits221(w, mask, shift);
  }

  lemma Apart221(a: bv64, o: bv64, x: bv64, mask: bv64)
    requires mask == 0x80_8080_8000
    ensures Splits(a, o, x, mask)
  {
    SubtractSubset(o, a);
  }

  lemma Cut221(a: bv64, o: bv64, x: bv64, j: int, c: int, r: int, mask: bv64, shift: bv64)
    requires j == 2 && c == 2 && r == 1 && shift == Shift(c, r) && mask == Lift(Mask(j), shift)
    ensures Splits(a, o, x, mask)
  {
    assert shift == 15 && mask == 0x80_8080_8000;
    assert Shift(2, 1) == 15 && Mask(j) == 0x101_0101;
    Apart221(a, o, x, mask);
  }

  lemma Bits222(x: bv64, mask: bv64, shift: bv64)
    requires mask == 0x101_0101_0000 && shift == 16
    ensures Reads(x, mask, shift, 0x101_0101, 16, 24, 32, 40, 0x1, 0x100, 0x1_0000, 0x100_0000)
  {}

  lemma Key222(w: bv64, g: seq<seq<bool>>, t: bool, j: int, c: int, r: int, mask: bv64, shift: bv64)
    requires j == 2 && c == 2 && r == 2 && shift == Shift(c, r) && mask == Lift(Mask(j), shift) && Marks(w, g, t)
    ensures Keyed(w, mask, shift, j, Held(g, t, j, c, r))
  {
    assert shift == 16 && mask == 0x101_0101_0000;
    assert Shift(2, 2) == 16 && Agrees(w, g, t, 2, 2);
    assert Shift(3, 3) == 24 && Agrees(w, g, t, 3, 3);
    assert Shift(4, 4) == 32 && Agrees(w, g, t, 4, 4);
    assert Shift(5, 5) == 40 && Agrees(w, g, t, 5, 5);
    assert Mask(j) == 0x101_0101;
    Bits222(w, mask, shift);
  }

  lemma Apart222(a: bv64, o: bv64, x: bv64, mask: bv64)
    requires mask == 0x101_0101_0000
    ensures Splits(a, o, x, mask)
  {
    SubtractSubset(o, a);
  }

  lemma Cut222(a: bv64, o: bv64, x: bv64, j: int, c: int, r: int, mask: bv64, shift: bv64)
    requires j == 2 && c == 2 && r == 2 && shift == Shift(c, r) && mask == Lift(Mask(j), shift)
    ensures Splits(a, o, x, mask)
  {
    assert shift == 16 && mask == 0x101_0101_0000;
    assert Shift(2, 2) == 16 && Mask(j) == 0x101_0101;
    Apart222(a, o, x, mask);
  }

  lemma Bits230(x: bv64, mask: bv64, shift: bv64)
    requires mask == 0x2020_2020_0000 && shift == 21
    ensures Reads(x, mask, shift, 0x101_0101, 21, 29, 37, 45, 0x1, 0x100, 0x1_0000, 0x100_0000)
  {}

  lemma Key230(w: bv64, g: seq<seq<bool>>, t: bool, j: int, c: int, r: int, mask: bv64, shift: bv64)
    requires j == 2 && c == 3 && r == 0 && shift == Shift(c, r) && mask == Lift(Mask(j), shift) && Marks(w, g, t)
    ensures Keyed(w, mask, shift, j, Held(g, t, j, c, r))
  {
    assert shift == 21 && mask == 0x2020_2020_0000;
    assert Shift(3, 0) == 21 && Agrees(w, g, t, 3, 0);
    assert Shift(4, 1) == 29 && Agrees(w, g, t, 4, 1);
    assert Shift(5, 2) == 37 && Agrees(w, g, t, 5, 2);
    assert Shift(6, 3) == 45 && Agrees(w, g, t, 6, 3);
    assert Mask(j) == 0x101_0101;
    Bits230(w, mask, shift);
  }

  lemma Apart230(a: bv64, o: bv64, x: bv64, mask: bv64)
    requires mask == 0x2020_2020_0000
    ensures Splits(a, o, x, mask)
  {
    SubtractSubset(o, a);
  }

  lemma Cut230(a: bv64, o: bv64, x: bv64, j: int, c: int, r: int, mask: bv64, shift: bv64)
    requires j == 2 && c == 3 && r == 0 && shift == Shift(c, r) && mask == Lift(Mask(j), shift)
    ensures Splits(a, o, x, mask)
  {
    assert shift == 21 && mask == 0x2020_2020_0000;
    assert Shift(3, 0) == 21 && Mask(j) == 0x101_0101;
    Apart230(a, o, x, mask);
  }

  lemma Bits231(x: bv64, mask: bv64, shift: bv64)
    requires mask == 0x4040_4040_0000 && shift == 22
    ensures Reads(x, mask, shift, 0x101_0101, 22, 30, 38, 46, 0x1, 0x100, 0x1_0000, 0x100_0000)
  {}

  lemma Key231(w: bv64, g: seq<seq<bool>>, t: bool, j: int, c: int, r: int, mask: bv64, shift: bv64)
    requires j == 2 && c == 3 && r == 1 && shift == Shift(c, r) && mask == Lift(Mask(j), shift) && Marks(w, g, t)
    ensures Keyed(w, mask, shift, j, Held(g, t, j, c, r))
  {
    assert shift == 22 && mask == 0x4040_4040_0000;
    assert Shift(3, 1) == 22 && Agrees(w, g, t, 3, 1);
    assert Shift(4, 2) == 30 && Agrees(w, g, t, 4, 2);
    assert Shift(5, 3) == 38 && Agrees(w, g, t, 5, 3);
    assert Shift(6, 4) == 46 && Agrees(w, g, t, 6, 4);
    assert Mask(j) == 0x101_0101;
    Bits231(w, mask, shift);
  }

  lemma Apart231(a: bv64, o: bv64, x: bv64, mask: bv64)
    requires mask == 0x4040_4040_0000
    ensures Splits(a, o, x, mask)
  {
    SubtractSubset(o, a);
  }

  lemma Cut231(a: bv64, o: bv64, x: bv64, j: int, c: int, r: int, mask: bv64, shift: bv64)
    requires j == 2 && c == 3 && r == 1 && shift == Shift(c, r) && mask == Lift(Mask(j), shift)
    ensures Splits(a, o, x, mask)
  {
    assert shift == 22 && mask == 0x4040_4040_0000;
    assert Shift(3, 1) == 22 && Mask(j) == 0x101_0101;
    Apart231(a, o, x, mask);
  }

  lemma Bits232(x: bv64, mask: bv64, shift: bv64)
    requires mask == 0x8080_8080_0000 && shift == 23
    ensures Reads(x, mask, shift, 0x101_0101, 23, 31, 39, 47, 0x1, 0x100, 0x1_0000, 0x100_0000)
  {}

  lemma Key232(w: bv64, g: seq<seq<bool>>, t: bool, j: int, c: int, r: int, mask: bv64, shift: bv64)
    requires j == 2 && c == 3 && r == 2 && shift == Shift(c, r) && mask == Lift(Mask(j), shift) && Marks(w, g, t)
    ensures Keyed(w, mask, shift, j, Held(g, t, j, c, r))
  {
    assert shift == 23 && mask == 0x8080_8080_0000;
    assert Shift(3, 2) == 23 && Agrees(w, g, t, 3, 2);
    assert Shift(4, 3) == 31 && Agrees(w, g, t, 4, 3);
    assert Shift(5, 4) == 39 && Agrees(w, g, t, 5, 4);
    assert Shift(6, 5) == 47 && Agrees(w, g, t, 6, 5);
    assert Mask(j) == 0x101_0101;
    Bits232(w, mask, shift);
  }

  lemma Apart232(a: bv64, o: bv64, x: bv64, mask: bv64)
    requires mask == 0x8080_8080_0000
    ensures Splits(a, o, x, mask)
  {
    SubtractSubset(o, a);
  }

  lemma Cut232(a: bv64, o: bv64, x: bv64, j: int, c: int, r: int, mask: bv64, shift: bv64)
    requires j == 2 && c == 3 && r == 2 && shift == Shift(c, r) && mask == Lift(Mask(j), shift)
    ensures Splits(a, o, x, mask)
  {
    assert shift == 23 && mask == 0x8080_8080_0000;
    assert Shift(3, 2) == 23 && Mask(j) == 0x101_0101;
    Apart232(a, o, x, mask);
  }

  /** Every rising window of the walk. */
  lemma Keys2(w: bv64, g: seq<seq<bool>>, t: bool, j: int, c: int, r: int, mask: bv64, shift: bv64)
    requires j == 2 && Anchor(j, c, r) && shift == Shift(c, r) && mask == Lift(Mask(j), shift) && Marks(w, g, t)
    ensures Keyed(w, mask, shift, j, Held(g, t, j, c, r))
  {
    if c == 0 && r == 0 {
      Key200(w, g, t, j, c, r, mask, shift);
    } else if c == 0 && r == 1 {
      Key201(w, g, t, j, c, r, mask, shift);
    } else if c == 0 && r == 2 {
      Key202(w, g, t, j, c, r, mask, shift);
    } else if c == 1 && r == 0 {
      Key210(w, g, t, j, c, r, mask, shift);
    } else if c == 1 && r == 1 {
      Key211(w, g, t, j, c, r, mask, shift);
    } else if c == 1 && r == 2 {
      Key212(w, g, t, j, c, r, mask, shift);
    } else if c == 2 && r == 0 {
      Key220(w, g, t, j, c, r, mask, shift);
    } else if c == 2 && r == 1 {
      Key221(w, g, t, j, c, r, mask, shift);
    } else if c == 2 && r == 2 {
      Key222(w, g, t, j, c, r, mask, shift);
    } else if c == 3 && r == 0 {
      Key230(w, g, t, j, c, r, mask, shift);
    } else if c == 3 && r == 1 {
      Key231(w, g, t, j, c, r, mask, shift);
    } else if c == 3 && r == 2 {
      Key232(w, g, t, j, c, r, mask, shift);
    }
  }

  lemma Cuts20(a: bv64, o: bv64, x: bv64, j: int, c: int, r: int, mask: bv64, shift: bv64)
    requires j == 2 && c == 0 && 0 <= r < 3 && shift == Shift(c, r) && mask == Lift(Mask(j), shift)
    ensures Splits(a, o, x, mask)
  {
    if r == 0 {
      Cut200(a, o, x, j, c, r, mask, shift);
    } else if r == 1 {
      Cut201(a, o, x, j, c, r, mask, shift);
    } else {
      Cut202(a, o, x, j, c, r, mask, shift);
    }
  }

  lemma Cuts21(a: bv64, o: bv64, x: bv64, j: int, c: int, r: int, mask: bv64, shift: bv64)
    requires j == 2 && c == 1 && 0 <= r < 3 && shift == Shift(c, r) && mask == Lift(Mask(j), shift)
    ensures Splits(a, o, x, mask)
  {
    if r == 0 {
      Cut210(a, o, x, j, c, r, mask, shift);
    } else if r == 1 {
      Cut211(a, o, x, j, c, r, mask, shift);
    } else {
      Cut212(a, o, x, j, c, r, mask, shift);
    }
  }

  lemma Cuts22(a: bv64, o: bv64, x: bv64, j: int, c: int, r: int, mask: bv64, shift: bv64)
    requires j == 2 && c == 2 && 0 <= r < 3 && shift == Shift(c, r) && mask == Lift(Mask(j), shift)
    ensures Splits(a, o, x, mask)
  {
    if r == 0 {
      Cut220(a, o, x, j, c, r, mask, shift);
    } else if r == 1 {
      Cut221(a, o, x, j, c, r, mask, shift);
    } else {
      Cut222(a, o, x, j, c, r, mask, shift);
    }
  }

  lemma Cuts23(a: bv64, o: bv64, x: bv64, j: int, c: int, r: int, mask: bv64, shift: bv64)
    requires j == 2 && c == 3 && 0 <= r < 3 && shift == Shift(c, r) && mask == Lift(Mask(j), shift)
    ensures Splits(a, o, x, mask)
  {
    if r == 0 {
      Cut230(a, o, x, j, c, r, mask, shift);
    } else if r == 1 {
      Cut231(a, o, x, j, c, r, mask, shift);
    } else {
      Cut232(a, o, x, j, c, r, mask, shift);
    }
  }

  /** Every rising window of the walk splits the stones. */
  lemma Cuts2(a: bv64, o: bv64, x: bv64, j: int, c: int, r: int, mask: bv64, shift: bv64)
    requires j == 2 && Anchor(j, c, r) && shift == Shift(c, r) && mask == Lift(Mask(j), shift)
    ensures Splits(a, o, x, mask)
  {
    if c == 0 {
      Cuts20(a, o, x, j, c, r, mask, shift);
    } else if c == 1 {
      Cuts21(a, o, x, j, c, r, mask, shift);
    } else if c == 2 {
      Cuts22(a, o, x, j, c, r, mask, shift);
    } else {
      Cuts23(a, o, x, j, c, r, mask, shift);
    }
  }

  // -----------------------------------------------------------------------
  // The falling windows

  lemma Bits300(x: bv64, mask: bv64, shift: bv64)
    requires mask == 0x20_8208 && shift == 0
    ensures Reads(x, mask, shift, 0x20_8208, 3, 9, 15, 21, 0x8, 0x200, 0x8000, 0x20_0000)
  {}

  lemma Key300(w: bv64, g: seq<seq<bool>>, t: bool, j: int, c: int, r: int, mask: bv64, shift: bv64)
    requires j == 3 && c == 0 && r == 0 && shift == Shift(c, r) && mask == Lift(Mask(j), shift) && Marks(w, g, t)
    ensures Keyed(w, mask, shift, j, Held(g, t, j, c, r))
  {
    assert shift == 0 && mask == 0x20_8208;
    assert Shift(0, 3) == 3 && Agrees(w, g, t, 0, 3);
    assert Shift(1, 2) == 9 && Agrees(w, g, t, 1, 2);
    assert Shift(2, 1) == 15 && Agrees(w, g, t, 2, 1);
    assert Shift(3, 0) == 21 && Agrees(w, g, t, 3, 0);
    assert Mask(j) == 0x20_8208;
    Bits300(w, mask, shift);
  }

  lemma Apart300(a: bv64, o: bv64, x: bv64, mask: bv64)
    requires mask == 0x20_8208
    ensures Splits(a, o, x, mask)
  {
    SubtractSubset(o, a);
  }

  lemma Cut300(a: bv64, o: bv64, x: bv64, j: int, c: int, r: int, mask: bv64, shift: bv64)
    requires j == 3 && c == 0 && r == 0 && shift == Shift(c, r) && mask == Lift(Mask(j), shift)
    ensures Splits(a, o, x, mask)
  {
    assert shift == 0 && mask == 0x20_8208;
    assert Shift(0, 0) == 0 && Mask(j) == 0x20_8208;
    Apart300(a, o, x, mask);
  }

  lemma Bits301(x: bv64, mask: bv64, shift: bv64)
    requires mask == 0x41_0410 && shift == 1
    ensures Reads(x, mask, shift, 0x20_8208, 4, 10, 16, 22, 0x8, 0x200, 0x8000, 0x20_0000)
  {}

  lemma Key301(w: bv64, g: seq<seq<bool>>, t: bool, j: int, c: int, r: int, mask: bv64, shift: bv64)
    requires j == 3 && c == 0 && r == 1 && shift == Shift(c, r) && mask == Lift(Mask(j), shift) && Marks(w, g, t)
    ensures Keyed(w, mask, shift, j, Held(g, t, j, c, r))
  {
    assert shift == 1 && mask == 0x41_0410;
    assert Shift(0, 4) == 4 && Agrees(w, g, t, 0, 4);
    assert Shift(1, 3) == 10 && Agrees(w, g, t, 1, 3);
    assert Shift(2, 2) == 16 && Agrees(w, g, t, 2, 2);
    assert Shift(3, 1) == 22 && Agrees(w, g, t, 3, 1);
    assert Mask(j) == 0x20_8208;
    Bits301(w, mask, shift);
  }

  lemma Apart301(a: bv64, o: bv64, x: bv64, mask: bv64)
    requires mask == 0x41_0410
    ensures Splits(a, o, x, mask)
  {
    SubtractSubset(o, a);
  }

  lemma Cut301(a: bv64, o: bv64, x: bv64, j: int, c: int, r: int, mask: bv64, shift: bv64)
    requires j == 3 && c == 0 && r == 1 && shift == Shift(c, r) && mask == Lift(Mask(j), shift)
    ensures Splits(a, o, x, mask)
  {
    assert shift == 1 && mask == 0x41_0410;
    assert Shift(0, 1) == 1 && Mask(j) == 0x20_8208;
    Apart301(a, o, x, mask);
  }

  lemma Bits302(x: bv64, mask: bv64, shift: bv64)
    requires mask == 0x82_0820 && shift == 2
    ensures Reads(x, mask, shift, 0x20_8208, 5, 11, 17, 23, 0x8, 0x200, 0x8000, 0x20_0000)
  {}

  lemma Key302(w: bv64, g: seq<seq<bool>>, t: bool, j: int, c: int, r: int, mask: bv64, shift: bv64)
    requires j == 3 && c == 0 && r == 2 && shift == Shift(c, r) && mask == Lift(Mask(j), shift) && Marks(w, g, t)
    ensures Keyed(w, mask, shift, j, Held(g, t, j, c, r))
  {
    assert shift == 2 && mask == 0x82_0820;
    assert Shift(0, 5) == 5 && Agrees(w, g, t, 0, 5);
    assert Shift(1, 4) == 11 && Agrees(w, g, t, 1, 4);
    assert Shift(2, 3) == 17 && Agrees(w, g, t, 2, 3);
    assert Shift(3, 2) == 23 && Agrees(w, g, t, 3, 2);
    assert Mask(j) == 0x20_8208;
    Bits302(w, mask, shift);
  }

  lemma Apart302(a: bv64, o: bv64, x: bv64, mask: bv64)
    requires mask == 0x82_0820
    ensures Splits(a, o, x, mask)
  {
    SubtractSubset(o, a);
  }

  lemma Cut302(a: bv64, o: bv64, x: bv64, j: int, c: int, r: int, mask: bv64, shift: bv64)
    requires j == 3 && c == 0 && r == 2 && shift == Shift(c, r) && mask == Lift(Mask(j), shift)
    ensures Splits(a, o, x, mask)
  {
    assert shift == 2 && mask == 0x82_0820;
    assert Shift(0, 2) == 2 && Mask(j) == 0x20_8208;
    Apart302(a, o, x, mask);
  }

  lemma Bits310(x: bv64, mask: bv64, shift: bv64)
    requires mask == 0x1041_0400 && shift == 7
    ensures Reads(x, mask, shift, 0x20_8208, 10, 16, 22, 28, 0x8, 0x200, 0x8000, 0x20_0000)
  {}

  lemma Key310(w: bv64, g: seq<seq<bool>>, t: bool, j: int, c: int, r: int, mask: bv64, shift: bv64)
    requires j == 3 && c == 1 && r == 0 && shift == Shift(c, r) && mask == Lift(Mask(j), shift) && Marks(w, g, t)
    ensures Keyed(w, mask, shift, j, Held(g, t, j, c, r))
  {
    assert shift == 7 && mask == 0x1041_0400;
    assert Shift(1, 3) == 10 && Agrees(w, g, t, 1, 3);
    assert Shift(2, 2) == 16 && Agrees(w, g, t, 2, 2);
    assert Shift(3, 1) == 22 && Agrees(w, g, t, 3, 1);
    assert Shift(4, 0) == 28 && Agrees(w, g, t, 4, 0);
    assert Mask(j) == 0x20_8208;
    Bits310(w, mask, shift);
  }

  lemma Apart310(a: bv64, o: bv64, x: bv64, mask: bv64)
    requires mask == 0x1041_0400
    ensures Splits(a, o, x, mask)
  {
    SubtractSubset(o, a);
  }

  lemma Cut310(a: bv64, o: bv64, x: bv64, j: int, c: int, r: int, mask: bv64, shift: bv64)
    requires j == 3 && c == 1 && r == 0 && shift == Shift(c, r) && mask == Lift(Mask(j), shift)
    ensures Splits(a, o, x, mask)
  {
    assert shift == 7 && mask == 0x1041_0400;
    assert Shift(1, 0) == 7 && Mask(j) == 0x20_8208;
    Apart310(a, o, x, mask);
  }

  lemma Bits311(x: bv64, mask: bv64, shift: bv64)
    requires mask == 0x2082_0800 && shift == 8
    ensures Reads(x, mask, shift, 0x20_8208, 11, 17, 23, 29, 0x8, 0x200, 0x8000, 0x20_0000)
  {}

  lemma Key311(w: bv64, g: seq<seq<bool>>, t: bool, j: int, c: int, r: int, mask: bv64, shift: bv64)
    requires j == 3 && c == 1 && r == 1 && shift == Shift(c, r) && mask == Lift(Mask(j), shift) && Marks(w, g, t)
    ensures Keyed(w, mask, shift, j, Held(g, t, j, c, r))
  {
    assert shift == 8 && mask == 0x2082_0800;
    assert Shift(1, 4) == 11 && Agrees(w, g, t, 1, 4);
    assert Shift(2, 3) == 17 && Agrees(w, g, t, 2, 3);
    assert Shift(3, 2) == 23 && Agrees(w, g, t, 3, 2);
    assert Shift(4, 1) == 29 && Agrees(w, g, t, 4, 1);
    assert Mask(j) == 0x20_8208;
    Bits311(w, mask, shift);
  }

  lemma Apart311(a: bv64, o: bv64, x: bv64, mask: bv64)
    requires mask == 0x2082_0800
    ensures Splits(a, o, x, mask)
  {
    SubtractSubset(o, a);
  }

  lemma Cut311(a: bv64, o: bv64, x: bv64, j: int, c: int, r: int, mask: bv64, shift: bv64)
    requires j == 3 && c == 1 && r == 1 && shift == Shift(c, r) && mask == Lift(Mask(j), shift)
    ensures Splits(a, o, x, mask)
  {
    assert shift == 8 && mask == 0x2082_0800;
    assert Shift(1, 1) == 8 && Mask(j) == 0x20_8208;
    Apart311(a, o, x, mask);
  }

  lemma Bits312(x: bv64, mask: bv64, shift: bv64)
    requires mask == 0x4104_1000 && shift == 9
    ensures Reads(x, mask, shift, 0x20_8208, 12, 18, 24, 30, 0x8, 0x200, 0x8000, 0x20_0000)
  {}

  lemma Key312(w: bv64, g: seq<seq<bool>>, t: bool, j: int, c: int, r: int, mask: bv64, shift: bv64)
    requires j == 3 && c == 1 && r == 2 && shift == Shift(c, r) && mask == Lift(Mask(j), shift) && Marks(w, g, t)
    ensures Keyed(w, mask, shift, j, Held(g, t, j, c, r))
  {
    assert shift == 9 && mask == 0x4104_1000;
    assert Shift(1, 5) == 12 && Agrees(w, g, t, 1, 5);
    assert Shift(2, 4) == 18 && Agrees(w, g, t, 2, 4);
    assert Shift(3, 3) == 24 && Agrees(w, g, t, 3, 3);
    assert Shift(4, 2) == 30 && Agrees(w, g, t, 4, 2);
    assert Mask(j) == 0x20_8208;
    Bits312(w, mask, shift);
  }

  lemma Apart312(a: bv64, o: bv64, x: bv64, mask: bv64)
    requires mask == 0x4104_1000
    ensures Splits(a, o, x, mask)
  {
    SubtractSubset(o, a);
  }

  lemma Cut312(a: bv64, o: bv64, x: bv64, j: int, c: int, r: int, mask: bv64, shift: bv64)
    requires j == 3 && c == 1 && r == 2 && shift == Shift(c, r) && mask == Lift(Mask(j), shift)
    ensures Splits(a, o, x, mask)
  {
    assert shift == 9 && mask == 0x4104_1000;
    assert Shift(1, 2) == 9 && Mask(j) == 0x20_8208;
    Apart312(a, o, x, mask);
  }

  lemma Bits320(x: bv64, mask: bv64, shift: bv64)
    requires mask == 0x8_2082_0000 && shift == 14
    ensures Reads(x, mask, shift, 0x20_8208, 17, 23, 29, 35, 0x8, 0x200, 0x8000, 0x20_0000)
  {}

  lemma Key320(w: bv64, g: seq<seq<bool>>, t: bool, j: int, c: int, r: int, mask: bv64, shift: bv64)
    requires j == 3 && c == 2 && r == 0 && shift == Shift(c, r) && mask == Lift(Mask(j), shift) && Marks(w, g, t)
    ensures Keyed(w, mask, shift, j, Held(g, t, j, c, r))
  {
    assert shift == 14 && mask == 0x8_2082_0000;
    assert Shift(2, 3) == 17 && Agrees(w, g, t, 2, 3);
    assert Shift(3, 2) == 23 && Agrees(w, g, t, 3, 2);
    assert Shift(4, 1) == 29 && Agrees(w, g, t, 4, 1);
    assert Shift(5, 0) == 35 && Agrees(w, g, t, 5, 0);
    assert Mask(j) == 0x20_8208;
    Bits320(w, mask, shift);
  }

  lemma Apart320(a: bv64, o: bv64, x: bv64, mask: bv64)
    requires mask == 0x8_2082_0000
    ensures Splits(a, o, x, mask)
  {
    SubtractSubset(o, a);
  }

  lemma Cut320(a: bv64, o: bv64, x: bv64, j: int, c: int, r: int, mask: bv64, shift: bv64)
    requires j == 3 && c == 2 && r == 0 && shift == Shift(c, r) && mask == Lift(Mask(j), shift)
    ensures Splits(a, o, x, mask)
  {
    assert shift == 14 && mask == 0x8_2082_0000;
    assert Shift(2, 0) == 14 && Mask(j) == 0x20_8208;
    Apart320(a, o, x, mask);
  }

  lemma Bits321(x: bv64, mask: bv64, shift: bv64)
    requires mask == 0x10_4104_0000 && shift == 15
    ensures Reads(x, mask, shift, 0x20_8208, 18, 24, 30, 36, 0x8, 0x200, 0x8000, 0x20_0000)
  {}

  lemma Key321(w: bv64, g: seq<seq<bool>>, t: bool, j: int, c: int, r: int, mask: bv64, shift: bv64)
    requires j == 3 && c == 2 && r == 1 && shift == Shift(c, r) && mask == Lift(Mask(j), shift) && Marks(w, g, t)
    ensures Keyed(w, mask, shift, j, Held(g, t, j, c, r))
  {
    assert shift == 15 && mask == 0x10_4104_0000;
    assert Shift(2, 4) == 18 && Agrees(w, g, t, 2, 4);
    assert Shift(3, 3) == 24 && Agrees(w, g, t, 3, 3);
    assert Shift(4, 2) == 30 && Agrees(w, g, t, 4, 2);
    assert Shift(5, 1) == 36 && Agrees(w, g, t, 5, 1);
    assert Mask(j) == 0x20_8208;
    Bits321(w, mask, shift);
  }

  lemma Apart321(a: bv64, o: bv64, x: bv64, mask: bv64)
    requires mask == 0x10_4104_0000
    ensures Splits(a, o, x, mask)
  {
    SubtractSubset(o, a);
  }

  lemma Cut321(a: bv64, o: bv64, x: bv64, j: int, c: int, r: int, mask: bv64, shift: bv64)
    requires j == 3 && c == 2 && r == 1 && shift == Shift(c, r) && mask == Lift(Mask(j), shift)
    ensures Splits(a, o, x, mask)
  {
    assert shift == 15 && mask == 0x10_4104_0000;
    assert Shift(2, 1) == 15 && Mask(j) == 0x20_8208;
    Apart321(a, o, x, mask);
  }

  lemma Bits322(x: bv64, mask: bv64, shift: bv64)
    requires mask == 0x20_8208_0000 && shift == 16
    ensures Reads(x, mask, shift, 0x20_8208, 19, 25, 31, 37, 0x8, 0x200, 0x8000, 0x20_0000)
  {}

  lemma Key322(w: bv64, g: seq<seq<bool>>, t: bool, j: int, c: int, r: int, mask: bv64, shift: bv64)
    requires j == 3 && c == 2 && r == 2 && shift == Shift(c, r) && mask == Lift(Mask(j), shift) && Marks(w, g, t)
    ensures Keyed(w, mask, shift, j, Held(g, t, j, c, r))
  {
    assert shift == 16 && mask == 0x20_8208_0000;
    assert Shift(2, 5) == 19 && Agrees(w, g, t, 2, 5);
    assert Shift(3, 4) == 25 && Agrees(w, g, t, 3, 4);
    assert Shift(4, 3) == 31 && Agrees(w, g, t, 4, 3);
    assert Shift(5, 2) == 37 && Agrees(w, g, t, 5, 2);
    assert Mask(j) == 0x20_8208;
    Bits322(w, mask, shift);
  }

  lemma Apart322(a: bv64, o: bv64, x: bv64, mask: bv64)
    requires mask == 0x20_8208_0000
    ensures Splits(a, o, x, mask)
  {
    SubtractSubset(o, a);
  }

  lemma Cut322(a: bv64, o: bv64, x: bv64, j: int, c: int, r: int, mask: bv64, shift: bv64)
    requires j == 3 && c == 2 && r == 2 && shift == Shift(c, r) && mask == Lift(Mask(j), shift)
    ensures Splits(a, o, x, mask)
  {
    assert shift == 16 && mask == 0x20_8208_0000;
    assert Shift(2, 2) == 16 && Mask(j) == 0x20_8208;
    Apart322(a, o, x, mask);
  }

  lemma Bits330(x: bv64, mask: bv64, shift: bv64)
    requires mask == 0x410_4100_0000 && shift == 21
    ensures Reads(x, mask, shift, 0x20_8208, 24, 30, 36, 42, 0x8, 0x200, 0x8000, 0x20_0000)
  {}

  lemma Key330(w: bv64, g: seq<seq<bool>>, t: bool, j: int, c: int, r: int, mask: bv64, shift: bv64)
    requires j == 3 && c == 3 && r == 0 && shift == Shift(c, r) && mask == Lift(Mask(j), shift) && Marks(w, g, t)
    ensures Keyed(w, mask, shift, j, Held(g, t, j, c, r))
  {
    assert shift == 21 && mask == 0x410_4100_0000;
    assert Shift(3, 3) == 24 && Agrees(w, g, t, 3, 3);
    assert Shift(4, 2) == 30 && Agrees(w, g, t, 4, 2);
    assert Shift(5, 1) == 36 && Agrees(w, g, t, 5, 1);
    assert Shift(6, 0) == 42 && Agrees(w, g, t, 6, 0);
    assert Mask(j) == 0x20_8208;
    Bits330(w, mask, shift);
  }

  lemma Apart330(a: bv64, o: bv64, x: bv64, mask: bv64)
    requires mask == 0x410_4100_0000
    ensures Splits(a, o, x, mask)
  {
    SubtractSubset(o, a);
  }

  lemma Cut330(a: bv64, o: bv64, x: bv64, j: int, c: int, r: int, mask: bv64, shift: bv64)
    requires j == 3 && c == 3 && r == 0 && shift == Shift(c, r) && mask == Lift(Mask(j), shift)
    ensures Splits(a, o, x, mask)
  {
    assert shift == 21 && mask == 0x410_4100_0000;
    assert Shift(3, 0) == 21 && Mask(j) == 0x20_8208;
    Apart330(a, o, x, mask);
  }

  lemma Bits331(x: bv64, mask: bv64, shift: bv64)
    requires mask == 0x820_8200_0000 && shift == 22
    ensures Reads(x, mask, shift, 0x20_8208, 25, 31, 37, 43, 0x8, 0x200, 0x8000, 0x20_0000)
  {}

  lemma Key331(w: bv64, g: seq<seq<bool>>, t: bool, j: int, c: int, r: int, mask: bv64, shift: bv64)
    requires j == 3 && c == 3 && r == 1 && shift == Shift(c, r) && mask == Lift(Mask(j), shift) && Marks(w, g, t)
    ensures Keyed(w, mask, shift, j, Held(g, t, j, c, r))
  {
    assert shift == 22 && mask == 0x820_8200_0000;
    assert Shift(3, 4) == 25 && Agrees(w, g, t, 3, 4);
    assert Shift(4, 3) == 31 && Agrees(w, g, t, 4, 3);
    assert Shift(5, 2) == 37 && Agrees(w, g, t, 5, 2);
    assert Shift(6, 1) == 43 && Agrees(w, g, t, 6, 1);
    assert Mask(j) == 0x20_8208;
    Bits331(w, mask, shift);
  }

  lemma Apart331(a: bv64, o: bv64, x: bv64, mask: bv64)
    requires mask == 0x820_8200_0000
    ensures Splits(a, o, x, mask)
  {
    SubtractSubset(o, a);
  }

  lemma Cut331(a: bv64, o: bv64, x: bv64, j: int, c: int, r: int, mask: bv64, shift: bv64)
    requires j == 3 && c == 3 && r == 1 && shift == Shift(c, r) && mask == Lift(Mask(j), shift)
    ensures Splits(a, o, x, mask)
  {
    assert shift == 22 && mask == 0x820_8200_0000;
    assert Shift(3, 1) == 22 && Mask(j) == 0x20_8208;
    Apart331(a, o, x, mask);
  }

  lemma Bits332(x: bv64, mask: bv64, shift: bv64)
    requires mask == 0x1041_0400_0000 && shift == 23
    ensures Reads(x, mask, shift, 0x20_8208, 26, 32, 38, 44, 0x8, 0x200, 0x8000, 0x20_0000)
  {}

  lemma Key332(w: bv64, g: seq<seq<bool>>, t: bool, j: int, c: int, r: int, mask: bv64, shift: bv64)
    requires j == 3 && c == 3 && r == 2 && shift == Shift(c, r) && mask == Lift(Mask(j), shift) && Marks(w, g, t)
    ensures Keyed(w, mask, shift, j, Held(g, t, j, c, r))
  {
    assert shift == 23 && mask == 0x1041_0400_0000;
    assert Shift(3, 5) == 26 && Agrees(w, g, t, 3, 5);
    assert Shift(4, 4) == 32 && Agrees(w, g, t, 4, 4);
    assert Shift(5, 3) == 38 && Agrees(w, g, t, 5, 3);
    assert Shift(6, 2) == 44 && Agrees(w, g, t, 6, 2);
    assert Mask(j) == 0x20_8208;
    Bits332(w, mask, shift);
  }

  lemma Apart332(a: bv64, o: bv64, x: bv64, mask: bv64)
    requires mask == 0x1041_0400_0000
    ensures Splits(a, o, x, mask)
  {
    SubtractSubset(o, a);
  }

  lemma Cut332(a: bv64, o: bv64, x: bv64, j: int, c: int, r: int, mask: bv64, shift: bv64)
    requires j == 3 && c == 3 && r == 2 && shift == Shift(c, r) && mask == Lift(Mask(j), shift)
    ensures Splits(a, o, x, mask)
  {
    assert shift == 23 && mask == 0x1041_0400_0000;
    assert Shift(3, 2) == 23 && Mask(j) == 0x20_8208;
    Apart332(a, o, x, mask);
  }

  /** Every falling window of the walk. */
  lemma Keys3(w: bv64, g: seq<seq<bool>>, t: bool, j: int, c: int, r: int, mask: bv64, shift: bv64)
    requires j == 3 && Anchor(j, c, r) && shift == Shift(c, r) && mask == Lift(Mask(j), shift) && Marks(w, g, t)
    ensures Keyed(w, mask, shift, j, Held(g, t, j, c, r))
  {
    if c == 0 && r == 0 {
      Key300(w, g, t, j, c, r, mask, shift);
    } else if c == 0 && r == 1 {
      Key301(w, g, t, j, c, r, mask, shift);
    } else if c == 0 && r == 2 {
      Key302(w, g, t, j, c, r, mask, shift);
    } else if c == 1 && r == 0 {
      Key310(w, g, t, j, c, r, mask, shift);
    } else if c == 1 && r == 1 {
      Key311(w, g, t, j, c, r, mask, shift);
    } else if c == 1 && r == 2 {
      Key312(w, g, t, j, c, r, mask, shift);
    } else if c == 2 && r == 0 {
      Key320(w, g, t, j, c, r, mask, shift);
    } else if c == 2 && r == 1 {
      Key321(w, g, t, j, c, r, mask, shift);
    } else if c == 2 && r == 2 {
      Key322(w, g, t, j, c, r, mask, shift);
    } else if c == 3 && r == 0 {
      Key330(w, g, t, j, c, r, mask, shift);
    } else if c == 3 && r == 1 {
      Key331(w, g, t, j, c, r, mask, shift);
    } else if c == 3 && r == 2 {
      Key332(w, g, t, j, c, r, mask, shift);
    }
  }

  lemma Cuts30(a: bv64, o: bv64, x: bv64, j: int, c: int, r: int, mask: bv64, shift: bv64)
    requires j == 3 && c == 0 && 0 <= r < 3 && shift == Shift(c, r) && mask == Lift(Mask(j), shift)
    ensures Splits(a, o, x, mask)
  {
    if r == 0 {
      Cut300(a, o, x, j, c, r, mask, shift);
    } else if r == 1 {
      Cut301(a, o, x, j, c, r, mask, shift);
    } else {
      Cut302(a, o, x, j, c, r, mask, shift);
    }
  }

  lemma Cuts31(a: bv64, o: bv64, x: bv64, j: int, c: int, r: int, mask: bv64, shift: bv64)
    requires j == 3 && c == 1 && 0 <= r < 3 && shift == Shift(c, r) && mask == Lift(Mask(j), shift)
    ensures Splits(a, o, x, mask)
  {
    if r == 0 {
      Cut310(a, o, x, j, c, r, mask, shift);
    } else if r == 1 {
      Cut311(a, o, x, j, c, r, mask, shift);
    } else {
      Cut312(a, o, x, j, c, r, mask, shift);
    }
  }

  lemma Cuts32(a: bv64, o: bv64, x: bv64, j: int, c: int, r: int, mask: bv64, shift: bv64)
    requires j == 3 && c == 2 && 0 <= r < 3 && shift == Shift(c, r) && mask == Lift(Mask(j), shift)
    ensures Splits(a, o, x, mask)
  {
    if r == 0 {
      Cut320(a, o, x, j, c, r, mask, shift);
    } else if r == 1 {
      Cut321(a, o, x, j, c, r, mask, shift);
    } else {
      Cut322(a, o, x, j, c, r, mask, shift);
    }
  }

  lemma Cuts33(a: bv64, o: bv64, x: bv64, j: int, c: int, r: int, mask: bv64, shift: bv64)
    requires j == 3 && c == 3 && 0 <= r < 3 && shift == Shift(c, r) && mask == Lift(Mask(j), shift)
    ensures Splits(a, o, x, mask)
  {
    if r == 0 {
      Cut330(a, o, x, j, c, r, mask, shift);
    } else if r == 1 {
      Cut331(a, o, x, j, c, r, mask, shift);
    } else {
      Cut332(a, o, x, j, c, r, mask, shift);
    }
  }

  /** Every falling window of the walk splits the stones. */
  lemma Cuts3(a: bv64, o: bv64, x: bv64, j: int, c: int, r: int, mask: bv64, shift: bv64)
    requires j == 3 && Anchor(j, c, r) && shift == Shift(c, r) && mask == Lift(Mask(j), shift)
    ensures Splits(a, o, x, mask)
  {
    if c == 0 {
      Cuts30(a, o, x, j, c, r, mask, shift);
    } else if c == 1 {
      Cuts31(a, o, x, j, c, r, mask, shift);
    } else if c == 2 {
      Cuts32(a, o, x, j, c, r, mask, shift);
    } else {
      Cuts33(a, o, x, j, c, r, mask, shift);
    }
  }
}
