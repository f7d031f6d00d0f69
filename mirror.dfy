/**
 * Left-right symmetry of a position (`symmetry` in board.py).
 *
 * A position is symmetric when column c and column 6 - c hold the same tower
 * of colours for every c. `symmetry` cuts both players' words into seven 7-bit
 * column fields, compares the three outer column pairs and, at the first pair
 * that differs, looks for a row where one column of the pair holds one colour
 * and the other column the other colour. Stones never move, so such a clash
 * stays in every position that extends this one by more moves, and none of
 * those can be symmetric: that is why the board then remembers
 * `neverSymmetry`. `undo` does not lower the flag, though, so a clash found
 * at a position the search tried and took back stays remembered at positions
 * that do not extend it (`Doomed` and `StaleClash` below).
 */
module Mirrors {
  import opened Bits
  import opened BoardState

  /** Column c reads the same as column 6 - c, for every column. */
  ghost predicate Symmetric(g: seq<seq<bool>>)
  {
    |g| == Width && forall c :: 0 <= c < Width ==> g[c] == g[Width - 1 - c]
  }

  /** Some row holds colour t in column c and the other colour in column 6 - c. */
  ghost predicate Clash(g: seq<seq<bool>>, c: int, t: bool)
  {
    |g| == Width && 0 <= c < Width && exists r :: 0 <= r < Height && Holds(g[c], r, t) && Holds(g[Width - 1 - c], r, !t)
  }

  /** The first of the column pairs (0, 6), (1, 5), (2, 4) that differs has a clash in either direction. */
  ghost predicate FirstClash(g: seq<seq<bool>>, t: bool)
  {
    |g| == Width && exists i :: 0 <= i < 3 && Differs(g, t, i)
  }

  /** Pair (i, 6 - i) is the first pair that differs, and it has a clash. */
  ghost predicate Differs(g: seq<seq<bool>>, t: bool, i: int)
    requires |g| == Width && 0 <= i < 3
  {
    (forall j :: 0 <= j < i ==> g[j] == g[Width - 1 - j]) &&
    g[i] != g[Width - 1 - i] && (Clash(g, i, t) || Clash(g, Width - 1 - i, t))
  }

  /** The outer three column pairs decide symmetry: the middle column is its own mirror. */
  lemma SymmetricPairs(g: seq<seq<bool>>)
    requires |g| == Width
    ensures Symmetric(g) <==> forall i :: 0 <= i < 3 ==> g[i] == g[Width - 1 - i]
  {
    if forall i :: 0 <= i < 3 ==> g[i] == g[Width - 1 - i] {
      forall c | 0 <= c < Width
        ensures g[c] == g[Width - 1 - c]
      {
        if c > 3 {
          assert g[Width - 1 - c] == g[Width - 1 - (Width - 1 - c)];
        }
      }
    }
  }

  // -----------------------------------------------------------------------
  // A clash is forever

  /** More moves only stack stones on top of a column. */
  lemma {:induction false} TowerGrows(log: seq<int>, colors: seq<bool>, more: seq<int>, cm: seq<bool>, c: int)
    requires |colors| == |log| && |cm| == |more|
    ensures Tower(log, colors, c) <= Tower(log + more, colors + cm, c)
    decreases |more|
  {
    if |more| > 0 {
      var n := |more| - 1;
      TowerGrows(log, colors, more[..n], cm[..n], c);
      assert log + more == (log + more[..n]) + [more[n]];
      assert colors + cm == (colors + cm[..n]) + [cm[n]];
      TowerAppend(log + more[..n], colors + cm[..n], more[n], cm[n], c);
      var t0, t1, t2 := Tower(log, colors, c), Tower(log + more[..n], colors + cm[..n], c), Tower(log + more, colors + cm, c);
      assert t0 <= t1;
      assert t1 <= t2;
      assert t2[..|t0|] == t1[..|t0|];
    } else {
      assert log + more == log && colors + cm == colors;
    }
  }

  /** A stone stays where it was played. */
  lemma HoldsGrows(log: seq<int>, colors: seq<bool>, more: seq<int>, cm: seq<bool>, c: int, r: int, t: bool)
    requires |colors| == |log| && |cm| == |more| && 0 <= c < Width
    ensures Holds(Grid(log, colors)[c], r, t) ==> Holds(Grid(log + more, colors + cm)[c], r, t)
  {
    TowerGrows(log, colors, more, cm, c);
  }

  /** After a clash, no continuation of the game is symmetric. */
  lemma ClashForever(log: seq<int>, colors: seq<bool>, c: int, t: bool, more: seq<int>, cm: seq<bool>)
    requires |colors| == |log| && |cm| == |more|
    requires Clash(Grid(log, colors), c, t)
    ensures !Symmetric(Grid(log + more, colors + cm))
  {
    var g := Grid(log, colors);
    var r :| 0 <= r < Height && Holds(g[c], r, t) && Holds(g[Width - 1 - c], r, !t);
    HoldsGrows(log, colors, more, cm, c, r, t);
    HoldsGrows(log, colors, more, cm, Width - 1 - c, r, !t);
  }

  /** A first clash is a clash. */
  lemma FirstClashForever(log: seq<int>, colors: seq<bool>, t: bool, more: seq<int>, cm: seq<bool>)
    requires |colors| == |log| && |cm| == |more|
    requires FirstClash(Grid(log, colors), t)
    ensures !Symmetric(Grid(log + more, colors + cm))
  {
    var g := Grid(log, colors);
    var i :| 0 <= i < 3 && Differs(g, t, i);
    if Clash(g, i, t) {
      ClashForever(log, colors, i, t, more, cm);
    } else {
      ClashForever(log, colors, Width - 1 - i, t, more, cm);
    }
  }

  /** Some position on the way to this one, or this one, had a first clash. */
  ghost predicate Doomed(log: seq<int>, colors: seq<bool>)
    requires |colors| == |log|
  {
    exists k, t :: 0 <= k <= |log| && FirstClash(Grid(log[..k], colors[..k]), t)
  }

  /** A position with a first clash on its way is not symmetric. */
  lemma DoomedNotSymmetric(log: seq<int>, colors: seq<bool>)
    requires |colors| == |log| && Doomed(log, colors)
    ensures !Symmetric(Grid(log, colors))
  {
    var k, t :| 0 <= k <= |log| && FirstClash(Grid(log[..k], colors[..k]), t);
    FirstClashForever(log[..k], colors[..k], t, log[k..], colors[k..]);
    assert log[..k] + log[k..] == log && colors[..k] + colors[k..] == colors;
  }

  /** More moves keep a position doomed. */
  lemma DoomedGrows(log: seq<int>, colors: seq<bool>, more: seq<int>, cm: seq<bool>)
    requires |colors| == |log| && |cm| == |more| && Doomed(log, colors)
    ensures Doomed(log + more, colors + cm)
  {
    var k, t :| 0 <= k <= |log| && FirstClash(Grid(log[..k], colors[..k]), t);
    assert (log + more)[..k] == log[..k] && (colors + cm)[..k] == colors[..k];
  }

  /** A first clash makes the position itself doomed. */
  lemma ClashDooms(log: seq<int>, colors: seq<bool>, t: bool)
    requires |colors| == |log| && FirstClash(Grid(log, colors), t)
    ensures Doomed(log, colors)
  {
    assert log[..|log|] == log && colors[..|colors|] == colors;
  }

  /**
   * The trial position after a first stone in the centre and replies in
   * columns 2 and 4 has a first clash in pair (2, 4), while the position
   * after two stones in the centre, which the game can reach from the same
   * first stone, is symmetric and does not extend the trial one.
   */
  lemma StaleClash(t: bool)
    ensures FirstClash(Grid([3, 2, 4], [true, false, true]), t)
    ensures Symmetric(Grid([3, 3], [true, false]))
    ensures !Doomed([3, 3], [true, false])
  {
    var g := Grid([3, 2, 4], [true, false, true]);
    TowerValues3();
    assert Differs(g, t, 2) by {
      assert Holds(g[2], 0, false) && Holds(g[4], 0, true);
    }
    var h := Grid([3, 3], [true, false]);
    TowerValues2();
    SymmetricPairs(h);
    if Doomed([3, 3], [true, false]) {
      DoomedNotSymmetric([3, 3], [true, false]);
      assert false;
    }
  }

  /** The towers of the trial position of `StaleClash`. */
  lemma TowerValues3()
    ensures var g := Grid([3, 2, 4], [true, false, true]);
      g == [[], [], [false], [true], [true], [], []]
  {
    Tower3(3, 2, 4, true, false, true, 0); Tower3(3, 2, 4, true, false, true, 1); Tower3(3, 2, 4, true, false, true, 2);
    Tower3(3, 2, 4, true, false, true, 3); Tower3(3, 2, 4, true, false, true, 4); Tower3(3, 2, 4, true, false, true, 5);
    Tower3(3, 2, 4, true, false, true, 6);
    var log, colors := [3, 2, 4], [true, false, true];
    assert Tower(log, colors, 0) == [] && Tower(log, colors, 1) == [] && Tower(log, colors, 2) == [false];
    assert Tower(log, colors, 3) == [true] && Tower(log, colors, 4) == [true];
    assert Tower(log, colors, 5) == [] && Tower(log, colors, 6) == [];
  }

  /** The towers of the symmetric position of `StaleClash`. */
  lemma TowerValues2()
    ensures Grid([3, 3], [true, false]) == [[], [], [], [true, false], [], [], []]
  {
    Tower2(3, 3, true, false, 0); Tower2(3, 3, true, false, 1); Tower2(3, 3, true, false, 2); Tower2(3, 3, true, false, 3);
    Tower2(3, 3, true, false, 4); Tower2(3, 3, true, false, 5); Tower2(3, 3, true, false, 6);
    var log, colors := [3, 3], [true, false];
    assert Tower(log, colors, 0) == [] && Tower(log, colors, 1) == [] && Tower(log, colors, 2) == [];
    assert Tower(log, colors, 3) == [true, false] && Tower(log, colors, 4) == [];
    assert Tower(log, colors, 5) == [] && Tower(log, colors, 6) == [];
  }

  /** Column c after two moves. */
  lemma Tower2(x: int, y: int, p: bool, q: bool, c: int)
    ensures Tower([x, y], [p, q], c) == (if x == c then [p] else []) + (if y == c then [q] else [])
  {
    assert [x, y] == [x] + [y] && [p, q] == [p] + [q];
    assert [x] == [] + [x] && [p] == [] + [p];
    TowerAppend([], [], x, p, c);
    TowerAppend([x], [p], y, q, c);
  }

  /** Column c after three moves. */
  lemma Tower3(x: int, y: int, z: int, p: bool, q: bool, r: bool, c: int)
    ensures Tower([x, y, z], [p, q, r], c) == (if x == c then [p] else []) + (if y == c then [q] else []) + (if z == c then [r] else [])
  {
    assert [x, y, z] == [x, y] + [z] && [p, q, r] == [p, q] + [r];
    Tower2(x, y, p, q, c);
    TowerAppend([x, y], [p, q], z, r, c);
  }

  // -----------------------------------------------------------------------
  // Column fields

  /** x after k rounds of `pos >>= (h + 1)`. */
  function Rest(x: bv64, k: nat): bv64
  {
    if k == 0 then x else Rest(x >> 7, k - 1)
  }

  /** One more round shifts the rest down by a field. */
  lemma {:induction false} RestStep(x: bv64, k: nat)
    ensures Rest(x, k + 1) == Rest(x, k) >> 7
  {
    if k > 0 {
      RestStep(x >> 7, k - 1);
    }
  }

  /** `pos & mask` after k rounds, mask = 0x7F. */
  function Cut(x: bv64, k: nat): bv64
  {
    Rest(x, k) & 0x7F
  }

  /** After k rounds the low seven bits are field k. */
  lemma CutField(x: bv64, k: int)
    requires 0 <= k < Width
    ensures Cut(x, k) == Field(x, k) as bv64
  {
    if k == 0 { CutField0(x); }
    else if k == 1 { CutField1(x); }
    else if k == 2 { CutField2(x); }
    else if k == 3 { CutField3(x); }
    else if k == 4 { CutField4(x); }
    else if k == 5 { CutField5(x); }
    else { CutField6(x); }
  }

  lemma CutField0(x: bv64) ensures Cut(x, 0) == Field(x, 0) as bv64 {}
  lemma Rest1(x: bv64) ensures Rest(x, 1) == x >> 7 {
    assert Rest(x, 1) == Rest(x >> 7, 0);
  }
  lemma CutField1(x: bv64) ensures Cut(x, 1) == Field(x, 1) as bv64 {
    Rest1(x);
    assert Field(x, 1) == ((x >> 7) & 0x7F) as bv8;
  }
  lemma Rest2(x: bv64) ensures Rest(x, 2) == x >> 14 {
    assert Rest(x, 2) == Rest(x >> 7, 1);
    assert Rest((x >> 7), 1) == Rest((x >> 7) >> 7, 0);
  }
  lemma CutField2(x: bv64) ensures Cut(x, 2) == Field(x, 2) as bv64 {
    Rest2(x);
    assert Field(x, 2) == ((x >> 14) & 0x7F) as bv8;
  }
  lemma Rest3(x: bv64) ensures Rest(x, 3) == x >> 21 {
    assert Rest(x, 3) == Rest(x >> 7, 2);
    assert Rest((x >> 7), 2) == Rest((x >> 7) >> 7, 1);
    assert Rest((x >> 14), 1) == Rest((x >> 14) >> 7, 0);
  }
  lemma CutField3(x: bv64) ensures Cut(x, 3) == Field(x, 3) as bv64 {
    Rest3(x);
    assert Field(x, 3) == ((x >> 21) & 0x7F) as bv8;
  }
  lemma Rest4(x: bv64) ensures Rest(x, 4) == x >> 28 {
    assert Rest(x, 4) == Rest(x >> 7, 3);
    assert Rest((x >> 7), 3) == Rest((x >> 7) >> 7, 2);
    assert Rest((x >> 14), 2) == Rest((x >> 14) >> 7, 1);
    assert Rest((x >> 21), 1) == Rest((x >> 21) >> 7, 0);
  }
  lemma CutField4(x: bv64) ensures Cut(x, 4) == Field(x, 4) as bv64 {
    Rest4(x);
    assert Field(x, 4) == ((x >> 28) & 0x7F) as bv8;
  }
  lemma Rest5(x: bv64) ensures Rest(x, 5) == x >> 35 {
    assert Rest(x, 5) == Rest(x >> 7, 4);
    assert Rest((x >> 7), 4) == Rest((x >> 7) >> 7, 3);
    assert Rest((x >> 14), 3) == Rest((x >> 14) >> 7, 2);
    assert Rest((x >> 21), 2) == Rest((x >> 21) >> 7, 1);
    assert Rest((x >> 28), 1) == Rest((x >> 28) >> 7, 0);
  }
  lemma CutField5(x: bv64) ensures Cut(x, 5) == Field(x, 5) as bv64 {
    Rest5(x);
    assert Field(x, 5) == ((x >> 35) & 0x7F) as bv8;
  }
  lemma Rest6(x: bv64) ensures Rest(x, 6) == x >> 42 {
    assert Rest(x, 6) == Rest(x >> 7, 5);
    assert Rest((x >> 7), 5) == Rest((x >> 7) >> 7, 4);
    assert Rest((x >> 14), 4) == Rest((x >> 14) >> 7, 3);
    assert Rest((x >> 21), 3) == Rest((x >> 21) >> 7, 2);
    assert Rest((x >> 28), 2) == Rest((x >> 28) >> 7, 1);
    assert Rest((x >> 35), 1) == Rest((x >> 35) >> 7, 0);
  }
  lemma CutField6(x: bv64) ensures Cut(x, 6) == Field(x, 6) as bv64 {
    Rest6(x);
    assert Field(x, 6) == ((x >> 42) & 0x7F) as bv8;
  }

  /**
   * The first loop of `symmetry`: `posO & mask` and `posX & mask` for each
   * column, with `mask = posBottom[1] - 1`, shifting both words down a field
   * at a time.
   */
  method Split(posO: bv64, posX: bv64) returns (colO: seq<bv64>, colX: seq<bv64>)
    ensures |colO| == Width && |colX| == Width
    ensures forall c :: 0 <= c < Width ==> colO[c] == Cut(posO, c) && colX[c] == Cut(posX, c)
  {
    var mask := PosBottom[1] - 1;
    assert mask == 0x7F;
    var o, x := posO, posX;
    colO, colX := [], [];
    while |colO| < Width
      invariant |colO| <= Width && |colX| == |colO|
      invariant o == Rest(posO, |colO|) && x == Rest(posX, |colO|)
      invariant forall c :: 0 <= c < |colO| ==> colO[c] == Cut(posO, c) && colX[c] == Cut(posX, c)
    {
      RestStep(posO, |colO|);
      RestStep(posX, |colO|);
      colO, colX := colO + [o & mask], colX + [x & mask];
      o, x := o >> 7, x >> 7;
    }
  }

  /** Column pair (i, 6 - i) has equal fields for both players. */
  predicate Matched(colO: seq<bv64>, colX: seq<bv64>, i: int)
    requires |colO| == Width && |colX| == Width && 0 <= i < Width
  {
    colO[i] == colO[Width - 1 - i] && colX[i] == colX[Width - 1 - i]
  }

  /** `colO[i] & colX[-i-1] > 0 or colO[-i-1] & colX[i] > 0`. */
  predicate Clashing(colO: seq<bv64>, colX: seq<bv64>, i: int)
    requires |colO| == Width && |colX| == Width && 0 <= i < Width
  {
    colO[i] & colX[Width - 1 - i] > 0 || colO[Width - 1 - i] & colX[i] > 0
  }

  /** Pair (i, 6 - i) is the first whose fields do not match, and its fields clash. */
  predicate Breaks(colO: seq<bv64>, colX: seq<bv64>, i: int)
    requires |colO| == Width && |colX| == Width && 0 <= i < 3
  {
    (forall j :: 0 <= j < i ==> Matched(colO, colX, j)) && !Matched(colO, colX, i) && Clashing(colO, colX, i)
  }

  /**
   * The second loop of `symmetry`: true when the three outer pairs match;
   * `never` when the first pair that does not match clashes.
   */
  method Compare(colO: seq<bv64>, colX: seq<bv64>) returns (same: bool, never: bool)
    requires |colO| == Width && |colX| == Width
    ensures same <==> forall i :: 0 <= i < 3 ==> Matched(colO, colX, i)
    ensures never <==> exists i :: 0 <= i < 3 && Breaks(colO, colX, i)
  {
    var i := 0;
    while i < 3
      invariant 0 <= i <= 3
      invariant forall j :: 0 <= j < i ==> Matched(colO, colX, j)
    {
      if colO[i] != colO[Width - 1 - i] || colX[i] != colX[Width - 1 - i] {
        never := colO[i] & colX[Width - 1 - i] > 0 || colO[Width - 1 - i] & colX[i] > 0;
        same := false;
        assert !Matched(colO, colX, i);
        assert never <==> Breaks(colO, colX, i);
        assert forall k :: 0 <= k < 3 && Breaks(colO, colX, k) ==> k == i;
        return;
      }
      i := i + 1;
    }
    same, never := true, false;
  }

  // -----------------------------------------------------------------------
  // Fields and towers

  /** Both colours' patterns tell a column apart. */
  lemma PatternsSame(cs: seq<bool>, ds: seq<bool>, t: bool)
    requires |cs| <= Height && |ds| <= Height
    ensures (Pattern(cs, t) as bv64 == Pattern(ds, t) as bv64 && Pattern(cs, !t) as bv64 == Pattern(ds, !t) as bv64) <==> cs == ds
  {
    if Pattern(cs, t) as bv64 == Pattern(ds, t) as bv64 && Pattern(cs, !t) as bv64 == Pattern(ds, !t) as bv64 {
      assert Pattern(cs, t) == Pattern(ds, t) && Pattern(cs, !t) == Pattern(ds, !t);
      PatSame(Holds(cs, 0, t), Holds(cs, 1, t), Holds(cs, 2, t), Holds(cs, 3, t), Holds(cs, 4, t), Holds(cs, 5, t),
              Holds(ds, 0, t), Holds(ds, 1, t), Holds(ds, 2, t), Holds(ds, 3, t), Holds(ds, 4, t), Holds(ds, 5, t));
      PatSame(Holds(cs, 0, !t), Holds(cs, 1, !t), Holds(cs, 2, !t), Holds(cs, 3, !t), Holds(cs, 4, !t), Holds(cs, 5, !t),
              Holds(ds, 0, !t), Holds(ds, 1, !t), Holds(ds, 2, !t), Holds(ds, 3, !t), Holds(ds, 4, !t), Holds(ds, 5, !t));
      SameRows(cs, ds, t);
    }
  }

  /** Columns with the same stones of both colours on rows 0..5 are the same column. */
  lemma SameRows(cs: seq<bool>, ds: seq<bool>, t: bool)
    requires |cs| <= Height && |ds| <= Height
    requires forall r :: 0 <= r < Height ==> Holds(cs, r, t) == Holds(ds, r, t) && Holds(cs, r, !t) == Holds(ds, r, !t)
    ensures cs == ds
  {
    var m := if |cs| < |ds| then |cs| else |ds|;
    if m < Height {
      assert Holds(cs, m, t) == Holds(ds, m, t) && Holds(cs, m, !t) == Holds(ds, m, !t);
    }
    assert |cs| == |ds|;
    forall r | 0 <= r < |cs|
      ensures cs[r] == ds[r]
    {
      assert Holds(cs, r, t) == Holds(ds, r, t) && Holds(cs, r, !t) == Holds(ds, r, !t);
      if cs[r] == t {
        assert Holds(cs, r, t);
      } else {
        assert Holds(cs, r, !t);
      }
    }
  }

  /** The fields of colour t's word and of the other colour's, ANDed across a pair: a clash. */
  lemma PatternsClash(cs: seq<bool>, ds: seq<bool>, t: bool)
    ensures (Pattern(cs, t) as bv64) & (Pattern(ds, !t) as bv64) > 0 <==> exists r :: 0 <= r < Height && Holds(cs, r, t) && Holds(ds, r, !t)
  {
    var a0, a1, a2, a3, a4, a5 := Holds(cs, 0, t), Holds(cs, 1, t), Holds(cs, 2, t), Holds(cs, 3, t), Holds(cs, 4, t), Holds(cs, 5, t);
    var b0, b1, b2, b3, b4, b5 := Holds(ds, 0, !t), Holds(ds, 1, !t), Holds(ds, 2, !t), Holds(ds, 3, !t), Holds(ds, 4, !t), Holds(ds, 5, !t);
    PatAnd(a0, a1, a2, a3, a4, a5, b0, b1, b2, b3, b4, b5);
    PatZero(a0 && b0, a1 && b1, a2 && b2, a3 && b3, a4 && b4, a5 && b5);
    assert (Pattern(cs, t) as bv64) & (Pattern(ds, !t) as bv64) == (Pattern(cs, t) & Pattern(ds, !t)) as bv64;
  }

  /** A pattern is zero exactly when none of its flags is set. */
  lemma PatZero(a0: bool, a1: bool, a2: bool, a3: bool, a4: bool, a5: bool)
    ensures (Pat(a0, a1, a2, a3, a4, a5) as bv64 > 0) <==> a0 || a1 || a2 || a3 || a4 || a5
  {}

  /** The fields of a column pair match for both players exactly when the two towers are equal. */
  lemma PairMatched(g: seq<seq<bool>>, t: bool, colO: seq<bv64>, colX: seq<bv64>, i: int)
    requires |g| == Width && Short(g) && 0 <= i < Width && |colO| == Width && |colX| == Width
    requires colO[i] == Pattern(g[i], t) as bv64 && colO[Width - 1 - i] == Pattern(g[Width - 1 - i], t) as bv64
    requires colX[i] == Pattern(g[i], !t) as bv64 && colX[Width - 1 - i] == Pattern(g[Width - 1 - i], !t) as bv64
    ensures Matched(colO, colX, i) <==> g[i] == g[Width - 1 - i]
  {
    PatternsSame(g[i], g[Width - 1 - i], t);
  }

  /** The test of a column pair for a clash finds one in either direction. */
  lemma PairClashing(g: seq<seq<bool>>, t: bool, colO: seq<bv64>, colX: seq<bv64>, i: int)
    requires |g| == Width && 0 <= i < Width && |colO| == Width && |colX| == Width
    requires colO[i] == Pattern(g[i], t) as bv64 && colO[Width - 1 - i] == Pattern(g[Width - 1 - i], t) as bv64
    requires colX[i] == Pattern(g[i], !t) as bv64 && colX[Width - 1 - i] == Pattern(g[Width - 1 - i], !t) as bv64
    ensures Clashing(colO, colX, i) <==> Clash(g, i, t) || Clash(g, Width - 1 - i, t)
  {
    PatternsClash(g[i], g[Width - 1 - i], t);
    PatternsClash(g[Width - 1 - i], g[i], t);
  }

  /** `Compare` finds all three pairs matching exactly on a symmetric position. */
  lemma SameVerdict(g: seq<seq<bool>>, t: bool, colO: seq<bv64>, colX: seq<bv64>)
    requires |g| == Width && Short(g) && |colO| == Width && |colX| == Width
    requires forall c :: 0 <= c < Width ==> colO[c] == Pattern(g[c], t) as bv64 && colX[c] == Pattern(g[c], !t) as bv64
    ensures (forall i :: 0 <= i < 3 ==> Matched(colO, colX, i)) <==> Symmetric(g)
  {
    forall i | 0 <= i < Width
      ensures Matched(colO, colX, i) <==> g[i] == g[Width - 1 - i]
    {
      PairMatched(g, t, colO, colX, i);
    }
    SymmetricPairs(g);
  }

  /** `Compare` reports a clash exactly when the first pair that differs has one. */
  lemma NeverVerdict(g: seq<seq<bool>>, t: bool, colO: seq<bv64>, colX: seq<bv64>)
    requires |g| == Width && Short(g) && |colO| == Width && |colX| == Width
    requires forall c :: 0 <= c < Width ==> colO[c] == Pattern(g[c], t) as bv64 && colX[c] == Pattern(g[c], !t) as bv64
    ensures (exists i :: 0 <= i < 3 && Breaks(colO, colX, i)) <==> FirstClash(g, t)
  {
    forall i | 0 <= i < 3
      ensures Breaks(colO, colX, i) <==> Differs(g, t, i)
    {
      BreaksDiffers(g, t, colO, colX, i);
    }
  }

  /** The fields of pair i break the comparison exactly when its towers are the first to differ, with a clash. */
  lemma BreaksDiffers(g: seq<seq<bool>>, t: bool, colO: seq<bv64>, colX: seq<bv64>, i: int)
    requires |g| == Width && Short(g) && |colO| == Width && |colX| == Width && 0 <= i < 3
    requires forall c :: 0 <= c < Width ==> colO[c] == Pattern(g[c], t) as bv64 && colX[c] == Pattern(g[c], !t) as bv64
    ensures Breaks(colO, colX, i) <==> Differs(g, t, i)
  {
    forall j | 0 <= j <= i
      ensures Matched(colO, colX, j) <==> g[j] == g[Width - 1 - j]
    {
      PairMatched(g, t, colO, colX, j);
    }
    PairClashing(g, t, colO, colX, i);
  }

  /** The verdicts of `Compare` on the cut words of a position, read on its towers. */
  lemma Verdicts(log: seq<int>, colors: seq<bool>, t: bool, colO: seq<bv64>, colX: seq<bv64>)
    requires Legal(log) && |colors| == |log| && |colO| == Width && |colX| == Width
    requires forall c :: 0 <= c < Width ==> colO[c] == Cut(Stones(log, colors, t), c) && colX[c] == Cut(Stones(log, colors, !t), c)
    ensures (forall i :: 0 <= i < 3 ==> Matched(colO, colX, i)) <==> Symmetric(Grid(log, colors))
    ensures (exists i :: 0 <= i < 3 && Breaks(colO, colX, i)) <==> FirstClash(Grid(log, colors), t)
  {
    forall c | 0 <= c < Width
      ensures colO[c] == Field(Stones(log, colors, t), c) as bv64 && colX[c] == Field(Stones(log, colors, !t), c) as bv64
    {
      CutField(Stones(log, colors, t), c);
      CutField(Stones(log, colors, !t), c);
    }
    FieldsPatterns(log, colors, t, colO, colX);
    SameVerdict(Grid(log, colors), t, colO, colX);
    NeverVerdict(Grid(log, colors), t, colO, colX);
  }

  /** The fields of both players' words are the column patterns of the two colours. */
  lemma FieldsPatterns(log: seq<int>, colors: seq<bool>, t: bool, colO: seq<bv64>, colX: seq<bv64>)
    requires Legal(log) && |colors| == |log| && |colO| == Width && |colX| == Width
    requires forall c :: 0 <= c < Width ==> colO[c] == Field(Stones(log, colors, t), c) as bv64 && colX[c] == Field(Stones(log, colors, !t), c) as bv64
    ensures Short(Grid(log, colors))
    ensures forall c :: 0 <= c < Width ==> colO[c] == Pattern(Grid(log, colors)[c], t) as bv64 && colX[c] == Pattern(Grid(log, colors)[c], !t) as bv64
  {
    GridShort(log, colors);
    forall c | 0 <= c < Width
      ensures colO[c] == Pattern(Grid(log, colors)[c], t) as bv64 && colX[c] == Pattern(Grid(log, colors)[c], !t) as bv64
    {
      StonesField(log, colors, t, c);
      StonesField(log, colors, !t, c);
    }
  }

  /** Field c of the word of colour t's stones is column c's pattern of colour t. */
  lemma StonesField(log: seq<int>, colors: seq<bool>, t: bool, c: int)
    requires Legal(log) && |colors| == |log| && 0 <= c < Width
    ensures Field(Stones(log, colors, t), c) == Pattern(Grid(log, colors)[c], t)
    ensures |Grid(log, colors)[c]| <= Height
  {
    Played(log, colors, t);
    FieldSide(log, colors, t, c);
    TowerHeight(log, colors, c);
  }
}
