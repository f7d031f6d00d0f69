/**
 * The bitboard of a 7-wide, 6-high Connect Four game (board.py).
 *
 * `posAll` holds one word per column with the column's stones as its lowest
 * bits, `posOX` one player's stones, `log` the columns played so far and
 * `moves` their number. The other player's stones are `sum(posAll) - posOX`.
 *
 * Which player `posOX` holds is a matter of history: `put` and `posReverse`
 * both swap it. The model therefore remembers, as ghost state, the colour of
 * every logged stone (`true` for the player who moved first) and the colour
 * `posOX` holds. Every word of the board is then a function of the log and
 * these colours: a column's word is `Column(c, Count(log, c))`, and `posOX`
 * is `Sides(log, colors, top)`, the stones of colour `top`.
 *
 * Each arithmetic expression of the Python code is a named function here
 * (PutWord, Union, Key, ...); the facts about it are proved once, column
 * pattern by column pattern, and later proofs use only those facts.
 */
module BoardState {
  import opened Bits
  import opened Lines

  const Width := 7
  const Height := 6

  // -----------------------------------------------------------------------
  // The log

  /** The number of stones played into column c: its height. */
  function Count(log: seq<int>, c: int): nat
  {
    if |log| == 0 then 0
    else Count(log[..|log| - 1], c) + (if log[|log| - 1] == c then 1 else 0)
  }

  lemma CountAppend(log: seq<int>, x: int, c: int)
    ensures Count(log + [x], c) == Count(log, c) + (if x == c then 1 else 0)
  {
    assert (log + [x])[..|log|] == log;
  }

  /** A column holds at most as many stones as there are moves. */
  lemma {:induction false} CountBound(log: seq<int>, c: int)
    ensures Count(log, c) <= |log|
  {
    if |log| > 0 {
      CountBound(log[..|log| - 1], c);
    }
  }

  /** Every logged move names a column. */
  predicate Logged(log: seq<int>)
  {
    forall i :: 0 <= i < |log| ==> 0 <= log[i] < Width
  }

  /** A log the board can hold: real columns, none of them overfull. */
  predicate Legal(log: seq<int>)
  {
    Logged(log) && forall c :: 0 <= c < Width ==> Count(log, c) <= Height
  }

  lemma LegalPrefix(log: seq<int>)
    requires Legal(log) && |log| > 0
    ensures Legal(log[..|log| - 1])
  {
    var p := log[..|log| - 1];
    assert forall i :: 0 <= i < |p| ==> p[i] == log[i];
    forall c | 0 <= c < Width
      ensures Count(p, c) <= Height
    {
      assert Count(p, c) <= Count(log, c);
    }
  }

  /** A move into a column with room keeps the log legal. */
  lemma LegalAppend(log: seq<int>, col: int)
    requires Legal(log) && 0 <= col < Width && Count(log, col) < Height
    ensures Legal(log + [col])
  {
    forall c | 0 <= c < Width
      ensures Count(log + [col], c) <= Height
    {
      CountAppend(log, col, c);
    }
    var q := log + [col];
    assert forall i :: 0 <= i < |log| ==> q[i] == log[i];
  }

  /** Two logs that fill every column to the same height. */
  predicate SameHeights(log1: seq<int>, log2: seq<int>)
  {
    Count(log1, 0) == Count(log2, 0) && Count(log1, 1) == Count(log2, 1) && Count(log1, 2) == Count(log2, 2) &&
    Count(log1, 3) == Count(log2, 3) && Count(log1, 4) == Count(log2, 4) && Count(log1, 5) == Count(log2, 5) &&
    Count(log1, 6) == Count(log2, 6)
  }

  lemma SameHeightsAll(log1: seq<int>, log2: seq<int>)
    ensures SameHeights(log1, log2) ==> forall c :: 0 <= c < Width ==> Count(log1, c) == Count(log2, c)
  {}

  /** The number of moves is the sum of the column heights. */
  function Total(log: seq<int>): int
  {
    Count(log, 0) + Count(log, 1) + Count(log, 2) + Count(log, 3) + Count(log, 4) + Count(log, 5) + Count(log, 6)
  }

  lemma {:induction false} TotalIsLength(log: seq<int>)
    requires Logged(log)
    ensures Total(log) == |log|
  {
    if |log| > 0 {
      var p := log[..|log| - 1];
      assert Logged(p) by {
        assert forall i :: 0 <= i < |p| ==> p[i] == log[i];
      }
      TotalIsLength(p);
    }
  }

  // -----------------------------------------------------------------------
  // One column

  lemma StackStep(k: int)
    requires 0 <= k < Height
    ensures Low(Stack(k)) && Stack(k) + Stack(k) + 1 == Stack(k + 1)
    ensures Stack(k + 1) == Stack(k) | Row(k) && Stack(k) & Row(k) == 0
  {}

  lemma StackFacts(k: int)
    requires 0 <= k <= Height
    ensures Low(Stack(k)) && Small(Stack(k))
    ensures Stack(k) < 32 <==> k < Height
    ensures k > 0 ==> Stack(k) & (Stack(k) >> 1) == Stack(k - 1)
    ensures Stack(k) + 1 == Row(k)
  {}

  /** `posBottom`: the sentinel bit under each column, `1 << (c * (h + 1))`. */
  const PosBottom: seq<bv64> := [0x1, 0x80, 0x4000, 0x20_0000, 0x1000_0000, 0x8_0000_0000, 0x400_0000_0000]

  lemma PosBottomIs(c: int)
    requires 0 <= c < Width
    ensures PosBottom[c] == Place(1, c)
  {}

  /** `sum(posAll)`, added up left to right. */
  function Union(a: seq<bv64>): bv64
    requires |a| == Width
  {
    Add(Add(Add(Add(Add(Add(a[0], a[1]), a[2]), a[3]), a[4]), a[5]), a[6])
  }

  /** `sum(posBottom)` is the word of all sentinels. */
  lemma PosBottomSum()
    ensures Union(PosBottom) == BottomMask
  {}

  /** The word of column c holding k stones: its k lowest cells. */
  function Column(c: int, k: int): bv64
    requires 0 <= c < Width && 0 <= k <= Height
  {
    Place(Stack(k), c)
  }

  /** `(posAll[col] << 1) + posBottom[col]`: one more stone in the column. */
  function PutWord(w: bv64, c: int): bv64
    requires 0 <= c < Width
  {
    Add(w << 1, PosBottom[c])
  }

  /** `posAll[col] & (posAll[col] >> 1)`: the column without its top stone. */
  function UndoWord(w: bv64): bv64
  {
    w & (w >> 1)
  }

  /** `posAll[col] < posBottom[col] << (h - 1)`: the column's top cell is free. */
  predicate Room(w: bv64, c: int)
    requires 0 <= c < Width
  {
    w < PosBottom[c] << 5
  }

  lemma ColumnOps0(k: int)
    requires 0 <= k <= Height
    ensures k < Height ==> PutWord(Column(0, k), 0) == Column(0, k + 1)
    ensures k > 0 ==> UndoWord(Column(0, k)) == Column(0, k - 1)
    ensures Room(Column(0, k), 0) <==> k < Height
  {
    StackFacts(k);
    if k < Height {
      StackStep(k);
    }
  }

  lemma ColumnOps1(k: int)
    requires 0 <= k <= Height
    ensures k < Height ==> PutWord(Column(1, k), 1) == Column(1, k + 1)
    ensures k > 0 ==> UndoWord(Column(1, k)) == Column(1, k - 1)
    ensures Room(Column(1, k), 1) <==> k < Height
  {
    StackFacts(k);
    if k < Height {
      StackStep(k);
    }
  }

  lemma ColumnOps2(k: int)
    requires 0 <= k <= Height
    ensures k < Height ==> PutWord(Column(2, k), 2) == Column(2, k + 1)
    ensures k > 0 ==> UndoWord(Column(2, k)) == Column(2, k - 1)
    ensures Room(Column(2, k), 2) <==> k < Height
  {
    StackFacts(k);
    if k < Height {
      StackStep(k);
    }
  }

  lemma ColumnOps3(k: int)
    requires 0 <= k <= Height
    ensures k < Height ==> PutWord(Column(3, k), 3) == Column(3, k + 1)
    ensures k > 0 ==> UndoWord(Column(3, k)) == Column(3, k - 1)
    ensures Room(Column(3, k), 3) <==> k < Height
  {
    StackFacts(k);
    if k < Height {
      StackStep(k);
    }
  }

  lemma ColumnOps4(k: int)
    requires 0 <= k <= Height
    ensures k < Height ==> PutWord(Column(4, k), 4) == Column(4, k + 1)
    ensures k > 0 ==> UndoWord(Column(4, k)) == Column(4, k - 1)
    ensures Room(Column(4, k), 4) <==> k < Height
  {
    StackFacts(k);
    if k < Height {
      StackStep(k);
    }
  }

  lemma ColumnOps5(k: int)
    requires 0 <= k <= Height
    ensures k < Height ==> PutWord(Column(5, k), 5) == Column(5, k + 1)
    ensures k > 0 ==> UndoWord(Column(5, k)) == Column(5, k - 1)
    ensures Room(Column(5, k), 5) <==> k < Height
  {
    StackFacts(k);
    if k < Height {
      StackStep(k);
    }
  }

  lemma ColumnOps6(k: int)
    requires 0 <= k <= Height
    ensures k < Height ==> PutWord(Column(6, k), 6) == Column(6, k + 1)
    ensures k > 0 ==> UndoWord(Column(6, k)) == Column(6, k - 1)
    ensures Room(Column(6, k), 6) <==> k < Height
  {
    StackFacts(k);
    if k < Height {
      StackStep(k);
    }
  }

  /** What `put`, `undo` and `possible` do to the word of a column holding k stones. */
  lemma ColumnOps(c: int, k: int)
    requires 0 <= c < Width && 0 <= k <= Height
    ensures k < Height ==> PutWord(Column(c, k), c) == Column(c, k + 1)
    ensures k > 0 ==> UndoWord(Column(c, k)) == Column(c, k - 1)
    ensures Room(Column(c, k), c) <==> k < Height
  {
    if c == 0 { ColumnOps0(k); }
    else if c == 1 { ColumnOps1(k); }
    else if c == 2 { ColumnOps2(k); }
    else if c == 3 { ColumnOps3(k); }
    else if c == 4 { ColumnOps4(k); }
    else if c == 5 { ColumnOps5(k); }
    else { ColumnOps6(k); }
  }

  lemma ColumnEmptied(c: int, k: int, s: int)
    requires 0 <= c < Width && 0 <= k <= Height && 0 <= s < 8
    ensures Emptied(Column(c, k), c, s) <==> k <= s
  {
    StackShift(k, c, s);
  }

  // -----------------------------------------------------------------------
  // Colours

  /** The colours of column c's stones, bottom to top. */
  function Tower(log: seq<int>, colors: seq<bool>, c: int): seq<bool>
    requires |colors| == |log|
  {
    if |log| == 0 then []
    else
      var n := |log| - 1;
      Tower(log[..n], colors[..n], c) + (if log[n] == c then [colors[n]] else [])
  }

  lemma {:induction false} TowerHeight(log: seq<int>, colors: seq<bool>, c: int)
    requires |colors| == |log|
    ensures |Tower(log, colors, c)| == Count(log, c)
  {
    if |log| > 0 {
      TowerHeight(log[..|log| - 1], colors[..|log| - 1], c);
    }
  }

  lemma TowerAppend(log: seq<int>, colors: seq<bool>, x: int, y: bool, c: int)
    requires |colors| == |log|
    ensures Tower(log + [x], colors + [y], c) ==
      if x == c then Tower(log, colors, c) + [y] else Tower(log, colors, c)
  {
    assert (log + [x])[..|log|] == log;
    assert (colors + [y])[..|colors|] == colors;
  }

  /** Row r of a column with colours cs holds a stone of colour t. */
  predicate Holds(cs: seq<bool>, r: int, t: bool)
  {
    0 <= r < |cs| && cs[r] == t
  }

  /** The pattern of the stones of colour t in a column with colours cs. */
  function Pattern(cs: seq<bool>, t: bool): bv8
  {
    Pat(Holds(cs, 0, t), Holds(cs, 1, t), Holds(cs, 2, t), Holds(cs, 3, t), Holds(cs, 4, t), Holds(cs, 5, t))
  }

  /** Column c's pattern of the stones of colour t. */
  function Side(log: seq<int>, colors: seq<bool>, t: bool, c: int): bv8
    requires |colors| == |log|
  {
    Pattern(Tower(log, colors, c), t)
  }

  /** One colour's stones lie inside the column, and the rest of it is the other colour's. */
  lemma PatternSplit(cs: seq<bool>, t: bool, k: int)
    requires |cs| <= Height && k == |cs|
    ensures Inside(Pattern(cs, t), Stack(k)) && Stack(k) & !Pattern(cs, t) == Pattern(cs, !t)
    ensures Low(Pattern(cs, t)) && Low(Stack(k))
  {
    PatStack(k);
    PatAndNot(Holds(cs, 0, t), Holds(cs, 1, t), Holds(cs, 2, t), Holds(cs, 3, t), Holds(cs, 4, t), Holds(cs, 5, t), 0 < k, 1 < k, 2 < k, 3 < k, 4 < k, 5 < k);
    PatAndNot(0 < k, 1 < k, 2 < k, 3 < k, 4 < k, 5 < k, Holds(cs, 0, t), Holds(cs, 1, t), Holds(cs, 2, t), Holds(cs, 3, t), Holds(cs, 4, t), Holds(cs, 5, t));
    PatLow(Holds(cs, 0, t), Holds(cs, 1, t), Holds(cs, 2, t), Holds(cs, 3, t), Holds(cs, 4, t), Holds(cs, 5, t));
    StackFacts(k);
  }

  /** The two colours share out the column. */
  lemma PatternPartition(cs: seq<bool>)
    requires |cs| <= Height
    ensures Pattern(cs, true) | Pattern(cs, false) == Stack(|cs|)
    ensures Pattern(cs, true) & Pattern(cs, false) == 0
  {
    PatStack(|cs|);
    PatOr(Holds(cs, 0, true), Holds(cs, 1, true), Holds(cs, 2, true), Holds(cs, 3, true), Holds(cs, 4, true), Holds(cs, 5, true), Holds(cs, 0, false), Holds(cs, 1, false), Holds(cs, 2, false), Holds(cs, 3, false), Holds(cs, 4, false), Holds(cs, 5, false));
    PatAnd(Holds(cs, 0, true), Holds(cs, 1, true), Holds(cs, 2, true), Holds(cs, 3, true), Holds(cs, 4, true), Holds(cs, 5, true), Holds(cs, 0, false), Holds(cs, 1, false), Holds(cs, 2, false), Holds(cs, 3, false), Holds(cs, 4, false), Holds(cs, 5, false));
  }

  /** A stone of colour !t on top: the column's rest beside colour t's stones. */
  lemma PatternPut(cs: seq<bool>, t: bool, k: int)
    requires |cs| < Height && k == |cs| + 1
    ensures Inside(Pattern(cs, t), Stack(k)) && Stack(k) & !Pattern(cs, t) == Pattern(cs + [!t], !t)
    ensures Low(Stack(k))
  {
    var ds := cs + [!t];
    PatStack(k);
    PatAndNot(Holds(cs, 0, t), Holds(cs, 1, t), Holds(cs, 2, t), Holds(cs, 3, t), Holds(cs, 4, t), Holds(cs, 5, t), 0 < k, 1 < k, 2 < k, 3 < k, 4 < k, 5 < k);
    PatAndNot(0 < k, 1 < k, 2 < k, 3 < k, 4 < k, 5 < k, Holds(cs, 0, t), Holds(cs, 1, t), Holds(cs, 2, t), Holds(cs, 3, t), Holds(cs, 4, t), Holds(cs, 5, t));
    StackFacts(k);
  }

  /** A stone of the other colour leaves a colour's pattern alone. */
  lemma PatternOther(cs: seq<bool>, x: bool, t: bool)
    requires x != t
    ensures Pattern(cs + [x], t) == Pattern(cs, t)
  {
    assert forall r :: Holds(cs + [x], r, t) == Holds(cs, r, t);
  }

  // -----------------------------------------------------------------------
  // Whole words

  /** The word of the stones of colour t. */
  function Sides(log: seq<int>, colors: seq<bool>, t: bool): bv64
    requires |colors| == |log|
  {
    Pack(Side(log, colors, t, 0), Side(log, colors, t, 1), Side(log, colors, t, 2), Side(log, colors, t, 3), Side(log, colors, t, 4), Side(log, colors, t, 5), Side(log, colors, t, 6))
  }

  /** The word of all stones. */
  function Stacks(log: seq<int>): bv64
    requires Legal(log)
  {
    Pack(Stack(Count(log, 0)), Stack(Count(log, 1)), Stack(Count(log, 2)), Stack(Count(log, 3)), Stack(Count(log, 4)), Stack(Count(log, 5)), Stack(Count(log, 6)))
  }

  /** The column words of a legal log. */
  predicate Stacked(a: seq<bv64>, log: seq<int>)
    requires Legal(log)
  {
    |a| == Width && forall c :: 0 <= c < Width ==> a[c] == Column(c, Count(log, c))
  }

  /** Column words added up are the packed column patterns. */
  lemma UnionPack(v0: bv8, v1: bv8, v2: bv8, v3: bv8, v4: bv8, v5: bv8, v6: bv8)
    ensures Union([Place(v0, 0), Place(v1, 1), Place(v2, 2), Place(v3, 3), Place(v4, 4), Place(v5, 5), Place(v6, 6)]) ==
      Pack(v0, v1, v2, v3, v4, v5, v6)
  {}

  lemma StackedIs(a: seq<bv64>, log: seq<int>)
    requires Legal(log) && Stacked(a, log)
    ensures a == [Column(0, Count(log, 0)), Column(1, Count(log, 1)), Column(2, Count(log, 2)), Column(3, Count(log, 3)),
                  Column(4, Count(log, 4)), Column(5, Count(log, 5)), Column(6, Count(log, 6))]
  {}

  /** `sum(posAll)` is the word of all stones. */
  lemma UnionStacks(a: seq<bv64>, log: seq<int>)
    requires Legal(log) && Stacked(a, log)
    ensures Union(a) == Stacks(log)
  {
    StackedIs(a, log);
    UnionPack(Stack(Count(log, 0)), Stack(Count(log, 1)), Stack(Count(log, 2)), Stack(Count(log, 3)),
              Stack(Count(log, 4)), Stack(Count(log, 5)), Stack(Count(log, 6)));
  }

  /** Column c's facts about colour t's stones, as the packing lemmas want them. */
  lemma SideSplit(log: seq<int>, colors: seq<bool>, t: bool, c: int)
    requires Legal(log) && |colors| == |log| && 0 <= c < Width
    ensures Inside(Side(log, colors, t, c), Stack(Count(log, c)))
    ensures Stack(Count(log, c)) & !Side(log, colors, t, c) == Side(log, colors, !t, c)
    ensures Low(Stack(Count(log, c))) && Low(Side(log, colors, t, c))
  {
    TowerHeight(log, colors, c);
    PatternSplit(Tower(log, colors, c), t, Count(log, c));
  }

  lemma ApartFlip(log: seq<int>, colors: seq<bool>, t: bool)
    requires Legal(log) && |colors| == |log|
    ensures Apart(Stack(Count(log, 0)), Stack(Count(log, 1)), Stack(Count(log, 2)), Stack(Count(log, 3)), Stack(Count(log, 4)), Stack(Count(log, 5)), Stack(Count(log, 6)),
                  Side(log, colors, t, 0), Side(log, colors, t, 1), Side(log, colors, t, 2), Side(log, colors, t, 3), Side(log, colors, t, 4), Side(log, colors, t, 5), Side(log, colors, t, 6),
                  Side(log, colors, !t, 0), Side(log, colors, !t, 1), Side(log, colors, !t, 2), Side(log, colors, !t, 3), Side(log, colors, !t, 4), Side(log, colors, !t, 5), Side(log, colors, !t, 6))
  {
    SideSplit(log, colors, t, 0);
    SideSplit(log, colors, t, 1);
    SideSplit(log, colors, t, 2);
    SideSplit(log, colors, t, 3);
    SideSplit(log, colors, t, 4);
    SideSplit(log, colors, t, 5);
    SideSplit(log, colors, t, 6);
  }

  /** `sum(posAll) - posOX` is the other colour's word. */
  lemma FlipSides(log: seq<int>, colors: seq<bool>, t: bool)
    requires Legal(log) && |colors| == |log|
    ensures Sub(Stacks(log), Sides(log, colors, t)) == Sides(log, colors, !t)
  {
    ApartFlip(log, colors, t);
    PackApart(Stack(Count(log, 0)), Stack(Count(log, 1)), Stack(Count(log, 2)), Stack(Count(log, 3)), Stack(Count(log, 4)), Stack(Count(log, 5)), Stack(Count(log, 6)),
              Side(log, colors, t, 0), Side(log, colors, t, 1), Side(log, colors, t, 2), Side(log, colors, t, 3), Side(log, colors, t, 4), Side(log, colors, t, 5), Side(log, colors, t, 6),
              Side(log, colors, !t, 0), Side(log, colors, !t, 1), Side(log, colors, !t, 2), Side(log, colors, !t, 3), Side(log, colors, !t, 4), Side(log, colors, !t, 5), Side(log, colors, !t, 6));
  }

  /** The colour sequence of column c after a stone of colour x goes into column col. */
  lemma PutTower(log: seq<int>, colors: seq<bool>, x: bool, col: int, c: int)
    requires Legal(log) && |colors| == |log| && 0 <= col < Width && Count(log, col) < Height && 0 <= c < Width
    ensures Count(log + [col], c) <= Height
    ensures |Tower(log + [col], colors + [x], c)| == Count(log + [col], c)
    ensures c == col ==> |Tower(log, colors, c)| < Height &&
                         Tower(log + [col], colors + [x], c) == Tower(log, colors, c) + [x]
    ensures c != col ==> Tower(log + [col], colors + [x], c) == Tower(log, colors, c)
  {
    LegalAppend(log, col);
    CountAppend(log, col, c);
    TowerAppend(log, colors, col, x, c);
    TowerHeight(log, colors, c);
    TowerHeight(log + [col], colors + [x], c);
  }

  /** Column c after a stone of colour !t goes into column col. */
  lemma PutColumn(log: seq<int>, colors: seq<bool>, t: bool, col: int, c: int)
    requires Legal(log) && |colors| == |log| && 0 <= col < Width && Count(log, col) < Height && 0 <= c < Width
    ensures Count(log + [col], c) <= Height
    ensures Low(Stack(Count(log + [col], c))) && Inside(Side(log, colors, t, c), Stack(Count(log + [col], c)))
    ensures Side(log + [col], colors + [!t], !t, c) == Stack(Count(log + [col], c)) & !Side(log, colors, t, c)
  {
    PutTower(log, colors, !t, col, c);
    var cs := Tower(log, colors, c);
    var k := Count(log + [col], c);
    if c == col {
      PatternPut(cs, t, k);
    } else {
      PatternSplit(cs, t, k);
    }
  }

  lemma ApartPut(log: seq<int>, colors: seq<bool>, t: bool, col: int)
    requires Legal(log) && |colors| == |log| && 0 <= col < Width && Count(log, col) < Height
    ensures Legal(log + [col])
    ensures Apart(Stack(Count(log + [col], 0)), Stack(Count(log + [col], 1)), Stack(Count(log + [col], 2)), Stack(Count(log + [col], 3)), Stack(Count(log + [col], 4)), Stack(Count(log + [col], 5)), Stack(Count(log + [col], 6)),
                  Side(log, colors, t, 0), Side(log, colors, t, 1), Side(log, colors, t, 2), Side(log, colors, t, 3), Side(log, colors, t, 4), Side(log, colors, t, 5), Side(log, colors, t, 6),
                  Side(log + [col], colors + [!t], !t, 0), Side(log + [col], colors + [!t], !t, 1), Side(log + [col], colors + [!t], !t, 2), Side(log + [col], colors + [!t], !t, 3), Side(log + [col], colors + [!t], !t, 4), Side(log + [col], colors + [!t], !t, 5), Side(log + [col], colors + [!t], !t, 6))
  {
    LegalAppend(log, col);
    PutColumn(log, colors, t, col, 0);
    PutColumn(log, colors, t, col, 1);
    PutColumn(log, colors, t, col, 2);
    PutColumn(log, colors, t, col, 3);
    PutColumn(log, colors, t, col, 4);
    PutColumn(log, colors, t, col, 5);
    PutColumn(log, colors, t, col, 6);
  }

  /** After `put`, `sum(posAll) - posOX` is the word of the stone just played and its colour's other stones. */
  lemma PutSides(log: seq<int>, colors: seq<bool>, t: bool, col: int)
    requires Legal(log) && |colors| == |log| && 0 <= col < Width && Count(log, col) < Height
    ensures Legal(log + [col])
    ensures Sub(Stacks(log + [col]), Sides(log, colors, t)) == Sides(log + [col], colors + [!t], !t)
  {
    ApartPut(log, colors, t, col);
    PackApart(Stack(Count(log + [col], 0)), Stack(Count(log + [col], 1)), Stack(Count(log + [col], 2)), Stack(Count(log + [col], 3)), Stack(Count(log + [col], 4)), Stack(Count(log + [col], 5)), Stack(Count(log + [col], 6)),
              Side(log, colors, t, 0), Side(log, colors, t, 1), Side(log, colors, t, 2), Side(log, colors, t, 3), Side(log, colors, t, 4), Side(log, colors, t, 5), Side(log, colors, t, 6),
              Side(log + [col], colors + [!t], !t, 0), Side(log + [col], colors + [!t], !t, 1), Side(log + [col], colors + [!t], !t, 2), Side(log + [col], colors + [!t], !t, 3), Side(log + [col], colors + [!t], !t, 4), Side(log + [col], colors + [!t], !t, 5), Side(log + [col], colors + [!t], !t, 6));
  }

  /** Column c without the last stone, when that stone has colour t. */
  lemma UndoColumn(log: seq<int>, colors: seq<bool>, t: bool, c: int)
    requires |colors| == |log| && |log| > 0 && colors[|log| - 1] == t
    ensures Side(log, colors, !t, c) == Side(log[..|log| - 1], colors[..|log| - 1], !t, c)
  {
    var n := |log| - 1;
    PatternOther(Tower(log[..n], colors[..n], c), t, !t);
  }

  /** Taking away the last stone, of colour t, leaves the other colour's word as it was. */
  lemma UndoSides(log: seq<int>, colors: seq<bool>, t: bool)
    requires Legal(log) && |colors| == |log| && |log| > 0 && colors[|log| - 1] == t
    ensures Sub(Stacks(log), Sides(log, colors, t)) == Sides(log[..|log| - 1], colors[..|log| - 1], !t)
  {
    FlipSides(log, colors, t);
    UndoColumn(log, colors, t, 0);
    UndoColumn(log, colors, t, 1);
    UndoColumn(log, colors, t, 2);
    UndoColumn(log, colors, t, 3);
    UndoColumn(log, colors, t, 4);
    UndoColumn(log, colors, t, 5);
    UndoColumn(log, colors, t, 6);
  }

  // -----------------------------------------------------------------------
  // The memo key

  /**
   * `posOX + sum(posAll) + sum(posBottom)`, with the two sums added first;
   * every value stays below 2 ** 49, so the grouping changes nothing.
   */
  function Key(x: bv64, a: seq<bv64>): bv64
    requires |a| == Width
  {
    Add(x, Add(Union(a), Union(PosBottom)))
  }

  /** The key of a position: colour t's stones plus all stones plus the sentinels. */
  function KeyWord(log: seq<int>, colors: seq<bool>, t: bool): bv64
    requires Legal(log) && |colors| == |log|
  {
    Add(Sides(log, colors, t), Add(Stacks(log), BottomMask))
  }

  /** Column c's field of the key: colour t's stones and a marker on the first free row. */
  function Mark(log: seq<int>, colors: seq<bool>, t: bool, c: int): bv8
    requires Legal(log) && |colors| == |log| && 0 <= c < Width
  {
    Side(log, colors, t, c) | Row(Count(log, c))
  }

  lemma MarkColumn(log: seq<int>, colors: seq<bool>, t: bool, c: int)
    requires Legal(log) && |colors| == |log| && 0 <= c < Width
    ensures Small(Side(log, colors, t, c)) && Small(Row(Count(log, c))) && Side(log, colors, t, c) & Row(Count(log, c)) == 0
    ensures Low(Stack(Count(log, c))) && Stack(Count(log, c)) + 1 == Row(Count(log, c))
    ensures Small(Mark(log, colors, t, c))
  {
    SideSplit(log, colors, t, c);
    StackFacts(Count(log, c));
  }

  lemma MarkDisjoint(log: seq<int>, colors: seq<bool>, t: bool)
    requires Legal(log) && |colors| == |log|
    ensures Above(Stack(Count(log, 0)), Stack(Count(log, 1)), Stack(Count(log, 2)), Stack(Count(log, 3)), Stack(Count(log, 4)), Stack(Count(log, 5)), Stack(Count(log, 6)),
                  Row(Count(log, 0)), Row(Count(log, 1)), Row(Count(log, 2)), Row(Count(log, 3)), Row(Count(log, 4)), Row(Count(log, 5)), Row(Count(log, 6)))
    ensures Disjoint(Side(log, colors, t, 0), Side(log, colors, t, 1), Side(log, colors, t, 2), Side(log, colors, t, 3), Side(log, colors, t, 4), Side(log, colors, t, 5), Side(log, colors, t, 6),
                     Row(Count(log, 0)), Row(Count(log, 1)), Row(Count(log, 2)), Row(Count(log, 3)), Row(Count(log, 4)), Row(Count(log, 5)), Row(Count(log, 6)))
    ensures AllSmall(Mark(log, colors, t, 0), Mark(log, colors, t, 1), Mark(log, colors, t, 2), Mark(log, colors, t, 3), Mark(log, colors, t, 4), Mark(log, colors, t, 5), Mark(log, colors, t, 6))
  {
    MarkColumn(log, colors, t, 0);
    MarkColumn(log, colors, t, 1);
    MarkColumn(log, colors, t, 2);
    MarkColumn(log, colors, t, 3);
    MarkColumn(log, colors, t, 4);
    MarkColumn(log, colors, t, 5);
    MarkColumn(log, colors, t, 6);
  }

  /** The key packs the marked columns side by side: no addition carries. */
  lemma KeyMarks(log: seq<int>, colors: seq<bool>, t: bool)
    requires Legal(log) && |colors| == |log|
    ensures KeyWord(log, colors, t) == Pack(Mark(log, colors, t, 0), Mark(log, colors, t, 1), Mark(log, colors, t, 2), Mark(log, colors, t, 3), Mark(log, colors, t, 4), Mark(log, colors, t, 5), Mark(log, colors, t, 6))
  {
    MarkDisjoint(log, colors, t);
    PackKey(Stack(Count(log, 0)), Stack(Count(log, 1)), Stack(Count(log, 2)), Stack(Count(log, 3)), Stack(Count(log, 4)), Stack(Count(log, 5)), Stack(Count(log, 6)),
            Side(log, colors, t, 0), Side(log, colors, t, 1), Side(log, colors, t, 2), Side(log, colors, t, 3), Side(log, colors, t, 4), Side(log, colors, t, 5), Side(log, colors, t, 6),
            Row(Count(log, 0)), Row(Count(log, 1)), Row(Count(log, 2)), Row(Count(log, 3)), Row(Count(log, 4)), Row(Count(log, 5)), Row(Count(log, 6)));
  }

  /** A column's marked field tells its height and its stones of colour t. */
  lemma MarkSame(k1: int, v1: bv8, k2: int, v2: bv8)
    requires 0 <= k1 <= Height && 0 <= k2 <= Height
    ensures Inside(v1, Stack(k1)) && Inside(v2, Stack(k2)) && v1 | Row(k1) == v2 | Row(k2) ==> k1 == k2 && v1 == v2
  {}

  lemma KeyFields(log: seq<int>, colors: seq<bool>, t: bool)
    requires Legal(log) && |colors| == |log|
    ensures Field(KeyWord(log, colors, t), 0) == Mark(log, colors, t, 0)
    ensures Field(KeyWord(log, colors, t), 1) == Mark(log, colors, t, 1)
    ensures Field(KeyWord(log, colors, t), 2) == Mark(log, colors, t, 2)
    ensures Field(KeyWord(log, colors, t), 3) == Mark(log, colors, t, 3)
    ensures Field(KeyWord(log, colors, t), 4) == Mark(log, colors, t, 4)
    ensures Field(KeyWord(log, colors, t), 5) == Mark(log, colors, t, 5)
    ensures Field(KeyWord(log, colors, t), 6) == Mark(log, colors, t, 6)
  {
    KeyMarks(log, colors, t);
    MarkDisjoint(log, colors, t);
    PackFields(Mark(log, colors, t, 0), Mark(log, colors, t, 1), Mark(log, colors, t, 2), Mark(log, colors, t, 3), Mark(log, colors, t, 4), Mark(log, colors, t, 5), Mark(log, colors, t, 6));
  }

  lemma KeyColumn(log1: seq<int>, colors1: seq<bool>, t1: bool, log2: seq<int>, colors2: seq<bool>, t2: bool, c: int)
    requires Legal(log1) && |colors1| == |log1| && Legal(log2) && |colors2| == |log2| && 0 <= c < Width
    requires Mark(log1, colors1, t1, c) == Mark(log2, colors2, t2, c)
    ensures Count(log1, c) == Count(log2, c) && Side(log1, colors1, t1, c) == Side(log2, colors2, t2, c)
  {
    SideSplit(log1, colors1, t1, c);
    SideSplit(log2, colors2, t2, c);
    MarkSame(Count(log1, c), Side(log1, colors1, t1, c), Count(log2, c), Side(log2, colors2, t2, c));
  }

  predicate SameMarks(log1: seq<int>, colors1: seq<bool>, t1: bool, log2: seq<int>, colors2: seq<bool>, t2: bool)
    requires Legal(log1) && |colors1| == |log1| && Legal(log2) && |colors2| == |log2|
  {
    Mark(log1, colors1, t1, 0) == Mark(log2, colors2, t2, 0) &&
      Mark(log1, colors1, t1, 1) == Mark(log2, colors2, t2, 1) &&
      Mark(log1, colors1, t1, 2) == Mark(log2, colors2, t2, 2) &&
      Mark(log1, colors1, t1, 3) == Mark(log2, colors2, t2, 3) &&
      Mark(log1, colors1, t1, 4) == Mark(log2, colors2, t2, 4) &&
      Mark(log1, colors1, t1, 5) == Mark(log2, colors2, t2, 5) &&
      Mark(log1, colors1, t1, 6) == Mark(log2, colors2, t2, 6)
  }

  lemma KeySameMarks(log1: seq<int>, colors1: seq<bool>, t1: bool, log2: seq<int>, colors2: seq<bool>, t2: bool)
    requires Legal(log1) && |colors1| == |log1| && Legal(log2) && |colors2| == |log2|
    ensures KeyWord(log1, colors1, t1) == KeyWord(log2, colors2, t2) ==> SameMarks(log1, colors1, t1, log2, colors2, t2)
  {
    KeyFields(log1, colors1, t1);
    KeyFields(log2, colors2, t2);
  }

  lemma SameMarksSides(log1: seq<int>, colors1: seq<bool>, t1: bool, log2: seq<int>, colors2: seq<bool>, t2: bool)
    requires Legal(log1) && |colors1| == |log1| && Legal(log2) && |colors2| == |log2|
    ensures SameMarks(log1, colors1, t1, log2, colors2, t2) ==>
      SameHeights(log1, log2) &&
      Count(log1, 0) == Count(log2, 0) && Side(log1, colors1, t1, 0) == Side(log2, colors2, t2, 0) &&
      Count(log1, 1) == Count(log2, 1) && Side(log1, colors1, t1, 1) == Side(log2, colors2, t2, 1) &&
      Count(log1, 2) == Count(log2, 2) && Side(log1, colors1, t1, 2) == Side(log2, colors2, t2, 2) &&
      Count(log1, 3) == Count(log2, 3) && Side(log1, colors1, t1, 3) == Side(log2, colors2, t2, 3) &&
      Count(log1, 4) == Count(log2, 4) && Side(log1, colors1, t1, 4) == Side(log2, colors2, t2, 4) &&
      Count(log1, 5) == Count(log2, 5) && Side(log1, colors1, t1, 5) == Side(log2, colors2, t2, 5) &&
      Count(log1, 6) == Count(log2, 6) && Side(log1, colors1, t1, 6) == Side(log2, colors2, t2, 6)
  {
    if SameMarks(log1, colors1, t1, log2, colors2, t2) {
      KeyColumn(log1, colors1, t1, log2, colors2, t2, 0);
      KeyColumn(log1, colors1, t1, log2, colors2, t2, 1);
      KeyColumn(log1, colors1, t1, log2, colors2, t2, 2);
      KeyColumn(log1, colors1, t1, log2, colors2, t2, 3);
      KeyColumn(log1, colors1, t1, log2, colors2, t2, 4);
      KeyColumn(log1, colors1, t1, log2, colors2, t2, 5);
      KeyColumn(log1, colors1, t1, log2, colors2, t2, 6);
    }
  }

  lemma SameMarksSame(log1: seq<int>, colors1: seq<bool>, t1: bool, log2: seq<int>, colors2: seq<bool>, t2: bool)
    requires Legal(log1) && |colors1| == |log1| && Legal(log2) && |colors2| == |log2|
    ensures SameMarks(log1, colors1, t1, log2, colors2, t2) ==>
      Sides(log1, colors1, t1) == Sides(log2, colors2, t2) && SameHeights(log1, log2)
  {
    if SameMarks(log1, colors1, t1, log2, colors2, t2) {
      SameMarksSides(log1, colors1, t1, log2, colors2, t2);
      PackSame(Side(log1, colors1, t1, 0), Side(log1, colors1, t1, 1), Side(log1, colors1, t1, 2), Side(log1, colors1, t1, 3), Side(log1, colors1, t1, 4), Side(log1, colors1, t1, 5), Side(log1, colors1, t1, 6),
             Side(log2, colors2, t2, 0), Side(log2, colors2, t2, 1), Side(log2, colors2, t2, 2), Side(log2, colors2, t2, 3), Side(log2, colors2, t2, 4), Side(log2, colors2, t2, 5), Side(log2, colors2, t2, 6));
    }
  }

  /** Equal keys mean equal column heights and equal stones of the colour `posOX` holds. */
  lemma KeyInjective(log1: seq<int>, colors1: seq<bool>, t1: bool, log2: seq<int>, colors2: seq<bool>, t2: bool)
    requires Legal(log1) && |colors1| == |log1| && Legal(log2) && |colors2| == |log2|
    ensures KeyWord(log1, colors1, t1) == KeyWord(log2, colors2, t2) ==>
      Sides(log1, colors1, t1) == Sides(log2, colors2, t2) && forall c :: 0 <= c < Width ==> Count(log1, c) == Count(log2, c)
  {
    KeySameMarks(log1, colors1, t1, log2, colors2, t2);
    SameMarksSame(log1, colors1, t1, log2, colors2, t2);
    SameHeightsAll(log1, log2);
  }

  // -----------------------------------------------------------------------
  // Single cells

  /** Row r of a column's pattern of colour t is set exactly when that row holds colour t. */
  lemma PatternRow(cs: seq<bool>, t: bool, r: int)
    requires |cs| <= Height && 0 <= r <= Height
    ensures Pattern(cs, t) & Row(r) != 0 <==> Holds(cs, r, t)
  {
    PatRow(Holds(cs, 0, t), Holds(cs, 1, t), Holds(cs, 2, t), Holds(cs, 3, t), Holds(cs, 4, t), Holds(cs, 5, t), r);
  }

  lemma SidesSmall(log: seq<int>, colors: seq<bool>, t: bool)
    requires Legal(log) && |colors| == |log|
    ensures AllSmall(Side(log, colors, t, 0), Side(log, colors, t, 1), Side(log, colors, t, 2), Side(log, colors, t, 3), Side(log, colors, t, 4), Side(log, colors, t, 5), Side(log, colors, t, 6))
    ensures AllLow(Side(log, colors, t, 0), Side(log, colors, t, 1), Side(log, colors, t, 2), Side(log, colors, t, 3), Side(log, colors, t, 4), Side(log, colors, t, 5), Side(log, colors, t, 6))
  {
    SideSplit(log, colors, t, 0);
    SideSplit(log, colors, t, 1);
    SideSplit(log, colors, t, 2);
    SideSplit(log, colors, t, 3);
    SideSplit(log, colors, t, 4);
    SideSplit(log, colors, t, 5);
    SideSplit(log, colors, t, 6);
  }

  /** Field c of colour t's word is column c's pattern. */
  lemma FieldSide(log: seq<int>, colors: seq<bool>, t: bool, c: int)
    requires Legal(log) && |colors| == |log| && 0 <= c < Width
    ensures Field(Sides(log, colors, t), c) == Side(log, colors, t, c)
  {
    SidesSmall(log, colors, t);
    FieldPack(Side(log, colors, t, 0), Side(log, colors, t, 1), Side(log, colors, t, 2), Side(log, colors, t, 3), Side(log, colors, t, 4), Side(log, colors, t, 5), Side(log, colors, t, 6), c);
  }

  /** Colour t's word has a stone on cell (c, r) exactly when that cell holds colour t. */
  lemma SideCell(log: seq<int>, colors: seq<bool>, t: bool, c: int, r: int)
    requires Legal(log) && |colors| == |log| && 0 <= c < Width && 0 <= r <= Height
    ensures Has(Sides(log, colors, t), 7 * Idx(c) + Idx(r)) <==> Holds(Tower(log, colors, c), r, t)
  {
    FieldHas(Sides(log, colors, t), c, r);
    FieldSide(log, colors, t, c);
    TowerHeight(log, colors, c);
    PatternRow(Tower(log, colors, c), t, r);
  }

  /** Colour t's word lies on the board's 42 cells. */
  lemma SidesOnBoard(log: seq<int>, colors: seq<bool>, t: bool)
    requires Legal(log) && |colors| == |log|
    ensures Subset(Sides(log, colors, t), BoardMask)
  {
    SidesSmall(log, colors, t);
    PackOnBoard(Side(log, colors, t, 0), Side(log, colors, t, 1), Side(log, colors, t, 2), Side(log, colors, t, 3), Side(log, colors, t, 4), Side(log, colors, t, 5), Side(log, colors, t, 6));
  }

  // -----------------------------------------------------------------------
  // The operations on the words

  /** `sum(posAll) - posOX`: `posReverse`. */
  function Flip(x: bv64, a: seq<bv64>): bv64
    requires |a| == Width
  {
    Sub(Union(a), x)
  }

  /** Reversing twice against the same columns gives back the word. */
  lemma FlipFlip(x: bv64, a: seq<bv64>)
    requires |a| == Width
    ensures Flip(Flip(x, a), a) == x
  {
    SubSub(Union(a), x);
  }

  /** The column words of the empty board. */
  lemma EmptyBoard(t: bool)
    ensures Stacked([0, 0, 0, 0, 0, 0, 0], [])
    ensures Sides([], [], t) == 0
  {
    PlaceFixed(0);
  }

  /** A put into a column with room leaves the column words those of the longer log. */
  lemma StackedPut(a: seq<bv64>, log: seq<int>, col: int)
    requires Legal(log) && Stacked(a, log) && 0 <= col < Width && Count(log, col) < Height
    ensures Legal(log + [col]) && Stacked(a[col := PutWord(a[col], col)], log + [col])
    ensures Room(a[col], col)
  {
    LegalAppend(log, col);
    ColumnOps(col, Count(log, col));
    forall c | 0 <= c < Width
      ensures a[col := PutWord(a[col], col)][c] == Column(c, Count(log + [col], c))
    {
      CountAppend(log, col, c);
    }
  }

  /** An undo leaves the column words those of the log without its last move. */
  lemma StackedUndo(a: seq<bv64>, log: seq<int>)
    requires Legal(log) && Stacked(a, log) && |log| > 0
    ensures Legal(log[..|log| - 1]) && Stacked(a[log[|log| - 1] := UndoWord(a[log[|log| - 1]])], log[..|log| - 1])
  {
    var n := |log| - 1;
    var p, col := log[..n], log[n];
    assert log == p + [col];
    LegalPrefix(log);
    CountAppend(p, col, col);
    ColumnOps(col, Count(log, col));
    forall c | 0 <= c < Width
      ensures a[col := UndoWord(a[col])][c] == Column(c, Count(p, c))
    {
      CountAppend(p, col, c);
    }
  }

  /** Undoing a put gives back the column words. */
  lemma PutUndoAll(a: seq<bv64>, log: seq<int>, col: int)
    requires Legal(log) && Stacked(a, log) && 0 <= col < Width && Count(log, col) < Height
    ensures a[col := PutWord(a[col], col)][col := UndoWord(a[col := PutWord(a[col], col)][col])] == a
  {
    ColumnOps(col, Count(log, col));
    ColumnOps(col, Count(log, col) + 1);
  }

  // -----------------------------------------------------------------------
  // Four in a line

  /** The four directions `win` tests, as (dx, dy). */
  const Directions: seq<(int, int)> := [(1, 0), (0, 1), (1, 1), (1, -1)]
  /** The three directions of `winWithoutVerticle`. */
  const FlatDirections: seq<(int, int)> := [(1, 0), (1, 1), (1, -1)]

  /** `dx * (h + 1) + dy`: the bit stride of a direction. */
  function Stride(d: (int, int)): (s: bv64)
    requires 0 <= d.0 * (Height + 1) + d.1 <= 8
    ensures s <= 8
  {
    var n := d.0 * (Height + 1) + d.1;
    if n == 8 then 8 else Idx(n)
  }

  predicate Strides(ds: seq<(int, int)>)
  {
    forall i :: 0 <= i < |ds| ==> 0 <= ds[i].0 * (Height + 1) + ds[i].1 <= 8
  }

  /** Some direction of ds finds four in a line in x. */
  predicate Connects(x: bv64, ds: seq<(int, int)>)
    requires Strides(ds)
  {
    exists i :: 0 <= i < |ds| && Spread(x, Stride(ds[i])) != 0
  }

  lemma StridesAre()
    ensures Strides(Directions) && Strides(FlatDirections)
    ensures Stride(Directions[0]) == 7 && Stride(Directions[1]) == 1 && Stride(Directions[2]) == 8 && Stride(Directions[3]) == 6
    ensures Stride(FlatDirections[0]) == 7 && Stride(FlatDirections[1]) == 8 && Stride(FlatDirections[2]) == 6
  {}

  /** Every direction `winWithoutVerticle` tests, `win` tests too. */
  lemma FlatThenAll(x: bv64)
    ensures Strides(FlatDirections) && Strides(Directions)
    ensures Connects(x, FlatDirections) ==> Connects(x, Directions)
  {
    StridesAre();
    if Connects(x, FlatDirections) {
      var i :| 0 <= i < |FlatDirections| && Spread(x, Stride(FlatDirections[i])) != 0;
      var j := if i == 0 then 0 else if i == 1 then 2 else 3;
      assert FlatDirections[i] == Directions[j];
    }
  }

  // -----------------------------------------------------------------------
  // Four in a line, stated on the columns

  /** The seven towers of colours, column by column. */
  function Grid(log: seq<int>, colors: seq<bool>): (g: seq<seq<bool>>)
    requires |colors| == |log|
    ensures |g| == Width
  {
    [Tower(log, colors, 0), Tower(log, colors, 1), Tower(log, colors, 2), Tower(log, colors, 3),
     Tower(log, colors, 4), Tower(log, colors, 5), Tower(log, colors, 6)]
  }

  /** Colour t has a stone on cell (c, r). */
  ghost predicate Owns(g: seq<seq<bool>>, t: bool, c: int, r: int)
  {
    0 <= c < |g| && Holds(g[c], r, t)
  }

  /** Colour t has four stones from (c, r) on in direction (dx, dy). */
  ghost predicate Four(g: seq<seq<bool>>, t: bool, c: int, r: int, dx: int, dy: int)
  {
    Owns(g, t, c, r) && Owns(g, t, c + dx, r + dy) && Owns(g, t, c + 2 * dx, r + 2 * dy) && Owns(g, t, c + 3 * dx, r + 3 * dy)
  }

  /** Colour t has four in a line somewhere in direction (dx, dy). */
  ghost predicate AnyFour(g: seq<seq<bool>>, t: bool, dx: int, dy: int)
  {
    exists c, r :: Four(g, t, c, r, dx, dy)
  }

  /** Colour t has four in a horizontal, vertical or diagonal line. */
  ghost predicate Connected(g: seq<seq<bool>>, t: bool)
  {
    AnyFour(g, t, 1, 0) || AnyFour(g, t, 0, 1) || AnyFour(g, t, 1, 1) || AnyFour(g, t, 1, -1)
  }

  /** Colour t has four in a horizontal or diagonal line. */
  ghost predicate ConnectedFlat(g: seq<seq<bool>>, t: bool)
  {
    AnyFour(g, t, 1, 0) || AnyFour(g, t, 1, 1) || AnyFour(g, t, 1, -1)
  }

  /** Columns of at most six stones. */
  predicate Short(g: seq<seq<bool>>)
  {
    forall c :: 0 <= c < |g| ==> |g[c]| <= Height
  }

  /** A small bit index back as a number. */
  function Num(b: bv64): (n: int)
    requires b < 7
    ensures 0 <= n < 7 && Idx(n) == b
  {
    if b == 0 then 0 else if b == 1 then 1 else if b == 2 then 2 else if b == 3 then 3
    else if b == 4 then 4 else if b == 5 then 5 else 6
  }

  /** The bits of x on the board are exactly the stones of colour t in g. */
  ghost predicate Mirror(x: bv64, g: seq<seq<bool>>, t: bool)
  {
    forall c, r :: 0 <= c < Width && 0 <= r < Width ==> (Stone(x, Idx(c), Idx(r)) <==> Owns(g, t, c, r))
  }

  lemma GridShort(log: seq<int>, colors: seq<bool>)
    requires Legal(log) && |colors| == |log|
    ensures Short(Grid(log, colors))
  {
    forall c | 0 <= c < Width
      ensures |Grid(log, colors)[c]| <= Height
    {
      TowerHeight(log, colors, c);
    }
  }

  lemma MirrorSides(log: seq<int>, colors: seq<bool>, t: bool)
    requires Legal(log) && |colors| == |log|
    ensures Mirror(Sides(log, colors, t), Grid(log, colors), t)
  {
    forall c, r | 0 <= c < Width && 0 <= r < Width
      ensures Stone(Sides(log, colors, t), Idx(c), Idx(r)) <==> Owns(Grid(log, colors), t, c, r)
    {
      SideCell(log, colors, t, c, r);
    }
  }

  lemma MirrorAt(x: bv64, g: seq<seq<bool>>, t: bool, c: int, r: int)
    requires 0 <= c < Width && 0 <= r < Width
    ensures Mirror(x, g, t) ==> StoneIs(x, c, r, Owns(g, t, c, r))
  {}

  lemma HorizontalFour(x: bv64, g: seq<seq<bool>>, t: bool, c: int, r: int)
    requires 0 <= c < 4 && 0 <= r < Height
    ensures StoneIs(x, c, r, Owns(g, t, c, r)) && StoneIs(x, c + 1, r, Owns(g, t, c + 1, r)) && StoneIs(x, c + 2, r, Owns(g, t, c + 2, r)) && StoneIs(x, c + 3, r, Owns(g, t, c + 3, r)) ==>
      (Horizontal(x, Idx(c), Idx(r)) <==> Four(g, t, c, r, 1, 0))
  {
    HorizontalDecided(x, c, r, Owns(g, t, c, r), Owns(g, t, c + 1, r), Owns(g, t, c + 2, r), Owns(g, t, c + 3, r));
  }

  lemma HorizontalMirror(x: bv64, g: seq<seq<bool>>, t: bool, c: int, r: int)
    requires 0 <= c < 4 && 0 <= r < Height
    ensures Mirror(x, g, t) ==> (Horizontal(x, Idx(c), Idx(r)) <==> Four(g, t, c, r, 1, 0))
  {
    MirrorAt(x, g, t, c, r);
    MirrorAt(x, g, t, c + 1, r);
    MirrorAt(x, g, t, c + 2, r);
    MirrorAt(x, g, t, c + 3, r);
    HorizontalFour(x, g, t, c, r);
  }

  lemma VerticalFour(x: bv64, g: seq<seq<bool>>, t: bool, c: int, r: int)
    requires 0 <= c < Width && 0 <= r < 3
    ensures StoneIs(x, c, r, Owns(g, t, c, r)) && StoneIs(x, c, r + 1, Owns(g, t, c, r + 1)) && StoneIs(x, c, r + 2, Owns(g, t, c, r + 2)) && StoneIs(x, c, r + 3, Owns(g, t, c, r + 3)) ==>
      (Vertical(x, Idx(c), Idx(r)) <==> Four(g, t, c, r, 0, 1))
  {
    VerticalDecided(x, c, r, Owns(g, t, c, r), Owns(g, t, c, r + 1), Owns(g, t, c, r + 2), Owns(g, t, c, r + 3));
  }

  lemma VerticalMirror(x: bv64, g: seq<seq<bool>>, t: bool, c: int, r: int)
    requires 0 <= c < Width && 0 <= r < 3
    ensures Mirror(x, g, t) ==> (Vertical(x, Idx(c), Idx(r)) <==> Four(g, t, c, r, 0, 1))
  {
    MirrorAt(x, g, t, c, r);
    MirrorAt(x, g, t, c, r + 1);
    MirrorAt(x, g, t, c, r + 2);
    MirrorAt(x, g, t, c, r + 3);
    VerticalFour(x, g, t, c, r);
  }

  lemma RisingFour(x: bv64, g: seq<seq<bool>>, t: bool, c: int, r: int)
    requires 0 <= c < 4 && 0 <= r < 3
    ensures StoneIs(x, c, r, Owns(g, t, c, r)) && StoneIs(x, c + 1, r + 1, Owns(g, t, c + 1, r + 1)) && StoneIs(x, c + 2, r + 2, Owns(g, t, c + 2, r + 2)) && StoneIs(x, c + 3, r + 3, Owns(g, t, c + 3, r + 3)) ==>
      (Rising(x, Idx(c), Idx(r)) <==> Four(g, t, c, r, 1, 1))
  {
    RisingDecided(x, c, r, Owns(g, t, c, r), Owns(g, t, c + 1, r + 1), Owns(g, t, c + 2, r + 2), Owns(g, t, c + 3, r + 3));
  }

  lemma RisingMirror(x: bv64, g: seq<seq<bool>>, t: bool, c: int, r: int)
    requires 0 <= c < 4 && 0 <= r < 3
    ensures Mirror(x, g, t) ==> (Rising(x, Idx(c), Idx(r)) <==> Four(g, t, c, r, 1, 1))
  {
    MirrorAt(x, g, t, c, r);
    MirrorAt(x, g, t, c + 1, r + 1);
    MirrorAt(x, g, t, c + 2, r + 2);
    MirrorAt(x, g, t, c + 3, r + 3);
    RisingFour(x, g, t, c, r);
  }

  lemma FallingFour(x: bv64, g: seq<seq<bool>>, t: bool, c: int, r: int)
    requires 0 <= c < 4 && 3 <= r < Height
    ensures StoneIs(x, c, r, Owns(g, t, c, r)) && StoneIs(x, c + 1, r - 1, Owns(g, t, c + 1, r - 1)) && StoneIs(x, c + 2, r - 2, Owns(g, t, c + 2, r - 2)) && StoneIs(x, c + 3, r - 3, Owns(g, t, c + 3, r - 3)) ==>
      (Falling(x, Idx(c), Idx(r)) <==> Four(g, t, c, r, 1, -1))
  {
    FallingDecided(x, c, r, Owns(g, t, c, r), Owns(g, t, c + 1, r - 1), Owns(g, t, c + 2, r - 2), Owns(g, t, c + 3, r - 3));
  }

  lemma FallingMirror(x: bv64, g: seq<seq<bool>>, t: bool, c: int, r: int)
    requires 0 <= c < 4 && 3 <= r < Height
    ensures Mirror(x, g, t) ==> (Falling(x, Idx(c), Idx(r)) <==> Four(g, t, c, r, 1, -1))
  {
    MirrorAt(x, g, t, c, r);
    MirrorAt(x, g, t, c + 1, r - 1);
    MirrorAt(x, g, t, c + 2, r - 2);
    MirrorAt(x, g, t, c + 3, r - 3);
    FallingFour(x, g, t, c, r);
  }

  lemma HorizontalFound(x: bv64, g: seq<seq<bool>>, t: bool, c: bv64, r: bv64)
    ensures Mirror(x, g, t) && Horizontal(x, c, r) ==> Four(g, t, Num(c), Num(r), 1, 0)
  {
    if Mirror(x, g, t) && Horizontal(x, c, r) {
      HorizontalMirror(x, g, t, Num(c), Num(r));
    }
  }

  lemma HorizontalDrawn(x: bv64, g: seq<seq<bool>>, t: bool, c: int, r: int)
    requires |g| == Width && Short(g)
    ensures Mirror(x, g, t) && Four(g, t, c, r, 1, 0) ==> 0 <= c < 4 && 0 <= r < 6 && Horizontal(x, Idx(c), Idx(r))
  {
    if Mirror(x, g, t) && Four(g, t, c, r, 1, 0) {
      assert Owns(g, t, c, r) && Owns(g, t, c + 3, r);
      HorizontalMirror(x, g, t, c, r);
    }
  }

  /** Where x mirrors colour t, the test with stride 7 finds exactly its horizontal lines. */
  lemma HorizontalWins(x: bv64, g: seq<seq<bool>>, t: bool)
    requires |g| == Width && Short(g) && Subset(x, BoardMask)
    ensures Mirror(x, g, t) ==> (Spread(x, 7) != 0 <==> AnyFour(g, t, 1, 0))
  {
    HorizontalExact(x);
    if Mirror(x, g, t) {
      if c, r :| Horizontal(x, c, r) {
        HorizontalFound(x, g, t, c, r);
      }
      if c, r :| Four(g, t, c, r, 1, 0) {
        HorizontalDrawn(x, g, t, c, r);
      }
    }
  }

  lemma VerticalFound(x: bv64, g: seq<seq<bool>>, t: bool, c: bv64, r: bv64)
    ensures Mirror(x, g, t) && Vertical(x, c, r) ==> Four(g, t, Num(c), Num(r), 0, 1)
  {
    if Mirror(x, g, t) && Vertical(x, c, r) {
      VerticalMirror(x, g, t, Num(c), Num(r));
    }
  }

  lemma VerticalDrawn(x: bv64, g: seq<seq<bool>>, t: bool, c: int, r: int)
    requires |g| == Width && Short(g)
    ensures Mirror(x, g, t) && Four(g, t, c, r, 0, 1) ==> 0 <= c < 7 && 0 <= r < 3 && Vertical(x, Idx(c), Idx(r))
  {
    if Mirror(x, g, t) && Four(g, t, c, r, 0, 1) {
      assert Owns(g, t, c, r) && Owns(g, t, c, r + 3);
      VerticalMirror(x, g, t, c, r);
    }
  }

  /** Where x mirrors colour t, the test with stride 1 finds exactly its vertical lines. */
  lemma VerticalWins(x: bv64, g: seq<seq<bool>>, t: bool)
    requires |g| == Width && Short(g) && Subset(x, BoardMask)
    ensures Mirror(x, g, t) ==> (Spread(x, 1) != 0 <==> AnyFour(g, t, 0, 1))
  {
    VerticalExact(x);
    if Mirror(x, g, t) {
      if c, r :| Vertical(x, c, r) {
        VerticalFound(x, g, t, c, r);
      }
      if c, r :| Four(g, t, c, r, 0, 1) {
        VerticalDrawn(x, g, t, c, r);
      }
    }
  }

  lemma RisingFound(x: bv64, g: seq<seq<bool>>, t: bool, c: bv64, r: bv64)
    ensures Mirror(x, g, t) && Rising(x, c, r) ==> Four(g, t, Num(c), Num(r), 1, 1)
  {
    if Mirror(x, g, t) && Rising(x, c, r) {
      RisingMirror(x, g, t, Num(c), Num(r));
    }
  }

  lemma RisingDrawn(x: bv64, g: seq<seq<bool>>, t: bool, c: int, r: int)
    requires |g| == Width && Short(g)
    ensures Mirror(x, g, t) && Four(g, t, c, r, 1, 1) ==> 0 <= c < 4 && 0 <= r < 3 && Rising(x, Idx(c), Idx(r))
  {
    if Mirror(x, g, t) && Four(g, t, c, r, 1, 1) {
      assert Owns(g, t, c, r) && Owns(g, t, c + 3, r + 3);
      RisingMirror(x, g, t, c, r);
    }
  }

  /** Where x mirrors colour t, the test with stride 8 finds exactly its rising lines. */
  lemma RisingWins(x: bv64, g: seq<seq<bool>>, t: bool)
    requires |g| == Width && Short(g) && Subset(x, BoardMask)
    ensures Mirror(x, g, t) ==> (Spread(x, 8) != 0 <==> AnyFour(g, t, 1, 1))
  {
    RisingExact(x);
    if Mirror(x, g, t) {
      if c, r :| Rising(x, c, r) {
        RisingFound(x, g, t, c, r);
      }
      if c, r :| Four(g, t, c, r, 1, 1) {
        RisingDrawn(x, g, t, c, r);
      }
    }
  }

  lemma FallingFound(x: bv64, g: seq<seq<bool>>, t: bool, c: bv64, r: bv64)
    ensures Mirror(x, g, t) && Falling(x, c, r) ==> Four(g, t, Num(c), Num(r), 1, -1)
  {
    if Mirror(x, g, t) && Falling(x, c, r) {
      FallingMirror(x, g, t, Num(c), Num(r));
    }
  }

  lemma FallingDrawn(x: bv64, g: seq<seq<bool>>, t: bool, c: int, r: int)
    requires |g| == Width && Short(g)
    ensures Mirror(x, g, t) && Four(g, t, c, r, 1, -1) ==> 0 <= c < 4 && 3 <= r < 6 && Falling(x, Idx(c), Idx(r))
  {
    if Mirror(x, g, t) && Four(g, t, c, r, 1, -1) {
      assert Owns(g, t, c, r) && Owns(g, t, c + 3, r - 3);
      FallingMirror(x, g, t, c, r);
    }
  }

  /** Where x mirrors colour t, the test with stride 6 finds exactly its falling lines. */
  lemma FallingWins(x: bv64, g: seq<seq<bool>>, t: bool)
    requires |g| == Width && Short(g) && Subset(x, BoardMask)
    ensures Mirror(x, g, t) ==> (Spread(x, 6) != 0 <==> AnyFour(g, t, 1, -1))
  {
    FallingExact(x);
    if Mirror(x, g, t) {
      if c, r :| Falling(x, c, r) {
        FallingFound(x, g, t, c, r);
      }
      if c, r :| Four(g, t, c, r, 1, -1) {
        FallingDrawn(x, g, t, c, r);
      }
    }
  }

  /** The four tests of `win` find exactly the lines of four of the colour x mirrors. */
  lemma ConnectsConnected(x: bv64, g: seq<seq<bool>>, t: bool)
    requires |g| == Width && Short(g) && Subset(x, BoardMask)
    ensures Strides(Directions) && Strides(FlatDirections)
    ensures Mirror(x, g, t) ==> (Connects(x, Directions) <==> Connected(g, t))
    ensures Mirror(x, g, t) ==> (Connects(x, FlatDirections) <==> ConnectedFlat(g, t))
  {
    StridesAre();
    HorizontalWins(x, g, t);
    VerticalWins(x, g, t);
    RisingWins(x, g, t);
    FallingWins(x, g, t);
    if Mirror(x, g, t) {
      if Connected(g, t) {
        if AnyFour(g, t, 1, 0) { assert Spread(x, Stride(Directions[0])) != 0; }
        else if AnyFour(g, t, 0, 1) { assert Spread(x, Stride(Directions[1])) != 0; }
        else if AnyFour(g, t, 1, 1) { assert Spread(x, Stride(Directions[2])) != 0; }
        else { assert Spread(x, Stride(Directions[3])) != 0; }
      }
      if ConnectedFlat(g, t) {
        if AnyFour(g, t, 1, 0) { assert Spread(x, Stride(FlatDirections[0])) != 0; }
        else if AnyFour(g, t, 1, 1) { assert Spread(x, Stride(FlatDirections[1])) != 0; }
        else { assert Spread(x, Stride(FlatDirections[2])) != 0; }
      }
    }
  }

  // -----------------------------------------------------------------------
  // Facts the board class uses

  /** Every prefix of a legal log is legal. */
  lemma {:induction false} LegalTake(log: seq<int>, k: int)
    requires Legal(log) && 0 <= k <= |log|
    ensures Legal(log[..k])
    decreases |log| - k
  {
    if k < |log| {
      LegalPrefix(log);
      LegalTake(log[..|log| - 1], k);
      assert log[..|log| - 1][..k] == log[..k];
    } else {
      assert log[..k] == log;
    }
  }

  /** The next move of a legal log goes into a column with room. */
  lemma LegalNext(log: seq<int>, k: int)
    requires Legal(log) && 0 <= k < |log|
    ensures Legal(log[..k]) && 0 <= log[k] < Width && Count(log[..k], log[k]) < Height
  {
    LegalTake(log, k);
    LegalTake(log, k + 1);
    assert log[..k + 1] == log[..k] + [log[k]];
    CountAppend(log[..k], log[k], log[k]);
  }

  /** Reversing the perspective turns one side's word into the other's. */
  lemma Perspective(a: seq<bv64>, log: seq<int>, colors: seq<bool>, t: bool)
    requires Legal(log) && |colors| == |log| && Stacked(a, log)
    ensures Flip(Sides(log, colors, t), a) == Sides(log, colors, !t)
  {
    UnionStacks(a, log);
    FlipSides(log, colors, t);
  }

  /** The probe of `exists` on a side's word finds that side's stone. */
  lemma ProbeSide(log: seq<int>, colors: seq<bool>, t: bool, col: int, row: int)
    requires Legal(log) && |colors| == |log| && 0 <= col < Width && 0 <= row <= Height
    ensures Hits(Sides(log, colors, t), col, row) <==> Holds(Tower(log, colors, col), row, t)
  {
    CellProbe(Sides(log, colors, t), col, row);
    SideCell(log, colors, t, col, row);
  }

  /** A cell holds a stone of one colour or the other exactly below the column's height. */
  lemma Occupied(log: seq<int>, colors: seq<bool>, col: int, row: int)
    requires |colors| == |log| && 0 <= row
    ensures Holds(Tower(log, colors, col), row, true) || Holds(Tower(log, colors, col), row, false) <==> row < Count(log, col)
  {
    TowerHeight(log, colors, col);
  }

  /** The colour of the last stone played. */
  ghost function Last(colors: seq<bool>): bool
    requires |colors| > 0
  {
    colors[|colors| - 1]
  }

  lemma LastPush(colors: seq<bool>, t: bool)
    ensures Last(colors + [t]) == t
  {
  }

  /** The colours of alternating play: the first player's stones at the even moves. */
  ghost predicate Alternate(colors: seq<bool>)
  {
    forall i :: 0 <= i < |colors| ==> colors[i] == (i % 2 == 0)
  }

  /** After one more move the colour of its stone is again the colour of the last mover. */
  lemma AlternatePush(colors: seq<bool>, t: bool)
    ensures Alternate(colors) && t == (|colors| % 2 == 1) ==> Alternate(colors + [!t]) && !t == (|colors + [!t]| % 2 == 1)
  {
  }

  /** Taking back a move keeps the colours alternating. */
  lemma AlternatePop(colors: seq<bool>, t: bool)
    requires |colors| > 0
    ensures Alternate(colors) && t == (|colors| % 2 == 1) ==> Alternate(colors[..|colors| - 1]) && !t == (|colors[..|colors| - 1]| % 2 == 1)
  {
  }

  /** n colours alternating, starting with t. */
  function Turns(t: bool, n: nat): (s: seq<bool>)
    ensures |s| == n
  {
    if n == 0 then [] else Turns(t, n - 1) + [if n % 2 == 1 then t else !t]
  }

  /** One step of a run of moves cols played after log0: the next move is legal and extends the log and the colours. */
  lemma PlayNext(log0: seq<int>, colors0: seq<bool>, t0: bool, cols: seq<int>, i: int, log: seq<int>, colors: seq<bool>, t: bool)
    requires Legal(log0 + cols) && 0 <= i < |cols|
    requires log == log0 + cols[..i] && colors == colors0 + Turns(!t0, i) && t == (if i % 2 == 0 then t0 else !t0)
    ensures 0 <= cols[i] < Width && Count(log, cols[i]) < Height
    ensures log + [cols[i]] == log0 + cols[..i + 1]
    ensures colors + [!t] == colors0 + Turns(!t0, i + 1)
    ensures !t == if (i + 1) % 2 == 0 then t0 else !t0
  {
    var all := log0 + cols;
    LegalNext(all, |log0| + i);
    assert all[..|log0| + i] == log && all[|log0| + i] == cols[i];
    assert cols[..i + 1] == cols[..i] + [cols[i]];
  }

  // -----------------------------------------------------------------------
  // The words of a board

  /** x and a are the words `posOX` and `posAll` of the logged moves, x holding colour t. */
  ghost predicate Words(x: bv64, a: seq<bv64>, log: seq<int>, colors: seq<bool>, t: bool)
  {
    Legal(log) && |colors| == |log| && Stacked(a, log) && x == Sides(log, colors, t)
  }

  lemma WordsEmpty(t: bool)
    ensures Words(0, [0, 0, 0, 0, 0, 0, 0], [], [], t)
  {
    EmptyBoard(t);
  }

  /** `posReverse` keeps the words those of the log, for the other colour. */
  lemma WordsFlip(x: bv64, a: seq<bv64>, log: seq<int>, colors: seq<bool>, t: bool)
    ensures Words(x, a, log, colors, t) ==> |a| == Width && Words(Flip(x, a), a, log, colors, !t)
  {
    if Words(x, a, log, colors, t) {
      Perspective(a, log, colors, t);
    }
  }

  /** `put` keeps the words those of the log. */
  lemma WordsPut(x: bv64, a: seq<bv64>, log: seq<int>, colors: seq<bool>, t: bool, col: int)
    requires 0 <= col < Width
    ensures Words(x, a, log, colors, t) && Count(log, col) < Height ==>
      |a| == Width && Words(Flip(x, a[col := PutWord(a[col], col)]), a[col := PutWord(a[col], col)], log + [col], colors + [!t], !t)
  {
    if Words(x, a, log, colors, t) && Count(log, col) < Height {
      StackedPut(a, log, col);
      PutSides(log, colors, t, col);
      UnionStacks(a[col := PutWord(a[col], col)], log + [col]);
    }
  }

  /** `undo` keeps the words those of the log, when the last stone has colour t. */
  lemma WordsUndo(x: bv64, a: seq<bv64>, log: seq<int>, colors: seq<bool>, t: bool)
    ensures Words(x, a, log, colors, t) && |log| > 0 && colors[|log| - 1] == t ==>
      |a| == Width && 0 <= log[|log| - 1] < Width &&
      Words(Flip(x, a), a[log[|log| - 1] := UndoWord(a[log[|log| - 1]])], log[..|log| - 1], colors[..|log| - 1], !t)
  {
    if Words(x, a, log, colors, t) && |log| > 0 && colors[|log| - 1] == t {
      StackedUndo(a, log);
      UnionStacks(a, log);
      UndoSides(log, colors, t);
    }
  }

  /** What `possible` and `getRow` read from a column word. */
  lemma WordsColumn(x: bv64, a: seq<bv64>, log: seq<int>, colors: seq<bool>, t: bool, col: int, s: int)
    requires 0 <= col < Width && 0 <= s < 8
    ensures Words(x, a, log, colors, t) ==>
      |a| == Width && Count(log, col) <= Height &&
      (Room(a[col], col) <==> Count(log, col) < Height) &&
      (Emptied(a[col], col, s) <==> Count(log, col) <= s)
  {
    if Words(x, a, log, colors, t) {
      ColumnOps(col, Count(log, col));
      ColumnEmptied(col, Count(log, col), s);
    }
  }

  /** What the probes of `exists` find in the words. */
  lemma WordsProbe(x: bv64, a: seq<bv64>, log: seq<int>, colors: seq<bool>, t: bool, col: int, row: int)
    requires 0 <= col < Width && 0 <= row <= Height
    ensures Words(x, a, log, colors, t) ==>
      (Hits(x, col, row) <==> Holds(Grid(log, colors)[col], row, t)) &&
      (Holds(Grid(log, colors)[col], row, t) || Holds(Grid(log, colors)[col], row, !t) <==> row < Count(log, col))
  {
    if Words(x, a, log, colors, t) {
      ProbeSide(log, colors, t, col, row);
      Occupied(log, colors, col, row);
    }
  }

  /** `posCurrent` of the words is the key word of the log. */
  lemma WordsKey(x: bv64, a: seq<bv64>, log: seq<int>, colors: seq<bool>, t: bool)
    ensures Words(x, a, log, colors, t) ==> |a| == Width && Key(x, a) == KeyWord(log, colors, t)
  {
    if Words(x, a, log, colors, t) {
      UnionStacks(a, log);
      PosBottomSum();
    }
  }

  /** The shift-and tests on the words find the lines of four of colour t. */
  lemma WordsConnect(x: bv64, a: seq<bv64>, log: seq<int>, colors: seq<bool>, t: bool)
    ensures Strides(Directions) && Strides(FlatDirections)
    ensures Words(x, a, log, colors, t) ==>
      (Connects(x, Directions) <==> Connected(Grid(log, colors), t)) &&
      (Connects(x, FlatDirections) <==> ConnectedFlat(Grid(log, colors), t))
  {
    StridesAre();
    if Words(x, a, log, colors, t) {
      MirrorSides(log, colors, t);
      SidesOnBoard(log, colors, t);
      GridShort(log, colors);
      ConnectsConnected(x, Grid(log, colors), t);
    }
  }

  // -----------------------------------------------------------------------
  // The words a game produces

  /** `posAll` after the moves of log, each a `put`. */
  function Columns(log: seq<int>): (a: seq<bv64>)
    requires Logged(log)
    ensures |a| == Width
    decreases |log|
  {
    if |log| == 0 then [0, 0, 0, 0, 0, 0, 0]
    else Columns(log[..|log| - 1])[log[|log| - 1] := PutWord(Columns(log[..|log| - 1])[log[|log| - 1]], log[|log| - 1])]
  }

  /**
   * `posOX` after the moves of log when it holds the colour t: a `put` of a
   * stone of colour t reverses the word of the other colour against the new
   * columns, and a stone of the other colour leaves it as it was.
   */
  function Stones(log: seq<int>, colors: seq<bool>, t: bool): bv64
    requires Logged(log) && |colors| == |log|
    decreases |log|
  {
    if |log| == 0 then 0
    else
      var n := |log| - 1;
      if colors[n] == t then Flip(Stones(log[..n], colors[..n], !t), Columns(log))
      else Stones(log[..n], colors[..n], t)
  }

  /** Every stone of one colour is a stone of the board: `posOX` lies inside `sum(posAll)`. */
  lemma StonesInside(log: seq<int>, colors: seq<bool>, t: bool)
    requires Legal(log) && |colors| == |log|
    ensures Subset(Stones(log, colors, t), Union(Columns(log)))
  {
    Played(log, colors, t);
    UnionStacks(Columns(log), log);
    ApartFlip(log, colors, t);
    PackSubset(Stack(Count(log, 0)), Stack(Count(log, 1)), Stack(Count(log, 2)), Stack(Count(log, 3)), Stack(Count(log, 4)), Stack(Count(log, 5)), Stack(Count(log, 6)),
               Side(log, colors, t, 0), Side(log, colors, t, 1), Side(log, colors, t, 2), Side(log, colors, t, 3), Side(log, colors, t, 4), Side(log, colors, t, 5), Side(log, colors, t, 6));
  }

  /** The words the moves produce are those of the stones they leave. */
  lemma {:induction false} Played(log: seq<int>, colors: seq<bool>, t: bool)
    requires Legal(log) && |colors| == |log|
    ensures Words(Stones(log, colors, t), Columns(log), log, colors, t)
    decreases |log|
  {
    if |log| == 0 {
      WordsEmpty(t);
    } else {
      var n := |log| - 1;
      var p, cp, col, c := log[..n], colors[..n], log[n], colors[n];
      assert log == p + [col] && colors == cp + [c];
      LegalPrefix(log);
      CountAppend(p, col, col);
      Played(p, cp, !c);
      var x, a := Stones(p, cp, !c), Columns(p)[col := PutWord(Columns(p)[col], col)];
      WordsPut(x, Columns(p), p, cp, !c, col);
      if t != c {
        WordsFlip(Flip(x, a), a, log, colors, c);
        FlipFlip(x, a);
        Played(p, cp, t);
      }
    }
  }
  /** The column words of a game are those of its log. */
  lemma {:induction false} ColumnsStacked(log: seq<int>)
    requires Legal(log)
    ensures Stacked(Columns(log), log)
    decreases |log|
  {
    if |log| == 0 {
      EmptyBoard(false);
    } else {
      var n := |log| - 1;
      var p, col := log[..n], log[n];
      assert log == p + [col];
      LegalPrefix(log);
      CountAppend(p, col, col);
      ColumnsStacked(p);
      StackedPut(Columns(p), p, col);
    }
  }

  /** One more `put`: the words of the longer log, as the source computes them. */
  lemma PutStones(log: seq<int>, colors: seq<bool>, t: bool, col: int)
    requires Legal(log) && |colors| == |log| && 0 <= col < Width && Count(log, col) < Height
    ensures Legal(log + [col])
    ensures Columns(log + [col]) == Columns(log)[col := PutWord(Columns(log)[col], col)]
    ensures Stones(log + [col], colors + [!t], !t) == Flip(Stones(log, colors, t), Columns(log + [col]))
  {
    LegalAppend(log, col);
    assert (log + [col])[..|log|] == log && (colors + [!t])[..|log|] == colors;
  }

  /** `undo` after a `put` of colour t: the words of the shorter log. */
  lemma UndoStones(log: seq<int>, colors: seq<bool>, t: bool)
    requires Legal(log) && |colors| == |log| && |log| > 0 && colors[|log| - 1] == t
    ensures Legal(log[..|log| - 1]) && 0 <= log[|log| - 1] < Width
    ensures Columns(log)[log[|log| - 1] := UndoWord(Columns(log)[log[|log| - 1]])] == Columns(log[..|log| - 1])
    ensures Flip(Stones(log, colors, t), Columns(log)) == Stones(log[..|log| - 1], colors[..|log| - 1], !t)
  {
    var n := |log| - 1;
    var p, col := log[..n], log[n];
    assert log == p + [col];
    LegalPrefix(log);
    CountAppend(p, col, col);
    ColumnsStacked(p);
    PutUndoAll(Columns(p), p, col);
    FlipFlip(Stones(p, colors[..n], !t), Columns(log));
  }

  /** `posReverse` of the stones of one colour gives those of the other. */
  lemma FlipStones(log: seq<int>, colors: seq<bool>, t: bool)
    requires Legal(log) && |colors| == |log|
    ensures Flip(Stones(log, colors, t), Columns(log)) == Stones(log, colors, !t)
  {
    Played(log, colors, t);
    Played(log, colors, !t);
    WordsFlip(Stones(log, colors, t), Columns(log), log, colors, t);
  }
  /** What `possible` and `getRow` read from the column words of a game. */
  lemma ColumnsRead(log: seq<int>, col: int, s: int)
    requires Legal(log) && 0 <= col < Width && 0 <= s < 8
    ensures Count(log, col) <= Height
    ensures Room(Columns(log)[col], col) <==> Count(log, col) < Height
    ensures Emptied(Columns(log)[col], col, s) <==> Count(log, col) <= s
  {
    ColumnsStacked(log);
    ColumnOps(col, Count(log, col));
    ColumnEmptied(col, Count(log, col), s);
  }

  /** What the probes of `exists` find in the stones of colour t. */
  lemma StonesProbe(log: seq<int>, colors: seq<bool>, t: bool, col: int, row: int)
    requires Legal(log) && |colors| == |log| && 0 <= col < Width && 0 <= row <= Height
    ensures Hits(Stones(log, colors, t), col, row) <==> Holds(Grid(log, colors)[col], row, t)
    ensures Holds(Grid(log, colors)[col], row, t) || Holds(Grid(log, colors)[col], row, !t) <==> row < Count(log, col)
  {
    Played(log, colors, t);
    WordsProbe(Stones(log, colors, t), Columns(log), log, colors, t, col, row);
  }

  /** `posCurrent` of a game is the key word of its log. */
  lemma StonesKey(log: seq<int>, colors: seq<bool>, t: bool)
    requires Legal(log) && |colors| == |log|
    ensures Key(Stones(log, colors, t), Columns(log)) == KeyWord(log, colors, t)
  {
    Played(log, colors, t);
    WordsKey(Stones(log, colors, t), Columns(log), log, colors, t);
  }

  /** Two games have the same key exactly when they leave the same words. */
  lemma StonesKeyInjective(log1: seq<int>, colors1: seq<bool>, t1: bool, log2: seq<int>, colors2: seq<bool>, t2: bool)
    requires Legal(log1) && |colors1| == |log1| && Legal(log2) && |colors2| == |log2|
    ensures KeyWord(log1, colors1, t1) == KeyWord(log2, colors2, t2) <==>
      Stones(log1, colors1, t1) == Stones(log2, colors2, t2) && Columns(log1) == Columns(log2)
  {
    StonesKey(log1, colors1, t1);
    StonesKey(log2, colors2, t2);
    if KeyWord(log1, colors1, t1) == KeyWord(log2, colors2, t2) {
      KeyInjective(log1, colors1, t1, log2, colors2, t2);
      Played(log1, colors1, t1);
      Played(log2, colors2, t2);
      StackedIs(Columns(log1), log1);
      StackedIs(Columns(log2), log2);
    }
  }

  /** The shift-and tests on the stones of colour t find its lines of four. */
  lemma StonesConnect(log: seq<int>, colors: seq<bool>, t: bool)
    requires Legal(log) && |colors| == |log|
    ensures Strides(Directions) && Strides(FlatDirections)
    ensures Connects(Stones(log, colors, t), Directions) <==> Connected(Grid(log, colors), t)
    ensures Connects(Stones(log, colors, t), FlatDirections) <==> ConnectedFlat(Grid(log, colors), t)
  {
    Played(log, colors, t);
    WordsConnect(Stones(log, colors, t), Columns(log), log, colors, t);
  }
  /** The loop of `getRow`: the row of the top stone in the word w of column c holding k stones. */
  method TopRow(w: bv64, c: int, ghost k: int) returns (row: int)
    requires 0 <= c < Width && 0 <= k <= Height && w == Column(c, k)
    ensures row == k - 1
  {
    row := -1;
    ColumnEmptied(c, k, 0);
    while !Emptied(w, c, row + 1)
      invariant -1 <= row < k
      invariant Emptied(w, c, row + 1) <==> k <= row + 1
      decreases k - row
    {
      row := row + 1;
      ColumnEmptied(c, k, row + 1);
    }
  }
}
