/**
 * The `Heuristic` class of heuristic.py: the pattern table and `evaluate`.
 *
 * `evaluate` walks every window of four cells on the board (section
 * Windows) and, when only one side has stones in the window, adds the
 * table's score for that side's pattern (the engine's side) or subtracts
 * it (the opponent's). `Score` states the same sum over the towers of
 * colours; `Heuristic.Evaluate` is proved to compute it.
 */
module Heuristics {
  import opened Bits
  import opened BoardState
  import opened Boards
  import opened Windows
  import opened Patterns

  // -----------------------------------------------------------------------
  // The scores

  /** `scoreO`: what a window holding 0..4 of the engine's stones and none of the opponent's is worth. */
  function ScoresO(player: int): (s: seq<int>)
    ensures |s| == 5
  {
    if player == 0 then [0, 2, 15, 32, 100000] else [0, 2, 16, 35, 100000]
  }

  /** `scoreX`: what a window holding 0..4 of the opponent's stones and none of the engine's costs. */
  function ScoresX(player: int): (s: seq<int>)
    ensures |s| == 5
  {
    if player == 0 then [0, 2, 15, 32, 100000] else [0, 2, 14, 30, 100000]
  }

  /**
   * The scores rise with the number of stones; moving first the engine
   * weighs both sides alike, moving second it favours its own patterns of
   * two and three stones.
   */
  lemma ScoresRise(player: int)
    ensures forall n :: 0 <= n < 4 ==> ScoresO(player)[n] < ScoresO(player)[n + 1]
    ensures forall n :: 0 <= n < 4 ==> ScoresX(player)[n] < ScoresX(player)[n + 1]
    ensures player == 0 ==> ScoresO(player) == ScoresX(player)
    ensures player != 0 ==> forall n :: 2 <= n <= 3 ==> ScoresO(player)[n] > ScoresX(player)[n]
  {}

  // -----------------------------------------------------------------------
  // The value of a position

  /**
   * What one window adds to the score when side O holds no of its cells
   * and side X holds nx: a pattern of one to three stones of one side with
   * none of the other's counts for that side; an empty window, a mixed one
   * and a full one count nothing.
   */
  function WindowValue(no: int, nx: int, sO: seq<int>, sX: seq<int>): int
    requires |sO| == 5 && |sX| == 5
  {
    if nx == 0 && 1 <= no <= 3 then sO[no]
    else if no == 0 && 1 <= nx <= 3 then -sX[nx]
    else 0
  }

  /** Window (j, c, r) of the towers g, with the side O of colour t. */
  function Value(g: seq<seq<bool>>, t: bool, sO: seq<int>, sX: seq<int>, j: int, c: int, r: int): int
    requires |g| == Width && |sO| == 5 && |sX| == 5 && Anchor(j, c, r)
  {
    WindowValue(Held(g, t, j, c, r), Held(g, !t, j, c, r), sO, sX)
  }

  /** The first r windows of kind j anchored in column c. */
  function RowSum(g: seq<seq<bool>>, t: bool, sO: seq<int>, sX: seq<int>, j: int, c: int, r: int): int
    requires |g| == Width && |sO| == 5 && |sX| == 5
    requires 0 <= j < 4 && 0 <= c < Across(j) && 0 <= r <= Up(j)
  {
    if r == 0 then 0 else RowSum(g, t, sO, sX, j, c, r - 1) + Value(g, t, sO, sX, j, c, r - 1)
  }

  /** The windows of kind j anchored in the first c columns. */
  function ColSum(g: seq<seq<bool>>, t: bool, sO: seq<int>, sX: seq<int>, j: int, c: int): int
    requires |g| == Width && |sO| == 5 && |sX| == 5
    requires 0 <= j < 4 && 0 <= c <= Across(j)
  {
    if c == 0 then 0 else ColSum(g, t, sO, sX, j, c - 1) + RowSum(g, t, sO, sX, j, c - 1, Up(j))
  }

  /** The windows of the first j kinds. */
  function KindSum(g: seq<seq<bool>>, t: bool, sO: seq<int>, sX: seq<int>, j: int): int
    requires |g| == Width && |sO| == 5 && |sX| == 5
    requires 0 <= j <= 4
  {
    if j == 0 then 0 else KindSum(g, t, sO, sX, j - 1) + ColSum(g, t, sO, sX, j - 1, Across(j - 1))
  }

  /** The heuristic value of the towers g for the side of colour t: the sum over every window. */
  function Score(g: seq<seq<bool>>, t: bool, sO: seq<int>, sX: seq<int>): int
    requires |g| == Width && |sO| == 5 && |sX| == 5
  {
    KindSum(g, t, sO, sX, 4)
  }

  // -----------------------------------------------------------------------
  // What the value means

  /** Seen from the other side, with the tables swapped, a window is worth the opposite. */
  lemma WindowOpposite(no: int, nx: int, sO: seq<int>, sX: seq<int>)
    requires |sO| == 5 && |sX| == 5
    ensures WindowValue(nx, no, sX, sO) == -WindowValue(no, nx, sO, sX)
  {}

  lemma {:induction false} RowOpposite(g: seq<seq<bool>>, t: bool, sO: seq<int>, sX: seq<int>, j: int, c: int, r: int)
    requires |g| == Width && |sO| == 5 && |sX| == 5
    requires 0 <= j < 4 && 0 <= c < Across(j) && 0 <= r <= Up(j)
    ensures RowSum(g, !t, sX, sO, j, c, r) == -RowSum(g, t, sO, sX, j, c, r)
  {
    if r > 0 {
      RowOpposite(g, t, sO, sX, j, c, r - 1);
      WindowOpposite(Held(g, t, j, c, r - 1), Held(g, !t, j, c, r - 1), sO, sX);
    }
  }

  lemma {:induction false} ColOpposite(g: seq<seq<bool>>, t: bool, sO: seq<int>, sX: seq<int>, j: int, c: int)
    requires |g| == Width && |sO| == 5 && |sX| == 5
    requires 0 <= j < 4 && 0 <= c <= Across(j)
    ensures ColSum(g, !t, sX, sO, j, c) == -ColSum(g, t, sO, sX, j, c)
  {
    if c > 0 {
      ColOpposite(g, t, sO, sX, j, c - 1);
      RowOpposite(g, t, sO, sX, j, c - 1, Up(j));
    }
  }

  lemma {:induction false} KindOpposite(g: seq<seq<bool>>, t: bool, sO: seq<int>, sX: seq<int>, j: int)
    requires |g| == Width && |sO| == 5 && |sX| == 5
    requires 0 <= j <= 4
    ensures KindSum(g, !t, sX, sO, j) == -KindSum(g, t, sO, sX, j)
  {
    if j > 0 {
      KindOpposite(g, t, sO, sX, j - 1);
      ColOpposite(g, t, sO, sX, j - 1, Across(j - 1));
    }
  }

  /** The value is zero-sum: the other side, scoring with the swapped tables, values the board at the opposite. */
  lemma ScoreOpposite(g: seq<seq<bool>>, t: bool, sO: seq<int>, sX: seq<int>)
    requires |g| == Width && |sO| == 5 && |sX| == 5
    ensures Score(g, !t, sX, sO) == -Score(g, t, sO, sX)
  {
    KindOpposite(g, t, sO, sX, 4);
  }

  /** Towers with no stones. */
  predicate Bare(g: seq<seq<bool>>)
  {
    forall c :: 0 <= c < |g| ==> g[c] == []
  }

  lemma {:induction false} RowBare(g: seq<seq<bool>>, t: bool, sO: seq<int>, sX: seq<int>, j: int, c: int, r: int)
    requires |g| == Width && |sO| == 5 && |sX| == 5 && Bare(g)
    requires 0 <= j < 4 && 0 <= c < Across(j) && 0 <= r <= Up(j)
    ensures RowSum(g, t, sO, sX, j, c, r) == 0
  {
    if r > 0 {
      RowBare(g, t, sO, sX, j, c, r - 1);
      assert Held(g, t, j, c, r - 1) == 0 && Held(g, !t, j, c, r - 1) == 0;
    }
  }

  lemma {:induction false} ColBare(g: seq<seq<bool>>, t: bool, sO: seq<int>, sX: seq<int>, j: int, c: int)
    requires |g| == Width && |sO| == 5 && |sX| == 5 && Bare(g)
    requires 0 <= j < 4 && 0 <= c <= Across(j)
    ensures ColSum(g, t, sO, sX, j, c) == 0
  {
    if c > 0 {
      ColBare(g, t, sO, sX, j, c - 1);
      RowBare(g, t, sO, sX, j, c - 1, Up(j));
    }
  }

  lemma {:induction false} KindBare(g: seq<seq<bool>>, t: bool, sO: seq<int>, sX: seq<int>, j: int)
    requires |g| == Width && |sO| == 5 && |sX| == 5 && Bare(g)
    requires 0 <= j <= 4
    ensures KindSum(g, t, sO, sX, j) == 0
  {
    if j > 0 {
      KindBare(g, t, sO, sX, j - 1);
      ColBare(g, t, sO, sX, j - 1, Across(j - 1));
    }
  }

  /** The empty board is worth nothing. */
  lemma ScoreBare(g: seq<seq<bool>>, t: bool, sO: seq<int>, sX: seq<int>)
    requires |g| == Width && |sO| == 5 && |sX| == 5 && Bare(g)
    ensures Score(g, t, sO, sX) == 0
  {
    KindBare(g, t, sO, sX, 4);
  }

  // -----------------------------------------------------------------------
  // One window of the walk

  /**
   * What `evaluate` adds to the score for the window under the mask: the
   * engine's entry when the window holds only its stones and their pattern
   * is in its table, else minus the opponent's entry on the same terms,
   * else nothing.
   */
  function Gain(a: bv64, o: bv64, x: bv64, mask: bv64, shift: bv64, mO: map<int, int>, mX: map<int, int>): int
    requires shift < 64
  {
    if Same(a, o, mask) && WinKey(o, mask, shift) as int in mO then mO[WinKey(o, mask, shift) as int]
    else if Same(a, x, mask) && WinKey(x, mask, shift) as int in mX then -mX[WinKey(x, mask, shift) as int]
    else 0
  }

  lemma Side0(w: bv64, g: seq<seq<bool>>, t: bool, j: int, c: int, r: int, mask: bv64, shift: bv64, m: map<int, int>, s: seq<int>)
    requires j == 0 && Anchor(j, c, r) && shift == Shift(c, r) && mask == Lift(Mask(j), shift) && Marks(w, g, t) && Scored(m, s)
    ensures WinKey(w, mask, shift) as int in m <==> 1 <= Held(g, t, j, c, r) <= 3
    ensures WinKey(w, mask, shift) as int in m ==> m[WinKey(w, mask, shift) as int] == s[Held(g, t, j, c, r)]
  {
    Keys0(w, g, t, j, c, r, mask, shift);
    Table0(m, s, j, WinKey(w, mask, shift));
  }

  lemma Side1(w: bv64, g: seq<seq<bool>>, t: bool, j: int, c: int, r: int, mask: bv64, shift: bv64, m: map<int, int>, s: seq<int>)
    requires j == 1 && Anchor(j, c, r) && shift == Shift(c, r) && mask == Lift(Mask(j), shift) && Marks(w, g, t) && Scored(m, s)
    ensures WinKey(w, mask, shift) as int in m <==> 1 <= Held(g, t, j, c, r) <= 3
    ensures WinKey(w, mask, shift) as int in m ==> m[WinKey(w, mask, shift) as int] == s[Held(g, t, j, c, r)]
  {
    Keys1(w, g, t, j, c, r, mask, shift);
    Table1(m, s, j, WinKey(w, mask, shift));
  }

  lemma Side2(w: bv64, g: seq<seq<bool>>, t: bool, j: int, c: int, r: int, mask: bv64, shift: bv64, m: map<int, int>, s: seq<int>)
    requires j == 2 && Anchor(j, c, r) && shift == Shift(c, r) && mask == Lift(Mask(j), shift) && Marks(w, g, t) && Scored(m, s)
    ensures WinKey(w, mask, shift) as int in m <==> 1 <= Held(g, t, j, c, r) <= 3
    ensures WinKey(w, mask, shift) as int in m ==> m[WinKey(w, mask, shift) as int] == s[Held(g, t, j, c, r)]
  {
    Keys2(w, g, t, j, c, r, mask, shift);
    Table2(m, s, j, WinKey(w, mask, shift));
  }

  lemma Side3(w: bv64, g: seq<seq<bool>>, t: bool, j: int, c: int, r: int, mask: bv64, shift: bv64, m: map<int, int>, s: seq<int>)
    requires j == 3 && Anchor(j, c, r) && shift == Shift(c, r) && mask == Lift(Mask(j), shift) && Marks(w, g, t) && Scored(m, s)
    ensures WinKey(w, mask, shift) as int in m <==> 1 <= Held(g, t, j, c, r) <= 3
    ensures WinKey(w, mask, shift) as int in m ==> m[WinKey(w, mask, shift) as int] == s[Held(g, t, j, c, r)]
  {
    Keys3(w, g, t, j, c, r, mask, shift);
    Table3(m, s, j, WinKey(w, mask, shift));
  }

  /**
   * One side's stones in a window of the walk: its key is in the table
   * exactly when it holds one to three of the window's cells, the table
   * gives the score of that many stones.
   */
  lemma Side(w: bv64, g: seq<seq<bool>>, t: bool, j: int, c: int, r: int, mask: bv64, shift: bv64, m: map<int, int>, s: seq<int>)
    requires Placed(j, c, r, mask, shift) && Marks(w, g, t) && Scored(m, s)
    ensures WinKey(w, mask, shift) as int in m <==> 1 <= Held(g, t, j, c, r) <= 3
    ensures WinKey(w, mask, shift) as int in m ==> m[WinKey(w, mask, shift) as int] == s[Held(g, t, j, c, r)]
  {
    if j == 0 {
      Side0(w, g, t, j, c, r, mask, shift, m, s);
    } else if j == 1 {
      Side1(w, g, t, j, c, r, mask, shift, m, s);
    } else if j == 2 {
      Side2(w, g, t, j, c, r, mask, shift, m, s);
    } else {
      Side3(w, g, t, j, c, r, mask, shift, m, s);
    }
  }

  /** The mask and shift of window (j, c, r) in the walk of `evaluate`. */
  predicate Placed(j: int, c: int, r: int, mask: bv64, shift: bv64)
  {
    Anchor(j, c, r) && shift == Shift(c, r) && mask == Lift(Mask(j), shift)
  }

  /** The stones a split into o, those of colour t in the towers g, and x, the rest. */
  ghost predicate Parted(a: bv64, o: bv64, x: bv64, g: seq<seq<bool>>, t: bool)
  {
    Marks(o, g, t) && Marks(x, g, !t) && Subset(o, a) && x == Sub(a, o)
  }

  /** Every window of the walk splits the stones of a into o's and x's. */
  lemma Cut(a: bv64, o: bv64, x: bv64, j: int, c: int, r: int, mask: bv64, shift: bv64)
    requires Placed(j, c, r, mask, shift)
    ensures Splits(a, o, x, mask)
  {
    if j == 0 {
      Cuts0(a, o, x, j, c, r, mask, shift);
    } else if j == 1 {
      Cuts1(a, o, x, j, c, r, mask, shift);
    } else if j == 2 {
      Cuts2(a, o, x, j, c, r, mask, shift);
    } else {
      Cuts3(a, o, x, j, c, r, mask, shift);
    }
  }

  /** A word's stones in a window of the walk: the masked word is 0 exactly when it holds none of the window's cells. */
  lemma Empty(w: bv64, g: seq<seq<bool>>, t: bool, j: int, c: int, r: int, mask: bv64, shift: bv64)
    requires Placed(j, c, r, mask, shift) && Marks(w, g, t)
    ensures w & mask == 0 <==> Held(g, t, j, c, r) == 0
  {
    if j == 0 {
      Keys0(w, g, t, j, c, r, mask, shift);
    } else if j == 1 {
      Keys1(w, g, t, j, c, r, mask, shift);
    } else if j == 2 {
      Keys2(w, g, t, j, c, r, mask, shift);
    } else {
      Keys3(w, g, t, j, c, r, mask, shift);
    }
  }

  /** The window holds only o's stones exactly when it holds none of x's, and the other way round. */
  lemma Cover(a: bv64, o: bv64, x: bv64, g: seq<seq<bool>>, t: bool, j: int, c: int, r: int, mask: bv64, shift: bv64)
    requires Placed(j, c, r, mask, shift) && Parted(a, o, x, g, t)
    ensures Same(a, o, mask) <==> Held(g, !t, j, c, r) == 0
    ensures Same(a, x, mask) <==> Held(g, t, j, c, r) == 0
  {
    Empty(o, g, t, j, c, r, mask, shift);
    Empty(x, g, !t, j, c, r, mask, shift);
    Cut(a, o, x, j, c, r, mask, shift);
  }

  /** What the tables and the window masks say about window (j, c, r) of the towers g. */
  lemma Known(a: bv64, o: bv64, x: bv64, g: seq<seq<bool>>, t: bool, j: int, c: int, r: int, mask: bv64, shift: bv64,
              mO: map<int, int>, mX: map<int, int>, sO: seq<int>, sX: seq<int>)
    requires Placed(j, c, r, mask, shift) && Parted(a, o, x, g, t)
    requires Scored(mO, sO) && Scored(mX, sX)
    ensures Same(a, o, mask) <==> Held(g, !t, j, c, r) == 0
    ensures Same(a, x, mask) <==> Held(g, t, j, c, r) == 0
    ensures WinKey(o, mask, shift) as int in mO <==> 1 <= Held(g, t, j, c, r) <= 3
    ensures WinKey(o, mask, shift) as int in mO ==> mO[WinKey(o, mask, shift) as int] == sO[Held(g, t, j, c, r)]
    ensures WinKey(x, mask, shift) as int in mX <==> 1 <= Held(g, !t, j, c, r) <= 3
    ensures WinKey(x, mask, shift) as int in mX ==> mX[WinKey(x, mask, shift) as int] == sX[Held(g, !t, j, c, r)]
  {
    Cover(a, o, x, g, t, j, c, r, mask, shift);
    Side(o, g, t, j, c, r, mask, shift, mO, sO);
    Side(x, g, !t, j, c, r, mask, shift, mX, sX);
  }

  /** What `evaluate` adds for a window is the window's value. */
  lemma WindowGain(a: bv64, o: bv64, x: bv64, g: seq<seq<bool>>, t: bool, j: int, c: int, r: int, mask: bv64, shift: bv64,
                   mO: map<int, int>, mX: map<int, int>, sO: seq<int>, sX: seq<int>)
    requires Placed(j, c, r, mask, shift) && Parted(a, o, x, g, t)
    requires Scored(mO, sO) && Scored(mX, sX)
    ensures Gain(a, o, x, mask, shift, mO, mX) == Value(g, t, sO, sX, j, c, r)
  {
    Known(a, o, x, g, t, j, c, r, mask, shift, mO, mX, sO, sX);
  }

  // -----------------------------------------------------------------------
  // The walk of `evaluate`

  /** `mask <<= 1; shift += 1`: the step to the next anchor row keeps mask and shift on the window. */
  lemma RowStep(j: int, c: int, r: int, mask: bv64, shift: bv64)
    requires Placed(j, c, r, mask, shift)
    ensures shift + 1 == Shift(c, r + 1) && Lift(mask, 1) == Lift(Mask(j), shift + 1)
  {
    LiftMore(Mask(j), shift, 1);
    ShiftNext(c, r);
  }

  /** The step to the next anchor column: 1 more for horizontal windows, 4 more for the others. */
  lemma ColStep(j: int, c: int, mask: bv64, shift: bv64, d: bv64)
    requires 0 <= j < 4 && 0 <= c < Across(j) && shift == Shift(c, Up(j)) && mask == Lift(Mask(j), shift)
    requires d == if j == 0 then 1 else 4
    ensures c + 1 < Across(j) ==> shift + d == Shift(c + 1, 0) && Lift(mask, d) == Lift(Mask(j), shift + d)
  {
    if j == 0 {
      ColStepBy(Mask(j), c, Height, mask, shift, 1);
    } else {
      ColStepBy(Mask(j), c, Height - 3, mask, shift, 4);
    }
  }

  lemma ColStepBy(m: bv64, c: int, u: int, mask: bv64, shift: bv64, d: bv64)
    requires 0 <= c < Width && ((u == Height && d == 1) || (u == Height - 3 && d == 4))
    requires shift == Shift(c, u) && mask == Lift(m, shift)
    ensures c + 1 < Width ==> shift + d == Shift(c + 1, 0) && Lift(mask, d) == Lift(m, shift + d)
  {
    ShiftBelow(c, u);
    LiftMore(m, shift, d);
    if c + 1 < Width {
      ShiftColumn(c, u, d);
    }
  }

  /** The cells of colour t are those the log gives them. */
  lemma MarksStones(x: bv64, log: seq<int>, colors: seq<bool>, t: bool)
    requires Legal(log) && |colors| == |log| && x == Stones(log, colors, t)
    ensures Marks(x, Grid(log, colors), t)
  {
    forall c, r | 0 <= c < Width && 0 <= r < Height
      ensures Agrees(x, Grid(log, colors), t, c, r)
    {
      StonesProbe(log, colors, t, c, r);
      CellProbe(x, c, r);
      ShiftCell(c, r);
    }
  }

  /** The words `evaluate` starts from: every stone, those of colour t and the rest. */
  lemma Parting(log: seq<int>, colors: seq<bool>, t: bool)
    requires Legal(log) && |colors| == |log|
    ensures Parted(Union(Columns(log)), Stones(log, colors, t), Flip(Stones(log, colors, t), Columns(log)), Grid(log, colors), t)
  {
    MarksStones(Stones(log, colors, t), log, colors, t);
    FlipStones(log, colors, t);
    MarksStones(Stones(log, colors, !t), log, colors, !t);
    StonesInside(log, colors, t);
  }

  // -----------------------------------------------------------------------
  // Filling the tables

  /** After `patternSetting` on the table m0, at word k: the keys are added with the score of their weight, every other entry is kept. */
  ghost predicate Refill(m: map<int, int>, m0: map<int, int>, s: seq<int>, k: bv64)
    requires |s| == 5
  {
    (k as int in m <==> k as int in m0 || IsKey(k))
    && (k as int in m ==> m[k as int] == if IsKey(k) then s[Weight(k)] else m0[k as int])
  }

  /** Nothing but words is added to the table m0. */
  ghost predicate Added(m: map<int, int>, m0: map<int, int>, n: int)
  {
    n in m ==> n in m0 || 0 <= n < WordRange
  }

  /** Part way through `patternSetting`: the keys in done are written, every other entry is kept. */
  ghost predicate Step(m: map<int, int>, m0: map<int, int>, s: seq<int>, done: set<bv64>, k: bv64)
    requires |s| == 5
  {
    (k as int in m <==> k as int in m0 || k in done)
    && (k in done ==> IsKey(k) && m[k as int] == s[Weight(k)])
    && (k as int in m && k !in done ==> m[k as int] == m0[k as int])
  }

  /** The table m is part way through `patternSetting` from m0, with the keys in done written. */
  ghost predicate Stepped(m: map<int, int>, m0: map<int, int>, s: seq<int>, done: set<bv64>)
    requires |s| == 5
  {
    (forall k :: Step(m, m0, s, done, k)) && (forall n :: Added(m, m0, n))
  }

  /** Writing a key with the score of its weight keeps the table in step. */
  lemma StepPut(m: map<int, int>, m2: map<int, int>, m0: map<int, int>, s: seq<int>, done: set<bv64>, done2: set<bv64>, key: bv64, r: int)
    requires |s| == 5 && IsKey(key) && Weight(key) == r
    requires m2 == m[key as int := s[r]] && done2 == done + {key}
    requires Stepped(m, m0, s, done)
    ensures Stepped(m2, m0, s, done2)
  {
    StepKeys(m, m2, m0, s, done, done2, key, r);
    StepAdded(m, m2, m0, key, s[r]);
  }

  lemma StepKeys(m: map<int, int>, m2: map<int, int>, m0: map<int, int>, s: seq<int>, done: set<bv64>, done2: set<bv64>, key: bv64, r: int)
    requires |s| == 5 && IsKey(key) && Weight(key) == r
    requires m2 == m[key as int := s[r]] && done2 == done + {key}
    requires forall k :: Step(m, m0, s, done, k)
    ensures forall k :: Step(m2, m0, s, done2, k)
  {
    forall k
      ensures Step(m2, m0, s, done2, k)
    {
      StepAt(m, m2, m0, s, done, done2, key, r, k);
    }
  }

  lemma StepAdded(m: map<int, int>, m2: map<int, int>, m0: map<int, int>, key: bv64, v: int)
    requires m2 == m[key as int := v]
    requires forall n :: Added(m, m0, n)
    ensures forall n :: Added(m2, m0, n)
  {
    forall n
      ensures Added(m2, m0, n)
    {
      assert Added(m, m0, n);
    }
  }

  /** Writing a key keeps word k in step. */
  lemma StepAt(m: map<int, int>, m2: map<int, int>, m0: map<int, int>, s: seq<int>, done: set<bv64>, done2: set<bv64>, key: bv64, r: int, k: bv64)
    requires |s| == 5 && IsKey(key) && Weight(key) == r
    requires m2 == m[key as int := s[r]] && done2 == done + {key}
    requires Step(m, m0, s, done, k)
    ensures Step(m2, m0, s, done2, k)
  {
    if k != key {
      StepOther(m, m2, m0, s, done, done2, key, s[r], k);
    }
  }

  /** Writing a key keeps every other word in step. */
  lemma StepOther(m: map<int, int>, m2: map<int, int>, m0: map<int, int>, s: seq<int>, done: set<bv64>, done2: set<bv64>, key: bv64, v: int, k: bv64)
    requires |s| == 5 && k != key
    requires m2 == m[key as int := v] && done2 == done + {key}
    requires Step(m, m0, s, done, k)
    ensures Step(m2, m0, s, done2, k)
  {
    Distinct(k, key);
  }

  /** Different words have different integer values. */
  lemma Distinct(a: bv64, b: bv64)
    requires a != b
    ensures a as int != b as int
  {
    if a as int == b as int {
      SameValue(a, b);
    }
  }

  /** Nothing is written yet. */
  lemma StepStart(m: map<int, int>, s: seq<int>)
    requires |s| == 5
    ensures Stepped(m, m, s, {})
  {
    forall k
      ensures Step(m, m, s, {}, k)
    {}
    forall n
      ensures Added(m, m, n)
    {}
  }

  /** Once every key is written, the table is refilled. */
  lemma StepDone(m: map<int, int>, m0: map<int, int>, s: seq<int>, done: set<bv64>)
    requires |s| == 5
    requires Stepped(m, m0, s, done) && WrotePatterns(done, 4)
    ensures forall k :: Refill(m, m0, s, k)
    ensures forall n :: Added(m, m0, n)
  {
    forall k
      ensures Refill(m, m0, s, k)
    {
      assert Step(m, m0, s, done, k);
      if IsKey(k) {
        assert SubPattern(k, Home(k));
      }
    }
  }

  /** The sums of the first n combinations are written. */
  ghost predicate Wrote(done: set<bv64>, combs: seq<seq<bv64>>, n: int)
    requires 0 <= n <= |combs|
  {
    forall i :: 0 <= i < n ==> Sum(combs[i]) in done
  }

  /** The sums of the combinations of pat of every size below r are written. */
  ghost predicate WroteSizes(done: set<bv64>, pat: seq<bv64>, r: int)
  {
    forall q, i :: 1 <= q < r && 0 <= i < |Choose(pat, q)| ==> Sum(Choose(pat, q)[i]) in done
  }

  /** The keys of the first j base patterns are written. */
  ghost predicate WrotePatterns(done: set<bv64>, j: int)
  {
    forall i, k :: 0 <= i < j && 0 <= i < 4 && SubPattern(k, i) ==> k in done
  }

  /** Writing the sum of the next combination. */
  lemma WriteNext(done: set<bv64>, pat: seq<bv64>, r: int, combs: seq<seq<bv64>>, n: int, j: int, key: bv64)
    requires r >= 1 && combs == Choose(pat, r) && 0 <= n < |combs| && key == Sum(combs[n])
    requires Wrote(done, combs, n) && WroteSizes(done, pat, r) && WrotePatterns(done, j)
    ensures Wrote(done + {key}, combs, n + 1) && WroteSizes(done + {key}, pat, r) && WrotePatterns(done + {key}, j)
  {}

  /** Every combination of size r written, the next size starts. */
  lemma WriteSize(done: set<bv64>, pat: seq<bv64>, r: int)
    requires r >= 1 && Wrote(done, Choose(pat, r), |Choose(pat, r)|) && WroteSizes(done, pat, r)
    ensures WroteSizes(done, pat, r + 1)
  {
    forall q, i | 1 <= q < r + 1 && 0 <= i < |Choose(pat, q)|
      ensures Sum(Choose(pat, q)[i]) in done
    {
      if q == r {
        assert Sum(Choose(pat, r)[i]) in done;
      }
    }
  }

  /** Every combination of pattern j written, its keys are written. */
  lemma WritePattern(done: set<bv64>, j: int)
    requires 0 <= j < 4 && WroteSizes(done, Windows.Pattern(j), 4) && WrotePatterns(done, j)
    ensures WrotePatterns(done, j + 1)
  {
    Complete(done, j);
  }

  /** Refilling an empty table gives exactly the filled table of the scores. */
  lemma RefillEmpty(m: map<int, int>, m0: map<int, int>, s: seq<int>)
    requires |s| == 5 && m0 == map[]
    requires forall k :: Refill(m, m0, s, k)
    requires forall n :: Added(m, m0, n)
    ensures Scored(m, s)
  {
    forall k
      ensures Entry(m, s, k)
    {
      assert Refill(m, m0, s, k);
    }
    forall n | n in m
      ensures 0 <= n < WordRange
    {
      assert Added(m, m0, n);
    }
  }

  // -----------------------------------------------------------------------
  // The class

  /**
   * `Heuristic`: a board with the two pattern tables. The source derives
   * it from `Board`; here it holds its board.
   */
  class Heuristic {
    const board: Board
    const scoreO: seq<int>
    const scoreX: seq<int>
    var patMatchO: map<int, int>
    var patMatchX: map<int, int>

    /** The board is valid, the scores are those of the engine's turn and the tables are filled from them. */
    ghost predicate Valid()
      reads this, board
    {
      board.Valid() && scoreO == ScoresO(board.player) && scoreX == ScoresX(board.player)
      && Scored(patMatchO, scoreO) && Scored(patMatchX, scoreX)
    }

    constructor(player: int)
      ensures Valid() && fresh(board) && board.Alternating()
      ensures board.player == player && board.log == [] && !board.neverSymmetry
    {
      board := new Board(player);
      scoreO := ScoresO(player);
      scoreX := ScoresX(player);
      patMatchO := map[];
      patMatchX := map[];
      new;
      ghost var emptyO, emptyX := patMatchO, patMatchX;
      PatternSetting();
      RefillEmpty(patMatchO, emptyO, scoreO);
      RefillEmpty(patMatchX, emptyX, scoreX);
    }

    /**
     * `patternSetting`: for each base pattern and r = 1, 2, 3, every
     * combination of r of its bits is entered in both tables with the score
     * of r stones.
     */
    method PatternSetting()
      requires |scoreO| == 5 && |scoreX| == 5
      modifies this
      ensures forall k :: Refill(patMatchO, old(patMatchO), scoreO, k)
      ensures forall k :: Refill(patMatchX, old(patMatchX), scoreX, k)
      ensures forall n :: Added(patMatchO, old(patMatchO), n) && Added(patMatchX, old(patMatchX), n)
    {
      ghost var done: set<bv64> := {};
      StepStart(patMatchO, scoreO);
      StepStart(patMatchX, scoreX);
      for j := 0 to 4
        invariant Stepped(patMatchO, old(patMatchO), scoreO, done) && Stepped(patMatchX, old(patMatchX), scoreX, done)
        invariant WrotePatterns(done, j)
      {
        var pat := Windows.Pattern(j);
        for r := 1 to 4
          invariant Stepped(patMatchO, old(patMatchO), scoreO, done) && Stepped(patMatchX, old(patMatchX), scoreX, done)
          invariant WrotePatterns(done, j) && WroteSizes(done, pat, r)
        {
          var combs := Choose(pat, r);
          for n := 0 to |combs|
            invariant Stepped(patMatchO, old(patMatchO), scoreO, done) && Stepped(patMatchX, old(patMatchX), scoreX, done)
            invariant WrotePatterns(done, j) && WroteSizes(done, pat, r) && Wrote(done, combs, n)
          {
            var key := Sum(combs[n]);
            Written(j, r, n);
            ghost var mO, mX := patMatchO, patMatchX;
            patMatchO := patMatchO[key as int := scoreO[r]];
            patMatchX := patMatchX[key as int := scoreX[r]];
            StepPut(mO, patMatchO, old(patMatchO), scoreO, done, done + {key}, key, r);
            StepPut(mX, patMatchX, old(patMatchX), scoreX, done, done + {key}, key, r);
            WriteNext(done, pat, r, combs, n, j, key);
            done := done + {key};
          }
          WriteSize(done, pat, r);
        }
        WritePattern(done, j);
      }
      StepDone(patMatchO, old(patMatchO), scoreO, done);
      StepDone(patMatchX, old(patMatchX), scoreX, done);
    }

    /**
     * The colour `evaluate` scores for: that of 'O' (see `Board.OColor`),
     * except that when 'O' is the side of `posOX` and `posOX` is empty,
     * `and`/`or` falls through to the other side.
     */
    ghost function Credited(): (t: bool)
      reads board
      ensures board.posOX != 0 ==> t == board.OColor()
      ensures board.posOX == 0 && board.moves % 2 != board.player ==> t != board.OColor()
    {
      if board.moves % 2 != board.player && board.posOX != 0 then board.top else !board.top
    }

    /**
     * `evaluate`: the sum, over every window of four cells, of the score of
     * the credited side's pattern when the window holds only its stones,
     * minus the other side's when it holds only theirs.
     */
    method Evaluate() returns (score: int)
      requires Valid()
      ensures score == Score(board.Towers(), Credited(), scoreO, scoreX)
    {
      ghost var g := board.Towers();
      ghost var t := Credited();
      var posA := Union(board.posAll);
      var posO := if board.moves % 2 != board.player && board.posOX != 0 then board.posOX else Flip(board.posOX, board.posAll);
      var posX := Sub(posA, posO);
      FlipStones(board.log, board.colors, board.top);
      Parting(board.log, board.colors, t);
      score := 0;
      for j := 0 to 4
        invariant score == KindSum(g, t, scoreO, scoreX, j)
      {
        var kind := KindScore(posA, posO, posX, j, patMatchO, patMatchX, g, t, scoreO, scoreX);
        score := score + kind;
      }
    }
  }

  /**
   * One pass of the outer loop of `evaluate`: the windows of kind j, column
   * by column and row by row, the mask and the shift moving with the window.
   */
  method KindScore(posA: bv64, posO: bv64, posX: bv64, j: int, patMatchO: map<int, int>, patMatchX: map<int, int>,
                   ghost g: seq<seq<bool>>, ghost t: bool, ghost scoreO: seq<int>, ghost scoreX: seq<int>) returns (score: int)
    requires 0 <= j < 4 && Parted(posA, posO, posX, g, t) && Scored(patMatchO, scoreO) && Scored(patMatchX, scoreX)
    ensures score == ColSum(g, t, scoreO, scoreX, j, Across(j))
  {
    var pat := Windows.Pattern(j);
    var mask := Sum(pat);
    var shift: bv64 := 0;
    Start(j, mask, shift);
    score := 0;
    var c := 0;
    while c < Across(j)
      invariant 0 <= c <= Across(j)
      invariant c < Across(j) ==> Walk(j, c, 0, mask, shift)
      invariant score == ColSum(g, t, scoreO, scoreX, j, c)
    {
      var sum;
      sum, mask, shift := ColumnScore(posA, posO, posX, j, c, mask, shift, patMatchO, patMatchX, g, t, scoreO, scoreX);
      ColAdd(g, t, scoreO, scoreX, j, c, sum);
      score := score + sum;
      var d: bv64 := if j == 0 then 1 else 4;
      ColNext(j, c, mask, shift, d);
      mask := Lift(mask, d);
      shift := shift + d;
      c := c + 1;
    }
  }

  /** One more window extends the row sum. */
  lemma RowAdd(g: seq<seq<bool>>, t: bool, sO: seq<int>, sX: seq<int>, j: int, c: int, r: int, gain: int)
    requires |g| == Width && |sO| == 5 && |sX| == 5 && Anchor(j, c, r) && gain == Value(g, t, sO, sX, j, c, r)
    ensures RowSum(g, t, sO, sX, j, c, r + 1) == RowSum(g, t, sO, sX, j, c, r) + gain
  {}

  /** One more column extends the column sum. */
  lemma ColAdd(g: seq<seq<bool>>, t: bool, sO: seq<int>, sX: seq<int>, j: int, c: int, sum: int)
    requires |g| == Width && |sO| == 5 && |sX| == 5 && 0 <= j < 4 && 0 <= c < Across(j)
    requires sum == RowSum(g, t, sO, sX, j, c, Up(j))
    ensures ColSum(g, t, sO, sX, j, c + 1) == ColSum(g, t, sO, sX, j, c) + sum
  {}

  /** The inner loop of `evaluate`: the windows of kind j anchored in column c, bottom to top. */
  method ColumnScore(posA: bv64, posO: bv64, posX: bv64, j: int, c: int, mask: bv64, shift: bv64,
                     patMatchO: map<int, int>, patMatchX: map<int, int>,
                     ghost g: seq<seq<bool>>, ghost t: bool, ghost scoreO: seq<int>, ghost scoreX: seq<int>)
    returns (score: int, endMask: bv64, endShift: bv64)
    requires Walk(j, c, 0, mask, shift) && Parted(posA, posO, posX, g, t) && Scored(patMatchO, scoreO) && Scored(patMatchX, scoreX)
    ensures Walk(j, c, Up(j), endMask, endShift)
    ensures score == RowSum(g, t, scoreO, scoreX, j, c, Up(j))
  {
    score, endMask, endShift := 0, mask, shift;
    var r := 0;
    while r < Up(j)
      invariant Walk(j, c, r, endMask, endShift)
      invariant score == RowSum(g, t, scoreO, scoreX, j, c, r)
    {
      RowNext(j, c, r, endMask, endShift);
      var gain := WindowScore(posA, posO, posX, endMask, endShift, patMatchO, patMatchX, g, t, j, c, r, scoreO, scoreX);
      RowAdd(g, t, scoreO, scoreX, j, c, r, gain);
      score := score + gain;
      endMask := Lift(endMask, 1);
      endShift := endShift + 1;
      r := r + 1;
    }
  }

  /**
   * The body of the inner loop of `evaluate`: a window holding only the
   * engine's stones scores its entry, one holding only the opponent's
   * scores minus the opponent's entry, else nothing.
   */
  method WindowScore(posA: bv64, posO: bv64, posX: bv64, mask: bv64, shift: bv64, patMatchO: map<int, int>, patMatchX: map<int, int>,
                     ghost g: seq<seq<bool>>, ghost t: bool, ghost j: int, ghost c: int, ghost r: int,
                     ghost scoreO: seq<int>, ghost scoreX: seq<int>) returns (gain: int)
    requires Placed(j, c, r, mask, shift) && Parted(posA, posO, posX, g, t)
    requires Scored(patMatchO, scoreO) && Scored(patMatchX, scoreX)
    ensures gain == Value(g, t, scoreO, scoreX, j, c, r)
  {
    WindowGain(posA, posO, posX, g, t, j, c, r, mask, shift, patMatchO, patMatchX, scoreO, scoreX);
    gain := 0;
    if Same(posA, posO, mask) && WinKey(posO, mask, shift) as int in patMatchO {
      gain := patMatchO[WinKey(posO, mask, shift) as int];
    } else if Same(posA, posX, mask) && WinKey(posX, mask, shift) as int in patMatchX {
      gain := -patMatchX[WinKey(posX, mask, shift) as int];
    }
  }

  /** The mask and shift of the walk of `evaluate` at column c, row r of kind j; r == Up(j) once a column is done. */
  predicate Walk(j: int, c: int, r: int, mask: bv64, shift: bv64)
  {
    0 <= j < 4 && 0 <= c < Across(j) && 0 <= r <= Up(j) && shift == Shift(c, r) && mask == Lift(Mask(j), shift)
  }

  /** `mask = sum(pat); shift = 0`: the walk starts on the window at cell (0, 0). */
  lemma Start(j: int, mask: bv64, shift: bv64)
    requires 0 <= j < 4 && mask == Sum(Windows.Pattern(j)) && shift == 0
    ensures Walk(j, 0, 0, mask, shift)
  {
    MaskSum(j);
    Origin(j);
  }

  /** `mask <<= 1; shift += 1`: the step to the next anchor row. */
  lemma RowNext(j: int, c: int, r: int, mask: bv64, shift: bv64)
    requires Walk(j, c, r, mask, shift) && r < Up(j)
    ensures Placed(j, c, r, mask, shift) && Walk(j, c, r + 1, Lift(mask, 1), shift + 1)
  {
    RowStep(j, c, r, mask, shift);
  }

  /** The step to the next anchor column, once a column's rows are done. */
  lemma ColNext(j: int, c: int, mask: bv64, shift: bv64, d: bv64)
    requires Walk(j, c, Up(j), mask, shift) && d == if j == 0 then 1 else 4
    ensures c + 1 < Across(j) ==> Walk(j, c + 1, 0, Lift(mask, d), shift + d)
  {
    ColStep(j, c, mask, shift, d);
  }

  /** The walk starts at cell (0, 0) with the mask of the base pattern. */
  lemma Origin(j: int)
    requires 0 <= j < 4
    ensures Shift(0, 0) == 0 && Lift(Mask(j), 0) == Mask(j)
  {}
}
