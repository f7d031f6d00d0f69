/**
 * The `Rule` class of rule.py: a fixed chain of tactical rules over the
 * board, tried in order by `solver` until one names a column.
 *
 * Every rule looks ahead by playing stones with `put`, sometimes turning
 * the perspective with `posReverse`, asking `win`, `winWithoutVerticle`,
 * `getRow` or `exists` about the new position, and taking the stones back
 * with `undo`. The list `colList` holds the columns still allowed: `solver`
 * fills it with the columns that have room, and rules 3 and 6 remove from
 * it the columns that would give a win away.
 *
 * Colours: a stone is true when it belongs to the side that moves first;
 * `posOX` holds the colour `top` of the board, and `put` plays the other
 * colour (Probes). So, from a position where the opponent has just moved,
 * a plain `put` plays a stone of the engine, the colour `!top`, and a `put`
 * after `posReverse` plays one of the opponent, the colour `top`.
 */
module Rules {
  import opened BoardState
  import opened Boards
  import opened Probes
  import opened GameTrees

  // -----------------------------------------------------------------------
  // The board given back

  /** The parts of a board a probe must give back. */
  datatype Pose = Pose(log: seq<int>, colors: seq<bool>, top: bool, never: bool)

  ghost function PoseOf(b: Board): Pose
    reads b
  {
    Pose(b.log, b.colors, b.top, b.neverSymmetry)
  }

  /** The board is valid and holds the pose p. */
  ghost predicate At(b: Board, p: Pose)
    reads b
  {
    b.Valid() && PoseOf(b) == p
  }

  // -----------------------------------------------------------------------
  // Wins one stone ahead: rules 1 and 2

  /**
   * The first column of cols with room where colour t playing wins at
   * once, or -1: what `rule1` (t the engine) and `rule2` (t the opponent)
   * return.
   */
  ghost function FirstWin(cols: seq<int>, log: seq<int>, colors: seq<bool>, t: bool): int
    requires |colors| == |log|
  {
    if |cols| == 0 then -1
    else if Open(log, cols[0]) && WinsWith(log, colors, cols[0], t) then cols[0]
    else FirstWin(cols[1..], log, colors, t)
  }

  /** `FirstWin` is -1 exactly when no column of cols wins, and otherwise the first column that does. */
  lemma FirstWinMeans(cols: seq<int>, log: seq<int>, colors: seq<bool>, t: bool)
    requires |colors| == |log|
    ensures FirstWin(cols, log, colors, t) == -1 <==>
            forall i :: 0 <= i < |cols| ==> !(Open(log, cols[i]) && WinsWith(log, colors, cols[i], t))
    ensures FirstWin(cols, log, colors, t) != -1 ==>
            exists i :: 0 <= i < |cols| && cols[i] == FirstWin(cols, log, colors, t) &&
                        Open(log, cols[i]) && WinsWith(log, colors, cols[i], t) &&
                        forall j :: 0 <= j < i ==> !(Open(log, cols[j]) && WinsWith(log, colors, cols[j], t))
  {
    FirstWinNone(cols, log, colors, t);
    if FirstWin(cols, log, colors, t) != -1 {
      var i := FirstWinAt(cols, log, colors, t);
    }
  }

  /** `FirstWin` is -1 exactly when no column of cols wins. */
  lemma {:induction false} FirstWinNone(cols: seq<int>, log: seq<int>, colors: seq<bool>, t: bool)
    requires |colors| == |log|
    ensures FirstWin(cols, log, colors, t) == -1 <==>
            forall i :: 0 <= i < |cols| ==> !(Open(log, cols[i]) && WinsWith(log, colors, cols[i], t))
  {
    if |cols| > 0 {
      FirstWinNone(cols[1..], log, colors, t);
      if !(Open(log, cols[0]) && WinsWith(log, colors, cols[0], t)) {
        forall i | 0 <= i < |cols| - 1
          ensures cols[1..][i] == cols[i + 1]
        {}
      } else {
        assert Open(log, cols[0]);
      }
    }
  }

  /** A `FirstWin` other than -1 is found at an index i of cols, and no column before i wins. */
  lemma {:induction false} FirstWinAt(cols: seq<int>, log: seq<int>, colors: seq<bool>, t: bool) returns (i: int)
    requires |colors| == |log| && FirstWin(cols, log, colors, t) != -1
    ensures 0 <= i < |cols| && cols[i] == FirstWin(cols, log, colors, t)
    ensures Open(log, cols[i]) && WinsWith(log, colors, cols[i], t)
    ensures forall j :: 0 <= j < i ==> !(Open(log, cols[j]) && WinsWith(log, colors, cols[j], t))
  {
    if Open(log, cols[0]) && WinsWith(log, colors, cols[0], t) {
      i := 0;
    } else {
      var k := FirstWinAt(cols[1..], log, colors, t);
      i := k + 1;
      forall j | 0 <= j < i
        ensures !(Open(log, cols[j]) && WinsWith(log, colors, cols[j], t))
      {
        if j > 0 {
          assert cols[j] == cols[1..][j - 1];
        }
      }
    }
  }

  /** Colour t playing col after the log wins at once: `put(col)` then `win()`, and the board given back. */
  method WinsAt(b: Board, col: int) returns (w: bool)
    requires b.Valid() && Open(b.log, col)
    modifies b
    ensures At(b, old(PoseOf(b)))
    ensures w <==> WinsWith(old(b.log), old(b.colors), col, !old(b.top))
  {
    Play(b, col);
    w := Won(b);
    Take(b);
    assert b.log == old(b.log) && b.colors == old(b.colors);
  }

  // -----------------------------------------------------------------------
  // The columns under a threat: rules 3 and 6

  /**
   * `rule3` removes col: after the engine plays col there is room left in
   * it, and the opponent, the colour t, wins by playing on top.
   */
  ghost predicate Undercut(log: seq<int>, colors: seq<bool>, t: bool, col: int)
    requires |colors| == |log|
  {
    Count(log, col) + 1 < Height && Wins(log + [col] + [col], colors + [!t] + [t], t)
  }

  /**
   * `rule6` removes col: after the engine, the colour !t, plays col there
   * is room left in it, and a second stone of the engine on top would
   * complete a horizontal or diagonal line.
   */
  ghost predicate Overcut(log: seq<int>, colors: seq<bool>, t: bool, col: int)
    requires |colors| == |log|
  {
    Count(log, col) + 1 < Height && WinsFlat(log + [col] + [col], colors + [!t] + [!t], !t)
  }

  /** The columns `rule3` removes: those with `Undercut`. */
  ghost function Undercuts(log: seq<int>, colors: seq<bool>, t: bool): set<int>
    requires |colors| == |log|
  {
    set c | 0 <= c < Width && Undercut(log, colors, t, c)
  }

  /** The columns `rule6` removes: those with `Overcut`. */
  ghost function Overcuts(log: seq<int>, colors: seq<bool>, t: bool): set<int>
    requires |colors| == |log|
  {
    set c | 0 <= c < Width && Overcut(log, colors, t, c)
  }

  /** The entries of cols not in gone, in order. */
  ghost function Drop(cols: seq<int>, gone: set<int>): seq<int>
  {
    if |cols| == 0 then []
    else
      var n := |cols| - 1;
      Drop(cols[..n], gone) + (if cols[n] in gone then [] else [cols[n]])
  }

  /** `Drop` keeps exactly the entries of cols not in gone. */
  lemma {:induction false} DropKeeps(cols: seq<int>, gone: set<int>)
    ensures forall c :: c in Drop(cols, gone) <==> c in cols && c !in gone
  {
    if |cols| > 0 {
      var n := |cols| - 1;
      DropKeeps(cols[..n], gone);
      assert cols == cols[..n] + [cols[n]];
    }
  }

  /** One step of the loops of `rule3` and `rule6`: the list after deciding on temp[i]. */
  lemma DropStep(temp: seq<int>, i: int, gone: set<int>, cols: seq<int>)
    requires 0 <= i < |temp| && cols == Drop(temp[..i], gone) + temp[i..]
    ensures (if temp[i] in gone then Remove(cols, temp[i]) else cols) == Drop(temp[..i + 1], gone) + temp[i + 1..]
  {
    var col := temp[i];
    var u := Drop(temp[..i], gone);
    var rest := temp[i + 1..];
    assert temp[..i + 1][..i] == temp[..i];
    assert Drop(temp[..i + 1], gone) == u + (if col in gone then [] else [col]);
    assert temp[i..] == [col] + rest;
    assert cols == u + [col] + rest;
    if col in gone {
      DropKeeps(temp[..i], gone);
      RemoveFirst(u, col, rest);
      assert Drop(temp[..i + 1], gone) + rest == u + rest;
    }
  }

  /** `list.remove(x)`: the first occurrence of x taken out. */
  function Remove(s: seq<int>, x: int): (r: seq<int>)
    ensures |r| == (if x in s then |s| - 1 else |s|)
  {
    if |s| == 0 then []
    else if s[0] == x then s[1..]
    else [s[0]] + Remove(s[1..], x)
  }

  /** In a list a + [x] + b whose front a lacks x, `remove(x)` takes out that x. */
  lemma {:induction false} RemoveFirst(a: seq<int>, x: int, b: seq<int>)
    requires x !in a
    ensures Remove(a + [x] + b, x) == a + b
  {
    var s := a + [x] + b;
    if |a| == 0 {
      assert s[0] == x && s[1..] == b;
    } else {
      assert s[0] == a[0] != x;
      assert s[1..] == a[1..] + [x] + b;
      RemoveFirst(a[1..], x, b);
      assert a + b == [a[0]] + (a[1..] + b);
    }
  }

  /** `rule3`'s probe: `put(col)`, and if col still has room `put(col)` and `win()`; both stones taken back. */
  method UndercutAt(b: Board, col: int) returns (u: bool)
    requires b.Valid() && Open(b.log, col)
    modifies b
    ensures At(b, old(PoseOf(b)))
    ensures u <==> Undercut(old(b.log), old(b.colors), old(b.top), col)
  {
    Play(b, col);
    CountAppend(old(b.log), col, col);
    u := false;
    if b.Possible(col) {
      Play(b, col);
      u := Won(b);
      Take(b);
    }
    Take(b);
    assert b.log == old(b.log) && b.colors == old(b.colors);
  }

  /**
   * `rule6`'s probe: `put(col)`, `posReverse()`, and if col still has room
   * `put(col)` and `winWithoutVerticle()`; everything undone.
   */
  method OvercutAt(b: Board, col: int) returns (u: bool)
    requires b.Valid() && Open(b.log, col)
    modifies b
    ensures At(b, old(PoseOf(b)))
    ensures u <==> Overcut(old(b.log), old(b.colors), old(b.top), col)
  {
    Play(b, col);
    CountAppend(old(b.log), col, col);
    Turn(b);
    u := false;
    if b.Possible(col) {
      Play(b, col);
      u := WonFlat(b);
      Take(b);
    }
    Turn(b);
    Take(b);
    assert b.log == old(b.log) && b.colors == old(b.colors);
  }

  // -----------------------------------------------------------------------
  // Double threats: rules 4 and 5

  /** How many of the columns 0 to n - 1 have room and give colour t an immediate win. */
  ghost function WinCount(log: seq<int>, colors: seq<bool>, t: bool, n: int): nat
    requires |colors| == |log|
    decreases n
  {
    if n <= 0 then 0
    else WinCount(log, colors, t, n - 1) + (if Open(log, n - 1) && WinsWith(log, colors, n - 1, t) then 1 else 0)
  }

  /**
   * The first column of cols with room after which, with a stone of the
   * colour mover there, the colour winner has at least two immediately
   * winning columns; -1 when there is none.
   */
  ghost function FirstDouble(cols: seq<int>, log: seq<int>, colors: seq<bool>, mover: bool, winner: bool): int
    requires |colors| == |log|
  {
    if |cols| == 0 then -1
    else if Open(log, cols[0]) && WinCount(log + [cols[0]], colors + [mover], winner, Width) >= 2 then cols[0]
    else FirstDouble(cols[1..], log, colors, mover, winner)
  }

  /** `FirstDouble` is -1 or a column of cols with room. */
  lemma {:induction false} FirstDoubleIn(cols: seq<int>, log: seq<int>, colors: seq<bool>, mover: bool, winner: bool)
    requires |colors| == |log|
    ensures FirstDouble(cols, log, colors, mover, winner) == -1 ||
            (FirstDouble(cols, log, colors, mover, winner) in cols && Open(log, FirstDouble(cols, log, colors, mover, winner)))
  {
    if |cols| > 0 {
      FirstDoubleIn(cols[1..], log, colors, mover, winner);
    }
  }

  /** The columns that have room and win at once for colour t. */
  ghost function Winners(log: seq<int>, colors: seq<bool>, t: bool): set<int>
    requires |colors| == |log|
  {
    set c | 0 <= c < Width && Open(log, c) && WinsWith(log, colors, c, t)
  }

  /** How many of the columns 0 to n - 1 are in w. */
  ghost function Tally(w: set<int>, n: int): nat
    decreases n
  {
    if n <= 0 then 0 else Tally(w, n - 1) + (if n - 1 in w then 1 else 0)
  }

  /** `WinCount` counts the winning columns. */
  lemma {:induction false} WinCountTally(log: seq<int>, colors: seq<bool>, t: bool, n: int)
    requires |colors| == |log| && n <= Width
    ensures WinCount(log, colors, t, n) == Tally(Winners(log, colors, t), n)
  {
    if n > 0 {
      WinCountTally(log, colors, t, n - 1);
      assert n - 1 in Winners(log, colors, t) <==> Open(log, n - 1) && WinsWith(log, colors, n - 1, t);
    }
  }

  /** The tally is at least one exactly when w holds a column below n. */
  lemma {:induction false} TallySome(w: set<int>, n: int)
    ensures Tally(w, n) >= 1 <==> exists c :: 0 <= c < n && c in w
  {
    if n > 0 {
      TallySome(w, n - 1);
      if n - 1 !in w && exists c :: 0 <= c < n && c in w {
        var c :| 0 <= c < n && c in w;
        assert c < n - 1;
      }
    }
  }

  /** The tally is at least two exactly when w holds two different columns below n. */
  lemma {:induction false} TallyTwo(w: set<int>, n: int)
    ensures Tally(w, n) >= 2 <==> exists c1, c2 :: 0 <= c1 < c2 < n && c1 in w && c2 in w
  {
    if n > 0 {
      TallyTwo(w, n - 1);
      TallySome(w, n - 1);
      if exists c1, c2 :: 0 <= c1 < c2 < n && c1 in w && c2 in w {
        var c1, c2 :| 0 <= c1 < c2 < n && c1 in w && c2 in w;
        if c2 == n - 1 {
          assert 0 <= c1 < n - 1 && c1 in w;
        } else {
          assert c2 < n - 1;
        }
      }
      if n - 1 in w && Tally(w, n - 1) >= 1 {
        var c :| 0 <= c < n - 1 && c in w;
        assert 0 <= c < n - 1 < n;
      }
    }
  }

  /**
   * `WinCount` over the whole board is at least two exactly when two
   * different columns win at once for t: the double threat of rules 4 and 5.
   */
  lemma WinCountTwo(log: seq<int>, colors: seq<bool>, t: bool)
    requires |colors| == |log|
    ensures WinCount(log, colors, t, Width) >= 2 <==>
            exists c1, c2 :: 0 <= c1 < c2 < Width && c1 in Winners(log, colors, t) && c2 in Winners(log, colors, t)
  {
    WinCountTally(log, colors, t, Width);
    TallyTwo(Winners(log, colors, t), Width);
  }

  /**
   * `FirstDouble` is -1 exactly when no column of cols leaves the colour
   * winner two immediate wins, and otherwise a column with room that does.
   */
  lemma {:induction false} FirstDoubleFork(cols: seq<int>, log: seq<int>, colors: seq<bool>, mover: bool, winner: bool)
    requires |colors| == |log|
    ensures FirstDouble(cols, log, colors, mover, winner) == -1 <==>
            forall i :: 0 <= i < |cols| ==> !(Open(log, cols[i]) && WinCount(log + [cols[i]], colors + [mover], winner, Width) >= 2)
    ensures var r := FirstDouble(cols, log, colors, mover, winner);
            r != -1 ==> (Open(log, r) &&
              exists c1, c2 :: 0 <= c1 < c2 < Width &&
                c1 in Winners(log + [r], colors + [mover], winner) && c2 in Winners(log + [r], colors + [mover], winner))
  {
    if |cols| > 0 {
      FirstDoubleFork(cols[1..], log, colors, mover, winner);
      if Open(log, cols[0]) && WinCount(log + [cols[0]], colors + [mover], winner, Width) >= 2 {
        WinCountTwo(log + [cols[0]], colors + [mover], winner);
      } else {
        assert forall i :: 0 <= i < |cols| - 1 ==> cols[1..][i] == cols[i + 1];
      }
    }
  }

  // -----------------------------------------------------------------------
  // Rule 5 as written and as intended

  /** One stone more in column x goes on top of that column. */
  lemma GridPush(log: seq<int>, colors: seq<bool>, x: int, y: bool)
    requires |colors| == |log| && 0 <= x < Width
    ensures Grid(log + [x], colors + [y]) == Grid(log, colors)[x := Grid(log, colors)[x] + [y]]
  {
    TowerAppend(log, colors, x, y, 0);
    TowerAppend(log, colors, x, y, 1);
    TowerAppend(log, colors, x, y, 2);
    TowerAppend(log, colors, x, y, 3);
    TowerAppend(log, colors, x, y, 4);
    TowerAppend(log, colors, x, y, 5);
    TowerAppend(log, colors, x, y, 6);
  }

  /** A colour that owns no cells but a, b and d has no four in a line. */
  lemma ThreeNoLine(g: seq<seq<bool>>, u: bool, a: (int, int), b: (int, int), d: (int, int))
    requires forall x, y :: Owns(g, u, x, y) ==> (x, y) == a || (x, y) == b || (x, y) == d
    ensures !Connected(g, u)
  {
    forall x, y
      ensures !Four(g, u, x, y, 1, 0) && !Four(g, u, x, y, 0, 1) && !Four(g, u, x, y, 1, 1) && !Four(g, u, x, y, 1, -1)
    {
    }
  }

  /**
   * A position after four moves: the first player, colour !t, on (6, 0)
   * and (6, 1), the second, colour t, on (1, 0) and (2, 0); t moved last,
   * so it is the turn of !t.
   */
  const ForkLog: seq<int> := [6, 1, 6, 2]

  function ForkColors(t: bool): seq<bool>
  {
    [!t, t, !t, t]
  }

  /** The columns after the first two moves of `ForkLog`. */
  lemma ForkGrid2(t: bool)
    ensures Grid([6, 1], [!t, t]) == [[], [t], [], [], [], [], [!t]]
  {
    var e: seq<int>, f: seq<bool> := [], [];
    var g0 := Grid(e, f);
    assert g0 == [[], [], [], [], [], [], []];
    GridPush(e, f, 6, !t);
    assert e + [6] == [6] && f + [!t] == [!t];
    var g1 := Grid([6], [!t]);
    assert g1 == g0[6 := g0[6] + [!t]];
    assert g1 == [[], [], [], [], [], [], [!t]];
    GridPush([6], [!t], 1, t);
    assert [6] + [1] == [6, 1] && [!t] + [t] == [!t, t];
    assert Grid([6, 1], [!t, t]) == g1[1 := g1[1] + [t]];
    assert g1[1] + [t] == [t];
  }

  /** The columns of `ForkLog`, and of `ForkLog` with a stone of t in column 3. */
  lemma ForkGrid(t: bool)
    ensures Grid(ForkLog, ForkColors(t)) == [[], [t], [t], [], [], [], [!t, !t]]
    ensures Grid(ForkLog + [3], ForkColors(t) + [t]) == [[], [t], [t], [t], [], [], [!t, !t]]
  {
    ForkGrid2(t);
    var g2 := Grid([6, 1], [!t, t]);
    GridPush([6, 1], [!t, t], 6, !t);
    assert [6, 1] + [6] == [6, 1, 6] && [!t, t] + [!t] == [!t, t, !t];
    var g3 := Grid([6, 1, 6], [!t, t, !t]);
    assert g3 == g2[6 := g2[6] + [!t]] && g2[6] + [!t] == [!t, !t];
    GridPush([6, 1, 6], [!t, t, !t], 2, t);
    assert [6, 1, 6] + [2] == ForkLog && [!t, t, !t] + [t] == ForkColors(t);
    var g4 := Grid(ForkLog, ForkColors(t));
    assert g4 == g3[2 := g3[2] + [t]] && g3[2] + [t] == [t];
    GridPush(ForkLog, ForkColors(t), 3, t);
    assert g4[3] + [t] == [t];
  }

  /** The heights of the columns of `ForkLog` with a stone of t in column 3. */
  lemma ForkCounts(t: bool, c: int)
    requires 0 <= c < Width
    ensures Count(ForkLog, c) == |Grid(ForkLog, ForkColors(t))[c]|
    ensures Count(ForkLog + [3], c) == |Grid(ForkLog + [3], ForkColors(t) + [t])[c]|
  {
    TowerHeight(ForkLog, ForkColors(t), c);
    TowerHeight(ForkLog + [3], ForkColors(t) + [t], c);
  }

  /** With three stones, the engine !t has no winning column after the opponent's 3. */
  lemma ForkEngine(t: bool, c: int)
    requires 0 <= c < Width
    ensures !WinsWith(ForkLog + [3], ForkColors(t) + [t], c, !t)
  {
    var log, colors := ForkLog + [3], ForkColors(t) + [t];
    ForkGrid(t);
    var g := Grid(log, colors);
    GridPush(log, colors, c, !t);
    ThreeNoLine(Grid(log + [c], colors + [!t]), !t, (6, 0), (6, 1), (c, |g[c]|));
  }

  /** After its 3, the opponent t wins with column 0 and with column 4. */
  lemma ForkOpponent(t: bool)
    ensures WinsWith(ForkLog + [3], ForkColors(t) + [t], 0, t)
    ensures WinsWith(ForkLog + [3], ForkColors(t) + [t], 4, t)
  {
    var log, colors := ForkLog + [3], ForkColors(t) + [t];
    ForkGrid(t);
    GridPush(log, colors, 0, t);
    assert Four(Grid(log + [0], colors + [t]), t, 0, 0, 1, 0);
    GridPush(log, colors, 4, t);
    assert Four(Grid(log + [4], colors + [t]), t, 1, 0, 1, 0);
  }

  /** The heights of the columns of `ForkLog`: a legal log with room in column 3. */
  lemma ForkOpen(t: bool)
    ensures Legal(ForkLog) && Open(ForkLog, 3)
  {
    ForkGrid(t);
    forall c | 0 <= c < Width
      ensures Count(ForkLog, c) <= Height
    {
      ForkCounts(t, c);
    }
    ForkCounts(t, 3);
  }

  /** No column below n wins for u: `WinCount` is 0. */
  lemma {:induction false} WinCountNone(log: seq<int>, colors: seq<bool>, u: bool, n: int)
    requires |colors| == |log|
    requires forall c :: 0 <= c < n ==> !WinsWith(log, colors, c, u)
    ensures WinCount(log, colors, u, n) == 0
  {
    if n > 0 {
      WinCountNone(log, colors, u, n - 1);
    }
  }

  /** After the opponent's 3 the engine has no winning column. */
  lemma ForkEngineNone(log: seq<int>, colors: seq<bool>, t: bool, u: bool)
    requires log == ForkLog + [3] && colors == ForkColors(t) + [t] && u == !t
    ensures WinCount(log, colors, u, Width) == 0
  {
    forall c | 0 <= c < Width
      ensures !WinsWith(log, colors, c, u)
    {
      ForkEngine(t, c);
    }
    WinCountNone(log, colors, u, Width);
  }

  /** After the opponent's 3 the opponent has two winning columns. */
  lemma ForkOpponentTwo(t: bool)
    ensures WinCount(ForkLog + [3], ForkColors(t) + [t], t, Width) >= 2
  {
    var log, colors := ForkLog + [3], ForkColors(t) + [t];
    ForkGrid(t);
    ForkCounts(t, 0);
    ForkCounts(t, 4);
    ForkOpponent(t);
    assert WinCount(log, colors, t, 1) == 1;
    assert WinCount(log, colors, t, 5) >= 2;
  }

  /**
   * `rule5` as written misses the fork it is meant to block. After
   * `ForkLog`, the opponent t playing column 3 would hold (1, 0) to (3, 0)
   * with columns 0 and 4 both winning. Rule 5 as written counts the wins of
   * the engine !t after that move, finds none with its three stones, and
   * gives -1 for the list [3]; counting the opponent's wins, as intended,
   * names 3.
   */
  lemma Rule5Misses(t: bool)
    ensures Legal(ForkLog) && ForkColors(t)[|ForkLog| - 1] == t
    ensures FirstDouble([3], ForkLog, ForkColors(t), t, !t) == -1
    ensures FirstDouble([3], ForkLog, ForkColors(t), t, t) == 3
  {
    ForkOpen(t);
    ForkEngineNone(ForkLog + [3], ForkColors(t) + [t], t, !t);
    ForkOpponentTwo(t);
    assert [3][1..] == [];
  }

  /** A stone of colour u on cell (x, y) is a logged move of colour u into column x, with y stones below it. */
  lemma {:induction false} OwnsStone(log: seq<int>, colors: seq<bool>, u: bool, x: int, y: int)
    requires |colors| == |log|
    ensures Owns(Grid(log, colors), u, x, y) ==>
            exists i :: 0 <= i < |log| && colors[i] == u && log[i] == x && Count(log[..i], x) == y
  {
    if |log| > 0 && Owns(Grid(log, colors), u, x, y) {
      var n := |log| - 1;
      var lg, cs := log[..n], colors[..n];
      assert log == lg + [log[n]] && colors == cs + [colors[n]];
      TowerAppend(lg, cs, log[n], colors[n], x);
      TowerHeight(lg, cs, x);
      OwnsStone(lg, cs, u, x, y);
      if Owns(Grid(lg, cs), u, x, y) {
        var i :| 0 <= i < |lg| && cs[i] == u && lg[i] == x && Count(lg[..i], x) == y;
        assert log[..i] == lg[..i];
      } else {
        assert colors[n] == u && log[n] == x && Count(log[..n], x) == y;
      }
    }
  }

  /** Four in a line of colour u in g is one in h too when every stone of u in g is one in h. */
  lemma ConnectedWithin(g: seq<seq<bool>>, h: seq<seq<bool>>, u: bool)
    requires forall x, y :: Owns(g, u, x, y) ==> Owns(h, u, x, y)
    ensures Connected(g, u) ==> Connected(h, u)
  {
    forall x, y, dx, dy | Four(g, u, x, y, dx, dy)
      ensures Four(h, u, x, y, dx, dy)
    {
    }
  }

  /**
   * After the opponent's stone in c, the engine !t wins at once in a column
   * d other than c only where it already won at once: the opponent's stone
   * adds nothing to the engine's lines, and d's free cell is the same.
   */
  lemma ReplyElsewhere(log: seq<int>, colors: seq<bool>, t: bool, c: int, d: int)
    requires Legal(log) && |colors| == |log| && |log| >= 5
    requires Open(log, c) && Open(log + [c], d) && d != c
    ensures WinsWith(log + [c], colors + [t], d, !t) ==> Open(log, d) && WinsWith(log, colors, d, !t)
  {
    CountAppend(log, c, d);
    var g := Grid(log, colors);
    GridPush(log, colors, c, t);
    GridPush(log + [c], colors + [t], d, !t);
    GridPush(log, colors, d, !t);
    var h2 := Grid(log + [c] + [d], colors + [t] + [!t]);
    var h1 := Grid(log + [d], colors + [!t]);
    OnTopWithin(g, h2, h1, c, !t);
    ConnectedWithin(h2, h1, !t);
  }

  /** A stone of the other colour on top of column c gives the colour u no stone. */
  lemma OnTopWithin(g: seq<seq<bool>>, h2: seq<seq<bool>>, h1: seq<seq<bool>>, c: int, u: bool)
    requires |h2| == |h1| && 0 <= c < |h2| && c < |g| && h2[c] == g[c] + [!u] && h1[c] == g[c]
    requires forall x :: 0 <= x < |h2| && x != c ==> h2[x] == h1[x]
    ensures forall x, y :: Owns(h2, u, x, y) ==> Owns(h1, u, x, y)
  {
  }

  /**
   * After four alternating moves and the opponent's stone, an engine's
   * stone makes only its third: no reply wins, whatever the six-move guard.
   */
  lemma FourMovesNoReply(log: seq<int>, colors: seq<bool>, t: bool, c: int, d: int)
    requires |log| == 4 && |colors| == 4 && Alternate(colors)
    ensures !WinsWith(log + [c], colors + [t], d, !t)
  {
    var lg, cs := log + [c] + [d], colors + [t] + [!t];
    var a := if t then 1 else 0;
    var g := Grid(lg, cs);
    forall x, y | Owns(g, !t, x, y)
      ensures (x, y) == (lg[a], Count(lg[..a], lg[a])) || (x, y) == (lg[a + 2], Count(lg[..a + 2], lg[a + 2])) ||
              (x, y) == (lg[5], Count(lg[..5], lg[5]))
    {
      OwnsStone(lg, cs, !t, x, y);
      var i :| 0 <= i < |lg| && cs[i] == !t && lg[i] == x && Count(lg[..i], x) == y;
      if i < 4 {
        assert cs[i] == colors[i];
      } else {
        assert cs[4] == t;
      }
    }
    ThreeNoLine(g, !t, (lg[a], Count(lg[..a], lg[a])), (lg[a + 2], Count(lg[..a + 2], lg[a + 2])), (lg[5], Count(lg[..5], lg[5])));
  }

  /**
   * When the engine !t has no immediate win, the opponent's stone in c
   * leaves it at most one: c itself, on top of that stone.
   */
  lemma {:induction false} ReplyCount(log: seq<int>, colors: seq<bool>, t: bool, c: int, n: int)
    requires Legal(log) && |colors| == |log| && Open(log, c)
    requires forall d :: Open(log, d) ==> !WinsWith(log, colors, d, !t)
    requires |log| != 4 || Alternate(colors)
    ensures WinCount(log + [c], colors + [t], !t, n) <= if 0 <= c < n then 1 else 0
  {
    if n > 0 {
      ReplyCount(log, colors, t, c, n - 1);
      var d := n - 1;
      if d != c && Open(log + [c], d) {
        if |log| >= 5 {
          ReplyElsewhere(log, colors, t, c, d);
        } else if |log| == 4 {
          FourMovesNoReply(log, colors, t, c, d);
        }
      }
    }
  }

  /**
   * `rule5` as written gives -1 on every list when the engine !t has no
   * immediate win; in alternating play this holds from the start.
   */
  lemma {:induction false} Rule5Idle(cols: seq<int>, log: seq<int>, colors: seq<bool>, t: bool)
    requires Legal(log) && |colors| == |log|
    requires forall d :: Open(log, d) ==> !WinsWith(log, colors, d, !t)
    requires |log| != 4 || Alternate(colors)
    ensures FirstDouble(cols, log, colors, t, !t) == -1
  {
    if |cols| > 0 {
      if Open(log, cols[0]) {
        ReplyCount(log, colors, t, cols[0], Width);
      }
      Rule5Idle(cols[1..], log, colors, t);
    }
  }

  /**
   * The inner loop of `rule4` and `rule5`: for every column with room,
   * `put`, `win()` and `undo`, counting the wins of the colour a `put`
   * plays, !top.
   */
  method CountWins(b: Board) returns (count: int)
    requires b.Valid()
    modifies b
    ensures At(b, old(PoseOf(b)))
    ensures count == WinCount(old(b.log), old(b.colors), !old(b.top), Width)
  {
    ghost var p := PoseOf(b);
    count := 0;
    for col2 := 0 to Width
      invariant At(b, p)
      invariant count == WinCount(p.log, p.colors, !p.top, col2)
    {
      var w := OpenWin(b, col2);
      if w {
        count := count + 1;
      }
    }
  }

  /** One round of that loop: `possible`, then `put`, `win()` and `undo` when there is room. */
  method OpenWin(b: Board, col: int) returns (w: bool)
    requires b.Valid() && 0 <= col < Width
    modifies b
    ensures At(b, old(PoseOf(b)))
    ensures w <==> Open(old(b.log), col) && WinsWith(old(b.log), old(b.colors), col, !old(b.top))
  {
    w := false;
    if b.Possible(col) {
      w := WinsAt(b, col);
    }
  }

  // -----------------------------------------------------------------------
  // Open rows: rules 7 and 8

  /** `exists` read off a grid: 0 for a stone of colour oc, 1 for one of the other colour, -1 for an empty cell. */
  ghost function Cell(g: seq<seq<bool>>, oc: bool, c: int, r: int): int
    requires 0 <= c < |g|
  {
    if Holds(g[c], r, oc) then 0 else if Holds(g[c], r, !oc) then 1 else -1
  }

  /** The cells of row r, column 0 first: `[exists(i, r) for i in range(width)]`. */
  ghost function Row(g: seq<seq<bool>>, oc: bool, r: int): (row: seq<int>)
    requires |g| == Width
    ensures |row| == Width
  {
    [Cell(g, oc, 0, r), Cell(g, oc, 1, r), Cell(g, oc, 2, r), Cell(g, oc, 3, r), Cell(g, oc, 4, r), Cell(g, oc, 5, r), Cell(g, oc, 6, r)]
  }

  /** `exists` is the cell of the board's grid. */
  lemma ExistsCell(b: Board, c: int, r: int)
    requires b.Valid() && 0 <= c < Width && 0 <= r <= Height
    ensures b.Exists(c, r) == Cell(Grid(b.log, b.colors), b.OColor(), c, r)
  {
    TowerHeight(b.log, b.colors, c);
  }

  /** The seven `exists` calls along row r read the row of the board's grid. */
  lemma RowCells(b: Board, r: int)
    requires b.Valid() && 0 <= r <= Height
    ensures [b.Exists(0, r), b.Exists(1, r), b.Exists(2, r), b.Exists(3, r), b.Exists(4, r), b.Exists(5, r), b.Exists(6, r)]
            == Row(Grid(b.log, b.colors), b.OColor(), r)
  {
    ExistsCell(b, 0, r);
    ExistsCell(b, 1, r);
    ExistsCell(b, 2, r);
    ExistsCell(b, 3, r);
    ExistsCell(b, 4, r);
    ExistsCell(b, 5, r);
    ExistsCell(b, 6, r);
  }

  /** The colour `exists` calls 'O' after a stone of colour s became the move numbered moves. */
  function OAfter(moves: int, player: int, s: bool): bool
  {
    if moves % 2 != player then s else !s
  }

  /** Row i to i + 4 of row reads `[-1, d, d, d, -1]`, rule 7's pattern. */
  ghost predicate Window(row: seq<int>, i: int, d: int)
    requires 0 <= i && i + 5 <= |row|
  {
    row[i..i + 5] == [-1, d, d, d, -1]
  }

  /** How many of the windows starting before n read the pattern and hold column col in their middle three cells. */
  ghost function Hits(row: seq<int>, d: int, col: int, n: int): nat
    requires |row| == Width && n <= 3
    decreases n
  {
    if n <= 0 then 0
    else Hits(row, d, col, n - 1) + (if Window(row, n - 1, d) && n <= col <= n + 2 then 1 else 0)
  }

  /** k copies of c. */
  ghost function Repeat(c: int, k: int): (s: seq<int>)
    ensures |s| == if k < 0 then 0 else k
    decreases k
  {
    if k <= 0 then [] else Repeat(c, k - 1) + [c]
  }

  /** The grid after a stone of colour s went into column col. */
  ghost function GridAfter(log: seq<int>, colors: seq<bool>, s: bool, col: int): seq<seq<bool>>
    requires |colors| == |log|
  {
    Grid(log + [col], colors + [s])
  }

  /** The row of column col after a stone of colour s went in, as `exists` reports it. */
  ghost function RowAfter(log: seq<int>, colors: seq<bool>, s: bool, player: int, col: int): seq<int>
    requires |colors| == |log|
  {
    Row(GridAfter(log, colors, s, col), OAfter(|log| + 1, player, s), Count(log, col))
  }

  /** How often `rule7` appends col: the windows of its row that the new stone of colour s completes. */
  ghost function Threes(log: seq<int>, colors: seq<bool>, s: bool, player: int, col: int): nat
    requires |colors| == |log| && 0 <= col < Width
  {
    var dol := Cell(GridAfter(log, colors, s, col), OAfter(|log| + 1, player, s), col, Count(log, col));
    Hits(RowAfter(log, colors, s, player, col), dol, col, 3)
  }

  /** `rule7`'s list `temp`: for each column of cols but 0 and 6 with room, col as often as `Threes`. */
  ghost function ThreeCols(cols: seq<int>, log: seq<int>, colors: seq<bool>, s: bool, player: int): seq<int>
    requires |colors| == |log|
  {
    if |cols| == 0 then []
    else
      var n := |cols| - 1;
      var c := cols[n];
      ThreeCols(cols[..n], log, colors, s, player) +
      (if c != 0 && c != 6 && Open(log, c) then Repeat(c, Threes(log, colors, s, player, c)) else [])
  }

  /**
   * `rule8`'s test on the row of the new stone at col: beside it, on the
   * left or else on the right, a stone read the same, and the cells at both
   * ends of the pair empty.
   */
  predicate PairIn(row: seq<int>, col: int)
    requires |row| == Width
  {
    0 < col < 6 &&
    if row[col - 1] == row[col] then col > 1 && row[col - 2] == -1 && row[col + 1] == -1
    else row[col] == row[col + 1] && col < 5 && row[col - 1] == -1 && row[col + 2] == -1
  }

  /** `rule8`'s test on column col after a stone of colour s went in. */
  ghost predicate Pairs(log: seq<int>, colors: seq<bool>, s: bool, player: int, col: int)
    requires |colors| == |log|
  {
    PairIn(RowAfter(log, colors, s, player, col), col)
  }

  /** `rule8`'s list `temp`: the columns of cols whose new stone of colour s makes a `PairIn`. */
  ghost function PairCols(cols: seq<int>, log: seq<int>, colors: seq<bool>, s: bool, player: int): seq<int>
    requires |colors| == |log|
  {
    if |cols| == 0 then []
    else
      var n := |cols| - 1;
      var c := cols[n];
      PairCols(cols[..n], log, colors, s, player) + (if Pairs(log, colors, s, player, c) then [c] else [])
  }

  /** `ThreeCols` over one more column of cols. */
  lemma ThreeColsPush(cols: seq<int>, i: int, log: seq<int>, colors: seq<bool>, s: bool, player: int)
    requires |colors| == |log| && 0 <= i < |cols|
    ensures ThreeCols(cols[..i + 1], log, colors, s, player) == ThreeCols(cols[..i], log, colors, s, player) +
              (if cols[i] != 0 && cols[i] != 6 && Open(log, cols[i]) then Repeat(cols[i], Threes(log, colors, s, player, cols[i])) else [])
  {
    assert cols[..i + 1][..i] == cols[..i];
  }

  /** `PairCols` over one more column of cols. */
  lemma PairColsPush(cols: seq<int>, i: int, log: seq<int>, colors: seq<bool>, s: bool, player: int)
    requires |colors| == |log| && 0 <= i < |cols|
    ensures PairCols(cols[..i + 1], log, colors, s, player) == PairCols(cols[..i], log, colors, s, player) +
              (if Pairs(log, colors, s, player, cols[i]) then [cols[i]] else [])
  {
    assert cols[..i + 1][..i] == cols[..i];
  }

  // -----------------------------------------------------------------------
  // The column nearest the centre

  /**
   * The scan of rules 7 and 8 over the first n entries of temp: `min` the
   * least distance from the centre so far and `index`, which grows by one
   * at each new least distance.
   */
  ghost function Nearest(temp: seq<int>, n: int): (m: (int, int))
    requires 0 <= n <= |temp|
    ensures -1 <= m.1 < n
  {
    if n == 0 then (100, -1)
    else
      var m := Nearest(temp, n - 1);
      var d := Abs(temp[n - 1] - 3);
      if d < m.0 then (d, m.1 + 1) else m
  }

  /**
   * What rules 7 and 8 return from their list: its entry for one entry,
   * `temp.pop(index)` after the scan for more (Python's index -1 being the
   * last entry), -1 for none.
   */
  ghost function Central(temp: seq<int>): int
  {
    if |temp| == 1 then temp[0]
    else if |temp| >= 2 then
      var index := Nearest(temp, |temp|).1;
      if index < 0 then temp[|temp| - 1] else temp[index]
    else -1
  }

  /** The entries strictly increase. */
  ghost predicate Ascending(s: seq<int>)
  {
    forall i, j :: 0 <= i < j < |s| ==> s[i] < s[j]
  }

  /**
   * On a list of columns that strictly increases, the scan's index is the
   * first entry of least distance from the centre among the first n.
   */
  lemma {:induction false} NearestFirst(temp: seq<int>, n: int)
    requires Ascending(temp) && Columns7(temp) && 1 <= n <= |temp|
    ensures 0 <= Nearest(temp, n).1 < n && Nearest(temp, n).0 == Off(temp[Nearest(temp, n).1])
    ensures forall j :: 0 <= j < n ==> Off(temp[j]) >= Nearest(temp, n).0
    ensures forall j :: 0 <= j < Nearest(temp, n).1 ==> Off(temp[j]) > Nearest(temp, n).0
  {
    if n > 1 {
      NearestFirst(temp, n - 1);
      var m := Nearest(temp, n - 1);
      var x := temp[n - 1];
      if Abs(x - 3) < m.0 {
        // a new least distance comes right after the last one: the distances fall up to the centre and rise after it
        var y := temp[n - 2];
        assert y < x && Off(y) >= m.0;
        assert temp[m.1] <= y;
        assert m.1 == n - 2;
      }
    }
  }

  /** On a list of columns that strictly increases, `Central` is the first entry nearest the centre. */
  lemma CentralNearest(temp: seq<int>)
    requires Ascending(temp) && Columns7(temp) && |temp| > 0
    ensures exists k :: 0 <= k < |temp| && Central(temp) == temp[k] &&
              (forall j :: 0 <= j < |temp| ==> Off(temp[j]) >= Off(temp[k])) &&
              (forall j :: 0 <= j < k ==> Off(temp[j]) > Off(temp[k]))
  {
    if |temp| >= 2 {
      NearestFirst(temp, |temp|);
      var k := Nearest(temp, |temp|).1;
      assert Central(temp) == temp[k];
    } else {
      assert Central(temp) == temp[0];
    }
  }

  /** The scan and pop of rules 7 and 8. */
  method PickCentre(temp: seq<int>) returns (r: int)
    ensures r == Central(temp)
  {
    if |temp| == 1 {
      r := temp[0];
    } else if |temp| >= 2 {
      var min, index := 100, -1;
      for k := 0 to |temp|
        invariant (min, index) == Nearest(temp, k)
      {
        var d := temp[k] - 3;
        if d < 0 {
          d := d * -1;
        }
        if d < min {
          min := d;
          index := index + 1;
        }
      }
      r := if index < 0 then temp[|temp| - 1] else temp[index];
    } else {
      r := -1;
    }
  }

  // -----------------------------------------------------------------------
  // The probes of rules 4, 5, 7 and 8

  /** `rule4`'s probe: `put(col)`, `posReverse()`, count the mover's immediate wins, and everything undone. */
  method ForkAt(b: Board, col: int) returns (count: int)
    requires b.Valid() && Open(b.log, col)
    modifies b
    ensures At(b, old(PoseOf(b)))
    ensures count == WinCount(old(b.log) + [col], old(b.colors) + [!old(b.top)], !old(b.top), Width)
  {
    Play(b, col);
    Turn(b);
    count := CountWins(b);
    Turn(b);
    Take(b);
    assert b.log == old(b.log) && b.colors == old(b.colors);
  }

  /** `rule5`'s probe: `put(col)`, count the immediate wins of the side that did not move, `undo()`. */
  method ReplyAt(b: Board, col: int) returns (count: int)
    requires b.Valid() && Open(b.log, col)
    modifies b
    ensures At(b, old(PoseOf(b)))
    ensures count == WinCount(old(b.log) + [col], old(b.colors) + [!old(b.top)], old(b.top), Width)
  {
    Play(b, col);
    count := CountWins(b);
    Take(b);
    assert b.log == old(b.log) && b.colors == old(b.colors);
  }

  /** The inner loop of `rule7`: col appended once for each window of the row that reads the pattern around it. */
  method Match(temp: seq<int>, rowList: seq<int>, dol: int, col: int) returns (t2: seq<int>)
    requires |rowList| == Width
    ensures t2 == temp + Repeat(col, Hits(rowList, dol, col, 3))
  {
    t2 := temp;
    for i := 0 to Width - 5 + 1
      invariant t2 == temp + Repeat(col, Hits(rowList, dol, col, i))
    {
      if [-1, dol, dol, dol, -1] == rowList[i..i + 5] {
        if col >= i + 1 && col <= i + 3 {
          t2 := t2 + [col];
        }
      }
    }
  }

  /** `rule7`'s probe of one column: `put(col)`, its row read with `exists`, the windows matched, `undo()`. */
  method ThreeAt(b: Board, col: int, temp: seq<int>) returns (t2: seq<int>)
    requires b.Valid() && Open(b.log, col)
    modifies b
    ensures At(b, old(PoseOf(b)))
    ensures t2 == temp + Repeat(col, Threes(old(b.log), old(b.colors), !old(b.top), b.player, col))
  {
    Play(b, col);
    CountAppend(old(b.log), col, col);
    var row := b.GetRow(col);
    var dol := b.Exists(col, row);
    var rowList := [b.Exists(0, row), b.Exists(1, row), b.Exists(2, row), b.Exists(3, row), b.Exists(4, row), b.Exists(5, row), b.Exists(6, row)];
    RowCells(b, row);
    ExistsCell(b, col, row);
    t2 := Match(temp, rowList, dol, col);
    Take(b);
    assert b.log == old(b.log) && b.colors == old(b.colors);
  }

  /** `rule8`'s probe of one column: `put(col)`, the pair test with `exists` along its row, `undo()`. */
  method PairAt(b: Board, col: int) returns (pair: bool)
    requires b.Valid() && Open(b.log, col)
    modifies b
    ensures At(b, old(PoseOf(b)))
    ensures pair <==> Pairs(old(b.log), old(b.colors), !old(b.top), b.player, col)
  {
    Play(b, col);
    CountAppend(old(b.log), col, col);
    var row := b.GetRow(col);
    var rowList := [b.Exists(0, row), b.Exists(1, row), b.Exists(2, row), b.Exists(3, row), b.Exists(4, row), b.Exists(5, row), b.Exists(6, row)];
    RowCells(b, row);
    pair := PairIn(rowList, col);
    Take(b);
    assert b.log == old(b.log) && b.colors == old(b.colors);
  }

  // -----------------------------------------------------------------------
  // Rules 9 to 11

  /** `range(n)`. */
  ghost function Range(n: int): (s: seq<int>)
    ensures |s| == if n < 0 then 0 else n
    decreases n
  {
    if n <= 0 then [] else Range(n - 1) + [n - 1]
  }

  /** The first entry of order that cols holds, -1 when there is none. */
  ghost function FirstIn(order: seq<int>, cols: seq<int>): int
  {
    if |order| == 0 then -1
    else if order[0] in cols then order[0]
    else FirstIn(order[1..], cols)
  }

  /** A log of one move holds one stone, in that move's column. */
  lemma CountOne(x: int, c: int)
    ensures Count([x], c) == if x == c then 1 else 0
  {
    assert [x][..0] == [];
  }

  /**
   * `rule9`: after the opponent's first move, when it was not in the
   * centre, one column nearer the centre; from the centre, the column to
   * its left; -1 at any other time.
   */
  function Rule9(log: seq<int>): (r: int)
    requires Legal(log)
    ensures r == -1 <==> |log| != 1
    ensures |log| == 1 ==> Open(log, r) && Abs(r - log[0]) == 1
    ensures |log| == 1 && log[0] != 3 ==> Off(r) == Off(log[0]) - 1
    ensures |log| == 1 && log[0] == 3 ==> r == 2
  {
    if |log| == 1 then
      var r := if log[0] < 3 then log[0] + 1 else log[0] - 1;
      assert log[0] in log && log == [log[0]];
      CountOne(log[0], r);
      r
    else -1
  }

  /** `rule10`: the column of the last move, when it has room and cols allows it, else -1. */
  function Rule10(log: seq<int>, cols: seq<int>): (r: int)
    requires Legal(log)
    ensures r == -1 || (|log| > 0 && r == log[|log| - 1] && Open(log, r) && r in cols)
    ensures |log| > 0 && Open(log, log[|log| - 1]) && log[|log| - 1] in cols ==> r == log[|log| - 1]
  {
    if |log| != 0 then
      var col := log[|log| - 1];
      if 0 <= col < Width && Count(log, col) < Height && col in cols then col else -1
    else -1
  }

  /** `FirstIn` is -1 exactly when cols holds no entry of order, and otherwise the first entry it holds. */
  lemma {:induction false} FirstInMeans(order: seq<int>, cols: seq<int>)
    ensures FirstIn(order, cols) == -1 ==> -1 in cols || forall i :: 0 <= i < |order| ==> order[i] !in cols
    ensures FirstIn(order, cols) != -1 ==>
              exists k :: 0 <= k < |order| && order[k] == FirstIn(order, cols) && order[k] in cols &&
                          forall j :: 0 <= j < k ==> order[j] !in cols
  {
    if |order| > 0 {
      FirstInMeans(order[1..], cols);
      if order[0] !in cols {
        forall i | 0 <= i < |order| - 1
          ensures order[1..][i] == order[i + 1]
        {}
        if FirstIn(order, cols) != -1 {
          var k :| 0 <= k < |order| - 1 && order[1..][k] == FirstIn(order, cols) && order[1..][k] in cols &&
                   forall j :: 0 <= j < k ==> order[1..][j] !in cols;
          assert order[k + 1] == FirstIn(order, cols);
        }
      }
    }
  }

  /** The first of the columns 3, 2, 4, 1, 5, 0, 6 that cols holds, -1 for none. */
  ghost function Centremost(cols: seq<int>): int
  {
    if 3 in cols then 3 else if 2 in cols then 2 else if 4 in cols then 4 else if 1 in cols then 1
    else if 5 in cols then 5 else if 0 in cols then 0 else if 6 in cols then 6 else -1
  }

  /** `FirstIn` over the centre order, written out. */
  lemma FirstInCentre(cols: seq<int>)
    ensures FirstIn(CentreOrder, cols) == Centremost(cols)
  {
    assert [6][1..] == [];
    assert FirstIn([6], cols) == if 6 in cols then 6 else -1;
    assert [0, 6][1..] == [6];
    assert FirstIn([0, 6], cols) == if 0 in cols then 0 else FirstIn([6], cols);
    assert [5, 0, 6][1..] == [0, 6];
    assert FirstIn([5, 0, 6], cols) == if 5 in cols then 5 else FirstIn([0, 6], cols);
    assert [1, 5, 0, 6][1..] == [5, 0, 6];
    assert FirstIn([1, 5, 0, 6], cols) == if 1 in cols then 1 else FirstIn([5, 0, 6], cols);
    assert [4, 1, 5, 0, 6][1..] == [1, 5, 0, 6];
    assert FirstIn([4, 1, 5, 0, 6], cols) == if 4 in cols then 4 else FirstIn([1, 5, 0, 6], cols);
    assert [2, 4, 1, 5, 0, 6][1..] == [4, 1, 5, 0, 6];
    assert FirstIn([2, 4, 1, 5, 0, 6], cols) == if 2 in cols then 2 else FirstIn([4, 1, 5, 0, 6], cols);
    assert CentreOrder[1..] == [2, 4, 1, 5, 0, 6];
  }

  /** Of a list of columns that is not empty, `Centremost` is the entry nearest the centre, and of two as near the left one. */
  lemma CentremostNearest(cols: seq<int>)
    requires |cols| > 0 && forall c :: c in cols ==> 0 <= c < Width
    ensures Centremost(cols) in cols
    ensures forall c :: c in cols ==> (Off(Centremost(cols)) < Off(c) || (Off(Centremost(cols)) == Off(c) && Centremost(cols) <= c))
  {
    var x := cols[0];
    assert x in cols;
    if x == 0 {} else if x == 1 {} else if x == 2 {} else if x == 3 {} else if x == 4 {} else if x == 5 {} else {}
  }

  /**
   * `rule11`'s choice from a list of columns that is not empty: a column of
   * the list nearest the centre, and of two as near the left one.
   */
  lemma FirstInNearest(cols: seq<int>)
    requires |cols| > 0 && forall c :: c in cols ==> 0 <= c < Width
    ensures FirstIn(CentreOrder, cols) in cols
    ensures forall c :: c in cols ==>
              (Off(FirstIn(CentreOrder, cols)) < Off(c) ||
               (Off(FirstIn(CentreOrder, cols)) == Off(c) && FirstIn(CentreOrder, cols) <= c))
  {
    FirstInCentre(cols);
    CentremostNearest(cols);
  }

  // -----------------------------------------------------------------------
  // The solver's choice

  /** `range(width)` lists every column. */
  lemma RangeHas(n: int)
    requires 0 <= n
    ensures forall c :: c in Range(n) <==> 0 <= c < n
  {
    if n > 0 {
      RangeHas(n - 1);
    }
  }

  /**
   * `solver`'s choice by rules 1 to 11 after the moves of log, the
   * opponent having moved last with colour t, for the engine moving first
   * (player 0) or second (player 1); -1 when none of them names a column.
   */
  ghost function Verdict(log: seq<int>, colors: seq<bool>, t: bool, player: int): int
    requires Legal(log) && |colors| == |log|
  {
    var cols := Possibles(Range(Width), log);
    var r1 := FirstWin(cols, log, colors, !t);
    if r1 >= 0 then r1
    else
      var r2 := FirstWin(cols, log, colors, t);
      if r2 >= 0 then r2
      else Defence(cols, log, colors, t, player)
  }

  /** Rules 3 to 11, from the list of columns with room. */
  ghost function Defence(cols: seq<int>, log: seq<int>, colors: seq<bool>, t: bool, player: int): int
    requires Legal(log) && |colors| == |log|
  {
    var cols3 := Drop(cols, Undercuts(log, colors, t));
    if cols3 != cols && |cols3| == 1 then cols3[0]
    else Doubles(cols3, log, colors, t, player)
  }

  /**
   * Rules 4 to 11, from the list left by rule 3. Rule 5 is the rule as
   * written: it counts the engine's wins after the opponent's move
   * (`Rule.Rule5`), which `VerdictSkipsRule5` shows never names a column
   * here.
   */
  ghost function Doubles(cols3: seq<int>, log: seq<int>, colors: seq<bool>, t: bool, player: int): int
    requires Legal(log) && |colors| == |log|
  {
    var r4 := FirstDouble(cols3, log, colors, !t, !t);
    if r4 >= 0 then r4
    else
      var r5 := FirstDouble(cols3, log, colors, t, !t);
      if r5 >= 0 then r5
      else Narrow(cols3, log, colors, t, player)
  }

  /**
   * Rules 4 to 11 with rule 5 as its comment describes it: the wins of the
   * opponent, the colour t, after its move (`Rule5Misses`,
   * `Rule.Rule5Blocking`).
   */
  ghost function DoublesBlocking(cols3: seq<int>, log: seq<int>, colors: seq<bool>, t: bool, player: int): int
    requires Legal(log) && |colors| == |log|
  {
    var r4 := FirstDouble(cols3, log, colors, !t, !t);
    if r4 >= 0 then r4
    else
      var r5 := FirstDouble(cols3, log, colors, t, t);
      if r5 >= 0 then r5
      else Narrow(cols3, log, colors, t, player)
  }

  /**
   * With rule 5 corrected: when the engine has no fork of its own, a
   * column of the list that would give the opponent a fork makes rules 4
   * to 11 answer with a column after which the opponent would have two
   * winning columns.
   */
  lemma DoublesBlocks(cols3: seq<int>, log: seq<int>, colors: seq<bool>, t: bool, player: int, c: int)
    requires Legal(log) && |colors| == |log|
    requires FirstDouble(cols3, log, colors, !t, !t) == -1
    requires c in cols3 && Open(log, c) && WinCount(log + [c], colors + [t], t, Width) >= 2
    ensures var r := DoublesBlocking(cols3, log, colors, t, player);
            Open(log, r) && exists c1, c2 :: (0 <= c1 < c2 < Width &&
              c1 in Winners(log + [r], colors + [t], t) && c2 in Winners(log + [r], colors + [t], t))
  {
    FirstDoubleFork(cols3, log, colors, t, t);
    var i :| 0 <= i < |cols3| && cols3[i] == c;
  }

  /** Rules 6 to 11, from the list left by rule 3. */
  ghost function Narrow(cols3: seq<int>, log: seq<int>, colors: seq<bool>, t: bool, player: int): int
    requires Legal(log) && |colors| == |log|
  {
    var cols6 := Drop(cols3, Overcuts(log, colors, t));
    if cols6 != cols3 && |cols6| == 1 then cols6[0]
    else Shape(cols6, log, colors, t, player)
  }

  /** Rules 7 to 11, from the list left by rules 3 and 6. */
  ghost function Shape(cols: seq<int>, log: seq<int>, colors: seq<bool>, t: bool, player: int): int
    requires Legal(log) && |colors| == |log|
  {
    var r := Threats(cols, log, colors, t, player);
    if r >= 0 then r else Opening(cols, log)
  }

  /** Rules 7, 7_1, 8 and 8_1: the first of them that names a column, else -1. */
  ghost function Threats(cols: seq<int>, log: seq<int>, colors: seq<bool>, t: bool, player: int): int
    requires |colors| == |log|
  {
    var r7 := Central(ThreeCols(cols, log, colors, !t, player));
    if r7 >= 0 then r7
    else
      var r71 := Central(ThreeCols(cols, log, colors, t, player));
      if r71 >= 0 then r71
      else
        var r8 := Central(PairCols(cols, log, colors, !t, player));
        if r8 >= 0 then r8
        else Central(PairCols(cols, log, colors, t, player))
  }

  /** Rules 9, 10 and 11: the first of them that names a column, else -1. */
  ghost function Opening(cols: seq<int>, log: seq<int>): int
    requires Legal(log)
  {
    if Rule9(log) >= 0 then Rule9(log)
    else if Rule10(log, cols) >= 0 then Rule10(log, cols)
    else if |log| != 0 then FirstIn(CentreOrder, cols)
    else -1
  }

  /**
   * col is what `solver` plays when rules 1 to 11 give v: v itself when it
   * names a column, else, at the start of the game, column 2 or 4 (rule 12),
   * and otherwise a column with room (rule 13).
   */
  ghost predicate Takes(col: int, v: int, log: seq<int>)
  {
    (v >= 0 ==> col == v) &&
    (v < 0 && |log| == 0 ==> col == 2 || col == 4) &&
    (v < 0 && |log| != 0 ==> Open(log, col))
  }

  /**
   * col is a choice `solver` may make: the verdict of rules 1 to 11 when
   * there is one, else, at the start of the game, column 2 or 4 (rule 12),
   * and otherwise a column with room (rule 13).
   */
  ghost predicate Chose(col: int, log: seq<int>, colors: seq<bool>, t: bool, player: int)
    requires Legal(log) && |colors| == |log|
  {
    Takes(col, Verdict(log, colors, t, player), log)
  }

  /** `Central` names an entry of a list that is not empty. */
  lemma CentralIn(temp: seq<int>)
    ensures |temp| > 0 ==> Central(temp) in temp
  {
    if |temp| >= 2 {
      var index := Nearest(temp, |temp|).1;
      assert index >= 0 ==> temp[index] in temp;
      assert temp[|temp| - 1] in temp;
    } else if |temp| == 1 {
      assert temp[0] in temp;
    }
  }

  /** `Repeat` holds only its entry. */
  lemma RepeatIn(c: int, k: int)
    ensures forall x :: x in Repeat(c, k) ==> x == c
  {
    if k > 0 {
      RepeatIn(c, k - 1);
    }
  }

  /** Rule 7's list holds columns of cols with room. */
  lemma {:induction false} ThreeColsIn(cols: seq<int>, log: seq<int>, colors: seq<bool>, s: bool, player: int)
    requires |colors| == |log|
    ensures forall c :: c in ThreeCols(cols, log, colors, s, player) ==> c in cols && Open(log, c)
  {
    if |cols| > 0 {
      var n := |cols| - 1;
      var c := cols[n];
      ThreeColsIn(cols[..n], log, colors, s, player);
      if c != 0 && c != 6 && Open(log, c) {
        RepeatIn(c, Threes(log, colors, s, player, c));
      }
      assert cols == cols[..n] + [c];
    }
  }

  /** Rule 8's list holds columns of cols. */
  lemma {:induction false} PairColsIn(cols: seq<int>, log: seq<int>, colors: seq<bool>, s: bool, player: int)
    requires |colors| == |log|
    ensures forall c :: c in PairCols(cols, log, colors, s, player) ==> c in cols
  {
    if |cols| > 0 {
      var n := |cols| - 1;
      PairColsIn(cols[..n], log, colors, s, player);
      assert cols == cols[..n] + [cols[n]];
    }
  }

  /** Rules 7 to 11 name -1 or a column of cols with room (rule 9 a column with room). */
  lemma ShapeOpen(cols: seq<int>, log: seq<int>, colors: seq<bool>, t: bool, player: int)
    requires Legal(log) && |colors| == |log| && Allowed(log, cols)
    ensures Shape(cols, log, colors, t, player) == -1 || Open(log, Shape(cols, log, colors, t, player))
  {
    ThreeColsIn(cols, log, colors, !t, player);
    ThreeColsIn(cols, log, colors, t, player);
    PairColsIn(cols, log, colors, !t, player);
    PairColsIn(cols, log, colors, t, player);
    CentralIn(ThreeCols(cols, log, colors, !t, player));
    CentralIn(ThreeCols(cols, log, colors, t, player));
    CentralIn(PairCols(cols, log, colors, !t, player));
    CentralIn(PairCols(cols, log, colors, t, player));
    FirstInMeans(CentreOrder, cols);
  }

  /** Rules 3 to 11 name -1 or a column of cols with room. */
  lemma DefenceOpen(cols: seq<int>, log: seq<int>, colors: seq<bool>, t: bool, player: int)
    requires Legal(log) && |colors| == |log| && Allowed(log, cols)
    ensures Defence(cols, log, colors, t, player) == -1 || Open(log, Defence(cols, log, colors, t, player))
  {
    var cols3 := Drop(cols, Undercuts(log, colors, t));
    DropKeeps(cols, Undercuts(log, colors, t));
    if |cols3| == 1 {
      assert cols3[0] in cols3;
    }
    DoublesOpen(cols3, log, colors, t, player);
  }

  /** Rules 4 to 11 name -1 or a column of cols3 with room. */
  lemma DoublesOpen(cols3: seq<int>, log: seq<int>, colors: seq<bool>, t: bool, player: int)
    requires Legal(log) && |colors| == |log| && Allowed(log, cols3)
    ensures Doubles(cols3, log, colors, t, player) == -1 || Open(log, Doubles(cols3, log, colors, t, player))
  {
    var cols6 := Drop(cols3, Overcuts(log, colors, t));
    DropKeeps(cols3, Overcuts(log, colors, t));
    if |cols6| == 1 {
      assert cols6[0] in cols6;
    }
    FirstDoubleIn(cols3, log, colors, !t, !t);
    FirstDoubleIn(cols3, log, colors, t, !t);
    ShapeOpen(cols6, log, colors, t, player);
  }

  /** Rules 1 to 11 name -1 or a column with room. */
  lemma VerdictOpen(log: seq<int>, colors: seq<bool>, t: bool, player: int)
    requires Legal(log) && |colors| == |log|
    ensures Verdict(log, colors, t, player) == -1 || Open(log, Verdict(log, colors, t, player))
  {
    var cols := Possibles(Range(Width), log);
    PossiblesKeep(Range(Width), log);
    FirstWinMeans(cols, log, colors, !t);
    FirstWinMeans(cols, log, colors, t);
    DefenceOpen(cols, log, colors, t, player);
  }

  /**
   * Inside `solver`, rule 5 as written is reached only after rule 1 found
   * no immediate win for the engine, and then it gives -1 on any list: the
   * chain behaves as if rule 5 were not there.
   */
  lemma VerdictSkipsRule5(cols: seq<int>, log: seq<int>, colors: seq<bool>, t: bool)
    requires Legal(log) && |colors| == |log| && (|log| != 4 || Alternate(colors))
    requires FirstWin(Possibles(Range(Width), log), log, colors, !t) == -1
    ensures FirstDouble(cols, log, colors, t, !t) == -1
  {
    var all := Possibles(Range(Width), log);
    RangeHas(Width);
    PossiblesKeep(Range(Width), log);
    FirstWinMeans(all, log, colors, !t);
    forall d | Open(log, d)
      ensures !WinsWith(log, colors, d, !t)
    {
      assert d in all;
      var k :| 0 <= k < |all| && all[k] == d;
    }
    Rule5Idle(cols, log, colors, t);
  }

  /** Whatever `solver` may choose is a column with room: the engine never plays an illegal move. */
  lemma ChoseOpen(col: int, log: seq<int>, colors: seq<bool>, t: bool, player: int)
    requires Legal(log) && |colors| == |log| && Chose(col, log, colors, t, player)
    ensures Open(log, col)
  {
    VerdictOpen(log, colors, t, player);
    if Verdict(log, colors, t, player) < 0 && |log| == 0 {
      assert Count(log, col) == 0;
    }
  }

  /** When the engine can win at once, `solver` plays a winning column. */
  lemma VerdictWins(log: seq<int>, colors: seq<bool>, t: bool, player: int, c: int)
    requires Legal(log) && |colors| == |log| && Open(log, c) && WinsWith(log, colors, c, !t)
    ensures Open(log, Verdict(log, colors, t, player)) && WinsWith(log, colors, Verdict(log, colors, t, player), !t)
  {
    var cols := Possibles(Range(Width), log);
    RangeHas(Width);
    PossiblesKeep(Range(Width), log);
    FirstWinMeans(cols, log, colors, !t);
    assert c in cols;
    var k :| 0 <= k < |cols| && cols[k] == c;
  }

  /**
   * When the engine cannot win at once and the opponent could, `solver`
   * plays a column where the opponent would win: it takes the cell.
   */
  lemma VerdictBlocks(log: seq<int>, colors: seq<bool>, t: bool, player: int, c: int)
    requires Legal(log) && |colors| == |log| && Open(log, c) && WinsWith(log, colors, c, t)
    requires forall d :: 0 <= d < Width && Open(log, d) ==> !WinsWith(log, colors, d, !t)
    ensures Open(log, Verdict(log, colors, t, player)) && WinsWith(log, colors, Verdict(log, colors, t, player), t)
  {
    var cols := Possibles(Range(Width), log);
    RangeHas(Width);
    PossiblesKeep(Range(Width), log);
    FirstWinMeans(cols, log, colors, !t);
    FirstWinMeans(cols, log, colors, t);
    assert c in cols;
    var k :| 0 <= k < |cols| && cols[k] == c;
  }

  // -----------------------------------------------------------------------
  // The player

  /** Every entry of cols names a column. */
  ghost predicate InRange(cols: seq<int>)
  {
    forall c :: c in cols ==> 0 <= c < Width
  }

  /** Every entry of cols is a column with room. */
  ghost predicate Allowed(log: seq<int>, cols: seq<int>)
  {
    forall c :: c in cols ==> Open(log, c)
  }

  /** The rule-based player: a board and the list of columns it still allows. */
  class Rule {
    const board: Board
    var colList: seq<int>

    /** A new game for the engine moving first (player 0) or second (player 1), every column allowed. */
    constructor(player: int)
      ensures fresh(board) && board.Valid() && board.Alternating()
      ensures board.player == player && board.log == [] && !board.neverSymmetry
      ensures colList == Range(Width)
    {
      board := new Board(player);
      colList := [0, 1, 2, 3, 4, 5, 6];
    }

    /** `rule1`: the first column of `colList` with room where the engine wins at once, or -1. */
    method Rule1() returns (r: int)
      requires board.Valid() && InRange(colList)
      modifies board
      ensures At(board, old(PoseOf(board)))
      ensures r == FirstWin(colList, old(board.log), old(board.colors), !old(board.top))
    {
      ghost var p := PoseOf(board);
      for i := 0 to |colList|
        invariant At(board, p)
        invariant FirstWin(colList, p.log, p.colors, !p.top) == FirstWin(colList[i..], p.log, p.colors, !p.top)
      {
        var col := colList[i];
        assert col in colList;
        if board.Possible(col) {
          var w := WinsAt(board, col);
          if w {
            return col;
          }
        }
        assert colList[i..][1..] == colList[i + 1..];
      }
      return -1;
    }

    /** `rule2`: the first column of `colList` where the opponent would win at once, or -1. */
    method Rule2() returns (r: int)
      requires board.Valid() && Allowed(board.log, colList)
      modifies board
      ensures At(board, old(PoseOf(board)))
      ensures r == FirstWin(colList, old(board.log), old(board.colors), old(board.top))
    {
      ghost var p := PoseOf(board);
      Turn(board);
      for i := 0 to |colList|
        invariant At(board, p.(top := !p.top))
        invariant FirstWin(colList, p.log, p.colors, p.top) == FirstWin(colList[i..], p.log, p.colors, p.top)
      {
        var col := colList[i];
        assert col in colList;
        var w := WinsAt(board, col);
        if w {
          Turn(board);
          return col;
        }
        assert colList[i..][1..] == colList[i + 1..];
      }
      Turn(board);
      return -1;
    }

    /** `rule3`: `colList` loses the columns under which the opponent would win. */
    method Rule3()
      requires board.Valid() && Allowed(board.log, colList)
      modifies this, board
      ensures At(board, old(PoseOf(board)))
      ensures colList == Drop(old(colList), Undercuts(old(board.log), old(board.colors), old(board.top)))
    {
      ghost var p := PoseOf(board);
      var temp := colList;
      for i := 0 to |temp|
        invariant At(board, p)
        invariant colList == Drop(temp[..i], Undercuts(p.log, p.colors, p.top)) + temp[i..]
      {
        var col := temp[i];
        assert col in temp;
        var u := UndercutAt(board, col);
        DropStep(temp, i, Undercuts(p.log, p.colors, p.top), colList);
        if u {
          colList := Remove(colList, col);
        }
      }
      assert temp[..|temp|] == temp;
    }

    /** `rule4`: the first column of `colList` after which the engine has two or more immediate wins, or -1. */
    method Rule4() returns (r: int)
      requires board.Valid() && InRange(colList)
      modifies board
      ensures At(board, old(PoseOf(board)))
      ensures r == FirstDouble(colList, old(board.log), old(board.colors), !old(board.top), !old(board.top))
    {
      ghost var p := PoseOf(board);
      for i := 0 to |colList|
        invariant At(board, p)
        invariant FirstDouble(colList, p.log, p.colors, !p.top, !p.top) == FirstDouble(colList[i..], p.log, p.colors, !p.top, !p.top)
      {
        var col := colList[i];
        assert col in colList;
        var count := 0;
        if board.Possible(col) {
          count := ForkAt(board, col);
          if count >= 2 {
            return col;
          }
        }
        assert colList[i..][1..] == colList[i + 1..];
      }
      return -1;
    }

    /**
     * `rule5` as written: the first column of `colList` after which, the
     * opponent having played it, the engine has two or more immediate wins,
     * or -1. Its comment promises the opponent's wins; `Rule5Misses` shows a
     * fork this misses, and `Rule5Blocking` is the rule as intended.
     */
    method Rule5() returns (r: int)
      requires board.Valid() && Allowed(board.log, colList)
      modifies board
      ensures At(board, old(PoseOf(board)))
      ensures r == FirstDouble(colList, old(board.log), old(board.colors), old(board.top), !old(board.top))
    {
      ghost var p := PoseOf(board);
      Turn(board);
      for i := 0 to |colList|
        invariant At(board, p.(top := !p.top))
        invariant FirstDouble(colList, p.log, p.colors, p.top, !p.top) == FirstDouble(colList[i..], p.log, p.colors, p.top, !p.top)
      {
        var col := colList[i];
        assert col in colList;
        var count := ReplyAt(board, col);
        if count >= 2 {
          Turn(board);
          return col;
        }
        assert colList[i..][1..] == colList[i + 1..];
      }
      Turn(board);
      return -1;
    }

    /**
     * `rule5` as its comment describes it, the rule `ForksBlocking` uses: the first
     * column of `colList` after which the opponent, having played it, would
     * have two or more immediate wins, or -1. The opponent plays col after
     * `posReverse`, and a second `posReverse` before the inner loop counts
     * the opponent's wins, as `rule4` does for the engine.
     */
    method Rule5Blocking() returns (r: int)
      requires board.Valid() && Allowed(board.log, colList)
      modifies board
      ensures At(board, old(PoseOf(board)))
      ensures r == FirstDouble(colList, old(board.log), old(board.colors), old(board.top), old(board.top))
    {
      ghost var p := PoseOf(board);
      Turn(board);
      for i := 0 to |colList|
        invariant At(board, p.(top := !p.top))
        invariant FirstDouble(colList, p.log, p.colors, p.top, p.top) == FirstDouble(colList[i..], p.log, p.colors, p.top, p.top)
      {
        var col := colList[i];
        assert col in colList;
        var count := ForkAt(board, col);
        if count >= 2 {
          Turn(board);
          return col;
        }
        assert colList[i..][1..] == colList[i + 1..];
      }
      Turn(board);
      return -1;
    }

    /** `rule6`: `colList` loses the columns that would spoil a second stone of the engine on top. */
    method Rule6()
      requires board.Valid() && Allowed(board.log, colList)
      modifies this, board
      ensures At(board, old(PoseOf(board)))
      ensures colList == Drop(old(colList), Overcuts(old(board.log), old(board.colors), old(board.top)))
    {
      ghost var p := PoseOf(board);
      var temp := colList;
      for i := 0 to |temp|
        invariant At(board, p)
        invariant colList == Drop(temp[..i], Overcuts(p.log, p.colors, p.top)) + temp[i..]
      {
        var col := temp[i];
        assert col in temp;
        var u := OvercutAt(board, col);
        DropStep(temp, i, Overcuts(p.log, p.colors, p.top), colList);
        if u {
          colList := Remove(colList, col);
        }
      }
      assert temp[..|temp|] == temp;
    }

    /** `rule7`: of the columns where the engine's stone makes an open three, the one `Central` names. */
    method Rule7() returns (r: int)
      requires board.Valid() && InRange(colList)
      modifies board
      ensures At(board, old(PoseOf(board)))
      ensures r == Central(ThreeCols(colList, old(board.log), old(board.colors), !old(board.top), board.player))
    {
      ghost var p := PoseOf(board);
      var temp := [];
      for i := 0 to |colList|
        invariant At(board, p)
        invariant temp == ThreeCols(colList[..i], p.log, p.colors, !p.top, board.player)
      {
        var col := colList[i];
        assert col in colList;
        ThreeColsPush(colList, i, p.log, p.colors, !p.top, board.player);
        if col == 0 || col == 6 {
          continue;
        }
        if board.Possible(col) {
          temp := ThreeAt(board, col, temp);
        }
      }
      assert colList[..|colList|] == colList;
      r := PickCentre(temp);
    }

    /** `rule7_1`: of the columns where the opponent's stone would make an open three, the one `Central` names. */
    method Rule7_1() returns (r: int)
      requires board.Valid() && InRange(colList)
      modifies board
      ensures At(board, old(PoseOf(board)))
      ensures r == Central(ThreeCols(colList, old(board.log), old(board.colors), old(board.top), board.player))
    {
      ghost var p := PoseOf(board);
      var temp := [];
      Turn(board);
      for i := 0 to |colList|
        invariant At(board, p.(top := !p.top))
        invariant temp == ThreeCols(colList[..i], p.log, p.colors, p.top, board.player)
      {
        var col := colList[i];
        assert col in colList;
        ThreeColsPush(colList, i, p.log, p.colors, p.top, board.player);
        if col == 0 || col == 6 {
          continue;
        }
        if board.Possible(col) {
          temp := ThreeAt(board, col, temp);
        }
      }
      Turn(board);
      assert colList[..|colList|] == colList;
      r := PickCentre(temp);
    }

    /** `rule8`: of the columns where the engine's stone makes an open pair, the one `Central` names. */
    method Rule8() returns (r: int)
      requires board.Valid() && Allowed(board.log, colList)
      modifies board
      ensures At(board, old(PoseOf(board)))
      ensures r == Central(PairCols(colList, old(board.log), old(board.colors), !old(board.top), board.player))
    {
      ghost var p := PoseOf(board);
      var temp := [];
      for i := 0 to |colList|
        invariant At(board, p)
        invariant temp == PairCols(colList[..i], p.log, p.colors, !p.top, board.player)
      {
        var col := colList[i];
        assert col in colList;
        PairColsPush(colList, i, p.log, p.colors, !p.top, board.player);
        var pair := PairAt(board, col);
        if pair {
          temp := temp + [col];
        }
      }
      assert colList[..|colList|] == colList;
      r := PickCentre(temp);
    }

    /** `rule8_1`: of the columns where the opponent's stone would make an open pair, the one `Central` names. */
    method Rule8_1() returns (r: int)
      requires board.Valid() && Allowed(board.log, colList)
      modifies board
      ensures At(board, old(PoseOf(board)))
      ensures r == Central(PairCols(colList, old(board.log), old(board.colors), old(board.top), board.player))
    {
      ghost var p := PoseOf(board);
      var temp := [];
      Turn(board);
      for i := 0 to |colList|
        invariant At(board, p.(top := !p.top))
        invariant temp == PairCols(colList[..i], p.log, p.colors, p.top, board.player)
      {
        var col := colList[i];
        assert col in colList;
        PairColsPush(colList, i, p.log, p.colors, p.top, board.player);
        var pair := PairAt(board, col);
        if pair {
          temp := temp + [col];
        }
      }
      Turn(board);
      assert colList[..|colList|] == colList;
      r := PickCentre(temp);
    }

    /** `rule11`: once a move was made, the column of `colList` first in the centre order, or -1. */
    method Rule11() returns (r: int)
      requires board.Valid()
      ensures r == if |board.log| != 0 then FirstIn(CentreOrder, colList) else -1
    {
      if |board.log| != 0 {
        var order := CentreOrder;
        for i := 0 to |order|
          invariant FirstIn(order, colList) == FirstIn(order[i..], colList)
        {
          if order[i] in colList {
            return order[i];
          }
          assert order[i..][1..] == order[i + 1..];
        }
      }
      return -1;
    }

    /** `rule12`: at the start of the game, column 2 or column 4 at random; -1 after. */
    method Rule12() returns (r: int)
      requires board.Valid()
      ensures |board.log| == 0 ==> r == 2 || r == 4
      ensures |board.log| != 0 ==> r == -1
    {
      if |board.log| == 0 {
        r :| r in [2, 4];
      } else {
        r := -1;
      }
    }

    /** `rule13`: when `colList` is empty, any column with room, drawn at random; -1 otherwise. */
    method Rule13() returns (r: int)
      requires board.Valid() && (|colList| == 0 ==> |board.log| < Cells)
      ensures |colList| == 0 ==> Open(board.log, r)
      ensures |colList| != 0 ==> r == -1
    {
      if |colList| == 0 {
        var c := NotFull(board.log);
        assert Open(board.log, c);
        r :| 0 <= r < Width && Open(board.log, r);
      } else {
        r := -1;
      }
    }
  
    /**
     * `solver`: `colList` set to the columns with room, then rules 1 to 13
     * in turn until one names a column.
     */
    method Solver() returns (col: int)
      requires board.Valid() && |board.log| < Cells
      modifies this, board
      ensures At(board, old(PoseOf(board)))
      ensures Chose(col, old(board.log), old(board.colors), old(board.top), board.player)
      ensures Open(old(board.log), col)
    {
      ghost var p := PoseOf(board);
      Reset();
      col := Rule1();
      if col < 0 {
        col := Rule2();
        if col < 0 {
          col := Defend(p);
        }
      }
      ChoseOpen(col, p.log, p.colors, p.top, board.player);
    }

    /** The start of `solver`: `colList` becomes the columns with room, left to right. */
    method Reset()
      requires board.Valid()
      modifies this
      ensures colList == Possibles(Range(Width), board.log)
      ensures Allowed(board.log, colList) && InRange(colList)
    {
      colList := [];
      for c := 0 to Width
        invariant colList == Possibles(Range(c), board.log)
      {
        PossiblesAppend(Range(c), c, board.log);
        if board.Possible(c) {
          colList := colList + [c];
        }
      }
      PossiblesKeep(Range(Width), board.log);
    }

    /**
     * Rules 3 to 13 of `solver`; when rule 3 changed the list and left only
     * one column, that column.
     */
    method Defend(ghost p: Pose) returns (col: int)
      requires At(board, p) && |p.log| < Cells && Allowed(p.log, colList)
      modifies this, board
      ensures At(board, p)
      ensures Takes(col, Defence(old(colList), p.log, p.colors, p.top, board.player), p.log)
    {
      var temp := colList;
      Rule3();
      DropKeeps(temp, Undercuts(p.log, p.colors, p.top));
      if colList != temp && |colList| == 1 {
        return colList[0];
      }
      col := Forks(p);
    }

    /** Rules 4 to 13 of `solver`. */
    method Forks(ghost p: Pose) returns (col: int)
      requires At(board, p) && |p.log| < Cells && Allowed(p.log, colList)
      modifies this, board
      ensures At(board, p)
      ensures Takes(col, Doubles(old(colList), p.log, p.colors, p.top, board.player), p.log)
    {
      col := Rule4();
      if col < 0 {
        col := Rule5();
        if col < 0 {
          col := Narrows(p);
        }
      }
    }

    /** Rules 4 to 13 with rule 5 corrected, as its comment describes it. */
    method ForksBlocking(ghost p: Pose) returns (col: int)
      requires At(board, p) && |p.log| < Cells && Allowed(p.log, colList)
      modifies this, board
      ensures At(board, p)
      ensures Takes(col, DoublesBlocking(old(colList), p.log, p.colors, p.top, board.player), p.log)
    {
      col := Rule4();
      if col < 0 {
        col := Rule5Blocking();
        if col < 0 {
          col := Narrows(p);
        }
      }
    }

    /**
     * Rules 6 to 13 of `solver`; when rule 6 changed the list and left only
     * one column, that column.
     */
    method Narrows(ghost p: Pose) returns (col: int)
      requires At(board, p) && |p.log| < Cells && Allowed(p.log, colList)
      modifies this, board
      ensures At(board, p)
      ensures Takes(col, Narrow(old(colList), p.log, p.colors, p.top, board.player), p.log)
    {
      var temp := colList;
      Rule6();
      DropKeeps(temp, Overcuts(p.log, p.colors, p.top));
      if colList != temp && |colList| == 1 {
        return colList[0];
      }
      col := Shapes(p);
    }

    /** Rules 7 to 13 of `solver`. */
    method Shapes(ghost p: Pose) returns (col: int)
      requires At(board, p) && |p.log| < Cells && Allowed(p.log, colList)
      modifies board
      ensures At(board, p)
      ensures Takes(col, Shape(colList, p.log, p.colors, p.top, board.player), p.log)
    {
      col := Rule7();
      if col < 0 {
        col := Rule7_1();
        if col < 0 {
          col := Rule8();
          if col < 0 {
            col := Rule8_1();
          }
        }
      }
      assert col == Threats(colList, p.log, p.colors, p.top, board.player);
      if col < 0 {
        col := Openings();
      }
    }

    /** Rules 9 to 13 of `solver`. */
    method Openings() returns (col: int)
      requires board.Valid() && |board.log| < Cells && Allowed(board.log, colList)
      ensures Takes(col, Opening(colList, board.log), board.log)
    {
      col := Rule9(board.log);
      if col >= 0 {
        return;
      }
      col := Rule10(board.log, colList);
      if col >= 0 {
        return;
      }
      col := Rule11();
      if col >= 0 {
        return;
      }
      col := Rule12();
      if col >= 0 {
        return;
      }
      if |colList| > 0 {
        FirstInNearest(colList);
      }
      col := Rule13();
      if col >= 0 {
        return;
      }
      // rule 11 or rule 12 has answered: `random.choice(self.colList)` is never reached
      assert false;
    }
  }
}
