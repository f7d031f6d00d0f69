/**
 * The game tree: depth-limited minimax with alpha-beta pruning over the
 * shared board, two memo tables and the move choice at the root.
 *
 * Scores come in three classes. A position where the last mover has four
 * in a line scores 1000 + 42 - moves + 1, negative when the engine lost;
 * a full board scores 1000; a position at the depth limit scores its
 * heuristic value. Scores of magnitude at least 1000 are kept in `data`
 * by position key, the others in `heuData` by depth limit and key.
 */
module GameTrees {
  import opened BoardState
  import opened Mirrors
  import opened Boards
  import opened Heuristics
  import opened Probes

  datatype Option<T> = None | Some(value: T)

  // -----------------------------------------------------------------------
  // Scores

  function Abs(x: int): int
  {
    if x < 0 then -x else x
  }

  /**
   * The score of a won position after m moves: 1000 + 42 - m + 1, negated
   * when it is the engine's turn, that is when the opponent made the last move.
   */
  function WinScore(m: int, maxTurn: bool): int
  {
    var s := 1000 + Cells - m + 1;
    if maxTurn then -s else s
  }

  /** A won score lies outside the draw score and the heuristic class, with the sign of the winner. */
  lemma WinScoreClass(m: int, maxTurn: bool)
    requires 0 <= m <= Cells
    ensures Abs(WinScore(m, maxTurn)) > 1000
    ensures WinScore(m, maxTurn) > 0 <==> !maxTurn
  {}

  /** A sooner win scores higher and a sooner loss lower. */
  lemma WinSooner(m1: int, m2: int)
    requires m1 < m2
    ensures WinScore(m1, false) > WinScore(m2, false)
    ensures WinScore(m1, true) < WinScore(m2, true)
  {}

  /**
   * The ply cap after a proven win: for the score of a win after m moves,
   * 42 - (score - 1000) + 1 - moves is m - moves, the number of moves to that win.
   */
  lemma PlyToWin(m: int, moves: int)
    ensures PlyCap(WinScore(m, false), moves) == m - moves
  {}

  /** `maxPly` of `search`: the depth a proven win with child score score needs from a position after moves moves. */
  function PlyCap(score: int, moves: int): int
  {
    (Cells - (score - 1000) + 1) - moves
  }

  /**
   * `maxTurn` is `moves % 2 == player`. In a game of alternating moves
   * started by player 0, that is exactly when the stone to play has the
   * colour of the engine playing as `player`.
   */
  lemma MaxTurnMeans(colors: seq<bool>, player: int)
    requires Alternate(colors) && (player == 0 || player == 1)
    ensures (|colors| % 2 == player) <==> ((|colors| % 2 == 0) == (player == 0))
    ensures |colors| > 0 ==> ((|colors| % 2 == player) <==> colors[|colors| - 1] != (player == 0))
  {}

  /**
   * Seen from the engine: in alternating play a won position has the
   * stone of the last mover in line, and its score is positive exactly when
   * that stone is the engine's.
   */
  lemma WinSign(colors: seq<bool>, player: int)
    requires Alternate(colors) && |colors| > 0 && |colors| <= Cells && (player == 0 || player == 1)
    ensures WinScore(|colors|, |colors| % 2 == player) > 0 <==> colors[|colors| - 1] == (player == 0)
  {
    MaxTurnMeans(colors, player);
    WinScoreClass(|colors|, |colors| % 2 == player);
  }

  /** Every entry of `data` is a won, lost or drawn score. */
  ghost predicate Certain(data: map<int, int>)
  {
    forall k :: k in data ==> Abs(data[k]) >= 1000
  }

  /** The entries of m0 are still in m, unchanged. */
  ghost predicate Grows(m0: map<int, int>, m: map<int, int>)
  {
    forall k :: k in m0 ==> k in m && m[k] == m0[k]
  }

  /** The buckets of h0 are still in h and each keeps its entries. */
  ghost predicate Deepens(h0: map<int, map<int, int>>, h: map<int, map<int, int>>)
  {
    forall d :: d in h0 ==> d in h && Grows(h0[d], h[d])
  }

  lemma GrowsTrans(m0: map<int, int>, m1: map<int, int>, m2: map<int, int>)
    requires Grows(m0, m1) && Grows(m1, m2)
    ensures Grows(m0, m2)
  {}

  lemma DeepensTrans(h0: map<int, map<int, int>>, h1: map<int, map<int, int>>, h2: map<int, map<int, int>>)
    requires Deepens(h0, h1) && Deepens(h1, h2)
    ensures Deepens(h0, h2)
  {
    forall d | d in h0
      ensures d in h2 && Grows(h0[d], h2[d])
    {
      GrowsTrans(h0[d], h1[d], h2[d]);
    }
  }

  /** The bucket of depth limit d, empty when there is none yet. */
  function Bucket(h: map<int, map<int, int>>, d: int): map<int, int>
  {
    if d in h then h[d] else map[]
  }

  /** Writing a key that m0 did not have keeps the entries of m0. */
  lemma GrowsStore(m0: map<int, int>, m1: map<int, int>, m2: map<int, int>, k: int, v: int)
    requires Grows(m0, m1) && k !in m0 && m2 == m1[k := v]
    ensures Grows(m0, m2)
  {}

  /** Writing a key that bucket d of h0 did not have keeps every bucket's entries of h0. */
  lemma DeepensStore(h0: map<int, map<int, int>>, h1: map<int, map<int, int>>, h2: map<int, map<int, int>>, d: int, k: int, v: int)
    requires Deepens(h0, h1) && !(d in h0 && k in h0[d]) && h2 == h1[d := Bucket(h1, d)[k := v]]
    ensures Deepens(h0, h2)
  {
    forall e | e in h0
      ensures e in h2 && Grows(h0[e], h2[e])
    {
      if e == d {
        GrowsStore(h0[d], h1[d], h2[d], k, v);
      }
    }
  }

  // -----------------------------------------------------------------------
  // Column orders

  /** The order `getColOrder` gives in general: the centre first, then outwards, left before right. */
  const CentreOrder: seq<int> := [3, 2, 4, 1, 5, 0, 6]

  /** The order on a symmetric board: the centre and the left half. */
  const HalfOrder: seq<int> := [3, 2, 1, 0]

  /** The order for the first move of the game: the left half without the centre. */
  const FirstOrder: seq<int> := [2, 1, 0]

  /** Distance of column c from the centre column. */
  function Off(c: int): int
  {
    Abs(c - 3)
  }

  /** Every entry names a column. */
  ghost predicate Columns7(cols: seq<int>)
  {
    forall i :: 0 <= i < |cols| ==> 0 <= cols[i] < Width
  }

  /** No column appears twice. */
  ghost predicate Distinct(cols: seq<int>)
  {
    forall i, j :: 0 <= i < j < |cols| ==> cols[i] != cols[j]
  }

  /**
   * The centre order visits each column once, nearer the centre before
   * farther, and of two columns as near the left one first.
   */
  lemma CentreOrderSpreads()
    ensures Columns7(CentreOrder) && Distinct(CentreOrder)
    ensures forall c :: 0 <= c < Width ==> c in CentreOrder
    ensures forall i, j :: 0 <= i < j < |CentreOrder| ==>
      Off(CentreOrder[i]) < Off(CentreOrder[j]) || (Off(CentreOrder[i]) == Off(CentreOrder[j]) && CentreOrder[i] < CentreOrder[j])
  {}

  /** The half order holds, for every column, the column or its mirror image. */
  lemma HalfOrderCovers()
    ensures Columns7(HalfOrder) && Distinct(HalfOrder)
    ensures forall c :: 0 <= c < Width ==> c in HalfOrder || Width - 1 - c in HalfOrder
  {}

  /** The first-move order holds, for every column but the centre, the column or its mirror image, and never the centre. */
  lemma FirstOrderCovers()
    ensures Columns7(FirstOrder) && Distinct(FirstOrder) && 3 !in FirstOrder
    ensures forall c :: 0 <= c < Width && c != 3 ==> c in FirstOrder || Width - 1 - c in FirstOrder
  {}

  /** On a symmetric board a column and its mirror image have the same height. */
  lemma MirrorHeight(log: seq<int>, colors: seq<bool>, c: int)
    requires |colors| == |log| && Symmetric(Grid(log, colors)) && 0 <= c < Width
    ensures Count(log, Width - 1 - c) == Count(log, c)
  {
    var g := Grid(log, colors);
    assert g[c] == Tower(log, colors, c) && g[Width - 1 - c] == Tower(log, colors, Width - 1 - c);
    TowerHeight(log, colors, c);
    TowerHeight(log, colors, Width - 1 - c);
  }

  /** Column c has room. */
  predicate Open(log: seq<int>, c: int)
  {
    0 <= c < Width && Count(log, c) < Height
  }

  /** The columns of cols that have room, in the order of cols. */
  function Possibles(cols: seq<int>, log: seq<int>): seq<int>
  {
    if |cols| == 0 then []
    else Possibles(cols[..|cols| - 1], log) + (if Open(log, cols[|cols| - 1]) then [cols[|cols| - 1]] else [])
  }

  lemma PossiblesAppend(cols: seq<int>, c: int, log: seq<int>)
    ensures Possibles(cols + [c], log) == Possibles(cols, log) + (if Open(log, c) then [c] else [])
  {
    assert (cols + [c])[..|cols|] == cols;
  }

  /** The filtered order keeps exactly the columns with room. */
  lemma {:induction false} PossiblesKeep(cols: seq<int>, log: seq<int>)
    ensures forall c :: c in Possibles(cols, log) <==> c in cols && Open(log, c)
  {
    if |cols| > 0 {
      var p := cols[..|cols| - 1];
      PossiblesKeep(p, log);
      assert cols == p + [cols[|cols| - 1]];
    }
  }

  /** The position of c in s, the last one when there are several. */
  function Index(s: seq<int>, c: int): (k: int)
    requires c in s
    ensures 0 <= k < |s| && s[k] == c
  {
    if s[|s| - 1] == c then |s| - 1
    else
      assert s == s[..|s| - 1] + [s[|s| - 1]];
      Index(s[..|s| - 1], c)
  }

  /** Appending another value does not move c. */
  lemma IndexFront(p: seq<int>, x: int, c: int)
    requires c in p && c != x
    ensures Index(p + [x], c) == Index(p, c)
  {
    assert (p + [x])[..|p|] == p;
  }

  /**
   * The filtered order of a list without repeats has no repeats, and its
   * columns come in the order of cols: no column overtakes another.
   */
  lemma {:induction false} PossiblesOrder(cols: seq<int>, log: seq<int>)
    requires Distinct(cols)
    ensures Distinct(Possibles(cols, log))
    ensures forall i, j :: 0 <= i < j < |Possibles(cols, log)| ==>
      Possibles(cols, log)[i] in cols && Possibles(cols, log)[j] in cols &&
      Index(cols, Possibles(cols, log)[i]) < Index(cols, Possibles(cols, log)[j])
  {
    if |cols| > 0 {
      var n := |cols| - 1;
      var p, x := cols[..n], cols[n];
      assert cols == p + [x];
      assert Distinct(p);
      assert x !in p;
      PossiblesOrder(p, log);
      PossiblesKeep(p, log);
      PossiblesKeep(cols, log);
      var q := Possibles(p, log);
      var r := Possibles(cols, log);
      assert r == q + (if Open(log, x) then [x] else []);
      forall c | c in p
        ensures Index(cols, c) == Index(p, c) < n
      {
        IndexFront(p, x, c);
      }
      forall i | 0 <= i < |q|
        ensures r[i] == q[i] && q[i] in p
      {
        assert q[i] in q;
      }
    }
  }

  /** A board that is not full has a column with room in the order `getColOrder` gives for it. */
  lemma SomeOpen(log: seq<int>, colors: seq<bool>, order: seq<int>)
    requires Legal(log) && |colors| == |log| && |log| < Cells
    requires (order == FirstOrder && |log| == 0) || (order == HalfOrder && Symmetric(Grid(log, colors))) || order == CentreOrder
    ensures |Possibles(order, log)| > 0
  {
    var c := NotFull(log);
    PossiblesKeep(order, log);
    if order == FirstOrder {
      assert Open(log, 2) && 2 in order;
    } else if order == HalfOrder && Symmetric(Grid(log, colors)) {
      MirrorHeight(log, colors, c);
      if c > 3 {
        assert Open(log, Width - 1 - c) && Width - 1 - c in order;
      } else {
        assert c in order;
      }
    } else {
      assert c in order;
    }
  }

  // -----------------------------------------------------------------------
  // Minimax results

  /** v is the largest of the scores s. */
  ghost predicate IsMax(v: int, s: seq<int>)
  {
    (exists i :: 0 <= i < |s| && s[i] == v) && forall i :: 0 <= i < |s| ==> s[i] <= v
  }

  /** v is the smallest of the scores s. */
  ghost predicate IsMin(v: int, s: seq<int>)
  {
    (exists i :: 0 <= i < |s| && s[i] == v) && forall i :: 0 <= i < |s| ==> v <= s[i]
  }

  /**
   * The outcome of the alpha-beta loop over the child scores: the best of
   * them for the side to move, and a cut exactly when that best reaches
   * the other side's bound, which no earlier child did.
   */
  ghost predicate Pruning(score: int, children: seq<int>, pruned: bool, alpha: int, beta: int, maxTurn: bool)
  {
    |children| >= 1 &&
    (maxTurn ==> IsMax(score, children) && (pruned <==> beta <= score) &&
                 forall i :: 0 <= i < |children| - 1 ==> children[i] < beta) &&
    (!maxTurn ==> IsMin(score, children) && (pruned <==> score <= alpha) &&
                  forall i :: 0 <= i < |children| - 1 ==> alpha < children[i])
  }

  /** Without a cut, every child stays strictly inside the bound it was compared with. */
  lemma UncutInside(score: int, children: seq<int>, alpha: int, beta: int, maxTurn: bool)
    requires Pruning(score, children, false, alpha, beta, maxTurn)
    ensures maxTurn ==> forall i :: 0 <= i < |children| ==> children[i] < beta
    ensures !maxTurn ==> forall i :: 0 <= i < |children| ==> alpha < children[i]
  {}

  /**
   * The root's choice among the scored columns: the highest score, of those
   * the highest top row, of those the first visited.
   */
  ghost predicate Best(order: seq<int>, children: seq<int>, log: seq<int>, b: int)
    requires |children| == |order|
  {
    0 <= b < |order| &&
    forall i :: 0 <= i < |order| ==>
      children[i] < children[b] ||
      (children[i] == children[b] &&
        (Count(log, order[i]) < Count(log, order[b]) || (Count(log, order[i]) == Count(log, order[b]) && b <= i)))
  }

  /** The choice is unique. */
  lemma BestUnique(order: seq<int>, children: seq<int>, log: seq<int>, b1: int, b2: int)
    requires |children| == |order| && Best(order, children, log, b1) && Best(order, children, log, b2)
    ensures b1 == b2
  {
    assert children[b1] == children[b2];
  }

  /** The children seen so far leave the side to move with best score v, still inside its bound. */
  ghost predicate Running(v: int, children: seq<int>, alpha: int, beta: int, maxTurn: bool)
  {
    (maxTurn ==> IsMax(v, children) && v < beta) && (!maxTurn ==> IsMin(v, children) && alpha < v)
  }

  lemma MaxPush(v: int, s: seq<int>, c: int)
    requires |s| == 0 || IsMax(v, s)
    ensures (|s| == 0 || v < c) ==> IsMax(c, s + [c])
    ensures |s| > 0 && c <= v ==> IsMax(v, s + [c])
  {
    if |s| > 0 && c <= v {
      var i :| 0 <= i < |s| && s[i] == v;
      assert (s + [c])[i] == v;
    }
    assert (s + [c])[|s|] == c;
  }

  lemma MinPush(v: int, s: seq<int>, c: int)
    requires |s| == 0 || IsMin(v, s)
    ensures (|s| == 0 || c < v) ==> IsMin(c, s + [c])
    ensures |s| > 0 && v <= c ==> IsMin(v, s + [c])
  {
    if |s| > 0 && v <= c {
      var i :| 0 <= i < |s| && s[i] == v;
      assert (s + [c])[i] == v;
    }
    assert (s + [c])[|s|] == c;
  }

  /**
   * The columns `miniMax` searches: the order `getColOrder` gives, with
   * the full columns removed; sym is what `symmetry` answered.
   */
  ghost predicate Ordered(order: seq<int>, log: seq<int>, colors: seq<bool>, sym: bool, never: bool)
    requires |colors| == |log|
  {
    (|log| == 0 ==> order == Possibles(FirstOrder, log) && !sym) &&
    (|log| != 0 ==> order == Possibles(if sym then HalfOrder else CentreOrder, log)) &&
    (|log| != 0 && !never ==> (sym <==> Symmetric(Grid(log, colors)))) &&
    (|log| != 0 && never ==> !sym)
  }

  // -----------------------------------------------------------------------
  // The search

  /** What a search call may depend on and must give back: the fields of the tree and of the board. */
  datatype Snapshot = Snapshot(ply: int, maxScore: Option<int>, up: bool, down: bool,
                               log: seq<int>, colors: seq<bool>, top: bool, never: bool,
                               data: map<int, int>, heuData: map<int, map<int, int>>)

  /**
   * The depth `search` settles on before it scores the columns: without an
   * earlier decrease, the first p from the depth s.ply up for which
   * `heuData` has no bucket p + moves; after a decrease, s.ply itself.
   */
  ghost predicate Climbed(s: Snapshot, p: int)
  {
    s.ply <= p &&
    (s.down ==> p == s.ply) &&
    (!s.down ==> p + |s.log| !in s.heuData && forall d :: s.ply + |s.log| <= d < p + |s.log| ==> d in s.heuData)
  }

  /** A child score of the root is a proven win better than the best proven win so far. */
  predicate Proven(score: int, maxScore: Option<int>)
  {
    score > 1000 && (maxScore.None? || maxScore.value < score)
  }

  /**
   * The columns `search` scores: [2, 1, 0] on the empty board, otherwise
   * [3, 2, 1, 0] on a symmetric board and the centre order on any other,
   * with the full columns removed.
   */
  ghost predicate RootOrder(order: seq<int>, log: seq<int>, colors: seq<bool>, sym: bool, never: bool)
    requires |colors| == |log|
  {
    (|log| == 0 ==> order == FirstOrder) &&
    (|log| != 0 ==> order == Possibles(if sym then HalfOrder else CentreOrder, log)) &&
    (!never ==> (sym <==> Symmetric(Grid(log, colors)))) &&
    (never ==> !sym)
  }

  /**
   * `neverSymmetry` after `getColOrder` from a position with flag never:
   * unchanged on the empty board, where `symmetry` is not asked, and
   * otherwise set when it was set or the first differing column pair clashes.
   */
  ghost function OrderFlag(log: seq<int>, colors: seq<bool>, top: bool, never: bool): bool
    requires |colors| == |log|
  {
    if |log| == 0 then never else never || FirstClash(Grid(log, colors), top)
  }

  /** `neverSymmetry` after the `symmetry` call of `search`, which is asked on the empty board too. */
  ghost function RootFlag(log: seq<int>, colors: seq<bool>, top: bool, never: bool): bool
    requires |colors| == |log|
  {
    never || FirstClash(Grid(log, colors), top)
  }

  /** The memo buckets of the depth limits 0 to limit - 1 emptied: the same keys, and every other bucket as it was. */
  ghost predicate Purged(h0: map<int, map<int, int>>, h: map<int, map<int, int>>, limit: int)
  {
    h.Keys == h0.Keys && forall d :: d in h ==> h[d] == if 0 <= d < limit then map[] else h0[d]
  }

  /** One more column scored: the tie-break of `search` keeps `Best` for the longer prefix. */
  lemma BestPush(order: seq<int>, children: seq<int>, log: seq<int>, b: int, c: int, nb: int)
    requires |children| < |order| && (|children| == 0 || Best(order[..|children|], children, log, b))
    requires nb == if |children| == 0 || c > children[b] ||
                      (c == children[b] && Count(log, order[|children|]) > Count(log, order[b])) then |children| else b
    ensures Best(order[..|children| + 1], children + [c], log, nb)
  {
    var n := |children|;
    forall i | 0 <= i < n
      ensures order[..n + 1][i] == order[..n][i] && (children + [c])[i] == children[i]
    {}
    assert order[..n + 1][n] == order[n] && (children + [c])[n] == c;
  }

  /** The depth after a proven win with child score score: p, capped at `PlyCap`. */
  function Capped(p: int, score: int, moves: int): int
  {
    if p >= PlyCap(score, moves) then PlyCap(score, moves) else p
  }

  /**
   * The choice of the scoring loop of `search` over the columns order: a
   * proven win (`Proven` against m, the best proven win before the loop)
   * ends the loop at once with that column; otherwise every column is
   * scored and the one kept is `Best`, or -1 when there is none.
   */
  ghost predicate Picked(order: seq<int>, children: seq<int>, log: seq<int>, m: Option<int>, won: bool, bestCol: int, pick: int)
  {
    |children| <= |order| &&
    (forall i :: 0 <= i < |children| - 1 ==> !Proven(children[i], m)) &&
    (won ==> |children| > 0 && bestCol == order[|children| - 1] && Proven(children[|children| - 1], m)) &&
    (!won ==> |children| == |order| && (|children| > 0 ==> !Proven(children[|children| - 1], m)) &&
              (|order| == 0 ==> bestCol == -1) &&
              (|order| > 0 ==> Best(order, children, log, pick) && bestCol == order[pick]))
  }

  /**
   * The scoring loop of `search` after the columns of order that children
   * scores, none of them a proven win against m: with none scored, no
   * column kept; otherwise the column kept is `Best` of those scored and
   * score its score.
   */
  ghost predicate Tally(order: seq<int>, children: seq<int>, log: seq<int>, m: Option<int>,
                        score: Option<int>, bestCol: int, pick: int)
  {
    |children| <= |order| &&
    (forall j :: 0 <= j < |children| ==> !Proven(children[j], m)) &&
    (score.None? <==> |children| == 0) &&
    (|children| == 0 ==> bestCol == -1) &&
    (|children| > 0 ==> 0 <= pick < |children| && bestCol == order[pick] && score.value == children[pick] &&
                        Best(order[..|children|], children, log, pick))
  }

  /**
   * One more column scored without a proven win: it is kept when it is
   * the first, scores higher, or scores the same with more stones in its
   * column than the column kept.
   */
  lemma TallyPush(order: seq<int>, children: seq<int>, log: seq<int>, m: Option<int>,
                  score: Option<int>, bestCol: int, pick: int, c: int, better: bool)
    requires Tally(order, children, log, m, score, bestCol, pick) && |children| < |order| && !Proven(c, m)
    requires better <==> score.None? || c > score.value ||
                         (c == score.value && Count(log, order[|children|]) > Count(log, bestCol))
    ensures Tally(order, children + [c], log, m, if better then Some(c) else score,
                  if better then order[|children|] else bestCol, if better then |children| else pick)
  {
    BestPush(order, children, log, pick, c, if better then |children| else pick);
    assert forall j :: 0 <= j < |children| ==> (children + [c])[j] == children[j];
  }

  /** A proven win ends the loop with its column: `Picked` for the scores so far and the win. */
  lemma TallyWin(order: seq<int>, children: seq<int>, log: seq<int>, m: Option<int>,
                 score: Option<int>, bestCol: int, pick: int, c: int)
    requires Tally(order, children, log, m, score, bestCol, pick) && |children| < |order| && Proven(c, m)
    ensures Picked(order, children + [c], log, m, true, order[|children|], pick)
  {
    assert forall j :: 0 <= j < |children| ==> (children + [c])[j] == children[j];
  }

  /** The branches of `miniMax`, in the order it tries them. */
  datatype Case = Recorded | Decided | Drawn | Estimated | Cut | Searched

  /**
   * Which branch `miniMax` takes for the position with key key: a score in
   * `data` first, then a win of the last mover, a full board, a score in
   * `heuData` for the depth limit, the depth limit reached, and search.
   */
  function CaseOf(data: map<int, int>, heuData: map<int, map<int, int>>, key: int, won: bool, moves: int, depthLimit: int): Case
  {
    if key in data then Recorded
    else if won then Decided
    else if moves >= Cells then Drawn
    else if depthLimit in heuData && key in heuData[depthLimit] then Estimated
    else if moves >= depthLimit then Cut
    else Searched
  }

  /** The constants a search depends on: the engine's side (0 first, 1 second) and the two score lists of `evaluate`. */
  datatype Engine = Engine(player: int, scoreO: seq<int>, scoreX: seq<int>)

  /**
   * The record of one child of a search: the state it started from, the
   * tables and the `neverSymmetry` flag it left behind and its own record.
   */
  datatype Branch = Branch(start: Snapshot, data: map<int, int>, heuData: map<int, map<int, int>>, never: bool, sub: Trace)

  /**
   * The record of a search call: the child scores, whether the loop was
   * cut off, the columns searched, what `symmetry` answered and one visit
   * per child score.
   */
  datatype Trace = Trace(children: seq<int>, pruned: bool, order: seq<int>, sym: bool, visits: seq<Branch>)

  /** The record of a call that searches no child. */
  const Leaf: Trace := Trace([], false, [], false, [])

  /** The memo key of the position of s: `posCurrent` as a number. */
  function KeyOf(s: Snapshot): int
    requires Legal(s.log) && |s.colors| == |s.log|
  {
    KeyWord(s.log, s.colors, s.top) as int
  }

  /**
   * The colour `evaluate` credits after the moves of log with `posOX`
   * holding colour t: t when `moves % 2 != player` and `posOX` is not
   * empty, the other colour otherwise (see `Heuristic.Credited`).
   */
  ghost function CreditedOf(log: seq<int>, colors: seq<bool>, t: bool, player: int): bool
    requires Legal(log) && |colors| == |log|
  {
    if |log| % 2 != player && Stones(log, colors, t) != 0 then t else !t
  }

  /** The largest of a and the scores cs: the lower bound of the side that maximises after seeing cs. */
  function Highest(a: int, cs: seq<int>): int
  {
    if |cs| == 0 then a
    else
      var m := Highest(a, cs[..|cs| - 1]);
      if m < cs[|cs| - 1] then cs[|cs| - 1] else m
  }

  /** The smallest of b and the scores cs: the upper bound of the side that minimises after seeing cs. */
  function Lowest(b: int, cs: seq<int>): int
  {
    if |cs| == 0 then b
    else
      var m := Lowest(b, cs[..|cs| - 1]);
      if cs[|cs| - 1] < m then cs[|cs| - 1] else m
  }

  /** The table `data` after the visits: that of the last one, or that of s before any. */
  function EndData(s: Snapshot, visits: seq<Branch>): map<int, int>
  {
    if |visits| == 0 then s.data else visits[|visits| - 1].data
  }

  /** The table `heuData` after the visits. */
  function EndHeu(s: Snapshot, visits: seq<Branch>): map<int, map<int, int>>
  {
    if |visits| == 0 then s.heuData else visits[|visits| - 1].heuData
  }

  /** `neverSymmetry` after the visits: that of the last one, or n before any. */
  function EndNever(n: bool, visits: seq<Branch>): bool
  {
    if |visits| == 0 then n else visits[|visits| - 1].never
  }

  /**
   * c is the state a search from s starts a child in: col played on the
   * board of s with the other colour, the tables d and h, the flag n
   * (`neverSymmetry` as the search and the children before left it), and
   * the depth and flags of s.
   */
  ghost predicate Enters(s: Snapshot, col: int, d: map<int, int>, h: map<int, map<int, int>>, n: bool, c: Snapshot)
  {
    c.ply == s.ply && c.maxScore == s.maxScore && c.up == s.up && c.down == s.down &&
    c.log == s.log + [col] && c.colors == s.colors + [!s.top] && c.top == !s.top && Legal(c.log) && |c.colors| == |c.log| &&
    c.never == n && c.data == d && c.heuData == h
  }

  /** A state s2 that differs from s at most in `neverSymmetry` and the tables. */
  ghost predicate Near(s: Snapshot, s2: Snapshot)
  {
    s2.ply == s.ply && s2.maxScore == s.maxScore && s2.up == s.up && s2.down == s.down &&
    s2.log == s.log && s2.colors == s.colors && s2.top == s.top
  }

  /** Entering a child from a state near s is entering it from s. */
  lemma EntersNear(s: Snapshot, s2: Snapshot, col: int, d: map<int, int>, h: map<int, map<int, int>>, n: bool, c: Snapshot)
    requires Near(s, s2) && Enters(s2, col, d, h, n, c)
    ensures Enters(s, col, d, h, n, c)
  {}

  /**
   * The tables a search from s leaves after its visits: those of the last
   * child when the loop was cut off, and otherwise those with the score
   * entered for key, in `data` when its magnitude is at least 1000 and in
   * the bucket of the depth limit of `heuData` when it is not.
   */
  ghost predicate Leaves(s: Snapshot, visits: seq<Branch>, key: int, depthLimit: int, score: int, pruned: bool,
                         d: map<int, int>, h: map<int, map<int, int>>)
  {
    var d0, h0 := EndData(s, visits), EndHeu(s, visits);
    (pruned ==> d == d0 && h == h0) &&
    (!pruned && Abs(score) >= 1000 ==> d == d0[key := score] && h == h0) &&
    (!pruned && Abs(score) < 1000 ==> d == d0 && h == h0[depthLimit := Bucket(h0, depthLimit)[key := score]])
  }

  /**
   * What `miniMax` returns and leaves in the tables and in `neverSymmetry`
   * (n), for the position of state s with key key, depth limit depthLimit
   * and window (alpha, beta), branch by branch; t records the search below
   * it. Only a search of the children asks `symmetry`.
   */
  ghost predicate Result(e: Engine, s: Snapshot, d: map<int, int>, h: map<int, map<int, int>>, n: bool, key: int,
                         depthLimit: int, alpha: int, beta: int, score: int, t: Trace)
    requires Legal(s.log) && |s.colors| == |s.log|
    decreases t, 4
  {
    match CaseOf(s.data, s.heuData, key, Wins(s.log, s.colors, s.top), |s.log|, depthLimit)
    case Recorded => score == s.data[key] && d == s.data && h == s.heuData && n == s.never
    case Decided => score == WinScore(|s.log|, |s.log| % 2 == e.player) && d == s.data[key := score] && h == s.heuData && n == s.never
    case Drawn => score == 1000 && d == s.data[key := 1000] && h == s.heuData && n == s.never
    case Estimated => score == s.heuData[depthLimit][key] && d == s.data && h == s.heuData && n == s.never
    case Cut => Evaluated(e, s, d, h, key, depthLimit, score) && n == s.never
    case Searched => Explored(e, s, d, h, n, key, depthLimit, alpha, beta, score, t)
  }

  /** The depth cut: the heuristic value of the board, entered for the key in the bucket of the depth limit. */
  ghost predicate Evaluated(e: Engine, s: Snapshot, d: map<int, int>, h: map<int, map<int, int>>, key: int, depthLimit: int, score: int)
    requires Legal(s.log) && |s.colors| == |s.log|
  {
    |e.scoreO| == 5 && |e.scoreX| == 5 &&
    score == Score(Grid(s.log, s.colors), CreditedOf(s.log, s.colors, s.top, e.player), e.scoreO, e.scoreX) &&
    d == s.data && h == s.heuData[depthLimit := Bucket(s.heuData, depthLimit)[key := score]]
  }

  /**
   * The search: the columns of `getColOrder` with room, the best child
   * score for the side to move, a cut exactly when that best leaves the
   * window, each child score the result of the child's own search with the
   * window narrowed by the scores before it, the tables as `Leaves` says,
   * and `neverSymmetry` as `getColOrder` and then the last child left it.
   */
  ghost predicate Explored(e: Engine, s: Snapshot, d: map<int, int>, h: map<int, map<int, int>>, n: bool, key: int,
                           depthLimit: int, alpha: int, beta: int, score: int, t: Trace)
    requires Legal(s.log) && |s.colors| == |s.log|
    decreases t, 3
  {
    var n0 := OrderFlag(s.log, s.colors, s.top, s.never);
    Ordered(t.order, s.log, s.colors, t.sym, s.never) &&
    Pruning(score, t.children, t.pruned, alpha, beta, |s.log| % 2 == e.player) &&
    |t.children| <= |t.order| && (!t.pruned ==> |t.children| == |t.order|) &&
    Walked(e, s, n0, depthLimit, alpha, beta, t) &&
    Leaves(s, t.visits, key, depthLimit, score, t.pruned, d, h) && n == EndNever(n0, t.visits)
  }

  /**
   * Every child score of t is the result of the search of that child:
   * child i is column order[i] played from s, with the tables and the flag
   * the children before it left (n before the first), searched with the
   * window (alpha, beta) narrowed by the scores before it (alpha raised
   * when the engine is to move, beta lowered otherwise).
   */
  ghost predicate Walked(e: Engine, s: Snapshot, n: bool, depthLimit: int, alpha: int, beta: int, t: Trace)
    requires Legal(s.log) && |s.colors| == |s.log|
    decreases t, 2
  {
    |t.visits| == |t.children| <= |t.order| &&
    forall i :: 0 <= i < |t.children| ==> Stepped(e, s, n, depthLimit, alpha, beta, t, i)
  }

  /** Child i of t is its column searched as `Walked` describes. */
  ghost predicate Stepped(e: Engine, s: Snapshot, n: bool, depthLimit: int, alpha: int, beta: int, t: Trace, i: int)
    requires 0 <= i < |t.children| && |t.visits| == |t.children| <= |t.order|
    decreases t, 1
  {
    Visited(e, s, depthLimit, t.order[i], EndData(s, t.visits[..i]), EndHeu(s, t.visits[..i]), EndNever(n, t.visits[..i]),
            if |s.log| % 2 == e.player then Highest(alpha, t.children[..i]) else alpha,
            if |s.log| % 2 == e.player then beta else Lowest(beta, t.children[..i]),
            t.children[i], t.visits[i])
  }

  /**
   * The visit v searched column col from s with the tables d and h, the
   * flag n and the window (alpha, beta); score is the result of that
   * search, and v holds the tables and the flag it left.
   */
  ghost predicate Visited(e: Engine, s: Snapshot, depthLimit: int, col: int, d: map<int, int>, h: map<int, map<int, int>>, n: bool,
                          alpha: int, beta: int, score: int, v: Branch)
    decreases v, 0
  {
    Enters(s, col, d, h, n, v.start) &&
    Result(e, v.start, v.data, v.heuData, v.never, KeyOf(v.start), depthLimit, alpha, beta, score, v.sub)
  }

  /** A visit from a state near s is a visit from s. */
  lemma VisitedNear(e: Engine, s: Snapshot, s2: Snapshot, depthLimit: int, col: int, d: map<int, int>, h: map<int, map<int, int>>, n: bool,
                    alpha: int, beta: int, score: int, v: Branch)
    requires Near(s, s2) && Visited(e, s2, depthLimit, col, d, h, n, alpha, beta, score, v)
    ensures Visited(e, s, depthLimit, col, d, h, n, alpha, beta, score, v)
  {
    EntersNear(s, s2, col, d, h, n, v.start);
  }

  /** A search from the state a column leads to is a visit of that column. */
  lemma VisitFrom(e: Engine, s: Snapshot, depthLimit: int, col: int, d: map<int, int>, h: map<int, map<int, int>>, n: bool,
                  alpha: int, beta: int, score: int, start: Snapshot, d2: map<int, int>, h2: map<int, map<int, int>>, n2: bool, t: Trace)
    requires Enters(s, col, d, h, n, start)
    requires Result(e, start, d2, h2, n2, KeyOf(start), depthLimit, alpha, beta, score, t)
    ensures Visited(e, s, depthLimit, col, d, h, n, alpha, beta, score, Branch(start, d2, h2, n2, t))
  {
  }

  lemma HighestPush(a: int, cs: seq<int>, c: int)
    ensures Highest(a, cs + [c]) == if Highest(a, cs) < c then c else Highest(a, cs)
  {
    assert (cs + [c])[..|cs|] == cs;
  }

  lemma LowestPush(b: int, cs: seq<int>, c: int)
    ensures Lowest(b, cs + [c]) == if c < Lowest(b, cs) then c else Lowest(b, cs)
  {
    assert (cs + [c])[..|cs|] == cs;
  }

  /** The record of one more child, searched as `Visited` says, extends the walk. */
  lemma WalkPush(e: Engine, s: Snapshot, n0: bool, depthLimit: int, alpha: int, beta: int,
                 order: seq<int>, children: seq<int>, visits: seq<Branch>, c: int, v: Branch)
    requires Legal(s.log) && |s.colors| == |s.log|
    requires Walked(e, s, n0, depthLimit, alpha, beta, Trace(children, false, order, false, visits)) && |children| < |order|
    requires Visited(e, s, depthLimit, order[|children|], EndData(s, visits), EndHeu(s, visits), EndNever(n0, visits),
                     if |s.log| % 2 == e.player then Highest(alpha, children) else alpha,
                     if |s.log| % 2 == e.player then beta else Lowest(beta, children), c, v)
    ensures Walked(e, s, n0, depthLimit, alpha, beta, Trace(children + [c], false, order, false, visits + [v]))
    ensures EndData(s, visits + [v]) == v.data && EndHeu(s, visits + [v]) == v.heuData && EndNever(n0, visits + [v]) == v.never
  {
    var t2 := Trace(children + [c], false, order, false, visits + [v]);
    var n := |children|;
    assert t2.children[..n] == children && t2.visits[..n] == visits;
    WalkKeep(e, s, n0, depthLimit, alpha, beta, Trace(children, false, order, false, visits), t2);
    WalkLast(e, s, n0, depthLimit, alpha, beta, t2);
    WalkJoin(e, s, n0, depthLimit, alpha, beta, t2);
    EndPush(s, n0, visits, v);
  }

  /** A walk whose children up to the last, and the last, are stepped. */
  lemma WalkJoin(e: Engine, s: Snapshot, n0: bool, depthLimit: int, alpha: int, beta: int, t2: Trace)
    requires Legal(s.log) && |s.colors| == |s.log|
    requires |t2.children| > 0 && |t2.children| == |t2.visits| <= |t2.order|
    requires forall i :: 0 <= i < |t2.children| - 1 ==> Stepped(e, s, n0, depthLimit, alpha, beta, t2, i)
    requires Stepped(e, s, n0, depthLimit, alpha, beta, t2, |t2.children| - 1)
    ensures Walked(e, s, n0, depthLimit, alpha, beta, t2)
  {
  }

  /** After one more visit the tables and the flag are the ones that visit left. */
  lemma EndPush(s: Snapshot, n0: bool, visits: seq<Branch>, v: Branch)
    ensures EndData(s, visits + [v]) == v.data && EndHeu(s, visits + [v]) == v.heuData && EndNever(n0, visits + [v]) == v.never
  {
  }

  /** The children already walked are still walked with one more appended. */
  lemma WalkKeep(e: Engine, s: Snapshot, n0: bool, depthLimit: int, alpha: int, beta: int, t: Trace, t2: Trace)
    requires Legal(s.log) && |s.colors| == |s.log|
    requires Walked(e, s, n0, depthLimit, alpha, beta, t) && |t.children| < |t.order|
    requires |t2.children| == |t.children| + 1 == |t2.visits| && t2.order == t.order
    requires t2.children[..|t.children|] == t.children && t2.visits[..|t.children|] == t.visits
    ensures forall i :: 0 <= i < |t2.children| - 1 ==> Stepped(e, s, n0, depthLimit, alpha, beta, t2, i)
  {
    forall i | 0 <= i < |t.children|
      ensures Stepped(e, s, n0, depthLimit, alpha, beta, t2, i)
    {
      assert Stepped(e, s, n0, depthLimit, alpha, beta, t, i);
      assert t2.visits[..i] == t.visits[..i] && t2.children[..i] == t.children[..i];
      assert t2.visits[i] == t.visits[i] && t2.children[i] == t.children[i];
    }
  }

  /** The last child of t2, searched as `Visited` says, is stepped. */
  lemma WalkLast(e: Engine, s: Snapshot, n0: bool, depthLimit: int, alpha: int, beta: int, t2: Trace)
    requires Legal(s.log) && |s.colors| == |s.log|
    requires |t2.children| > 0 && |t2.children| == |t2.visits| <= |t2.order|
    requires var n := |t2.children| - 1;
      Visited(e, s, depthLimit, t2.order[n], EndData(s, t2.visits[..n]), EndHeu(s, t2.visits[..n]), EndNever(n0, t2.visits[..n]),
              if |s.log| % 2 == e.player then Highest(alpha, t2.children[..n]) else alpha,
              if |s.log| % 2 == e.player then beta else Lowest(beta, t2.children[..n]), t2.children[n], t2.visits[n])
    ensures Stepped(e, s, n0, depthLimit, alpha, beta, t2, |t2.children| - 1)
  {}

  /** The parts of `Explored`, with the walk stated for the record without its flags. */
  lemma ExploredOf(e: Engine, s: Snapshot, d: map<int, int>, h: map<int, map<int, int>>, n: bool, key: int,
                   depthLimit: int, alpha: int, beta: int, score: int, t: Trace)
    requires Legal(s.log) && |s.colors| == |s.log|
    requires Ordered(t.order, s.log, s.colors, t.sym, s.never)
    requires Pruning(score, t.children, t.pruned, alpha, beta, |s.log| % 2 == e.player)
    requires |t.children| <= |t.order| && (!t.pruned ==> |t.children| == |t.order|)
    requires Walked(e, s, OrderFlag(s.log, s.colors, s.top, s.never), depthLimit, alpha, beta, Trace(t.children, false, t.order, false, t.visits))
    requires Leaves(s, t.visits, key, depthLimit, score, t.pruned, d, h)
    requires n == EndNever(OrderFlag(s.log, s.colors, s.top, s.never), t.visits)
    ensures Explored(e, s, d, h, n, key, depthLimit, alpha, beta, score, t)
  {
    WalkedAs(e, s, OrderFlag(s.log, s.colors, s.top, s.never), depthLimit, alpha, beta, Trace(t.children, false, t.order, false, t.visits), t);
  }

  /** A walk depends only on the children, the columns and the visits of its record. */
  lemma WalkedAs(e: Engine, s: Snapshot, n0: bool, depthLimit: int, alpha: int, beta: int, t: Trace, t2: Trace)
    requires Legal(s.log) && |s.colors| == |s.log|
    requires Walked(e, s, n0, depthLimit, alpha, beta, t)
    requires t2.children == t.children && t2.order == t.order && t2.visits == t.visits
    ensures Walked(e, s, n0, depthLimit, alpha, beta, t2)
  {
    forall i | 0 <= i < |t.children|
      ensures Stepped(e, s, n0, depthLimit, alpha, beta, t2, i)
    {
      assert Stepped(e, s, n0, depthLimit, alpha, beta, t, i);
    }
  }

  /**
   * The root loop of `search` from s: every column of order so far was
   * searched with the window (-10000, 10000) and the depth limit
   * ply + moves, each starting from the tables and the `neverSymmetry`
   * flag the one before left (those of s before the first).
   */
  ghost predicate Rooted(e: Engine, s: Snapshot, depthLimit: int, order: seq<int>, children: seq<int>, visits: seq<Branch>)
  {
    |children| == |visits| <= |order| &&
    forall i :: 0 <= i < |children| ==> RootStep(e, s, depthLimit, order, children, visits, i)
  }

  /** Column i of the root loop, as `Rooted` says. */
  ghost predicate RootStep(e: Engine, s: Snapshot, depthLimit: int, order: seq<int>, children: seq<int>, visits: seq<Branch>, i: int)
    requires 0 <= i < |children| == |visits| <= |order|
  {
    Visited(e, s, depthLimit, order[i], EndData(s, visits[..i]), EndHeu(s, visits[..i]), EndNever(s.never, visits[..i]),
            -10000, 10000, children[i], visits[i])
  }

  /** One more column, searched as `RootStep` says, extends the root loop. */
  lemma RootPush(e: Engine, s: Snapshot, depthLimit: int, order: seq<int>, children: seq<int>, visits: seq<Branch>, c: int, v: Branch)
    requires Rooted(e, s, depthLimit, order, children, visits) && |children| < |order|
    requires Visited(e, s, depthLimit, order[|children|], EndData(s, visits), EndHeu(s, visits), EndNever(s.never, visits), -10000, 10000, c, v)
    ensures Rooted(e, s, depthLimit, order, children + [c], visits + [v])
    ensures EndData(s, visits + [v]) == v.data && EndHeu(s, visits + [v]) == v.heuData && EndNever(s.never, visits + [v]) == v.never
  {
    var n := |children|;
    assert (children + [c])[..n] == children && (visits + [v])[..n] == visits;
    RootKeep(e, s, depthLimit, order, children, visits, children + [c], visits + [v]);
    RootLast(e, s, depthLimit, order, children + [c], visits + [v]);
    RootJoin(e, s, depthLimit, order, children + [c], visits + [v]);
    EndPush(s, s.never, visits, v);
  }

  /** The columns already scored keep their record with one more appended. */
  lemma RootKeep(e: Engine, s: Snapshot, depthLimit: int, order: seq<int>, children: seq<int>, visits: seq<Branch>,
                 children2: seq<int>, visits2: seq<Branch>)
    requires Rooted(e, s, depthLimit, order, children, visits) && |children| < |order|
    requires |children2| == |children| + 1 == |visits2|
    requires children2[..|children|] == children && visits2[..|children|] == visits
    ensures forall i :: 0 <= i < |children2| - 1 ==> RootStep(e, s, depthLimit, order, children2, visits2, i)
  {
    forall i | 0 <= i < |children|
      ensures RootStep(e, s, depthLimit, order, children2, visits2, i)
    {
      assert RootStep(e, s, depthLimit, order, children, visits, i);
      assert visits2[..i] == visits[..i];
      assert visits2[i] == visits[i] && children2[i] == children[i];
    }
  }

  /** The last column of the root loop, searched as `Visited` says, is a root step. */
  lemma RootLast(e: Engine, s: Snapshot, depthLimit: int, order: seq<int>, children: seq<int>, visits: seq<Branch>)
    requires |children| > 0 && |children| == |visits| <= |order|
    requires var n := |children| - 1;
      Visited(e, s, depthLimit, order[n], EndData(s, visits[..n]), EndHeu(s, visits[..n]), EndNever(s.never, visits[..n]),
              -10000, 10000, children[n], visits[n])
    ensures RootStep(e, s, depthLimit, order, children, visits, |children| - 1)
  {}

  /** A root loop whose columns up to the last, and the last, are root steps. */
  lemma RootJoin(e: Engine, s: Snapshot, depthLimit: int, order: seq<int>, children: seq<int>, visits: seq<Branch>)
    requires |children| > 0 && |children| == |visits| <= |order|
    requires forall i :: 0 <= i < |children| - 1 ==> RootStep(e, s, depthLimit, order, children, visits, i)
    requires RootStep(e, s, depthLimit, order, children, visits, |children| - 1)
    ensures Rooted(e, s, depthLimit, order, children, visits)
  {
  }

  /**
   * The engine's search state: the evaluator and the board it shares, the
   * memo tables, the search depth `ply`, the best proven win seen so far
   * and the two flags of the depth adjustment.
   */
  class GameTree {
    const heuristic: Heuristic
    const board: Board
    var data: map<int, int>
    var heuData: map<int, map<int, int>>
    var ply: int
    var maxScore: Option<int>
    var alreadyIncreased: bool
    var alreadyDecreased: bool

    /** The board is the evaluator's, both are valid and `data` holds only won, lost or drawn scores. */
    ghost predicate Valid()
      reads this, heuristic, board
    {
      board == heuristic.board && heuristic.Valid() && Certain(data)
    }

    constructor(player: int)
      ensures Valid() && fresh(board) && fresh(heuristic) && board.Alternating()
      ensures board.player == player && board.log == [] && !board.neverSymmetry
      ensures data == map[] && heuData == map[]
      ensures ply == (if player == 0 then 12 else 11)
      ensures maxScore == None && !alreadyIncreased && !alreadyDecreased
    {
      var h := new Heuristic(player);
      heuristic := h;
      board := h.board;
      data := map[];
      heuData := map[];
      ply := if player == 0 then 12 else 11;
      maxScore := None;
      alreadyIncreased := false;
      alreadyDecreased := false;
    }

    /** `maxTurn`: the engine is to move. */
    predicate MaxTurn()
      reads board
    {
      board.moves % 2 == board.player
    }

    /** The memo key of the current position, `posCurrent` as a number. */
    function Position(): int
      reads board
      requires board.Valid()
    {
      board.PosCurrent() as int
    }

    /** The current state. */
    ghost function Snap(): Snapshot
      reads this, board
    {
      Snapshot(ply, maxScore, alreadyIncreased, alreadyDecreased,
               board.log, board.colors, board.top, board.neverSymmetry, data, heuData)
    }

    /**
     * A search call from state s has given the board back (the same log,
     * colours and side; what it leaves in `neverSymmetry` each contract
     * states), left the depth and the flags alone and changed no entry of
     * either table.
     */
    ghost predicate Framed(s: Snapshot)
      reads this, heuristic, board
    {
      Restored(s) && ply == s.ply && maxScore == s.maxScore
    }

    /** As `Framed`, but the depth and the best proven win may have changed. */
    ghost predicate Restored(s: Snapshot)
      reads this, heuristic, board
    {
      Valid() && alreadyIncreased == s.up && alreadyDecreased == s.down &&
      board.log == s.log && board.colors == s.colors && board.top == s.top &&
      Grows(s.data, data) && Deepens(s.heuData, heuData)
    }

    /** The board holds exactly the given words, log, colours and side. */
    ghost predicate Unmoved(posOX: bv64, posAll: seq<bv64>, log: seq<int>, colors: seq<bool>, top: bool)
      reads board
    {
      board.posOX == posOX && board.posAll == posAll && board.moves == |log| &&
      board.log == log && board.colors == colors && board.top == top
    }

    /** The constants of the engine: its side and the score lists of its evaluator. */
    ghost function Setting(): Engine
    {
      Engine(board.player, heuristic.scoreO, heuristic.scoreX)
    }

    /**
     * `getColOrder`: [2, 1, 0] for the first move of the game; otherwise
     * [3, 2, 1, 0] when `symmetry` finds the board symmetric and the centre
     * order when it does not.
     */
    method GetColOrder() returns (order: seq<int>, ghost sym: bool)
      requires board.Valid()
      modifies board
      ensures board.Valid() && Unmoved(old(board.posOX), old(board.posAll), old(board.log), old(board.colors), old(board.top))
      ensures board.neverSymmetry == OrderFlag(old(board.log), old(board.colors), old(board.top), old(board.neverSymmetry))
      ensures board.moves == 0 ==> order == FirstOrder && !sym
      ensures board.moves != 0 ==> order == (if sym then HalfOrder else CentreOrder)
      ensures board.moves != 0 && !old(board.neverSymmetry) ==> (sym <==> Symmetric(board.Towers()))
      ensures board.moves != 0 && old(board.neverSymmetry) ==> !sym
    {
      if board.moves == 0 {
        return FirstOrder, false;
      }
      var s := board.Symmetry();
      sym := s;
      if s {
        return HalfOrder, sym;
      }
      return CentreOrder, sym;
    }

    /** The columns of cols with room, in order: `remove` of every full column from a copy of a list without repeats. */
    method Filter(cols: seq<int>) returns (order: seq<int>)
      requires board.Valid() && Columns7(cols)
      ensures order == Possibles(cols, board.log)
    {
      order := [];
      for i := 0 to |cols|
        invariant order == Possibles(cols[..i], board.log)
      {
        assert cols[..i + 1] == cols[..i] + [cols[i]];
        PossiblesAppend(cols[..i], cols[i], board.log);
        if board.Possible(cols[i]) {
          order := order + [cols[i]];
        }
      }
      assert cols[..|cols|] == cols;
    }

    /**
     * `miniMax`: the score of the current position for depth limit
     * depthLimit and the window (parentAlpha, parentBeta), as `Result`
     * states branch by branch, with t recording the search below. The board
     * is the same afterwards, and no table entry written before is changed.
     */
    method MiniMax(parentAlpha: int, parentBeta: int, depthLimit: int) returns (score: int, ghost t: Trace)
      requires Valid()
      modifies this, board
      decreases Cells - board.moves, 8
      ensures Framed(old(Snap()))
      ensures Result(Setting(), old(Snap()), data, heuData, board.neverSymmetry, KeyOf(old(Snap())), depthLimit, parentAlpha, parentBeta, score, t)
    {
      var pos := Position();
      assert pos == KeyOf(Snap());
      if pos in data {
        score := data[pos];
        t := Leaf;
        return;
      }
      score, t := Fresh(parentAlpha, parentBeta, depthLimit, pos);
    }

    /** `miniMax` for a position not in `data`: a win, a full board, or the rest. */
    method Fresh(parentAlpha: int, parentBeta: int, depthLimit: int, pos: int) returns (score: int, ghost t: Trace)
      requires Valid() && pos !in data
      modifies this, board
      decreases Cells - board.moves, 7
      ensures Framed(old(Snap()))
      ensures Result(Setting(), old(Snap()), data, heuData, board.neverSymmetry, pos, depthLimit, parentAlpha, parentBeta, score, t)
    {
      var won := Won(board);
      assert Snap() == old(Snap());
      t := Leaf;
      if won {
        score := Finish(depthLimit, pos, parentAlpha, parentBeta);
      } else if board.moves >= Cells {
        score := Draw(depthLimit, pos, parentAlpha, parentBeta);
      } else {
        score, t := Going(parentAlpha, parentBeta, depthLimit, pos);
      }
    }

    /** A won position: the win score, stored in `data`. */
    method Finish(depthLimit: int, pos: int, alpha: int, beta: int) returns (score: int)
      requires Valid() && pos !in data && Wins(board.log, board.colors, board.top)
      modifies this
      ensures Framed(old(Snap()))
      ensures Result(Setting(), old(Snap()), data, heuData, board.neverSymmetry, pos, depthLimit, alpha, beta, score, Leaf)
    {
      AtMostCells(board.log);
      score := WinScore(board.moves, MaxTurn());
      WinScoreClass(board.moves, MaxTurn());
      GrowsStore(data, data, data[pos := score], pos, score);
      data := data[pos := score];
    }

    /** A full board without a win: 1000, stored in `data`. */
    method Draw(depthLimit: int, pos: int, alpha: int, beta: int) returns (score: int)
      requires Valid() && pos !in data && !Wins(board.log, board.colors, board.top) && board.moves >= Cells
      modifies this
      ensures Framed(old(Snap()))
      ensures Result(Setting(), old(Snap()), data, heuData, board.neverSymmetry, pos, depthLimit, alpha, beta, score, Leaf)
    {
      GrowsStore(data, data, data[pos := 1000], pos, 1000);
      data := data[pos := 1000];
      score := 1000;
    }

    /** `miniMax` for a position not in `data` where the game goes on: a score in `heuData`, the depth cut, or search. */
    method Going(parentAlpha: int, parentBeta: int, depthLimit: int, pos: int) returns (score: int, ghost t: Trace)
      requires Valid() && pos !in data
      requires !Wins(board.log, board.colors, board.top) && board.moves < Cells
      modifies this, board
      decreases Cells - board.moves, 6
      ensures Framed(old(Snap()))
      ensures Result(Setting(), old(Snap()), data, heuData, board.neverSymmetry, pos, depthLimit, parentAlpha, parentBeta, score, t)
    {
      t := Leaf;
      if depthLimit in heuData && pos in heuData[depthLimit] {
        score := heuData[depthLimit][pos];
        return;
      }
      if board.moves >= depthLimit {
        score := Estimate(depthLimit, pos);
        return;
      }
      score, t := Expand(parentAlpha, parentBeta, depthLimit, pos);
    }

    /** The depth cut of `miniMax`: `evaluate()`, stored in `heuData` for the depth limit, and `evaluate()` again. */
    method Estimate(depthLimit: int, pos: int) returns (score: int)
      requires Valid() && !(depthLimit in heuData && pos in heuData[depthLimit])
      modifies this
      ensures Framed(old(Snap()))
      ensures Evaluated(Setting(), old(Snap()), data, heuData, pos, depthLimit, score)
      ensures board.neverSymmetry == old(board.neverSymmetry)
    {
      assert heuristic.Credited() == CreditedOf(board.log, board.colors, board.top, board.player);
      score := heuristic.Evaluate();
      DeepensStore(heuData, heuData, heuData[depthLimit := Bucket(heuData, depthLimit)[pos := score]], depthLimit, pos, score);
      heuData := heuData[depthLimit := Bucket(heuData, depthLimit)[pos := score]];
      score := heuristic.Evaluate();
    }

    /**
     * The search part of `miniMax`: every column of the order with room is
     * played, scored by `miniMax` with the current window and taken back;
     * the side to move keeps the best child score and narrows its bound,
     * and returns at once when the score reaches the other bound. A score
     * that was not cut off is stored in `data` when its magnitude is at
     * least 1000 and in `heuData` for the depth limit otherwise.
     */
    method Expand(parentAlpha: int, parentBeta: int, depthLimit: int, pos: int) returns (score: int, ghost t: Trace)
      requires Valid() && board.moves < Cells
      requires pos !in data && !(depthLimit in heuData && pos in heuData[depthLimit])
      modifies this, board
      decreases Cells - board.moves, 5
      ensures Framed(old(Snap()))
      ensures Explored(Setting(), old(Snap()), data, heuData, board.neverSymmetry, pos, depthLimit, parentAlpha, parentBeta, score, t)
    {
      var colOrder;
      ghost var sym;
      colOrder, sym := Columns();
      score, t := Branches(old(Snap()), colOrder, sym, parentAlpha, parentBeta, depthLimit, pos);
    }

    /**
     * The rest of `miniMax` once the columns are known: the column loop,
     * then, without a cut, the score stored in `data` or `heuData`.
     */
    method Branches(ghost s: Snapshot, colOrder: seq<int>, ghost sym: bool, parentAlpha: int, parentBeta: int, depthLimit: int, pos: int)
      returns (score: int, ghost t: Trace)
      requires Framed(s) && Near(s, Snap()) && data == s.data && heuData == s.heuData
      requires pos !in s.data && !(depthLimit in s.heuData && pos in s.heuData[depthLimit])
      requires Ordered(colOrder, s.log, s.colors, sym, s.never) && board.neverSymmetry == OrderFlag(s.log, s.colors, s.top, s.never)
      requires |colOrder| > 0 && forall c :: c in colOrder ==> Open(board.log, c)
      modifies this, board
      decreases Cells - board.moves, 4
      ensures Framed(s)
      ensures Explored(Setting(), s, data, heuData, board.neverSymmetry, pos, depthLimit, parentAlpha, parentBeta, score, t)
    {
      ghost var children, visits;
      var cut;
      score, children, cut, visits := Scan(s, colOrder, parentAlpha, parentBeta, depthLimit);
      t := Trace(children, cut, colOrder, sym, visits);
      if !cut {
        Save(s, score, depthLimit, pos);
      }
      ExploredOf(Setting(), s, data, heuData, board.neverSymmetry, pos, depthLimit, parentAlpha, parentBeta, score, t);
    }

    /** The end of `miniMax`: a score of magnitude at least 1000 goes into `data`, any other into `heuData` for the depth limit. */
    method Save(ghost s: Snapshot, score: int, depthLimit: int, pos: int)
      requires Framed(s) && pos !in s.data && !(depthLimit in s.heuData && pos in s.heuData[depthLimit])
      modifies this
      ensures Framed(s)
      ensures Abs(score) >= 1000 ==> data == old(data)[pos := score] && heuData == old(heuData)
      ensures Abs(score) < 1000 ==> data == old(data) && heuData == old(heuData)[depthLimit := Bucket(old(heuData), depthLimit)[pos := score]]
      ensures board.neverSymmetry == old(board.neverSymmetry)
    {
      if Abs(score) >= 1000 {
        GrowsStore(s.data, data, data[pos := score], pos, score);
        data := data[pos := score];
      } else {
        DeepensStore(s.heuData, heuData, heuData[depthLimit := Bucket(heuData, depthLimit)[pos := score]], depthLimit, pos, score);
        heuData := heuData[depthLimit := Bucket(heuData, depthLimit)[pos := score]];
      }
    }

    /** The columns `miniMax` searches: `getColOrder` with the full columns removed, never empty before the board is full. */
    method Columns() returns (colOrder: seq<int>, ghost sym: bool)
      requires Valid() && board.moves < Cells
      modifies board
      ensures Framed(old(Snap())) && data == old(data) && heuData == old(heuData)
      ensures Ordered(colOrder, board.log, board.colors, sym, old(board.neverSymmetry))
      ensures board.neverSymmetry == OrderFlag(board.log, board.colors, board.top, old(board.neverSymmetry))
      ensures |colOrder| > 0 && forall c :: c in colOrder ==> Open(board.log, c)
    {
      var cols;
      cols, sym := GetColOrder();
      SomeOpen(board.log, board.colors, cols);
      colOrder := Filter(cols);
      PossiblesKeep(cols, board.log);
    }

    /**
     * The alpha-beta loop of `miniMax` over the columns colOrder: each is
     * played and scored by `miniMax` with the current window; the side to
     * move keeps the best child score and narrows its bound, and stops at
     * once when the score reaches the other bound. The visits record each
     * child's search, started from a state near s.
     */
    method Scan(ghost s: Snapshot, colOrder: seq<int>, parentAlpha: int, parentBeta: int, depthLimit: int)
      returns (score: int, ghost children: seq<int>, pruned: bool, ghost visits: seq<Branch>)
      requires Valid() && Near(s, Snap()) && data == s.data && heuData == s.heuData
      requires |colOrder| > 0 && forall c :: c in colOrder ==> Open(board.log, c)
      modifies this, board
      decreases Cells - board.moves, 3
      ensures Framed(old(Snap()))
      ensures Pruning(score, children, pruned, parentAlpha, parentBeta, MaxTurn())
      ensures |children| <= |colOrder| && (!pruned ==> |children| == |colOrder|)
      ensures Walked(Setting(), s, old(board.neverSymmetry), depthLimit, parentAlpha, parentBeta, Trace(children, false, colOrder, false, visits))
      ensures data == EndData(s, visits) && heuData == EndHeu(s, visits) && board.neverSymmetry == EndNever(old(board.neverSymmetry), visits)
    {
      var max := MaxTurn();
      ghost var s0 := Snap();
      ghost var n0 := board.neverSymmetry;
      var alpha, beta := parentAlpha, parentBeta;
      var best: Option<int> := None;
      children, visits := [], [];
      pruned := false;
      var i := 0;
      while i < |colOrder|
        invariant 0 <= i <= |colOrder| && |children| == i
        invariant Framed(s0) && Near(s, Snap()) && max == MaxTurn()
        invariant best.None? <==> i == 0
        invariant max ==> beta == parentBeta && alpha == Highest(parentAlpha, children)
        invariant !max ==> alpha == parentAlpha && beta == Lowest(parentBeta, children)
        invariant best.Some? ==> Running(best.value, children, parentAlpha, parentBeta, max)
        invariant best.Some? && max ==> best.value <= alpha
        invariant best.Some? && !max ==> beta <= best.value
        invariant Walked(Setting(), s, n0, depthLimit, parentAlpha, parentBeta, Trace(children, false, colOrder, false, visits))
        invariant data == EndData(s, visits) && heuData == EndHeu(s, visits) && board.neverSymmetry == EndNever(n0, visits)
      {
        var col := colOrder[i];
        var childScore, cut;
        ghost var v;
        childScore, v, alpha, beta, best, cut :=
          Round(s0, s, n0, col, colOrder, children, visits, parentAlpha, parentBeta, alpha, beta, best, max, depthLimit);
        children, visits := children + [childScore], visits + [v];
        if cut {
          pruned := true;
          score := childScore;
          return;
        }
        i := i + 1;
      }
      score := best.value;
    }

    /**
     * One pass of the column loop: the next child is searched with the
     * window (alpha, beta); a better score becomes the best, and either
     * cuts (beta <= score on a maximising turn, score <= alpha otherwise)
     * or narrows the window.
     */
    method Round(ghost s0: Snapshot, ghost s: Snapshot, ghost n0: bool, col: int, ghost colOrder: seq<int>, ghost children: seq<int>, ghost visits: seq<Branch>,
                 parentAlpha: int, parentBeta: int, alpha: int, beta: int, best: Option<int>, max: bool, depthLimit: int)
      returns (childScore: int, ghost v: Branch, alpha2: int, beta2: int, best2: Option<int>, cut: bool)
      requires Framed(s0) && Near(s, Snap()) && max == MaxTurn()
      requires |children| < |colOrder| && col == colOrder[|children|] && Open(board.log, col)
      requires best.None? <==> |children| == 0
      requires max ==> beta == parentBeta && alpha == Highest(parentAlpha, children)
      requires !max ==> alpha == parentAlpha && beta == Lowest(parentBeta, children)
      requires best.Some? ==> Running(best.value, children, parentAlpha, parentBeta, max)
      requires best.Some? && max ==> best.value <= alpha
      requires best.Some? && !max ==> beta <= best.value
      requires Walked(Setting(), s, n0, depthLimit, parentAlpha, parentBeta, Trace(children, false, colOrder, false, visits))
      requires data == EndData(s, visits) && heuData == EndHeu(s, visits) && board.neverSymmetry == EndNever(n0, visits)
      modifies this, board
      decreases Cells - board.moves, 2
      ensures Framed(s0) && Near(s, Snap()) && max == MaxTurn() && best2.Some?
      ensures cut ==> Pruning(childScore, children + [childScore], true, parentAlpha, parentBeta, max)
      ensures !cut ==> max ==> beta2 == parentBeta && alpha2 == Highest(parentAlpha, children + [childScore])
      ensures !cut ==> !max ==> alpha2 == parentAlpha && beta2 == Lowest(parentBeta, children + [childScore])
      ensures !cut ==> Running(best2.value, children + [childScore], parentAlpha, parentBeta, max)
      ensures !cut && max ==> best2.value <= alpha2
      ensures !cut && !max ==> beta2 <= best2.value
      ensures Walked(Setting(), s, n0, depthLimit, parentAlpha, parentBeta, Trace(children + [childScore], false, colOrder, false, visits + [v]))
      ensures data == EndData(s, visits + [v]) && heuData == EndHeu(s, visits + [v]) && board.neverSymmetry == EndNever(n0, visits + [v])
    {
      childScore, v := Step(s0, s, n0, col, colOrder, children, visits, parentAlpha, parentBeta, alpha, beta, depthLimit);
      HighestPush(parentAlpha, children, childScore);
      LowestPush(parentBeta, children, childScore);
      if max {
        MaxPush(if best.Some? then best.value else 0, children, childScore);
      } else {
        MinPush(if best.Some? then best.value else 0, children, childScore);
      }
      alpha2, beta2, best2, cut := alpha, beta, best, false;
      if max && (best.None? || best.value < childScore) {
        best2 := Some(childScore);
        if beta <= childScore {
          cut := true;
        } else if alpha < childScore {
          alpha2 := childScore;
        }
      } else if !max && (best.None? || childScore < best.value) {
        best2 := Some(childScore);
        if childScore <= alpha {
          cut := true;
        } else if childScore < beta {
          beta2 := childScore;
        }
      }
    }

    /**
     * The next child of the column loop: the child searched in colOrder
     * after the ones recorded so far, with the window those left, extends
     * the record of the walk from s.
     */
    method Step(ghost s0: Snapshot, ghost s: Snapshot, ghost n0: bool, col: int, ghost colOrder: seq<int>, ghost children: seq<int>, ghost visits: seq<Branch>,
                ghost parentAlpha: int, ghost parentBeta: int, alpha: int, beta: int, depthLimit: int)
      returns (childScore: int, ghost v: Branch)
      requires Framed(s0) && Near(s, Snap()) && |children| < |colOrder| && col == colOrder[|children|] && Open(board.log, col)
      requires alpha == if MaxTurn() then Highest(parentAlpha, children) else parentAlpha
      requires beta == if MaxTurn() then parentBeta else Lowest(parentBeta, children)
      requires Walked(Setting(), s, n0, depthLimit, parentAlpha, parentBeta, Trace(children, false, colOrder, false, visits))
      requires data == EndData(s, visits) && heuData == EndHeu(s, visits) && board.neverSymmetry == EndNever(n0, visits)
      modifies this, board
      decreases Cells - board.moves, 1
      ensures Framed(s0) && Near(s, Snap())
      ensures Walked(Setting(), s, n0, depthLimit, parentAlpha, parentBeta, Trace(children + [childScore], false, colOrder, false, visits + [v]))
      ensures data == EndData(s, visits + [v]) && heuData == EndHeu(s, visits + [v]) && board.neverSymmetry == EndNever(n0, visits + [v])
    {
      ghost var mid := Snap();
      childScore, v := Child(col, alpha, beta, depthLimit);
      VisitedNear(Setting(), s, mid, depthLimit, col, mid.data, mid.heuData, mid.never, alpha, beta, childScore, v);
      WalkPush(Setting(), s, n0, depthLimit, parentAlpha, parentBeta, colOrder, children, visits, childScore, v);
      GrowsTrans(s0.data, mid.data, data);
      DeepensTrans(s0.heuData, mid.heuData, heuData);
    }

    /**
     * One child of `miniMax`: `put(col)`, the child's `miniMax` with the
     * same depth limit and window, `undo()`. The visit v records the
     * state after the `put`, the tables the child's search left and that
     * search's record.
     */
    method Child(col: int, alpha: int, beta: int, depthLimit: int) returns (childScore: int, ghost v: Branch)
      requires Valid() && Open(board.log, col)
      modifies this, board
      decreases Cells - board.moves, 0
      ensures Framed(old(Snap())) && v.data == data && v.heuData == heuData && v.never == board.neverSymmetry
      ensures Visited(Setting(), old(Snap()), depthLimit, col, old(data), old(heuData), old(board.neverSymmetry), alpha, beta, childScore, v)
    {
      ghost var s := Snap();
      RoomLeft(board.log, col);
      Play(board, col);
      childScore, v := Descend(s, col, alpha, beta, depthLimit);
      Take(board);
      assert board.log == s.log && board.colors == s.colors;
    }

    /** The child's `miniMax` of `Child`, from the state the `put` of col left after state s. */
    method Descend(ghost s: Snapshot, col: int, alpha: int, beta: int, depthLimit: int) returns (childScore: int, ghost v: Branch)
      requires Valid() && Enters(s, col, s.data, s.heuData, s.never, Snap())
      modifies this, board
      decreases Cells - board.moves, 9
      ensures Framed(old(Snap())) && v.start == old(Snap())
      ensures v.data == data && v.heuData == heuData && v.never == board.neverSymmetry
      ensures Visited(Setting(), s, depthLimit, col, s.data, s.heuData, s.never, alpha, beta, childScore, v)
    {
      ghost var t;
      childScore, t := MiniMax(alpha, beta, depthLimit);
      VisitFrom(Setting(), s, depthLimit, col, s.data, s.heuData, s.never, alpha, beta, childScore,
                old(Snap()), data, heuData, board.neverSymmetry, t);
      v := Branch(old(Snap()), data, heuData, board.neverSymmetry, t);
    }

    /**
     * The first step of `search`: while no decrease of the depth happened
     * and `heuData` has a bucket for the depth limit ply + moves, one ply
     * deeper, noting the increase.
     */
    method Climb()
      requires Valid()
      modifies this
      ensures Climbed(old(Snap()), ply)
      ensures alreadyIncreased == (old(alreadyIncreased) || ply != old(ply)) && alreadyDecreased == old(alreadyDecreased)
      ensures Valid() && maxScore == old(maxScore) && data == old(data) && heuData == old(heuData)
    {
      while !alreadyDecreased && ply + board.moves in heuData
        invariant old(ply) <= ply && (alreadyDecreased ==> ply == old(ply))
        invariant forall d :: old(ply) + board.moves <= d < ply + board.moves ==> d in heuData
        invariant alreadyIncreased == (old(alreadyIncreased) || ply != old(ply)) && alreadyDecreased == old(alreadyDecreased)
        invariant Valid() && maxScore == old(maxScore) && data == old(data) && heuData == old(heuData)
        decreases set d | d in heuData && d >= ply + board.moves
      {
        ghost var above := set d | d in heuData && d >= ply + board.moves;
        assert ply + board.moves in above;
        ply := ply + 1;
        alreadyIncreased := true;
        assert (set d | d in heuData && d >= ply + board.moves) < above;
      }
    }

    /**
     * The column order of `search`: `symmetry` is asked first; then [2, 1, 0]
     * on the empty board, and otherwise [3, 2, 1, 0] or the centre order
     * with the full columns removed.
     */
    method RootColumns() returns (colOrder: seq<int>, ghost sym: bool)
      requires Valid()
      modifies board
      ensures Framed(old(Snap()))
      ensures RootOrder(colOrder, board.log, board.colors, sym, old(board.neverSymmetry))
      ensures board.neverSymmetry == RootFlag(board.log, board.colors, board.top, old(board.neverSymmetry))
      ensures forall c :: c in colOrder ==> Open(board.log, c)
    {
      var s := board.Symmetry();
      sym := s;
      if board.moves == 0 {
        colOrder := FirstOrder;
      } else {
        var cols := if s then HalfOrder else CentreOrder;
        colOrder := Filter(cols);
        PossiblesKeep(cols, board.log);
      }
    }

    /**
     * The proven-win exit of `search`: the child score of the next column
     * becomes `maxScore`, the depth is capped by `PlyCap` and the column is
     * the choice.
     */
    method Claim(ghost s: Snapshot, colOrder: seq<int>, ghost children: seq<int>, ghost score: Option<int>,
                 ghost bestCol: int, ghost pick: int, childScore: int)
      requires Framed(s) && Tally(colOrder, children, s.log, s.maxScore, score, bestCol, pick)
      requires |children| < |colOrder| && Proven(childScore, s.maxScore)
      modifies this
      ensures Scoring(s, colOrder, colOrder[|children|], children + [childScore], true, pick)
    {
      TallyWin(colOrder, children, s.log, s.maxScore, score, bestCol, pick, childScore);
      maxScore := Some(childScore);
      var maxPly := PlyCap(childScore, board.moves);
      ply := if ply >= maxPly then maxPly else ply;
    }

    /** All columns scored without a proven win: the column kept is the choice. */
    lemma Done(s: Snapshot, colOrder: seq<int>, children: seq<int>, score: Option<int>, bestCol: int, pick: int)
      requires Framed(s) && Tally(colOrder, children, s.log, s.maxScore, score, bestCol, pick) && |children| == |colOrder|
      ensures Scoring(s, colOrder, bestCol, children, false, pick)
    {
      assert colOrder[..|children|] == colOrder;
    }

    /**
     * What the scoring loop of `search` from state s leaves: the board
     * given back, `Picked` of the child scores, and after a proven win that
     * score as `maxScore` and the depth capped by `PlyCap`.
     */
    ghost predicate Scoring(s: Snapshot, colOrder: seq<int>, bestCol: int, children: seq<int>, won: bool, pick: int)
      reads this, heuristic, board
    {
      Restored(s) && Picked(colOrder, children, s.log, s.maxScore, won, bestCol, pick) &&
      (won ==> |children| > 0 && maxScore == Some(children[|children| - 1]) &&
               ply == Capped(s.ply, children[|children| - 1], |s.log|)) &&
      (!won ==> ply == s.ply && maxScore == s.maxScore)
    }

    /**
     * The scoring loop of `search`: every column of colOrder is played and
     * scored by `miniMax` with the window (-10000, 10000) and the depth limit
     * ply + moves, and taken back. A proven win returns its column at once;
     * otherwise the higher score wins, then the higher top row (`getRow`),
     * then the earlier column.
     */
    method Scores(colOrder: seq<int>)
      returns (bestCol: int, ghost children: seq<int>, won: bool, ghost pick: int, depthLimit: int, ghost visits: seq<Branch>)
      requires Valid() && forall c :: c in colOrder ==> Open(board.log, c)
      modifies this, board
      ensures Scoring(old(Snap()), colOrder, bestCol, children, won, pick)
      ensures depthLimit == old(ply) + |old(board.log)| && Rooted(Setting(), old(Snap()), depthLimit, colOrder, children, visits)
      ensures board.neverSymmetry == EndNever(old(board.neverSymmetry), visits)
    {
      bestCol, children, won, pick, visits := -1, [], false, 0, [];
      var score: Option<int> := None;
      ghost var s := Snap();
      depthLimit := ply + board.moves;
      var i := 0;
      while i < |colOrder|
        invariant |children| == i && Framed(s)
        invariant Tally(colOrder, children, s.log, s.maxScore, score, bestCol, pick)
        invariant Rooted(Setting(), s, depthLimit, colOrder, children, visits) && data == EndData(s, visits) && heuData == EndHeu(s, visits)
        invariant board.neverSymmetry == EndNever(s.never, visits)
        invariant depthLimit == ply + board.moves
      {
        var col := colOrder[i];
        var childScore;
        ghost var v;
        childScore, v := Visit(s, col, depthLimit, colOrder, children, visits);
        visits := visits + [v];
        if Proven(childScore, maxScore) {
          Claim(s, colOrder, children, score, bestCol, pick, childScore);
          bestCol, children, won := col, children + [childScore], true;
          assert s == old(Snap());
          return;
        }
        score, bestCol, pick := Weigh(s, colOrder, children, score, bestCol, pick, i, childScore);
        children := children + [childScore];
        i := i + 1;
      }
      Done(s, colOrder, children, score, bestCol, pick);
    }

    /**
     * The comparison of the scoring loop of `search` for the child score of
     * the next column that is not a proven win: the column is kept when it
     * is the first, scores higher, or scores the same and `getRow` finds its
     * top row higher than that of the column kept.
     */
    method Weigh(ghost s: Snapshot, colOrder: seq<int>, ghost children: seq<int>, score: Option<int>, bestCol: int, ghost pick: int,
                 i: int, childScore: int)
      returns (score2: Option<int>, bestCol2: int, ghost pick2: int)
      requires board.Valid() && board.log == s.log && forall c :: c in colOrder ==> Open(board.log, c)
      requires Tally(colOrder, children, s.log, s.maxScore, score, bestCol, pick) && i == |children| < |colOrder| && !Proven(childScore, s.maxScore)
      ensures Tally(colOrder, children + [childScore], s.log, s.maxScore, score2, bestCol2, pick2)
    {
      var col := colOrder[i];
      var better := score.None? || childScore > score.value;
      if !better && childScore == score.value {
        assert colOrder[pick] in colOrder && col in colOrder;
        better := Higher(col, bestCol);
      }
      TallyPush(colOrder, children, s.log, s.maxScore, score, bestCol, pick, childScore, better);
      score2, bestCol2, pick2 := score, bestCol, pick;
      if better {
        score2, bestCol2, pick2 := Some(childScore), col, i;
      }
    }

    /**
     * One column of `search`: `put(col)`, `miniMax(-10000, 10000, ply + moves - 1)`
     * of the child, `undo()`; v records that search, and the root loop's
     * record grows by it as `Rooted` states.
     */
    method Visit(ghost s: Snapshot, col: int, depthLimit: int, ghost colOrder: seq<int>, ghost children: seq<int>, ghost visits: seq<Branch>)
      returns (childScore: int, ghost v: Branch)
      requires Framed(s)
      requires |children| < |colOrder| && col == colOrder[|children|] && Open(board.log, col)
      requires Rooted(Setting(), s, depthLimit, colOrder, children, visits) && data == EndData(s, visits) && heuData == EndHeu(s, visits)
      requires board.neverSymmetry == EndNever(s.never, visits)
      modifies this, board
      ensures Framed(s)
      ensures Rooted(Setting(), s, depthLimit, colOrder, children + [childScore], visits + [v])
      ensures data == EndData(s, visits + [v]) && heuData == EndHeu(s, visits + [v]) && board.neverSymmetry == EndNever(s.never, visits + [v])
    {
      ghost var mid := Snap();
      childScore, v := Child(col, -10000, 10000, depthLimit);
      VisitedNear(Setting(), s, mid, depthLimit, col, mid.data, mid.heuData, mid.never, -10000, 10000, childScore, v);
      RootPush(Setting(), s, depthLimit, colOrder, children, visits, childScore, v);
      GrowsTrans(s.data, mid.data, data);
      DeepensTrans(s.heuData, mid.heuData, heuData);
    }

    /** The tie-break of `search`: `getRow(col) > getRow(bestCol)`, column col holds more stones than column bestCol. */
    method Higher(col: int, bestCol: int) returns (r: bool)
      requires board.Valid() && 0 <= col < Width && 0 <= bestCol < Width
      ensures r <==> Count(board.log, col) > Count(board.log, bestCol)
    {
      var row := board.GetRow(col);
      var bestRow := board.GetRow(bestCol);
      r := row > bestRow;
    }

    /**
     * The end of `search` after a full loop: one ply less after the first
     * move of a game searched deeper than 11, the buckets of `heuData` for
     * the depth limits below moves + ply emptied, and both flags cleared.
     */
    method Settle()
      requires Valid()
      modifies this
      ensures Valid() && data == old(data) && maxScore == old(maxScore)
      ensures ply == if board.moves == 0 && old(ply) > 11 then old(ply) - 1 else old(ply)
      ensures Purged(old(heuData), heuData, board.moves + ply)
      ensures !alreadyIncreased && !alreadyDecreased
    {
      if board.moves == 0 && ply > 11 {
        ply := ply - 1;
      }
      Purge(board.moves + ply);
      alreadyIncreased := false;
      alreadyDecreased := false;
    }

    /** `heuData[key].clear()` for every key in `range(limit)` that has a bucket. */
    method Purge(limit: int)
      requires Valid()
      modifies this
      ensures Valid() && data == old(data) && ply == old(ply) && maxScore == old(maxScore)
      ensures alreadyIncreased == old(alreadyIncreased) && alreadyDecreased == old(alreadyDecreased)
      ensures Purged(old(heuData), heuData, limit)
    {
      var h := heuData;
      var key := 0;
      while key < limit
        invariant 0 <= key && (key <= limit || key == 0)
        invariant Purged(heuData, h, key)
      {
        if key in h {
          h := h[key := map[]];
        }
        key := key + 1;
      }
      heuData := h;
    }

    /**
     * `search` without its timing rules: the depth climb, the column order,
     * the scoring loop and, after a full loop, the settling of the depth,
     * the purge and the flags. depth is the depth the columns were scored
     * at and searched the table `heuData` before the purge; root is the
     * state the scoring loop starts from and visits the record of the
     * search of each column.
     */
    method Search() returns (bestCol: int, ghost depth: int, ghost order: seq<int>, ghost children: seq<int>,
                             won: bool, ghost pick: int, ghost sym: bool, ghost searched: map<int, map<int, int>>,
                             ghost root: Snapshot, ghost limit: int, ghost visits: seq<Branch>)
      requires Valid()
      modifies this, board
      ensures Climbed(old(Snap()), depth)
      ensures RootOrder(order, old(board.log), old(board.colors), sym, old(board.neverSymmetry))
      ensures Picked(order, children, old(board.log), old(maxScore), won, bestCol, pick)
      ensures Chosen(old(Snap()), depth, children, won, searched)
      ensures Near(old(Snap()).(ply := depth, up := old(alreadyIncreased) || depth != old(ply)), root)
      ensures root.data == old(data) && root.heuData == old(heuData)
      ensures root.never == RootFlag(old(board.log), old(board.colors), old(board.top), old(board.neverSymmetry))
      ensures limit == depth + |old(board.log)| && Rooted(Setting(), root, limit, order, children, visits)
      ensures board.neverSymmetry == EndNever(root.never, visits)
    {
      Climb();
      depth := ply;
      bestCol, order, children, won, pick, sym, searched, root, limit, visits := Choose(old(Snap()), depth);
    }

    /**
     * `search` after the depth climb from state s to depth p; root is the
     * state the scoring loop starts from, visits its record.
     */
    method Choose(ghost s: Snapshot, ghost p: int)
      returns (bestCol: int, ghost order: seq<int>, ghost children: seq<int>,
               won: bool, ghost pick: int, ghost sym: bool, ghost searched: map<int, map<int, int>>,
               ghost root: Snapshot, ghost limit: int, ghost visits: seq<Branch>)
      requires Valid() && Snap() == s.(ply := p, up := s.up || p != s.ply)
      modifies this, board
      ensures RootOrder(order, s.log, s.colors, sym, s.never)
      ensures Picked(order, children, s.log, s.maxScore, won, bestCol, pick)
      ensures Chosen(s, p, children, won, searched)
      ensures Near(s.(ply := p, up := s.up || p != s.ply), root) && root.data == s.data && root.heuData == s.heuData
      ensures root.never == RootFlag(s.log, s.colors, s.top, s.never)
      ensures limit == p + |s.log| && Rooted(Setting(), root, limit, order, children, visits)
      ensures board.neverSymmetry == EndNever(root.never, visits)
    {
      var colOrder;
      colOrder, sym := RootColumns();
      order := colOrder;
      root := Snap();
      bestCol, children, won, pick, searched, limit, visits := Rank(s, p, root, colOrder);
    }

    /**
     * The rest of `search` once the columns colOrder are known, from the
     * state root that the depth climb from s to depth p and the column
     * order left: the scoring loop and, after a full loop, the settling.
     */
    method Rank(ghost s: Snapshot, ghost p: int, ghost root: Snapshot, colOrder: seq<int>)
      returns (bestCol: int, ghost children: seq<int>, won: bool, ghost pick: int,
               ghost searched: map<int, map<int, int>>, ghost limit: int, ghost visits: seq<Branch>)
      requires Valid() && Snap() == root && forall c :: c in colOrder ==> Open(board.log, c)
      requires Near(s.(ply := p, up := s.up || p != s.ply), root) && root.data == s.data && root.heuData == s.heuData
      modifies this, board
      ensures Picked(colOrder, children, s.log, s.maxScore, won, bestCol, pick)
      ensures Chosen(s, p, children, won, searched)
      ensures limit == p + |s.log| && Rooted(Setting(), root, limit, colOrder, children, visits)
      ensures board.neverSymmetry == EndNever(root.never, visits)
    {
      bestCol, children, won, pick, limit, visits := Scores(colOrder);
      searched := heuData;
      if won {
        return;
      }
      Settle();
    }

    /**
     * The state `search` from state s leaves behind after scoring at depth
     * p: the board given back and no entry of `data` changed, and `heuData`
     * as the scoring left it (searched). After a proven win, `maxScore` is
     * that score, the depth is capped by `PlyCap` and the table and flags
     * stay as they were; otherwise `maxScore` stays, one ply is taken off
     * on the empty board at a depth above 11, the buckets below moves + ply
     * are emptied and both flags are cleared.
     */
    ghost predicate Chosen(s: Snapshot, p: int, children: seq<int>, won: bool, searched: map<int, map<int, int>>)
      reads this, heuristic, board
    {
      Valid() && board.log == s.log && board.colors == s.colors && board.top == s.top &&
      Grows(s.data, data) && Deepens(s.heuData, searched) &&
      (won ==> |children| > 0 && maxScore == Some(children[|children| - 1]) &&
               ply == Capped(p, children[|children| - 1], |s.log|) && heuData == searched &&
               alreadyIncreased == (s.up || p != s.ply) && alreadyDecreased == s.down) &&
      (!won ==> maxScore == s.maxScore && ply == (if |s.log| == 0 && p > 11 then p - 1 else p) &&
                Purged(searched, heuData, |s.log| + ply) && !alreadyIncreased && !alreadyDecreased)
    }
  }
}
