/**
 * The `Board` class of board.py: the bitboard a game is played on.
 *
 * The fields are those of the source: `posOX` (the stones of the side that
 * moved last, unless the perspective was reversed), `posAll` (one word per
 * column, a run of ones from the column's sentinel), `moves`, `log` and the
 * `neverSymmetry` flag. Two ghost fields give each stone a colour: `colors[i]`
 * is the colour of the stone of move `log[i]` (true for the side that moves
 * first) and `top` is the colour whose stones `posOX` holds. `Valid` ties the
 * words to the log through the functions of BoardState.
 */
module Boards {
  import opened Bits
  import opened Lines
  import opened BoardState
  import opened Mirrors

  class Board {
    /** 0 when the engine moves first, 1 when it moves second. */
    const player: int
    var posOX: bv64
    var posAll: seq<bv64>
    var moves: int
    var log: seq<int>
    var neverSymmetry: bool
    ghost var colors: seq<bool>
    ghost var top: bool

    /** The words are those the logged moves produce; `posOX` holds the colour `top`. */
    ghost predicate Valid()
      reads this
    {
      moves == |log| && Legal(log) && |colors| == |log| && posAll == Columns(log) && posOX == Stones(log, colors, top)
    }

    /** Moves alternate between the colours, and `posOX` holds the side that moved last. */
    ghost predicate Alternating()
      reads this
    {
      Alternate(colors) && top == (|log| % 2 == 1)
    }

    /** The last stone played has the colour `posOX` holds, as it has right after a put. */
    ghost predicate LastOnTop()
      reads this
    {
      |log| > 0 && |colors| == |log| && Last(colors) == top
    }

    /** The columns as towers of colours, bottom first. */
    ghost function Towers(): seq<seq<bool>>
      reads this
      requires |colors| == |log|
    {
      Grid(log, colors)
    }

    /** The colour `exists` reports as 0 ('O'): `posOX` when `moves % 2 != player`, the other side otherwise. */
    ghost function OColor(): bool
      reads this
    {
      if moves % 2 != player then top else !top
    }

    constructor(player: int)
      ensures Valid() && Alternating()
      ensures this.player == player && posOX == 0 && posAll == [0, 0, 0, 0, 0, 0, 0]
      ensures moves == 0 && log == [] && !neverSymmetry
    {
      this.player := player;
      posOX := 0;
      posAll := [0, 0, 0, 0, 0, 0, 0];
      moves := 0;
      log := [];
      neverSymmetry := false;
      colors := [];
      top := false;
    }

    /** Sets the words, the move counter and the log together. */
    method Store(x: bv64, a: seq<bv64>, m: int, l: seq<int>, ghost cs: seq<bool>, ghost t: bool)
      modifies this
      ensures posOX == x && posAll == a && moves == m && log == l && colors == cs && top == t
      ensures neverSymmetry == old(neverSymmetry)
    {
      posOX, posAll, moves, log, colors, top := x, a, m, l, cs, t;
    }

    /** `posCurrent`: `posOX + sum(posAll) + sum(posBottom)`, one marker bit above each column's stones. */
    function PosCurrent(): (key: bv64)
      reads this
      requires Valid()
      ensures key == KeyWord(log, colors, top)
    {
      StonesKey(log, colors, top);
      Key(posOX, posAll)
    }

    /** `posReverse`: `posOX` takes the other side's stones. */
    method PosReverse()
      requires Valid()
      modifies this
      ensures Valid()
      ensures posAll == old(posAll) && moves == old(moves) && log == old(log) && colors == old(colors)
      ensures posOX == Flip(old(posOX), posAll) && top == !old(top)
      ensures neverSymmetry == old(neverSymmetry)
    {
      FlipStones(log, colors, top);
      Store(Flip(posOX, posAll), posAll, moves, log, colors, !top);
    }

    /** `possible`: column col has room for another stone. */
    function Possible(col: int): (r: bool)
      reads this
      requires Valid() && 0 <= col < Width
      ensures r <==> Count(log, col) < Height
    {
      ColumnsRead(log, col, 0);
      Room(posAll[col], col)
    }

    /**
     * `put`: drop a stone into column col (`(posAll[col] << 1) + posBottom[col]`),
     * count the move, reverse the perspective onto the stone just played and log it.
     */
    method Put(col: int)
      requires Valid() && 0 <= col < Width && Count(log, col) < Height
      modifies this
      ensures Valid() && LastOnTop()
      ensures log == old(log) + [col] && moves == old(moves) + 1
      ensures posAll == old(posAll)[col := PutWord(old(posAll)[col], col)] && posOX == Flip(old(posOX), posAll)
      ensures colors == old(colors) + [!old(top)] && top == !old(top)
      ensures neverSymmetry == old(neverSymmetry)
      ensures old(Alternating()) ==> Alternating()
      ensures old(Sound()) ==> Sound()
    {
      if neverSymmetry && Sound() {
        DoomedGrows(log, colors, [col], [!top]);
      }
      PutStones(log, colors, top, col);
      LastPush(colors, !top);
      AlternatePush(colors, top);
      var a := posAll[col := PutWord(posAll[col], col)];
      Store(Flip(posOX, a), a, moves + 1, log + [col], colors + [!top], !top);
    }

    /** `puts`: the moves of cols, one after the other. */
    method Puts(cols: seq<int>)
      requires Valid() && Legal(log + cols)
      modifies this
      ensures Valid() && log == old(log) + cols && moves == old(moves) + |cols|
      ensures colors == old(colors) + Turns(!old(top), |cols|)
      ensures top == if |cols| % 2 == 0 then old(top) else !old(top)
      ensures neverSymmetry == old(neverSymmetry)
      ensures old(Alternating()) ==> Alternating()
    {
      var i := 0;
      while i < |cols|
        invariant 0 <= i <= |cols| && Valid() && Played(old(log), old(colors), old(top), cols, i)
        invariant neverSymmetry == old(neverSymmetry)
        invariant old(Alternating()) ==> Alternating()
      {
        PlayNext(old(log), old(colors), old(top), cols, i, log, colors, top);
        Put(cols[i]);
        i := i + 1;
      }
      assert cols[..i] == cols;
    }

    /** The board holds the first i moves of cols played after log0. */
    ghost predicate Played(log0: seq<int>, colors0: seq<bool>, t0: bool, cols: seq<int>, i: int)
      reads this
      requires 0 <= i <= |cols|
    {
      log == log0 + cols[..i] && moves == |log0| + i && colors == colors0 + Turns(!t0, i) && top == (if i % 2 == 0 then t0 else !t0)
    }

    /** `undo`: take back the last move, `posOX` taking the other side's stones first. */
    method Undo()
      requires Valid() && LastOnTop()
      modifies this
      ensures Valid()
      ensures log == old(log)[..|old(log)| - 1] && moves == old(moves) - 1
      ensures posOX == Flip(old(posOX), old(posAll))
      ensures posAll == old(posAll)[old(log)[|old(log)| - 1] := UndoWord(old(posAll)[old(log)[|old(log)| - 1]])]
      ensures colors == old(colors)[..|old(colors)| - 1] && top == !old(top)
      ensures neverSymmetry == old(neverSymmetry)
      ensures old(Alternating()) ==> Alternating()
    {
      UndoStones(log, colors, top);
      AlternatePop(colors, top);
      var col := log[|log| - 1];
      Store(Flip(posOX, posAll), posAll[col := UndoWord(posAll[col])], moves - 1, log[..|log| - 1], colors[..|colors| - 1], !top);
    }

    /**
     * `undo` that also puts `neverSymmetry` back to saved, the value it
     * had before the put being taken back; with that value the flag stays
     * sound, which `undo` itself does not promise.
     */
    method UndoRestoring(saved: bool)
      requires Valid() && LastOnTop()
      requires saved ==> Doomed(log[..|log| - 1], colors[..|colors| - 1])
      modifies this
      ensures Valid() && Sound() && neverSymmetry == saved
      ensures log == old(log)[..|old(log)| - 1] && colors == old(colors)[..|old(colors)| - 1] && top == !old(top)
    {
      Undo();
      neverSymmetry := saved;
    }

    /**
     * When `neverSymmetry` is set, a position on the way to this one had a
     * first clash, so neither this position nor any extension of it is
     * symmetric.
     */
    ghost predicate Sound()
      reads this
    {
      |colors| == |log| && (neverSymmetry ==> Doomed(log, colors))
    }

    /** `getRow`: the row of the top stone of column col, -1 when it is empty. */
    method GetRow(col: int) returns (row: int)
      requires Valid() && 0 <= col < Width
      ensures row == Count(log, col) - 1
    {
      ColumnsStacked(log);
      row := TopRow(posAll[col], col, Count(log, col));
    }

    /** `exists`: 0 for a stone of the side 'O', 1 for the other side, -1 for an empty cell. */
    function Exists(col: int, row: int): (r: int)
      reads this
      requires Valid() && 0 <= col < Width && 0 <= row <= Height
      ensures r == 0 <==> Holds(Towers()[col], row, OColor())
      ensures r == 1 <==> Holds(Towers()[col], row, !OColor())
      ensures r == -1 <==> row >= Count(log, col)
    {
      FlipStones(log, colors, top);
      FlipStones(log, colors, !top);
      StonesProbe(log, colors, OColor(), col, row);
      StonesProbe(log, colors, !OColor(), col, row);
      var posO := if moves % 2 != player then posOX else Flip(posOX, posAll);
      if Hits(posO, col, row) then 0
      else
        var posX := Flip(posO, posAll);
        if Hits(posX, col, row) then 1 else -1
    }

    /** `topStone`: the colour of the top stone of a column that has one. */
    method TopStone(col: int) returns (r: int)
      requires Valid() && 0 <= col < Width && Count(log, col) > 0
      ensures r == 0 || r == 1
      ensures r == 0 <==> Holds(Towers()[col], Count(log, col) - 1, OColor())
      ensures r == 1 <==> Holds(Towers()[col], Count(log, col) - 1, !OColor())
    {
      var row := GetRow(col);
      r := Exists(col, row);
    }

    /**
     * `symmetry`: whether column c and column 6 - c hold the same stones for
     * every c. When the first column pair that differs has a row with one
     * colour on one side and the other colour on the other, the board
     * remembers that no position extending this one can be symmetric. With
     * a sound flag the answer is exactly whether the board is symmetric.
     */
    method Symmetry() returns (s: bool)
      requires Valid()
      modifies this
      ensures posOX == old(posOX) && posAll == old(posAll) && moves == old(moves) && log == old(log)
      ensures colors == old(colors) && top == old(top)
      ensures old(neverSymmetry) ==> !s && neverSymmetry
      ensures !old(neverSymmetry) ==> (s <==> Symmetric(Towers()))
      ensures neverSymmetry <==> old(neverSymmetry) || FirstClash(Towers(), top)
      ensures old(Sound()) ==> Sound() && (s <==> Symmetric(Towers()))
    {
      if neverSymmetry {
        if Sound() {
          DoomedNotSymmetric(log, colors);
        }
        return false;
      }
      var posO := posOX;
      var posX := Flip(posOX, posAll);
      FlipStones(log, colors, top);
      var colO, colX := Split(posO, posX);
      Verdicts(log, colors, top, colO, colX);
      var never;
      s, never := Compare(colO, colX);
      if never {
        Never();
        ClashDooms(log, colors, top);
      }
    }

    /** Sets `neverSymmetry`. */
    method Never()
      modifies this
      ensures neverSymmetry
      ensures posOX == old(posOX) && posAll == old(posAll) && moves == old(moves) && log == old(log)
      ensures colors == old(colors) && top == old(top)
    {
      neverSymmetry := true;
    }

    /** `win`: four stones of `posOX` in a line, not looked for before move 6. */
    method Win() returns (w: bool)
      requires Valid()
      ensures w <==> moves >= 6 && Connected(Towers(), top)
    {
      if moves < 6 {
        return false;
      }
      w := Lined(Directions);
      Winning();
    }

    /** `winWithoutVerticle`: as `win`, without the vertical direction. */
    method WinWithoutVertical() returns (w: bool)
      requires Valid()
      ensures w <==> moves >= 6 && ConnectedFlat(Towers(), top)
    {
      if moves < 6 {
        return false;
      }
      w := Lined(FlatDirections);
      Winning();
    }

    /** The loop over the directions shared by `win` and `winWithoutVerticle`. */
    method Lined(ds: seq<(int, int)>) returns (w: bool)
      requires Strides(ds)
      ensures w <==> Connects(posOX, ds)
    {
      var i := 0;
      while i < |ds|
        invariant 0 <= i <= |ds|
        invariant forall j :: 0 <= j < i ==> Spread(posOX, Stride(ds[j])) == 0
      {
        var check := Spread(posOX, Stride(ds[i]));
        if check != 0 {
          return true;
        }
        i := i + 1;
      }
      return false;
    }

    /** The shift-and tests on `posOX` find the lines of four of colour `top`. */
    lemma Winning()
      requires Valid()
      ensures Strides(Directions) && Strides(FlatDirections)
      ensures Connects(posOX, Directions) <==> Connected(Towers(), top)
      ensures Connects(posOX, FlatDirections) <==> ConnectedFlat(Towers(), top)
    {
      StonesConnect(log, colors, top);
    }
  }

  /** `posCurrent` tells positions apart: equal keys exactly for equal words. */
  lemma CurrentDistinguishes(b1: Board, b2: Board)
    requires b1.Valid() && b2.Valid()
    ensures b1.PosCurrent() == b2.PosCurrent() <==> b1.posOX == b2.posOX && b1.posAll == b2.posAll
  {
    StonesKeyInjective(b1.log, b1.colors, b1.top, b2.log, b2.colors, b2.top);
  }

  /**
   * The trial moves of a search leave the flag behind: trial stones in
   * columns c1 and c2 with `symmetry` asked at the trial position, where
   * the first pair that differs clashes, both taken back by `undo`, and then
   * a stone in column c that makes the board symmetric: `symmetry` answers
   * false. `StaleMoves` gives such moves after a first stone in the centre.
   */
  method StaleSymmetry(b: Board, c1: int, c2: int, c: int) returns (s: bool)
    requires b.Valid() && !b.neverSymmetry && 0 <= c1 < Width && 0 <= c2 < Width && 0 <= c < Width
    requires Count(b.log, c1) < Height && Count(b.log + [c1], c2) < Height && Count(b.log, c) < Height
    requires FirstClash(Grid(b.log + [c1, c2], b.colors + [!b.top, b.top]), b.top)
    requires Symmetric(Grid(b.log + [c], b.colors + [!b.top]))
    modifies b
    ensures b.Valid() && b.log == old(b.log) + [c] && Symmetric(b.Towers()) && !s
  {
    Pop2(b.log, c1, c2);
    Pop2(b.colors, !b.top, b.top);
    Trials(b, c1, c2);
    b.Undo();
    b.Undo();
    b.Put(c);
    s := b.Symmetry();
  }

  /**
   * The moves of `StaleSymmetry` with each trial stone taken back by
   * `UndoRestoring` and the flag saved before its put: on a board with a
   * sound flag `symmetry` answers true.
   */
  method RestoredSymmetry(b: Board, c1: int, c2: int, c: int) returns (s: bool)
    requires b.Valid() && b.Sound() && 0 <= c1 < Width && 0 <= c2 < Width && 0 <= c < Width
    requires Count(b.log, c1) < Height && Count(b.log + [c1], c2) < Height && Count(b.log, c) < Height
    requires Symmetric(Grid(b.log + [c], b.colors + [!b.top]))
    modifies b
    ensures b.Valid() && b.Sound() && b.log == old(b.log) + [c] && Symmetric(b.Towers()) && s
  {
    var saved1 := b.neverSymmetry;
    if saved1 {
      DoomedGrows(b.log, b.colors, [c1], [!b.top]);
    }
    b.Put(c1);
    var saved2 := b.neverSymmetry;
    b.Put(c2);
    PopPush(b.log);
    PopPush(b.colors);
    var trial := b.Symmetry();
    b.UndoRestoring(saved2);
    b.UndoRestoring(saved1);
    b.Put(c);
    s := b.Symmetry();
  }

  /**
   * The moves of `StaleSymmetry` on the board after a first stone in the
   * centre: trial stones in columns 2 and 4, then a stone in the centre.
   */
  lemma StaleMoves(log: seq<int>, colors: seq<bool>, top: bool)
    requires log == [3] && colors == [true] && top
    ensures Count(log, 2) < Height && Count(log + [2], 4) < Height && Count(log, 3) < Height
    ensures FirstClash(Grid(log + [2, 4], colors + [!top, top]), top)
    ensures Symmetric(Grid(log + [3], colors + [!top]))
  {
    assert log + [2, 4] == [3, 2, 4] && colors + [!top, top] == [true, false, true];
    assert log + [3] == [3, 3] && colors + [!top] == [true, false];
    StaleClash(top);
    CountBound(log, 2);
    CountBound(log + [2], 4);
    CountBound(log, 3);
  }

  /** The trial puts of `StaleSymmetry` and `symmetry` at the trial position, which sets the flag. */
  method Trials(b: Board, c1: int, c2: int)
    requires b.Valid() && 0 <= c1 < Width && 0 <= c2 < Width
    requires Count(b.log, c1) < Height && Count(b.log + [c1], c2) < Height
    requires FirstClash(Grid(b.log + [c1, c2], b.colors + [!b.top, b.top]), b.top)
    modifies b
    ensures b.Valid() && b.LastOnTop() && b.neverSymmetry && b.top == old(b.top)
    ensures b.log == old(b.log) + [c1, c2] && b.colors == old(b.colors) + [!old(b.top), old(b.top)]
  {
    Push2(b.log, c1, c2);
    Push2(b.colors, !b.top, b.top);
    b.Put(c1);
    b.Put(c2);
    var trial := b.Symmetry();
  }

  /** Taking two back from two appended gives the start. */
  lemma Pop2<T>(xs: seq<T>, x: T, y: T)
    ensures (xs + [x, y])[..|xs| + 1][..|xs|] == xs
  {}

  /** Taking back one appended gives the start. */
  lemma PopPush<T>(xs: seq<T>)
    requires |xs| > 0
    ensures xs[..|xs| - 1] + [xs[|xs| - 1]] == xs
  {}

  /** Two appends are one. */
  lemma Push2<T>(xs: seq<T>, x: T, y: T)
    ensures xs + [x] + [y] == xs + [x, y]
  {}
}