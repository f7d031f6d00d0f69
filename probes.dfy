/**
 * Trying moves on the shared board.
 *
 * The game tree and the rules both look ahead by playing a stone with
 * `put`, asking a question of the new position and taking the stone back
 * with `undo`, sometimes with `posReverse` around it. The methods here are
 * those board operations with their contracts stated on the log, the
 * colours and the side `posOX` holds only: `Board.Valid` determines every word
 * of the board from these, so a sequence of probes that gives back the
 * same log, colours and side gives back the same board.
 */
module Probes {
  import opened BoardState
  import opened Mirrors
  import opened Boards

  /** The number of cells of the board: a game has at most this many moves. */
  const Cells := Width * Height

  /** `put(col)`: the side not in `posOX` plays a stone into column col, and `posOX` then holds its stones. */
  method Play(b: Board, col: int)
    requires b.Valid() && 0 <= col < Width && Count(b.log, col) < Height
    modifies b
    ensures b.Valid() && b.LastOnTop()
    ensures b.log == old(b.log) + [col] && b.colors == old(b.colors) + [!old(b.top)] && b.top == !old(b.top)
    ensures b.neverSymmetry == old(b.neverSymmetry)
  {
    b.Put(col);
  }

  /** `undo()`: the last stone is taken back. */
  method Take(b: Board)
    requires b.Valid() && b.LastOnTop()
    modifies b
    ensures b.Valid()
    ensures b.log == old(b.log)[..|old(b.log)| - 1] && b.colors == old(b.colors)[..|old(b.colors)| - 1] && b.top == !old(b.top)
    ensures b.neverSymmetry == old(b.neverSymmetry)
  {
    b.Undo();
  }

  /** `posReverse()`: `posOX` takes the other side's stones. */
  method Turn(b: Board)
    requires b.Valid()
    modifies b
    ensures b.Valid()
    ensures b.log == old(b.log) && b.colors == old(b.colors) && b.top == !old(b.top)
    ensures b.neverSymmetry == old(b.neverSymmetry)
  {
    b.PosReverse();
  }

  /** `win()`, stated on the colours: the side `posOX` holds has four in a line (and at least six moves were made). */
  method Won(b: Board) returns (w: bool)
    requires b.Valid()
    ensures w <==> Wins(b.log, b.colors, b.top)
  {
    w := b.Win();
  }

  /** `winWithoutVerticle()`, stated on the colours: four in a horizontal or diagonal line. */
  method WonFlat(b: Board) returns (w: bool)
    requires b.Valid()
    ensures w <==> WinsFlat(b.log, b.colors, b.top)
  {
    w := b.WinWithoutVertical();
  }

  /** Colour t has four in a line after the moves of the log, at least six of them. */
  ghost predicate Wins(log: seq<int>, colors: seq<bool>, t: bool)
    requires |colors| == |log|
  {
    |log| >= 6 && Connected(Grid(log, colors), t)
  }

  /** Colour t has four in a horizontal or diagonal line, after at least six moves. */
  ghost predicate WinsFlat(log: seq<int>, colors: seq<bool>, t: bool)
    requires |colors| == |log|
  {
    |log| >= 6 && ConnectedFlat(Grid(log, colors), t)
  }

  /** Colour t playing col after the log wins at once. */
  ghost predicate WinsWith(log: seq<int>, colors: seq<bool>, col: int, t: bool)
    requires |colors| == |log|
  {
    Wins(log + [col], colors + [t], t)
  }

  /** A column with room means the board is not full. */
  lemma RoomLeft(log: seq<int>, col: int)
    requires Legal(log) && 0 <= col < Width && Count(log, col) < Height
    ensures |log| < Cells
  {
    TotalIsLength(log);
  }

  /** A legal log has at most one move per cell. */
  lemma AtMostCells(log: seq<int>)
    requires Legal(log)
    ensures |log| <= Cells
  {
    TotalIsLength(log);
  }

  /** A board that is not full has a column with room. */
  lemma NotFull(log: seq<int>) returns (col: int)
    requires Legal(log) && |log| < Cells
    ensures 0 <= col < Width && Count(log, col) < Height
  {
    TotalIsLength(log);
    col := if Count(log, 0) < Height then 0 else if Count(log, 1) < Height then 1
      else if Count(log, 2) < Height then 2 else if Count(log, 3) < Height then 3
      else if Count(log, 4) < Height then 4 else if Count(log, 5) < Height then 5 else 6;
  }
}
