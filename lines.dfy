/**
 * Four in a line, geometrically, and the shift-and tests that detect it.
 *
 * For a direction with bit stride d, `m := x & (x >> d)` keeps the cells whose
 * neighbour at distance d is set, and `m & (m >> 2 * d)` the cells that start
 * four in a line. On a word confined to the board, the guard row and the
 * unused bits above column 6 keep a line from wrapping from the top of one
 * column into the bottom of the next.
 *
 * The proofs go one column at a time: with the column fixed the solver
 * decides each fact quickly, while a symbolic column and row together make a
 * single obligation too large.
 */
module Lines {
  import opened Bits

  /** A stone of x sits on cell (c, r). */
  predicate Stone(x: bv64, c: bv64, r: bv64)
    requires c < 7 && r < 7
  {
    Has(x, 7 * c + r)
  }

  /** Cells that start four in a line with bit stride d. */
  function Spread(x: bv64, d: bv64): bv64
    requires d <= 8
  {
    var m := x & (x >> d);
    m & (m >> (2 * d))
  }

  /** Rows 0..5 of column c. */
  function ColumnMask(c: bv64): bv64
    requires c < 7
  {
    0x3F << (7 * c)
  }

  /** Four stones in a row, starting at cell (c, r). */
  predicate Horizontal(x: bv64, c: bv64, r: bv64)
  {
    c < 4 && r < 6 && Stone(x, c, r) && Stone(x, c + 1, r) && Stone(x, c + 2, r) && Stone(x, c + 3, r)
  }

  lemma HorizontalFound0(x: bv64)
    requires Subset(x, BoardMask) && Spread(x, 7) & ColumnMask(0) != 0
    ensures exists r :: Horizontal(x, 0, r)
  {
    if Spread(x, 7) & CellBit(0, 0) != 0 {
      assert Horizontal(x, 0, 0);
    } else if Spread(x, 7) & CellBit(0, 1) != 0 {
      assert Horizontal(x, 0, 1);
    } else if Spread(x, 7) & CellBit(0, 2) != 0 {
      assert Horizontal(x, 0, 2);
    } else if Spread(x, 7) & CellBit(0, 3) != 0 {
      assert Horizontal(x, 0, 3);
    } else if Spread(x, 7) & CellBit(0, 4) != 0 {
      assert Horizontal(x, 0, 4);
    } else {
      assert Horizontal(x, 0, 5);
    }
  }

  lemma HorizontalDetected0(x: bv64, r: bv64)
    requires Horizontal(x, 0, r)
    ensures Spread(x, 7) != 0
  {
    assert Spread(x, 7) & CellBit(0, r) != 0;
  }

  lemma HorizontalFound1(x: bv64)
    requires Subset(x, BoardMask) && Spread(x, 7) & ColumnMask(1) != 0
    ensures exists r :: Horizontal(x, 1, r)
  {
    if Spread(x, 7) & CellBit(1, 0) != 0 {
      assert Horizontal(x, 1, 0);
    } else if Spread(x, 7) & CellBit(1, 1) != 0 {
      assert Horizontal(x, 1, 1);
    } else if Spread(x, 7) & CellBit(1, 2) != 0 {
      assert Horizontal(x, 1, 2);
    } else if Spread(x, 7) & CellBit(1, 3) != 0 {
      assert Horizontal(x, 1, 3);
    } else if Spread(x, 7) & CellBit(1, 4) != 0 {
      assert Horizontal(x, 1, 4);
    } else {
      assert Horizontal(x, 1, 5);
    }
  }

  lemma HorizontalDetected1(x: bv64, r: bv64)
    requires Horizontal(x, 1, r)
    ensures Spread(x, 7) != 0
  {
    assert Spread(x, 7) & CellBit(1, r) != 0;
  }

  lemma HorizontalFound2(x: bv64)
    requires Subset(x, BoardMask) && Spread(x, 7) & ColumnMask(2) != 0
    ensures exists r :: Horizontal(x, 2, r)
  {
    if Spread(x, 7) & CellBit(2, 0) != 0 {
      assert Horizontal(x, 2, 0);
    } else if Spread(x, 7) & CellBit(2, 1) != 0 {
      assert Horizontal(x, 2, 1);
    } else if Spread(x, 7) & CellBit(2, 2) != 0 {
      assert Horizontal(x, 2, 2);
    } else if Spread(x, 7) & CellBit(2, 3) != 0 {
      assert Horizontal(x, 2, 3);
    } else if Spread(x, 7) & CellBit(2, 4) != 0 {
      assert Horizontal(x, 2, 4);
    } else {
      assert Horizontal(x, 2, 5);
    }
  }

  lemma HorizontalDetected2(x: bv64, r: bv64)
    requires Horizontal(x, 2, r)
    ensures Spread(x, 7) != 0
  {
    assert Spread(x, 7) & CellBit(2, r) != 0;
  }

  lemma HorizontalFound3(x: bv64)
    requires Subset(x, BoardMask) && Spread(x, 7) & ColumnMask(3) != 0
    ensures exists r :: Horizontal(x, 3, r)
  {
    if Spread(x, 7) & CellBit(3, 0) != 0 {
      assert Horizontal(x, 3, 0);
    } else if Spread(x, 7) & CellBit(3, 1) != 0 {
      assert Horizontal(x, 3, 1);
    } else if Spread(x, 7) & CellBit(3, 2) != 0 {
      assert Horizontal(x, 3, 2);
    } else if Spread(x, 7) & CellBit(3, 3) != 0 {
      assert Horizontal(x, 3, 3);
    } else if Spread(x, 7) & CellBit(3, 4) != 0 {
      assert Horizontal(x, 3, 4);
    } else {
      assert Horizontal(x, 3, 5);
    }
  }

  lemma HorizontalDetected3(x: bv64, r: bv64)
    requires Horizontal(x, 3, r)
    ensures Spread(x, 7) != 0
  {
    assert Spread(x, 7) & CellBit(3, r) != 0;
  }

  lemma HorizontalSound(x: bv64)
    requires Subset(x, BoardMask) && Spread(x, 7) != 0
    ensures exists c, r :: Horizontal(x, c, r)
  {
    if Spread(x, 7) & ColumnMask(0) != 0 {
      HorizontalFound0(x);
    } else if Spread(x, 7) & ColumnMask(1) != 0 {
      HorizontalFound1(x);
    } else if Spread(x, 7) & ColumnMask(2) != 0 {
      HorizontalFound2(x);
    } else {
      HorizontalFound3(x);
    }
  }

  lemma HorizontalComplete(x: bv64, c: bv64, r: bv64)
    requires Horizontal(x, c, r)
    ensures Spread(x, 7) != 0
  {
    if c == 0 {
      HorizontalDetected0(x, r);
    } else if c == 1 {
      HorizontalDetected1(x, r);
    } else if c == 2 {
      HorizontalDetected2(x, r);
    } else {
      HorizontalDetected3(x, r);
    }
  }

  /** The stride-7 shift-and test finds exactly the lines of four in a row. */
  lemma HorizontalExact(x: bv64)
    requires Subset(x, BoardMask)
    ensures Spread(x, 7) != 0 <==> exists c, r :: Horizontal(x, c, r)
  {
    if Spread(x, 7) != 0 {
      HorizontalSound(x);
    } else {
      forall c, r | Horizontal(x, c, r) ensures false {
        HorizontalComplete(x, c, r);
      }
    }
  }

  /** Four stones in a column, starting at cell (c, r). */
  predicate Vertical(x: bv64, c: bv64, r: bv64)
  {
    c < 7 && r < 3 && Stone(x, c, r) && Stone(x, c, r + 1) && Stone(x, c, r + 2) && Stone(x, c, r + 3)
  }

  lemma VerticalFound0(x: bv64)
    requires Subset(x, BoardMask) && Spread(x, 1) & ColumnMask(0) != 0
    ensures exists r :: Vertical(x, 0, r)
  {
    if Spread(x, 1) & CellBit(0, 0) != 0 {
      assert Vertical(x, 0, 0);
    } else if Spread(x, 1) & CellBit(0, 1) != 0 {
      assert Vertical(x, 0, 1);
    } else {
      assert Vertical(x, 0, 2);
    }
  }

  lemma VerticalDetected0(x: bv64, r: bv64)
    requires Vertical(x, 0, r)
    ensures Spread(x, 1) != 0
  {
    assert Spread(x, 1) & CellBit(0, r) != 0;
  }

  lemma VerticalFound1(x: bv64)
    requires Subset(x, BoardMask) && Spread(x, 1) & ColumnMask(1) != 0
    ensures exists r :: Vertical(x, 1, r)
  {
    if Spread(x, 1) & CellBit(1, 0) != 0 {
      assert Vertical(x, 1, 0);
    } else if Spread(x, 1) & CellBit(1, 1) != 0 {
      assert Vertical(x, 1, 1);
    } else {
      assert Vertical(x, 1, 2);
    }
  }

  lemma VerticalDetected1(x: bv64, r: bv64)
    requires Vertical(x, 1, r)
    ensures Spread(x, 1) != 0
  {
    assert Spread(x, 1) & CellBit(1, r) != 0;
  }

  lemma VerticalFound2(x: bv64)
    requires Subset(x, BoardMask) && Spread(x, 1) & ColumnMask(2) != 0
    ensures exists r :: Vertical(x, 2, r)
  {
    if Spread(x, 1) & CellBit(2, 0) != 0 {
      assert Vertical(x, 2, 0);
    } else if Spread(x, 1) & CellBit(2, 1) != 0 {
      assert Vertical(x, 2, 1);
    } else {
      assert Vertical(x, 2, 2);
    }
  }

  lemma VerticalDetected2(x: bv64, r: bv64)
    requires Vertical(x, 2, r)
    ensures Spread(x, 1) != 0
  {
    assert Spread(x, 1) & CellBit(2, r) != 0;
  }

  lemma VerticalFound3(x: bv64)
    requires Subset(x, BoardMask) && Spread(x, 1) & ColumnMask(3) != 0
    ensures exists r :: Vertical(x, 3, r)
  {
    if Spread(x, 1) & CellBit(3, 0) != 0 {
      assert Vertical(x, 3, 0);
    } else if Spread(x, 1) & CellBit(3, 1) != 0 {
      assert Vertical(x, 3, 1);
    } else {
      assert Vertical(x, 3, 2);
    }
  }

  lemma VerticalDetected3(x: bv64, r: bv64)
    requires Vertical(x, 3, r)
    ensures Spread(x, 1) != 0
  {
    assert Spread(x, 1) & CellBit(3, r) != 0;
  }

  lemma VerticalFound4(x: bv64)
    requires Subset(x, BoardMask) && Spread(x, 1) & ColumnMask(4) != 0
    ensures exists r :: Vertical(x, 4, r)
  {
    if Spread(x, 1) & CellBit(4, 0) != 0 {
      assert Vertical(x, 4, 0);
    } else if Spread(x, 1) & CellBit(4, 1) != 0 {
      assert Vertical(x, 4, 1);
    } else {
      assert Vertical(x, 4, 2);
    }
  }

  lemma VerticalDetected4(x: bv64, r: bv64)
    requires Vertical(x, 4, r)
    ensures Spread(x, 1) != 0
  {
    assert Spread(x, 1) & CellBit(4, r) != 0;
  }

  lemma VerticalFound5(x: bv64)
    requires Subset(x, BoardMask) && Spread(x, 1) & ColumnMask(5) != 0
    ensures exists r :: Vertical(x, 5, r)
  {
    if Spread(x, 1) & CellBit(5, 0) != 0 {
      assert Vertical(x, 5, 0);
    } else if Spread(x, 1) & CellBit(5, 1) != 0 {
      assert Vertical(x, 5, 1);
    } else {
      assert Vertical(x, 5, 2);
    }
  }

  lemma VerticalDetected5(x: bv64, r: bv64)
    requires Vertical(x, 5, r)
    ensures Spread(x, 1) != 0
  {
    assert Spread(x, 1) & CellBit(5, r) != 0;
  }

  lemma VerticalFound6(x: bv64)
    requires Subset(x, BoardMask) && Spread(x, 1) & ColumnMask(6) != 0
    ensures exists r :: Vertical(x, 6, r)
  {
    if Spread(x, 1) & CellBit(6, 0) != 0 {
      assert Vertical(x, 6, 0);
    } else if Spread(x, 1) & CellBit(6, 1) != 0 {
      assert Vertical(x, 6, 1);
    } else {
      assert Vertical(x, 6, 2);
    }
  }

  lemma VerticalDetected6(x: bv64, r: bv64)
    requires Vertical(x, 6, r)
    ensures Spread(x, 1) != 0
  {
    assert Spread(x, 1) & CellBit(6, r) != 0;
  }

  lemma VerticalSound(x: bv64)
    requires Subset(x, BoardMask) && Spread(x, 1) != 0
    ensures exists c, r :: Vertical(x, c, r)
  {
    if Spread(x, 1) & ColumnMask(0) != 0 {
      VerticalFound0(x);
    } else if Spread(x, 1) & ColumnMask(1) != 0 {
      VerticalFound1(x);
    } else if Spread(x, 1) & ColumnMask(2) != 0 {
      VerticalFound2(x);
    } else if Spread(x, 1) & ColumnMask(3) != 0 {
      VerticalFound3(x);
    } else if Spread(x, 1) & ColumnMask(4) != 0 {
      VerticalFound4(x);
    } else if Spread(x, 1) & ColumnMask(5) != 0 {
      VerticalFound5(x);
    } else {
      VerticalFound6(x);
    }
  }

  lemma VerticalComplete(x: bv64, c: bv64, r: bv64)
    requires Vertical(x, c, r)
    ensures Spread(x, 1) != 0
  {
    if c == 0 {
      VerticalDetected0(x, r);
    } else if c == 1 {
      VerticalDetected1(x, r);
    } else if c == 2 {
      VerticalDetected2(x, r);
    } else if c == 3 {
      VerticalDetected3(x, r);
    } else if c == 4 {
      VerticalDetected4(x, r);
    } else if c == 5 {
      VerticalDetected5(x, r);
    } else {
      VerticalDetected6(x, r);
    }
  }

  /** The stride-1 shift-and test finds exactly the lines of four in a column. */
  lemma VerticalExact(x: bv64)
    requires Subset(x, BoardMask)
    ensures Spread(x, 1) != 0 <==> exists c, r :: Vertical(x, c, r)
  {
    if Spread(x, 1) != 0 {
      VerticalSound(x);
    } else {
      forall c, r | Vertical(x, c, r) ensures false {
        VerticalComplete(x, c, r);
      }
    }
  }

  /** Four stones in a rising diagonal, starting at cell (c, r). */
  predicate Rising(x: bv64, c: bv64, r: bv64)
  {
    c < 4 && r < 3 && Stone(x, c, r) && Stone(x, c + 1, r + 1) && Stone(x, c + 2, r + 2) && Stone(x, c + 3, r + 3)
  }

  lemma RisingFound0(x: bv64)
    requires Subset(x, BoardMask) && Spread(x, 8) & ColumnMask(0) != 0
    ensures exists r :: Rising(x, 0, r)
  {
    if Spread(x, 8) & CellBit(0, 0) != 0 {
      assert Rising(x, 0, 0);
    } else if Spread(x, 8) & CellBit(0, 1) != 0 {
      assert Rising(x, 0, 1);
    } else {
      assert Rising(x, 0, 2);
    }
  }

  lemma RisingDetected0(x: bv64, r: bv64)
    requires Rising(x, 0, r)
    ensures Spread(x, 8) != 0
  {
    assert Spread(x, 8) & CellBit(0, r) != 0;
  }

  lemma RisingFound1(x: bv64)
    requires Subset(x, BoardMask) && Spread(x, 8) & ColumnMask(1) != 0
    ensures exists r :: Rising(x, 1, r)
  {
    if Spread(x, 8) & CellBit(1, 0) != 0 {
      assert Rising(x, 1, 0);
    } else if Spread(x, 8) & CellBit(1, 1) != 0 {
      assert Rising(x, 1, 1);
    } else {
      assert Rising(x, 1, 2);
    }
  }

  lemma RisingDetected1(x: bv64, r: bv64)
    requires Rising(x, 1, r)
    ensures Spread(x, 8) != 0
  {
    assert Spread(x, 8) & CellBit(1, r) != 0;
  }

  lemma RisingFound2(x: bv64)
    requires Subset(x, BoardMask) && Spread(x, 8) & ColumnMask(2) != 0
    ensures exists r :: Rising(x, 2, r)
  {
    if Spread(x, 8) & CellBit(2, 0) != 0 {
      assert Rising(x, 2, 0);
    } else if Spread(x, 8) & CellBit(2, 1) != 0 {
      assert Rising(x, 2, 1);
    } else {
      assert Rising(x, 2, 2);
    }
  }

  lemma RisingDetected2(x: bv64, r: bv64)
    requires Rising(x, 2, r)
    ensures Spread(x, 8) != 0
  {
    assert Spread(x, 8) & CellBit(2, r) != 0;
  }

  lemma RisingFound3(x: bv64)
    requires Subset(x, BoardMask) && Spread(x, 8) & ColumnMask(3) != 0
    ensures exists r :: Rising(x, 3, r)
  {
    if Spread(x, 8) & CellBit(3, 0) != 0 {
      assert Rising(x, 3, 0);
    } else if Spread(x, 8) & CellBit(3, 1) != 0 {
      assert Rising(x, 3, 1);
    } else {
      assert Rising(x, 3, 2);
    }
  }

  lemma RisingDetected3(x: bv64, r: bv64)
    requires Rising(x, 3, r)
    ensures Spread(x, 8) != 0
  {
    assert Spread(x, 8) & CellBit(3, r) != 0;
  }

  lemma RisingSound(x: bv64)
    requires Subset(x, BoardMask) && Spread(x, 8) != 0
    ensures exists c, r :: Rising(x, c, r)
  {
    if Spread(x, 8) & ColumnMask(0) != 0 {
      RisingFound0(x);
    } else if Spread(x, 8) & ColumnMask(1) != 0 {
      RisingFound1(x);
    } else if Spread(x, 8) & ColumnMask(2) != 0 {
      RisingFound2(x);
    } else {
      RisingFound3(x);
    }
  }

  lemma RisingComplete(x: bv64, c: bv64, r: bv64)
    requires Rising(x, c, r)
    ensures Spread(x, 8) != 0
  {
    if c == 0 {
      RisingDetected0(x, r);
    } else if c == 1 {
      RisingDetected1(x, r);
    } else if c == 2 {
      RisingDetected2(x, r);
    } else {
      RisingDetected3(x, r);
    }
  }

  /** The stride-8 shift-and test finds exactly the lines of four in a rising diagonal. */
  lemma RisingExact(x: bv64)
    requires Subset(x, BoardMask)
    ensures Spread(x, 8) != 0 <==> exists c, r :: Rising(x, c, r)
  {
    if Spread(x, 8) != 0 {
      RisingSound(x);
    } else {
      forall c, r | Rising(x, c, r) ensures false {
        RisingComplete(x, c, r);
      }
    }
  }

  /** Four stones in a falling diagonal, starting at cell (c, r). */
  predicate Falling(x: bv64, c: bv64, r: bv64)
  {
    c < 4 && 3 <= r < 6 && Stone(x, c, r) && Stone(x, c + 1, r - 1) && Stone(x, c + 2, r - 2) && Stone(x, c + 3, r - 3)
  }

  lemma FallingFound0(x: bv64)
    requires Subset(x, BoardMask) && Spread(x, 6) & ColumnMask(0) != 0
    ensures exists r :: Falling(x, 0, r)
  {
    if Spread(x, 6) & CellBit(0, 3) != 0 {
      assert Falling(x, 0, 3);
    } else if Spread(x, 6) & CellBit(0, 4) != 0 {
      assert Falling(x, 0, 4);
    } else {
      assert Falling(x, 0, 5);
    }
  }

  lemma FallingDetected0(x: bv64, r: bv64)
    requires Falling(x, 0, r)
    ensures Spread(x, 6) != 0
  {
    assert Spread(x, 6) & CellBit(0, r) != 0;
  }

  lemma FallingFound1(x: bv64)
    requires Subset(x, BoardMask) && Spread(x, 6) & ColumnMask(1) != 0
    ensures exists r :: Falling(x, 1, r)
  {
    if Spread(x, 6) & CellBit(1, 3) != 0 {
      assert Falling(x, 1, 3);
    } else if Spread(x, 6) & CellBit(1, 4) != 0 {
      assert Falling(x, 1, 4);
    } else {
      assert Falling(x, 1, 5);
    }
  }

  lemma FallingDetected1(x: bv64, r: bv64)
    requires Falling(x, 1, r)
    ensures Spread(x, 6) != 0
  {
    assert Spread(x, 6) & CellBit(1, r) != 0;
  }

  lemma FallingFound2(x: bv64)
    requires Subset(x, BoardMask) && Spread(x, 6) & ColumnMask(2) != 0
    ensures exists r :: Falling(x, 2, r)
  {
    if Spread(x, 6) & CellBit(2, 3) != 0 {
      assert Falling(x, 2, 3);
    } else if Spread(x, 6) & CellBit(2, 4) != 0 {
      assert Falling(x, 2, 4);
    } else {
      assert Falling(x, 2, 5);
    }
  }

  lemma FallingDetected2(x: bv64, r: bv64)
    requires Falling(x, 2, r)
    ensures Spread(x, 6) != 0
  {
    assert Spread(x, 6) & CellBit(2, r) != 0;
  }

  lemma FallingFound3(x: bv64)
    requires Subset(x, BoardMask) && Spread(x, 6) & ColumnMask(3) != 0
    ensures exists r :: Falling(x, 3, r)
  {
    if Spread(x, 6) & CellBit(3, 3) != 0 {
      assert Falling(x, 3, 3);
    } else if Spread(x, 6) & CellBit(3, 4) != 0 {
      assert Falling(x, 3, 4);
    } else {
      assert Falling(x, 3, 5);
    }
  }

  lemma FallingDetected3(x: bv64, r: bv64)
    requires Falling(x, 3, r)
    ensures Spread(x, 6) != 0
  {
    assert Spread(x, 6) & CellBit(3, r) != 0;
  }

  lemma FallingSound(x: bv64)
    requires Subset(x, BoardMask) && Spread(x, 6) != 0
    ensures exists c, r :: Falling(x, c, r)
  {
    if Spread(x, 6) & ColumnMask(0) != 0 {
      FallingFound0(x);
    } else if Spread(x, 6) & ColumnMask(1) != 0 {
      FallingFound1(x);
    } else if Spread(x, 6) & ColumnMask(2) != 0 {
      FallingFound2(x);
    } else {
      FallingFound3(x);
    }
  }

  lemma FallingComplete(x: bv64, c: bv64, r: bv64)
    requires Falling(x, c, r)
    ensures Spread(x, 6) != 0
  {
    if c == 0 {
      FallingDetected0(x, r);
    } else if c == 1 {
      FallingDetected1(x, r);
    } else if c == 2 {
      FallingDetected2(x, r);
    } else {
      FallingDetected3(x, r);
    }
  }

  /** The stride-6 shift-and test finds exactly the lines of four in a falling diagonal. */
  lemma FallingExact(x: bv64)
    requires Subset(x, BoardMask)
    ensures Spread(x, 6) != 0 <==> exists c, r :: Falling(x, c, r)
  {
    if Spread(x, 6) != 0 {
      FallingSound(x);
    } else {
      forall c, r | Falling(x, c, r) ensures false {
        FallingComplete(x, c, r);
      }
    }
  }

  // ---------------------------------------------------------------------
  // The four cells of each line, by column and row number

  lemma HorizontalCells(x: bv64, c: int, r: int)
    requires 0 <= c < 4 && 0 <= r < 6
    ensures Horizontal(x, Idx(c), Idx(r)) <==>
      Stone(x, Idx(c), Idx(r)) && Stone(x, Idx(c + 1), Idx(r)) && Stone(x, Idx(c + 2), Idx(r)) && Stone(x, Idx(c + 3), Idx(r))
  {
    IdxSucc(c); IdxSucc(c + 1); IdxSucc(c + 2);
  }

  lemma VerticalCells(x: bv64, c: int, r: int)
    requires 0 <= c < 7 && 0 <= r < 3
    ensures Vertical(x, Idx(c), Idx(r)) <==>
      Stone(x, Idx(c), Idx(r)) && Stone(x, Idx(c), Idx(r + 1)) && Stone(x, Idx(c), Idx(r + 2)) && Stone(x, Idx(c), Idx(r + 3))
  {
    IdxSucc(r); IdxSucc(r + 1); IdxSucc(r + 2);
  }

  lemma RisingCells(x: bv64, c: int, r: int)
    requires 0 <= c < 4 && 0 <= r < 3
    ensures Rising(x, Idx(c), Idx(r)) <==>
      Stone(x, Idx(c), Idx(r)) && Stone(x, Idx(c + 1), Idx(r + 1)) && Stone(x, Idx(c + 2), Idx(r + 2)) && Stone(x, Idx(c + 3), Idx(r + 3))
  {
    IdxSucc(c); IdxSucc(c + 1); IdxSucc(c + 2);
    IdxSucc(r); IdxSucc(r + 1); IdxSucc(r + 2);
  }

  lemma FallingCells(x: bv64, c: int, r: int)
    requires 0 <= c < 4 && 3 <= r < 6
    ensures Falling(x, Idx(c), Idx(r)) <==>
      Stone(x, Idx(c), Idx(r)) && Stone(x, Idx(c + 1), Idx(r - 1)) && Stone(x, Idx(c + 2), Idx(r - 2)) && Stone(x, Idx(c + 3), Idx(r - 3))
  {
    IdxSucc(c); IdxSucc(c + 1); IdxSucc(c + 2);
    IdxSucc(r - 1); IdxSucc(r - 2); IdxSucc(r - 3);
  }

  /** Cell (c, r) of x holds a stone exactly when o. */
  predicate StoneIs(x: bv64, c: int, r: int, o: bool)
    requires 0 <= c < 7 && 0 <= r < 7
  {
    Stone(x, Idx(c), Idx(r)) <==> o
  }

  /** A line of four is there exactly when its four cells are. */
  lemma HorizontalDecided(x: bv64, c: int, r: int, o0: bool, o1: bool, o2: bool, o3: bool)
    requires 0 <= c < 4 && 0 <= r < 6
    ensures StoneIs(x, c, r, o0) && StoneIs(x, c + 1, r, o1) && StoneIs(x, c + 2, r, o2) && StoneIs(x, c + 3, r, o3) ==>
      (Horizontal(x, Idx(c), Idx(r)) <==> o0 && o1 && o2 && o3)
  {
    HorizontalCells(x, c, r);
  }

  /** A line of four is there exactly when its four cells are. */
  lemma VerticalDecided(x: bv64, c: int, r: int, o0: bool, o1: bool, o2: bool, o3: bool)
    requires 0 <= c < 7 && 0 <= r < 3
    ensures StoneIs(x, c, r, o0) && StoneIs(x, c, r + 1, o1) && StoneIs(x, c, r + 2, o2) && StoneIs(x, c, r + 3, o3) ==>
      (Vertical(x, Idx(c), Idx(r)) <==> o0 && o1 && o2 && o3)
  {
    VerticalCells(x, c, r);
  }

  /** A line of four is there exactly when its four cells are. */
  lemma RisingDecided(x: bv64, c: int, r: int, o0: bool, o1: bool, o2: bool, o3: bool)
    requires 0 <= c < 4 && 0 <= r < 3
    ensures StoneIs(x, c, r, o0) && StoneIs(x, c + 1, r + 1, o1) && StoneIs(x, c + 2, r + 2, o2) && StoneIs(x, c + 3, r + 3, o3) ==>
      (Rising(x, Idx(c), Idx(r)) <==> o0 && o1 && o2 && o3)
  {
    RisingCells(x, c, r);
  }

  /** A line of four is there exactly when its four cells are. */
  lemma FallingDecided(x: bv64, c: int, r: int, o0: bool, o1: bool, o2: bool, o3: bool)
    requires 0 <= c < 4 && 3 <= r < 6
    ensures StoneIs(x, c, r, o0) && StoneIs(x, c + 1, r - 1, o1) && StoneIs(x, c + 2, r - 2, o2) && StoneIs(x, c + 3, r - 3, o3) ==>
      (Falling(x, Idx(c), Idx(r)) <==> o0 && o1 && o2 && o3)
  {
    FallingCells(x, c, r);
  }
}
