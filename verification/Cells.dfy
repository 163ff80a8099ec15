/**
 Row-major grids: the index of a cell, and its row and column.
 */
module Cells {

  lemma CellIn(w: nat, h: nat, x: nat, y: nat)
    requires x < w && y < h
    ensures 0 <= y * w + x < w * h
  {
    assert (y + 1) * w <= h * w;
  }

  /** The index of a cell. */
  function Cell(w: nat, h: nat, x: nat, y: nat): (k: nat)
    requires x < w && y < h
    ensures k < w * h
  {
    CellIn(w, h, x, y);
    y * w + x
  }

  lemma CellUnique(w: nat, h: nat, x: nat, y: nat, x': nat, y': nat)
    requires x < w && y < h && x' < w && y' < h && (x != x' || y != y')
    ensures Cell(w, h, x, y) != Cell(w, h, x', y')
  {
    if y < y' {
      assert (y + 1) * w <= y' * w;
    } else if y' < y {
      assert (y' + 1) * w <= y * w;
    }
  }

  /** Cells of later rows come later. */
  lemma LaterRow(w: nat, q: nat, r: nat, q': nat, r': nat)
    requires r < w && r' < w
    ensures q < q' ==> q * w + r < q' * w + r'
  {
    if q < q' { assert (q + 1) * w <= q' * w; }
  }

  /** Row and column of a cell are quotient and remainder of its index. */
  lemma RowAndColumn(w: nat, x: nat, y: nat)
    requires x < w
    ensures (y * w + x) / w == y && (y * w + x) % w == x
  {
    var k := y * w + x;
    assert k == (k / w) * w + k % w;
    LaterRow(w, k / w, k % w, y, x);
    LaterRow(w, y, x, k / w, k % w);
  }
}
