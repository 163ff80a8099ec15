/**
 The virtual keyboard of weston/clients/keyboard.c: the walk that draws the keys row by row
 and the walk that finds the key under a point must agree.
 */
module KeyWalk {
  import opened Options
  import opened Cells

  const KEY_WIDTH: nat := 60
  const KEY_HEIGHT: nat := 50

  type Width = w: nat | w > 0 witness 1

  /** The widths of the keys in order, in columns, and the size of the grid. */
  datatype Layout = Layout(keys: seq<Width>, columns: nat, rows: nat)

  predicate Proper(l: Layout) { l.columns > 0 && l.rows > 0 }

  // ---------------------------------------------------------------- drawing

  datatype Place = Place(row: nat, col: nat)

  /** Where key `i` is drawn. */
  function Drawn(l: Layout, i: nat): Place
    requires i <= |l.keys|
  {
    if i == 0 then Place(0, 0)
    else
      var p := Drawn(l, i - 1);
      var col := p.col + l.keys[i - 1];
      if col >= l.columns then Place(p.row + 1, 0) else Place(p.row, col)
  }

  /** Whether the rectangle of key `i` contains a cell of the grid. */
  predicate Covers(l: Layout, i: nat, col: nat, row: nat)
    requires i < |l.keys|
  {
    Drawn(l, i).row == row && Drawn(l, i).col <= col < Drawn(l, i).col + l.keys[i]
  }

  /** Whether the rectangle of key `i`, in pixels, contains a point. */
  predicate Contains(l: Layout, i: nat, x: nat, y: nat)
    requires i < |l.keys|
  {
    var p := Drawn(l, i);
    && p.col * KEY_WIDTH <= x < p.col * KEY_WIDTH + l.keys[i] * KEY_WIDTH
    && p.row * KEY_HEIGHT <= y < p.row * KEY_HEIGHT + KEY_HEIGHT
  }

  lemma PixelsAreCells(l: Layout, i: nat, x: nat, y: nat)
    requires i < |l.keys|
    ensures Contains(l, i, x, y) <==> Covers(l, i, x / KEY_WIDTH, y / KEY_HEIGHT)
  {
  }

  // ---------------------------------------------------------------- hit test

  /** The columns taken by the keys before key `i`. */
  function Before(l: Layout, i: nat): nat
    requires i <= |l.keys|
  {
    if i == 0 then 0 else Before(l, i - 1) + l.keys[i - 1]
  }

  /** The key found for a cell number: the walk subtracts widths until it gets below zero. */
  function Hit(l: Layout, c: int, i: nat): (r: Option<nat>)
    requires i <= |l.keys|
    ensures r.Some? ==> i <= r.value < |l.keys|
    decreases |l.keys| - i
  {
    if i == |l.keys| then None
    else if c - l.keys[i] < 0 then Some(i)
    else Hit(l, c - l.keys[i], i + 1)
  }

  function HitAt(l: Layout, x: nat, y: nat): (r: Option<nat>)
    ensures r.Some? ==> r.value < |l.keys|
  {
    Hit(l, x / KEY_WIDTH + y / KEY_HEIGHT * l.columns, 0)
  }

  lemma {:induction false} HitExact(l: Layout, c: nat, i: nat)
    requires i <= |l.keys|
    ensures match Hit(l, c, i)
            case None => c + Before(l, i) >= Before(l, |l.keys|)
            case Some(k) => Before(l, k) <= c + Before(l, i) < Before(l, k + 1)
    decreases |l.keys| - i
  {
    if i < |l.keys| && c >= l.keys[i] {
      HitExact(l, c - l.keys[i], i + 1);
    }
  }

  lemma {:induction false} BeforeGrows(l: Layout, i: nat, j: nat)
    requires i <= j <= |l.keys|
    ensures Before(l, i) <= Before(l, j) && (i < j ==> Before(l, i + 1) <= Before(l, j))
  {
    if i < j { BeforeGrows(l, i, j - 1); }
  }

  /** The cell number belongs to one key only. */
  lemma HitIs(l: Layout, c: nat, k: nat)
    requires k < |l.keys| && Before(l, k) <= c < Before(l, k + 1)
    ensures Hit(l, c, 0) == Some(k)
  {
    HitExact(l, c, 0);
    BeforeGrows(l, k + 1, |l.keys|);
    var r := Hit(l, c, 0);
    if r.Some? && r.value < k { BeforeGrows(l, r.value, k); }
    if r.Some? && k < r.value { BeforeGrows(l, k, r.value); }
  }

  // ---------------------------------------------------------------- tiling

  /** Key `i` does not reach beyond the end of its row. */
  predicate Stays(l: Layout, i: nat)
    requires Proper(l) && i < |l.keys|
  {
    Before(l, i) % l.columns + l.keys[i] <= l.columns
  }

  /** The keys fill the grid, and no key of any row but the last reaches beyond it. */
  predicate Tiles(l: Layout)
    requires Proper(l)
  {
    && Before(l, |l.keys|) >= l.rows * l.columns
    && forall i | 0 <= i < |l.keys| && Before(l, i) / l.columns + 1 < l.rows :: Stays(l, i)
  }

  lemma DivMod(c: nat, m: nat)
    requires m > 0
    ensures c == (c / m) * m + c % m && 0 <= c % m < m
  {
  }

  /** Whole rows are ordered as their numbers are. */
  lemma RowOrder(q: nat, q': nat, m: nat)
    requires q <= q'
    ensures q * m <= q' * m
  {
  }

  lemma Below(c: nat, m: nat, n: nat)
    requires m > 0
    ensures c < n * m <==> c / m < n
  {
    DivMod(c, m);
    if c / m < n { RowOrder(c / m + 1, n, m); } else { RowOrder(n, c / m, m); }
  }

  /** The place after a key that stays in its row. */
  lemma NextAt(q: nat, r: nat, w: nat, m: nat, d: nat)
    requires m > 0 && r + w <= m && d == q * m + r + w
    ensures if r + w == m then d / m == q + 1 && d % m == 0 else d / m == q && d % m == r + w
  {
    if r + w == m {
      NextRow(q, m);
      Located(m, 0, q + 1, d);
    } else {
      Located(m, r + w, q, d);
    }
  }

  lemma NextRow(q: nat, m: nat)
    ensures (q + 1) * m == q * m + m
  {
  }

  lemma Located(m: nat, x: nat, y: nat, d: nat)
    requires x < m && d == y * m + x
    ensures d / m == y && d % m == x
  {
    RowAndColumn(m, x, y);
  }

  /** As far as the rows are filled exactly, key `i` is drawn where its columns say. */
  lemma {:induction false} DrawnAt(l: Layout, i: nat)
    requires Proper(l) && i <= |l.keys| && Before(l, i) < l.rows * l.columns
    requires forall k | 0 <= k < i && Before(l, k) / l.columns + 1 < l.rows :: Stays(l, k)
    ensures Drawn(l, i) == Place(Before(l, i) / l.columns, Before(l, i) % l.columns)
  {
    if i > 0 {
      var c, w := Before(l, i - 1), l.keys[i - 1];
      DrawnAt(l, i - 1);
      if c / l.columns + 1 >= l.rows { LastRow(c, w, l.columns, l.rows); } else { assert Stays(l, i - 1); }
      DivMod(c, l.columns);
      NextAt(c / l.columns, c % l.columns, w, l.columns, c + w);
    } else {
      RowAndColumn(l.columns, 0, 0);
    }
  }

  lemma LastRow(c: nat, w: nat, m: nat, n: nat)
    requires m > 0 && c / m + 1 >= n && c + w < n * m
    ensures c % m + w < m
  {
    DivMod(c, m);
    RowOrder(n, c / m + 1, m);
  }

  lemma Positive(n: nat, m: nat)
    requires n > 0 && m > 0
    ensures n * m > 0
  {
  }

  /** Keys past the end of the grid are drawn below it. */
  lemma {:induction false} DrawnBelow(l: Layout, i: nat)
    requires Proper(l) && Tiles(l) && i <= |l.keys| && Before(l, i) >= l.rows * l.columns
    ensures Drawn(l, i).row >= l.rows
  {
    Positive(l.rows, l.columns);
    if Before(l, i - 1) >= l.rows * l.columns {
      DrawnBelow(l, i - 1);
    } else {
      var c, w := Before(l, i - 1), l.keys[i - 1];
      DrawnAt(l, i - 1);
      Below(c, l.columns, l.rows);
      Wraps(c, w, l.columns, l.rows);
      if c / l.columns + 1 < l.rows {
        assert Stays(l, i - 1);
        DivMod(c, l.columns);
        NextAt(c / l.columns, c % l.columns, w, l.columns, c + w);
        Below(c + w, l.columns, l.rows);
      }
    }
  }

  lemma Wraps(c: nat, w: nat, m: nat, n: nat)
    requires m > 0 && c < n * m <= c + w
    ensures c % m + w >= m
  {
    Below(c, m, n);
    DivMod(c, m);
    RowOrder(c / m + 1, n, m);
  }

  // ---------------------------------------------------------------- agreement

  /** The key found at a point of the grid is drawn there, and no other is. */
  ghost predicate AgreesAt(l: Layout, col: nat, row: nat) {
    var r := Hit(l, col + row * l.columns, 0);
    r.Some? && forall k | 0 <= k < |l.keys| :: Covers(l, k, col, row) <==> k == r.value
  }

  ghost predicate Agrees(l: Layout) {
    forall col: nat, row: nat | col < l.columns && row < l.rows :: AgreesAt(l, col, row)
  }

  lemma CellNumber(l: Layout, col: nat, row: nat)
    requires Proper(l) && col < l.columns && row < l.rows
    ensures var c := col + row * l.columns;
            c / l.columns == row && c % l.columns == col && c < l.rows * l.columns
  {
    RowAndColumn(l.columns, col, row);
    Below(row * l.columns + col, l.columns, l.rows);
  }

  /** In a tiled layout a key covers exactly the cells with its numbers. */
  lemma CoversExact(l: Layout, k: nat, col: nat, row: nat)
    requires Proper(l) && Tiles(l) && k < |l.keys| && col < l.columns && row < l.rows
    ensures Covers(l, k, col, row) <==> Before(l, k) <= col + row * l.columns < Before(l, k + 1)
  {
    var c, b := col + row * l.columns, Before(l, k);
    CellNumber(l, col, row);
    if b < l.rows * l.columns {
      DrawnAt(l, k);
      assert b / l.columns + 1 >= l.rows || Stays(l, k);
      var m := l.columns;
      DivMod(b, m);
      DivMod(c, m);
      WithinRow(b / m, b % m, c / m, c % m, l.keys[k], m, l.rows);
    } else {
      DrawnBelow(l, k);
    }
  }

  lemma WithinRow(q: nat, r: nat, q': nat, r': nat, w: nat, m: nat, n: nat)
    requires r < m && r' < m && q' < n && (q + 1 >= n || r + w <= m)
    ensures q * m + r <= q' * m + r' < q * m + r + w <==> q == q' && r <= r' < r + w
  {
    LaterRow(m, q, r, q', r');
    LaterRow(m, q', r', q, r);
    if q < q' { RowOrder(q + 1, q', m); }
  }

  lemma TiledAgrees(l: Layout, col: nat, row: nat)
    requires Proper(l) && Tiles(l) && col < l.columns && row < l.rows
    ensures AgreesAt(l, col, row)
  {
    var c := col + row * l.columns;
    CellNumber(l, col, row);
    HitExact(l, c, 0);
    var r := Hit(l, c, 0).value;
    forall k | 0 <= k < |l.keys| ensures Covers(l, k, col, row) <==> k == r {
      CoversExact(l, k, col, row);
      if Before(l, k) <= c < Before(l, k + 1) { HitIs(l, c, k); }
    }
  }

  lemma SpilledCell(b: nat, w: nat, m: nat)
    requires m > 0 && b % m + w > m
    ensures b < (b / m + 1) * m < b + w
  {
    DivMod(b, m);
  }

  /** A key that reaches beyond its row is found in the next row, where it is not drawn. */
  lemma SpillDisagrees(l: Layout, i: nat)
    requires Proper(l) && i < |l.keys| && Before(l, i) / l.columns + 1 < l.rows && !Stays(l, i)
    requires forall k | 0 <= k < i && Before(l, k) / l.columns + 1 < l.rows :: Stays(l, k)
    ensures !AgreesAt(l, 0, Before(l, i) / l.columns + 1)
  {
    var b, m := Before(l, i), l.columns;
    var row := b / m + 1;
    Below(b, m, l.rows);
    DrawnAt(l, i);
    SpilledCell(b, l.keys[i], m);
    HitIs(l, 0 + row * m, i);
    assert !Covers(l, i, 0, row);
  }

  lemma LastCell(n: nat, m: nat)
    requires n > 0 && m > 0
    ensures (m - 1) + (n - 1) * m == n * m - 1
  {
  }

  /** Without enough keys, nothing is found in the last cell. */
  lemma ShortDisagrees(l: Layout)
    requires Proper(l) && Before(l, |l.keys|) < l.rows * l.columns
    ensures !AgreesAt(l, l.columns - 1, l.rows - 1)
  {
    LastCell(l.rows, l.columns);
    HitExact(l, (l.columns - 1) + (l.rows - 1) * l.columns, 0);
    var r := Hit(l, (l.columns - 1) + (l.rows - 1) * l.columns, 0);
    if r.Some? { BeforeGrows(l, r.value + 1, |l.keys|); }
  }

  lemma {:induction false} FirstSpill(l: Layout, n: nat) returns (i: nat)
    requires Proper(l) && n <= |l.keys|
    requires exists k | 0 <= k < n :: Before(l, k) / l.columns + 1 < l.rows && !Stays(l, k)
    ensures i < n && Before(l, i) / l.columns + 1 < l.rows && !Stays(l, i)
    ensures forall k | 0 <= k < i && Before(l, k) / l.columns + 1 < l.rows :: Stays(l, k)
  {
    if exists k | 0 <= k < n - 1 :: Before(l, k) / l.columns + 1 < l.rows && !Stays(l, k) {
      i := FirstSpill(l, n - 1);
    } else {
      i := n - 1;
    }
  }

  /** The hit test agrees with the drawing on the whole grid if and only if the keys fill the
      grid and no key above the last row reaches beyond its row. */
  lemma AgreesIf(l: Layout)
    requires Proper(l)
    ensures Agrees(l) <==> Tiles(l)
  {
    if Tiles(l) {
      forall col: nat, row: nat | col < l.columns && row < l.rows ensures AgreesAt(l, col, row) {
        TiledAgrees(l, col, row);
      }
    } else if Before(l, |l.keys|) < l.rows * l.columns {
      ShortDisagrees(l);
    } else {
      var i := FirstSpill(l, |l.keys|);
      SpillDisagrees(l, i);
    }
  }

  /** For every point inside the grid, in pixels: the key found is the one drawn there. */
  lemma HitsWhatIsDrawn(l: Layout, x: nat, y: nat, k: nat)
    requires Proper(l) && Tiles(l) && x < l.columns * KEY_WIDTH && y < l.rows * KEY_HEIGHT && k < |l.keys|
    ensures HitAt(l, x, y).Some? && (HitAt(l, x, y) == Some(k) <==> Contains(l, k, x, y))
  {
    Below(x, KEY_WIDTH, l.columns);
    Below(y, KEY_HEIGHT, l.rows);
    TiledAgrees(l, x / KEY_WIDTH, y / KEY_HEIGHT);
    PixelsAreCells(l, k, x, y);
  }

  // ---------------------------------------------------------------- the walks as they run

  /** The loop of redraw_handler: the place at which each key is drawn. */
  method DrawKeys(l: Layout) returns (places: seq<Place>)
    ensures |places| == |l.keys| && forall i {:trigger places[i]} | 0 <= i < |places| :: places[i] == Drawn(l, i)
  {
    var row: nat, col: nat := 0, 0;
    places := [];
    for i := 0 to |l.keys|
      invariant |places| == i && forall k {:trigger places[k]} | 0 <= k < i :: places[k] == Drawn(l, k)
      invariant Place(row, col) == Drawn(l, i)
    {
      places := places + [Place(row, col)];
      col := col + l.keys[i];
      if col >= l.columns {
        row := row + 1;
        col := 0;
      }
    }
  }

  /** The loop of button_handler and touch_handler. */
  method FindKey(l: Layout, x: nat, y: nat) returns (r: Option<nat>)
    ensures r == HitAt(l, x, y)
  {
    var row := y / KEY_HEIGHT;
    var col: int := x / KEY_WIDTH + row * l.columns;
    for i := 0 to |l.keys|
      invariant Hit(l, col, i) == HitAt(l, x, y)
    {
      col := col - l.keys[i];
      if col < 0 {
        return Some(i);
      }
    }
    return None;
  }

  // ---------------------------------------------------------------- rows

  function Flat(rows: seq<seq<Width>>): seq<Width> {
    if rows == [] then [] else rows[0] + Flat(rows[1..])
  }

  predicate Full(row: seq<Width>, columns: nat) { Before(Layout(row, columns, 1), |row|) == columns }

  lemma {:induction false} BeforeInFirst(row: seq<Width>, rest: seq<Width>, m: nat, n: nat, i: nat)
    requires i <= |row|
    ensures Before(Layout(row + rest, m, n), i) == Before(Layout(row, m, 1), i)
  {
    if i > 0 { BeforeInFirst(row, rest, m, n, i - 1); }
  }

  lemma {:induction false} BeforeInRest(row: seq<Width>, rest: seq<Width>, m: nat, n: nat, j: nat)
    requires j <= |rest| && n > 0
    ensures Before(Layout(row + rest, m, n), |row| + j)
         == Before(Layout(row, m, 1), |row|) + Before(Layout(rest, m, n - 1), j)
  {
    if j > 0 {
      BeforeInRest(row, rest, m, n, j - 1);
    } else {
      BeforeInFirst(row, rest, m, n, |row|);
    }
  }

  lemma StaysInFirst(row: seq<Width>, rest: seq<Width>, m: nat, n: nat, i: nat)
    requires m > 0 && n > 0 && Full(row, m) && i < |row|
    ensures Stays(Layout(row + rest, m, n), i)
  {
    var l := Layout(row + rest, m, n);
    BeforeInFirst(row, rest, m, n, i + 1);
    BeforeInFirst(row, rest, m, n, i);
    BeforeGrows(Layout(row, m, 1), i + 1, |row|);
    assert Before(l, i + 1) == Before(l, i) + l.keys[i] <= m;
    RowAndColumn(m, Before(l, i), 0);
  }

  lemma RowOn(b: nat, m: nat)
    requires m > 0
    ensures (m + b) % m == b % m
  {
    DivMod(b, m);
    NextRow(b / m, m);
    Located(m, b % m, b / m + 1, m + b);
  }

  lemma StaysInRest(row: seq<Width>, rest: seq<Width>, m: nat, n: nat, j: nat)
    requires m > 0 && n > 1 && Full(row, m) && j < |rest| && Stays(Layout(rest, m, n - 1), j)
    ensures Stays(Layout(row + rest, m, n), |row| + j)
  {
    BeforeInRest(row, rest, m, n, j);
    var b := Before(Layout(rest, m, n - 1), j);
    RowOn(b, m);
  }

  /** A layout made of full rows tiles, and exactly. */
  lemma {:induction false} FullRowsTile(rows: seq<seq<Width>>, m: nat)
    requires m > 0 && rows != [] && forall i | 0 <= i < |rows| :: Full(rows[i], m)
    ensures var l := Layout(Flat(rows), m, |rows|);
            && Before(l, |l.keys|) == |rows| * m
            && forall i | 0 <= i < |l.keys| :: Stays(l, i)
  {
    var row, rest, n := rows[0], Flat(rows[1..]), |rows|;
    var l := Layout(row + rest, m, n);
    if n > 1 {
      FullRowsTile(rows[1..], m);
      BeforeInRest(row, rest, m, n, |rest|);
      assert (n - 1) * m + m == n * m;
    } else {
      assert rest == [] && row + rest == row;
      BeforeInFirst(row, rest, m, n, |row|);
    }
    forall i | 0 <= i < |l.keys| ensures Stays(l, i) {
      if i < |row| { StaysInFirst(row, rest, m, n, i); } else { StaysInRest(row, rest, m, n, i - |row|); }
    }
  }

  lemma FullRowsAgree(rows: seq<seq<Width>>, m: nat, l: Layout)
    requires m > 0 && rows != [] && l == Layout(Flat(rows), m, |rows|)
    requires forall i | 0 <= i < |rows| :: Full(rows[i], m)
    ensures Agrees(l)
  {
    FullRowsTile(rows, m);
    AgreesIf(l);
  }

  // ---------------------------------------------------------------- the shipped layouts

  const TEN_AND_TWO: seq<Width> := [1, 1, 1, 1, 1, 1, 1, 1, 1, 1, 2]

  const NORMAL: seq<seq<Width>> :=
    [TEN_AND_TWO, TEN_AND_TWO, [2, 1, 1, 1, 1, 1, 1, 1, 1, 1, 1], [1, 5, 1, 1, 1, 1, 2]]
  const NUMERIC: seq<seq<Width>> := [TEN_AND_TWO, [4, 2, 1, 1, 1, 1, 2]]
  /** The first row of the Arabic layout ends with the tab key that the table lists second. */
  const ARABIC: seq<seq<Width>> :=
    [TEN_AND_TWO + [1], [1, 1, 1, 1, 1, 1, 1, 1, 1, 1, 1, 2], [2, 1, 1, 1, 1, 1, 1, 1, 1, 1, 2], [1, 1, 1, 6, 1, 1, 2]]

  function NormalLayout(): Layout { Layout(Flat(NORMAL), 12, 4) }
  function NumericLayout(): Layout { Layout(Flat(NUMERIC), 12, 2) }
  function ArabicLayout(): Layout { Layout(Flat(ARABIC), 13, 4) }

  /** A run of `n` keys of one column, from key `i` on. */
  lemma {:induction false} Ones(row: seq<Width>, m: nat, i: nat, n: nat)
    requires i + n <= |row| && forall k | i <= k < i + n :: row[k] == 1
    ensures Before(Layout(row, m, 1), i + n) == Before(Layout(row, m, 1), i) + n
  {
    if n > 0 { Ones(row, m, i, n - 1); }
  }

  /** A row of one key, `n` keys of one column, and one key. */
  lemma RowOf(row: seq<Width>, m: nat, n: nat)
    requires |row| == n + 2 && row[0] + n + row[n + 1] == m && forall k | 1 <= k < 1 + n :: row[k] == 1
    ensures Full(row, m)
  {
    var l := Layout(row, m, 1);
    Ones(row, m, 1, n);
    assert Before(l, 1) == Before(l, 0) + row[0];
    assert Before(l, n + 2) == Before(l, n + 1) + row[n + 1];
  }

  /** A row of two keys, `n` keys of one column, and one key. */
  lemma RowOf2(row: seq<Width>, m: nat, n: nat)
    requires |row| == n + 3 && row[0] + row[1] + n + row[n + 2] == m && forall k | 2 <= k < 2 + n :: row[k] == 1
    ensures Full(row, m)
  {
    var l := Layout(row, m, 1);
    Ones(row, m, 2, n);
    assert Before(l, 2) == Before(l, 1) + row[1] && Before(l, 1) == Before(l, 0) + row[0];
    assert Before(l, n + 3) == Before(l, n + 2) + row[n + 2];
  }

  lemma ArabicEndsFull()
    ensures Full(ARABIC[0], 13) && Full(ARABIC[3], 13)
  {
    var first, last := Layout(ARABIC[0], 13, 1), Layout(ARABIC[3], 13, 1);
    Ones(ARABIC[0], 13, 0, 10);
    assert Before(first, 12) == Before(first, 11) + 1 && Before(first, 11) == Before(first, 10) + 2;
    Ones(ARABIC[3], 13, 0, 3);
    assert Before(last, 4) == Before(last, 3) + 6;
    Ones(ARABIC[3], 13, 4, 2);
    assert Before(last, 7) == Before(last, 6) + 2;
  }

  lemma ShippedRowsFull()
    ensures Full(NORMAL[0], 12) && Full(NORMAL[1], 12) && Full(NORMAL[2], 12) && Full(NORMAL[3], 12)
    ensures Full(NUMERIC[0], 12) && Full(NUMERIC[1], 12)
    ensures Full(ARABIC[1], 13) && Full(ARABIC[2], 13)
  {
    RowOf(TEN_AND_TWO, 12, 9);
    RowOf(NORMAL[2], 12, 9);
    RowOf2(NORMAL[3], 12, 4);
    RowOf2(NUMERIC[1], 12, 4);
    RowOf(ARABIC[1], 13, 10);
    RowOf(ARABIC[2], 13, 9);
  }

  /** The three shipped layouts tile their grids exactly: with AgreesIf, the hit test agrees
      with the drawing everywhere on them. */
  lemma ShippedLayoutsTile()
    ensures Agrees(NormalLayout()) && Agrees(NumericLayout()) && Agrees(ArabicLayout())
  {
    ShippedRowsFull();
    ArabicEndsFull();
    FullRowsAgree(NORMAL, 12, NormalLayout());
    FullRowsAgree(NUMERIC, 12, NumericLayout());
    FullRowsAgree(ARABIC, 13, ArabicLayout());
  }
}
