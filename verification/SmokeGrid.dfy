/**
 The smoke solver (weston/clients/smoke.c) as functions on grids.  Grids are row-major
 sequences of reals; C floats are modelled as reals, so rounding is not part of the model.

 Every loop nest of the source visits the interior cells row by row and assigns each a value
 computed from the grid as it is by then; `Rule` names the assignments and `Rows` the visit.
 */
module SmokeGrid {
  import opened Cells

  type Grid = seq<real>

  // ---------------------------------------------------------------- cells

  predicate Inside(w: nat, h: nat, x: nat, y: nat) { 1 <= x && x + 1 < w && 1 <= y && y + 1 < h }

  /** The four neighbours of an interior cell, as the source's pointer offsets reach them. */
  lemma Neighbours(w: nat, h: nat, x: nat, y: nat)
    requires Inside(w, h, x, y)
    ensures Cell(w, h, x - 1, y) == Cell(w, h, x, y) - 1 && Cell(w, h, x + 1, y) == Cell(w, h, x, y) + 1
    ensures Cell(w, h, x, y - 1) == Cell(w, h, x, y) - w && Cell(w, h, x, y + 1) == Cell(w, h, x, y) + w
  {
  }

  ghost predicate BorderZero(s: Grid, w: nat, h: nat) {
    |s| == w * h && forall x: nat, y: nat | x < w && y < h && !Inside(w, h, x, y) :: s[Cell(w, h, x, y)] == 0.0
  }

  ghost predicate Within(s: Grid, n: real) { forall k | 0 <= k < |s| :: 0.0 <= s[k] <= n }

  // ---------------------------------------------------------------- the assignments

  const RATE: real := 0.0002

  datatype Rule =
    | Diffusing(s: Grid)
    | Advecting(u: Grid, v: Grid, s: Grid)
    | Divergence(u: Grid, v: Grid)
    | Clearing
    | Pressing(div: Grid)
    | DescendX(p: Grid)
    | DescendY(p: Grid)

  predicate Fits(r: Rule, size: nat) {
    match r
    case Diffusing(s) => |s| == size
    case Advecting(u, v, s) => |u| == size && |v| == size && |s| == size
    case Divergence(u, v) => |u| == size && |v| == size
    case Clearing => true
    case Pressing(div) => |div| == size
    case DescendX(p) => |p| == size
    case DescendY(p) => |p| == size
  }

  /** Where the value at a cell comes from, kept half a cell inside the grid. */
  function Clamp(p: real, size: nat): (r: real)
    requires size >= 2
    ensures 0.5 <= r <= size as real - 1.5
  {
    var q := if p < 0.5 then 0.5 else p;
    if q > size as real - 1.5 then size as real - 1.5 else q
  }

  lemma ClampFloor(p: real, size: nat)
    requires size >= 2
    ensures var i := Clamp(p, size).Floor; 0 <= i && i + 1 < size
    ensures 0.0 <= Clamp(p, size) - Clamp(p, size).Floor as real < 1.0
  {
  }

  function Mix(a: real, b: real, f: real): real { a * (1.0 - f) + b * f }

  /** Interpolation between the four corners of a cell. */
  function Blend(a: real, b: real, c: real, d: real, fx: real, fy: real): real { Mix(Mix(a, b, fx), Mix(c, d, fx), fy) }

  /** The divergence and the pressure gradient, for cells of size `size`. */
  function Spread(size: real, east: real, west: real, south: real, north: real): real {
    -0.5 * size * (east - west + south - north)
  }
  function Slope(size: real, here: real, ahead: real, behind: real): real
    requires size != 0.0
  {
    here - 0.5 * (ahead - behind) / size
  }

  function Sample(s: Grid, w: nat, h: nat, px: real, py: real): real
    requires |s| == w * h && w >= 2 && h >= 2
  {
    var cx, cy := Clamp(px, w), Clamp(py, h);
    ClampFloor(px, w);
    ClampFloor(py, h);
    var i: nat, j: nat := cx.Floor, cy.Floor;
    var fx, fy := cx - i as real, cy - j as real;
    Blend(s[Cell(w, h, i, j)], s[Cell(w, h, i + 1, j)], s[Cell(w, h, i, j + 1)], s[Cell(w, h, i + 1, j + 1)], fx, fy)
  }

  /** The value an interior cell gets, from the grid `d` as it is then. */
  function New(r: Rule, d: Grid, w: nat, h: nat, x: nat, y: nat): real
    requires Fits(r, w * h) && |d| == w * h && Inside(w, h, x, y)
  {
    var k := Cell(w, h, x, y);
    match r
    case Diffusing(s) =>
      (s[k] + RATE * (d[Cell(w, h, x - 1, y)] + d[Cell(w, h, x + 1, y)]
                      + d[Cell(w, h, x, y - 1)] + d[Cell(w, h, x, y + 1)]))
      / (1.0 + 4.0 * RATE) * 0.995
    case Advecting(u, v, s) => Sample(s, w, h, x as real - u[k], y as real - v[k])
    case Divergence(u, v) =>
      Spread(1.0 / w as real, u[Cell(w, h, x + 1, y)], u[Cell(w, h, x - 1, y)],
             v[Cell(w, h, x, y + 1)], v[Cell(w, h, x, y - 1)])
    case Clearing => 0.0
    case Pressing(div) =>
      (div[k] + d[Cell(w, h, x - 1, y)] + d[Cell(w, h, x + 1, y)]
       + d[Cell(w, h, x, y - 1)] + d[Cell(w, h, x, y + 1)]) / 4.0
    case DescendX(p) => Slope(1.0 / w as real, d[k], p[Cell(w, h, x + 1, y)], p[Cell(w, h, x - 1, y)])
    case DescendY(p) => Slope(1.0 / w as real, d[k], p[Cell(w, h, x, y + 1)], p[Cell(w, h, x, y - 1)])
  }

  // ---------------------------------------------------------------- the visits

  /** The grid after columns 1 to x - 1 of row y. */
  function Row(r: Rule, d: Grid, w: nat, h: nat, y: nat, x: nat): (e: Grid)
    requires Fits(r, w * h) && |d| == w * h && 1 <= y && y + 1 < h && x < w
    ensures |e| == w * h
  {
    if x <= 1 then d
    else
      var e := Row(r, d, w, h, y, x - 1);
      e[Cell(w, h, x - 1, y) := New(r, e, w, h, x - 1, y)]
  }

  /** The grid after rows 1 to y - 1. */
  function Rows(r: Rule, d: Grid, w: nat, h: nat, y: nat): (e: Grid)
    requires Fits(r, w * h) && |d| == w * h && y < h && w > 0
    ensures |e| == w * h
  {
    if y <= 1 then d else Row(r, Rows(r, d, w, h, y - 1), w, h, y - 1, w - 1)
  }

  function Sweep(r: Rule, d: Grid, w: nat, h: nat): (e: Grid)
    requires Fits(r, w * h) && |d| == w * h && w > 0 && h > 0
    ensures |e| == w * h
  {
    Rows(r, d, w, h, h - 1)
  }

  function Sweeps(r: Rule, d: Grid, w: nat, h: nat, n: nat): (e: Grid)
    requires Fits(r, w * h) && |d| == w * h && w > 0 && h > 0
    ensures |e| == w * h
  {
    if n == 0 then d else Sweep(r, Sweeps(r, d, w, h, n - 1), w, h)
  }

  // ---------------------------------------------------------------- order of the visits

  /** The rules whose value at a cell depends on no other cell of the grid being changed. */
  predicate Pointwise(r: Rule) { !r.Diffusing? && !r.Pressing? }

  lemma {:induction false} RowAt(r: Rule, d: Grid, w: nat, h: nat, y: nat, x: nat, x': nat, y': nat)
    requires Fits(r, w * h) && |d| == w * h && 1 <= y && y + 1 < h && x < w && Pointwise(r) && x' < w && y' < h
    ensures Row(r, d, w, h, y, x)[Cell(w, h, x', y')]
         == if y' == y && 1 <= x' < x then New(r, d, w, h, x', y') else d[Cell(w, h, x', y')]
  {
    if x > 1 {
      RowAt(r, d, w, h, y, x - 1, x', y');
      RowAt(r, d, w, h, y, x - 1, x - 1, y);
      if x' != x - 1 || y' != y { CellUnique(w, h, x', y', x - 1, y); }
    }
  }

  lemma NewSame(r: Rule, d: Grid, e: Grid, w: nat, h: nat, x: nat, y: nat)
    requires Fits(r, w * h) && |d| == w * h && |e| == w * h && Inside(w, h, x, y) && Pointwise(r)
    requires d[Cell(w, h, x, y)] == e[Cell(w, h, x, y)]
    ensures New(r, d, w, h, x, y) == New(r, e, w, h, x, y)
  {
  }

  /** What a cell holds once the rows before `y` have been visited. */
  function Visited(r: Rule, d: Grid, w: nat, h: nat, y: nat, x': nat, y': nat): real
    requires Fits(r, w * h) && |d| == w * h && x' < w && y' < h
  {
    if Inside(w, h, x', y') && y' < y then New(r, d, w, h, x', y') else d[Cell(w, h, x', y')]
  }

  lemma RowVisited(r: Rule, d: Grid, e: Grid, w: nat, h: nat, y: nat, x': nat, y': nat)
    requires Fits(r, w * h) && |d| == w * h && |e| == w * h && 1 <= y && y + 1 < h && Pointwise(r) && x' < w && y' < h
    requires e[Cell(w, h, x', y')] == Visited(r, d, w, h, y, x', y')
    ensures Row(r, e, w, h, y, w - 1)[Cell(w, h, x', y')] == Visited(r, d, w, h, y + 1, x', y')
  {
    RowAt(r, e, w, h, y, w - 1, x', y');
    if y' == y && Inside(w, h, x', y') { NewSame(r, d, e, w, h, x', y'); }
  }

  lemma {:induction false} RowsAt(r: Rule, d: Grid, w: nat, h: nat, y: nat, x': nat, y': nat)
    requires Fits(r, w * h) && |d| == w * h && y < h && Pointwise(r) && x' < w && y' < h
    ensures Rows(r, d, w, h, y)[Cell(w, h, x', y')] == Visited(r, d, w, h, y, x', y')
  {
    if y > 1 {
      RowsAt(r, d, w, h, y - 1, x', y');
      RowVisited(r, d, Rows(r, d, w, h, y - 1), w, h, y - 1, x', y');
    }
  }

  /** Advection and the other pointwise sweeps do not depend on the order of the visits: each
      interior cell gets its value from the grids as they were, the border keeps its own. */
  lemma SweepAt(r: Rule, d: Grid, w: nat, h: nat, x: nat, y: nat)
    requires Fits(r, w * h) && |d| == w * h && Pointwise(r) && x < w && y < h
    ensures Sweep(r, d, w, h)[Cell(w, h, x, y)]
         == if Inside(w, h, x, y) then New(r, d, w, h, x, y) else d[Cell(w, h, x, y)]
  {
    RowsAt(r, d, w, h, h - 1, x, y);
  }

  // ---------------------------------------------------------------- in-place sweeps

  /** A row changes no cell of another row, and none at or after column x. */
  lemma {:induction false} RowElsewhere(r: Rule, d: Grid, w: nat, h: nat, y: nat, x: nat, x': nat, y': nat)
    requires Fits(r, w * h) && |d| == w * h && 1 <= y && y + 1 < h && x < w && x' < w && y' < h
    requires y' != y || x' >= x
    ensures Row(r, d, w, h, y, x)[Cell(w, h, x', y')] == d[Cell(w, h, x', y')]
  {
    if x > 1 {
      RowElsewhere(r, d, w, h, y, x - 1, x', y');
      CellUnique(w, h, x', y', x - 1, y);
    }
  }

  /** A cell of the row keeps its value once it has been visited. */
  lemma {:induction false} RowKept(r: Rule, d: Grid, w: nat, h: nat, y: nat, x1: nat, x2: nat, x': nat)
    requires Fits(r, w * h) && |d| == w * h && 1 <= y && y + 1 < h && x' < x1 <= x2 < w
    ensures Row(r, d, w, h, y, x2)[Cell(w, h, x', y)] == Row(r, d, w, h, y, x1)[Cell(w, h, x', y)]
    decreases x2
  {
    if x1 < x2 {
      RowKept(r, d, w, h, y, x1, x2 - 1, x');
      if x2 > 1 { CellUnique(w, h, x', y, x2 - 1, y); }
    }
  }

  /** Rows from y on are as they were, and rows before y1 keep their values. */
  lemma {:induction false} RowsAhead(r: Rule, d: Grid, w: nat, h: nat, y: nat, x': nat, y': nat)
    requires Fits(r, w * h) && |d| == w * h && y < h && x' < w && y <= y' < h
    ensures Rows(r, d, w, h, y)[Cell(w, h, x', y')] == d[Cell(w, h, x', y')]
  {
    if y > 1 {
      RowsAhead(r, d, w, h, y - 1, x', y');
      RowElsewhere(r, Rows(r, d, w, h, y - 1), w, h, y - 1, w - 1, x', y');
    }
  }

  lemma {:induction false} RowsKept(r: Rule, d: Grid, w: nat, h: nat, y1: nat, y2: nat, x': nat, y': nat)
    requires Fits(r, w * h) && |d| == w * h && y' < y1 <= y2 < h && x' < w
    ensures Rows(r, d, w, h, y2)[Cell(w, h, x', y')] == Rows(r, d, w, h, y1)[Cell(w, h, x', y')]
    decreases y2
  {
    if y1 < y2 {
      RowsKept(r, d, w, h, y1, y2 - 1, x', y');
      if y2 > 1 { RowElsewhere(r, Rows(r, d, w, h, y2 - 1), w, h, y2 - 1, w - 1, x', y'); }
    }
  }

  /** The grid as the sweep finds it when it visits a cell. */
  function Seen(r: Rule, d: Grid, w: nat, h: nat, x: nat, y: nat): (s: Grid)
    requires Fits(r, w * h) && |d| == w * h && Inside(w, h, x, y)
    ensures |s| == w * h
  {
    Row(r, Rows(r, d, w, h, y), w, h, y, x)
  }

  /** The sweep leaves a row as it is after its last column. */
  lemma FinalRow(r: Rule, d: Grid, w: nat, h: nat, y: nat, x': nat, above: Grid)
    requires Fits(r, w * h) && |d| == w * h && 1 <= y && y + 1 < h && x' < w && above == Rows(r, d, w, h, y)
    ensures Sweep(r, d, w, h)[Cell(w, h, x', y)] == Row(r, above, w, h, y, w - 1)[Cell(w, h, x', y)]
  {
    assert Rows(r, d, w, h, y + 1) == Row(r, above, w, h, y, w - 1);
    RowsKept(r, d, w, h, y + 1, h - 1, x', y);
  }

  lemma VisitedCell(r: Rule, above: Grid, w: nat, h: nat, x: nat, y: nat)
    requires Fits(r, w * h) && |above| == w * h && Inside(w, h, x, y)
    ensures var seen := Row(r, above, w, h, y, x);
            Row(r, above, w, h, y, w - 1)[Cell(w, h, x, y)] == New(r, seen, w, h, x, y)
  {
    RowKept(r, above, w, h, y, x + 1, w - 1, x);
  }

  lemma SweptValue(r: Rule, d: Grid, w: nat, h: nat, x: nat, y: nat)
    requires Fits(r, w * h) && |d| == w * h && Inside(w, h, x, y)
    ensures Sweep(r, d, w, h)[Cell(w, h, x, y)] == New(r, Seen(r, d, w, h, x, y), w, h, x, y)
  {
    var above := Rows(r, d, w, h, y);
    FinalRow(r, d, w, h, y, x, above);
    VisitedCell(r, above, w, h, x, y);
  }

  lemma SeenWest(r: Rule, d: Grid, w: nat, h: nat, x: nat, y: nat)
    requires Fits(r, w * h) && |d| == w * h && Inside(w, h, x, y)
    ensures Seen(r, d, w, h, x, y)[Cell(w, h, x - 1, y)] == Sweep(r, d, w, h)[Cell(w, h, x - 1, y)]
  {
    var above := Rows(r, d, w, h, y);
    FinalRow(r, d, w, h, y, x - 1, above);
    RowKept(r, above, w, h, y, x, w - 1, x - 1);
  }

  lemma SeenNorth(r: Rule, d: Grid, w: nat, h: nat, x: nat, y: nat)
    requires Fits(r, w * h) && |d| == w * h && Inside(w, h, x, y)
    ensures Seen(r, d, w, h, x, y)[Cell(w, h, x, y - 1)] == Sweep(r, d, w, h)[Cell(w, h, x, y - 1)]
  {
    RowsKept(r, d, w, h, y, h - 1, x, y - 1);
    RowElsewhere(r, Rows(r, d, w, h, y), w, h, y, x, x, y - 1);
  }

  lemma SeenAhead(r: Rule, d: Grid, w: nat, h: nat, x: nat, y: nat, x': nat, y': nat)
    requires Fits(r, w * h) && |d| == w * h && Inside(w, h, x, y)
    requires x' < w && y' < h && (y' > y || (y' == y && x' >= x))
    ensures Seen(r, d, w, h, x, y)[Cell(w, h, x', y')] == d[Cell(w, h, x', y')]
  {
    RowElsewhere(r, Rows(r, d, w, h, y), w, h, y, x, x', y');
    RowsAhead(r, d, w, h, y, x', y');
  }

  /** What a sweep in place computes: each interior cell gets its value from a grid in which
      the neighbours to the west and north have their new values already, and those to the
      east and south, and the cell itself, their old ones. */
  lemma InPlaceSweep(r: Rule, d: Grid, w: nat, h: nat, x: nat, y: nat, e: Grid, seen: Grid)
    requires Fits(r, w * h) && |d| == w * h && Inside(w, h, x, y)
    requires e == Sweep(r, d, w, h) && seen == Seen(r, d, w, h, x, y)
    ensures e[Cell(w, h, x, y)] == New(r, seen, w, h, x, y)
    ensures seen[Cell(w, h, x - 1, y)] == e[Cell(w, h, x - 1, y)]
    ensures seen[Cell(w, h, x, y - 1)] == e[Cell(w, h, x, y - 1)]
    ensures seen[Cell(w, h, x + 1, y)] == d[Cell(w, h, x + 1, y)]
    ensures seen[Cell(w, h, x, y + 1)] == d[Cell(w, h, x, y + 1)]
    ensures seen[Cell(w, h, x, y)] == d[Cell(w, h, x, y)]
  {
    SweptValue(r, d, w, h, x, y);
    SeenWest(r, d, w, h, x, y);
    SeenNorth(r, d, w, h, x, y);
    SeenAhead(r, d, w, h, x, y, x + 1, y);
    SeenAhead(r, d, w, h, x, y, x, y + 1);
    SeenAhead(r, d, w, h, x, y, x, y);
  }

  // ---------------------------------------------------------------- borders

  lemma BorderAt(s: Grid, w: nat, h: nat, x: nat, y: nat, v: real)
    requires BorderZero(s, w, h) && Inside(w, h, x, y)
    ensures BorderZero(s[Cell(w, h, x, y) := v], w, h)
  {
    var t := s[Cell(w, h, x, y) := v];
    forall x': nat, y': nat | x' < w && y' < h && !Inside(w, h, x', y') ensures t[Cell(w, h, x', y')] == 0.0 {
      CellUnique(w, h, x, y, x', y');
    }
  }

  lemma {:induction false} RowBorder(r: Rule, d: Grid, w: nat, h: nat, y: nat, x: nat)
    requires Fits(r, w * h) && BorderZero(d, w, h) && 1 <= y && y + 1 < h && x < w
    ensures BorderZero(Row(r, d, w, h, y, x), w, h)
  {
    if x > 1 {
      RowBorder(r, d, w, h, y, x - 1);
      var e := Row(r, d, w, h, y, x - 1);
      BorderAt(e, w, h, x - 1, y, New(r, e, w, h, x - 1, y));
    }
  }

  lemma {:induction false} RowsBorder(r: Rule, d: Grid, w: nat, h: nat, y: nat)
    requires Fits(r, w * h) && BorderZero(d, w, h) && y < h && w > 0
    ensures BorderZero(Rows(r, d, w, h, y), w, h)
  {
    if y > 1 {
      RowsBorder(r, d, w, h, y - 1);
      RowBorder(r, Rows(r, d, w, h, y - 1), w, h, y - 1, w - 1);
    }
  }

  /** No sweep touches the border. */
  lemma {:induction false} SweepsBorder(r: Rule, d: Grid, w: nat, h: nat, n: nat)
    requires Fits(r, w * h) && BorderZero(d, w, h) && w > 0 && h > 0
    ensures BorderZero(Sweeps(r, d, w, h, n), w, h)
  {
    if n > 0 {
      SweepsBorder(r, d, w, h, n - 1);
      RowsBorder(r, Sweeps(r, d, w, h, n - 1), w, h, h - 1);
    }
  }

  // ---------------------------------------------------------------- the maximum principle

  lemma Scaled(a: real, f: real, n: real)
    requires 0.0 <= a <= n && 0.0 <= f
    ensures 0.0 <= a * f <= n * f
  {
    assert (n - a) * f >= 0.0;
  }

  lemma Parts(n: real, f: real)
    ensures n * (1.0 - f) + n * f == n
  {
  }

  lemma Added(p: real, p': real, q: real, q': real, n: real)
    requires 0.0 <= p <= p' && 0.0 <= q <= q' && p' + q' == n
    ensures 0.0 <= p + q <= n
  {
  }

  lemma MixBetween(a: real, b: real, f: real, n: real)
    requires 0.0 <= a <= n && 0.0 <= b <= n && 0.0 <= f <= 1.0
    ensures 0.0 <= Mix(a, b, f) <= n
  {
    Scaled(a, 1.0 - f, n);
    Scaled(b, f, n);
    Parts(n, f);
    Added(a * (1.0 - f), n * (1.0 - f), b * f, n * f, n);
  }

  /** Sampling cannot leave the range of the values sampled. */
  lemma SampleBetween(s: Grid, w: nat, h: nat, px: real, py: real, n: real)
    requires |s| == w * h && w >= 2 && h >= 2 && Within(s, n)
    ensures 0.0 <= Sample(s, w, h, px, py) <= n
  {
    ClampFloor(px, w);
    ClampFloor(py, h);
    var cx, cy := Clamp(px, w), Clamp(py, h);
    var i: nat, j: nat := cx.Floor, cy.Floor;
    var fx, fy := cx - i as real, cy - j as real;
    var a, b := s[Cell(w, h, i, j)], s[Cell(w, h, i + 1, j)];
    var c, d := s[Cell(w, h, i, j + 1)], s[Cell(w, h, i + 1, j + 1)];
    MixBetween(a, b, fx, n);
    MixBetween(c, d, fx, n);
    MixBetween(Mix(a, b, fx), Mix(c, d, fx), fy, n);
  }

  /** The rules that move density: diffusion and advection of a grid within [0, n]. */
  ghost predicate Moving(r: Rule, n: real) {
    (r.Diffusing? && Within(r.s, n)) || (r.Advecting? && Within(r.s, n))
  }

  lemma NewBetween(r: Rule, d: Grid, w: nat, h: nat, x: nat, y: nat, n: real)
    requires Fits(r, w * h) && |d| == w * h && Inside(w, h, x, y) && Moving(r, n) && Within(d, n)
    ensures 0.0 <= New(r, d, w, h, x, y) <= n
  {
    var k := Cell(w, h, x, y);
    if r.Advecting? {
      SampleBetween(r.s, w, h, x as real - r.u[k], y as real - r.v[k], n);
    } else {
      var t := d[Cell(w, h, x - 1, y)] + d[Cell(w, h, x + 1, y)] + d[Cell(w, h, x, y - 1)] + d[Cell(w, h, x, y + 1)];
      assert 0.0 <= t <= 4.0 * n;
      var q := (r.s[k] + RATE * t) / (1.0 + 4.0 * RATE);
      assert 0.0 <= q <= n;
    }
  }

  lemma {:induction false} RowWithin(r: Rule, d: Grid, w: nat, h: nat, y: nat, x: nat, n: real)
    requires Fits(r, w * h) && |d| == w * h && 1 <= y && y + 1 < h && x < w && Moving(r, n) && Within(d, n)
    ensures Within(Row(r, d, w, h, y, x), n)
  {
    if x > 1 {
      RowWithin(r, d, w, h, y, x - 1, n);
      NewBetween(r, Row(r, d, w, h, y, x - 1), w, h, x - 1, y, n);
    }
  }

  lemma {:induction false} RowsWithin(r: Rule, d: Grid, w: nat, h: nat, y: nat, n: real)
    requires Fits(r, w * h) && |d| == w * h && y < h && w > 0 && Moving(r, n) && Within(d, n)
    ensures Within(Rows(r, d, w, h, y), n)
  {
    if y > 1 {
      RowsWithin(r, d, w, h, y - 1, n);
      RowWithin(r, Rows(r, d, w, h, y - 1), w, h, y - 1, w - 1, n);
    }
  }

  /** Any number of in-place sweeps keeps the density within [0, n]. */
  lemma {:induction false} SweepsWithin(r: Rule, d: Grid, w: nat, h: nat, m: nat, n: real)
    requires Fits(r, w * h) && |d| == w * h && w > 0 && h > 0 && Moving(r, n) && Within(d, n)
    ensures Within(Sweeps(r, d, w, h, m), n)
  {
    if m > 0 {
      SweepsWithin(r, d, w, h, m - 1, n);
      RowsWithin(r, Sweeps(r, d, w, h, m - 1), w, h, h - 1, n);
    }
  }
}
