/**
 What the smoke solver computes, as equations between the values of cells: advection carries
 bilinear data exactly, and each in-place sweep solves its linear equation cell by cell.
 */
module SmokeLaws {
  import opened Cells
  import opened SmokeGrid
  import opened Smoke

  // ---------------------------------------------------------------- advection

  /** Data that is linear in each coordinate. */
  function Plane(a: real, b: real, c: real, d: real, x: real, y: real): real { a + b * x + c * y + d * (x * y) }

  ghost predicate Bilinear(s: Grid, w: nat, h: nat, a: real, b: real, c: real, d: real) {
    && |s| == w * h
    && forall x: nat, y: nat | x < w && y < h :: s[Cell(w, h, x, y)] == Plane(a, b, c, d, x as real, y as real)
  }

  lemma Product(p: real, q: real, r: real)
    ensures (p + q) * r == p * r + q * r && r * (p + q) == r * p + r * q
  {
  }

  lemma Reordered(d: real, f: real, y: real)
    ensures d * (f * y) == f * (d * y) && f * (d * y) == (f * d) * y
  {
  }

  /** A step of f along x, or along y. */
  lemma PlaneEast(a: real, b: real, c: real, d: real, x: real, y: real, f: real)
    ensures Plane(a, b, c, d, x + f, y) == Plane(a, b, c, d, x, y) + f * (b + d * y)
  {
    Product(x, f, y);
    Product(x * y, f * y, d);
    Product(x, f, b);
    Reordered(d, f, y);
    Product(b, d * y, f);
  }

  lemma PlaneSouth(a: real, b: real, c: real, d: real, x: real, y: real, f: real)
    ensures Plane(a, b, c, d, x, y + f) == Plane(a, b, c, d, x, y) + f * (c + d * x)
  {
    Product(y, f, x);
    Product(x * y, x * f, d);
    Product(y, f, c);
    Reordered(d, f, x);
    Product(c, d * x, f);
  }

  lemma MixMoves(a: real, b: real, f: real)
    ensures Mix(a, b, f) == a + f * (b - a)
  {
    Product(b, -a, f);
    Product(1.0, -f, a);
  }

  /** Mixing the data at two cells beside each other gives the data between them. */
  lemma MixEast(a: real, b: real, c: real, d: real, x: real, y: real, f: real)
    ensures Mix(Plane(a, b, c, d, x, y), Plane(a, b, c, d, x + 1.0, y), f) == Plane(a, b, c, d, x + f, y)
  {
    PlaneEast(a, b, c, d, x, y, 1.0);
    PlaneEast(a, b, c, d, x, y, f);
    MixMoves(Plane(a, b, c, d, x, y), Plane(a, b, c, d, x + 1.0, y), f);
  }

  lemma MixSouth(a: real, b: real, c: real, d: real, x: real, y: real, f: real)
    ensures Mix(Plane(a, b, c, d, x, y), Plane(a, b, c, d, x, y + 1.0), f) == Plane(a, b, c, d, x, y + f)
  {
    PlaneSouth(a, b, c, d, x, y, 1.0);
    PlaneSouth(a, b, c, d, x, y, f);
    MixMoves(Plane(a, b, c, d, x, y), Plane(a, b, c, d, x, y + 1.0), f);
  }

  lemma BlendPlane(a: real, b: real, c: real, d: real, x: real, y: real, fx: real, fy: real)
    ensures Blend(Plane(a, b, c, d, x, y), Plane(a, b, c, d, x + 1.0, y),
                  Plane(a, b, c, d, x, y + 1.0), Plane(a, b, c, d, x + 1.0, y + 1.0), fx, fy)
         == Plane(a, b, c, d, x + fx, y + fy)
  {
    MixEast(a, b, c, d, x, y, fx);
    MixEast(a, b, c, d, x, y + 1.0, fx);
    MixSouth(a, b, c, d, x + fx, y, fy);
  }

  /** A sample is blended from the four cells around the point. */
  lemma SampleAround(s: Grid, w: nat, h: nat, px: real, py: real, cx: real, cy: real, i: nat, j: nat)
    requires |s| == w * h && w >= 2 && h >= 2 && cx == Clamp(px, w) && cy == Clamp(py, h)
    requires i == cx.Floor && j == cy.Floor && i + 1 < w && j + 1 < h
    ensures Sample(s, w, h, px, py)
         == Blend(s[Cell(w, h, i, j)], s[Cell(w, h, i + 1, j)], s[Cell(w, h, i, j + 1)], s[Cell(w, h, i + 1, j + 1)],
                  cx - i as real, cy - j as real)
  {
  }

  lemma Corner(s: Grid, w: nat, h: nat, i: nat, j: nat, x: real, y: real, a: real, b: real, c: real, d: real)
    requires Bilinear(s, w, h, a, b, c, d) && i < w && j < h && x == i as real && y == j as real
    ensures s[Cell(w, h, i, j)] == Plane(a, b, c, d, x, y)
  {
  }

  /** The four corners of a cell in bilinear data, and what is between them. */
  lemma BlendAround(s: Grid, w: nat, h: nat, i: nat, j: nat, x: real, y: real, fx: real, fy: real,
                    a: real, b: real, c: real, d: real)
    requires Bilinear(s, w, h, a, b, c, d) && i + 1 < w && j + 1 < h && x == i as real && y == j as real
    ensures Blend(s[Cell(w, h, i, j)], s[Cell(w, h, i + 1, j)], s[Cell(w, h, i, j + 1)], s[Cell(w, h, i + 1, j + 1)],
                  fx, fy)
         == Plane(a, b, c, d, x + fx, y + fy)
  {
    Corner(s, w, h, i, j, x, y, a, b, c, d);
    Corner(s, w, h, i + 1, j, x + 1.0, y, a, b, c, d);
    Corner(s, w, h, i, j + 1, x, y + 1.0, a, b, c, d);
    Corner(s, w, h, i + 1, j + 1, x + 1.0, y + 1.0, a, b, c, d);
    BlendPlane(a, b, c, d, x, y, fx, fy);
  }

  /** The coordinate, or the nearest one half a cell inside the grid. */
  function Inner(p: real, size: nat): real {
    if p < 0.5 then 0.5 else if p > size as real - 1.5 then size as real - 1.5 else p
  }

  /** Sampling bilinear data gives its value at the point, moved to half a cell inside the grid
      if it is outside. */
  lemma SampleBilinear(s: Grid, w: nat, h: nat, px: real, py: real, a: real, b: real, c: real, d: real)
    requires w >= 2 && h >= 2 && Bilinear(s, w, h, a, b, c, d)
    ensures Sample(s, w, h, px, py) == Plane(a, b, c, d, Inner(px, w), Inner(py, h))
  {
    var cx, cy := Clamp(px, w), Clamp(py, h);
    ClampFloor(px, w);
    ClampFloor(py, h);
    var i: nat, j: nat := cx.Floor, cy.Floor;
    SampleAround(s, w, h, px, py, cx, cy, i, j);
    BlendAround(s, w, h, i, j, i as real, j as real, cx - i as real, cy - j as real, a, b, c, d);
    assert Inner(px, w) == i as real + (cx - i as real) && Inner(py, h) == j as real + (cy - j as real);
  }

  lemma MixNone(a: real, b: real)
    ensures Mix(a, b, 0.0) == a
  {
  }

  /** Sampling at an interior cell gives the value there. */
  lemma SampleCell(s: Grid, w: nat, h: nat, x: nat, y: nat)
    requires |s| == w * h && Inside(w, h, x, y)
    ensures Sample(s, w, h, x as real, y as real) == s[Cell(w, h, x, y)]
  {
    assert Clamp(x as real, w) == x as real && Clamp(y as real, h) == y as real;
    var a, b := s[Cell(w, h, x, y)], s[Cell(w, h, x + 1, y)];
    var c, d := s[Cell(w, h, x, y + 1)], s[Cell(w, h, x + 1, y + 1)];
    MixNone(a, b);
    MixNone(c, d);
    MixNone(Mix(a, b, 0.0), Mix(c, d, 0.0));
  }

  /** Where the velocity is whole cells, advection shifts the data by as many cells. */
  lemma AdvectShifts(u: Grid, v: Grid, s: Grid, d: Grid, w: nat, h: nat, x: nat, y: nat, x': nat, y': nat)
    requires |u| == |v| == |s| == |d| == w * h && Inside(w, h, x, y) && Inside(w, h, x', y')
    requires u[Cell(w, h, x, y)] == x as real - x' as real && v[Cell(w, h, x, y)] == y as real - y' as real
    ensures Sweep(Advecting(u, v, s), d, w, h)[Cell(w, h, x, y)] == s[Cell(w, h, x', y')]
  {
    SweepAt(Advecting(u, v, s), d, w, h, x, y);
    SampleCell(s, w, h, x', y');
  }

  /** Where the air is still, advection copies. */
  lemma StillAir(u: Grid, v: Grid, s: Grid, d: Grid, w: nat, h: nat, x: nat, y: nat)
    requires |u| == |v| == |s| == |d| == w * h && Inside(w, h, x, y)
    requires u[Cell(w, h, x, y)] == 0.0 && v[Cell(w, h, x, y)] == 0.0
    ensures Sweep(Advecting(u, v, s), d, w, h)[Cell(w, h, x, y)] == s[Cell(w, h, x, y)]
  {
    AdvectShifts(u, v, s, d, w, h, x, y, x, y);
  }

  /** Bilinear data is moved along the velocity, exactly. */
  lemma AdvectBilinear(u: Grid, v: Grid, s: Grid, e: Grid, w: nat, h: nat, x: nat, y: nat,
                       a: real, b: real, c: real, d: real)
    requires |u| == |v| == |e| == w * h && Inside(w, h, x, y) && Bilinear(s, w, h, a, b, c, d)
    ensures var px, py := x as real - u[Cell(w, h, x, y)], y as real - v[Cell(w, h, x, y)];
            Sweep(Advecting(u, v, s), e, w, h)[Cell(w, h, x, y)]
            == Plane(a, b, c, d, Inner(px, w), Inner(py, h))
  {
    SweepAt(Advecting(u, v, s), e, w, h, x, y);
    SampleBilinear(s, w, h, x as real - u[Cell(w, h, x, y)], y as real - v[Cell(w, h, x, y)], a, b, c, d);
  }

  // ---------------------------------------------------------------- the equations of the sweeps

  /** Diffusion: west and north have their new values already, east and south their old ones. */
  lemma DiffusionEquation(s: Grid, d: Grid, e: Grid, w: nat, h: nat, x: nat, y: nat)
    requires |s| == |d| == w * h && Inside(w, h, x, y) && e == Sweep(Diffusing(s), d, w, h)
    ensures e[Cell(w, h, x, y)] * 1.0008
         == 0.995 * (s[Cell(w, h, x, y)]
                     + 0.0002 * (e[Cell(w, h, x - 1, y)] + e[Cell(w, h, x, y - 1)]
                                 + d[Cell(w, h, x + 1, y)] + d[Cell(w, h, x, y + 1)]))
  {
    InPlaceSweep(Diffusing(s), d, w, h, x, y, e, Seen(Diffusing(s), d, w, h, x, y));
  }

  /** The divergence of the velocity, scaled. */
  lemma DivergenceEquation(u: Grid, v: Grid, d: Grid, w: nat, h: nat, x: nat, y: nat)
    requires |u| == |v| == |d| == w * h && Inside(w, h, x, y)
    ensures 2.0 * (w as real) * Sweep(Divergence(u, v), d, w, h)[Cell(w, h, x, y)]
         == u[Cell(w, h, x - 1, y)] - u[Cell(w, h, x + 1, y)] + v[Cell(w, h, x, y - 1)] - v[Cell(w, h, x, y + 1)]
  {
    SweepAt(Divergence(u, v), d, w, h, x, y);
    SpreadScaled(w, u[Cell(w, h, x + 1, y)], u[Cell(w, h, x - 1, y)], v[Cell(w, h, x, y + 1)], v[Cell(w, h, x, y - 1)]);
  }

  lemma SpreadScaled(w: nat, east: real, west: real, south: real, north: real)
    requires w > 0
    ensures 2.0 * (w as real) * Spread(1.0 / w as real, east, west, south, north) == west - east + north - south
  {
    var n, q, t := w as real, 1.0 / w as real, east - west + south - north;
    assert n * q == 1.0;
    Reordered(n, q, t);
    assert -0.5 * q * t == -0.5 * (q * t);
    assert n * (q * t) == (n * q) * t;
    assert 2.0 * n * (-0.5 * (q * t)) == -(n * (q * t));
  }

  /** The pressure of a cell is the mean of its neighbours and its source. */
  lemma PressureEquation(div: Grid, d: Grid, e: Grid, w: nat, h: nat, x: nat, y: nat)
    requires |div| == |d| == w * h && Inside(w, h, x, y) && e == Sweep(Pressing(div), d, w, h)
    ensures 4.0 * e[Cell(w, h, x, y)]
         == div[Cell(w, h, x, y)] + e[Cell(w, h, x - 1, y)] + e[Cell(w, h, x, y - 1)]
            + d[Cell(w, h, x + 1, y)] + d[Cell(w, h, x, y + 1)]
  {
    InPlaceSweep(Pressing(div), d, w, h, x, y, e, Seen(Pressing(div), d, w, h, x, y));
  }

  /** A velocity loses the slope of the pressure: half the difference ahead and behind, over the
      size of a cell, which is one part in `w`. */
  predicate Loses(w: nat, before: real, after: real, ahead: real, behind: real) {
    2.0 * after == 2.0 * before - (w as real) * (ahead - behind)
  }

  /** The velocity loses the slope of the pressure, in each direction. */
  lemma GradientEast(p: Grid, u: Grid, w: nat, h: nat, x: nat, y: nat)
    requires |p| == |u| == w * h && Inside(w, h, x, y)
    ensures Loses(w, u[Cell(w, h, x, y)], Sweep(DescendX(p), u, w, h)[Cell(w, h, x, y)],
                  p[Cell(w, h, x + 1, y)], p[Cell(w, h, x - 1, y)])
  {
    SweepAt(DescendX(p), u, w, h, x, y);
    SlopeScaled(w, u[Cell(w, h, x, y)], p[Cell(w, h, x + 1, y)], p[Cell(w, h, x - 1, y)]);
  }

  lemma GradientSouth(p: Grid, v: Grid, w: nat, h: nat, x: nat, y: nat)
    requires |p| == |v| == w * h && Inside(w, h, x, y)
    ensures Loses(w, v[Cell(w, h, x, y)], Sweep(DescendY(p), v, w, h)[Cell(w, h, x, y)],
                  p[Cell(w, h, x, y + 1)], p[Cell(w, h, x, y - 1)])
  {
    SweepAt(DescendY(p), v, w, h, x, y);
    SlopeScaled(w, v[Cell(w, h, x, y)], p[Cell(w, h, x, y + 1)], p[Cell(w, h, x, y - 1)]);
  }

  lemma SlopeScaled(w: nat, here: real, ahead: real, behind: real)
    requires w > 0
    ensures Loses(w, here, Slope(1.0 / w as real, here, ahead, behind), ahead, behind)
  {
    var n, q, t := w as real, 1.0 / w as real, 0.5 * (ahead - behind);
    assert n * q == 1.0;
    Quotient(t, q, n);
    assert 2.0 * (t * n) == n * (2.0 * t);
  }

  lemma Quotient(t: real, q: real, n: real)
    requires q != 0.0 && n * q == 1.0
    ensures t / q == t * n
  {
    assert (t * n) * q == t * (n * q);
  }

  /** Clearing empties the interior and leaves the border. */
  lemma Cleared(d: Grid, w: nat, h: nat, x: nat, y: nat)
    requires |d| == w * h && x < w && y < h
    ensures Sweep(Clearing, d, w, h)[Cell(w, h, x, y)] == if Inside(w, h, x, y) then 0.0 else d[Cell(w, h, x, y)]
  {
    SweepAt(Clearing, d, w, h, x, y);
  }

  // ---------------------------------------------------------------- the stages of a redraw

  lemma FiveSweeps(r: Rule, d: Grid, w: nat, h: nat)
    requires Fits(r, w * h) && |d| == w * h && w > 0 && h > 0
    ensures Sweeps(r, d, w, h, 5)
         == Sweep(r, Sweep(r, Sweep(r, Sweep(r, Sweep(r, d, w, h), w, h), w, h), w, h), w, h)
  {
    assert Sweeps(r, d, w, h, 1) == Sweep(r, Sweeps(r, d, w, h, 0), w, h);
    assert Sweeps(r, d, w, h, 2) == Sweep(r, Sweeps(r, d, w, h, 1), w, h);
    assert Sweeps(r, d, w, h, 3) == Sweep(r, Sweeps(r, d, w, h, 2), w, h);
    assert Sweeps(r, d, w, h, 4) == Sweep(r, Sweeps(r, d, w, h, 3), w, h);
  }

  /** Projection: the divergence of the velocity, five sweeps of pressure from an empty interior,
      and the velocity less the slope of that pressure. */
  ghost predicate Projected(f: Flow, g: Flow, w: nat, h: nat)
    requires FlowSized(f, w * h) && FlowSized(g, w * h) && w > 0 && h > 0
  {
    && g.div == Sweep(Divergence(f.u, f.v), f.div, w, h)
    && (exists p0: Grid :: |p0| == w * h && g.p == Sweeps(Pressing(g.div), p0, w, h, 5) && Emptied(f.p, p0, w, h))
    && g.u == Sweep(DescendX(g.p), f.u, w, h) && g.v == Sweep(DescendY(g.p), f.v, w, h)
  }

  /** The interior is empty; of the border, the first quarter of the grid is. */
  ghost predicate Emptied(p: Grid, p0: Grid, w: nat, h: nat)
    requires |p| == |p0| == w * h
  {
    forall x: nat, y: nat | x < w && y < h ::
      p0[Cell(w, h, x, y)]
      == if Inside(w, h, x, y) || Cell(w, h, x, y) < (w * h) / 4 then 0.0 else p[Cell(w, h, x, y)]
  }

  lemma ProjectStages(f: Flow, w: nat, h: nat)
    requires FlowSized(f, w * h) && w > 0 && h > 0
    ensures Projected(f, Project(f, w, h), w, h)
  {
    var p0 := Sweep(Clearing, ClearedBytes(f.p, h * w), w, h);
    forall x: nat, y: nat | x < w && y < h
      ensures p0[Cell(w, h, x, y)]
           == if Inside(w, h, x, y) || Cell(w, h, x, y) < (w * h) / 4 then 0.0 else f.p[Cell(w, h, x, y)]
    {
      Cleared(ClearedBytes(f.p, h * w), w, h, x, y);
    }
    assert Emptied(f.p, p0, w, h);
  }

  /** A redraw: both velocities are diffused and projected, carried along themselves and projected
      again; the density is diffused and carried along the result. */
  lemma RedrawStages(f: Fields, w: nat, h: nat) returns (diffused: Flow, a: Flow, carried: Flow, b: Flow)
    requires Sized(f, w * h) && w > 0 && h > 0
    ensures FlowSized(diffused, w * h) && FlowSized(a, w * h) && FlowSized(carried, w * h) && FlowSized(b, w * h)
    ensures diffused.u == Sweeps(Diffusing(f.u0), f.u1, w, h, 5) && diffused.v == Sweeps(Diffusing(f.v0), f.v1, w, h, 5)
    ensures Projected(diffused, a, w, h) && Projected(carried, b, w, h)
    ensures carried.u == Sweep(Advecting(a.u, a.v, a.u), a.p, w, h)
    ensures carried.v == Sweep(Advecting(a.u, a.v, a.v), a.div, w, h)
    ensures var g := Redrawn(f, w, h);
            && g.u0 == b.u && g.v0 == b.v && g.u1 == b.p && g.v1 == b.div
            && g.d1 == Sweeps(Diffusing(f.d0), f.d1, w, h, 5)
            && g.d0 == Sweep(Advecting(g.u0, g.v0, g.d1), f.d0, w, h)
  {
    diffused := Flow(Diffused(f.u0, f.u1, w, h), Diffused(f.v0, f.v1, w, h), f.u0, f.v0);
    a := Project(diffused, w, h);
    carried := Flow(Sweep(Advecting(a.u, a.v, a.u), a.p, w, h), Sweep(Advecting(a.u, a.v, a.v), a.div, w, h), a.u, a.v);
    b := Project(carried, w, h);
    ProjectStages(diffused, w, h);
    ProjectStages(carried, w, h);
  }

  // ---------------------------------------------------------------- motion

  /** The coordinate is one of the ten from the pointer's less five on, clipped to the interior. */
  predicate Near(x: real, size: nat, i: nat) {
    var first := if x < 6.0 then 1 else (x - 5.0).Floor;
    first <= i < first + 10 && i + 1 < size
  }

  /** A motion adds 1 to the density and 256 or -256 to each velocity, in every cell near the
      pointer, and changes nothing else. */
  lemma MotionEffect(f: Fields, x: real, y: real, us: seq<bool>, vs: seq<bool>, w: nat, h: nat, i: nat, j: nat)
    requires Sized(f, w * h) && i < w && j < h
    ensures var g, k := Handled(f, Motion(x, y, us, vs), w, h), Cell(w, h, i, j);
            && g.d1 == f.d1 && g.u1 == f.u1 && g.v1 == f.v1
            && if Near(x, w, i) && Near(y, h, j) then
                 && g.d0[k] == f.d0[k] + 1.0
                 && g.u0[k] == f.u0[k] + (if k < |us| && us[k] then -256.0 else 256.0)
                 && g.v0[k] == f.v0[k] + (if k < |vs| && vs[k] then -256.0 else 256.0)
               else
                 g.d0[k] == f.d0[k] && g.u0[k] == f.u0[k] && g.v0[k] == f.v0[k]
  {
    Coordinates(w, h, i, j);
  }
}
