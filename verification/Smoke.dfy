/**
 A run of the smoke client: any interleaving of pointer motions and redraws, on a grid of
 any size.
 */
module Smoke {
  import opened Cells
  import opened SmokeGrid

  /** The two sets of density and velocity grids. */
  datatype Fields = Fields(d0: Grid, u0: Grid, v0: Grid, d1: Grid, u1: Grid, v1: Grid)

  predicate Sized(f: Fields, size: nat) {
    |f.d0| == size && |f.u0| == size && |f.v0| == size && |f.d1| == size && |f.u1| == size && |f.v1| == size
  }

  // ---------------------------------------------------------------- redraw

  /** A velocity field with the two scratch grids of project. */
  datatype Flow = Flow(u: Grid, v: Grid, p: Grid, div: Grid)

  predicate FlowSized(f: Flow, size: nat) { |f.u| == size && |f.v| == size && |f.p| == size && |f.div| == size }

  /** memset with a count of bytes where floats of four bytes each are meant. */
  function ClearedBytes(p: Grid, bytes: nat): (q: Grid)
    ensures |q| == |p|
  {
    seq(|p|, k requires 0 <= k < |p| => if k < bytes / 4 then 0.0 else p[k])
  }

  function Project(f: Flow, w: nat, h: nat): (g: Flow)
    requires FlowSized(f, w * h) && w > 0 && h > 0
    ensures FlowSized(g, w * h)
  {
    var div := Sweep(Divergence(f.u, f.v), f.div, w, h);
    var p := Sweeps(Pressing(div), Sweep(Clearing, ClearedBytes(f.p, h * w), w, h), w, h, 5);
    Flow(Sweep(DescendX(p), f.u, w, h), Sweep(DescendY(p), f.v, w, h), p, div)
  }

  function Diffused(s: Grid, d: Grid, w: nat, h: nat): (e: Grid)
    requires |s| == w * h && |d| == w * h && w > 0 && h > 0
    ensures |e| == w * h
  {
    Sweeps(Diffusing(s), d, w, h, 5)
  }

  function Redrawn(f: Fields, w: nat, h: nat): (g: Fields)
    requires Sized(f, w * h) && w > 0 && h > 0
    ensures Sized(g, w * h)
  {
    var a := Project(Flow(Diffused(f.u0, f.u1, w, h), Diffused(f.v0, f.v1, w, h), f.u0, f.v0), w, h);
    var u0 := Sweep(Advecting(a.u, a.v, a.u), a.p, w, h);
    var v0 := Sweep(Advecting(a.u, a.v, a.v), a.div, w, h);
    var b := Project(Flow(u0, v0, a.u, a.v), w, h);
    var d1 := Diffused(f.d0, f.d1, w, h);
    Fields(Sweep(Advecting(b.u, b.v, d1), f.d0, w, h), b.u, b.v, d1, b.p, b.div)
  }

  // ---------------------------------------------------------------- motion

  /** The columns i0 to i1 - 1 and rows j0 to j1 - 1. */
  datatype Blob = Blob(i0: nat, i1: int, j0: nat, j1: int)

  const RADIUS: int := 5

  function First(x: real): (i: nat)
    ensures i >= 1
  {
    if x - RADIUS as real < 1.0 then 1 else (x - RADIUS as real).Floor
  }

  function Last(i0: nat, size: nat): int { if i0 + 2 * RADIUS > size - 1 then size - 1 else i0 + 2 * RADIUS }

  function BlobAt(x: real, y: real, w: nat, h: nat): Blob {
    Blob(First(x), Last(First(x), w), First(y), Last(First(y), h))
  }

  predicate Covers(b: Blob, w: nat, k: nat)
    requires w > 0
  {
    b.i0 <= k % w < b.i1 && b.j0 <= k / w < b.j1
  }

  /** What is added to a cell: 1 to the density; 256 or -256 to a velocity, at random. */
  datatype Push = Puff | Kicks(bits: seq<bool>)

  function By(p: Push, k: nat): real {
    match p
    case Puff => 1.0
    case Kicks(bits) => if k < |bits| && bits[k] then -256.0 else 256.0
  }

  function Stirred(g: Grid, w: nat, b: Blob, p: Push): (e: Grid)
    requires w > 0
    ensures |e| == |g|
  {
    seq(|g|, k requires 0 <= k < |g| => g[k] + if Covers(b, w, k) then By(p, k) else 0.0)
  }

  // ---------------------------------------------------------------- runs

  datatype Event = Motion(x: real, y: real, us: seq<bool>, vs: seq<bool>) | Redraw

  function Handled(f: Fields, e: Event, w: nat, h: nat): (g: Fields)
    requires Sized(f, w * h) && w > 0 && h > 0
    ensures Sized(g, w * h)
  {
    match e
    case Redraw => Redrawn(f, w, h)
    case Motion(x, y, us, vs) =>
      var b := BlobAt(x, y, w, h);
      f.(u0 := Stirred(f.u0, w, b, Kicks(us)), v0 := Stirred(f.v0, w, b, Kicks(vs)), d0 := Stirred(f.d0, w, b, Puff))
  }

  function Zeros(size: nat): (g: Grid) ensures |g| == size { seq(size, _ => 0.0) }

  function Run(es: seq<Event>, w: nat, h: nat): (f: Fields)
    requires w > 0 && h > 0
    ensures Sized(f, w * h)
  {
    if es == [] then var z := Zeros(w * h); Fields(z, z, z, z, z, z)
    else Handled(Run(es[..|es| - 1], w, h), es[|es| - 1], w, h)
  }

  function Motions(es: seq<Event>): nat {
    if es == [] then 0 else Motions(es[..|es| - 1]) + if es[|es| - 1].Motion? then 1 else 0
  }

  // ---------------------------------------------------------------- every run

  ghost predicate AllBorders(f: Fields, w: nat, h: nat) {
    && BorderZero(f.d0, w, h) && BorderZero(f.u0, w, h) && BorderZero(f.v0, w, h)
    && BorderZero(f.d1, w, h) && BorderZero(f.u1, w, h) && BorderZero(f.v1, w, h)
  }

  ghost predicate FlowBorders(f: Flow, w: nat, h: nat) {
    BorderZero(f.u, w, h) && BorderZero(f.v, w, h) && BorderZero(f.p, w, h) && BorderZero(f.div, w, h)
  }

  lemma SweepBorder(r: Rule, d: Grid, w: nat, h: nat)
    requires Fits(r, w * h) && BorderZero(d, w, h) && w > 0 && h > 0
    ensures BorderZero(Sweep(r, d, w, h), w, h)
  {
    RowsBorder(r, d, w, h, h - 1);
  }

  lemma ProjectBorders(f: Flow, w: nat, h: nat)
    requires FlowBorders(f, w, h) && w > 0 && h > 0
    ensures FlowBorders(Project(f, w, h), w, h)
  {
    var div := Sweep(Divergence(f.u, f.v), f.div, w, h);
    SweepBorder(Divergence(f.u, f.v), f.div, w, h);
    var p0 := ClearedBytes(f.p, h * w);
    assert BorderZero(p0, w, h);
    SweepBorder(Clearing, p0, w, h);
    var p := Sweeps(Pressing(div), Sweep(Clearing, p0, w, h), w, h, 5);
    SweepsBorder(Pressing(div), Sweep(Clearing, p0, w, h), w, h, 5);
    SweepBorder(DescendX(p), f.u, w, h);
    SweepBorder(DescendY(p), f.v, w, h);
  }

  lemma RedrawnBorders(f: Fields, w: nat, h: nat)
    requires AllBorders(f, w, h) && w > 0 && h > 0
    ensures AllBorders(Redrawn(f, w, h), w, h)
  {
    SweepsBorder(Diffusing(f.u0), f.u1, w, h, 5);
    SweepsBorder(Diffusing(f.v0), f.v1, w, h, 5);
    var a0 := Flow(Diffused(f.u0, f.u1, w, h), Diffused(f.v0, f.v1, w, h), f.u0, f.v0);
    ProjectBorders(a0, w, h);
    var a := Project(a0, w, h);
    SweepBorder(Advecting(a.u, a.v, a.u), a.p, w, h);
    SweepBorder(Advecting(a.u, a.v, a.v), a.div, w, h);
    var b0 := Flow(Sweep(Advecting(a.u, a.v, a.u), a.p, w, h), Sweep(Advecting(a.u, a.v, a.v), a.div, w, h), a.u, a.v);
    ProjectBorders(b0, w, h);
    var b := Project(b0, w, h);
    SweepsBorder(Diffusing(f.d0), f.d1, w, h, 5);
    SweepBorder(Advecting(b.u, b.v, Diffused(f.d0, f.d1, w, h)), f.d0, w, h);
  }

  lemma Coordinates(w: nat, h: nat, x: nat, y: nat)
    requires x < w && y < h
    ensures Cell(w, h, x, y) % w == x && Cell(w, h, x, y) / w == y
  {
    RowAndColumn(w, x, y);
  }

  lemma StirredBorder(g: Grid, w: nat, h: nat, x: real, y: real, p: Push)
    requires BorderZero(g, w, h) && w > 0 && h > 0
    ensures BorderZero(Stirred(g, w, BlobAt(x, y, w, h), p), w, h)
  {
    var b := BlobAt(x, y, w, h);
    forall i: nat, j: nat | i < w && j < h && !Inside(w, h, i, j) ensures Stirred(g, w, b, p)[Cell(w, h, i, j)] == 0.0 {
      Coordinates(w, h, i, j);
    }
  }

  lemma RedrawnWithin(f: Fields, w: nat, h: nat, n: real)
    requires Sized(f, w * h) && w > 0 && h > 0 && Within(f.d0, n) && Within(f.d1, n)
    ensures Within(Redrawn(f, w, h).d0, n) && Within(Redrawn(f, w, h).d1, n)
  {
    var g := Redrawn(f, w, h);
    SweepsWithin(Diffusing(f.d0), f.d1, w, h, 5, n);
    RowsWithin(Advecting(g.u0, g.v0, g.d1), f.d0, w, h, h - 1, n);
  }

  /** After any run with `n` motions, every density is within [0, n] and the border of every
      grid is zero, for every grid size and whatever the random kicks were. */
  lemma {:induction false} MaximumPrinciple(es: seq<Event>, w: nat, h: nat)
    requires w > 0 && h > 0
    ensures Within(Run(es, w, h).d0, Motions(es) as real) && Within(Run(es, w, h).d1, Motions(es) as real)
    ensures AllBorders(Run(es, w, h), w, h)
  {
    if es != [] {
      var before, e := es[..|es| - 1], es[|es| - 1];
      MaximumPrinciple(before, w, h);
      var f := Run(before, w, h);
      match e
      case Redraw =>
        RedrawnWithin(f, w, h, Motions(before) as real);
        RedrawnBorders(f, w, h);
      case Motion(x, y, us, vs) =>
        StirredBorder(f.d0, w, h, x, y, Puff);
        StirredBorder(f.u0, w, h, x, y, Kicks(us));
        StirredBorder(f.v0, w, h, x, y, Kicks(vs));
    }
  }
}
