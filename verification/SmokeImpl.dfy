/**
 The smoke client as it runs: loop nests over float buffers updated in place.  Every index
 is checked to be in range, and each loop nest is proved to compute its sweep.
 */
module SmokeImpl {
  import opened Cells
  import opened SmokeGrid
  import opened Smoke

  class SmokeClient {
    const width: nat
    const height: nat
    const d0: array<real>
    const u0: array<real>
    const v0: array<real>
    const d1: array<real>
    const u1: array<real>
    const v1: array<real>

    ghost predicate Valid() {
      && width > 0 && height > 0
      && d0.Length == u0.Length == v0.Length == d1.Length == u1.Length == v1.Length == width * height
      && d0 != u0 && d0 != v0 && d0 != d1 && d0 != u1 && d0 != v1
      && u0 != v0 && u0 != d1 && u0 != u1 && u0 != v1
      && v0 != d1 && v0 != u1 && v0 != v1
      && d1 != u1 && d1 != v1 && u1 != v1
    }

    ghost function Abs(): Fields
      reads d0, u0, v0, d1, u1, v1
    {
      Fields(d0[..], u0[..], v0[..], d1[..], u1[..], v1[..])
    }

    constructor (w: nat, h: nat)
      requires w > 0 && h > 0
      ensures Valid() && width == w && height == h && Abs() == Run([], w, h)
      ensures fresh(d0) && fresh(u0) && fresh(v0) && fresh(d1) && fresh(u1) && fresh(v1)
    {
      width, height := w, h;
      d0 := new real[w * h](_ => 0.0);
      u0 := new real[w * h](_ => 0.0);
      v0 := new real[w * h](_ => 0.0);
      d1 := new real[w * h](_ => 0.0);
      u1 := new real[w * h](_ => 0.0);
      v1 := new real[w * h](_ => 0.0);
      new;
      var z := Zeros(w * h);
      assert d0[..] == z && u0[..] == z && v0[..] == z && d1[..] == z && u1[..] == z && v1[..] == z;
    }

    method DiffuseRow(source: array<real>, dest: array<real>, y: nat)
      requires Valid() && source.Length == dest.Length == width * height && source != dest && 1 <= y && y + 1 < height
      modifies dest
      ensures dest[..] == Row(Diffusing(source[..]), old(dest[..]), width, height, y, width - 1)
    {
      var s, x := y * width, 1;
      while x < width - 1
        invariant 1 <= x && (width > 1 ==> x <= width - 1)
        invariant width > 1 ==> dest[..] == Row(Diffusing(source[..]), old(dest[..]), width, height, y, x)
        invariant width == 1 ==> dest[..] == old(dest[..])
      {
        Neighbours(width, height, x, y);
        var k := s + x;
        assert k == Cell(width, height, x, y);
        var t := dest[k - 1] + dest[k + 1] + dest[k - width] + dest[k + width];
        dest[k] := (source[k] + RATE * t) / (1.0 + 4.0 * RATE) * 0.995;
        x := x + 1;
      }
    }

    method Diffuse(source: array<real>, dest: array<real>)
      requires Valid() && source.Length == dest.Length == width * height && source != dest
      modifies dest
      ensures dest[..] == Diffused(source[..], old(dest[..]), width, height)
    {
      for k := 0 to 5
        invariant dest[..] == Sweeps(Diffusing(source[..]), old(dest[..]), width, height, k)
      {
        ghost var was := dest[..];
        var y := 1;
        while y < height - 1
          invariant 1 <= y && (height > 1 ==> y <= height - 1)
          invariant height > 1 ==> dest[..] == Rows(Diffusing(source[..]), was, width, height, y)
          invariant height == 1 ==> dest[..] == was
        {
          DiffuseRow(source, dest, y);
          y := y + 1;
        }
      }
    }

    method AdvectRow(uu: array<real>, vv: array<real>, source: array<real>, dest: array<real>, y: nat)
      requires Valid() && uu.Length == vv.Length == source.Length == dest.Length == width * height
      requires dest != uu && dest != vv && dest != source && 1 <= y && y + 1 < height
      modifies dest
      ensures dest[..] == Row(Advecting(uu[..], vv[..], source[..]), old(dest[..]), width, height, y, width - 1)
    {
      ghost var rule := Advecting(uu[..], vv[..], source[..]);
      var l, x := y * width, 1;
      while x < width - 1
        invariant 1 <= x && (width > 1 ==> x <= width - 1)
        invariant width > 1 ==> dest[..] == Row(rule, old(dest[..]), width, height, y, x)
        invariant width == 1 ==> dest[..] == old(dest[..])
      {
        assert l + x == Cell(width, height, x, y);
        var px := x as real - uu[l + x];
        var py := y as real - vv[l + x];
        var value := SampleAt(source, px, py);
        dest[l + x] := value;
        x := x + 1;
      }
    }

    /** A cell and its neighbours to the east and south. */
    static lemma Corners(w: nat, h: nat, i: nat, j: nat)
      requires i + 1 < w && j + 1 < h
      ensures var s := j * w + i;
              && s == Cell(w, h, i, j) && s + 1 == Cell(w, h, i + 1, j)
              && s + w == Cell(w, h, i, j + 1) && s + w + 1 == Cell(w, h, i + 1, j + 1)
    {
    }

    /** The interpolation in the inner loop of advect. */
    method SampleAt(source: array<real>, px0: real, py0: real) returns (value: real)
      requires Valid() && source.Length == width * height && width >= 2 && height >= 2
      ensures value == Sample(source[..], width, height, px0, py0)
    {
      var px, py := px0, py0;
      if px < 0.5 { px := 0.5; }
      if py < 0.5 { py := 0.5; }
      if px > width as real - 1.5 { px := width as real - 1.5; }
      if py > height as real - 1.5 { py := height as real - 1.5; }
      assert px == Clamp(px0, width) && py == Clamp(py0, height);
      ClampFloor(px0, width);
      ClampFloor(py0, height);
      var i: nat, j: nat := px.Floor, py.Floor;
      var fx, fy := px - i as real, py - j as real;
      var s := j * width + i;
      Corners(width, height, i, j);
      value := Blend(source[s], source[s + 1], source[s + width], source[s + width + 1], fx, fy);
    }

    method Advect(uu: array<real>, vv: array<real>, source: array<real>, dest: array<real>)
      requires Valid() && uu.Length == vv.Length == source.Length == dest.Length == width * height
      requires dest != uu && dest != vv && dest != source
      modifies dest
      ensures dest[..] == Sweep(Advecting(uu[..], vv[..], source[..]), old(dest[..]), width, height)
    {
      ghost var rule := Advecting(uu[..], vv[..], source[..]);
      var y := 1;
      while y < height - 1
        invariant 1 <= y && (height > 1 ==> y <= height - 1)
        invariant height > 1 ==> dest[..] == Rows(rule, old(dest[..]), width, height, y)
        invariant height == 1 ==> dest[..] == old(dest[..])
      {
        AdvectRow(uu, vv, source, dest, y);
        y := y + 1;
      }
    }

    // ------------------------------------------------------------ project

    method ClearBytes(p: array<real>, bytes: nat)
      requires bytes / 4 <= p.Length
      modifies p
      ensures p[..] == ClearedBytes(old(p[..]), bytes)
    {
      for k := 0 to bytes / 4
        invariant forall i | 0 <= i < p.Length :: p[i] == if i < k then 0.0 else old(p[i])
      {
        p[k] := 0.0;
      }
    }

    method SpreadAt(u: array<real>, v: array<real>, x: nat, y: nat, ghost d: Grid) returns (value: real)
      requires Valid() && u.Length == v.Length == |d| == width * height && Inside(width, height, x, y)
      ensures value == New(Divergence(u[..], v[..]), d, width, height, x, y)
    {
      Neighbours(width, height, x, y);
      var s, k := width, y * width + x;
      assert k == Cell(width, height, x, y);
      value := Spread(1.0 / width as real, u[k + 1], u[k - 1], v[k + s], v[k - s]);
    }

    method SlopesAt(u: array<real>, v: array<real>, p: array<real>, x: nat, y: nat) returns (du: real, dv: real)
      requires Valid() && u.Length == v.Length == p.Length == width * height && Inside(width, height, x, y)
      ensures du == New(DescendX(p[..]), u[..], width, height, x, y)
      ensures dv == New(DescendY(p[..]), v[..], width, height, x, y)
    {
      Neighbours(width, height, x, y);
      var s, k := width, y * width + x;
      assert k == Cell(width, height, x, y);
      du := Slope(1.0 / width as real, u[k], p[k + 1], p[k - 1]);
      dv := Slope(1.0 / width as real, v[k], p[k + s], p[k - s]);
    }

    method DivergenceRow(u: array<real>, v: array<real>, p: array<real>, div: array<real>, y: nat)
      requires Valid() && u.Length == v.Length == p.Length == div.Length == width * height
      requires p != u && p != v && div != u && div != v && p != div && 1 <= y && y + 1 < height
      modifies p, div
      ensures div[..] == Row(Divergence(u[..], v[..]), old(div[..]), width, height, y, width - 1)
      ensures p[..] == Row(Clearing, old(p[..]), width, height, y, width - 1)
    {
      var l, x := y * width, 1;
      while x < width - 1
        invariant 1 <= x && (width > 1 ==> x <= width - 1)
        invariant width > 1 ==> div[..] == Row(Divergence(u[..], v[..]), old(div[..]), width, height, y, x)
        invariant width > 1 ==> p[..] == Row(Clearing, old(p[..]), width, height, y, x)
        invariant width == 1 ==> div[..] == old(div[..]) && p[..] == old(p[..])
      {
        assert l + x == Cell(width, height, x, y);
        var value := SpreadAt(u, v, x, y, div[..]);
        div[l + x] := value;
        p[l + x] := 0.0;
        x := x + 1;
      }
    }

    method DivergenceAll(u: array<real>, v: array<real>, p: array<real>, div: array<real>)
      requires Valid() && u.Length == v.Length == p.Length == div.Length == width * height
      requires p != u && p != v && div != u && div != v && p != div
      modifies p, div
      ensures div[..] == Sweep(Divergence(u[..], v[..]), old(div[..]), width, height)
      ensures p[..] == Sweep(Clearing, old(p[..]), width, height)
    {
      var y := 1;
      while y < height - 1
        invariant 1 <= y && (height > 1 ==> y <= height - 1)
        invariant height > 1 ==> div[..] == Rows(Divergence(u[..], v[..]), old(div[..]), width, height, y)
        invariant height > 1 ==> p[..] == Rows(Clearing, old(p[..]), width, height, y)
        invariant height == 1 ==> div[..] == old(div[..]) && p[..] == old(p[..])
      {
        DivergenceRow(u, v, p, div, y);
        y := y + 1;
      }
    }

    method PressRow(p: array<real>, div: array<real>, y: nat)
      requires Valid() && p.Length == div.Length == width * height && p != div && 1 <= y && y + 1 < height
      modifies p
      ensures p[..] == Row(Pressing(div[..]), old(p[..]), width, height, y, width - 1)
    {
      var s := width;
      var l, x := y * s, 1;
      while x < width - 1
        invariant 1 <= x && (width > 1 ==> x <= width - 1)
        invariant width > 1 ==> p[..] == Row(Pressing(div[..]), old(p[..]), width, height, y, x)
        invariant width == 1 ==> p[..] == old(p[..])
      {
        Neighbours(width, height, x, y);
        assert l + x == Cell(width, height, x, y);
        p[l + x] := (div[l + x] + p[l + x - 1] + p[l + x + 1] + p[l + x - s] + p[l + x + s]) / 4.0;
        x := x + 1;
      }
    }

    method Press(p: array<real>, div: array<real>)
      requires Valid() && p.Length == div.Length == width * height && p != div
      modifies p
      ensures p[..] == Sweeps(Pressing(div[..]), old(p[..]), width, height, 5)
    {
      for k := 0 to 5
        invariant p[..] == Sweeps(Pressing(div[..]), old(p[..]), width, height, k)
      {
        ghost var was := p[..];
        var y := 1;
        while y < height - 1
          invariant 1 <= y && (height > 1 ==> y <= height - 1)
          invariant height > 1 ==> p[..] == Rows(Pressing(div[..]), was, width, height, y)
          invariant height == 1 ==> p[..] == was
        {
          PressRow(p, div, y);
          y := y + 1;
        }
      }
    }

    method DescendRow(u: array<real>, v: array<real>, p: array<real>, y: nat)
      requires Valid() && u.Length == v.Length == p.Length == width * height && u != v && p != u && p != v
      requires 1 <= y && y + 1 < height
      modifies u, v
      ensures u[..] == Row(DescendX(p[..]), old(u[..]), width, height, y, width - 1)
      ensures v[..] == Row(DescendY(p[..]), old(v[..]), width, height, y, width - 1)
    {
      var l, x := y * width, 1;
      while x < width - 1
        invariant 1 <= x && (width > 1 ==> x <= width - 1)
        invariant width > 1 ==> u[..] == Row(DescendX(p[..]), old(u[..]), width, height, y, x)
        invariant width > 1 ==> v[..] == Row(DescendY(p[..]), old(v[..]), width, height, y, x)
        invariant width == 1 ==> u[..] == old(u[..]) && v[..] == old(v[..])
      {
        assert l + x == Cell(width, height, x, y);
        var du, dv := SlopesAt(u, v, p, x, y);
        u[l + x], v[l + x] := du, dv;
        x := x + 1;
      }
    }

    method Descend(u: array<real>, v: array<real>, p: array<real>)
      requires Valid() && u.Length == v.Length == p.Length == width * height && u != v && p != u && p != v
      modifies u, v
      ensures u[..] == Sweep(DescendX(p[..]), old(u[..]), width, height)
      ensures v[..] == Sweep(DescendY(p[..]), old(v[..]), width, height)
    {
      var y := 1;
      while y < height - 1
        invariant 1 <= y && (height > 1 ==> y <= height - 1)
        invariant height > 1 ==> u[..] == Rows(DescendX(p[..]), old(u[..]), width, height, y)
        invariant height > 1 ==> v[..] == Rows(DescendY(p[..]), old(v[..]), width, height, y)
        invariant height == 1 ==> u[..] == old(u[..]) && v[..] == old(v[..])
      {
        DescendRow(u, v, p, y);
        y := y + 1;
      }
    }

    method ProjectFlow(u: array<real>, v: array<real>, p: array<real>, div: array<real>)
      requires Valid() && u.Length == v.Length == p.Length == div.Length == width * height
      requires u != v && p != u && p != v && div != u && div != v && p != div
      modifies u, v, p, div
      ensures Flow(u[..], v[..], p[..], div[..])
           == Project(Flow(old(u[..]), old(v[..]), old(p[..]), old(div[..])), width, height)
    {
      ClearBytes(p, height * width);
      DivergenceAll(u, v, p, div);
      Press(p, div);
      Descend(u, v, p);
    }

    // ------------------------------------------------------------ handlers

    method RedrawHandler()
      requires Valid()
      modifies d0, u0, v0, d1, u1, v1
      ensures Abs() == Redrawn(old(Abs()), width, height)
    {
      Diffuse(u0, u1);
      Diffuse(v0, v1);
      ProjectFlow(u1, v1, u0, v0);
      Advect(u1, v1, u1, u0);
      Advect(u1, v1, v1, v0);
      ProjectFlow(u0, v0, u1, v1);
      Diffuse(d0, d1);
      Advect(u0, v0, d1, d0);
    }

    /** The cells of the blob visited before column i, and above row j in column i. */
    ghost predicate Visited(b: Blob, k: nat, i: int, j: int)
      requires width > 0
    {
      Covers(b, width, k) && (k % width < i || (k % width == i && k / width < j))
    }

    ghost predicate StirredTo(a: seq<real>, was: seq<real>, b: Blob, p: Push, i: int, j: int)
      requires width > 0
    {
      |a| == |was| && forall k | 0 <= k < |a| :: a[k] == was[k] + if Visited(b, k, i, j) then By(p, k) else 0.0
    }

    lemma NextCell(b: Blob, i: nat, j: nat, k': nat)
      requires Valid() && i < width && j < height && b.i0 <= i < b.i1 && b.j0 <= j < b.j1
      ensures var k := Cell(width, height, i, j);
              !Visited(b, k, i, j) && (Visited(b, k', i, j + 1) <==> Visited(b, k', i, j) || k' == k)
    {
      Coordinates(width, height, i, j);
      assert k' == (k' / width) * width + k' % width;
    }

    method StirCell(g: array<real>, p: Push, ghost b: Blob, i: nat, j: nat, ghost was: seq<real>)
      requires Valid() && g.Length == width * height && i < width && j < height
      requires b.i0 <= i < b.i1 && b.j0 <= j < b.j1 && StirredTo(g[..], was, b, p, i, j)
      modifies g
      ensures StirredTo(g[..], was, b, p, i, j + 1)
    {
      var k := j * width + i;
      assert k == Cell(width, height, i, j);
      NextCell(b, i, j, k);
      g[k] := g[k] + By(p, k);
      forall k' | 0 <= k' < g.Length
        ensures g[k'] == was[k'] + if Visited(b, k', i, j + 1) then By(p, k') else 0.0
      {
        NextCell(b, i, j, k');
      }
    }

    method SmokeMotionHandler(x: real, y: real, us: seq<bool>, vs: seq<bool>)
      requires Valid()
      modifies u0, v0, d0
      ensures Abs() == Handled(old(Abs()), Motion(x, y, us, vs), width, height)
    {
      var i0, j0 := First(x), First(y);
      var i1, j1 := Last(i0, width), Last(j0, height);
      ghost var b := Blob(i0, i1, j0, j1);
      ghost var wu, wv, wd := u0[..], v0[..], d0[..];
      var i: nat := i0;
      while i < i1
        invariant i0 <= i && (i0 <= i1 ==> i <= i1)
        invariant StirredTo(u0[..], wu, b, Kicks(us), i, j0)
        invariant StirredTo(v0[..], wv, b, Kicks(vs), i, j0)
        invariant StirredTo(d0[..], wd, b, Puff, i, j0)
      {
        var j: nat := j0;
        while j < j1
          invariant j0 <= j && (j0 <= j1 ==> j <= j1)
          invariant StirredTo(u0[..], wu, b, Kicks(us), i, j)
          invariant StirredTo(v0[..], wv, b, Kicks(vs), i, j)
          invariant StirredTo(d0[..], wd, b, Puff, i, j)
        {
          StirCell(u0, Kicks(us), b, i, j, wu);
          StirCell(v0, Kicks(vs), b, i, j, wv);
          StirCell(d0, Puff, b, i, j, wd);
          j := j + 1;
        }
        i := i + 1;
      }
      assert u0[..] == Stirred(wu, width, b, Kicks(us));
      assert v0[..] == Stirred(wv, width, b, Kicks(vs));
      assert d0[..] == Stirred(wd, width, b, Puff);
    }
  }

  /** A whole run of the client computes the run of Smoke.dfy. */
  method Session(es: seq<Event>, w: nat, h: nat) returns (density: seq<real>)
    requires w > 0 && h > 0
    ensures density == Run(es, w, h).d0
    ensures Within(density, Motions(es) as real) && BorderZero(density, w, h)
  {
    var c := new SmokeClient(w, h);
    assert es[..0] == [];
    for n := 0 to |es|
      invariant c.Valid() && c.width == w && c.height == h && fresh(c)
      invariant fresh(c.d0) && fresh(c.u0) && fresh(c.v0) && fresh(c.d1) && fresh(c.u1) && fresh(c.v1)
      invariant c.Abs() == Run(es[..n], w, h)
    {
      assert es[..n + 1][..n] == es[..n];
      match es[n]
      case Redraw => c.RedrawHandler();
      case Motion(x, y, us, vs) => c.SmokeMotionHandler(x, y, us, vs);
    }
    assert es[..|es|] == es;
    MaximumPrinciple(es, w, h);
    density := c.d0[..];
  }
}
