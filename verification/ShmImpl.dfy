/**
 simple-shm as it runs: the loops over the buffer list, the mappings, and the painting loop
 that advances a pixel pointer.  Redraw is proved to choose the buffer that ShmBuffers.dfy
 chooses, so that painting stays inside its mapping.
 */
module ShmImpl {
  import opened Options
  import opened Cells
  import opened ShmBuffers

  // ---------------------------------------------------------------- painting

  /** Division as in C, towards zero. */
  function Half(n: int): int { if n >= 0 then n / 2 else -((-n) / 2) }
  function Square(n: int): (r: nat)
    ensures r == n * n
  {
    if n < 0 then (-n) * (-n) else n * n
  }
  function Abs(n: int): nat { if n < 0 then -n else n }

  /** The colour of a pixel: rings around the centre and a cross of transparent lines. */
  function Colour(x: nat, y: nat, padding: nat, width: nat, height: nat, time: nat): (v: nat)
    ensures v < 0x1_0000_0000
  {
    var halfh, halfw := padding + Half(height - padding * 2), padding + Half(width - padding * 2);
    var radius := (if halfw < halfh then halfw else halfh) - 8;
    var outer, inner := Square(radius), Square(radius - 32);
    var r2 := Square(x - halfw) + Square(y - halfh);
    var shade := if r2 < inner then r2 / 32 + time / 64
                 else if r2 < outer then y + time / 32
                 else x + time / 16;
    var v := (shade * 0x80401) % 0x100_0000;
    if Abs(x - y) > 6 && Abs(x + y - height) > 6 then v + 0xff00_0000 else v
  }

  /** The colours: three bands by the distance from the centre, each with its own shade, and
      opaque except near the two diagonals. */
  lemma ColourBands(x: nat, y: nat, width: nat, height: nat, time: nat, cx: int, cy: int, r: int, d: nat, shade: nat)
    requires width >= 40 && height >= 40
    requires cx == 20 + (width - 40) / 2 && cy == 20 + (height - 40) / 2 && r == (if cx < cy then cx else cy) - 8
    requires d == Square(x - cx) + Square(y - cy)
    requires shade == if d < Square(r - 32) then d / 32 + time / 64
                      else if d < Square(r) then y + time / 32
                      else x + time / 16
    ensures Colour(x, y, 20, width, height, time)
         == (shade * 0x80401) % 0x100_0000
            + if -6 <= x - y <= 6 || -6 <= x + y - height <= 6 then 0 else 0xff00_0000
  {
    assert Half(width - 40) == (width - 40) / 2 && Half(height - 40) == (height - 40) / 2;
    assert Abs(x - y) > 6 <==> !(-6 <= x - y <= 6);
    assert Abs(x + y - height) > 6 <==> !(-6 <= x + y - height <= 6);
  }

  /** The area inside the padding. */
  predicate Unpadded(x: nat, y: nat, padding: nat, width: nat, height: nat) {
    padding <= x && x + padding < width && padding <= y && y + padding < height
  }

  const INT_LIMIT: nat := 0x8000_0000

  lemma SquareMonotone(n: int, m: nat)
    requires Abs(n) <= m
    ensures Square(n) <= Square(m)
  {
    var k := Abs(n);
    assert k * k <= k * m <= m * m;
  }

  /** The radius of the outer ring; the inner one is 32 less. */
  function Radius(width: nat, height: nat): int {
    var halfh, halfw := 20 + Half(height - 40), 20 + Half(width - 40);
    (if halfw < halfh then halfw else halfh) - 8
  }

  /** Every int that paint_pixels computes fits: the offset of the first row, the squared radii,
      the square of each row it visits, and the sums of each pixel. */
  ghost predicate IntsFit(width: nat, height: nat) {
    && 20 * width < INT_LIMIT
    && Square(Radius(width, height)) < INT_LIMIT && Square(Radius(width, height) - 32) < INT_LIMIT
    && (forall y: nat :: RowFits(height, y))
    && (forall x: nat, y: nat :: PixelFits(width, height, x, y))
  }

  /** The row is not visited, or its squared distance fits. */
  predicate RowFits(height: nat, y: nat) {
    20 <= y && y + 20 < height ==> Square(y - (20 + Half(height - 40))) < INT_LIMIT
  }

  /** The pixel is not visited, or its sums fit. */
  predicate PixelFits(width: nat, height: nat, x: nat, y: nat) {
    Unpadded(x, y, 20, width, height) ==>
      && Square(x - (20 + Half(width - 40))) + Square(y - (20 + Half(height - 40))) < INT_LIMIT
      && x + y < INT_LIMIT
  }

  /** The test: the first row must fit, and in it the first pixel, where there is one. */
  predicate SizeFits(width: nat, height: nat) {
    && 20 * width < INT_LIMIT
    && (height > 40 ==> Square(Half(height - 40)) + (if width > 40 then Square(Half(width - 40)) else 0) < INT_LIMIT)
  }

  /** Half a side is less than 46341 where its square fits. */
  lemma SideFits(a: nat)
    requires Square(a) < INT_LIMIT
    ensures a < 46341
  {
    if a >= 46341 { SquareMonotone(46341, a); }
  }

  /** The lesser of two sides is less than 32768 where the sum of their squares fits. */
  lemma LesserFits(a: nat, b: nat)
    requires Square(a) + Square(b) < INT_LIMIT
    ensures a < 32768 || b < 32768
  {
    if a >= 32768 && b >= 32768 {
      SquareMonotone(32768, a);
      SquareMonotone(32768, b);
    }
  }

  /** Where the size fits, or one side is at most 40, the squared radii fit. */
  lemma RadiiFit(width: nat, height: nat)
    requires width <= 40 || height <= 40 || Square(Half(width - 40)) + Square(Half(height - 40)) < INT_LIMIT
    ensures Square(Radius(width, height)) < INT_LIMIT && Square(Radius(width, height) - 32) < INT_LIMIT
  {
    if width > 40 && height > 40 { LesserFits(Half(width - 40), Half(height - 40)); }
    var r := Radius(width, height);
    assert -8 <= r <= 32779;
    SquareMonotone(r, 32779);
    SquareMonotone(r - 32, 32779);
  }

  lemma EveryPixelFits(width: nat, height: nat, x: nat, y: nat)
    requires SizeFits(width, height)
    ensures PixelFits(width, height, x, y)
  {
    if Unpadded(x, y, 20, width, height) {
      var a, b := Half(width - 40), Half(height - 40);
      SquareMonotone(x - (20 + a), a);
      SquareMonotone(y - (20 + b), b);
      SideFits(a);
      SideFits(b);
    }
  }

  lemma EveryRowFits(width: nat, height: nat, y: nat)
    requires SizeFits(width, height)
    ensures RowFits(height, y)
  {
    if 20 <= y && y + 20 < height { SquareMonotone(y - (20 + Half(height - 40)), Half(height - 40)); }
  }

  /** paint_pixels overflows no int if and only if the size of the window passes the test. */
  lemma SquaresFit(width: nat, height: nat)
    ensures IntsFit(width, height) <==> SizeFits(width, height)
  {
    if SizeFits(width, height) {
      RadiiFit(width, height);
      forall y: nat ensures RowFits(height, y) { EveryRowFits(width, height, y); }
      forall x: nat, y: nat ensures PixelFits(width, height, x, y) { EveryPixelFits(width, height, x, y); }
    } else if 20 * width < INT_LIMIT {
      FirstPixel(width, height);
      assert !RowFits(height, 20) || !PixelFits(width, height, 20, 20);
    }
  }

  /** The first row and its first pixel are the ones farthest from the centre. */
  lemma FirstPixel(width: nat, height: nat)
    requires height > 40
    ensures Square(20 - (20 + Half(height - 40))) == Square(Half(height - 40))
    ensures width > 40 ==>
              Unpadded(20, 20, 20, width, height) && Square(20 - (20 + Half(width - 40))) == Square(Half(width - 40))
  {
  }

  /** A window of 100000 by 5000, or one of 40 by 200000 where no pixel is painted, has a buffer
      of less than 2^31 bytes, and ints that do not fit. */
  lemma SquaresOverflow()
    ensures 4 * 100000 * 5000 < INT_LIMIT && !IntsFit(100000, 5000)
    ensures 4 * 40 * 200000 < INT_LIMIT && !IntsFit(40, 200000)
  {
    SquaresFit(100000, 5000);
    SquaresFit(40, 200000);
  }

  /** What a pixel shows once it has been painted, or before. */
  function Shown(painted: bool, x: nat, y: nat, padding: nat, width: nat, height: nat, time: nat, before: nat): nat {
    if painted && Unpadded(x, y, padding, width, height) then Colour(x, y, padding, width, height, time) else before
  }

  /** Whether the loops have passed a pixel on their way to column x of row y. */
  predicate Passed(x': nat, y': nat, x: int, y: int) { y' < y || (y' == y && x' < x) }

  /** On their way to column x of row y, the loops have painted what they passed and nothing else. */
  ghost predicate Painted(s: seq<nat>, was: seq<nat>, padding: nat, width: nat, height: nat, time: nat,
                          x: nat, y: nat)
  {
    && |s| == |was| == width * height
    && forall x': nat, y': nat | x' < width && y' < height ::
         s[Cell(width, height, x', y')]
         == Shown(Passed(x', y', x, y), x', y', padding, width, height, time, was[Cell(width, height, x', y')])
  }

  lemma PaintOne(s: seq<nat>, was: seq<nat>, padding: nat, width: nat, height: nat, time: nat, x: nat, y: nat)
    requires Painted(s, was, padding, width, height, time, x, y) && Unpadded(x, y, padding, width, height)
    ensures Painted(s[Cell(width, height, x, y) := Colour(x, y, padding, width, height, time)], was,
                    padding, width, height, time, x + 1, y)
  {
    var k := Cell(width, height, x, y);
    var t := s[k := Colour(x, y, padding, width, height, time)];
    forall x': nat, y': nat | x' < width && y' < height
      ensures t[Cell(width, height, x', y')]
           == Shown(Passed(x', y', x + 1, y), x', y', padding, width, height, time, was[Cell(width, height, x', y')])
    {
      if x' != x || y' != y { CellUnique(width, height, x, y, x', y'); }
    }
  }

  /** A row is passed once the column is in its right padding. */
  lemma NextRow(s: seq<nat>, was: seq<nat>, padding: nat, width: nat, height: nat, time: nat, x: nat, y: nat)
    requires Painted(s, was, padding, width, height, time, x, y) && padding <= x && width <= x + padding
    ensures Painted(s, was, padding, width, height, time, padding, y + 1)
  {
  }

  lemma RowAfter(width: nat, y: nat)
    ensures (y + 1) * width == y * width + width
  {
  }

  /** The inner loop of paint_pixels, with the pointer at the first pixel inside the padding. */
  method PaintRow(image: array<nat>, ghost was: seq<nat>, padding: nat, width: nat, height: nat, time: nat,
                  y: nat, pixel: int, ghost row: nat) returns (end: int)
    requires image.Length == width * height && padding <= y && y + padding < height && row == y * width
    requires width >= 2 * padding ==> pixel == row + padding
    requires Painted(image[..], was, padding, width, height, time, padding, y)
    modifies image
    ensures Painted(image[..], was, padding, width, height, time, padding, y + 1)
    ensures width >= 2 * padding ==> end + padding == row + width
  {
    end := pixel;
    var x := padding;
    while x < width - padding
      invariant padding <= x && (width >= 2 * padding ==> x <= width - padding && end == row + x)
      invariant Painted(image[..], was, padding, width, height, time, x, y)
    {
      assert end == Cell(width, height, x, y);
      PaintOne(image[..], was, padding, width, height, time, x, y);
      image[end] := Colour(x, y, padding, width, height, time);
      end := end + 1;
      x := x + 1;
    }
    NextRow(image[..], was, padding, width, height, time, x, y);
  }

  /** paint_pixels: exactly the pixels inside the padding are written, each with its colour. */
  method PaintPixels(image: array<nat>, padding: nat, width: nat, height: nat, time: nat)
    requires image.Length == width * height
    modifies image
    ensures forall x: nat, y: nat | x < width && y < height ::
              image[Cell(width, height, x, y)]
              == Shown(true, x, y, padding, width, height, time, old(image[Cell(width, height, x, y)]))
  {
    ghost var was, row: nat := image[..], padding * width;
    var pixel := padding * width;
    var y := padding;
    while y < height - padding
      invariant padding <= y && row == y * width
      invariant width >= 2 * padding ==> pixel == row
      invariant Painted(image[..], was, padding, width, height, time, padding, y)
    {
      pixel := PaintRow(image, was, padding, width, height, time, y, pixel + padding, row);
      RowAfter(width, y);
      pixel := pixel + padding;
      row := row + width;
      y := y + 1;
    }
    AllPainted(image[..], was, padding, width, height, time, y);
  }

  lemma AllPainted(s: seq<nat>, was: seq<nat>, padding: nat, width: nat, height: nat, time: nat, y: nat)
    requires Painted(s, was, padding, width, height, time, padding, y) && height <= y + padding
    ensures forall x': nat, y': nat | x' < width && y' < height ::
              s[Cell(width, height, x', y')]
              == Shown(true, x', y', padding, width, height, time, was[Cell(width, height, x', y')])
  {
  }

  // ---------------------------------------------------------------- the window

  class ShmWindow {
    var width: nat
    var height: nat
    var initWidth: nat
    var initHeight: nat
    var fullscreen: bool
    var maximized: bool
    var needsUpdateBuffer: bool
    var bufferList: seq<Buffer>
    var nextId: nat
    // the mappings, by buffer
    var images: map<nat, array<nat>>

    ghost predicate Valid()
      reads this
    {
      forall b | b in bufferList && b.cells.Some? :: b.id in images && images[b.id].Length == b.cells.value
    }

    ghost function Abstract(): Window
      reads this
    {
      Window(width, height, initWidth, initHeight, fullscreen, maximized, needsUpdateBuffer, bufferList, nextId)
    }

    ghost function Images(): set<array<nat>>
      reads this
    {
      set id | id in images :: images[id]
    }

    constructor ()
      ensures Valid() && Abstract() == Created() && images == map[]
      ensures width == height == initWidth == initHeight == 256 && !fullscreen && !maximized && !needsUpdateBuffer
      ensures bufferList == [Buffer(1, 256, 256, false, None), Buffer(0, 256, 256, false, None)]
    {
      width, height, initWidth, initHeight := 256, 256, 256, 256;
      fullscreen, maximized, needsUpdateBuffer := false, false, false;
      bufferList, nextId, images := [], 0, map[];
      new;
      AllocBuffers();
    }

    method AllocBuffer()
      requires Valid()
      modifies this`bufferList, this`nextId
      ensures Valid() && Abstract() == Alloc(old(Abstract()))
    {
      ghost var was := bufferList;
      bufferList := [Buffer(nextId, width, height, false, None)] + bufferList;
      nextId := nextId + 1;
      assert forall i | 1 <= i < |bufferList| :: bufferList[i] == was[i - 1];
    }

    method AllocBuffers()
      requires Valid()
      modifies this`bufferList, this`nextId
      ensures Valid() && Abstract() == AllocTimes(old(Abstract()), MAX_BUFFER_ALLOC)
    {
      for i := 0 to MAX_BUFFER_ALLOC
        invariant Valid() && Abstract() == AllocTimes(old(Abstract()), i)
      {
        AllocBuffer();
      }
    }

    method PruneOldReleasedBuffers()
      requires Valid()
      modifies this`bufferList
      ensures Valid() && bufferList == Prune(old(bufferList), width, height)
    {
      var i := 0;
      ghost var kept, rest := [], bufferList;
      while i < |bufferList|
        invariant i == |kept| && bufferList == kept + rest && Valid()
        invariant kept + Prune(rest, width, height) == Prune(old(bufferList), width, height)
        decreases |rest|
      {
        var b := bufferList[i];
        assert b == rest[0];
        if !b.busy && (b.width != width || b.height != height) {
          Removed(kept, rest, bufferList);
          bufferList := bufferList[..i] + bufferList[i + 1..];
        } else {
          assert kept + ([b] + Prune(rest[1..], width, height)) == kept + [b] + Prune(rest[1..], width, height);
          kept := kept + [b];
          i := i + 1;
        }
        rest := rest[1..];
      }
    }

    /** Taking one buffer out of the list leaves the others as they were. */
    lemma Removed(kept: seq<Buffer>, rest: seq<Buffer>, was: seq<Buffer>)
      requires rest != [] && was == kept + rest
      ensures was[..|kept|] + was[|kept| + 1..] == kept + rest[1..]
      ensures forall b | b in kept + rest[1..] :: b in was
    {
    }

    method PickFreeBuffer() returns (r: Option<nat>)
      ensures r == Pick(bufferList)
    {
      var i := 0;
      while i < |bufferList|
        invariant 0 <= i <= |bufferList| && forall k | 0 <= k < i :: bufferList[k].busy
      {
        if !bufferList[i].busy {
          return Some(i);
        }
        i := i + 1;
      }
      return None;
    }

    method BufferRelease(id: nat)
      requires Valid()
      modifies this`bufferList
      ensures Valid() && bufferList == Release(old(bufferList), id)
      ensures |bufferList| == |old(bufferList)|
      ensures forall k | 0 <= k < |bufferList| ::
                var b := old(bufferList)[k]; bufferList[k] == if b.id == id then b.(busy := false) else b
    {
      var i := 0;
      ghost var was := bufferList;
      while i < |bufferList|
        invariant 0 <= i <= |bufferList| == |was|
        invariant forall k | 0 <= k < |was| :: bufferList[k] == if k < i then Release(was, id)[k] else was[k]
      {
        if bufferList[i].id == id {
          bufferList := bufferList[i := bufferList[i].(busy := false)];
        }
        i := i + 1;
      }
    }

    method HandleConfigure(w: int, h: int, full: bool, max: bool)
      requires Valid()
      modifies this`width, this`height, this`initWidth, this`initHeight
      modifies this`fullscreen, this`maximized, this`needsUpdateBuffer
      ensures Valid() && Abstract() == Configure(old(Abstract()), w, h, full, max)
      ensures fullscreen == full && maximized == max && needsUpdateBuffer
      ensures w > 0 && h > 0 ==> width == w && height == h
      ensures w > 0 && h > 0 && !full && !max ==> initWidth == w && initHeight == h
      ensures (w <= 0 || h <= 0 || full || max) ==> initWidth == old(initWidth) && initHeight == old(initHeight)
      ensures (w <= 0 || h <= 0) && !full && !max ==> width == old(initWidth) && height == old(initHeight)
      ensures (w <= 0 || h <= 0) && (full || max) ==> width == old(width) && height == old(height)
    {
      fullscreen, maximized := full, max;
      if w > 0 && h > 0 {
        if !fullscreen && !maximized {
          initWidth, initHeight := w, h;
        }
        width, height := w, h;
      } else if !fullscreen && !maximized {
        width, height := initWidth, initHeight;
      }
      needsUpdateBuffer := true;
    }

    /** prune_old_released_buffers and the allocation in window_next_buffer. */
    method OfferBuffers()
      requires Valid()
      modifies this`bufferList, this`nextId, this`needsUpdateBuffer
      ensures Valid() && Abstract() == Offered(old(Abstract()))
    {
      PruneOldReleasedBuffers();
      if needsUpdateBuffer {
        AllocBuffers();
        needsUpdateBuffer := false;
      }
    }

    /** create_shm_buffer: map the buffer, all padding. */
    method CreateShmBuffer(i: nat)
      requires Valid() && i < |bufferList| && Distinct(bufferList, nextId) && bufferList[i].cells.None?
      modifies this`bufferList, this`images
      ensures Valid()
      ensures bufferList == old(bufferList)[i := old(bufferList[i]).(cells := Some(width * height))]
      ensures bufferList[i].id in images && fresh(images[bufferList[i].id])
      ensures images[bufferList[i].id].Length == width * height
      ensures forall id | id in images && id != bufferList[i].id :: id in old(images) && images[id] == old(images[id])
      ensures fresh(Images() - old(Images()))
    {
      var data := new nat[width * height](_ => 0xffff_ffff);
      var b := bufferList[i];
      images := images[b.id := data];
      bufferList := bufferList[i := b.(cells := Some(width * height))];
    }

    /** window_next_buffer: the first free buffer, mapped if it was not. */
    method NextBuffer(mmapOk: bool) returns (r: Option<nat>)
      requires Valid() && Inv(Abstract())
      modifies this`bufferList, this`nextId, this`needsUpdateBuffer, this`images
      ensures Valid() && fresh(Images() - old(Images()))
      ensures var y := Offered(old(Abstract()));
              match Pick(y.buffers)
              case None => r.None?
              case Some(i) =>
                var b := y.buffers[i];
                if b.cells.None? && !mmapOk then r.None?
                else
                  && r == Some(i)
                  && Abstract() == y.(buffers := y.buffers[i := b.(cells := Some(width * height))])
                  && b.id in images && images[b.id].Length == width * height
                  && ((b.id in old(images) && images[b.id] == old(images[b.id])) || fresh(images[b.id]))
    {
      Fits(Abstract());
      OfferBuffers();
      r := PickFreeBuffer();
      if r.None? {
        return;
      }
      var i := r.value;
      if bufferList[i].cells.None? {
        if !mmapOk {
          return None;
        }
        CreateShmBuffer(i);
      } else {
        assert bufferList == bufferList[i := bufferList[i].(cells := Some(width * height))];
        assert bufferList[i] in bufferList;
      }
    }

    /** redraw.  If it does not abort, it paints the buffer that ShmBuffers.Redraw chooses: a
        mapping of exactly the current size, with every pixel inside the padding painted. */
    method RedrawWindow(time: nat, mmapOk: bool) returns (aborted: bool, chosen: Option<Buffer>)
      requires Valid() && Inv(Abstract())
      modifies this, Images()
      ensures Valid() && fresh(Images() - old(Images()))
      ensures aborted <==> Redraw(old(Abstract()), mmapOk).None?
      ensures !aborted ==> chosen.Some? && Redraw(old(Abstract()), mmapOk) == Some((Abstract(), chosen.value))
      ensures !aborted ==> chosen.value.id in images && images[chosen.value.id].Length == width * height
      ensures !aborted ==> forall x: nat, y: nat | x < width && y < height && Unpadded(x, y, 20, width, height) ::
                images[chosen.value.id][Cell(width, height, x, y)] == Colour(x, y, 20, width, height, time)
    {
      ghost var x := Abstract();
      var next := NextBuffer(mmapOk);
      if next.None? {
        return true, None;
      }
      var i := next.value;
      ghost var y := Offered(x);
      var b := bufferList[i].(busy := true);
      PaintPixels(images[b.id], 20, width, height, time);
      bufferList := bufferList[i := b];
      assert bufferList == y.buffers[i := b];
      Marked(x, mmapOk, i, y, b);
      return false, Some(b);
    }

    /** One event of the client's loop. */
    method Dispatch(e: Event, time: nat) returns (aborted: bool)
      requires Valid() && Inv(Abstract())
      modifies this, Images()
      ensures Valid() && fresh(Images() - old(Images()))
      ensures aborted <==> Handle(old(Abstract()), e).None?
      ensures !aborted ==> Handle(old(Abstract()), e) == Some(Abstract())
    {
      match e
      case Configured(w, h, full, max) => HandleConfigure(w, h, full, max); return false;
      case Released(id) => BufferRelease(id); return false;
      case Redrawn(mmapOk) =>
        var failed, _ := RedrawWindow(time, mmapOk);
        return failed;
    }

    /** Redraw takes the picked buffer, mapped with the window's size and busy. */
    lemma Marked(x: Window, mmapOk: bool, i: nat, y: Window, b: Buffer)
      requires Inv(x) && y == Offered(x) && Pick(y.buffers) == Some(i) && (y.buffers[i].cells.Some? || mmapOk)
      requires b == y.buffers[i].(cells := Some(y.width * y.height), busy := true)
      ensures Redraw(x, mmapOk) == Some((y.(buffers := y.buffers[i := b]), b))
    {
      Fits(x);
    }

    /** A free buffer that is mapped already has the size of the window. */
    lemma Fits(x: Window)
      requires Inv(x)
      ensures var y := Offered(x);
              Pick(y.buffers).Some? && y.buffers[Pick(y.buffers).value].cells.Some? ==>
                y.buffers[Pick(y.buffers).value].cells == Some(y.width * y.height)
      ensures Distinct(Offered(x).buffers, Offered(x).nextId)
    {
      OfferedInv(x);
      var y := Offered(x);
      if Pick(y.buffers).Some? {
        var b := y.buffers[Pick(y.buffers).value];
        assert Sound(b) && !Outdated(b, x.width, x.height);
      }
    }
  }

  /** A whole run of the client: it aborts exactly where ShmBuffers.Run does, and otherwise
      ends with the window of that run. */
  method Session(es: seq<Event>, times: seq<nat>) returns (aborted: bool, w: ShmWindow)
    requires |times| == |es|
    ensures aborted <==> Run(es).None?
    ensures !aborted ==> Run(es) == Some(w.Abstract())
  {
    w := new ShmWindow();
    assert es[..0] == [];
    for i := 0 to |es|
      invariant fresh(w) && fresh(w.Images()) && w.Valid() && Run(es[..i]) == Some(w.Abstract())
    {
      RunInv(es[..i]);
      Ran(es[..i], es[i], es[..i + 1]);
      var failed := w.Dispatch(es[i], times[i]);
      if failed {
        AbortStays(es, i + 1, es[..i + 1]);
        return true, w;
      }
    }
    assert es[..|es|] == es;
    return false, w;
  }
}
