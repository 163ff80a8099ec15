/**
 The buffer life cycle of weston/clients/simple-shm.c across resizes: buffers are allocated
 in pairs after each configure, mapped when first used, kept while the compositor holds them,
 and pruned once released with an outdated size.
 */
module ShmBuffers {
  import opened Options

  const MAX_BUFFER_ALLOC: nat := 2

  /** `cells` is the number of pixels mapped, once the buffer has been created. */
  datatype Buffer = Buffer(id: nat, width: nat, height: nat, busy: bool, cells: Option<nat>)

  datatype Window = Window(
    width: nat,
    height: nat,
    initWidth: nat,
    initHeight: nat,
    fullscreen: bool,
    maximized: bool,
    needsUpdate: bool,
    buffers: seq<Buffer>,
    nextId: nat)

  // ---------------------------------------------------------------- the list

  /** A buffer that the compositor has released and whose size is outdated. */
  predicate Outdated(b: Buffer, w: nat, h: nat) { !b.busy && (b.width != w || b.height != h) }

  function Prune(bs: seq<Buffer>, w: nat, h: nat): seq<Buffer> {
    if bs == [] then []
    else if Outdated(bs[0], w, h) then Prune(bs[1..], w, h)
    else [bs[0]] + Prune(bs[1..], w, h)
  }

  function Alloc(x: Window): Window {
    x.(buffers := [Buffer(x.nextId, x.width, x.height, false, None)] + x.buffers, nextId := x.nextId + 1)
  }

  function AllocTimes(x: Window, n: nat): Window { if n == 0 then x else Alloc(AllocTimes(x, n - 1)) }

  /** The first buffer not held by the compositor. */
  function Pick(bs: seq<Buffer>): (r: Option<nat>)
    ensures r.Some? ==> r.value < |bs| && !bs[r.value].busy && forall k | 0 <= k < r.value :: bs[k].busy
    ensures r.None? ==> forall k | 0 <= k < |bs| :: bs[k].busy
  {
    if bs == [] then None
    else if !bs[0].busy then Some(0)
    else match Pick(bs[1..]) case None => None case Some(i) => Some(i + 1)
  }

  function Release(bs: seq<Buffer>, id: nat): (r: seq<Buffer>)
    ensures |r| == |bs|
  {
    seq(|bs|, i requires 0 <= i < |bs| => if bs[i].id == id then bs[i].(busy := false) else bs[i])
  }

  // ---------------------------------------------------------------- handlers

  function Configure(x: Window, width: int, height: int, fullscreen: bool, maximized: bool): Window {
    var y := x.(fullscreen := fullscreen, maximized := maximized, needsUpdate := true);
    if width > 0 && height > 0 then
      var z := y.(width := width, height := height);
      if !fullscreen && !maximized then z.(initWidth := width, initHeight := height) else z
    else if !fullscreen && !maximized then y.(width := x.initWidth, height := x.initHeight)
    else y
  }

  /** A configure, by its fields: the size asked for, if it is a size; else, in a window that is
      neither fullscreen nor maximized, the size it had before it was; and the buffers as they
      are, to be renewed. */
  lemma ConfigureFields(x: Window, w: int, h: int, fullscreen: bool, maximized: bool, y: Window)
    requires y == Configure(x, w, h, fullscreen, maximized)
    ensures y.fullscreen == fullscreen && y.maximized == maximized && y.needsUpdate
    ensures y.buffers == x.buffers && y.nextId == x.nextId
    ensures w > 0 && h > 0 ==> y.width == w && y.height == h
    ensures w > 0 && h > 0 && !fullscreen && !maximized ==> y.initWidth == w && y.initHeight == h
    ensures !(w > 0 && h > 0 && !fullscreen && !maximized) ==>
              y.initWidth == x.initWidth && y.initHeight == x.initHeight
    ensures !(w > 0 && h > 0) && !fullscreen && !maximized ==> y.width == x.initWidth && y.height == x.initHeight
    ensures !(w > 0 && h > 0) && (fullscreen || maximized) ==> y.width == x.width && y.height == x.height
  {
  }

  /** A redraw, by its fields: two new buffers of the window's size come before the ones that are
      kept, if a configure has come; the first that is not held is mapped and handed over. */
  lemma RedrawFields(x: Window, mmapOk: bool, y: Window, c: Buffer) returns (i: nat)
    requires Redraw(x, mmapOk) == Some((y, c))
    ensures y.width == x.width && y.height == x.height && !y.needsUpdate
    ensures y.initWidth == x.initWidth && y.initHeight == x.initHeight
    ensures y.fullscreen == x.fullscreen && y.maximized == x.maximized
    ensures var kept := Prune(x.buffers, x.width, x.height);
            var offered := if x.needsUpdate
                           then [Buffer(x.nextId + 1, x.width, x.height, false, None),
                                 Buffer(x.nextId, x.width, x.height, false, None)] + kept
                           else kept;
            && i < |offered| && !offered[i].busy && (forall k | 0 <= k < i :: offered[k].busy)
            && c.id == offered[i].id && c.width == offered[i].width && c.height == offered[i].height && c.busy
            && c.cells == (if offered[i].cells.Some? then offered[i].cells else Some(x.width * x.height))
            && y.buffers == offered[i := c]
  {
    i := Pick(Offered(x).buffers).value;
    var p := x.(buffers := Prune(x.buffers, x.width, x.height));
    AllocTwice(p);
    assert Alloc(Alloc(p)).buffers
        == [Buffer(x.nextId + 1, x.width, x.height, false, None),
            Buffer(x.nextId, x.width, x.height, false, None)] + p.buffers;
  }

  /** The buffers offered to redraw. */
  function Offered(x: Window): Window {
    var p := x.(buffers := Prune(x.buffers, x.width, x.height));
    if p.needsUpdate then AllocTimes(p, MAX_BUFFER_ALLOC).(needsUpdate := false) else p
  }

  /** The buffer redraw paints, and the window after; None where the client aborts. */
  function Redraw(x: Window, mmapOk: bool): Option<(Window, Buffer)> {
    var y := Offered(x);
    match Pick(y.buffers)
    case None => None
    case Some(i) =>
      var b := y.buffers[i];
      if b.cells.None? && !mmapOk then None
      else
        var c := b.(busy := true, cells := if b.cells.Some? then b.cells else Some(y.width * y.height));
        Some((y.(buffers := y.buffers[i := c]), c))
  }

  datatype Event =
    | Configured(width: int, height: int, fullscreen: bool, maximized: bool)
    | Released(id: nat)
    | Redrawn(mmapOk: bool)

  function Handle(x: Window, e: Event): Option<Window> {
    match e
    case Configured(w, h, fullscreen, maximized) => Some(Configure(x, w, h, fullscreen, maximized))
    case Released(id) => Some(x.(buffers := Release(x.buffers, id)))
    case Redrawn(mmapOk) => match Redraw(x, mmapOk) case None => None case Some(r) => Some(r.0)
  }

  /** create_window, for a window of 256 by 256. */
  function Created(): Window {
    AllocTimes(Window(256, 256, 256, 256, false, false, false, [], 0), MAX_BUFFER_ALLOC)
  }

  /** The window after some events, unless the client has aborted. */
  function Run(es: seq<Event>): Option<Window> {
    if es == [] then Some(Created())
    else match Run(es[..|es| - 1])
      case None => None
      case Some(x) => Handle(x, es[|es| - 1])
  }

  lemma Ran(es: seq<Event>, e: Event, all: seq<Event>)
    requires all == es + [e] && Run(es).Some?
    ensures Run(all) == Handle(Run(es).value, e)
  {
    assert all[..|all| - 1] == es;
  }

  /** After an abort nothing runs any more. */
  lemma {:induction false} AbortStays(es: seq<Event>, n: nat, before: seq<Event>)
    requires n <= |es| && before == es[..n] && Run(before).None?
    ensures Run(es).None?
  {
    if n == |es| {
      assert before == es;
    } else {
      var most := es[..|es| - 1];
      assert most[..n] == before;
      AbortStays(most, n, before);
    }
  }

  // ---------------------------------------------------------------- the invariant

  predicate Sound(b: Buffer) {
    (b.busy ==> b.cells.Some?) && (b.cells.Some? ==> b.cells.value == b.width * b.height)
  }

  predicate AllSound(bs: seq<Buffer>) { forall i | 0 <= i < |bs| :: Sound(bs[i]) }

  predicate Distinct(bs: seq<Buffer>, next: nat) {
    (forall i | 0 <= i < |bs| :: bs[i].id < next) && (forall i, j | 0 <= i < j < |bs| :: bs[i].id != bs[j].id)
  }

  predicate Inv(x: Window) {
    && x.width > 0 && x.height > 0 && x.initWidth > 0 && x.initHeight > 0
    && AllSound(x.buffers) && Distinct(x.buffers, x.nextId)
  }

  /** What pruning keeps and what it drops, both exactly. */
  lemma {:induction false} PruneExact(bs: seq<Buffer>, w: nat, h: nat, b: Buffer)
    ensures b in Prune(bs, w, h) <==> b in bs && !Outdated(b, w, h)
  {
    if bs != [] {
      PruneExact(bs[1..], w, h, b);
      assert bs == [bs[0]] + bs[1..];
    }
  }

  /** Pruning decides buffer by buffer and keeps the order. */
  lemma {:induction false} PruneAppended(bs: seq<Buffer>, w: nat, h: nat, b: Buffer)
    ensures Prune(bs + [b], w, h)
         == Prune(bs, w, h) + if b.busy || (b.width == w && b.height == h) then [b] else []
  {
    if bs == [] {
      assert bs + [b] == [b] && [b][1..] == [];
    } else {
      PruneAppended(bs[1..], w, h, b);
      assert (bs + [b])[1..] == bs[1..] + [b];
    }
  }

  lemma FirstDiffers(bs: seq<Buffer>, next: nat, b: Buffer)
    requires Distinct(bs, next) && bs != [] && b in bs[1..]
    ensures b.id != bs[0].id && b.id < next
  {
    var k :| 0 <= k < |bs[1..]| && bs[1..][k] == b;
    assert bs[k + 1] == b;
  }

  lemma ConsDistinct(b: Buffer, rest: seq<Buffer>, next: nat)
    requires Distinct(rest, next) && b.id < next && forall j | 0 <= j < |rest| :: rest[j].id != b.id
    ensures Distinct([b] + rest, next)
  {
  }

  lemma TailDistinct(bs: seq<Buffer>, next: nat)
    requires Distinct(bs, next) && bs != []
    ensures Distinct(bs[1..], next)
  {
  }

  lemma {:induction false} PruneDistinct(bs: seq<Buffer>, w: nat, h: nat, next: nat)
    requires Distinct(bs, next)
    ensures Distinct(Prune(bs, w, h), next)
  {
    if bs != [] {
      TailDistinct(bs, next);
      PruneDistinct(bs[1..], w, h, next);
      var rest := Prune(bs[1..], w, h);
      forall j | 0 <= j < |rest| ensures rest[j].id != bs[0].id {
        PruneExact(bs[1..], w, h, rest[j]);
        FirstDiffers(bs, next, rest[j]);
      }
      ConsDistinct(bs[0], rest, next);
    }
  }

  lemma AllocInv(x: Window)
    requires Inv(x)
    ensures Inv(Alloc(x))
  {
    var bs := Alloc(x).buffers;
    assert forall i | 1 <= i < |bs| :: bs[i] == x.buffers[i - 1];
  }

  lemma AllocTwice(x: Window)
    ensures AllocTimes(x, MAX_BUFFER_ALLOC) == Alloc(Alloc(x))
  {
    assert AllocTimes(x, 1) == Alloc(AllocTimes(x, 0));
  }

  predicate NoneOutdated(bs: seq<Buffer>, w: nat, h: nat) { forall i | 0 <= i < |bs| :: !Outdated(bs[i], w, h) }

  lemma PruneInv(x: Window)
    requires Inv(x)
    ensures Inv(x.(buffers := Prune(x.buffers, x.width, x.height)))
    ensures NoneOutdated(Prune(x.buffers, x.width, x.height), x.width, x.height)
  {
    PruneDistinct(x.buffers, x.width, x.height, x.nextId);
    var bs := Prune(x.buffers, x.width, x.height);
    forall i | 0 <= i < |bs| ensures Sound(bs[i]) && !Outdated(bs[i], x.width, x.height) {
      PruneExact(x.buffers, x.width, x.height, bs[i]);
    }
  }

  /** Every buffer offered has the window's size, unless the compositor holds it. */
  lemma OfferedInv(x: Window)
    requires Inv(x)
    ensures Inv(Offered(x))
    ensures NoneOutdated(Offered(x).buffers, x.width, x.height)
    ensures Offered(x).width == x.width && Offered(x).height == x.height
  {
    PruneInv(x);
    var p := x.(buffers := Prune(x.buffers, x.width, x.height));
    AllocTwice(p);
    assert NoneOutdated(p.buffers, x.width, x.height);
    if p.needsUpdate {
      AllocInv(p);
      AllocInv(Alloc(p));
      var bs := Offered(x).buffers;
      assert bs == Alloc(Alloc(p)).buffers;
      forall i | 0 <= i < |bs| ensures !Outdated(bs[i], x.width, x.height) {
        if i >= 2 {
          assert bs[i] == p.buffers[i - 2] && !Outdated(p.buffers[i - 2], x.width, x.height);
        } else {
          assert bs[1] == Alloc(p).buffers[0] && bs[i].width == p.width && bs[i].height == p.height;
        }
      }
    }
  }

  lemma RedrawInv(x: Window, mmapOk: bool)
    requires Inv(x) && Redraw(x, mmapOk).Some?
    ensures Inv(Redraw(x, mmapOk).value.0)
    ensures var c := Redraw(x, mmapOk).value.1;
            c.width == x.width && c.height == x.height && c.cells == Some(x.width * x.height)
  {
    OfferedInv(x);
    var y := Offered(x);
    var i := Pick(y.buffers).value;
    assert Sound(y.buffers[i]) && !Outdated(y.buffers[i], x.width, x.height);
  }

  lemma CreatedInv()
    ensures Inv(Created())
  {
    var x := Window(256, 256, 256, 256, false, false, false, [], 0);
    AllocTwice(x);
    AllocInv(x);
    AllocInv(Alloc(x));
  }

  lemma ReleaseInv(bs: seq<Buffer>, id: nat, next: nat)
    requires AllSound(bs) && Distinct(bs, next)
    ensures AllSound(Release(bs, id)) && Distinct(Release(bs, id), next)
  {
  }

  lemma HandleInv(x: Window, e: Event)
    requires Inv(x)
    ensures Handle(x, e).Some? ==> Inv(Handle(x, e).value)
  {
    match e
    case Configured(_, _, _, _) =>
    case Released(id) => ReleaseInv(x.buffers, id, x.nextId);
    case Redrawn(mmapOk) => if Redraw(x, mmapOk).Some? { RedrawInv(x, mmapOk); }
  }

  lemma {:induction false} RunInv(es: seq<Event>)
    ensures Run(es).Some? ==> Inv(Run(es).value)
  {
    if es == [] {
      CreatedInv();
    } else {
      RunInv(es[..|es| - 1]);
      if Run(es[..|es| - 1]).Some? { HandleInv(Run(es[..|es| - 1]).value, es[|es| - 1]); }
    }
  }

  // ---------------------------------------------------------------- promises

  /** In every run of configures, releases and redraws, the buffer that redraw paints was
      mapped with exactly the current size of the window. */
  lemma ChosenFits(es: seq<Event>, mmapOk: bool)
    requires Run(es).Some? && Redraw(Run(es).value, mmapOk).Some?
    ensures var x := Run(es).value; var c := Redraw(x, mmapOk).value.1;
            c.width == x.width && c.height == x.height && c.cells == Some(x.width * x.height)
  {
    RunInv(es);
    RedrawInv(Run(es).value, mmapOk);
  }

  /** A held buffer is among those offered. */
  lemma HeldOffered(x: Window, b: Buffer)
    requires b in x.buffers && b.busy
    ensures b in Offered(x).buffers
  {
    var p := x.(buffers := Prune(x.buffers, x.width, x.height));
    PruneExact(x.buffers, x.width, x.height, b);
    if p.needsUpdate {
      AllocTwice(p);
      assert Offered(x).buffers[2..] == p.buffers;
    }
  }

  lemma HeldKept(y: Window, i: nat, c: Buffer, b: Buffer)
    requires Distinct(y.buffers, y.nextId) && i < |y.buffers| && !y.buffers[i].busy && c.id == y.buffers[i].id
    requires b in y.buffers && b.busy
    ensures b in y.buffers[i := c] && c.id != b.id
  {
    var k :| 0 <= k < |y.buffers| && y.buffers[k] == b;
    assert y.buffers[i := c][k] == b;
  }

  /** Redraw neither paints nor frees a buffer that the compositor holds. */
  lemma HeldUntouched(es: seq<Event>, mmapOk: bool, b: Buffer)
    requires Run(es).Some? && Redraw(Run(es).value, mmapOk).Some? && b in Run(es).value.buffers && b.busy
    ensures b in Redraw(Run(es).value, mmapOk).value.0.buffers && Redraw(Run(es).value, mmapOk).value.1.id != b.id
  {
    RunInv(es);
    var x := Run(es).value;
    HeldOffered(x, b);
    OfferedInv(x);
    HeldKept(Offered(x), Pick(Offered(x).buffers).value, Redraw(x, mmapOk).value.1, b);
  }

  predicate SameSize(b: Buffer, x: Window) { b.width == x.width && b.height == x.height }

  /** Whether the compositor holds every buffer of the window's current size. */
  predicate AllHeld(x: Window) {
    forall i | 0 <= i < |x.buffers| && SameSize(x.buffers[i], x) :: x.buffers[i].busy
  }

  /** With working mappings, redraw aborts if and only if the compositor holds every buffer of
      the current size and no configure has come since they were allocated. */
  lemma AbortsIf(x: Window)
    ensures Redraw(x, true).None? <==> !x.needsUpdate && AllHeld(x)
  {
    var bs := Prune(x.buffers, x.width, x.height);
    if x.needsUpdate {
      AllocTwice(x.(buffers := bs));
      assert !Offered(x).buffers[0].busy;
    } else {
      if AllHeld(x) {
        forall i | 0 <= i < |bs| ensures bs[i].busy { PruneExact(x.buffers, x.width, x.height, bs[i]); }
      } else {
        var i :| 0 <= i < |x.buffers| && SameSize(x.buffers[i], x) && !x.buffers[i].busy;
        PruneExact(x.buffers, x.width, x.height, x.buffers[i]);
      }
    }
  }
}
