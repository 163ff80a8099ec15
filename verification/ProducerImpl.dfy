/**
 libdisplay_producer as it runs: a context updated in place, with a fixed array of buffer
 descriptors, close loops and a poll loop.  Every method is proved to compute the function
 of the same purpose in ProducerLibrary.dfy.
 */
module ProducerImpl {
  import opened Messages
  import opened Descriptors
  import opened ProducerLibrary

  class ProducerContext {
    var dataFd: Slot
    var bufReadyEfd: Slot
    var refreshDoneEfd: Slot
    var shmFd: Slot
    var shmMapped: bool
    var fallback: bool
    var asyncPending: bool
    const dmabufFds: array<Slot>
    const dmabufInfos: array<nat>
    var bufCount: nat
    // what the kernel has seen
    var closed: Closes

    ghost predicate Valid()
      reads this, dmabufFds
    {
      && dmabufFds.Length == MAX_BUFS && dmabufInfos.Length == MAX_BUFS
      && bufCount <= MAX_BUFS
      && forall i | 0 <= i < bufCount :: dmabufFds[i].Open?
    }

    /** The first `n` buffer descriptors. */
    ghost function Table(n: nat): seq<Fd>
      requires n <= dmabufFds.Length && forall i | 0 <= i < n :: dmabufFds[i].Open?
      reads dmabufFds
    {
      seq(n, i requires 0 <= i < n reads dmabufFds
               requires n <= dmabufFds.Length && forall k | 0 <= k < n :: dmabufFds[k].Open?
             => dmabufFds[i].fd)
    }

    ghost function Abs(): Ctx
      requires Valid()
      reads this, dmabufFds, dmabufInfos
    {
      Ctx(fallback, asyncPending, bufReadyEfd, refreshDoneEfd, dataFd, shmFd, shmMapped,
          Table(bufCount), dmabufInfos[..bufCount], closed)
    }

    constructor ()
      ensures Valid() && fresh(dmabufFds) && fresh(dmabufInfos) && Abs() == Fresh()
    {
      dataFd, bufReadyEfd, refreshDoneEfd, shmFd := Shut, Shut, Shut, Shut;
      shmMapped, fallback, asyncPending := false, true, false;
      dmabufFds := new Slot[MAX_BUFS](_ => Shut);
      dmabufInfos := new nat[MAX_BUFS];
      bufCount := 0;
      closed := NoCloses;
    }

    /** The loop over the buffer descriptors: each is closed and set to -1. */
    method CloseBuffers()
      requires Valid()
      modifies this`closed, this`bufCount, dmabufFds
      ensures Valid() && bufCount == 0
      ensures Abs() == old(Abs()).(table := [], infos := [], closed := AndClosed(old(closed), old(Abs()).table))
    {
      closed := AndClosed(closed, []);
      for i := 0 to bufCount
        invariant bufCount == old(bufCount) && dmabufFds.Length == MAX_BUFS
        invariant forall k | i <= k < bufCount :: dmabufFds[k] == old(dmabufFds[k])
        invariant closed == AndClosed(old(closed), old(Abs()).table[..i])
      {
        if dmabufFds[i].Open? {
          closed := CloseOne(closed, dmabufFds[i].fd);
          dmabufFds[i] := Shut;
        }
      }
      assert old(Abs()).table[..bufCount] == old(Abs()).table;
      bufCount := 0;
      assert Table(bufCount) == [] && dmabufInfos[..bufCount] == [];
    }

    method EnterFallback()
      requires Valid()
      modifies this`fallback, this`closed, this`bufCount, this`dataFd, this`bufReadyEfd, this`refreshDoneEfd
      modifies this`shmFd, this`shmMapped, dmabufFds
      ensures Valid() && Abs() == ProducerLibrary.EnterFallback(old(Abs()))
      ensures old(fallback) ==> Abs() == old(Abs())
      ensures fallback && asyncPending == old(asyncPending)
      ensures !old(fallback) ==>
                && bufCount == 0 && !shmMapped
                && dataFd.Shut? && bufReadyEfd.Shut? && refreshDoneEfd.Shut? && shmFd.Shut?
    {
      if fallback {
        return;
      }
      fallback := true;
      CloseBuffers();
      closed, dataFd := CloseSlot(closed, dataFd), Shut;
      closed, bufReadyEfd := CloseSlot(closed, bufReadyEfd), Shut;
      closed, refreshDoneEfd := CloseSlot(closed, refreshDoneEfd), Shut;
      shmMapped := false;
      closed, shmFd := CloseSlot(closed, shmFd), Shut;
      assert Table(bufCount) == [] && dmabufInfos[..bufCount] == [];
    }

    /** pickup_fds: ask the daemon, take over the four descriptors, map the shared word. */
    method PickupFds(r: Reply, mmapOk: bool) returns (ok: bool)
      requires Valid()
      modifies this`fallback, this`dataFd, this`bufReadyEfd, this`refreshDoneEfd, this`shmFd, this`shmMapped
      ensures Valid() && Abs() == ProducerLibrary.PickupFds(old(Abs()), r, mmapOk)
      ensures ok == (Accepted(r) && mmapOk)
      ensures if TakesOver(r)
              then && bufReadyEfd == Open(r.fds[0]) && refreshDoneEfd == Open(r.fds[1])
                   && dataFd == Open(r.fds[2]) && shmFd == Open(r.fds[3])
                   && shmMapped == mmapOk && fallback == (old(fallback) && !mmapOk)
              else Abs() == old(Abs())
    {
      if r.Silent? || r.kind != FDS_READY || |r.fds| < 4 {
        return false;
      }
      bufReadyEfd := Open(r.fds[0]);
      refreshDoneEfd := Open(r.fds[1]);
      dataFd := Open(r.fds[2]);
      shmFd := Open(r.fds[3]);
      shmMapped := mmapOk;
      if !mmapOk {
        return false;
      }
      fallback := false;
      return true;
    }

    method TryReconnect(r: Reply, mmapOk: bool) returns (ok: bool)
      requires Valid()
      modifies this`fallback, this`dataFd, this`bufReadyEfd, this`refreshDoneEfd, this`shmFd, this`shmMapped
      modifies this`bufCount
      ensures Valid() && Abs() == ProducerLibrary.TryReconnect(old(Abs()), r, mmapOk)
      ensures ok == (!old(fallback) || (Accepted(r) && mmapOk))
      ensures !old(fallback) || !TakesOver(r) ==> Abs() == old(Abs())
      ensures old(fallback) && TakesOver(r) ==>
                && bufReadyEfd == Open(r.fds[0]) && refreshDoneEfd == Open(r.fds[1])
                && dataFd == Open(r.fds[2]) && shmFd == Open(r.fds[3])
                && shmMapped == mmapOk && fallback == !mmapOk
                && bufCount == if mmapOk then 0 else old(bufCount)
    {
      if !fallback {
        return true;
      }
      ok := PickupFds(r, mmapOk);
      if ok {
        bufCount := 0;
      }
    }

    /** The copy of received descriptors and layouts into the context. */
    method StoreBuffers(fds: BufFds, infos: seq<nat>)
      requires Valid() && |infos| == |fds|
      modifies this`bufCount, dmabufFds, dmabufInfos
      ensures Valid() && Abs() == old(Abs()).(table := fds, infos := infos)
    {
      for i := 0 to |fds|
        invariant dmabufFds.Length == MAX_BUFS && dmabufInfos.Length == MAX_BUFS
        invariant forall k | 0 <= k < i :: dmabufFds[k] == Open(fds[k]) && dmabufInfos[k] == infos[k]
      {
        dmabufFds[i] := Open(fds[i]);
        dmabufInfos[i] := infos[i];
      }
      bufCount := |fds|;
      assert Table(bufCount) == fds && dmabufInfos[..bufCount] == infos;
    }

    method CloseReceived(fds: BufFds)
      requires Valid()
      modifies this`closed
      ensures Valid() && Abs() == old(Abs()).(closed := AndClosed(old(closed), fds))
    {
      closed := AndClosed(closed, []);
      for i := 0 to |fds|
        invariant Valid() && closed == AndClosed(old(closed), fds[..i])
      {
        closed := CloseOne(closed, fds[i]);
      }
      assert fds[..|fds|] == fds;
    }

    method ReceiveDmabufs(m: DataMsg) returns (ok: bool)
      requires Valid()
      modifies this, dmabufFds, dmabufInfos
      ensures Valid() && Abs() == ProducerLibrary.ReceiveDmabufs(old(Abs()), m)
      ensures ok == (old(bufCount) > 0 || GoodList(m))
      ensures old(bufCount) > 0 ==> Abs() == old(Abs())
      ensures old(bufCount) == 0 && GoodList(m) ==>
                && Abs() == old(Abs()).(table := m.fds, infos := m.payload.infos) && fallback == old(fallback)
      ensures old(bufCount) == 0 && ListedOtherwise(m) ==>
                Abs() == old(Abs()).(closed := AndClosed(old(closed), m.fds))
      ensures old(bufCount) == 0 && !GoodList(m) && !ListedOtherwise(m) ==> fallback && bufCount == 0
    {
      if bufCount > 0 {
        return true;
      }
      if m.Eof? || !m.whole || |m.fds| < 1 {
        EnterFallback();
        return false;
      }
      if m.kind != BUFS_READY {
        CloseReceived(m.fds);
        return false;
      }
      var count := m.size / BUF_INFO_SIZE;
      if count != |m.fds| || count > MAX_BUFS {
        CloseReceived(m.fds);
        return false;
      }
      if m.payload.NoLayouts? || |m.payload.infos| != count {
        CloseReceived(m.fds);
        EnterFallback();
        return false;
      }
      StoreBuffers(m.fds, m.payload.infos);
      return true;
    }

    /** The poll loop: interrupted and timed-out polls and reports of anything but a token or
        a hang-up are polled again. */
    method AwaitBuffer(polls: seq<Poll>) returns (out: Outcome)
      ensures out == Decide(polls)
      ensures out.Token? <==> exists i: nat :: FirstAt(polls, i) && polls[i] == Woken(true, false)
      ensures out.Broke? <==> exists i: nat :: FirstAt(polls, i) && (polls[i].Failed? || polls[i].hup)
      ensures out.Waiting? <==> forall j | 0 <= j < |polls| :: Idle(polls[j])
    {
      var i := 0;
      while i < |polls|
        invariant 0 <= i <= |polls| && Decide(polls) == Decide(polls[i..])
        invariant forall j | 0 <= j < i :: Idle(polls[j])
      {
        var p := polls[i];
        assert polls[i..][0] == p && polls[i..][1..] == polls[i + 1..];
        i := i + 1;
        if p.Failed? {
          assert FirstAt(polls, i - 1);
          return Broke;
        }
        if p.Interrupted? || p.Quiet? {
          continue;
        }
        if p.hup {
          assert FirstAt(polls, i - 1);
          return Broke;
        }
        if p.token {
          assert FirstAt(polls, i - 1);
          return Token;
        }
      }
      return Waiting;
    }

    /** wait_buffer_async_result; `out` says how the call ended. */
    method WaitBufferAsyncResult(r: Reply, mmapOk: bool, polls: seq<Poll>, m: DataMsg) returns (ok: bool)
      requires Valid()
      modifies this, dmabufFds, dmabufInfos
      ensures Valid() && Abs() == WaitBufferResult(old(Abs()), r, mmapOk, polls, m)
      ensures ok <==> !old(fallback) && old(asyncPending) && Arrives(polls) && (old(bufCount) > 0 || GoodList(m))
      ensures old(fallback) ==> !asyncPending && bufCount == old(bufCount)
      ensures old(fallback) ==> (fallback <==> !(TakesOver(r) && mmapOk))
      ensures !old(fallback) && !old(asyncPending) ==> Abs() == old(Abs())
      ensures !old(fallback) && old(asyncPending) && (forall j | 0 <= j < |polls| :: Idle(polls[j])) ==>
                Abs() == old(Abs())
      ensures !old(fallback) && old(asyncPending) && Ends(polls) ==> fallback && bufCount == 0 && !asyncPending
      ensures !old(fallback) && old(asyncPending) && Arrives(polls) ==> !asyncPending
      ensures !old(fallback) && old(asyncPending) && Arrives(polls) && old(bufCount) > 0 ==>
                !fallback && Abs().table == old(Abs()).table
      ensures !old(fallback) && old(asyncPending) && Arrives(polls) && old(bufCount) == 0 && GoodList(m) ==>
                !fallback && Abs().table == m.fds && Abs().infos == m.payload.infos
      ensures !old(fallback) && old(asyncPending) && Arrives(polls) && old(bufCount) == 0 && !GoodList(m) ==>
                bufCount == 0 && (fallback <==> !ListedOtherwise(m))
    {
      if fallback {
        asyncPending := false;
        var picked := PickupFds(r, mmapOk);
        if !picked {
          return false;
        }
      }
      if !asyncPending {
        return false;
      }
      var out := AwaitBuffer(polls);
      if out.Waiting? {
        return false;
      }
      if out.Broke? {
        EnterFallback();
        asyncPending := false;
        return false;
      }
      ok := ReceiveDmabufs(m);
      asyncPending := false;
    }

    /** disconnect: everything still held is closed. */
    method Disconnect()
      requires Valid()
      modifies this`closed
      ensures closed == CloseAll(old(Abs()))
    {
      closed := AndClosed(closed, []);
      for i := 0 to bufCount
        invariant closed == AndClosed(old(closed), Table(bufCount)[..i])
      {
        if dmabufFds[i].Open? {
          closed := CloseOne(closed, dmabufFds[i].fd);
        }
      }
      assert Table(bufCount)[..bufCount] == Table(bufCount);
      closed := CloseSlot(closed, dataFd);
      closed := CloseSlot(closed, bufReadyEfd);
      closed := CloseSlot(closed, refreshDoneEfd);
      closed := CloseSlot(closed, shmFd);
    }

    /** get_selected_idx, for the value read from the shared word. */
    function GetSelectedIdx(word: nat): (idx: nat)
      reads this
      ensures if shmMapped && word < bufCount then idx == word else idx == 0
    {
      if !shmMapped then 0 else if word < bufCount then word else 0
    }

    /** get_dmabuf_fd: the descriptor selected by the shared word; -1 without buffers. */
    method GetDmabufFd(word: nat) returns (fd: Slot)
      requires Valid()
      ensures var t := Abs().table;
              fd == if t == [] then Shut else Open(t[if shmMapped && word < |t| then word else 0])
    {
      var idx := GetSelectedIdx(word);
      if idx >= bufCount {
        return Shut;
      }
      return dmabufFds[idx];
    }

    /** One call of the library. */
    method Call(call: Call)
      requires Valid()
      modifies this, dmabufFds, dmabufInfos
      ensures Valid() && Abs() == Perform(old(Abs()), call)
      ensures call.WaitAsync? ==> asyncPending && fallback == old(fallback) && bufCount == old(bufCount)
      ensures call.PollEvent? ==> fallback == (old(fallback) || call.broken)
      ensures call.PushWindow? ==> fallback == (old(fallback) || !call.sendOk)
      ensures (call.PollEvent? || call.PushWindow?) && fallback == old(fallback) ==> Abs() == old(Abs())
    {
      match call
      case WaitAsync => asyncPending := true;
      case WaitResult(r, mmapOk, polls, m) => var _ := WaitBufferAsyncResult(r, mmapOk, polls, m);
      case PollEvent(broken) => if broken { EnterFallback(); }
      case PushWindow(sendOk) => if !fallback && !sendOk { EnterFallback(); }
      case Reconnect(r, mmapOk) => var _ := TryReconnect(r, mmapOk);
    }
  }

  /** A whole client: connect, any calls, disconnect.  What it closes is what
      ProducerLibrary.ClosedExactlyOnce speaks of. */
  method Client(first: Reply, calls: seq<ProducerLibrary.Call>) returns (closed: Closes)
    requires Accepted(first)
    ensures closed == CloseAll(After(calls, first))
  {
    var ctx := new ProducerContext();
    var _ := ctx.PickupFds(first, true);
    assert calls[..0] == [];
    for i := 0 to |calls|
      invariant ctx.Valid() && fresh(ctx) && fresh(ctx.dmabufFds) && fresh(ctx.dmabufInfos)
      invariant ctx.Abs() == After(calls[..i], first)
    {
      assert calls[..i + 1][..i] == calls[..i];
      ctx.Call(calls[i]);
    }
    assert calls[..|calls|] == calls;
    ctx.Disconnect();
    return ctx.closed;
  }
}
