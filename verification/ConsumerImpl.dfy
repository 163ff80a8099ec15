/**
 libdisplay_consumer as it runs (display_consumer.c): a context updated in place together
 with the kernel objects of its current session.  Every method is proved to compute the
 function of the same purpose in Contexts.dfy.
 */
module ConsumerImpl {
  import opened Messages
  import opened Descriptors
  import opened DisplayDaemon
  import opened Contexts

  /** One return of poll() in refresh_done.  Between two polls the producer may act: `now` is
      the session as this poll finds it, `err` an error reported for the counter. */
  datatype Poll = Interrupted | Failed | Quiet | Woken(now: Session, err: bool)

  /** The poll says nothing that concerns the wait: it was interrupted, timed out, or woke with
      no error, no end of the stream and no token. */
  predicate Idle(p: Poll) {
    p.Interrupted? || p.Quiet? || (p.Woken? && !p.err && p.now.far != Gone && p.now.refreshDone == 0)
  }

  /** The poll brings the token of a returned frame. */
  predicate Returns(p: Poll) { p.Woken? && !p.err && p.now.far != Gone && p.now.refreshDone > 0 }

  /** Poll `i` is the first that is not idle. */
  predicate FirstAt(polls: seq<Poll>, i: nat) {
    i < |polls| && !Idle(polls[i]) && forall j | 0 <= j < i :: Idle(polls[j])
  }

  predicate AllIdle(polls: seq<Poll>) { forall j | 0 <= j < |polls| :: Idle(polls[j]) }

  /** What a consumer blocked in refresh_done comes to. */
  function Awaited(a: ConsumerSide, polls: seq<Poll>, helloOk: bool): ConsumerSide
    decreases |polls|
  {
    if polls == [] then a
    else match polls[0]
      case Failed => ConsumerFallback(a, helloOk)
      case Woken(now, err) =>
        var b := a.(s := now);
        if err || now.far == Gone then ConsumerFallback(b, helloOk)
        else if now.refreshDone > 0 then ConsumerSide(b.x.(pending := false), now.(refreshDone := 0))
        else Awaited(b, polls[1..], helloOk)
      case _ => Awaited(a, polls[1..], helloOk)
  }

  /** The session as the first `n` polls leave it: as the last of them that woke found it. */
  function LastSeen(s: Session, polls: seq<Poll>, n: nat): Session
    requires n <= |polls|
  {
    if n == 0 then s else if polls[n - 1].Woken? then polls[n - 1].now else LastSeen(s, polls, n - 1)
  }

  lemma {:induction false} LastSeenLater(s: Session, polls: seq<Poll>, n: nat)
    requires 0 < n <= |polls|
    ensures LastSeen(s, polls, n) == LastSeen(if polls[0].Woken? then polls[0].now else s, polls[1..], n - 1)
  {
    if n > 1 { LastSeenLater(s, polls, n - 1); }
  }

  lemma FirstLater(polls: seq<Poll>, i: nat)
    requires FirstAt(polls, i) && i > 0
    ensures FirstAt(polls[1..], i - 1) && polls[1..][i - 1] == polls[i]
  {
    forall j | 0 <= j < i - 1 ensures Idle(polls[1..][j]) { assert Idle(polls[j + 1]); }
  }

  lemma AwaitedOnce(a: ConsumerSide, polls: seq<Poll>, helloOk: bool)
    requires polls != []
    ensures Idle(polls[0]) ==>
              Awaited(a, polls, helloOk)
              == Awaited(if polls[0].Woken? then a.(s := polls[0].now) else a, polls[1..], helloOk)
  {
  }

  /** The loop, however many idle polls come first, is one step of the protocol on the session
      as the first poll that is not idle finds it. */
  lemma {:induction false} AwaitedRefreshes(a: ConsumerSide, polls: seq<Poll>, helloOk: bool, i: nat)
    requires a.x.pending && FirstAt(polls, i)
    ensures var s := LastSeen(a.s, polls, i + 1);
            Awaited(a, polls, helloOk) == RefreshDone(a.(s := s), polls[i].Failed? || polls[i].err, helloOk)
    decreases |polls|
  {
    if i > 0 {
      FirstLater(polls, i);
      AwaitedOnce(a, polls, helloOk);
      LastSeenLater(a.s, polls, i + 1);
      AwaitedRefreshes(if polls[0].Woken? then a.(s := polls[0].now) else a, polls[1..], helloOk, i - 1);
    }
  }

  /** Without such a poll the consumer waits on. */
  lemma {:induction false} AwaitedIdle(a: ConsumerSide, polls: seq<Poll>, helloOk: bool)
    requires AllIdle(polls)
    ensures Awaited(a, polls, helloOk) == a.(s := LastSeen(a.s, polls, |polls|))
    decreases |polls|
  {
    if polls != [] {
      forall j | 0 <= j < |polls[1..]| ensures Idle(polls[1..][j]) { assert Idle(polls[j + 1]); }
      AwaitedOnce(a, polls, helloOk);
      LastSeenLater(a.s, polls, |polls|);
      AwaitedIdle(if polls[0].Woken? then a.(s := polls[0].now) else a, polls[1..], helloOk);
    }
  }

  class ConsumerContext {
    var fallback: bool
    var bufferPending: bool
    const storedBufs: array<Buf>
    var storedCount: nat
    // this consumer's connection, and the far half of its current session
    const conn: Conn
    var ends: Ends
    // the control socket: messages on their way to the daemon, notices not yet read
    var up: seq<Upward>
    var notices: nat
    var made: nat
    // the kernel objects of the current session
    var session: Session

    ghost predicate Valid()
      reads this
    {
      && storedBufs.Length == MAX_BUFS && storedCount <= MAX_BUFS
      && (bufferPending ==> !fallback)
    }

    ghost function Abs(): ConsumerSide
      requires Valid()
      reads this, storedBufs
    {
      ConsumerSide(Consumer(true, fallback, bufferPending, storedBufs[..storedCount], up, notices, made), session)
    }

    constructor (c: Conn)
      ensures Valid() && fresh(storedBufs) && conn == c && Abs() == ConnectConsumer() && ends == EndsOf(Gen(c, 0))
      ensures fallback && !bufferPending && storedCount == 0 && notices == 0 && made == 1 && up == [Hello(0)]
      ensures session == Session(0, 0, 0, [], 0, InHello)
    {
      conn := c;
      ends := EndsOf(Gen(c, 0));
      fallback, bufferPending := true, false;
      storedBufs := new Buf[MAX_BUFS](_ => Buf(Fd(0, 0, 0), 0));
      storedCount, up, notices, made := 0, [], 0, 0;
      session := Session(0, 0, 0, [], 0, Gone);
      new;
      var _ := SendHelloFds(true);
    }

    /** The consumer has just entered fallback: nothing is pending, and a new session with empty
        counters, stream and word is offered to the daemon, if the hello got through. */
    twostate predicate FellBack(helloOk: bool)
      reads this
    {
      && fallback && !bufferPending && made == old(made) + 1
      && up == (if helloOk then old(up) + [Hello(old(made))] else old(up))
      && session == Session(0, 0, 0, [], 0, if helloOk then InHello else Gone)
    }

    /** Neither the session nor anything exchanged with the daemon has changed. */
    twostate predicate Unmoved()
      reads this
    {
      && fallback == old(fallback) && bufferPending == old(bufferPending) && made == old(made)
      && up == old(up) && notices == old(notices) && session == old(session)
    }

    /** New counters, a new shared word and a new stream, offered to the daemon: the hello
        carries their far ends in the order in which HelloFds lists them. */
    method SendHelloFds(helloOk: bool) returns (fds: FdList)
      requires Valid()
      modifies this`up, this`made, this`session, this`ends
      ensures Valid() && Abs() == FreshSession(old(Abs()).x, helloOk)
      ensures ends == EndsOf(Gen(conn, old(made))) && fds == HelloFds(ends)
      ensures fds == [Fd(conn, old(made), 0), Fd(conn, old(made), 1), Fd(conn, old(made), 2), Fd(conn, old(made), 3)]
      ensures made == old(made) + 1 && up == (if helloOk then old(up) + [Hello(old(made))] else old(up))
      ensures session == Session(0, 0, 0, [], 0, if helloOk then InHello else Gone)
    {
      ends := Ends(Fd(conn, made, 0), Fd(conn, made, 1), Fd(conn, made, 2), Fd(conn, made, 3));
      fds := [ends.bufReady, ends.refreshDone, ends.data, ends.shm];
      session := Session(0, 0, 0, [], 0, Gone);
      if helloOk {
        up := up + [Hello(made)];
        session := session.(far := InHello);
      }
      made := made + 1;
    }

    method EnterFallback(helloOk: bool)
      requires Valid()
      modifies this`fallback, this`bufferPending, this`up, this`made, this`session, this`ends
      ensures Valid() && Abs() == ConsumerFallback(old(Abs()), helloOk)
      ensures if old(fallback) then Unmoved() else FellBack(helloOk)
    {
      if fallback {
        return;
      }
      fallback := true;
      bufferPending := false;
      var _ := SendHelloFds(helloOk);
    }

    /** Sending one frame on the data stream. */
    method Send(f: Frame, sendOk: bool, helloOk: bool) returns (ok: bool)
      requires Valid()
      modifies this`fallback, this`bufferPending, this`up, this`made, this`session, this`ends
      ensures Valid() && Abs() == SendFrame(old(Abs()), f, sendOk, helloOk)
      ensures ok == (sendOk && old(session).far != Gone)
      ensures ok ==> session == old(session).(sent := old(session).sent + [f])
      ensures ok ==>
                fallback == old(fallback) && bufferPending == old(bufferPending) && made == old(made) && up == old(up)
      ensures !ok ==> if old(fallback) then Unmoved() else FellBack(helloOk)
    {
      ok := sendOk && session.far != Gone;
      if ok {
        session := session.(sent := session.sent + [f]);
      } else {
        EnterFallback(helloOk);
      }
    }

    method PushDmabufsInternal(sendOk: bool, helloOk: bool) returns (ok: bool)
      requires Valid()
      modifies this`fallback, this`bufferPending, this`up, this`made, this`session, this`ends
      ensures Valid() && Abs() == PushStored(old(Abs()), sendOk, helloOk)
      ensures ok == (storedCount == 0 || (sendOk && old(session).far != Gone))
      ensures storedCount == 0 ==> Unmoved()
      ensures storedCount > 0 && ok ==>
                && session == old(session).(sent := old(session).sent + [Bufs(storedBufs[..storedCount])])
                && fallback == old(fallback) && bufferPending == old(bufferPending)
                && made == old(made) && up == old(up)
      ensures !ok ==> if old(fallback) then Unmoved() else FellBack(helloOk)
    {
      if storedCount == 0 {
        return true;
      }
      ok := Send(Bufs(storedBufs[..storedCount]), sendOk, helloOk);
    }

    method TryExitFallback(sendOk: bool, helloOk: bool) returns (exited: bool)
      requires Valid()
      modifies this`fallback, this`bufferPending, this`up, this`made, this`session, this`ends, this`notices
      ensures Valid() && Abs() == Contexts.TryExitFallback(old(Abs()), sendOk, helloOk)
      ensures exited == (old(notices) > 0)
      ensures !exited ==> Unmoved()
      ensures exited ==> notices == old(notices) - 1
      ensures exited && storedCount == 0 ==>
                !fallback && session == old(session) && made == old(made) && up == old(up)
      ensures exited && storedCount > 0 && sendOk && old(session).far != Gone ==>
                && !fallback && made == old(made) && up == old(up)
                && session == old(session).(sent := old(session).sent + [Bufs(storedBufs[..storedCount])])
      ensures exited && storedCount > 0 && (!sendOk || old(session).far == Gone) ==> FellBack(helloOk)
      ensures exited && !fallback ==> bufferPending == old(bufferPending)
    {
      if notices == 0 {
        return false;
      }
      notices := notices - 1;
      fallback := false;
      var _ := PushDmabufsInternal(sendOk, helloOk);
      return true;
    }

    method StoreList(list: seq<Buf>)
      requires Valid() && |list| <= MAX_BUFS
      modifies this`storedCount, storedBufs
      ensures Valid() && Abs() == old(Abs()).(x := old(Abs()).x.(stored := list))
    {
      for i := 0 to |list|
        invariant storedBufs.Length == MAX_BUFS && storedBufs[..i] == list[..i]
      {
        storedBufs[i] := list[i];
      }
      storedCount := |list|;
    }

    method PushDmabufs(list: seq<Buf>, sendOk: bool, helloOk: bool) returns (ok: bool)
      requires Valid()
      modifies this, storedBufs
      ensures Valid() && Abs() == Contexts.PushDmabufs(old(Abs()), list, sendOk, helloOk)
      ensures ok == (0 < |list| <= MAX_BUFS && (old(fallback) || (sendOk && old(session).far != Gone)))
      ensures notices == old(notices)
      ensures if 0 < |list| <= MAX_BUFS then storedBufs[..storedCount] == list
              else Unmoved() && storedBufs[..storedCount] == old(storedBufs[..storedCount])
      ensures 0 < |list| <= MAX_BUFS && old(fallback) ==> Unmoved()
      ensures 0 < |list| <= MAX_BUFS && !old(fallback) && ok ==>
                && session == old(session).(sent := old(session).sent + [Bufs(list)])
                && !fallback && bufferPending == old(bufferPending) && made == old(made) && up == old(up)
      ensures 0 < |list| <= MAX_BUFS && !old(fallback) && !ok ==> FellBack(helloOk)
    {
      if |list| == 0 || |list| > MAX_BUFS {
        return false;
      }
      StoreList(list);
      if fallback {
        return true;
      }
      ok := PushDmabufsInternal(sendOk, helloOk);
    }

    method SelectDmabuf(idx: int, sendOk: bool, helloOk: bool) returns (ok: bool)
      requires Valid()
      modifies this
      ensures Valid() && Abs() == Contexts.SelectDmabuf(old(Abs()), idx, sendOk, helloOk)
      ensures ok == (fallback || 0 <= idx < storedCount)
      ensures storedCount == old(storedCount)
      ensures old(fallback) && old(notices) == 0 ==> Unmoved()
      ensures old(fallback) && old(notices) > 0 ==> notices == old(notices) - 1
      ensures old(fallback) && old(notices) > 0 && storedCount > 0 && (!sendOk || old(session).far == Gone) ==>
                FellBack(helloOk)
      ensures !old(fallback) ==> notices == old(notices) && !fallback
      ensures !fallback && !(0 <= idx < storedCount) ==> bufferPending == old(bufferPending)
      ensures !fallback ==>
                && made == old(made) && up == old(up)
                && var sent := if old(fallback) && storedCount > 0 then [Bufs(storedBufs[..storedCount])] else [];
                session == if 0 <= idx < storedCount
                           then old(session).(sent := old(session).sent + sent, word := idx,
                                              bufReady := old(session).bufReady + 1)
                           else old(session).(sent := old(session).sent + sent)
      ensures !fallback && 0 <= idx < storedCount ==> bufferPending
      ensures fallback ==> old(fallback) && (old(notices) == 0 || FellBack(helloOk))
    {
      if fallback {
        var _ := TryExitFallback(sendOk, helloOk);
        if fallback {
          return true;
        }
      }
      if idx < 0 || idx >= storedCount {
        return false;
      }
      session := session.(word := idx, bufReady := session.bufReady + 1);
      bufferPending := true;
      return true;
    }

    /** refresh_done: polls until a token or the end of the session, however many reports,
        timeouts and interrupts come first. */
    method RefreshDone(polls: seq<Poll>, helloOk: bool) returns (ok: bool)
      requires Valid()
      modifies this`fallback, this`bufferPending, this`up, this`made, this`session, this`ends
      ensures Valid()
      ensures !old(bufferPending) ==> ok && Unmoved()
      ensures old(bufferPending) ==> (ok <==> exists i: nat :: FirstAt(polls, i) && Returns(polls[i]))
      ensures forall i: nat | old(bufferPending) && FirstAt(polls, i) && Returns(polls[i]) ::
                && !bufferPending && fallback == old(fallback) && made == old(made) && up == old(up)
                && session == polls[i].now.(refreshDone := 0)
      ensures forall i: nat | old(bufferPending) && FirstAt(polls, i) && !Returns(polls[i]) :: FellBack(helloOk)
      ensures old(bufferPending) ==> (bufferPending <==> AllIdle(polls))
      ensures old(bufferPending) && AllIdle(polls) ==>
                fallback == old(fallback) && made == old(made) && up == old(up)
      ensures Abs() == if old(bufferPending) then Awaited(old(Abs()), polls, helloOk) else old(Abs())
    {
      if !bufferPending {
        return true;
      }
      var i := 0;
      while i < |polls|
        invariant Valid() && 0 <= i <= |polls| && bufferPending && !fallback && made == old(made) && up == old(up)
        invariant forall j | 0 <= j < i :: Idle(polls[j])
        invariant Awaited(Abs(), polls[i..], helloOk) == Awaited(old(Abs()), polls, helloOk)
      {
        var p := polls[i];
        assert polls[i..][0] == p && polls[i..][1..] == polls[i + 1..];
        i := i + 1;
        if p.Failed? {
          EnterFallback(helloOk);
          return false;
        }
        if p.Interrupted? || p.Quiet? {
          continue;
        }
        session := p.now;
        if p.err {
          EnterFallback(helloOk);
          return false;
        }
        if session.far == Gone {
          EnterFallback(helloOk);
          return false;
        }
        if session.refreshDone > 0 {
          session := session.(refreshDone := 0);
          bufferPending := false;
          return true;
        }
      }
      return false;
    }

    /** push_input_event and push_window_command */
    method PushEvent(kind: nat, body: nat, sendOk: bool, helloOk: bool) returns (ok: bool)
      requires Valid()
      modifies this
      ensures Valid() && Abs() == Contexts.PushEvent(old(Abs()), kind, body, sendOk, helloOk)
      ensures ok == (old(fallback) || (sendOk && old(session).far != Gone))
      ensures old(fallback) ==> Unmoved()
      ensures !old(fallback) && ok ==>
                && session == old(session).(sent := old(session).sent + [Other(kind, body)])
                && !fallback && bufferPending == old(bufferPending) && made == old(made) && up == old(up)
      ensures !old(fallback) && !ok ==> FellBack(helloOk)
      ensures notices == old(notices)
    {
      if fallback {
        return true;
      }
      ok := Send(Other(kind, body), sendOk, helloOk);
    }
  }
}
