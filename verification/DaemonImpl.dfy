/**
 The daemon as it runs: static variables updated in place, a fixed array for the deposited
 descriptors and loops that close them.  Every handler is proved to compute the function of
 the same purpose in Daemon.dfy, so the theorems about runs are theorems about this code.
 System calls that may fail take their outcome from `sends` or from the received message.
 */
module DaemonImpl {
  import opened Messages
  import opened Options
  import opened Descriptors
  import opened DisplayDaemon
  import DaemonSafety

  class Daemon {
    var consumer: Option<Conn>
    var producer: Option<Conn>
    var storedScreen: Screen
    var hasScreenInfo: bool
    const depositedFds: array<Fd>
    var depositedFdCount: nat
    var producerWaitingScreen: bool
    var producerWaitingFds: bool
    // what the kernel has seen
    var accepted: nat
    var sockets: SocketCalls
    var closed: Closes
    var log: Log

    ghost predicate Valid()
      reads this
    {
      depositedFds.Length == MAX_FDS && depositedFdCount <= MAX_FDS
    }

    ghost function Abs(): State
      requires Valid()
      reads this, depositedFds
    {
      State(consumer, producer, if hasScreenInfo then Some(storedScreen) else None,
            depositedFds[..depositedFdCount], producerWaitingScreen, producerWaitingFds,
            accepted, sockets, closed, log)
    }

    constructor ()
      ensures Valid() && fresh(depositedFds) && Abs() == Init()
    {
      consumer, producer := None, None;
      storedScreen, hasScreenInfo := Screen(0, 0, 0, 0), false;
      depositedFds := new Fd[MAX_FDS];
      depositedFdCount := 0;
      producerWaitingScreen, producerWaitingFds := false, false;
      accepted, sockets, closed, log := 0, NoCalls, NoCloses, Nothing;
    }

    /** client_free */
    method FreeClient(c: Option<Conn>)
      requires Valid()
      modifies this`sockets
      ensures Valid() && Abs() == ClientFree(old(Abs()), c)
    {
      if c.Some? {
        sockets := Unwatch(sockets, c.value);
      }
    }

    method ClearDepositedFds()
      requires Valid()
      modifies this`closed, this`depositedFdCount
      ensures Valid() && Abs() == ClearDeposit(old(Abs()))
    {
      closed := AndClosed(closed, []);
      for i := 0 to depositedFdCount
        invariant depositedFdCount == old(depositedFdCount)
        invariant closed == AndClosed(old(closed), depositedFds[..i])
      {
        closed := CloseOne(closed, depositedFds[i]);
      }
      depositedFdCount := 0;
    }

    method CloseReceivedFds(fds: FdList)
      requires Valid()
      modifies this`closed
      ensures Valid() && Abs() == CloseReceived(old(Abs()), fds)
    {
      closed := AndClosed(closed, []);
      for i := 0 to |fds|
        invariant closed == AndClosed(old(closed), fds[..i])
      {
        closed := CloseOne(closed, fds[i]);
      }
      assert fds[..|fds|] == fds;
    }

    /** The copy of the received descriptors into the deposit array. */
    method StoreFds(fds: FdList)
      requires Valid()
      modifies depositedFds, this`depositedFdCount
      ensures Valid() && Abs() == old(Abs()).(deposit := fds)
    {
      for i := 0 to |fds|
        invariant depositedFds.Length == MAX_FDS && depositedFds[..i] == fds[..i]
      {
        depositedFds[i] := fds[i];
      }
      depositedFdCount := |fds|;
    }

    method ResetProducerForScreenChange()
      requires Valid()
      modifies this`sockets, this`producer, this`producerWaitingScreen, this`producerWaitingFds
      ensures Valid() && Abs() == if old(producer).Some? then DropProducer(old(Abs())) else old(Abs())
    {
      if producer.None? {
        return;
      }
      FreeClient(producer);
      producer := None;
      producerWaitingScreen := false;
      producerWaitingFds := false;
    }

    method TryDeliverFds(sends: Sends)
      requires Valid()
      modifies this`log, this`closed, this`depositedFdCount, this`producerWaitingFds
      ensures Valid() && Abs() == TryDeliver(old(Abs()), sends)
    {
      if producer.None? || depositedFdCount < 4 {
        producerWaitingFds := true;
        return;
      }
      log := Then(log, FdsTo(producer.value, depositedFds[..depositedFdCount], sends.fdsOk));
      if !sends.fdsOk {
        producerWaitingFds := true;
        return;
      }
      if consumer.Some? {
        log := Then(log, ReadyTo(consumer.value, sends.readyOk));
      }
      ClearDepositedFds();
      producerWaitingFds := false;
    }

    method HandleDisconnect(c: Conn)
      requires Valid()
      modifies this
      ensures Valid() && Abs() == Disconnect(old(Abs()), c)
    {
      if consumer == Some(c) {
        FreeClient(consumer);
        consumer := None;
      } else if producer == Some(c) {
        FreeClient(producer);
        producer := None;
        producerWaitingScreen := false;
        producerWaitingFds := false;
      }
    }

    /** The part of the two hello paths that replaces the deposit. */
    method TakeDeposit(c: Conn, fds: FdList, sends: Sends)
      requires Valid()
      modifies this, depositedFds
      ensures Valid() && Abs() == Deposit(old(Abs()), c, fds, sends)
    {
      ClearDepositedFds();
      StoreFds(fds);
      log := Then(log, Deposited(c, fds));
      if producerWaitingFds {
        TryDeliverFds(sends);
      }
    }

    method SendScreenInfoMsg(p: Conn, ok: bool)
      requires Valid() && hasScreenInfo
      modifies this`log
      ensures Valid() && Abs() == SendScreen(old(Abs()), p, ok)
    {
      log := Then(log, ScreenTo(p, storedScreen, ok));
    }

    method UpdateStoredScreen(si: Screen)
      requires Valid()
      modifies this
      ensures Valid() && Abs() == ReplaceScreen(old(Abs()), si)
    {
      if hasScreenInfo {
        if si != storedScreen {
          storedScreen := si;
          ResetProducerForScreenChange();
        }
      } else {
        storedScreen := si;
        hasScreenInfo := true;
      }
    }

    method TakeScreen(c: Conn, si: Screen, sends: Sends)
      requires Valid()
      modifies this
      ensures Valid() && Abs() == StoreScreen(old(Abs()), c, si, sends)
    {
      log := Then(log, ScreenFrom(c, si));
      UpdateStoredScreen(si);
      if producerWaitingScreen && producer.Some? {
        SendScreenInfoMsg(producer.value, sends.screenOk);
        producerWaitingScreen := false;
      }
    }

    method HandleClientData(c: Conn, m: Inbound, sends: Sends)
      requires Valid()
      modifies this, depositedFds
      ensures Valid() && Abs() == ClientData(old(Abs()), c, m, sends)
    {
      if m.Closed? {
        HandleDisconnect(c);
        return;
      }
      if m.size > 0 {
        if m.size > SCREEN_INFO_SIZE || !m.payloadOk {
          HandleDisconnect(c);
          return;
        }
      }
      if m.kind == CONSUMER_HELLO {
        if consumer == Some(c) && |m.fds| >= 3 {
          TakeDeposit(c, m.fds, sends);
        } else {
          CloseReceivedFds(m.fds);
        }
      } else if m.kind == SCREEN_INFO {
        CloseReceivedFds(m.fds);
        if consumer == Some(c) && m.size == SCREEN_INFO_SIZE {
          TakeScreen(c, m.payload, sends);
        }
      } else if m.kind == PICKUP_FDS {
        CloseReceivedFds(m.fds);
        if producer == Some(c) {
          TryDeliverFds(sends);
        }
      } else {
        CloseReceivedFds(m.fds);
      }
    }

    method Greet(c: Conn, ok: bool)
      requires Valid()
      modifies this`log, this`producerWaitingScreen
      ensures Valid() && Abs() == GreetProducer(old(Abs()), c, ok)
    {
      if hasScreenInfo {
        SendScreenInfoMsg(c, ok);
      } else {
        producerWaitingScreen := true;
      }
    }

    method AdmitConsumer(c: Conn)
      requires Valid()
      modifies this`sockets, this`consumer
      ensures Valid() && Abs() == SeatConsumer(old(Abs()), c)
    {
      FreeClient(consumer);
      consumer := Some(c);
      sockets := WatchOn(sockets, c);
    }

    method AdmitProducer(c: Conn)
      requires Valid()
      modifies this`sockets, this`producer, this`producerWaitingScreen, this`producerWaitingFds
      ensures Valid() && Abs() == SeatProducer(old(Abs()), c)
    {
      FreeClient(producer);
      producer := Some(c);
      producerWaitingScreen := false;
      producerWaitingFds := false;
      sockets := WatchOn(sockets, c);
    }

    /** The two branches of handle_new_connection that keep the connection. */
    method AcceptConsumer(c: Conn, fds: FdList, sends: Sends)
      requires Valid()
      modifies this, depositedFds
      ensures Valid() && Abs() == Deposit(SeatConsumer(old(Abs()), c), c, fds, sends)
    {
      AdmitConsumer(c);
      TakeDeposit(c, fds, sends);
    }

    method AcceptProducer(c: Conn, ok: bool)
      requires Valid()
      modifies this, depositedFds
      ensures Valid() && Abs() == GreetProducer(SeatProducer(old(Abs()), c), c, ok)
    {
      AdmitProducer(c);
      Greet(c, ok);
    }

    method HandleNewConnection(m: Inbound, sends: Sends)
      requires Valid()
      modifies this, depositedFds
      ensures Valid() && Abs() == NewConnection(old(Abs()), m, sends)
    {
      ghost var s := Abs();
      var c := accepted;
      accepted := accepted + 1;
      ghost var s0 := Abs();
      if m.Closed? || !m.whole {
        return;
      }
      if m.kind == CONSUMER_HELLO {
        DaemonSafety.ConsumerAccepted(s, m, sends, SeatConsumer(s0, c));
        AcceptConsumer(c, m.fds, sends);
      } else if m.kind == PRODUCER_HELLO {
        DaemonSafety.ProducerAccepted(s, m, sends, SeatProducer(s0, c));
        AcceptProducer(c, sends.screenOk);
      } else {
        CloseReceivedFds(m.fds);
      }
    }

    /** The event loop of main, over the events of one run, and the cleanup after it. */
    method Serve(es: seq<Event>)
      requires Valid() && Abs() == Init()
      modifies this, depositedFds
      ensures Valid() && Abs() == Shutdown(Run(es))
    {
      for i := 0 to |es|
        invariant Valid() && Abs() == Run(es[..i])
      {
        match es[i] {
          case Accept(m, sends) => HandleNewConnection(m, sends);
          case Data(c, m, sends) =>
            if consumer == Some(c) || producer == Some(c) {
              HandleClientData(c, m, sends);
            }
          case Hangup(c) =>
            if consumer == Some(c) || producer == Some(c) {
              HandleDisconnect(c);
            }
        }
        assert es[..i + 1][..i] == es[..i];
      }
      assert es[..|es|] == es;
      ClearDepositedFds();
      FreeClient(consumer);
      FreeClient(producer);
    }
  }

  /** The descriptor part of recv_fds: of those the peer attached, at most MAX_FDS arrive,
      in order. */
  method RecvFds(attached: seq<Fd>) returns (fds: FdList)
    ensures |fds| == if |attached| < MAX_FDS then |attached| else MAX_FDS
    ensures fds <= attached
  {
    var count := |attached|;
    if count > MAX_FDS {
      count := MAX_FDS;
    }
    fds := attached[..count];
  }
}
