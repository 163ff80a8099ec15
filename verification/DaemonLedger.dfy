/**
 Conservation of descriptors in the display daemon: after any run, every descriptor taken
 off a control socket is held in the deposit or has been closed exactly once - if and only
 if no event of the run was one the handlers forget to clean up after.
 */
module DaemonLedger {
  import opened Messages
  import opened Descriptors
  import opened DisplayDaemon
  import opened DaemonSafety

  function Attached(m: Inbound): FdList { if m.Closed? then [] else m.fds }

  /** The descriptors an event brings in. */
  function Brought(s: State, e: Event): FdList {
    match e
    case Accept(m, _) => Attached(m)
    case Data(c, m, _) => if Live(s, c) && m.Message? then m.fds else []
    case Hangup(_) => []
  }

  /** An oversized or cut-off message. */
  predicate Refused(m: Inbound)
    requires m.Message?
  {
    m.size > SCREEN_INFO_SIZE || (m.size > 0 && !m.payloadOk)
  }

  /** The descriptors an event brings in that the handler neither keeps nor closes: those of
      a short first header, of a producer hello, and of an oversized or cut-off message. */
  function Lost(s: State, e: Event): FdList {
    match e
    case Accept(m, _) =>
      if m.Message? && (!m.whole || m.kind == PRODUCER_HELLO) then m.fds else []
    case Data(c, m, _) =>
      if Live(s, c) && m.Message? && Refused(m) then m.fds else []
    case Hangup(_) => []
  }

  /** How many copies of descriptor `f` are closed or deposited. */
  function Accounted(s: State, f: Fd): nat { TimesClosed(s.closed, f) + Times(s.deposit, f) }

  lemma DeliverLedger(s: State, sends: Sends, f: Fd)
    ensures Accounted(TryDeliver(s, sends), f) == Accounted(s, f)
  {
  }

  lemma DepositLedger(s: State, c: Conn, fds: FdList, sends: Sends, f: Fd)
    ensures Accounted(Deposit(s, c, fds, sends), f) == Accounted(s, f) + Times(fds, f)
  {
    var s1 := ClearDeposit(s);
    DeliverLedger(s1.(deposit := fds, log := Then(s1.log, Deposited(c, fds))), sends, f);
  }

  lemma ScreenLedger(s: State, c: Conn, si: Screen, sends: Sends, f: Fd)
    ensures Accounted(StoreScreen(s, c, si, sends), f) == Accounted(s, f)
  {
  }

  lemma HelloLedger(s: State, m: Inbound, sends: Sends, f: Fd, t: State)
    requires Greets(m, CONSUMER_HELLO) && t == NewConnection(s, m, sends)
    ensures Accounted(t, f) == Accounted(s, f) + Times(m.fds, f)
  {
    var s1 := SeatConsumer(s.(nextConn := s.nextConn + 1), s.nextConn);
    ConsumerAccepted(s, m, sends, s1);
    DepositLedger(s1, s.nextConn, m.fds, sends, f);
  }

  lemma OtherAcceptLedger(s: State, m: Inbound, sends: Sends, f: Fd, t: State)
    requires !Greets(m, CONSUMER_HELLO) && t == NewConnection(s, m, sends)
    ensures Accounted(t, f) + Times(Lost(s, Accept(m, sends)), f) == Accounted(s, f) + Times(Attached(m), f)
  {
    if m.Message? && m.whole && m.kind != PRODUCER_HELLO {
      assert t == CloseReceived(s.(nextConn := s.nextConn + 1), m.fds);
    } else {
      assert t.closed == s.closed && t.deposit == s.deposit;
    }
  }

  /** What a message of a client comes to. */
  lemma DataOutcome(s: State, c: Conn, m: Inbound, sends: Sends, t: State, s1: State)
    requires m.Message? && t == ClientData(s, c, m, sends) && s1 == CloseReceived(s, m.fds)
    ensures if Refused(m) then t.closed == s.closed && t.deposit == s.deposit
            else
              || t == Deposit(s, c, m.fds, sends)
              || t == StoreScreen(s1, c, m.payload, sends)
              || t == TryDeliver(s1, sends)
              || t == s1
  {
  }

  lemma DataLedger(s: State, c: Conn, m: Inbound, sends: Sends, f: Fd, t: State)
    requires m.Message? && Live(s, c) && t == ClientData(s, c, m, sends)
    ensures Accounted(t, f) + Times(Lost(s, Data(c, m, sends)), f) == Accounted(s, f) + Times(m.fds, f)
  {
    DataOutcome(s, c, m, sends, t, CloseReceived(s, m.fds));
    if !Refused(m) { KeptLedger(s, c, m, sends, f, t, CloseReceived(s, m.fds)); }
  }

  lemma KeptLedger(s: State, c: Conn, m: Inbound, sends: Sends, f: Fd, t: State, s1: State)
    requires m.Message? && s1 == CloseReceived(s, m.fds)
    requires || t == Deposit(s, c, m.fds, sends)
             || t == StoreScreen(s1, c, m.payload, sends)
             || t == TryDeliver(s1, sends)
             || t == s1
    ensures Accounted(t, f) == Accounted(s, f) + Times(m.fds, f)
  {
    DepositLedger(s, c, m.fds, sends, f);
    ScreenLedger(s1, c, m.payload, sends, f);
    DeliverLedger(s1, sends, f);
  }

  lemma StepLedger(s: State, e: Event, f: Fd, t: State)
    requires t == Step(s, e)
    ensures Accounted(t, f) + Times(Lost(s, e), f) == Accounted(s, f) + Times(Brought(s, e), f)
  {
    match e
    case Accept(m, sends) =>
      if Greets(m, CONSUMER_HELLO) {
        HelloLedger(s, m, sends, f, t);
      } else {
        OtherAcceptLedger(s, m, sends, f, t);
      }
    case Data(c, m, sends) => if Live(s, c) && m.Message? { DataLedger(s, c, m, sends, f, t); }
    case Hangup(c) =>
  }

  /** How often `f` was received in a run. */
  function Received(es: seq<Event>, f: Fd): nat {
    if es == [] then 0
    else Received(es[..|es| - 1], f) + Times(Brought(Run(es[..|es| - 1]), es[|es| - 1]), f)
  }

  /** How often `f` was lost in a run. */
  function LostIn(es: seq<Event>, f: Fd): nat {
    if es == [] then 0
    else LostIn(es[..|es| - 1], f) + Times(Lost(Run(es[..|es| - 1]), es[|es| - 1]), f)
  }

  /** Whether no event of the run loses a descriptor. */
  predicate NothingLost(es: seq<Event>) {
    es != [] ==> NothingLost(es[..|es| - 1]) && Lost(Run(es[..|es| - 1]), es[|es| - 1]) == []
  }

  /** After any run every received descriptor is accounted for: closed, deposited, or lost. */
  lemma {:induction false} Ledger(es: seq<Event>, f: Fd)
    ensures Received(es, f) == Accounted(Run(es), f) + LostIn(es, f)
  {
    if es != [] {
      Ledger(es[..|es| - 1], f);
      StepLedger(Run(es[..|es| - 1]), es[|es| - 1], f, Run(es));
    }
  }

  lemma {:induction false} LostNone(es: seq<Event>, f: Fd)
    requires NothingLost(es)
    ensures LostIn(es, f) == 0
  {
    if es != [] { LostNone(es[..|es| - 1], f); }
  }

  lemma {:induction false} LostSome(es: seq<Event>) returns (f: Fd)
    requires !NothingLost(es)
    ensures LostIn(es, f) > 0
  {
    var before := es[..|es| - 1];
    if !NothingLost(before) {
      f := LostSome(before);
    } else {
      var lost := Lost(Run(before), es[|es| - 1]);
      f := lost[|lost| - 1];
    }
  }

  /** Each descriptor is deposited or closed as often as it was received. */
  ghost predicate Conserved(es: seq<Event>) { forall f :: Accounted(Run(es), f) == Received(es, f) }

  /** After shutdown each descriptor has been closed as often as it was received. */
  ghost predicate AllClosed(es: seq<Event>) { forall f :: TimesClosed(Shutdown(Run(es)).closed, f) == Received(es, f) }

  lemma ShutdownAccounts(s: State, f: Fd)
    ensures TimesClosed(Shutdown(s).closed, f) == Accounted(s, f)
  {
    assert Shutdown(s).closed == AndClosed(s.closed, s.deposit);
  }

  /** Conservation: each received descriptor is deposited or closed once - if and only if no
      event of the run loses one.  After shutdown the same runs, and only those, leave
      none of them open.  No descriptor is ever closed more often than it was received. */
  lemma Conservation(es: seq<Event>)
    ensures Conserved(es) <==> NothingLost(es)
    ensures AllClosed(es) <==> NothingLost(es)
    ensures forall f :: TimesClosed(Run(es).closed, f) <= Received(es, f)
  {
    forall f ensures Received(es, f) == Accounted(Run(es), f) + LostIn(es, f)
             ensures TimesClosed(Shutdown(Run(es)).closed, f) == Accounted(Run(es), f) {
      Ledger(es, f);
      ShutdownAccounts(Run(es), f);
    }
    if NothingLost(es) {
      forall f ensures LostIn(es, f) == 0 { LostNone(es, f); }
    } else {
      var f := LostSome(es);
      assert Accounted(Run(es), f) != Received(es, f);
    }
  }

  /** Shutdown closes every control socket. */
  lemma ShutdownCloses(es: seq<Event>, c: Conn)
    ensures !Watched(Shutdown(Run(es)).sockets, c)
  {
    RunKeeps(es, c);
  }

  /** A peer that attaches descriptors to nothing but a whole consumer hello. */
  predicate WellBehaved(e: Event) {
    e.Hangup? ||
    var m := if e.Accept? then e.first else e.msg;
    Attached(m) == [] || (Greets(m, CONSUMER_HELLO) && m.size == 0)
  }

  /** Runs with such peers conserve descriptors. */
  lemma {:induction false} WellBehavedConserves(es: seq<Event>)
    requires forall i | 0 <= i < |es| :: WellBehaved(es[i])
    ensures Conserved(es) && AllClosed(es)
  {
    WellBehavedLoseNothing(es);
    Conservation(es);
  }

  lemma {:induction false} WellBehavedLoseNothing(es: seq<Event>)
    requires forall i | 0 <= i < |es| :: WellBehaved(es[i])
    ensures NothingLost(es)
  {
    if es != [] {
      WellBehavedLoseNothing(es[..|es| - 1]);
      assert WellBehaved(es[|es| - 1]);
    }
  }

  /** The code does lose descriptors: a producer hello that carries one keeps it open, even
      after shutdown. */
  lemma LeakExists(fd: Fd)
    ensures var hello := Message(true, PRODUCER_HELLO, 0, true, Screen(0, 0, 0, 0), [fd]);
            var es := [Accept(hello, Sends(true, true, true))];
            Received(es, fd) == 1 && TimesClosed(Shutdown(Run(es)).closed, fd) == 0
  {
    var es := [Accept(Message(true, PRODUCER_HELLO, 0, true, Screen(0, 0, 0, 0), [fd]), Sends(true, true, true))];
    assert es[..0] == [] && Run(es[..0]) == Init();
    assert [fd][..0] == [] && Brought(Init(), es[0]) == [fd];
    assert Times([fd], fd) == 1;
  }
}
