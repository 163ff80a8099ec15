/**
 What every run of the display daemon keeps, for arbitrary peers and arbitrary send
 failures: screens are never stale, wakeups are never lost, every deposit is delivered at
 most once and in order, and the epoll set is exactly the occupied slots.
 */
module DaemonSafety {
  import opened Messages
  import opened Options
  import opened DisplayDaemon

  // ---------------------------------------------------------------- reading the log

  /** The deposit the daemon took in last. */
  function LatestDeposit(log: Log): (d: Option<Entry>)
    ensures d.Some? ==> d.value.Deposited?
  {
    match log
    case Nothing => None
    case Then(before, e) => if e.Deposited? then Some(e) else LatestDeposit(before)
  }

  predicate Delivery(e: Entry) { e.FdsTo? && e.ok }

  /** Whether the latest deposit has already gone out to a producer. */
  predicate Spent(log: Log) {
    log.Then? && !log.last.Deposited? && (Delivery(log.last) || Spent(log.before))
  }

  /** The latest attempt to send descriptors. */
  function LatestAttempt(log: Log): Option<Entry> {
    match log
    case Nothing => None
    case Then(before, e) => if e.FdsTo? then Some(e) else LatestAttempt(before)
  }

  /** The last valid screen description taken from a consumer. */
  function LatestScreen(log: Log): Option<Screen> {
    match log
    case Nothing => None
    case Then(before, e) => if e.ScreenFrom? then Some(e.screen) else LatestScreen(before)
  }

  /** The attempts to send a screen on connection `p`, in order. */
  function ScreenSends(log: Log, p: Conn): seq<Entry> {
    match log
    case Nothing => []
    case Then(before, e) =>
      if e.ScreenTo? && e.to == p then ScreenSends(before, p) + [e] else ScreenSends(before, p)
  }

  /** The screens that reached connection `p`, in order. */
  function ScreensReceived(log: Log, p: Conn): seq<Screen> {
    match log
    case Nothing => []
    case Then(before, e) =>
      if e.ScreenTo? && e.to == p && e.ok then ScreensReceived(before, p) + [e.screen] else ScreensReceived(before, p)
  }

  /** Every delivery carries the four descriptors of the latest deposit, not sent before. */
  predicate ExactlyOnce(log: Log) {
    log.Then? ==> ExactlyOnce(log.before) && (Delivery(log.last) ==> Fresh(log.before, log.last.fds))
  }

  predicate Fresh(log: Log, fds: FdList) {
    |fds| == 4 && LatestDeposit(log).Some? && LatestDeposit(log).value.fds == fds && !Spent(log)
  }

  // ---------------------------------------------------------------- the invariants

  /** The slots hold two different connections accepted earlier. */
  predicate Ordered(s: State) {
    && (s.consumer.Some? ==> s.consumer.value < s.nextConn)
    && (s.producer.Some? ==> s.producer.value < s.nextConn)
    && (s.consumer.Some? ==> s.producer != s.consumer)
  }

  /** The first message of a connection, whole and of a kind. */
  predicate Greets(m: Inbound, kind: nat) { m.Message? && m.whole && m.kind == kind }

  /** A connected producer either waits and no screen was ever stored, or there was exactly
      one attempt to send it a screen, the stored one; the stored screen is the last one
      taken from a consumer. */
  predicate NoStaleScreen(s: State) {
    && s.screen == LatestScreen(s.log)
    && (s.waitScreen ==> s.producer.Some?)
    && (s.producer.Some? ==>
          var sends := ScreenSends(s.log, s.producer.value);
          if s.waitScreen then s.screen.None? && sends == []
          else s.screen.Some? && |sends| == 1 && sends[0].ScreenTo? && sends[0].screen == s.screen.value)
  }

  /** A waiting producer and a full deposit coexist only after a failed send of that very
      deposit to that very producer. */
  predicate NoLostWakeup(s: State) {
    && (s.waitFds ==> s.producer.Some?)
    && (s.waitFds && |s.deposit| == 4 ==>
          LatestAttempt(s.log) == Some(FdsTo(s.producer.value, s.deposit, false)))
  }

  /** The deposit held is the latest one, unsent, and the connected consumer's own. */
  predicate DepositExact(s: State) {
    && ExactlyOnce(s.log)
    && (s.deposit != [] ==>
          && LatestDeposit(s.log).Some?
          && LatestDeposit(s.log).value.fds == s.deposit
          && !Spent(s.log)
          && (s.consumer.Some? ==> LatestDeposit(s.log).value.from == s.consumer.value))
  }

  predicate HandoverInv(s: State) { Ordered(s) && NoLostWakeup(s) && DepositExact(s) }

  // ---------------------------------------------------------------- deposits and wakeups

  lemma DeliverKeeps(s: State, sends: Sends)
    requires Ordered(s) && DepositExact(s) && s.producer.Some?
    ensures HandoverInv(TryDeliver(s, sends))
  {
  }

  lemma DepositKeeps(s: State, c: Conn, fds: FdList, sends: Sends)
    requires Ordered(s) && ExactlyOnce(s.log) && (s.waitFds ==> s.producer.Some?) && s.consumer == Some(c)
    ensures HandoverInv(Deposit(s, c, fds, sends))
  {
    var s1 := ClearDeposit(s);
    var s2 := s1.(deposit := fds, log := Then(s1.log, Deposited(c, fds)));
    if s2.waitFds {
      DeliverKeeps(s2, sends);
    }
  }

  lemma StoreScreenKeeps(s: State, c: Conn, si: Screen, sends: Sends)
    requires HandoverInv(s)
    ensures HandoverInv(StoreScreen(s, c, si, sends))
  {
    var s1 := s.(log := Then(s.log, ScreenFrom(c, si)), screen := Some(si));
    if s.screen.Some? && s.screen.value != si {
      assert StoreScreen(s, c, si, sends) == if s.producer.Some? then DropProducer(s1) else s1;
    }
  }

  lemma DisconnectKeeps(s: State, c: Conn)
    requires HandoverInv(s)
    ensures HandoverInv(Disconnect(s, c))
  {
  }

  /** What the two hellos of a new connection come to, once the slot is taken. */
  lemma ConsumerAccepted(s: State, m: Inbound, sends: Sends, s1: State)
    requires Greets(m, CONSUMER_HELLO) && s1 == SeatConsumer(s.(nextConn := s.nextConn + 1), s.nextConn)
    ensures NewConnection(s, m, sends) == Deposit(s1, s.nextConn, m.fds, sends)
  {
  }

  lemma ProducerAccepted(s: State, m: Inbound, sends: Sends, s1: State)
    requires Greets(m, PRODUCER_HELLO) && s1 == SeatProducer(s.(nextConn := s.nextConn + 1), s.nextConn)
    ensures NewConnection(s, m, sends) == GreetProducer(s1, s.nextConn, sends.screenOk)
  {
  }

  lemma AcceptConsumerKeeps(s: State, m: Inbound, sends: Sends, t: State)
    requires HandoverInv(s) && Greets(m, CONSUMER_HELLO) && t == NewConnection(s, m, sends)
    ensures HandoverInv(t)
  {
    var s1 := SeatConsumer(s.(nextConn := s.nextConn + 1), s.nextConn);
    ConsumerAccepted(s, m, sends, s1);
    DepositKeeps(s1, s.nextConn, m.fds, sends);
  }

  lemma AcceptProducerKeeps(s: State, m: Inbound, sends: Sends, t: State)
    requires HandoverInv(s) && Greets(m, PRODUCER_HELLO) && t == NewConnection(s, m, sends)
    ensures HandoverInv(t)
  {
    var s1 := SeatProducer(s.(nextConn := s.nextConn + 1), s.nextConn);
    ProducerAccepted(s, m, sends, s1);
    GreetKeeps(s, s1, s.nextConn, sends.screenOk, t);
  }

  lemma GreetKeeps(s: State, s1: State, p: Conn, ok: bool, t: State)
    requires HandoverInv(s) && p == s.nextConn && s1 == SeatProducer(s.(nextConn := p + 1), p)
    requires t == GreetProducer(s1, p, ok)
    ensures HandoverInv(t)
  {
  }

  lemma AcceptKeeps(s: State, m: Inbound, sends: Sends, t: State)
    requires HandoverInv(s) && t == NewConnection(s, m, sends)
    ensures HandoverInv(t)
  {
    if Greets(m, CONSUMER_HELLO) {
      AcceptConsumerKeeps(s, m, sends, t);
    } else if Greets(m, PRODUCER_HELLO) {
      AcceptProducerKeeps(s, m, sends, t);
    }
  }

  lemma DataKeeps(s: State, c: Conn, m: Inbound, sends: Sends, t: State)
    requires HandoverInv(s) && m.Message? && t == ClientData(s, c, m, sends)
    ensures HandoverInv(t)
  {
    var s1 := CloseReceived(s, m.fds);
    if m.size > SCREEN_INFO_SIZE || (m.size > 0 && !m.payloadOk) {
      DisconnectKeeps(s, c);
    } else if m.kind == CONSUMER_HELLO && s.consumer == Some(c) && |m.fds| >= 3 {
      DepositKeeps(s, c, m.fds, sends);
    } else if m.kind == SCREEN_INFO && s.consumer == Some(c) && m.size == SCREEN_INFO_SIZE {
      StoreScreenKeeps(s1, c, m.payload, sends);
    } else if m.kind == PICKUP_FDS && s.producer == Some(c) {
      DeliverKeeps(s1, sends);
    } else {
      assert t == s1;
    }
  }

  lemma HandoverStep(s: State, e: Event, t: State)
    requires HandoverInv(s) && t == Step(s, e)
    ensures HandoverInv(t)
  {
    match e
    case Hangup(c) => DisconnectKeeps(s, c);
    case Accept(m, sends) => AcceptKeeps(s, m, sends, t);
    case Data(c, m, sends) =>
      if Live(s, c) && m.Message? {
        DataKeeps(s, c, m, sends, t);
      } else {
        DisconnectKeeps(s, c);
      }
  }

  // ---------------------------------------------------------------- screens

  /** The screen invariant, together with what was sent on some later connection `p`. */
  predicate ScreenInv(s: State, p: Conn) {
    Ordered(s) && NoStaleScreen(s) && (p >= s.nextConn ==> ScreenSends(s.log, p) == [])
  }

  lemma DeliverKeepsScreens(s: State, sends: Sends, p: Conn)
    requires ScreenInv(s, p)
    ensures ScreenInv(TryDeliver(s, sends), p)
  {
  }

  lemma DepositKeepsScreens(s: State, c: Conn, fds: FdList, sends: Sends, p: Conn)
    requires ScreenInv(s, p)
    ensures ScreenInv(Deposit(s, c, fds, sends), p)
  {
    var s1 := ClearDeposit(s);
    var s2 := s1.(deposit := fds, log := Then(s1.log, Deposited(c, fds)));
    DeliverKeepsScreens(s2, sends, p);
  }

  lemma StoreScreenKeepsScreens(s: State, c: Conn, si: Screen, sends: Sends, p: Conn)
    requires ScreenInv(s, p)
    ensures ScreenInv(StoreScreen(s, c, si, sends), p)
  {
    var s1 := s.(log := Then(s.log, ScreenFrom(c, si)), screen := Some(si));
    if s.screen.Some? && s.screen.value != si {
      assert StoreScreen(s, c, si, sends) == if s.producer.Some? then DropProducer(s1) else s1;
    } else if s.waitScreen {
      assert StoreScreen(s, c, si, sends) == SendScreen(s1, s.producer.value, sends.screenOk).(waitScreen := false);
    } else {
      assert StoreScreen(s, c, si, sends) == s1;
    }
  }

  lemma DisconnectKeepsScreens(s: State, c: Conn, p: Conn)
    requires ScreenInv(s, p)
    ensures ScreenInv(Disconnect(s, c), p)
  {
  }

  lemma AcceptConsumerKeepsScreens(s: State, m: Inbound, sends: Sends, t: State, p: Conn)
    requires ScreenInv(s, p) && Greets(m, CONSUMER_HELLO) && t == NewConnection(s, m, sends)
    ensures ScreenInv(t, p)
  {
    var s1 := SeatConsumer(s.(nextConn := s.nextConn + 1), s.nextConn);
    ConsumerAccepted(s, m, sends, s1);
    DepositKeepsScreens(s1, s.nextConn, m.fds, sends, p);
  }

  lemma AcceptProducerKeepsScreens(s: State, m: Inbound, sends: Sends, t: State, p: Conn)
    requires ScreenInv(s, p) && Greets(m, PRODUCER_HELLO) && t == NewConnection(s, m, sends)
    requires ScreenSends(s.log, s.nextConn) == []
    ensures ScreenInv(t, p)
  {
    assert t.screen == s.screen && t.consumer == s.consumer && t.producer == Some(s.nextConn);
  }

  lemma AcceptKeepsScreens(s: State, m: Inbound, sends: Sends, t: State, p: Conn)
    requires ScreenInv(s, p) && ScreenSends(s.log, s.nextConn) == [] && t == NewConnection(s, m, sends)
    ensures ScreenInv(t, p)
  {
    if Greets(m, CONSUMER_HELLO) {
      AcceptConsumerKeepsScreens(s, m, sends, t, p);
    } else if Greets(m, PRODUCER_HELLO) {
      AcceptProducerKeepsScreens(s, m, sends, t, p);
    }
  }

  lemma DataKeepsScreens(s: State, c: Conn, m: Inbound, sends: Sends, t: State, p: Conn)
    requires ScreenInv(s, p) && m.Message? && t == ClientData(s, c, m, sends)
    ensures ScreenInv(t, p)
  {
    var s1 := CloseReceived(s, m.fds);
    if m.size > SCREEN_INFO_SIZE || (m.size > 0 && !m.payloadOk) {
      DisconnectKeepsScreens(s, c, p);
    } else if m.kind == CONSUMER_HELLO && s.consumer == Some(c) && |m.fds| >= 3 {
      DepositKeepsScreens(s, c, m.fds, sends, p);
    } else if m.kind == SCREEN_INFO && s.consumer == Some(c) && m.size == SCREEN_INFO_SIZE {
      StoreScreenKeepsScreens(s1, c, m.payload, sends, p);
    } else if m.kind == PICKUP_FDS && s.producer == Some(c) {
      DeliverKeepsScreens(s1, sends, p);
    } else {
      assert t == s1;
    }
  }

  lemma ScreenStep(s: State, e: Event, t: State, p: Conn)
    requires ScreenInv(s, p) && ScreenSends(s.log, s.nextConn) == [] && t == Step(s, e)
    ensures ScreenInv(t, p)
  {
    match e
    case Hangup(c) => DisconnectKeepsScreens(s, c, p);
    case Accept(m, sends) => AcceptKeepsScreens(s, m, sends, t, p);
    case Data(c, m, sends) =>
      if Live(s, c) && m.Message? {
        DataKeepsScreens(s, c, m, sends, t, p);
      } else {
        DisconnectKeepsScreens(s, c, p);
      }
  }

  // ---------------------------------------------------------------- sockets

  /** Whether connection `c` is in the epoll set, and so open, after some calls. */
  predicate Watched(calls: SocketCalls, c: Conn) {
    match calls
    case NoCalls => false
    case WatchOn(before, d) => c == d || Watched(before, c)
    case Unwatch(before, d) => c != d && Watched(before, c)
  }

  predicate SocketExact(s: State, c: Conn) { Watched(s.sockets, c) <==> Live(s, c) }

  predicate SameSlots(s: State, t: State) {
    s.consumer == t.consumer && s.producer == t.producer && s.sockets == t.sockets
  }

  lemma DepositFrame(s: State, c: Conn, fds: FdList, sends: Sends)
    ensures SameSlots(s, Deposit(s, c, fds, sends)) && SameSlots(s, TryDeliver(s, sends))
  {
  }

  lemma StoreScreenFrame(s: State, c: Conn, si: Screen, sends: Sends)
    ensures SameSlots(s, StoreScreen(s, c, si, sends)) || SameSlots(DropProducer(s), StoreScreen(s, c, si, sends))
  {
  }

  lemma SeatSockets(s: State, c: Conn, d: Conn)
    requires Ordered(s) && SocketExact(s, d) && s.consumer != Some(c) && s.producer != Some(c)
    ensures SocketExact(SeatConsumer(s, c), d) && SocketExact(SeatProducer(s, c), d)
  {
    assert SocketExact(ClientFree(s, s.consumer).(consumer := None), d);
    assert SocketExact(ClientFree(s, s.producer).(producer := None), d);
  }

  lemma AcceptConsumerSockets(s: State, m: Inbound, sends: Sends, t: State, d: Conn)
    requires Ordered(s) && SocketExact(s, d) && t == NewConnection(s, m, sends) && Greets(m, CONSUMER_HELLO)
    ensures SocketExact(t, d)
  {
    var s0 := s.(nextConn := s.nextConn + 1);
    var s1 := SeatConsumer(s0, s.nextConn);
    ConsumerAccepted(s, m, sends, s1);
    SeatSockets(s0, s.nextConn, d);
    DepositFrame(s1, s.nextConn, m.fds, sends);
  }

  lemma AcceptProducerSockets(s: State, m: Inbound, sends: Sends, t: State, d: Conn)
    requires Ordered(s) && SocketExact(s, d) && t == NewConnection(s, m, sends) && Greets(m, PRODUCER_HELLO)
    ensures SocketExact(t, d)
  {
    var s0 := s.(nextConn := s.nextConn + 1);
    var s1 := SeatProducer(s0, s.nextConn);
    ProducerAccepted(s, m, sends, s1);
    SeatSockets(s0, s.nextConn, d);
    GreetFrame(s1, s.nextConn, sends.screenOk);
  }

  lemma GreetFrame(s: State, c: Conn, ok: bool)
    ensures SameSlots(s, GreetProducer(s, c, ok))
  {
  }

  lemma AcceptSockets(s: State, m: Inbound, sends: Sends, t: State, d: Conn)
    requires Ordered(s) && SocketExact(s, d) && t == NewConnection(s, m, sends)
    ensures SocketExact(t, d)
  {
    if Greets(m, CONSUMER_HELLO) {
      AcceptConsumerSockets(s, m, sends, t, d);
    } else if Greets(m, PRODUCER_HELLO) {
      AcceptProducerSockets(s, m, sends, t, d);
    }
  }

  /** Messages that are no screen description and are well-sized leave the slots alone. */
  lemma DataFrame(s: State, c: Conn, m: Inbound, sends: Sends, s1: State, t: State)
    requires m.Message? && s1 == CloseReceived(s, m.fds) && t == ClientData(s, c, m, sends)
    requires m.size <= SCREEN_INFO_SIZE && (m.size > 0 ==> m.payloadOk)
    requires !(m.kind == SCREEN_INFO && s.consumer == Some(c) && m.size == SCREEN_INFO_SIZE)
    ensures SameSlots(s, t)
  {
    DepositFrame(s, c, m.fds, sends);
    DepositFrame(s1, c, m.fds, sends);
  }

  lemma DataSockets(s: State, c: Conn, m: Inbound, sends: Sends, t: State, d: Conn)
    requires Ordered(s) && SocketExact(s, d) && m.Message? && t == ClientData(s, c, m, sends)
    ensures SocketExact(t, d)
  {
    var s1 := CloseReceived(s, m.fds);
    if m.size > SCREEN_INFO_SIZE || (m.size > 0 && !m.payloadOk) {
      assert t == Disconnect(s, c);
    } else if m.kind == SCREEN_INFO && s.consumer == Some(c) && m.size == SCREEN_INFO_SIZE {
      StoreScreenFrame(s1, c, m.payload, sends);
    } else {
      DataFrame(s, c, m, sends, s1, t);
    }
  }

  lemma SocketStep(s: State, e: Event, t: State, d: Conn)
    requires Ordered(s) && SocketExact(s, d) && t == Step(s, e)
    ensures SocketExact(t, d)
  {
    match e
    case Hangup(c) =>
    case Accept(m, sends) => AcceptSockets(s, m, sends, t, d);
    case Data(c, m, sends) => if Live(s, c) && m.Message? { DataSockets(s, c, m, sends, t, d); }
  }

  // ---------------------------------------------------------------- every run

  lemma {:induction false} RunKeeps(es: seq<Event>, p: Conn)
    ensures HandoverInv(Run(es)) && ScreenInv(Run(es), p) && SocketExact(Run(es), p)
    decreases |es|
  {
    if es != [] {
      var s, e := Run(es[..|es| - 1]), es[|es| - 1];
      RunKeeps(es[..|es| - 1], s.nextConn);
      RunKeeps(es[..|es| - 1], p);
      HandoverStep(s, e, Run(es));
      ScreenStep(s, e, Run(es), p);
      SocketStep(s, e, Run(es), p);
    }
  }

  /** After every run, whatever the peers send and whichever sends fail: no producer has a
      stale screen, no wakeup is lost, deposits are handed out exactly once, and the epoll
      set is exactly the occupied slots. */
  lemma EveryRun(es: seq<Event>)
    ensures NoStaleScreen(Run(es)) && NoLostWakeup(Run(es)) && DepositExact(Run(es))
    ensures forall c :: SocketExact(Run(es), c)
  {
    RunKeeps(es, 0);
    forall c ensures SocketExact(Run(es), c) { RunKeeps(es, c); }
  }

  // ---------------------------------------------------------------- screens received

  /** The screens among some attempts that reached the peer. */
  function Reached(sends: seq<Entry>): seq<Screen> {
    if sends == [] then []
    else
      var e := sends[|sends| - 1];
      Reached(sends[..|sends| - 1]) + if e.ScreenTo? && e.ok then [e.screen] else []
  }

  lemma {:induction false} ReceivedIsReached(log: Log, p: Conn)
    ensures ScreensReceived(log, p) == Reached(ScreenSends(log, p))
  {
    if log.Then? {
      ReceivedIsReached(log.before, p);
      assert ScreenSends(log.before, p) == (ScreenSends(log.before, p) + [log.last])[..|ScreenSends(log.before, p)|];
    }
  }

  /** The connected producer has received the stored screen, once, and no other. */
  predicate HasScreen(s: State) {
    s.producer.Some? && s.screen.Some? && ScreensReceived(s.log, s.producer.value) == [s.screen.value]
  }

  /** The attempt to send the connected producer its screen was made and succeeded. */
  predicate ScreenSendOk(s: State) {
    && s.producer.Some? && !s.waitScreen
    && var sends := ScreenSends(s.log, s.producer.value); sends != [] && sends[0].ScreenTo? && sends[0].ok
  }

  lemma ReceivedExactly(s: State)
    requires NoStaleScreen(s) && s.producer.Some?
    ensures HasScreen(s) <==> ScreenSendOk(s)
    ensures !HasScreen(s) ==> ScreensReceived(s.log, s.producer.value) == []
  {
    var sends := ScreenSends(s.log, s.producer.value);
    ReceivedIsReached(s.log, s.producer.value);
    assert sends != [] ==> sends[..|sends| - 1] == [];
  }

  /** After every run, a connected producer has the stored screen if and only if the one
      attempt to send it succeeded; otherwise it has received no screen at all. */
  lemma ScreenReceived(es: seq<Event>)
    requires Run(es).producer.Some?
    ensures HasScreen(Run(es)) <==> ScreenSendOk(Run(es))
    ensures !HasScreen(Run(es)) ==> ScreensReceived(Run(es).log, Run(es).producer.value) == []
  {
    EveryRun(es);
    ReceivedExactly(Run(es));
  }

  /** The code does strand producers: the send to a new producer fails, its result is ignored,
      and the producer stays connected, not waiting, without the stored screen. */
  lemma StrandedProducer(si: Screen, sends: Sends, failing: Sends) returns (es: seq<Event>)
    requires !failing.screenOk
    ensures var s := Run(es); s.producer.Some? && !s.waitScreen && s.screen == Some(si) && !HasScreen(s)
  {
    var hello := Message(true, CONSUMER_HELLO, 0, true, si, []);
    var e0, e1 := Accept(hello, sends), Data(0, Message(true, SCREEN_INFO, SCREEN_INFO_SIZE, true, si, []), sends);
    var e2 := Accept(Message(true, PRODUCER_HELLO, 0, true, si, []), failing);
    es := [e0, e1, e2];
    assert [e0][..0] == [] && [e0, e1][..1] == [e0] && es[..2] == [e0, e1];
    assert Run([e0]) == Step(Init(), e0);
    assert Run([e0, e1]).screen == Some(si) && Run([e0, e1]).producer.None?;
    EveryRun(es);
    ReceivedExactly(Run(es));
    assert Run(es).log.last == ScreenTo(1, si, false);
  }

  // ---------------------------------------------------------------- deliveries, by position

  /** The log as a sequence, oldest entry first. */
  function Entries(log: Log): seq<Entry> {
    if log.Nothing? then [] else Entries(log.before) + [log.last]
  }

  lemma {:induction false} LatestDepositAt(log: Log) returns (d: nat)
    requires LatestDeposit(log).Some? && !Spent(log)
    ensures var es := Entries(log);
            && d < |es| && Some(es[d]) == LatestDeposit(log)
            && forall m | d < m < |es| :: !es[m].Deposited? && !Delivery(es[m])
  {
    if log.last.Deposited? {
      d := |Entries(log.before)|;
    } else {
      d := LatestDepositAt(log.before);
    }
  }

  /** The delivery at `i` hands out the four descriptors of the hello at `d`, in order, and
      between them there is no other hello and no other delivery. */
  ghost predicate FromHello(log: seq<Entry>, d: nat, i: nat) {
    && d < i < |log|
    && log[d].Deposited? && log[i].FdsTo? && log[d].fds == log[i].fds && |log[d].fds| == 4
    && forall m | d < m < i :: !log[m].Deposited? && !Delivery(log[m])
  }

  lemma {:induction false} Source(log: Log, i: nat) returns (d: nat)
    requires ExactlyOnce(log) && i < |Entries(log)| && Delivery(Entries(log)[i])
    ensures FromHello(Entries(log), d, i)
  {
    if i < |Entries(log.before)| {
      d := Source(log.before, i);
    } else {
      d := LatestDepositAt(log.before);
    }
  }

  /** In every run, successive deliveries - to one producer or to different ones - hand out
      different hellos, each whole and in order, and later deliveries hand out later hellos. */
  lemma DeliveriesAdvance(es: seq<Event>, i: nat, j: nat) returns (di: nat, dj: nat)
    requires var log := Entries(Run(es).log); i < j < |log| && Delivery(log[i]) && Delivery(log[j])
    ensures FromHello(Entries(Run(es).log), di, i) && i < dj && FromHello(Entries(Run(es).log), dj, j)
  {
    EveryRun(es);
    di := Source(Run(es).log, i);
    dj := Source(Run(es).log, j);
  }
}
