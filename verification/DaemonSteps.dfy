/**
 Every step of the daemon, field by field: which events change a slot, the screen, the deposit
 or a flag, what the new value is, and what is said on the sockets - in terms of the event and
 the state before it, whatever handler does it.
 */
module DaemonSteps {
  import opened Messages
  import opened Options
  import opened DisplayDaemon
  import opened DaemonSafety
  import opened DaemonLedger

  // ---------------------------------------------------------------- events

  /** The event ends the connection of client `c`: its hang-up, its end of file, or a message
      of it that is oversized or cut off. */
  predicate Ends(s: State, e: Event, c: Conn) {
    Live(s, c) && (e == Hangup(c) || (e.Data? && e.conn == c && (e.msg.Closed? || Refused(e.msg))))
  }

  /** A new connection says a hello. */
  predicate Greeted(e: Event, kind: nat) { e.Accept? && Greets(e.first, kind) }

  /** The consumer announces a screen, whole. */
  predicate Screens(s: State, e: Event) {
    && e.Data? && s.consumer == Some(e.conn) && e.msg.Message? && e.msg.kind == SCREEN_INFO
    && e.msg.size == SCREEN_INFO_SIZE && e.msg.payloadOk
  }

  /** ... and it is not the one stored before. */
  predicate Changes(s: State, e: Event) { Screens(s, e) && s.screen.Some? && s.screen.value != e.msg.payload }

  /** The connected consumer says another hello, with three descriptors or more. */
  predicate Rehello(s: State, e: Event) {
    && e.Data? && s.consumer == Some(e.conn) && e.msg.Message? && !Refused(e.msg)
    && e.msg.kind == CONSUMER_HELLO && |e.msg.fds| >= 3
  }

  predicate Offers(s: State, e: Event) { Greeted(e, CONSUMER_HELLO) || Rehello(s, e) }

  function OfferedBy(s: State, e: Event): Conn
    requires Offers(s, e)
  {
    if e.Accept? then s.nextConn else e.conn
  }

  function OfferedFds(s: State, e: Event): FdList
    requires Offers(s, e)
  {
    if e.Accept? then e.first.fds else e.msg.fds
  }

  /** The producer asks for descriptors. */
  predicate Picks(s: State, e: Event) {
    && e.Data? && s.producer == Some(e.conn) && e.msg.Message? && !Refused(e.msg) && e.msg.kind == PICKUP_FDS
  }

  /** The producer loses its slot: its connection ends, or the screen has changed. */
  predicate Drops(s: State, e: Event) { s.producer.Some? && (Ends(s, e, s.producer.value) || Changes(s, e)) }

  /** The descriptors are handed to the connected producer. */
  predicate Hands(s: State, fds: FdList, sends: Sends) { s.producer.Some? && |fds| == 4 && sends.fdsOk }

  // ---------------------------------------------------------------- what a handler comes to

  /** The handler that each event leads to; all others leave everything but the descriptors
      closed as it was. */
  predicate Handled(s: State, e: Event, t: State) {
    match e
    case Accept(m, sends) =>
      var c := s.nextConn;
      if Greets(m, CONSUMER_HELLO) then t == Deposit(SeatConsumer(s.(nextConn := c + 1), c), c, m.fds, sends)
      else if Greets(m, PRODUCER_HELLO) then
        t == GreetProducer(SeatProducer(s.(nextConn := c + 1), c), c, sends.screenOk)
      else t == s.(nextConn := c + 1, closed := t.closed)
    case Hangup(c) => if Live(s, c) then t == Disconnect(s, c) else t == s
    case Data(c, m, sends) =>
      if Ends(s, e, c) then t == Disconnect(s, c)
      else if Rehello(s, e) then t == Deposit(s, c, m.fds, sends)
      else if Screens(s, e) then t == StoreScreen(CloseReceived(s, m.fds), c, m.payload, sends)
      else if Picks(s, e) then t == TryDeliver(CloseReceived(s, m.fds), sends)
      else t == s.(closed := t.closed)
  }

  lemma DataHandled(s: State, c: Conn, m: Inbound, sends: Sends, e: Event, t: State)
    requires Live(s, c) && e == Data(c, m, sends) && t == ClientData(s, c, m, sends)
    ensures Handled(s, e, t)
  {
  }

  lemma AcceptHandled(s: State, m: Inbound, sends: Sends, e: Event, t: State)
    requires e == Accept(m, sends) && t == NewConnection(s, m, sends)
    ensures Handled(s, e, t)
  {
    var s0 := s.(nextConn := s.nextConn + 1);
    if Greets(m, CONSUMER_HELLO) {
      ConsumerAccepted(s, m, sends, SeatConsumer(s0, s.nextConn));
    } else if Greets(m, PRODUCER_HELLO) {
      ProducerAccepted(s, m, sends, SeatProducer(s0, s.nextConn));
    }
  }

  lemma StepHandled(s: State, e: Event, t: State)
    requires t == Step(s, e)
    ensures Handled(s, e, t)
  {
    match e
    case Accept(m, sends) => AcceptHandled(s, m, sends, e, t);
    case Data(c, m, sends) => if Live(s, c) { DataHandled(s, c, m, sends, e, t); }
    case Hangup(_) =>
  }

  // ---------------------------------------------------------------- the handlers, field by field

  lemma DeliverFields(s: State, sends: Sends, t: State)
    requires t == TryDeliver(s, sends)
    ensures t.consumer == s.consumer && t.producer == s.producer && t.nextConn == s.nextConn
    ensures t.screen == s.screen && t.waitScreen == s.waitScreen && t.sockets == s.sockets
    ensures t.deposit == if Hands(s, s.deposit, sends) then [] else s.deposit
    ensures t.waitFds <==> !Hands(s, s.deposit, sends)
    ensures Entries(t.log) == Entries(s.log) + Handing(s.producer, s.deposit, s.consumer, sends)
  {
  }

  /** What is said when descriptors are handed out: to the producer, and then to the consumer. */
  function Handing(producer: Option<Conn>, fds: FdList, consumer: Option<Conn>, sends: Sends): seq<Entry> {
    if producer.None? || |fds| < 4 then []
    else if !sends.fdsOk then [FdsTo(producer.value, fds, false)]
    else [FdsTo(producer.value, fds, true)] + if consumer.Some? then [ReadyTo(consumer.value, sends.readyOk)] else []
  }

  lemma DepositFields(s: State, c: Conn, fds: FdList, sends: Sends, t: State)
    requires t == Deposit(s, c, fds, sends)
    ensures t.consumer == s.consumer && t.producer == s.producer && t.nextConn == s.nextConn
    ensures t.screen == s.screen && t.waitScreen == s.waitScreen && t.sockets == s.sockets
    ensures t.deposit == if s.waitFds && Hands(s, fds, sends) then [] else fds
    ensures t.waitFds <==> s.waitFds && !Hands(s, fds, sends)
    ensures Entries(t.log)
         == Entries(s.log) + [Deposited(c, fds)] + if s.waitFds then Handing(s.producer, fds, s.consumer, sends) else []
  {
    var s1 := ClearDeposit(s);
    var s2 := s1.(deposit := fds, log := Then(s1.log, Deposited(c, fds)));
    if s.waitFds { DeliverFields(s2, sends, t); }
  }

  lemma StoreFields(s: State, c: Conn, si: Screen, sends: Sends, t: State)
    requires t == StoreScreen(s, c, si, sends)
    ensures var changed := s.screen.Some? && s.screen.value != si;
            && t.consumer == s.consumer && t.nextConn == s.nextConn && t.deposit == s.deposit && t.screen == Some(si)
            && (if changed && s.producer.Some?
                then t.producer == None && !t.waitScreen && !t.waitFds
                else t.producer == s.producer && t.waitFds == s.waitFds && t.sockets == s.sockets
                     && t.waitScreen == (s.waitScreen && s.producer.None?))
            && Entries(t.log)
               == Entries(s.log) + [ScreenFrom(c, si)]
                  + if s.waitScreen && s.producer.Some? && !changed
                    then [ScreenTo(s.producer.value, si, sends.screenOk)] else []
  {
  }

  lemma DisconnectFields(s: State, c: Conn, t: State)
    requires Ordered(s) && Live(s, c) && t == Disconnect(s, c)
    ensures t.consumer == if s.consumer == Some(c) then None else s.consumer
    ensures if s.producer == Some(c) then t.producer == None && !t.waitScreen && !t.waitFds
            else t.producer == s.producer && t.waitScreen == s.waitScreen && t.waitFds == s.waitFds
    ensures t.screen == s.screen && t.deposit == s.deposit && t.nextConn == s.nextConn && t.log == s.log
  {
  }

  lemma SeatFields(s: State, c: Conn, t: State)
    ensures t == SeatConsumer(s, c) ==>
              t == s.(consumer := Some(c), sockets := t.sockets)
    ensures t == SeatProducer(s, c) ==>
              t == s.(producer := Some(c), waitScreen := false, waitFds := false, sockets := t.sockets)
  {
  }

  lemma GreetFields(s: State, c: Conn, ok: bool, t: State)
    requires t == GreetProducer(s, c, ok)
    ensures t == s.(log := t.log, waitScreen := t.waitScreen)
    ensures t.waitScreen <==> s.screen.None? || s.waitScreen
    ensures Entries(t.log) == Entries(s.log) + if s.screen.Some? then [ScreenTo(c, s.screen.value, ok)] else []
  {
  }

  // ---------------------------------------------------------------- every step, field by field

  /** The consumer's slot. */
  predicate ConsumerAfter(s: State, e: Event, t: State) {
    t.consumer == if Greeted(e, CONSUMER_HELLO) then Some(s.nextConn)
                  else if s.consumer.Some? && Ends(s, e, s.consumer.value) then None
                  else s.consumer
  }

  /** The producer's slot, and with it the two flags. */
  predicate ProducerAfter(s: State, e: Event, t: State) {
    if Greeted(e, PRODUCER_HELLO) then
      t.producer == Some(s.nextConn) && !t.waitFds && (t.waitScreen <==> s.screen.None?)
    else if Drops(s, e) then
      t.producer == None && !t.waitFds && !t.waitScreen
    else
      && t.producer == s.producer
      && (t.waitScreen <==> s.waitScreen && !(Screens(s, e) && s.producer.Some?))
      && (t.waitFds <==> if Picks(s, e) then !Hands(s, s.deposit, e.sends)
                         else if Offers(s, e) then s.waitFds && !Hands(s, OfferedFds(s, e), e.sends)
                         else s.waitFds)
  }

  /** The screen. */
  predicate ScreenAfter(s: State, e: Event, t: State) {
    t.screen == if Screens(s, e) then Some(e.msg.payload) else s.screen
  }

  /** The deposit. */
  predicate DepositAfter(s: State, e: Event, t: State) {
    t.deposit == if Offers(s, e) then
                   (if s.waitFds && Hands(s, OfferedFds(s, e), e.sends) then [] else OfferedFds(s, e))
                 else if Picks(s, e) && Hands(s, s.deposit, e.sends) then []
                 else s.deposit
  }

  /** What the step says on the sockets. */
  function Said(s: State, e: Event): seq<Entry> {
    if Offers(s, e) then
      var c, fds := OfferedBy(s, e), OfferedFds(s, e);
      [Deposited(c, fds)] + if s.waitFds then Handing(s.producer, fds, Some(c), e.sends) else []
    else if Picks(s, e) then Handing(s.producer, s.deposit, s.consumer, e.sends)
    else if Screens(s, e) then
      [ScreenFrom(e.conn, e.msg.payload)]
      + if s.waitScreen && s.producer.Some? && !Changes(s, e)
        then [ScreenTo(s.producer.value, e.msg.payload, e.sends.screenOk)] else []
    else if Greeted(e, PRODUCER_HELLO) && s.screen.Some? then [ScreenTo(s.nextConn, s.screen.value, e.sends.screenOk)]
    else []
  }

  predicate LogAfter(s: State, e: Event, t: State) { Entries(t.log) == Entries(s.log) + Said(s, e) }

  predicate After(s: State, e: Event, t: State) {
    && ConsumerAfter(s, e, t) && ProducerAfter(s, e, t) && ScreenAfter(s, e, t) && DepositAfter(s, e, t)
    && LogAfter(s, e, t) && t.nextConn == if e.Accept? then s.nextConn + 1 else s.nextConn
  }

  lemma HelloAfter(s: State, e: Event, s1: State, t: State)
    requires Greeted(e, CONSUMER_HELLO) && t == Deposit(s1, s.nextConn, e.first.fds, e.sends)
    requires s1 == s.(nextConn := s.nextConn + 1, consumer := Some(s.nextConn), sockets := s1.sockets)
    ensures After(s, e, t)
  {
    DepositFields(s1, s.nextConn, e.first.fds, e.sends, t);
  }

  lemma ProducerHelloAfter(s: State, e: Event, s1: State, t: State)
    requires Greeted(e, PRODUCER_HELLO) && t == GreetProducer(s1, s.nextConn, e.sends.screenOk)
    requires s1 == s.(nextConn := s.nextConn + 1, producer := Some(s.nextConn), waitScreen := false, waitFds := false,
                      sockets := s1.sockets)
    ensures After(s, e, t)
  {
    GreetFields(s1, s.nextConn, e.sends.screenOk, t);
  }

  lemma AcceptAfter(s: State, e: Event, s0: State, t: State)
    requires e.Accept? && s0 == s.(nextConn := s.nextConn + 1) && Handled(s, e, t)
    ensures After(s, e, t)
  {
    var c := s.nextConn;
    if Greeted(e, CONSUMER_HELLO) {
      SeatFields(s0, c, SeatConsumer(s0, c));
      HelloAfter(s, e, SeatConsumer(s0, c), t);
    } else if Greeted(e, PRODUCER_HELLO) {
      SeatFields(s0, c, SeatProducer(s0, c));
      ProducerHelloAfter(s, e, SeatProducer(s0, c), t);
    }
  }

  lemma EndAfter(s: State, e: Event, c: Conn, t: State)
    requires Ordered(s) && Ends(s, e, c) && t == Disconnect(s, c)
    ensures After(s, e, t)
  {
    DisconnectFields(s, c, t);
  }

  lemma RehelloAfter(s: State, e: Event, t: State)
    requires Ordered(s) && Rehello(s, e) && t == Deposit(s, e.conn, e.msg.fds, e.sends)
    ensures After(s, e, t)
  {
    DepositFields(s, e.conn, e.msg.fds, e.sends, t);
  }

  lemma ScreenInfoAfter(s: State, e: Event, t: State)
    requires Ordered(s) && Screens(s, e)
    requires t == StoreScreen(CloseReceived(s, e.msg.fds), e.conn, e.msg.payload, e.sends)
    ensures After(s, e, t)
  {
    StoreFields(CloseReceived(s, e.msg.fds), e.conn, e.msg.payload, e.sends, t);
  }

  lemma PickupAfter(s: State, e: Event, t: State)
    requires Ordered(s) && Picks(s, e) && t == TryDeliver(CloseReceived(s, e.msg.fds), e.sends)
    ensures After(s, e, t)
  {
    DeliverFields(CloseReceived(s, e.msg.fds), e.sends, t);
  }

  lemma HandledAfter(s: State, e: Event, t: State)
    requires Ordered(s) && Handled(s, e, t)
    ensures After(s, e, t)
  {
    match e
    case Accept(_, _) => AcceptAfter(s, e, s.(nextConn := s.nextConn + 1), t);
    case Hangup(c) => if Live(s, c) { EndAfter(s, e, c, t); }
    case Data(c, _, _) =>
      if Ends(s, e, c) { EndAfter(s, e, c, t); }
      else if Rehello(s, e) { RehelloAfter(s, e, t); }
      else if Screens(s, e) { ScreenInfoAfter(s, e, t); }
      else if Picks(s, e) { PickupAfter(s, e, t); }
  }

  /** In every run, each step changes exactly the fields its event is to change. */
  lemma EveryStep(es: seq<Event>, e: Event)
    ensures After(Run(es), e, Step(Run(es), e))
  {
    RunKeeps(es, 0);
    StepHandled(Run(es), e, Step(Run(es), e));
    HandledAfter(Run(es), e, Step(Run(es), e));
  }

  /** In every run, a connected producer loses its slot in a step if and only if its connection
      ends, another producer says hello, or the consumer announces another screen than the one
      stored. */
  lemma ProducerLoses(es: seq<Event>, e: Event)
    requires Run(es).producer.Some?
    ensures var s := Run(es);
            Step(s, e).producer != s.producer <==>
              || Ends(s, e, s.producer.value)
              || Greeted(e, PRODUCER_HELLO)
              || (Screens(s, e) && s.screen.Some? && s.screen.value != e.msg.payload)
  {
    RunKeeps(es, 0);
    EveryStep(es, e);
  }

  /** In every run, announcing the stored screen again leaves both slots, both flags, the screen
      and the sockets as they were. */
  lemma SameScreen(es: seq<Event>, e: Event)
    requires var s := Run(es); Screens(s, e) && s.screen == Some(e.msg.payload)
    ensures var s, t := Run(es), Step(Run(es), e);
            && t.producer == s.producer && t.consumer == s.consumer && t.screen == s.screen
            && t.waitScreen == s.waitScreen && t.waitFds == s.waitFds && t.sockets == s.sockets
  {
    EveryRun(es);
    EveryStep(es, e);
    var s := Run(es);
    StepHandled(s, e, Step(s, e));
    StoreFields(CloseReceived(s, e.msg.fds), e.conn, e.msg.payload, e.sends, Step(s, e));
  }

  lemma PickedWaits(s: State, pick: Event, t: State)
    requires Picks(s, pick) && |s.deposit| < 4 && After(s, pick, t)
    ensures t.waitFds && t.producer == s.producer
  {
  }

  lemma OfferServes(s: State, offer: Event, t: State)
    requires s.waitFds && s.producer.Some? && After(s, offer, t)
    requires Offers(s, offer) && |OfferedFds(s, offer)| == 4 && offer.sends.fdsOk
    ensures t.deposit == [] && !t.waitFds && FdsTo(s.producer.value, OfferedFds(s, offer), true) in Entries(t.log)
  {
    var e := FdsTo(s.producer.value, OfferedFds(s, offer), true);
    assert Handing(s.producer, OfferedFds(s, offer), Some(OfferedBy(s, offer)), offer.sends)[0] == e;
    assert e in Said(s, offer);
  }

  lemma RunGrows(es: seq<Event>, e: Event, all: seq<Event>)
    requires all == es + [e]
    ensures Run(all) == Step(Run(es), e)
  {
    assert all[..|all| - 1] == es;
  }

  /** In every run, a pickup that finds no full deposit leaves the producer waiting, and the
      next full deposit is handed to it at once, if the send succeeds. */
  lemma WaitingIsServed(es: seq<Event>, pick: Event, offer: Event)
    requires var s := Run(es); Picks(s, pick) && |s.deposit| < 4
    requires var s := Run(es + [pick]); Offers(s, offer) && |OfferedFds(s, offer)| == 4 && offer.sends.fdsOk
    ensures var s := Run(es + [pick]); var t := Run(es + [pick] + [offer]);
            && s.waitFds && s.producer == Run(es).producer
            && t.deposit == [] && !t.waitFds
            && FdsTo(s.producer.value, OfferedFds(s, offer), true) in Entries(t.log)
  {
    RunGrows(es, pick, es + [pick]);
    RunGrows(es + [pick], offer, es + [pick] + [offer]);
    EveryStep(es, pick);
    EveryStep(es + [pick], offer);
    PickedWaits(Run(es), pick, Run(es + [pick]));
    OfferServes(Run(es + [pick]), offer, Run(es + [pick] + [offer]));
  }
}
