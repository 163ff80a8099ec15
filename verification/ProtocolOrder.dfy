/**
 The order of events at the daemon, over every history: on each consumer connection deposits
 and notices strictly alternate, and the sessions deposited are offered in increasing order.
 */
module ProtocolOrder {
  import opened Options
  import opened DisplayDaemon
  import opened Contexts
  import opened Protocol
  import opened DaemonSafety
  import opened ProtocolInv
  import opened ProtocolSteps
  import opened ProtocolDaemon
  import opened ProtocolSafety

  // ---------------------------------------------------------------- alternation

  datatype Turn = DepositNext | NoticeNext | NoticeLost | Broken

  /** Reading the log of connection `c`: a deposit, a notice that gets through, a deposit, and
      so on; after a notice that does not get through, nothing more. */
  function TurnOf(log: Log, c: Conn): Turn {
    match log
    case Nothing => DepositNext
    case Then(before, e) =>
      var turn := TurnOf(before, c);
      if e.Deposited? && e.from == c then (if turn == DepositNext then NoticeNext else Broken)
      else if e.ReadyTo? && e.to == c then
        (if turn != NoticeNext then Broken else if e.ok then DepositNext else NoticeLost)
      else turn
  }

  predicate TurnOk(d: State, c: Conn) {
    && TurnOf(d.log, c) != Broken
    && (Deposits(d, c) ==> TurnOf(d.log, c) == NoticeNext)
    && (c >= d.nextConn ==> TurnOf(d.log, c) == DepositNext)
  }

  /** The consumer has a hello under way, a notice to read, or is out of fallback. */
  predicate Hopeful(w: World, c: Conn) {
    && c in w.cs && w.cs[c].made > 0 && CurrentGen(w, c) in w.ss
    && (w.ss[CurrentGen(w, c)].far == InHello || w.cs[c].notices > 0 || !w.cs[c].fallback)
  }

  /** Only a consumer whose last notice got through can make another deposit; only consumers
      make deposits. */
  predicate HopeOk(w: World, c: Conn) {
    && (Hopeful(w, c) ==> TurnOf(w.d.log, c) == DepositNext)
    && (TurnOf(w.d.log, c) != DepositNext ==> c in w.cs)
  }

  /** The deposit belongs to the connected consumer. */
  predicate OwnDeposit(d: State) {
    d.deposit != [] ==> |d.deposit| == 4 && (d.consumer.Some? ==> GenOf(d.deposit).c == d.consumer.value)
  }

  lemma TurnDeliver(d: State, ok: Sends, c: Conn)
    requires TurnOk(d, c) && OwnDeposit(d) && (d.consumer.Some? ==> d.consumer.value < d.nextConn)
    ensures TurnOk(TryDeliver(d, ok), c)
  {
  }

  function Shelved(d: State, c: Conn, g: Gen): State {
    ClearDeposit(d).(deposit := FdsOf(g), log := Then(d.log, Deposited(c, FdsOf(g))))
  }

  lemma TurnShelve(d: State, c0: Conn, g: Gen, c: Conn)
    requires TurnOk(d, c) && (c == c0 ==> TurnOf(d.log, c0) == DepositNext)
    requires d.consumer == Some(c0) && c0 < d.nextConn && g.c == c0
    ensures TurnOk(Shelved(d, c0, g), c) && OwnDeposit(Shelved(d, c0, g))
  {
  }

  lemma TurnSeat(d: State, c0: Conn, c: Conn)
    requires TurnOk(d, c) && c0 == d.nextConn
    ensures TurnOk(SeatConsumer(d.(nextConn := c0 + 1), c0), c)
    ensures SeatConsumer(d.(nextConn := c0 + 1), c0).log == d.log
  {
  }

  // ---------------------------------------------------------------- generations

  /** Sessions in the order of their connections, and of their making on one connection. */
  predicate Earlier(g: Gen, g': Gen) { g.c < g'.c || (g.c == g'.c && g.k < g'.k) }

  function LastOffer(log: Log): Option<Gen> {
    match log
    case Nothing => None
    case Then(before, e) => if e.Deposited? && e.fds != [] then Some(GenOf(e.fds)) else LastOffer(before)
  }

  /** Every deposit is a whole session, in order, and a later one than the one before it. */
  predicate Increasing(log: Log) {
    log.Then? ==>
      && Increasing(log.before)
      && (log.last.Deposited? && log.last.fds != [] ==> log.last.fds == FdsOf(GenOf(log.last.fds)))
      && (log.last.Deposited? && log.last.fds != [] && LastOffer(log.before).Some? ==>
            Earlier(LastOffer(log.before).value, GenOf(log.last.fds)))
  }

  predicate OrderOk(w: World) {
    && Increasing(w.d.log)
    && (LastOffer(w.d.log).Some? ==>
          var g := LastOffer(w.d.log).value;
          && g.c < w.d.nextConn && g in w.ss && w.ss[g].far != InHello
          && (w.d.consumer.Some? ==> g.c <= w.d.consumer.value))
  }

  /** A delivery attempt adds no deposit to the log. */
  lemma OffersDeliver(d: State, ok: Sends)
    ensures LastOffer(TryDeliver(d, ok).log) == LastOffer(d.log)
    ensures (Increasing(d.log) ==> Increasing(TryDeliver(d, ok).log))
  {
  }

  lemma OffersStored(d: State, c: Conn, si: Screen, ok: Sends)
    ensures LastOffer(StoreScreen(d, c, si, ok).log) == LastOffer(d.log)
    ensures Increasing(d.log) ==> Increasing(StoreScreen(d, c, si, ok).log)
  {
  }

  // ---------------------------------------------------------------- a hello is read once

  /** Session `g` is its consumer's current one, and the consumer is out of fallback. */
  predicate InUse(w: World, g: Gen) { g.c in w.cs && g.k + 1 == w.cs[g.c].made && !w.cs[g.c].fallback }

  /** Of session `g`, at most the place of its far end changes; no hello takes it up again. */
  predicate Carried(w: World, w': World, g: Gen) {
    && g in w.ss && g in w'.ss
    && w'.ss[g] == w.ss[g].(far := w'.ss[g].far)
    && (w'.ss[g].far == InHello ==> w.ss[g].far == InHello)
    && (InUse(w', g) ==> InUse(w, g))
  }

  lemma CarriedDeliver(w: World, sends: Sends, g: Gen)
    requires g in w.ss
    ensures Carried(w, Deliver(w, sends), g)
  {
  }

  lemma CarriedOffer(w: World, c: Conn, g0: Gen, sends: Sends, g: Gen)
    requires g in w.ss && g0 in w.ss
    ensures Carried(w, Offer(w, c, g0, sends), g)
  {
    var w1 := Shelve(w, c, g0);
    assert Carried(w, w1, g);
    CarriedDeliver(w1, sends, g);
  }

  lemma CarriedOrphan(w: World, c: Conn, g: Gen)
    requires g in w.ss
    ensures Carried(w, Orphan(w, c), g)
  {
  }

  lemma CarriedVacate(w: World, g: Gen)
    requires g in w.ss
    ensures Carried(w, Vacate(w), g)
  {
    if w.d.consumer.Some? { CarriedOrphan(w, w.d.consumer.value, g); }
  }

  lemma CarriedAdmit(w: World, c: Conn, g0: Gen, sends: Sends, g: Gen)
    requires g in w.ss && c in w.cs && w.cs[c].up != [] && g0 in w.ss
    ensures Carried(w, AdmitConsumer(w, c, g0, sends), g)
  {
    var w1 := Vacate(w);
    CarriedVacate(w, g);
    if c in w1.cs && w1.cs[c].up != [] && g0 in w1.ss {
      CarriedOffer(Popped(w1, c).(d := SeatConsumer(w1.d.(nextConn := c + 1), c)), c, g0, sends, g);
    }
  }

  lemma CarriedAccept(w: World, readable: bool, sends: Sends, g: Gen)
    requires g in w.ss
    ensures Carried(w, AcceptNext(w, readable, sends), g)
  {
    var c := w.d.nextConn;
    CarriedOrphan(w, c, g);
    if c in w.cs && w.cs[c].up != [] && w.cs[c].up[0].Hello? && Gen(c, w.cs[c].up[0].k) in w.ss {
      CarriedAdmit(w, c, Gen(c, w.cs[c].up[0].k), sends, g);
    }
  }

  lemma CarriedReadConsumer(w: World, sends: Sends, g: Gen)
    requires g in w.ss
    ensures Carried(w, ReadConsumer(w, sends), g)
  {
    if w.d.consumer.Some? && w.d.consumer.value in w.cs && w.cs[w.d.consumer.value].up != [] {
      var c := w.d.consumer.value;
      if w.cs[c].up[0].Hello? && Gen(c, w.cs[c].up[0].k) in w.ss {
        CarriedOffer(Popped(w, c), c, Gen(c, w.cs[c].up[0].k), sends, g);
      }
    }
  }

  lemma CarriedPickup(w: World, w1: World, sends: Sends, w2: World, g: Gen)
    requires g in w.ss && w1.ss == w.ss && w1.cs == w.cs && w2 == Deliver(w1, sends)
    ensures Carried(w, w2, g)
  {
    CarriedDeliver(w1, sends, g);
  }

  lemma CarriedReadProducer(w: World, sends: Sends, g: Gen)
    requires g in w.ss
    ensures Carried(w, ReadProducer(w, sends), g)
  {
    if w.d.producer.Some? && w.d.producer.value in w.ps && w.ps[w.d.producer.value].pickups > 0 {
      var p := w.d.producer.value;
      var w1 := w.(d := CloseReceived(w.d, []), ps := w.ps[p := w.ps[p].(pickups := w.ps[p].pickups - 1)]);
      CarriedPickup(w, w1, sends, ReadProducer(w, sends), g);
    }
  }

  lemma CarriedDaemon(w: World, h: Happening, g: Gen)
    requires g in w.ss && FromDaemon(h)
    ensures Carried(w, Happen(w, h), g)
  {
    match h
    case Accepts(readable, sends) => CarriedAccept(w, readable, sends, g);
    case ReadsConsumer(sends) => CarriedReadConsumer(w, sends, g);
    case ReadsProducer(sends) => CarriedReadProducer(w, sends, g);
    case Hangs(c) => CarriedVacate(w, g);
  }

  /** Of session `g`, neither the shared word nor the frames sent nor the hello is touched. */
  predicate Untouched(w: World, w': World, g: Gen) {
    && g in w.ss && g in w'.ss && w'.ss[g].word == w.ss[g].word && w'.ss[g].sent == w.ss[g].sent
    && (w'.ss[g].far == InHello ==> w.ss[g].far == InHello)
    && (InUse(w', g) ==> InUse(w, g))
  }

  /** The consumer's session is the only one its calls touch; they do not send its hello again. */
  lemma KeptCall(w: World, c: Conn, b: ConsumerSide, helloOk: bool, g: Gen)
    requires g in w.ss && Awake(w, c) && NamesFree(w, c)
    requires Stays(SideOf(w, c), b) || Renews(SideOf(w, c), b, helloOk)
    ensures g in PutConsumer(w, c, b).ss
    ensures PutConsumer(w, c, b).ss[g].far == InHello ==> w.ss[g].far == InHello
    ensures g != CurrentGen(w, c) ==> Untouched(w, PutConsumer(w, c, b), g)
  {
  }

  lemma KeptConsumer(w: World, h: Happening, b: ConsumerSide, w': World, g: Gen)
    requires g in w.ss && ConsumerCallOf(h) && Awake(w, h.c) && (h.ConsumerSelects? ==> !w.cs[h.c].pending)
    requires ConsumerOk(w, h.c) && SessionInv(w, CurrentGen(w, h.c)) && NamesFree(w, h.c)
    requires b == ConsumerCall(w, h) && b.x.made > 0 && w' == PutConsumer(w, h.c, b)
    ensures g in w'.ss && (w'.ss[g].far == InHello ==> w.ss[g].far == InHello)
    ensures g != CurrentGen(w, h.c) ==> Untouched(w, w', g)
  {
    CallEffect(w, h, SideOf(w, h.c), HeldCount(w, SideOf(w, h.c).s));
    KeptCall(w, h.c, b, h.helloOk && Linked(w, h.c), g);
  }

  /** Of a session, producers touch neither the word nor the frames. */
  predicate SameWord(s: Session, s': Session) {
    s'.word == s.word && s'.sent == s.sent && (s'.far == InHello ==> s.far == InHello)
  }

  lemma KeptPut(w: World, p: Conn, g0: Gen, b: ProducerSide, g: Gen)
    requires g in w.ss && g0 in w.ss && SameWord(w.ss[g0], b.s)
    ensures Untouched(w, PutProducer(w, p, g0, b), g)
  {
  }

  lemma WorkSameWord(b: ProducerSide, hup: bool)
    ensures SameWord(b.s, WaitBuffer(b, hup).s) && SameWord(b.s, TriggerRefresh(b).s)
    ensures SameWord(b.s, PollDisplay(b, hup).s)
  {
  }

  lemma KeptWork(w: World, h: Happening, w': World, g: Gen)
    requires g in w.ss && (h.ProducerWaits? || h.ProducerTriggers? || h.ProducerPolls?) && w' == Happen(w, h)
    ensures Untouched(w, w', g)
  {
    ProducerCalled(w, h, w');
    if w' != w {
      var g0, b := w.ps[h.p].session.value, PSideOf(w, h.p);
      match h
      case ProducerWaits(p, broken) =>
        WorkSameWord(b, broken || !ConsumerEndOpen(w, g0));
        KeptPut(w, p, g0, WaitBuffer(b, broken || !ConsumerEndOpen(w, g0)), g);
      case ProducerTriggers(p) =>
        WorkSameWord(b, false);
        KeptPut(w, p, g0, TriggerRefresh(b), g);
      case ProducerPolls(p, broken) =>
        WorkSameWord(b, broken || !ConsumerEndOpen(w, g0));
        KeptPut(w, p, g0, PollDisplay(b, broken || !ConsumerEndOpen(w, g0)), g);
    }
  }

  lemma KeptMail(w: World, p: Conn, mapOk: bool, g: Gen)
    requires g in w.ss && p in w.ps && w.ps[p].down != []
    ensures Untouched(w, ReadMail(w, p, mapOk), g)
  {
  }

  lemma KeptGone(w: World, p: Conn, g: Gen)
    requires g in w.ss && p in w.ps
    ensures Untouched(w, ProducerGone(w, p), g)
  {
  }

  predicate ProducerCallOf(h: Happening) {
    h.ProducerWaits? || h.ProducerTriggers? || h.ProducerPolls? || h.ProducerReads? || h.ProducerLeaves?
  }

  lemma KeptProducer(w: World, h: Happening, g: Gen)
    requires g in w.ss && ProducerCallOf(h)
    ensures Untouched(w, Happen(w, h), g)
  {
    if h.ProducerReads? {
      if h.p in w.ps && w.ps[h.p].down != [] { KeptMail(w, h.p, h.mapOk, g); }
    } else if h.ProducerLeaves? {
      if h.p in w.ps { KeptGone(w, h.p, g); }
    } else {
      KeptWork(w, h, Happen(w, h), g);
    }
  }

  lemma KeptOther(w: World, h: Happening, g: Gen)
    requires Inv(w) && g in w.ss && !FromDaemon(h) && !ConsumerCallOf(h) && !ProducerCallOf(h)
    ensures Untouched(w, Happen(w, h), g)
  {
    if h.ConsumerConnects? {
      assert w.next !in w.cs;
    }
  }

  lemma KeptByCall(w: World, h: Happening, w': World, g: Gen)
    requires Inv(w) && g in w.ss && ConsumerCallOf(h) && w' == Happen(w, h)
    ensures g in w'.ss && (w'.ss[g].far == InHello ==> w.ss[g].far == InHello)
    ensures !(Awake(w, h.c) && CurrentGen(w, h.c) == g) ==> Untouched(w, w', g)
  {
    ConsumerCalled(w, h, w');
    if w' != w {
      assert ConsumerOk(w, h.c) && SessionInv(w, CurrentGen(w, h.c)) && NamesFree(w, h.c);
      KeptConsumer(w, h, ConsumerCall(w, h), w', g);
    }
  }

  /** No step puts a session back into a hello, and only calls of its own consumer touch its
      word and its frames. */
  lemma SessionKept(w: World, h: Happening, g: Gen)
    requires Inv(w) && g in w.ss
    ensures g in Happen(w, h).ss
    ensures Happen(w, h).ss[g].far == InHello ==> w.ss[g].far == InHello
    ensures !(ConsumerCallOf(h) && Awake(w, h.c) && CurrentGen(w, h.c) == g) ==> Untouched(w, Happen(w, h), g)
  {
    if FromDaemon(h) {
      CarriedDaemon(w, h, g);
    } else if ConsumerCallOf(h) {
      KeptByCall(w, h, Happen(w, h), g);
    } else if ProducerCallOf(h) {
      KeptProducer(w, h, g);
    } else {
      KeptOther(w, h, g);
    }
  }

  // ---------------------------------------------------------------- every step

  /** The daemon's log is in order, for connection `c` and for all sessions. */
  predicate LogOk(w: World, c: Conn) { TurnOk(w.d, c) && HopeOk(w, c) && OrderOk(w) }

  /** Steps that leave the log of connection `c` alone give its consumer no new hope. */
  predicate NoNewHope(w: World, w': World, c: Conn) {
    (Hopeful(w', c) ==> Hopeful(w, c)) && (c in w.cs ==> c in w'.cs)
  }

  /** After a delivery, the consumer has hope only if its notice got through. */
  lemma HopeDeliver(w: World, sends: Sends, w': World, c: Conn)
    requires DepositOk(w) && TurnOk(w.d, c) && HopeOk(w, c) && w' == Deliver(w, sends)
    requires c in w.cs ==> ConsumerOk(w, c)
    ensures Hopeful(w', c) ==> TurnOf(w'.d.log, c) == DepositNext
  {
    if Hopeful(w', c) && w.d.deposit != [] && GenOf(w.d.deposit).c == c {
      assert CurrentGen(w', c) == CurrentGen(w, c);
    }
  }

  lemma TurnElsewhere(d: State, ok: Sends, c: Conn)
    requires d.consumer != Some(c)
    ensures TurnOf(TryDeliver(d, ok).log, c) == TurnOf(d.log, c)
  {
  }

  lemma LogDeliver(w: World, sends: Sends, c: Conn)
    requires Inv(w) && LogOk(w, c)
    ensures LogOk(Deliver(w, sends), c)
  {
    var w', ok := Deliver(w, sends), Possible(w, sends);
    HopeDeliver(w, sends, w', c);
    if w.d.consumer != Some(c) { TurnElsewhere(w.d, ok, c); }
    TurnDeliver(w.d, ok, c);
    OffersDeliver(w.d, ok);
    DeliverFacts(w.d, ok, []);
    assert w'.d == TryDeliver(w.d, ok);
    if LastOffer(w.d.log).Some? { CarriedDeliver(w, sends, LastOffer(w.d.log).value); }
  }

  /** A deposited session gives no hope until its notice. */
  lemma HopeShelve(w: World, d: State, c0: Conn, g: Gen, w': World, c: Conn)
    requires Seated(w, d, c0, g) && HopeOk(w, c) && w' == Shelve(Popped(w, c0).(d := d), c0, g)
    requires ConsumerOk(w, c0) && ConsumerOk(w', c0) && g == CurrentGen(w, c0) && w.ss[g].far == InHello
    ensures HopeOk(w', c) && (c == c0 ==> Hopeful(w, c))
  {
    if c != c0 { assert NoNewHope(w, w', c); }
  }

  lemma OrderShelve(w: World, d: State, c0: Conn, g: Gen, w': World)
    requires OrderOk(w) && Seated(w, d, c0, g) && w' == Shelve(Popped(w, c0).(d := d), c0, g)
    requires w.ss[g].far == InHello && forall g' | g' in w.ss && g'.c == c0 :: g'.k <= g.k
    ensures OrderOk(w')
  {
    if LastOffer(w.d.log).Some? {
      assert Earlier(LastOffer(w.d.log).value, g);
    }
  }

  lemma LogShelve(w: World, d: State, c0: Conn, g: Gen, w': World, c: Conn)
    requires Inv(w) && Seated(w, d, c0, g) && OrderOk(w) && TurnOk(d, c) && HopeOk(w, c)
    requires w' == Shelve(Popped(w, c0).(d := d), c0, g)
    ensures LogOk(w', c)
  {
    assert ConsumerOk(w, c0);
    ShelvedOwner(w, d, c0, g, w');
    HopeShelve(w, d, c0, g, w', c);
    OrderShelve(w, d, c0, g, w');
    TurnShelve(d, c0, g, c);
  }

  lemma LogOffer(w: World, d: State, c0: Conn, g: Gen, sends: Sends, w': World, c: Conn)
    requires Inv(w) && Seated(w, d, c0, g) && OrderOk(w) && TurnOk(d, c) && HopeOk(w, c)
    requires w' == Offer(Popped(w, c0).(d := d), c0, g, sends)
    ensures LogOk(w', c)
  {
    var w1 := Shelve(Popped(w, c0).(d := d), c0, g);
    LogShelve(w, d, c0, g, w1, c);
    ShelvedKeeps(w, d, c0, g, w1);
    LogDeliver(w1, sends, c);
  }

  lemma LogVacate(w: World, c: Conn)
    requires LogOk(w, c)
    ensures LogOk(Vacate(w), c)
  {
    assert NoNewHope(w, Vacate(w), c);
    if LastOffer(w.d.log).Some? { CarriedVacate(w, LastOffer(w.d.log).value); }
  }

  lemma LogSeated(w: World, c0: Conn, g: Gen, sends: Sends, w': World, c: Conn)
    requires Inv(w) && LogOk(w, c) && c0 == w.d.nextConn < w.next && w.d.consumer == None
    requires c0 in w.cs && w.cs[c0].up != [] && w.cs[c0].up[0] == Hello(g.k) && g.c == c0 && g in w.ss
    requires w' == Offer(Popped(w, c0).(d := SeatConsumer(w.d.(nextConn := c0 + 1), c0)), c0, g, sends)
    ensures LogOk(w', c)
  {
    assert ConsumerOk(w, c0);
    TurnSeat(w.d, c0, c);
    LogOffer(w, SeatConsumer(w.d.(nextConn := c0 + 1), c0), c0, g, sends, w', c);
  }

  lemma LogAdmitted(w: World, w1: World, c0: Conn, g: Gen, sends: Sends, w': World, c: Conn)
    requires Inv(w1) && LogOk(w1, c) && c0 == w1.d.nextConn < w1.next && w1.d.consumer == None && w1 == Vacate(w)
    requires c0 in w.cs && c0 in w1.cs && w1.cs[c0] == w.cs[c0] && w.cs[c0].up != [] && w.cs[c0].up[0] == Hello(g.k)
    requires g.c == c0 && g in w.ss && g in w1.ss && w' == AdmitConsumer(w, c0, g, sends)
    ensures LogOk(w', c)
  {
    LogSeated(w1, c0, g, sends, w', c);
  }

  lemma LogAdmit(w: World, c0: Conn, g: Gen, sends: Sends, c: Conn)
    requires Inv(w) && LogOk(w, c)
    requires c0 == w.d.nextConn < w.next && c0 in w.cs && w.cs[c0].up != [] && w.cs[c0].up[0] == Hello(g.k)
    requires g.c == c0 && g in w.ss
    ensures LogOk(AdmitConsumer(w, c0, g, sends), c)
  {
    VacateKeeps(w);
    VacateLeaves(w, c0);
    LogVacate(w, c);
    LogAdmitted(w, Vacate(w), c0, g, sends, AdmitConsumer(w, c0, g, sends), c);
  }

  lemma GreetLog(d: State, p: Conn, ok: bool, t: State, c: Conn)
    requires t == GreetProducer(SeatProducer(d.(nextConn := p + 1), p), p, ok) && p == d.nextConn
    requires TurnOk(d, c) && Increasing(d.log) && d.consumer != Some(p)
    ensures TurnOk(t, c) && Increasing(t.log) && LastOffer(t.log) == LastOffer(d.log)
    ensures t.consumer == d.consumer && t.nextConn == p + 1 && TurnOf(t.log, c) == TurnOf(d.log, c)
  {
    assert t.deposit == d.deposit && t.consumer == d.consumer && t.nextConn == p + 1;
    assert t.log == d.log || (t.log.Then? && t.log.before == d.log && t.log.last.ScreenTo?);
  }

  /** A step that adds no deposit to the log keeps the log in order. */
  lemma SameOffers(w: World, w': World, t: State, c: Conn)
    requires LogOk(w, c) && w'.d == t && w'.ss == w.ss && w'.cs == w.cs
    requires Increasing(t.log) && LastOffer(t.log) == LastOffer(w.d.log)
    requires t.consumer == w.d.consumer && t.nextConn >= w.d.nextConn && TurnOk(t, c)
    requires TurnOf(t.log, c) == TurnOf(w.d.log, c)
    ensures LogOk(w', c)
  {
  }

  lemma AdmitProducerParts(w: World, p: Conn, sends: Sends, ok: bool)
    requires p in w.ps && ok == (sends.screenOk && w.ps[p].alive)
    ensures AdmitProducer(w, p, sends).d == GreetProducer(SeatProducer(w.d.(nextConn := p + 1), p), p, ok)
    ensures AdmitProducer(w, p, sends).ss == w.ss && AdmitProducer(w, p, sends).cs == w.cs
  {
  }

  lemma LogGreet(w: World, p: Conn, ok: bool, w': World, c: Conn)
    requires LogOk(w, c) && p == w.d.nextConn && p in w.ps && w.d.consumer != Some(p)
    requires w'.d == GreetProducer(SeatProducer(w.d.(nextConn := p + 1), p), p, ok) && w'.ss == w.ss && w'.cs == w.cs
    ensures LogOk(w', c)
  {
    GreetLog(w.d, p, ok, w'.d, c);
    SameOffers(w, w', w'.d, c);
  }

  lemma LogScreened(w: World, c0: Conn, si: Screen, sends: Sends, c: Conn)
    requires LogOk(w, c)
    ensures LogOk(Screened(w, c0, si, sends), c)
  {
    OffersStored(CloseReceived(w.d, []), c0, si, Possible(w, sends));
    TurnStored(CloseReceived(w.d, []), c0, si, Possible(w, sends), c);
  }

  lemma TurnStored(d: State, c0: Conn, si: Screen, ok: Sends, c: Conn)
    requires TurnOk(d, c)
    ensures TurnOk(StoreScreen(d, c0, si, ok), c) && StoreScreen(d, c0, si, ok).consumer == d.consumer
    ensures StoreScreen(d, c0, si, ok).nextConn == d.nextConn
    ensures TurnOf(StoreScreen(d, c0, si, ok).log, c) == TurnOf(d.log, c)
  {
  }

  lemma LogUnread(w: World, c0: Conn, c: Conn)
    requires LogOk(w, c) && c0 == w.d.nextConn && (w.d.consumer.Some? ==> w.d.consumer.value < c0)
    ensures LogOk(Orphan(w, c0).(d := w.d.(nextConn := c0 + 1)), c)
  {
    assert NoNewHope(w, Orphan(w, c0).(d := w.d.(nextConn := c0 + 1)), c);
    if LastOffer(w.d.log).Some? { CarriedOrphan(w, c0, LastOffer(w.d.log).value); }
  }

  lemma LogAccept(w: World, readable: bool, sends: Sends, c: Conn)
    requires Inv(w) && LogOk(w, c)
    ensures LogOk(AcceptNext(w, readable, sends), c)
  {
    var c0 := w.d.nextConn;
    if c0 < w.next {
      if !readable {
        LogUnread(w, c0, c);
      } else if c0 in w.cs && w.cs[c0].up != [] && w.cs[c0].up[0].Hello? && Gen(c0, w.cs[c0].up[0].k) in w.ss {
        LogAdmit(w, c0, Gen(c0, w.cs[c0].up[0].k), sends, c);
      } else if c0 in w.ps {
        var ok := sends.screenOk && w.ps[c0].alive;
        AdmitProducerParts(w, c0, sends, ok);
        LogGreet(w, c0, ok, AdmitProducer(w, c0, sends), c);
      }
    }
  }

  lemma LogReadConsumer(w: World, sends: Sends, c: Conn)
    requires Inv(w) && LogOk(w, c)
    ensures LogOk(ReadConsumer(w, sends), c)
  {
    if w.d.consumer.Some? && w.cs[w.d.consumer.value].up != [] {
      var c0 := w.d.consumer.value;
      match w.cs[c0].up[0]
      case Hello(k) =>
        if Gen(c0, k) in w.ss {
          assert Popped(w, c0).(d := w.d) == Popped(w, c0);
          LogOffer(w, w.d, c0, Gen(c0, k), sends, ReadConsumer(w, sends), c);
        }
      case Announce(si) => LogScreened(Popped(w, c0), c0, si, sends, c);
    }
  }

  lemma LogReadProducer(w: World, sends: Sends, c: Conn)
    requires Inv(w) && LogOk(w, c)
    ensures LogOk(ReadProducer(w, sends), c)
  {
    if w.d.producer.Some? && w.ps[w.d.producer.value].pickups > 0 {
      var p := w.d.producer.value;
      var w1 := w.(d := CloseReceived(w.d, []), ps := w.ps[p := w.ps[p].(pickups := w.ps[p].pickups - 1)]);
      PickupReadKeeps(w, p, w.ps[p].pickups - 1, w1);
      LogDeliver(w1, sends, c);
    }
  }

  /** Steps of the clients do not touch the daemon. */
  lemma ClientStep(w: World, h: Happening)
    requires !FromDaemon(h)
    ensures Happen(w, h).d == w.d
  {
  }

  lemma HopeCall(w: World, h: Happening, b: ConsumerSide, w': World, c: Conn)
    requires ConsumerCallOf(h) && Awake(w, h.c) && (h.ConsumerSelects? ==> !w.cs[h.c].pending)
    requires ConsumerOk(w, h.c) && SessionInv(w, CurrentGen(w, h.c)) && NamesFree(w, h.c)
    requires b == ConsumerCall(w, h) && b.x.made > 0 && w' == PutConsumer(w, h.c, b)
    ensures NoNewHope(w, w', c)
  {
    CallEffect(w, h, SideOf(w, h.c), HeldCount(w, SideOf(w, h.c).s));
    HopePut(w, h.c, b, h.helloOk && Linked(w, h.c), c);
  }

  /** No call of the consumer library gives hope: only a notice ends fallback, and only a
      consumer out of fallback sends another hello. */
  lemma HopePut(w: World, c0: Conn, b: ConsumerSide, helloOk: bool, c: Conn)
    requires Awake(w, c0) && NamesFree(w, c0)
    requires Stays(SideOf(w, c0), b) || Renews(SideOf(w, c0), b, helloOk)
    ensures NoNewHope(w, PutConsumer(w, c0, b), c)
  {
  }

  lemma HopeByCall(w: World, h: Happening, w': World, c: Conn)
    requires Inv(w) && ConsumerCallOf(h) && w' == Happen(w, h)
    ensures NoNewHope(w, w', c)
  {
    ConsumerCalled(w, h, w');
    if w' != w {
      assert ConsumerOk(w, h.c) && SessionInv(w, CurrentGen(w, h.c)) && NamesFree(w, h.c);
      HopeCall(w, h, ConsumerCall(w, h), w', c);
    }
  }

  /** A producer's step changes no consumer. */
  lemma ConsumersLeft(w: World, h: Happening)
    requires ProducerCallOf(h)
    ensures Happen(w, h).cs == w.cs
  {
  }

  lemma HopeByProducer(w: World, h: Happening, c: Conn)
    requires ProducerCallOf(h) && (c in w.cs && w.cs[c].made > 0 ==> CurrentGen(w, c) in w.ss)
    ensures NoNewHope(w, Happen(w, h), c)
  {
    ConsumersLeft(w, h);
    if c in w.cs && w.cs[c].made > 0 { KeptProducer(w, h, CurrentGen(w, c)); }
  }

  lemma HopeByOther(w: World, h: Happening, c: Conn)
    requires !FromDaemon(h) && !ConsumerCallOf(h) && !ProducerCallOf(h)
    ensures (h.ConsumerConnects? && c == w.next) || NoNewHope(w, Happen(w, h), c)
  {
  }

  lemma HopeStep(w: World, h: Happening, w': World, c: Conn)
    requires Inv(w) && LogOk(w, c) && !FromDaemon(h) && w' == Happen(w, h) && w'.d == w.d
    ensures HopeOk(w', c)
  {
    if ConsumerCallOf(h) {
      HopeByCall(w, h, w', c);
    } else if ProducerCallOf(h) {
      HopeByProducer(w, h, c);
    } else {
      HopeByOther(w, h, c);
    }
  }

  lemma LogStep(w: World, h: Happening, c: Conn)
    requires Inv(w) && LogOk(w, c)
    ensures LogOk(Happen(w, h), c)
  {
    if FromDaemon(h) {
      LogDaemon(w, h, c);
    } else {
      ClientStep(w, h);
      HopeStep(w, h, Happen(w, h), c);
      if LastOffer(w.d.log).Some? { SessionKept(w, h, LastOffer(w.d.log).value); }
    }
  }

  lemma LogDaemon(w: World, h: Happening, c: Conn)
    requires Inv(w) && LogOk(w, c) && FromDaemon(h)
    ensures LogOk(Happen(w, h), c)
  {
    match h
    case Accepts(readable, sends) => LogAccept(w, readable, sends, c);
    case ReadsConsumer(sends) => LogReadConsumer(w, sends, c);
    case ReadsProducer(sends) => LogReadProducer(w, sends, c);
    case Hangs(_) => LogVacate(w, c);
  }

  lemma {:induction false} EveryLog(hs: seq<Happening>, c: Conn)
    ensures LogOk(History(hs), c)
  {
    if hs != [] {
      var before := hs[..|hs| - 1];
      EveryLog(before, c);
      EveryHistory(before);
      LogStep(History(before), hs[|hs| - 1], c);
    }
  }

  /** After every history, deposits and notices that got through alternate on each consumer
      connection, starting with a deposit, and after a notice that was lost there is neither:
      a notice left over from one session can never be taken for that of a later one, and no
      session is deposited before the notice of the one before it was received. */
  lemma Alternation(hs: seq<Happening>, c: Conn)
    ensures TurnOf(History(hs).d.log, c) != Broken
  {
    EveryLog(hs, c);
  }

  /** A turn to deposit comes from a notice that got through. */
  lemma {:induction false} NoticeSince(log: Log, c: Conn, i: nat) returns (k: nat)
    requires TurnOf(log, c) == DepositNext && i < |Entries(log)|
    requires Entries(log)[i].Deposited? && Entries(log)[i].from == c
    ensures i < k < |Entries(log)| && Entries(log)[k] == ReadyTo(c, true)
  {
    if log.last == ReadyTo(c, true) {
      k := |Entries(log.before)|;
    } else {
      k := NoticeSince(log.before, c, i);
    }
  }

  lemma {:induction false} NoticeBetween(log: Log, c: Conn, i: nat, j: nat) returns (k: nat)
    requires TurnOf(log, c) != Broken && i < j < |Entries(log)|
    requires Entries(log)[i].Deposited? && Entries(log)[i].from == c
    requires Entries(log)[j].Deposited? && Entries(log)[j].from == c
    ensures i < k < j && Entries(log)[k] == ReadyTo(c, true)
  {
    if j < |Entries(log.before)| {
      k := NoticeBetween(log.before, c, i, j);
    } else {
      k := NoticeSince(log.before, c, i);
    }
  }

  /** A lost notice leaves the connection's part of the log as it is. */
  lemma {:induction false} LostIsLast(log: Log, c: Conn, i: nat)
    requires TurnOf(log, c) != Broken && i < |Entries(log)| && Entries(log)[i] == ReadyTo(c, false)
    ensures TurnOf(log, c) == NoticeLost
    ensures forall j | i < j < |Entries(log)| ::
              && !(Entries(log)[j].Deposited? && Entries(log)[j].from == c)
              && !(Entries(log)[j].ReadyTo? && Entries(log)[j].to == c)
  {
    if i < |Entries(log.before)| {
      LostIsLast(log.before, c, i);
    }
  }

  /** After every history: between two deposits of one connection, its consumer was sent the
      notice of the first. */
  lemma NoticedBetween(hs: seq<Happening>, c: Conn, i: nat, j: nat) returns (k: nat)
    requires var log := Entries(History(hs).d.log);
             i < j < |log| && log[i].Deposited? && log[i].from == c && log[j].Deposited? && log[j].from == c
    ensures i < k < j && Entries(History(hs).d.log)[k] == ReadyTo(c, true)
  {
    EveryLog(hs, c);
    k := NoticeBetween(History(hs).d.log, c, i, j);
  }

  /** After every history: once a notice to a connection is lost, that connection makes no
      further deposit and is sent no further notice. */
  lemma NothingAfterLoss(hs: seq<Happening>, c: Conn, i: nat, j: nat)
    requires i < j < |Entries(History(hs).d.log)| && Entries(History(hs).d.log)[i] == ReadyTo(c, false)
    ensures var e := Entries(History(hs).d.log)[j]; !(e.Deposited? && e.from == c) && !(e.ReadyTo? && e.to == c)
  {
    EveryLog(hs, c);
    LostIsLast(History(hs).d.log, c, i);
  }

  lemma {:induction false} OffersWhole(log: Log, i: nat)
    requires Increasing(log) && i < |Entries(log)| && Entries(log)[i].Deposited? && Entries(log)[i].fds != []
    ensures Entries(log)[i].fds == FdsOf(GenOf(Entries(log)[i].fds))
  {
    if i < |Entries(log.before)| {
      OffersWhole(log.before, i);
    }
  }

  lemma {:induction false} OffersBefore(log: Log, i: nat)
    requires Increasing(log) && i < |Entries(log)| && Entries(log)[i].Deposited? && Entries(log)[i].fds != []
    ensures LastOffer(log).Some?
    ensures var g := GenOf(Entries(log)[i].fds); g == LastOffer(log).value || Earlier(g, LastOffer(log).value)
  {
    if i < |Entries(log.before)| {
      OffersBefore(log.before, i);
    }
  }

  lemma {:induction false} OffersSorted(log: Log, i: nat, j: nat)
    requires Increasing(log) && i < j < |Entries(log)|
    requires Entries(log)[i].Deposited? && Entries(log)[i].fds != []
    requires Entries(log)[j].Deposited? && Entries(log)[j].fds != []
    ensures Earlier(GenOf(Entries(log)[i].fds), GenOf(Entries(log)[j].fds))
  {
    if j < |Entries(log.before)| {
      OffersSorted(log.before, i, j);
    } else {
      OffersBefore(log.before, i);
    }
  }

  /** After every history, hellos read later are of later sessions. */
  lemma GenerationsIncrease(hs: seq<Happening>, i: nat, j: nat)
    requires var log := Entries(History(hs).d.log);
             && i < j < |log| && log[i].Deposited? && log[i].fds != [] && log[j].Deposited? && log[j].fds != []
    ensures var log := Entries(History(hs).d.log); Earlier(GenOf(log[i].fds), GenOf(log[j].fds))
  {
    EveryLog(hs, 0);
    OffersSorted(History(hs).d.log, i, j);
  }
}
