/**
 A notice that does not reach its consumer is never repeated: the daemon has handed out the
 descriptors, cleared its deposit and ignored that the send failed (daemon/daemon.c, lines
 109 to 115).  The consumer then stays in fallback for ever.
 */
module ProtocolStranded {
  import opened Options
  import opened DisplayDaemon
  import opened Contexts
  import opened Protocol
  import opened DaemonSafety
  import opened ProtocolInv
  import opened ProtocolSteps
  import opened ProtocolDaemon
  import opened ProtocolSafety
  import opened ProtocolOrder

  /** The consumer is in fallback, nothing offers its current session, and no notice is left. */
  predicate Stranded(w: World, c: Conn) {
    && c in w.cs && w.cs[c].made > 0 && CurrentGen(w, c) in w.ss
    && w.cs[c].fallback && w.cs[c].notices == 0 && !Offered(w.ss[CurrentGen(w, c)].far)
  }

  // ---------------------------------------------------------------- the daemon

  lemma DeliverLeaves(w: World, sends: Sends, c: Conn, w': World)
    requires DepositOk(w) && ConsumerOk(w, c) && Stranded(w, c) && w' == Deliver(w, sends)
    ensures Stranded(w', c)
  {
  }

  lemma ShelveLeaves(w: World, d: State, c0: Conn, g: Gen, w': World, c: Conn)
    requires Seated(w, d, c0, g) && ConsumerOk(w, c0) && Stranded(w, c) && w' == Shelve(Popped(w, c0).(d := d), c0, g)
    ensures Stranded(w', c)
  {
    ShelvedOwner(w, d, c0, g, w');
  }

  lemma OfferLeaves(w: World, d: State, c0: Conn, g: Gen, sends: Sends, w': World, c: Conn)
    requires Inv(w) && Seated(w, d, c0, g) && Stranded(w, c) && w' == Offer(Popped(w, c0).(d := d), c0, g, sends)
    ensures Stranded(w', c)
  {
    var w1 := Shelve(Popped(w, c0).(d := d), c0, g);
    assert ConsumerOk(w, c0);
    ShelveLeaves(w, d, c0, g, w1, c);
    ShelvedKeeps(w, d, c0, g, w1);
    assert ConsumerOk(w1, c);
    DeliverLeaves(w1, sends, c, Deliver(w1, sends));
  }

  lemma OrphanLeaves(w: World, c0: Conn, w': World, c: Conn)
    requires Stranded(w, c) && w'.cs == Orphan(w, c0).cs && w'.ss == Orphan(w, c0).ss
    ensures Stranded(w', c)
  {
  }

  lemma VacateLeavesStranded(w: World, c: Conn)
    requires Stranded(w, c)
    ensures Stranded(Vacate(w), c)
  {
    if w.d.consumer.Some? { OrphanLeaves(w, w.d.consumer.value, Vacate(w), c); }
  }

  lemma AdmittedLeaves(w: World, w1: World, c0: Conn, g: Gen, sends: Sends, w': World, c: Conn)
    requires Inv(w1) && Stranded(w1, c) && c0 == w1.d.nextConn < w1.next && w1.d.consumer == None && w1 == Vacate(w)
    requires c0 in w.cs && c0 in w1.cs && w1.cs[c0] == w.cs[c0] && w.cs[c0].up != [] && w.cs[c0].up[0] == Hello(g.k)
    requires g.c == c0 && g in w.ss && g in w1.ss && w' == AdmitConsumer(w, c0, g, sends)
    ensures Stranded(w', c)
  {
    OfferLeaves(w1, SeatConsumer(w1.d.(nextConn := c0 + 1), c0), c0, g, sends, w', c);
  }

  lemma AdmitLeaves(w: World, c0: Conn, g: Gen, sends: Sends, c: Conn)
    requires Inv(w) && c0 == w.d.nextConn < w.next && c0 in w.cs && w.cs[c0].up != [] && w.cs[c0].up[0] == Hello(g.k)
    requires g.c == c0 && g in w.ss && Stranded(w, c)
    ensures Stranded(AdmitConsumer(w, c0, g, sends), c)
  {
    VacateKeeps(w);
    VacateLeaves(w, c0);
    VacateLeavesStranded(w, c);
    AdmittedLeaves(w, Vacate(w), c0, g, sends, AdmitConsumer(w, c0, g, sends), c);
  }

  lemma AcceptLeaves(w: World, readable: bool, sends: Sends, c: Conn)
    requires Inv(w) && Stranded(w, c)
    ensures Stranded(AcceptNext(w, readable, sends), c)
  {
    var c0 := w.d.nextConn;
    if c0 < w.next {
      if !readable {
        OrphanLeaves(w, c0, AcceptNext(w, readable, sends), c);
      } else if c0 in w.cs && w.cs[c0].up != [] && w.cs[c0].up[0].Hello? && Gen(c0, w.cs[c0].up[0].k) in w.ss {
        AdmitLeaves(w, c0, Gen(c0, w.cs[c0].up[0].k), sends, c);
      }
    }
  }

  lemma ReadConsumerLeaves(w: World, sends: Sends, c: Conn)
    requires Inv(w) && Stranded(w, c)
    ensures Stranded(ReadConsumer(w, sends), c)
  {
    if w.d.consumer.Some? && w.cs[w.d.consumer.value].up != [] {
      var c0 := w.d.consumer.value;
      match w.cs[c0].up[0]
      case Hello(k) =>
        if Gen(c0, k) in w.ss {
          assert Popped(w, c0).(d := w.d) == Popped(w, c0);
          OfferLeaves(w, w.d, c0, Gen(c0, k), sends, ReadConsumer(w, sends), c);
        }
      case Announce(si) => assert ReadConsumer(w, sends) == Screened(Popped(w, c0), c0, si, sends);
    }
  }

  lemma ReadProducerLeaves(w: World, sends: Sends, c: Conn)
    requires Inv(w) && Stranded(w, c)
    ensures Stranded(ReadProducer(w, sends), c)
  {
    if w.d.producer.Some? && w.ps[w.d.producer.value].pickups > 0 {
      var p := w.d.producer.value;
      var w1 := w.(d := CloseReceived(w.d, []), ps := w.ps[p := w.ps[p].(pickups := w.ps[p].pickups - 1)]);
      PickupReadKeeps(w, p, w.ps[p].pickups - 1, w1);
      assert ConsumerOk(w1, c);
      DeliverLeaves(w1, sends, c, ReadProducer(w, sends));
    }
  }

  lemma DaemonLeaves(w: World, h: Happening, c: Conn)
    requires Inv(w) && Stranded(w, c) && FromDaemon(h)
    ensures Stranded(Happen(w, h), c)
  {
    match h
    case Accepts(readable, sends) => AcceptLeaves(w, readable, sends, c);
    case ReadsConsumer(sends) => ReadConsumerLeaves(w, sends, c);
    case ReadsProducer(sends) => ReadProducerLeaves(w, sends, c);
    case Hangs(_) => VacateLeavesStranded(w, c);
  }

  // ---------------------------------------------------------------- the clients

  /** No call of a stranded consumer does anything but store a list. */
  lemma CallStranded(w: World, h: Happening)
    requires ConsumerCallOf(h) && Awake(w, h.c) && Stranded(w, h.c) && !w.cs[h.c].pending
    ensures var a, b := SideOf(w, h.c), ConsumerCall(w, h); b == a.(x := a.x.(stored := b.x.stored))
  {
  }

  lemma OwnCallLeaves(w: World, h: Happening, w': World)
    requires ConsumerCallOf(h) && Awake(w, h.c) && Stranded(w, h.c) && !w.cs[h.c].pending
    requires w' == Happen(w, h)
    ensures Stranded(w', h.c)
  {
    CallStranded(w, h);
  }

  lemma OthersCallLeaves(w: World, h: Happening, c: Conn, w': World)
    requires Stranded(w, c) && ConsumerCallOf(h) && Awake(w, h.c) && h.c != c && w' == Happen(w, h)
    ensures Stranded(w', c)
  {
    assert w' == w || w' == PutConsumer(w, h.c, ConsumerCall(w, h));
  }

  lemma CallLeaves(w: World, h: Happening, c: Conn, w': World)
    requires Stranded(w, c) && ConsumerCallOf(h) && !w.cs[c].pending && w' == Happen(w, h)
    ensures Stranded(w', c)
  {
    ConsumerCalled(w, h, w');
    if w' != w {
      if h.c == c { OwnCallLeaves(w, h, w'); } else { OthersCallLeaves(w, h, c, w'); }
    }
  }

  lemma ConnectLeaves(w: World, h: Happening, c: Conn)
    requires w.next !in w.cs && Stranded(w, c) && (h.ConsumerConnects? || h.ConsumerAnnounces? || h.ConsumerLeaves?)
    ensures Stranded(Happen(w, h), c)
  {
  }

  lemma ConsumerStranded(w: World, h: Happening, c: Conn)
    requires Inv(w) && Stranded(w, c) && FromConsumer(h)
    ensures Stranded(Happen(w, h), c)
  {
    assert ConsumerOk(w, c);
    if ConsumerCallOf(h) {
      CallLeaves(w, h, c, Happen(w, h));
    } else {
      ConnectLeaves(w, h, c);
    }
  }

  lemma WorkLeaves(w: World, h: Happening, c: Conn)
    requires Stranded(w, c) && (h.ProducerWaits? || h.ProducerTriggers? || h.ProducerPolls?)
    requires InSession(w, h.p) ==> !Offered(w.ss[w.ps[h.p].session.value].far)
    ensures Stranded(Happen(w, h), c)
  {
  }

  lemma MailLeaves(w: World, p: Conn, mapOk: bool, c: Conn)
    requires Stranded(w, c) && p in w.ps && w.ps[p].down != []
    ensures Stranded(ReadMail(w, p, mapOk), c)
  {
  }

  lemma GoneLeaves(w: World, p: Conn, c: Conn)
    requires Stranded(w, c) && p in w.ps
    ensures Stranded(ProducerGone(w, p), c)
  {
  }

  lemma ProducerStranded(w: World, h: Happening, c: Conn)
    requires Inv(w) && Stranded(w, c) && !FromDaemon(h) && !FromConsumer(h)
    ensures Stranded(Happen(w, h), c)
  {
    if h.ProducerWaits? || h.ProducerTriggers? || h.ProducerPolls? {
      if InSession(w, h.p) { assert ProducerOk(w, h.p); }
      WorkLeaves(w, h, c);
    } else if h.ProducerReads? {
      if h.p in w.ps && w.ps[h.p].down != [] { MailLeaves(w, h.p, h.mapOk, c); }
    } else if h.ProducerLeaves? {
      if h.p in w.ps { GoneLeaves(w, h.p, c); }
    }
  }

  // ---------------------------------------------------------------- for ever

  lemma StepStranded(w: World, h: Happening, c: Conn)
    requires Inv(w) && Stranded(w, c)
    ensures Stranded(Happen(w, h), c)
  {
    if FromDaemon(h) {
      DaemonLeaves(w, h, c);
    } else if FromConsumer(h) {
      ConsumerStranded(w, h, c);
    } else {
      ProducerStranded(w, h, c);
    }
  }

  /** The world after some more happenings. */
  function After(w: World, more: seq<Happening>): World {
    if more == [] then w else Happen(After(w, more[..|more| - 1]), more[|more| - 1])
  }

  /** Whatever happens afterwards, a stranded consumer stays in fallback. */
  lemma {:induction false} StrandedForever(w: World, more: seq<Happening>, c: Conn)
    requires Inv(w) && Stranded(w, c)
    ensures Inv(After(w, more)) && Stranded(After(w, more), c)
  {
    if more != [] {
      StrandedForever(w, more[..|more| - 1], c);
      StepKeepsInv(After(w, more[..|more| - 1]), more[|more| - 1]);
      StepStranded(After(w, more[..|more| - 1]), more[|more| - 1], c);
    }
  }

  // ---------------------------------------------------------------- a lost notice

  /** When the daemon hands a session out, its consumer is stranded if and only if the notice
      does not get through. */
  lemma HandedOutStrands(w: World, sends: Sends, g: Gen, p: Conn, w': World)
    requires Delivering(w, sends, g, p) && w' == Deliver(w, sends)
    ensures Stranded(w', g.c) <==> !Possible(w, sends).readyOk
  {
    assert ConsumerOk(w, g.c);
  }

  /** The daemon reads a pickup request, with a full deposit and a live producer to send it to. */
  predicate Picking(w: World) {
    && w.d.producer.Some? && w.d.producer.value in w.ps && w.ps[w.d.producer.value].pickups > 0
    && w.ps[w.d.producer.value].alive && |w.d.deposit| == 4
  }

  lemma PickupStrands(w: World, sends: Sends, g: Gen)
    requires Inv(w) && Picking(w) && sends.fdsOk && !sends.readyOk && g == GenOf(w.d.deposit)
    ensures Stranded(ReadProducer(w, sends), g.c)
  {
    var p := w.d.producer.value;
    var w1 := w.(d := CloseReceived(w.d, []), ps := w.ps[p := w.ps[p].(pickups := w.ps[p].pickups - 1)]);
    PickupReadKeeps(w, p, w.ps[p].pickups - 1, w1);
    HandedOutStrands(w1, sends, g, p, ReadProducer(w, sends));
  }

  lemma LostNoticeIn(w: World, sends: Sends, w1: World, more: seq<Happening>, c: Conn)
    requires Inv(w) && Picking(w) && sends.fdsOk && !sends.readyOk && c == GenOf(w.d.deposit).c
    requires w1 == Happen(w, ReadsProducer(sends))
    ensures Stranded(After(w1, more), c)
  {
    PickupStrands(w, sends, GenOf(w.d.deposit));
    StepKeepsInv(w, ReadsProducer(sends));
    StrandedForever(w1, more, c);
  }

  /** If, after any history, the notice of a pickup fails, the consumer whose session was handed
      out never leaves fallback again. */
  lemma LostNotice(hs: seq<Happening>, sends: Sends, more: seq<Happening>)
    requires Picking(History(hs)) && sends.fdsOk && !sends.readyOk
    ensures var c := GenOf(History(hs).d.deposit).c;
            var after := After(Happen(History(hs), ReadsProducer(sends)), more);
            c in after.cs && after.cs[c].fallback
  {
    EveryHistory(hs);
    var w := History(hs);
    LostNoticeIn(w, sends, Happen(w, ReadsProducer(sends)), more, GenOf(w.d.deposit).c);
  }

  /** A consumer to whom a notice was lost has nothing left to hope for. */
  lemma LossStrands(w: World, c: Conn)
    requires LogOk(w, c) && TurnOf(w.d.log, c) == NoticeLost && (c in w.cs ==> ConsumerOk(w, c))
    ensures Stranded(w, c)
  {
    assert !Hopeful(w, c) && !Deposits(w.d, c);
  }

  /** Whichever handler lost it: once the log of any history shows a lost notice, the consumer
      it was meant for is stranded, and stays so. */
  lemma LossIsForEver(hs: seq<Happening>, i: nat, c: Conn, more: seq<Happening>)
    requires i < |Entries(History(hs).d.log)| && Entries(History(hs).d.log)[i] == ReadyTo(c, false)
    ensures Stranded(After(History(hs), more), c)
  {
    EveryHistory(hs);
    EveryLog(hs, c);
    var w := History(hs);
    LostIsLast(w.d.log, c, i);
    LossStrands(w, c);
    StrandedForever(w, more, c);
  }

  /** A producer is waiting for the descriptors of the hello at the head of connection `c`. */
  predicate Awaited(w: World, c: Conn) {
    && c in w.cs && w.cs[c].up != [] && w.cs[c].up[0].Hello? && Gen(c, w.cs[c].up[0].k) in w.ss
    && w.d.waitFds && w.d.producer.Some? && w.d.producer.value in w.ps && w.ps[w.d.producer.value].alive
  }

  lemma OfferLoses(w: World, c: Conn, g: Gen, sends: Sends, w': World)
    requires g in w.ss && w.d.consumer == Some(c) && w' == Offer(w, c, g, sends)
    requires w.d.waitFds && w.d.producer.Some? && w.d.producer.value in w.ps && w.ps[w.d.producer.value].alive
    requires sends.fdsOk && !sends.readyOk
    ensures w'.d.log.Then? && w'.d.log.last == ReadyTo(c, false)
  {
  }

  /** The daemon reads that hello, from its consumer or from a new connection. */
  predicate Hears(w: World, h: Happening, c: Conn) {
    || (h.ReadsConsumer? && w.d.consumer == Some(c))
    || (h.Accepts? && h.readable && c == w.d.nextConn < w.next)
  }

  lemma ReadLoses(w: World, c: Conn, sends: Sends, w': World)
    requires Awaited(w, c) && w.d.consumer == Some(c) && w' == ReadConsumer(w, sends)
    requires sends.fdsOk && !sends.readyOk
    ensures w'.d.log.Then? && w'.d.log.last == ReadyTo(c, false)
  {
    OfferLoses(Popped(w, c), c, Gen(c, w.cs[c].up[0].k), sends, w');
  }

  lemma VacatedAwaits(w: World, c: Conn, w1: World)
    requires Awaited(w, c) && w.d.consumer != Some(c) && w1 == Vacate(w)
    ensures Awaited(w1, c) && w1.cs[c] == w.cs[c]
  {
  }

  lemma AdmitLoses(w: World, c: Conn, g: Gen, sends: Sends, w1: World, w': World)
    requires c in w.cs && w.cs[c].up != [] && g in w.ss && g.c == c && w.cs[c].up[0] == Hello(g.k)
    requires w1 == Vacate(w) && Awaited(w1, c) && w1.cs[c] == w.cs[c] && w' == AdmitConsumer(w, c, g, sends)
    requires sends.fdsOk && !sends.readyOk
    ensures w'.d.log.Then? && w'.d.log.last == ReadyTo(c, false)
  {
    OfferLoses(Popped(w1, c).(d := SeatConsumer(w1.d.(nextConn := c + 1), c)), c, g, sends, w');
  }

  lemma HelloLoses(w: World, h: Happening, c: Conn, w': World)
    requires Awaited(w, c) && w' == Happen(w, h) && Hears(w, h, c)
    requires h.sends.fdsOk && !h.sends.readyOk && (w.d.consumer.Some? ==> w.d.consumer.value < w.d.nextConn)
    ensures w'.d.log.Then? && w'.d.log.last == ReadyTo(c, false)
  {
    if h.ReadsConsumer? {
      ReadLoses(w, c, h.sends, w');
    } else {
      VacatedAwaits(w, c, Vacate(w));
      AdmitLoses(w, c, Gen(c, w.cs[c].up[0].k), h.sends, Vacate(w), w');
    }
  }

  /** If, after any history, a hello is read while a producer waits and the notice fails, the
      consumer that said it never leaves fallback again. */
  lemma LostHelloNotice(hs: seq<Happening>, h: Happening, c: Conn, more: seq<Happening>)
    requires Awaited(History(hs), c) && Hears(History(hs), h, c)
    requires h.sends.fdsOk && !h.sends.readyOk
    ensures Stranded(After(Happen(History(hs), h), more), c)
  {
    EveryHistory(hs);
    HelloLoses(History(hs), h, c, Happen(History(hs), h));
    Grown(hs, h, hs + [h]);
    var log := History(hs + [h]).d.log;
    assert Entries(log)[|Entries(log.before)|] == ReadyTo(c, false);
    LossIsForEver(hs + [h], |Entries(log.before)|, c, more);
  }

  // ---------------------------------------------------------------- an input

  /** Consumer 0 is seated and the daemon holds its first session; no producer is connected. */
  predicate ConsumerSeated(w: World, screen: Option<Screen>, up: seq<Upward>) {
    && w.d.consumer == Some(0) && w.d.producer == None && w.d.deposit == FdsOf(Gen(0, 0))
    && w.d.nextConn == 1 && w.next == 1 && w.d.screen == screen && !w.d.waitScreen
    && 0 in w.cs && w.cs[0].alive && w.cs[0].made == 1 && w.cs[0].up == up
    && Gen(0, 0) in w.ss && 1 !in w.cs
  }

  /** Producer 1 is seated too, and is in fallback with some mail. */
  predicate BothSeated(w: World, down: seq<Mail>, greeted: bool) {
    && w.d.producer == Some(1) && w.d.deposit == FdsOf(Gen(0, 0)) && w.d.nextConn == 2 && w.next == 2
    && 1 in w.ps && w.ps[1].alive && w.ps[1].session == None && w.ps[1].down == down && w.ps[1].greeted == greeted
    && w.d.consumer == Some(0) && 0 in w.cs && w.cs[0].alive && w.cs[0].made == 1 && Gen(0, 0) in w.ss
  }

  const FINE: Sends := Sends(true, true, true)

  lemma Seats(w: World)
    requires w == Happen(Start(), ConsumerConnects)
    ensures ConsumerSeated(Happen(w, Accepts(true, FINE)), None, [])
  {
    assert w.cs[0].up == [Hello(0)] && Vacate(w) == w;
  }

  lemma Announces(w: World, si: Screen)
    requires ConsumerSeated(w, None, [])
    ensures ConsumerSeated(Happen(w, ConsumerAnnounces(0, si)), None, [Announce(si)])
  {
  }

  lemma Stores(w: World, si: Screen)
    requires ConsumerSeated(w, None, [Announce(si)])
    ensures ConsumerSeated(Happen(w, ReadsConsumer(FINE)), Some(si), [])
  {
  }

  lemma SeatsProducer(w: World, w1: World, si: Screen)
    requires ConsumerSeated(w, Some(si), []) && w1 == Happen(w, ProducerConnects)
    ensures BothSeated(Happen(w1, Accepts(true, FINE)), [ScreenMail(si)], false)
  {
    assert w1.d == w.d && w1.cs == w.cs && w1.next == 2 && w1.ps[1] == ConnectProducer();
    assert Happen(w1, Accepts(true, FINE)) == AdmitProducer(w1, 1, FINE);
  }

  lemma Asks(w: World, w1: World, si: Screen)
    requires BothSeated(w, [ScreenMail(si)], false) && w1 == Happen(w, ProducerReads(1, true))
    ensures var w2 := Happen(w1, ProducerAsks(1)); Picking(w2) && BothSeated(w2, [], true)
  {
    assert BothSeated(w1, [], true);
  }

  lemma Grown(hs: seq<Happening>, h: Happening, all: seq<Happening>)
    requires all == hs + [h]
    ensures History(all) == Happen(History(hs), h)
  {
    assert all[..|all| - 1] == hs;
  }

  /** A consumer connects and announces a screen, a producer connects and asks: the daemon is
      then about to hand out the session, as LostNotice supposes. */
  lemma PickingHappens(si: Screen) returns (hs: seq<Happening>)
    ensures Picking(History(hs)) && BothSeated(History(hs), [], true) && GenOf(History(hs).d.deposit).c == 0
  {
    var h1, h2, h3, h4 := ConsumerConnects, Accepts(true, FINE), ConsumerAnnounces(0, si), ReadsConsumer(FINE);
    var h5, h7, h8 := ProducerConnects, ProducerReads(1, true), ProducerAsks(1);
    var w1 := Happen(Start(), h1);
    Seats(w1);
    var w2 := Happen(w1, h2);
    Announces(w2, si);
    var w3 := Happen(w2, h3);
    Stores(w3, si);
    var w4 := Happen(w3, h4);
    var w5 := Happen(w4, h5);
    SeatsProducer(w4, w5, si);
    var w6 := Happen(w5, h2);
    var w7 := Happen(w6, h7);
    Asks(w6, w7, si);
    hs := [h1, h2, h3, h4, h5, h2, h7, h8];
    Eight(h1, h2, h3, h4, h5, h2, h7, h8);
    DepositKept(w6, w7, h8);
  }

  lemma PickupWaits(w: World, w1: World)
    requires Picking(w) && w1 == Happen(w, ReadsProducer(Sends(false, true, true)))
    ensures w1.d.waitFds && w1.d.producer == w.d.producer && w1.d.nextConn == w.d.nextConn && w1.next == w.next
    ensures w1.d.producer.value in w1.ps && w1.ps[w1.d.producer.value].alive
  {
  }

  lemma ConnectAwaited(w: World, w1: World)
    requires w.d.waitFds && w.d.producer.Some? && w.d.producer.value in w.ps && w.ps[w.d.producer.value].alive
    requires w.d.nextConn == w.next && w1 == Happen(w, ConsumerConnects)
    ensures Awaited(w1, w.next) && Hears(w1, Accepts(true, Sends(true, false, true)), w.next)
  {
  }

  /** From there, the send to the producer fails and a second consumer connects: its hello will
      be read while the producer waits, as LostHelloNotice supposes. */
  lemma AwaitedHappens(si: Screen) returns (hs: seq<Happening>, c: Conn)
    ensures Awaited(History(hs), c) && Hears(History(hs), Accepts(true, Sends(true, false, true)), c)
  {
    var before := PickingHappens(si);
    var h1, h2 := ReadsProducer(Sends(false, true, true)), ConsumerConnects;
    var w1 := Happen(History(before), h1);
    PickupWaits(History(before), w1);
    ConnectAwaited(w1, Happen(w1, h2));
    Grown(before, h1, before + [h1]);
    Grown(before + [h1], h2, before + [h1] + [h2]);
    hs, c := before + [h1] + [h2], w1.next;
  }

  lemma DepositKept(w: World, w1: World, h: Happening)
    requires w1 == Happen(w, ProducerReads(1, true)) && h == ProducerAsks(1)
    ensures Happen(w1, h).d == w.d
  {
  }

  lemma Eight(a: Happening, b: Happening, c: Happening, d: Happening,
              e: Happening, f: Happening, g: Happening, h: Happening)
    ensures History([a, b, c, d, e, f, g, h])
         == Happen(Happen(Happen(Happen(Happen(Happen(Happen(Happen(Start(), a), b), c), d), e), f), g), h)
  {
    Grown([], a, [a]);
    Grown([a], b, [a, b]);
    Grown([a, b], c, [a, b, c]);
    Grown([a, b, c], d, [a, b, c, d]);
    Grown([a, b, c, d], e, [a, b, c, d, e]);
    Grown([a, b, c, d, e], f, [a, b, c, d, e, f]);
    Grown([a, b, c, d, e, f], g, [a, b, c, d, e, f, g]);
    Grown([a, b, c, d, e, f, g], h, [a, b, c, d, e, f, g, h]);
  }
}
