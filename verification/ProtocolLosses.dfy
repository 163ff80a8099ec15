/**
 Exactly how a consumer comes to be stranded: the steps that do it, for every state of the
 system, and with them the histories after which a consumer stays in fallback for ever.
 */
module ProtocolLosses {
  import opened Messages
  import opened Options
  import opened DisplayDaemon
  import opened Contexts
  import opened Protocol
  import opened ProtocolInv
  import opened ProtocolSteps
  import opened ProtocolDaemon
  import opened ProtocolSafety
  import opened ProtocolStranded

  // ---------------------------------------------------------------- the steps

  predicate Known(w: World, c: Conn) { c in w.cs && w.cs[c].made > 0 && CurrentGen(w, c) in w.ss }

  function FarOf(w: World, c: Conn): Far
    requires Known(w, c)
  {
    w.ss[CurrentGen(w, c)].far
  }

  /** The descriptors can be sent to the daemon's producer. */
  predicate Sendable(w: World, sends: Sends) {
    sends.fdsOk && w.d.producer.Some? && w.d.producer.value in w.ps && w.ps[w.d.producer.value].alive
  }

  /** The call makes its consumer enter fallback. */
  predicate Falls(a: ConsumerSide, h: Happening)
    requires ConsumerCallOf(h)
  {
    match h
    case ConsumerPushes(_, list, sendOk, _) =>
      0 < |list| <= MAX_BUFS && !a.x.fallback && (!sendOk || a.s.far == Gone)
    case ConsumerSelects(_, _, sendOk, _) =>
      a.x.fallback && a.x.notices > 0 && a.x.stored != [] && (!sendOk || a.s.far == Gone)
    case ConsumerWaits(_, broken, _) => a.x.pending && (broken || a.s.far == Gone)
    case ConsumerSends(_, _, _, sendOk, _) => !a.x.fallback && (!sendOk || a.s.far == Gone)
  }

  /** Step `h` takes from consumer `c` whatever could still end its fallback: its hello fails or
      is lost unread with its connection, its deposit is replaced by another consumer's, or its
      descriptors are handed out and the notice does not get through. */
  predicate Strands(w: World, h: Happening, c: Conn) {
    Known(w, c) &&
    if ConsumerCallOf(h) then
      h.c == c && Awake(w, c) && Falls(SideOf(w, c), h) && !(h.helloOk && Linked(w, c))
    else match h
    case Accepts(readable, sends) =>
      && w.d.nextConn < w.next
      && if !readable then c == w.d.nextConn
         else if c == w.d.nextConn then w.d.waitFds && Sendable(w, sends) && !(sends.readyOk && w.cs[c].alive)
         else w.d.nextConn in w.cs
              && (FarOf(w, c) == AtDaemon || (FarOf(w, c) == InHello && w.d.consumer == Some(c)))
    case ReadsConsumer(sends) =>
      && w.d.consumer == Some(c) && w.cs[c].up != [] && w.cs[c].up[0].Hello?
      && w.d.waitFds && Sendable(w, sends) && !(sends.readyOk && w.cs[c].alive)
    case ReadsProducer(sends) =>
      && Sendable(w, sends) && w.ps[w.d.producer.value].pickups > 0 && FarOf(w, c) == AtDaemon
      && !(sends.readyOk && w.d.consumer == Some(c) && w.cs[c].alive)
    case Hangs(c') => c' == c && w.d.consumer == Some(c) && FarOf(w, c) == InHello
    case _ => false
  }

  // ---------------------------------------------------------------- the daemon's steps

  lemma DeliverStrands(w: World, sends: Sends, c: Conn, w': World)
    requires DepositOk(w) && ConsumerOk(w, c) && !Stranded(w, c) && w' == Deliver(w, sends)
    ensures Stranded(w', c) <==>
              Sendable(w, sends) && FarOf(w, c) == AtDaemon
              && !(sends.readyOk && w.d.consumer == Some(c) && w.cs[c].alive)
  {
  }

  lemma ShelveStrands(w: World, d: State, c0: Conn, g: Gen, w': World, c: Conn)
    requires Seated(w, d, c0, g) && ConsumerOk(w, c0) && ConsumerOk(w, c) && !Stranded(w, c)
    requires w' == Shelve(Popped(w, c0).(d := d), c0, g)
    ensures c != c0 ==> (Stranded(w', c) <==> FarOf(w, c) == AtDaemon)
    ensures c == c0 ==> !Stranded(w', c) && FarOf(w', c) == AtDaemon
    ensures Known(w', c) && w'.cs[c].alive == w.cs[c].alive
    ensures c != c0 && !Stranded(w', c) ==> FarOf(w', c) == FarOf(w, c)
  {
    ShelvedOwner(w, d, c0, g, w');
  }

  lemma OfferStrands(w: World, d: State, c0: Conn, g: Gen, sends: Sends, w': World, c: Conn)
    requires Inv(w) && Seated(w, d, c0, g) && d.waitFds == w.d.waitFds && c in w.cs && !Stranded(w, c)
    requires w' == Offer(Popped(w, c0).(d := d), c0, g, sends)
    ensures c != c0 ==> (Stranded(w', c) <==> FarOf(w, c) == AtDaemon)
    ensures c == c0 ==>
              (Stranded(w', c) <==> w.d.waitFds && Sendable(w, sends) && !(sends.readyOk && w.cs[c].alive))
  {
    var w1 := Shelve(Popped(w, c0).(d := d), c0, g);
    assert ConsumerOk(w, c0) && ConsumerOk(w, c);
    ShelvedKeeps(w, d, c0, g, w1);
    ShelveStrands(w, d, c0, g, w1, c);
    OfferedStrands(w, d, c0, g, sends, w1, w', c);
  }

  lemma OfferedStrands(w: World, d: State, c0: Conn, g: Gen, sends: Sends, w1: World, w': World, c: Conn)
    requires Seated(w, d, c0, g) && d.waitFds == w.d.waitFds && Known(w, c) && Inv(w1)
    requires w1 == Shelve(Popped(w, c0).(d := d), c0, g) && w' == (if w1.d.waitFds then Deliver(w1, sends) else w1)
    requires c != c0 ==> (Stranded(w1, c) <==> FarOf(w, c) == AtDaemon)
    requires c == c0 ==> !Stranded(w1, c) && Known(w1, c) && FarOf(w1, c) == AtDaemon
    requires Known(w1, c) && w1.cs[c].alive == w.cs[c].alive
    requires c != c0 && !Stranded(w1, c) ==> FarOf(w1, c) == FarOf(w, c)
    ensures c != c0 ==> (Stranded(w', c) <==> FarOf(w, c) == AtDaemon)
    ensures c == c0 ==>
              (Stranded(w', c) <==> w.d.waitFds && Sendable(w, sends) && !(sends.readyOk && w.cs[c].alive))
  {
    assert ConsumerOk(w1, c);
    if w1.d.waitFds {
      if Stranded(w1, c) { DeliverLeaves(w1, sends, c, w'); } else { DeliverStrands(w1, sends, c, w'); }
    }
  }

  lemma OrphanStrands(w: World, c0: Conn, w': World, c: Conn)
    requires Known(w, c) && !Stranded(w, c) && w'.cs == Orphan(w, c0).cs && w'.ss == Orphan(w, c0).ss
    requires ConsumerOk(w, c)
    ensures Stranded(w', c) <==> c == c0 && FarOf(w, c) == InHello
    ensures Known(w', c) && (!Stranded(w', c) ==> FarOf(w', c) == FarOf(w, c))
  {
  }

  lemma VacateStrands(w: World, c: Conn)
    requires ConsumerOk(w, c) && !Stranded(w, c)
    ensures var w' := Vacate(w);
            && Known(w', c) && (Stranded(w', c) <==> w.d.consumer == Some(c) && FarOf(w, c) == InHello)
            && (!Stranded(w', c) ==> FarOf(w', c) == FarOf(w, c))
  {
    if w.d.consumer.Some? { OrphanStrands(w, w.d.consumer.value, Vacate(w), c); }
  }

  lemma AdmittedStrands(w: World, w1: World, c0: Conn, g: Gen, sends: Sends, w': World, c: Conn)
    requires Inv(w1) && c0 == w1.d.nextConn < w1.next && w1.d.consumer == None && w1 == Vacate(w)
    requires c0 in w.cs && c0 in w1.cs && w1.cs[c0] == w.cs[c0] && w.cs[c0].up != [] && w.cs[c0].up[0] == Hello(g.k)
    requires g.c == c0 && g in w.ss && g in w1.ss && w' == AdmitConsumer(w, c0, g, sends)
    requires c in w1.cs && !Stranded(w1, c)
    ensures c != c0 ==> (Stranded(w', c) <==> FarOf(w1, c) == AtDaemon)
    ensures c == c0 ==>
              (Stranded(w', c) <==> w1.d.waitFds && Sendable(w1, sends) && !(sends.readyOk && w1.cs[c].alive))
  {
    OfferStrands(w1, SeatConsumer(w1.d.(nextConn := c0 + 1), c0), c0, g, sends, w', c);
  }

  lemma VacateSendable(w: World, sends: Sends)
    ensures Vacate(w).d.waitFds == w.d.waitFds && (Sendable(Vacate(w), sends) <==> Sendable(w, sends))
  {
  }

  lemma AdmitStrands(w: World, c0: Conn, g: Gen, sends: Sends, c: Conn, h: Happening)
    requires Inv(w) && c0 == w.d.nextConn < w.next && c0 in w.cs && w.cs[c0].up != [] && w.cs[c0].up[0] == Hello(g.k)
    requires g.c == c0 && g in w.ss && c in w.cs && !Stranded(w, c) && h == Accepts(true, sends)
    ensures Stranded(AdmitConsumer(w, c0, g, sends), c) <==> Strands(w, h, c)
  {
    VacateKeeps(w);
    VacateLeaves(w, c0);
    assert ConsumerOk(w, c);
    VacateStrands(w, c);
    VacateSendable(w, sends);
    if Stranded(Vacate(w), c) {
      AdmitLeavesStranded(w, Vacate(w), c0, g, sends, AdmitConsumer(w, c0, g, sends), c);
    } else {
      AdmittedStrands(w, Vacate(w), c0, g, sends, AdmitConsumer(w, c0, g, sends), c);
    }
  }

  lemma AdmitLeavesStranded(w: World, w1: World, c0: Conn, g: Gen, sends: Sends, w': World, c: Conn)
    requires Inv(w1) && Stranded(w1, c) && c0 == w1.d.nextConn < w1.next && w1.d.consumer == None && w1 == Vacate(w)
    requires c0 in w.cs && c0 in w1.cs && w1.cs[c0] == w.cs[c0] && w.cs[c0].up != [] && w.cs[c0].up[0] == Hello(g.k)
    requires g.c == c0 && g in w.ss && g in w1.ss && w' == AdmitConsumer(w, c0, g, sends)
    ensures Stranded(w', c)
  {
    AdmittedLeaves(w, w1, c0, g, sends, w', c);
  }

  /** A consumer in the queue has its hello at the head. */
  lemma Queued(w: World, c: Conn)
    requires ConsumerOk(w, c) && c >= w.d.nextConn
    ensures FarOf(w, c) == InHello && w.cs[c].up != [] && w.cs[c].up[0] == Hello(w.cs[c].made - 1)
  {
    var up := w.cs[c].up;
    assert Hellos(up) == [w.cs[c].made - 1] && up != [];
    assert Hellos(up) == [up[0].k] + Hellos(up[1..]);
    assert Hellos(up)[0] == up[0].k;
  }

  lemma AcceptStrands(w: World, readable: bool, sends: Sends, c: Conn, h: Happening)
    requires Inv(w) && c in w.cs && !Stranded(w, c) && h == Accepts(readable, sends)
    ensures Stranded(AcceptNext(w, readable, sends), c) <==> Strands(w, h, c)
  {
    var c0 := w.d.nextConn;
    assert ConsumerOk(w, c);
    if c0 < w.next {
      if !readable {
        if c == c0 { Queued(w, c); }
        OrphanStrands(w, c0, AcceptNext(w, readable, sends), c);
      } else if c0 in w.cs {
        assert ConsumerOk(w, c0);
        Queued(w, c0);
        AdmitStrands(w, c0, CurrentGen(w, c0), sends, c, h);
      }
    }
  }

  lemma HelloStrands(w: World, c0: Conn, sends: Sends, w': World, c: Conn, h: Happening)
    requires Inv(w) && w.d.consumer == Some(c0) && w.cs[c0].up != [] && w.cs[c0].up[0] == Hello(CurrentGen(w, c0).k)
    requires ConsumerOk(w, c) && ConsumerOk(w, c0) && !Stranded(w, c) && h == ReadsConsumer(sends)
    requires w' == Offer(Popped(w, c0), c0, CurrentGen(w, c0), sends)
    ensures Stranded(w', c) <==> Strands(w, h, c)
  {
    assert Popped(w, c0).(d := w.d) == Popped(w, c0);
    OfferStrands(w, w.d, c0, CurrentGen(w, c0), sends, w', c);
    if c != c0 { Seatless(w, c0, c); }
  }

  /** Beside the daemon's consumer, no other has the deposit. */
  lemma Seatless(w: World, c0: Conn, c: Conn)
    requires DepositOk(w) && w.d.consumer == Some(c0) && ConsumerOk(w, c) && c != c0
    ensures FarOf(w, c) != AtDaemon
  {
  }

  lemma ScreenedStrands(w: World, c0: Conn, si: Screen, sends: Sends, w': World, c: Conn)
    requires c0 in w.cs && w.cs[c0].up != [] && Known(w, c) && !Stranded(w, c)
    requires w' == Screened(Popped(w, c0), c0, si, sends)
    ensures !Stranded(w', c)
  {
  }

  /** What the daemon's read of its consumer comes to. */
  lemma ConsumerRead(w: World, sends: Sends, c0: Conn, w': World)
    requires w.d.consumer == Some(c0) && c0 in w.cs && w.cs[c0].up != [] && w' == ReadConsumer(w, sends)
    ensures w.cs[c0].up[0].Announce? ==> w' == Screened(Popped(w, c0), c0, w.cs[c0].up[0].si, sends)
    ensures w.cs[c0].up[0].Hello? && Gen(c0, w.cs[c0].up[0].k) in w.ss ==>
              w' == Offer(Popped(w, c0), c0, Gen(c0, w.cs[c0].up[0].k), sends)
  {
  }

  lemma ReadConsumerStrands(w: World, sends: Sends, c: Conn, h: Happening, w': World)
    requires Inv(w) && c in w.cs && !Stranded(w, c) && h == ReadsConsumer(sends) && w' == ReadConsumer(w, sends)
    ensures Stranded(w', c) <==> Strands(w, h, c)
  {
    assert ConsumerOk(w, c);
    if w.d.consumer.Some? && w.cs[w.d.consumer.value].up != [] {
      var c0 := w.d.consumer.value;
      assert ConsumerOk(w, c0);
      ConsumerRead(w, sends, c0, w');
      match w.cs[c0].up[0]
      case Hello(k) =>
        HelloReadCurrent(w, c0);
        HelloStrands(w, c0, sends, w', c, h);
      case Announce(si) => ScreenedStrands(w, c0, si, sends, w', c);
    }
  }

  lemma HelloReadCurrent(w: World, c: Conn)
    requires ConsumerOk(w, c) && w.cs[c].up != [] && w.cs[c].up[0].Hello?
    ensures Gen(c, w.cs[c].up[0].k) == CurrentGen(w, c)
  {
    var up := w.cs[c].up;
    assert Hellos(up) == [up[0].k] + Hellos(up[1..]);
    assert |Hellos(up)| == 1 + |Hellos(up[1..])| && Hellos(up)[0] == up[0].k;
  }

  lemma PickupStrandsIf(w: World, p: Conn, sends: Sends, w1: World, c: Conn, h: Happening)
    requires w.d.producer == Some(p) && p in w.ps && w.ps[p].pickups > 0
    requires w1 == w.(d := CloseReceived(w.d, []), ps := w.ps[p := w.ps[p].(pickups := w.ps[p].pickups - 1)])
    requires ConsumerOk(w1, c) && DepositOk(w1) && Known(w, c) && !Stranded(w, c) && h == ReadsProducer(sends)
    ensures Stranded(Deliver(w1, sends), c) <==> Strands(w, h, c)
  {
    DeliverStrands(w1, sends, c, Deliver(w1, sends));
  }

  lemma PickupKeeps(w: World, p: Conn, w1: World, c: Conn)
    requires Inv(w) && p in w.ps && w.ps[p].pickups > 0 && c in w.cs
    requires w1 == w.(d := CloseReceived(w.d, []), ps := w.ps[p := w.ps[p].(pickups := w.ps[p].pickups - 1)])
    ensures ConsumerOk(w1, c) && DepositOk(w1)
  {
    PickupReadKeeps(w, p, w.ps[p].pickups - 1, w1);
  }

  /** What the daemon's read of a pickup request comes to. */
  lemma ProducerRead(w: World, sends: Sends, p: Conn, w1: World, w': World)
    requires w.d.producer == Some(p) && p in w.ps && w.ps[p].pickups > 0 && w' == ReadProducer(w, sends)
    requires w1 == w.(d := CloseReceived(w.d, []), ps := w.ps[p := w.ps[p].(pickups := w.ps[p].pickups - 1)])
    ensures w' == Deliver(w1, sends)
  {
  }

  lemma PickupRead(w: World, sends: Sends, p: Conn, w1: World, w': World, c: Conn, h: Happening)
    requires w.d.producer == Some(p) && p in w.ps && w.ps[p].pickups > 0 && w' == ReadProducer(w, sends)
    requires w1 == w.(d := CloseReceived(w.d, []), ps := w.ps[p := w.ps[p].(pickups := w.ps[p].pickups - 1)])
    requires Inv(w) && c in w.cs && ConsumerOk(w, c) && !Stranded(w, c) && h == ReadsProducer(sends)
    ensures Stranded(w', c) <==> Strands(w, h, c)
  {
    ProducerRead(w, sends, p, w1, w');
    PickupKeeps(w, p, w1, c);
    PickupStrandsIf(w, p, sends, w1, c, h);
  }

  lemma ReadProducerStrands(w: World, sends: Sends, c: Conn, h: Happening, w': World)
    requires Inv(w) && c in w.cs && !Stranded(w, c) && h == ReadsProducer(sends) && w' == ReadProducer(w, sends)
    ensures Stranded(w', c) <==> Strands(w, h, c)
  {
    assert ConsumerOk(w, c);
    if w.d.producer.Some? && w.ps[w.d.producer.value].pickups > 0 {
      var p := w.d.producer.value;
      var w1 := w.(d := CloseReceived(w.d, []), ps := w.ps[p := w.ps[p].(pickups := w.ps[p].pickups - 1)]);
      PickupRead(w, sends, p, w1, w', c, h);
    }
  }

  lemma HangStrands(w: World, c0: Conn, c: Conn, h: Happening, w': World)
    requires Inv(w) && c in w.cs && !Stranded(w, c) && h == Hangs(c0) && w' == HangUp(w, c0)
    ensures Stranded(w', c) <==> Strands(w, h, c)
  {
    assert ConsumerOk(w, c);
    if w.d.consumer == Some(c0) { VacateStrands(w, c); }
  }

  lemma DaemonStrands(w: World, h: Happening, c: Conn)
    requires Inv(w) && c in w.cs && !Stranded(w, c) && FromDaemon(h)
    ensures Stranded(Happen(w, h), c) <==> Strands(w, h, c)
  {
    match h
    case Accepts(readable, sends) => AcceptStrands(w, readable, sends, c, h);
    case ReadsConsumer(sends) => ReadConsumerStrands(w, sends, c, h, ReadConsumer(w, sends));
    case ReadsProducer(sends) => ReadProducerStrands(w, sends, c, h, ReadProducer(w, sends));
    case Hangs(c0) => HangStrands(w, c0, c, h, HangUp(w, c0));
  }

  // ---------------------------------------------------------------- the clients' steps

  /** What a call of a consumer that is not stranded leaves it with. */
  lemma OwnCall(w: World, h: Happening, c: Conn, b: ConsumerSide)
    requires ConsumerCallOf(h) && h.c == c && Awake(w, c) && ConsumerOk(w, c) && !Stranded(w, c)
    requires (h.ConsumerSelects? ==> !w.cs[c].pending) && b == ConsumerCall(w, h)
    ensures b.x.fallback && b.x.notices == 0 && !Offered(b.s.far) <==>
              Falls(SideOf(w, c), h) && !(h.helloOk && Linked(w, c))
    ensures b.x.made > 0
  {
  }

  lemma PutStrands(w: World, c: Conn, b: ConsumerSide)
    requires b.x.made > 0
    ensures Stranded(PutConsumer(w, c, b), c) <==> b.x.fallback && b.x.notices == 0 && !Offered(b.s.far)
  {
  }

  lemma OwnCallStrands(w: World, h: Happening, c: Conn, w': World)
    requires ConsumerCallOf(h) && h.c == c && ConsumerOk(w, c) && !Stranded(w, c) && w' == Happen(w, h)
    ensures Stranded(w', c) <==> Strands(w, h, c)
  {
    if Awake(w, c) && (h.ConsumerSelects? ==> !w.cs[c].pending) {
      var b := ConsumerCall(w, h);
      OwnCall(w, h, c, b);
      PutStrands(w, c, b);
      assert w' == PutConsumer(w, c, b);
    } else {
      assert w' == w;
    }
  }

  lemma OtherCallStrands(w: World, h: Happening, c: Conn, w': World)
    requires ConsumerCallOf(h) && h.c != c && Known(w, c) && !Stranded(w, c) && w' == Happen(w, h)
    ensures !Stranded(w', c)
  {
    ConsumerCalled(w, h, w');
  }

  lemma RestStrands(w: World, h: Happening, c: Conn)
    requires w.next !in w.cs && Known(w, c) && !Stranded(w, c)
    requires h.ConsumerConnects? || h.ConsumerAnnounces? || h.ConsumerLeaves?
    ensures !Stranded(Happen(w, h), c)
  {
  }

  lemma ConsumerStrands(w: World, h: Happening, c: Conn)
    requires Inv(w) && c in w.cs && !Stranded(w, c) && FromConsumer(h)
    ensures Stranded(Happen(w, h), c) <==> Strands(w, h, c)
  {
    assert ConsumerOk(w, c);
    if !ConsumerCallOf(h) {
      RestStrands(w, h, c);
    } else if h.c == c {
      OwnCallStrands(w, h, c, Happen(w, h));
    } else {
      OtherCallStrands(w, h, c, Happen(w, h));
    }
  }

  lemma WorkStrands(w: World, h: Happening, c: Conn)
    requires Known(w, c) && !Stranded(w, c) && (h.ProducerWaits? || h.ProducerTriggers? || h.ProducerPolls?)
    requires InSession(w, h.p) ==> !Offered(w.ss[w.ps[h.p].session.value].far)
    ensures !Stranded(Happen(w, h), c)
  {
  }

  lemma MailStrands(w: World, p: Conn, mapOk: bool, c: Conn)
    requires Known(w, c) && !Stranded(w, c) && ProducerOk(w, p) && w.ps[p].down != []
    ensures !Stranded(ReadMail(w, p, mapOk), c)
  {
  }

  lemma GoneStrands(w: World, p: Conn, c: Conn)
    requires Known(w, c) && !Stranded(w, c) && p in w.ps
    ensures !Stranded(ProducerGone(w, p), c)
  {
  }

  lemma ProducerStrands(w: World, h: Happening, c: Conn)
    requires Inv(w) && c in w.cs && !Stranded(w, c) && !FromDaemon(h) && !FromConsumer(h)
    ensures !Stranded(Happen(w, h), c)
  {
    assert ConsumerOk(w, c);
    if h.ProducerWaits? || h.ProducerTriggers? || h.ProducerPolls? {
      if InSession(w, h.p) { assert ProducerOk(w, h.p); }
      WorkStrands(w, h, c);
    } else if h.ProducerReads? {
      if h.p in w.ps && w.ps[h.p].down != [] {
        assert ProducerOk(w, h.p);
        MailStrands(w, h.p, h.mapOk, c);
      }
    } else if h.ProducerLeaves? {
      if h.p in w.ps { GoneStrands(w, h.p, c); }
    }
  }

  // ---------------------------------------------------------------- exactly

  /** A step strands a consumer if and only if it is one of those. */
  lemma StrandsExactly(w: World, h: Happening, c: Conn)
    requires Inv(w) && c in w.cs && !Stranded(w, c)
    ensures Stranded(Happen(w, h), c) <==> Strands(w, h, c)
  {
    if FromDaemon(h) {
      DaemonStrands(w, h, c);
    } else if FromConsumer(h) {
      ConsumerStrands(w, h, c);
    } else {
      ProducerStrands(w, h, c);
    }
  }

  /** Some step of the history was one of those. */
  predicate StrandedBy(hs: seq<Happening>, c: Conn) {
    hs != [] && (StrandedBy(hs[..|hs| - 1], c) || Strands(History(hs[..|hs| - 1]), hs[|hs| - 1], c))
  }

  /** Only a connection makes a consumer. */
  lemma NoNewcomer(w: World, h: Happening, c: Conn, w': World)
    requires c !in w.cs && !h.ConsumerConnects? && w' == Happen(w, h)
    requires w.d.consumer.Some? ==> w.d.consumer.value in w.cs
    ensures c !in w'.cs
  {
    if FromDaemon(h) { DaemonMakesNone(w, h, c); }
  }

  lemma DeliverMakesNone(w: World, sends: Sends, c: Conn)
    requires c !in w.cs && (w.d.consumer.Some? ==> w.d.consumer.value in w.cs)
    ensures c !in Deliver(w, sends).cs
  {
  }

  lemma OfferMakesNone(w: World, c0: Conn, g: Gen, sends: Sends, c: Conn)
    requires c !in w.cs && g in w.ss && (w.d.consumer.Some? ==> w.d.consumer.value in w.cs)
    ensures c !in Offer(w, c0, g, sends).cs
  {
    DeliverMakesNone(Shelve(w, c0, g), sends, c);
  }

  lemma AdmitMakesNone(w: World, w1: World, c0: Conn, g: Gen, sends: Sends, c: Conn)
    requires c !in w.cs && c0 in w.cs && w.cs[c0].up != [] && g in w.ss && w1 == Vacate(w)
    ensures c !in AdmitConsumer(w, c0, g, sends).cs
  {
    assert w1.cs.Keys == w.cs.Keys;
    if c0 in w1.cs && w1.cs[c0].up != [] && g in w1.ss {
      OfferMakesNone(Popped(w1, c0).(d := SeatConsumer(w1.d.(nextConn := c0 + 1), c0)), c0, g, sends, c);
    }
  }

  lemma AcceptMakesNone(w: World, readable: bool, sends: Sends, c: Conn)
    requires c !in w.cs
    ensures c !in AcceptNext(w, readable, sends).cs
  {
    var c0 := w.d.nextConn;
    if c0 in w.cs && w.cs[c0].up != [] && w.cs[c0].up[0].Hello? && Gen(c0, w.cs[c0].up[0].k) in w.ss {
      AdmitMakesNone(w, Vacate(w), c0, Gen(c0, w.cs[c0].up[0].k), sends, c);
    }
  }

  lemma ReadMakesNone(w: World, sends: Sends, c: Conn)
    requires c !in w.cs && (w.d.consumer.Some? ==> w.d.consumer.value in w.cs)
    ensures c !in ReadConsumer(w, sends).cs
  {
    if w.d.consumer.Some? && w.cs[w.d.consumer.value].up != [] {
      var c0 := w.d.consumer.value;
      match w.cs[c0].up[0]
      case Hello(k) => if Gen(c0, k) in w.ss { OfferMakesNone(Popped(w, c0), c0, Gen(c0, k), sends, c); }
      case Announce(_) =>
    }
  }

  lemma DaemonMakesNone(w: World, h: Happening, c: Conn)
    requires c !in w.cs && FromDaemon(h) && (w.d.consumer.Some? ==> w.d.consumer.value in w.cs)
    ensures c !in Happen(w, h).cs
  {
    match h
    case Accepts(readable, sends) => AcceptMakesNone(w, readable, sends, c);
    case ReadsConsumer(sends) => ReadMakesNone(w, sends, c);
    case ReadsProducer(sends) =>
      if w.d.producer.Some? && w.d.producer.value in w.ps && w.ps[w.d.producer.value].pickups > 0 {
        var p := w.d.producer.value;
        var x := w.ps[p].(pickups := w.ps[p].pickups - 1);
        DeliverMakesNone(w.(d := CloseReceived(w.d, []), ps := w.ps[p := x]), sends, c);
      }
    case Hangs(_) =>
  }

  /** A consumer that has just connected is not stranded. */
  lemma NewNotStranded(w: World, h: Happening, c: Conn)
    requires Inv(w) && c !in w.cs
    ensures !Stranded(Happen(w, h), c)
  {
    if !h.ConsumerConnects? { NoNewcomer(w, h, c, Happen(w, h)); }
  }

  /** After a history a consumer is in fallback for ever if and only if some step of it took the
      consumer's last hope. */
  lemma {:induction false} StrandedIf(hs: seq<Happening>, c: Conn)
    ensures Stranded(History(hs), c) <==> StrandedBy(hs, c)
  {
    if hs != [] {
      var before, h := hs[..|hs| - 1], hs[|hs| - 1];
      var w := History(before);
      StrandedIf(before, c);
      EveryHistory(before);
      if Stranded(w, c) {
        StepStranded(w, h, c);
      } else if c in w.cs {
        StrandsExactly(w, h, c);
      } else {
        NewNotStranded(w, h, c);
      }
    }
  }

  /** enter_fallback ignores whether its hello was sent: a send that fails, followed by a hello
      that fails, strands a consumer out of fallback. */
  lemma LostHello(hs: seq<Happening>, c: Conn, more: seq<Happening>)
    requires var w := History(hs); Awake(w, c) && !w.cs[c].fallback
    ensures Stranded(After(Happen(History(hs), ConsumerSends(c, 0, 0, false, false)), more), c)
  {
    EveryHistory(hs);
    var w, h := History(hs), ConsumerSends(c, 0, 0, false, false);
    StrandsExactly(w, h, c);
    StepKeepsInv(w, h);
    StrandedForever(Happen(w, h), more, c);
  }
}
