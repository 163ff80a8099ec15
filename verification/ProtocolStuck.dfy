/**
 A producer that cannot map the shared word keeps the descriptors of the session open and asks
 again.  The consumer has had its notice: it leaves fallback, sends a token and waits for one
 that nobody will send back, on a stream that nobody closes.
 */
module ProtocolStuck {
  import opened Messages
  import opened Options
  import opened DisplayDaemon
  import opened Contexts
  import opened Protocol
  import opened ProtocolInv
  import opened ProtocolSteps
  import opened ProtocolSafety
  import opened ProtocolOrder
  import opened ProtocolTheorems
  import opened ProtocolStranded
  import opened ProtocolLosses
  import opened ProtocolProgress

  /** A consumer waits in refresh_done for a frame of session `g`, whose other half producer `p`
      holds and could not map. */
  predicate Stuck(w: World, g: Gen, p: Conn) {
    && g.c in w.cs && w.cs[g.c].alive && w.cs[g.c].made == g.k + 1 && w.cs[g.c].pending
    && g in w.ss && w.ss[g].far == Stray(p) && w.ss[g].refreshDone == 0
  }

  /** The producer ends, or the consumer does or finds an error on its own side. */
  predicate Frees(h: Happening, g: Gen, p: Conn) {
    match h
    case ProducerLeaves(q) => q == p
    case ConsumerLeaves(c) => c == g.c
    case ConsumerWaits(c, broken, _) => c == g.c && broken
    case ConsumerSends(c, _, _, sendOk, _) => c == g.c && !sendOk
    case ConsumerPushes(c, list, sendOk, _) => c == g.c && 0 < |list| <= MAX_BUFS && !sendOk
    case _ => false
  }

  // ---------------------------------------------------------------- the daemon

  /** Of session `g` nothing changes, and of its consumer only what it exchanges with the daemon. */
  predicate Spared(w: World, w': World, g: Gen) {
    && g in w.ss && g in w'.ss && w'.ss[g] == w.ss[g]
    && (g.c in w.cs ==>
          g.c in w'.cs && w'.cs[g.c] == w.cs[g.c].(up := w'.cs[g.c].up, notices := w'.cs[g.c].notices))
  }

  lemma DeliverSpares(w: World, sends: Sends, g: Gen)
    requires DepositOk(w) && g in w.ss && !Offered(w.ss[g].far)
    ensures Spared(w, Deliver(w, sends), g)
  {
  }

  lemma OfferSpares(w: World, c: Conn, g0: Gen, sends: Sends, g: Gen)
    requires g0 in w.ss && g in w.ss && g != g0 && !Offered(w.ss[g].far) && w.d.consumer == Some(g0.c)
    ensures Spared(w, Offer(w, c, g0, sends), g)
  {
    var w1 := Shelve(w, c, g0);
    assert Spared(w, w1, g) && DepositOk(w1);
    DeliverSpares(w1, sends, g);
  }

  lemma OrphanSpares(w: World, c: Conn, g: Gen)
    requires g in w.ss && !Offered(w.ss[g].far)
    ensures Spared(w, Orphan(w, c), g)
  {
  }

  lemma VacateSpares(w: World, g: Gen)
    requires g in w.ss && !Offered(w.ss[g].far)
    ensures Spared(w, Vacate(w), g)
  {
    if w.d.consumer.Some? { OrphanSpares(w, w.d.consumer.value, g); }
  }

  lemma SparedTwice(w: World, w1: World, w2: World, g: Gen)
    requires Spared(w, w1, g) && Spared(w1, w2, g)
    ensures Spared(w, w2, g)
  {
  }

  lemma SeatedSpares(w: World, c: Conn, d: State, w': World, g: Gen)
    requires c in w.cs && w.cs[c].up != [] && g in w.ss && w' == Popped(w, c).(d := d)
    ensures Spared(w, w', g)
  {
  }

  lemma AdmittedSpares(w1: World, c: Conn, g0: Gen, sends: Sends, w2: World, g: Gen)
    requires c in w1.cs && w1.cs[c].up != [] && g in w1.ss && !Offered(w1.ss[g].far) && g0 in w1.ss && g0 != g
    requires w2 == Popped(w1, c).(d := SeatConsumer(w1.d.(nextConn := c + 1), c)) && g0.c == c
    ensures Spared(w1, Offer(w2, c, g0, sends), g)
  {
    SeatedSpares(w1, c, w2.d, w2, g);
    OfferSpares(w2, c, g0, sends, g);
  }

  /** What admitting a consumer comes to, once the slot is vacant. */
  lemma Admitted(w: World, w1: World, c: Conn, g0: Gen, sends: Sends, w': World)
    requires c in w.cs && w.cs[c].up != [] && g0 in w.ss && w1 == Vacate(w) && w' == AdmitConsumer(w, c, g0, sends)
    ensures if c in w1.cs && w1.cs[c].up != [] && g0 in w1.ss
            then w' == Offer(Popped(w1, c).(d := SeatConsumer(w1.d.(nextConn := c + 1), c)), c, g0, sends)
            else w' == w1
  {
  }

  lemma AdmitSparesThen(w1: World, c: Conn, g0: Gen, sends: Sends, w': World, g: Gen)
    requires g in w1.ss && !Offered(w1.ss[g].far) && g0 != g && g0.c == c
    requires if c in w1.cs && w1.cs[c].up != [] && g0 in w1.ss
             then w' == Offer(Popped(w1, c).(d := SeatConsumer(w1.d.(nextConn := c + 1), c)), c, g0, sends)
             else w' == w1
    ensures Spared(w1, w', g)
  {
    if c in w1.cs && w1.cs[c].up != [] && g0 in w1.ss {
      AdmittedSpares(w1, c, g0, sends, Popped(w1, c).(d := SeatConsumer(w1.d.(nextConn := c + 1), c)), g);
    }
  }

  lemma AdmitSpares(w: World, w1: World, c: Conn, g0: Gen, sends: Sends, w': World, g: Gen)
    requires g in w.ss && !Offered(w.ss[g].far) && c in w.cs && w.cs[c].up != [] && g0 in w.ss && g0 != g
    requires w1 == Vacate(w) && Spared(w, w1, g) && g0.c == c && w' == AdmitConsumer(w, c, g0, sends)
    ensures Spared(w, w', g)
  {
    Admitted(w, w1, c, g0, sends, w');
    AdmitSparesThen(w1, c, g0, sends, w', g);
    SparedTwice(w, w1, w', g);
  }

  /** What taking a connection from the queue comes to. */
  lemma Accepted(w: World, readable: bool, sends: Sends, c: Conn, w': World)
    requires c == w.d.nextConn < w.next && w' == AcceptNext(w, readable, sends)
    ensures !readable ==> w' == Orphan(w, c).(d := w.d.(nextConn := c + 1))
    ensures readable && c in w.cs && w.cs[c].up != [] && w.cs[c].up[0].Hello? && Gen(c, w.cs[c].up[0].k) in w.ss ==>
              w' == AdmitConsumer(w, c, Gen(c, w.cs[c].up[0].k), sends)
    ensures readable && c !in w.cs ==> w'.cs == w.cs && w'.ss == w.ss
  {
  }

  lemma AcceptSpares(w: World, readable: bool, sends: Sends, w': World, g: Gen)
    requires g in w.ss && !Offered(w.ss[g].far) && (w.d.nextConn in w.cs ==> ConsumerOk(w, w.d.nextConn))
    requires w' == AcceptNext(w, readable, sends)
    ensures Spared(w, w', g)
  {
    var c := w.d.nextConn;
    if c < w.next {
      Accepted(w, readable, sends, c, w');
      if !readable {
        OrphanSpares(w, c, g);
      } else if c in w.cs {
        Queued(w, c);
        VacateSpares(w, g);
        AdmitSpares(w, Vacate(w), c, CurrentGen(w, c), sends, w', g);
      }
    }
  }

  lemma ReadConsumerSpares(w: World, sends: Sends, g: Gen)
    requires g in w.ss && !Offered(w.ss[g].far) && (w.d.consumer.Some? ==> ConsumerOk(w, w.d.consumer.value))
    ensures Spared(w, ReadConsumer(w, sends), g)
  {
    if w.d.consumer.Some? && w.cs[w.d.consumer.value].up != [] {
      var c := w.d.consumer.value;
      match w.cs[c].up[0]
      case Hello(k) =>
        HelloReadCurrent(w, c);
        HelloIsUnderWay(w, c);
        OfferSpares(Popped(w, c), c, Gen(c, k), sends, g);
      case Announce(si) => assert ReadConsumer(w, sends) == Screened(Popped(w, c), c, si, sends);
    }
  }

  lemma PickupSpares(w: World, p: Conn, sends: Sends, w1: World, g: Gen)
    requires DepositOk(w) && g in w.ss && !Offered(w.ss[g].far) && p in w.ps && w.ps[p].pickups > 0
    requires w1 == w.(d := CloseReceived(w.d, []), ps := w.ps[p := w.ps[p].(pickups := w.ps[p].pickups - 1)])
    ensures Spared(w, Deliver(w1, sends), g)
  {
    assert DepositOk(w1);
    DeliverSpares(w1, sends, g);
  }

  lemma ReadProducerSpares(w: World, sends: Sends, w': World, g: Gen)
    requires DepositOk(w) && g in w.ss && !Offered(w.ss[g].far) && w' == ReadProducer(w, sends)
    ensures Spared(w, w', g)
  {
    if w.d.producer.Some? && w.d.producer.value in w.ps && w.ps[w.d.producer.value].pickups > 0 {
      var p := w.d.producer.value;
      var w1 := w.(d := CloseReceived(w.d, []), ps := w.ps[p := w.ps[p].(pickups := w.ps[p].pickups - 1)]);
      ProducerRead(w, sends, p, w1, w');
      PickupSpares(w, p, sends, w1, g);
    }
  }

  /** The daemon does not touch a session once it has handed it out. */
  lemma DaemonSpares(w: World, h: Happening, g: Gen)
    requires Inv(w) && g in w.ss && !Offered(w.ss[g].far) && FromDaemon(h)
    ensures Spared(w, Happen(w, h), g)
  {
    match h
    case Accepts(readable, sends) => AcceptSpares(w, readable, sends, AcceptNext(w, readable, sends), g);
    case ReadsConsumer(sends) => ReadConsumerSpares(w, sends, g);
    case ReadsProducer(sends) => ReadProducerSpares(w, sends, ReadProducer(w, sends), g);
    case Hangs(_) => VacateSpares(w, g);
  }

  // ---------------------------------------------------------------- no token comes back

  /** Only a producer in the session, or one that was, has sent a token back. */
  predicate Unreturned(w: World, g: Gen) {
    g in w.ss && w.ss[g].refreshDone > 0 ==> w.ss[g].far.Held? || w.ss[g].far == Gone
  }

  lemma CallReturns(w: World, h: Happening)
    requires ConsumerCallOf(h) && Awake(w, h.c)
    ensures var a, b := SideOf(w, h.c), ConsumerCall(w, h);
            b.x.made == a.x.made ==> b.s.refreshDone <= a.s.refreshDone
  {
  }

  lemma PutUnreturned(w: World, c: Conn, b: ConsumerSide, helloOk: bool, g: Gen)
    requires Unreturned(w, g) && Awake(w, c) && NamesFree(w, c)
    requires Stays(SideOf(w, c), b) || Renews(SideOf(w, c), b, helloOk)
    requires b.x.made == SideOf(w, c).x.made ==> b.s.refreshDone <= SideOf(w, c).s.refreshDone
    ensures Unreturned(PutConsumer(w, c, b), g)
  {
  }

  lemma CallUnreturned(w: World, h: Happening, b: ConsumerSide, w': World, g: Gen)
    requires ConsumerCallOf(h) && Awake(w, h.c) && (h.ConsumerSelects? ==> !w.cs[h.c].pending) && Unreturned(w, g)
    requires ConsumerOk(w, h.c) && SessionInv(w, CurrentGen(w, h.c)) && NamesFree(w, h.c)
    requires b == ConsumerCall(w, h) && b.x.made > 0 && w' == PutConsumer(w, h.c, b)
    ensures Unreturned(w', g)
  {
    CallEffect(w, h, SideOf(w, h.c), HeldCount(w, SideOf(w, h.c).s));
    CallReturns(w, h);
    PutUnreturned(w, h.c, b, h.helloOk && Linked(w, h.c), g);
  }

  lemma ConsumerUnreturned(w: World, h: Happening, w': World, g: Gen)
    requires Inv(w) && ConsumerCallOf(h) && w' == Happen(w, h) && Unreturned(w, g)
    ensures Unreturned(w', g)
  {
    ConsumerCalled(w, h, w');
    if w' != w {
      assert ConsumerOk(w, h.c) && SessionInv(w, CurrentGen(w, h.c)) && NamesFree(w, h.c);
      CallUnreturned(w, h, ConsumerCall(w, h), w', g);
    }
  }

  lemma WorkUnreturned(w: World, h: Happening, g: Gen)
    requires Unreturned(w, g) && (h.ProducerWaits? || h.ProducerTriggers? || h.ProducerPolls?)
    requires InSession(w, h.p) ==> w.ss[w.ps[h.p].session.value].far == Held(h.p)
    ensures Unreturned(Happen(w, h), g)
  {
  }

  lemma MailUnreturned(w: World, p: Conn, mapOk: bool, g: Gen)
    requires Unreturned(w, g) && ProducerOk(w, p) && w.ps[p].down != []
    ensures Unreturned(ReadMail(w, p, mapOk), g)
  {
  }

  lemma GoneUnreturned(w: World, p: Conn, g: Gen)
    requires Unreturned(w, g) && p in w.ps
    ensures Unreturned(ProducerGone(w, p), g)
  {
  }

  lemma ProducerUnreturned(w: World, h: Happening, g: Gen)
    requires Inv(w) && Unreturned(w, g) && ProducerCallOf(h)
    ensures Unreturned(Happen(w, h), g)
  {
    if h.ProducerReads? {
      if h.p in w.ps && w.ps[h.p].down != [] {
        assert ProducerOk(w, h.p);
        MailUnreturned(w, h.p, h.mapOk, g);
      }
    } else if h.ProducerLeaves? {
      if h.p in w.ps { GoneUnreturned(w, h.p, g); }
    } else {
      if InSession(w, h.p) { assert ProducerOk(w, h.p); }
      WorkUnreturned(w, h, g);
    }
  }

  lemma DaemonUnreturned(w: World, h: Happening, g: Gen)
    requires Inv(w) && Unreturned(w, g) && FromDaemon(h)
    ensures Unreturned(Happen(w, h), g)
  {
    if g in w.ss {
      CarriedDaemon(w, h, g);
      if !Offered(w.ss[g].far) { DaemonSpares(w, h, g); }
    } else {
      BornNot(w, h, g);
    }
  }

  lemma RestUnreturned(w: World, h: Happening, g: Gen)
    requires Unreturned(w, g) && !FromDaemon(h) && !ConsumerCallOf(h) && !ProducerCallOf(h)
    ensures Unreturned(Happen(w, h), g)
  {
  }

  lemma StepUnreturned(w: World, h: Happening, g: Gen)
    requires Inv(w) && Unreturned(w, g)
    ensures Unreturned(Happen(w, h), g)
  {
    if FromDaemon(h) {
      DaemonUnreturned(w, h, g);
    } else if ConsumerCallOf(h) {
      ConsumerUnreturned(w, h, Happen(w, h), g);
    } else if ProducerCallOf(h) {
      ProducerUnreturned(w, h, g);
    } else {
      RestUnreturned(w, h, g);
    }
  }

  lemma {:induction false} EveryUnreturned(hs: seq<Happening>, g: Gen)
    ensures Unreturned(History(hs), g)
  {
    if hs != [] {
      EveryUnreturned(hs[..|hs| - 1], g);
      EveryHistory(hs[..|hs| - 1]);
      StepUnreturned(History(hs[..|hs| - 1]), hs[|hs| - 1], g);
    }
  }

  // ---------------------------------------------------------------- the far end stays where it is

  lemma PutStray(w: World, c: Conn, b: ConsumerSide, helloOk: bool, g: Gen)
    requires g in w.ss && Awake(w, c) && NamesFree(w, c)
    requires Stays(SideOf(w, c), b) || Renews(SideOf(w, c), b, helloOk)
    ensures g in PutConsumer(w, c, b).ss && PutConsumer(w, c, b).ss[g].far == w.ss[g].far
  {
  }

  lemma CallStray(w: World, h: Happening, b: ConsumerSide, w': World, g: Gen)
    requires ConsumerCallOf(h) && Awake(w, h.c) && (h.ConsumerSelects? ==> !w.cs[h.c].pending) && g in w.ss
    requires ConsumerOk(w, h.c) && SessionInv(w, CurrentGen(w, h.c)) && NamesFree(w, h.c)
    requires b == ConsumerCall(w, h) && b.x.made > 0 && w' == PutConsumer(w, h.c, b)
    ensures g in w'.ss && w'.ss[g].far == w.ss[g].far
  {
    CallEffect(w, h, SideOf(w, h.c), HeldCount(w, SideOf(w, h.c).s));
    PutStray(w, h.c, b, h.helloOk && Linked(w, h.c), g);
  }

  /** Consumers do not move far ends. */
  lemma ConsumerStray(w: World, h: Happening, w': World, g: Gen)
    requires Inv(w) && ConsumerCallOf(h) && w' == Happen(w, h) && g in w.ss
    ensures g in w'.ss && w'.ss[g].far == w.ss[g].far
  {
    ConsumerCalled(w, h, w');
    if w' != w {
      assert ConsumerOk(w, h.c) && SessionInv(w, CurrentGen(w, h.c)) && NamesFree(w, h.c);
      CallStray(w, h, ConsumerCall(w, h), w', g);
    }
  }

  lemma WorkSpares(w: World, h: Happening, g: Gen)
    requires g in w.ss && (h.ProducerWaits? || h.ProducerTriggers? || h.ProducerPolls?)
    requires InSession(w, h.p) ==> w.ps[h.p].session.value != g
    ensures Spared(w, Happen(w, h), g)
  {
  }

  lemma MailSpares(w: World, p: Conn, mapOk: bool, g: Gen)
    requires g in w.ss && ProducerOk(w, p) && w.ps[p].down != [] && !w.ss[g].far.InMail?
    ensures Spared(w, ReadMail(w, p, mapOk), g)
  {
  }

  lemma GoneSpares(w: World, p: Conn, g: Gen)
    requires g in w.ss && p in w.ps && w.ss[g].far !in [InMail(p), Held(p), Stray(p)]
    ensures Spared(w, ProducerGone(w, p), g)
  {
    GoneFar(w, p, ProducerGone(w, p), g);
  }

  /** Other producers do not touch a session, and its own only closes it when it ends. */
  lemma ProducerSpares(w: World, h: Happening, g: Gen, p: Conn)
    requires g in w.ss && w.ss[g].far == Stray(p) && ProducerCallOf(h) && h != ProducerLeaves(p)
    requires h.p in w.ps ==> ProducerOk(w, h.p)
    ensures Spared(w, Happen(w, h), g)
  {
    if h.ProducerReads? {
      if h.p in w.ps && w.ps[h.p].down != [] { MailSpares(w, h.p, h.mapOk, g); }
    } else if h.ProducerLeaves? {
      if h.p in w.ps { GoneSpares(w, h.p, g); }
    } else {
      WorkSpares(w, h, g);
    }
  }

  lemma ProducersFine(w: World, p: Conn)
    requires Inv(w) && p in w.ps
    ensures ProducerOk(w, p)
  {
  }

  /** The stray half of a session is closed by the end of its producer, and by nothing else. */
  lemma StrayStays(w: World, h: Happening, g: Gen, p: Conn)
    requires Inv(w) && g in w.ss && w.ss[g].far == Stray(p)
    ensures g in Happen(w, h).ss && (Happen(w, h).ss[g].far == Stray(p) <==> h != ProducerLeaves(p))
  {
    if FromDaemon(h) {
      DaemonSpares(w, h, g);
    } else if ConsumerCallOf(h) {
      ConsumerStray(w, h, Happen(w, h), g);
    } else if h == ProducerLeaves(p) {
      assert SessionInv(w, g) && ProducerOk(w, p);
      GoneFar(w, p, ProducerGone(w, p), g);
    } else if ProducerCallOf(h) {
      if h.p in w.ps { ProducersFine(w, h.p); }
      ProducerSpares(w, h, g, p);
    } else {
      assert w.next !in w.cs;
    }
  }

  predicate NeverLeaves(more: seq<Happening>, p: Conn) { forall i | 0 <= i < |more| :: more[i] != ProducerLeaves(p) }

  lemma {:induction false} StrayRun(w: World, more: seq<Happening>, g: Gen, p: Conn)
    requires Inv(w) && g in w.ss && w.ss[g].far == Stray(p) && NeverLeaves(more, p)
    ensures Inv(After(w, more)) && g in After(w, more).ss && After(w, more).ss[g].far == Stray(p)
  {
    if more != [] {
      var before, h := more[..|more| - 1], more[|more| - 1];
      StrayRun(w, before, g, p);
      StepKeepsInv(After(w, before), h);
      StrayStays(After(w, before), h, g, p);
    }
  }

  /** After every history, a session that its producer could not map goes to nobody else: as long
      as that producer has not ended, it keeps the descriptors open. */
  lemma StrayKept(hs: seq<Happening>, more: seq<Happening>, g: Gen, p: Conn)
    requires g in History(hs).ss && History(hs).ss[g].far == Stray(p) && NeverLeaves(more, p)
    ensures g in After(History(hs), more).ss && After(History(hs), more).ss[g].far == Stray(p)
  {
    EveryHistory(hs);
    StrayRun(History(hs), more, g, p);
  }

  // ---------------------------------------------------------------- stuck

  lemma SparedStuck(w: World, w': World, g: Gen, p: Conn)
    requires Stuck(w, g, p) && Spared(w, w', g)
    ensures Stuck(w', g, p)
  {
  }

  lemma OwnCallStuck(w: World, h: Happening, g: Gen, p: Conn, w': World)
    requires ConsumerCallOf(h) && h.c == g.c && Stuck(w, g, p) && !w.cs[g.c].fallback && w' == Happen(w, h)
    ensures Stuck(w', g, p) <==> !Frees(h, g, p)
  {
    assert Awake(w, g.c) && CurrentGen(w, g.c) == g;
  }

  lemma OtherCallSpares(w: World, h: Happening, g: Gen, w': World)
    requires ConsumerCallOf(h) && h.c != g.c && g in w.ss && w' == Happen(w, h)
    ensures Spared(w, w', g)
  {
    ConsumerCalled(w, h, w');
  }

  lemma RestStuck(w: World, h: Happening, g: Gen, p: Conn)
    requires Stuck(w, g, p) && w.next !in w.cs && !FromDaemon(h) && !ConsumerCallOf(h) && !ProducerCallOf(h)
    ensures Stuck(Happen(w, h), g, p) <==> !Frees(h, g, p)
  {
  }

  lemma LeavingFrees(w: World, g: Gen, p: Conn)
    requires Stuck(w, g, p) && ProducerOk(w, p) && FarOk(w, g)
    ensures !Stuck(Happen(w, ProducerLeaves(p)), g, p)
  {
    GoneFar(w, p, ProducerGone(w, p), g);
  }

  lemma StuckByProducer(w: World, h: Happening, g: Gen, p: Conn)
    requires Stuck(w, g, p) && FarOk(w, g) && ProducerCallOf(h)
    requires ProducerOk(w, p) && (h.p in w.ps ==> ProducerOk(w, h.p))
    ensures Stuck(Happen(w, h), g, p) <==> !Frees(h, g, p)
  {
    if h == ProducerLeaves(p) {
      LeavingFrees(w, g, p);
    } else {
      ProducerSpares(w, h, g, p);
      SparedStuck(w, Happen(w, h), g, p);
    }
  }

  lemma StuckByConsumer(w: World, h: Happening, g: Gen, p: Conn)
    requires Stuck(w, g, p) && !w.cs[g.c].fallback && w.next !in w.cs && FromConsumer(h)
    ensures Stuck(Happen(w, h), g, p) <==> !Frees(h, g, p)
  {
    if !ConsumerCallOf(h) {
      RestStuck(w, h, g, p);
    } else if h.c == g.c {
      OwnCallStuck(w, h, g, p, Happen(w, h));
    } else {
      OtherCallSpares(w, h, g, Happen(w, h));
      SparedStuck(w, Happen(w, h), g, p);
    }
  }

  /** A step ends the wait if and only if it is one of those. */
  lemma StuckExactly(w: World, h: Happening, g: Gen, p: Conn)
    requires Inv(w) && Stuck(w, g, p)
    ensures Stuck(Happen(w, h), g, p) <==> !Frees(h, g, p)
  {
    assert ConsumerOk(w, g.c) && SessionInv(w, g);
    if FromDaemon(h) {
      DaemonSpares(w, h, g);
      SparedStuck(w, Happen(w, h), g, p);
    } else if ProducerCallOf(h) {
      ProducersFine(w, p);
      if h.p in w.ps { ProducersFine(w, h.p); }
      StuckByProducer(w, h, g, p);
    } else if FromConsumer(h) {
      StuckByConsumer(w, h, g, p);
    } else {
      RestStuck(w, h, g, p);
    }
  }

  // ---------------------------------------------------------------- over histories

  /** The wait lasts through every step of `more`. */
  predicate StuckThrough(w: World, more: seq<Happening>, g: Gen, p: Conn) {
    Stuck(After(w, more), g, p) && (more != [] ==> StuckThrough(w, more[..|more| - 1], g, p))
  }

  predicate NoneFrees(more: seq<Happening>, g: Gen, p: Conn) {
    forall i | 0 <= i < |more| :: !Frees(more[i], g, p)
  }

  lemma NoneFreesMore(before: seq<Happening>, h: Happening, more: seq<Happening>, g: Gen, p: Conn)
    requires more == before + [h]
    ensures NoneFrees(more, g, p) <==> NoneFrees(before, g, p) && !Frees(h, g, p)
  {
    assert more[|before|] == h && forall i | 0 <= i < |before| :: more[i] == before[i];
  }

  lemma {:induction false} StuckRun(w: World, more: seq<Happening>, g: Gen, p: Conn)
    requires Inv(w) && Stuck(w, g, p)
    ensures StuckThrough(w, more, g, p) <==> NoneFrees(more, g, p)
  {
    if more != [] {
      var before, h := more[..|more| - 1], more[|more| - 1];
      StuckRun(w, before, g, p);
      AfterKeeps(w, before);
      NoneFreesMore(before, h, more, g, p);
      if Stuck(After(w, before), g, p) {
        StuckExactly(After(w, before), h, g, p);
      } else {
        NotThrough(w, before, g, p);
      }
    }
  }

  lemma NotThrough(w: World, more: seq<Happening>, g: Gen, p: Conn)
    requires !Stuck(After(w, more), g, p)
    ensures !StuckThrough(w, more, g, p)
  {
  }

  /** After every history: a consumer that waits for a frame of a session whose other half could
      not be mapped waits on through any continuation - if and only if the producer does not
      end in it, and the consumer neither ends nor meets an error on its own side. */
  lemma WaitsForGood(hs: seq<Happening>, more: seq<Happening>, g: Gen, p: Conn)
    requires var w := History(hs);
             && g.c in w.cs && w.cs[g.c].alive && w.cs[g.c].made == g.k + 1 && w.cs[g.c].pending
             && g in w.ss && w.ss[g].far == Stray(p)
    ensures StuckThrough(History(hs), more, g, p) <==> NoneFrees(more, g, p)
  {
    EveryHistory(hs);
    EveryUnreturned(hs, g);
    StuckRun(History(hs), more, g, p);
  }

  /** Polling without an error changes nothing then. */
  lemma IdleWait(w: World, g: Gen, p: Conn, helloOk: bool)
    requires Stuck(w, g, p)
    ensures Happen(w, ConsumerWaits(g.c, false, helloOk)) == w
  {
    assert Awake(w, g.c) && CurrentGen(w, g.c) == g;
    assert ConsumerCall(w, ConsumerWaits(g.c, false, helloOk)) == SideOf(w, g.c);
    assert w.cs[g.c := w.cs[g.c]] == w.cs && w.ss[g := w.ss[g]] == w.ss;
  }

  /** Once the producer ends, the next poll makes the consumer offer a new session. */
  lemma FreedByLeaving(w: World, g: Gen, p: Conn, helloOk: bool)
    requires Inv(w) && Stuck(w, g, p)
    ensures var w' := Happen(Happen(w, ProducerLeaves(p)), ConsumerWaits(g.c, false, helloOk));
            g.c in w'.cs && w'.cs[g.c].fallback && !w'.cs[g.c].pending && w'.cs[g.c].made == g.k + 2
  {
    assert ConsumerOk(w, g.c) && SessionInv(w, g) && ProducerOk(w, p);
    Freed(w, g, p, helloOk, Happen(w, ProducerLeaves(p)));
  }

  lemma Freed(w: World, g: Gen, p: Conn, helloOk: bool, w1: World)
    requires Stuck(w, g, p) && !w.cs[g.c].fallback && ProducerOk(w, p) && FarOk(w, g)
    requires w1 == Happen(w, ProducerLeaves(p))
    ensures var w' := Happen(w1, ConsumerWaits(g.c, false, helloOk));
            g.c in w'.cs && w'.cs[g.c].fallback && !w'.cs[g.c].pending && w'.cs[g.c].made == g.k + 2
  {
    GoneFar(w, p, w1, g);
    assert Awake(w1, g.c) && CurrentGen(w1, g.c) == g && SideOf(w1, g.c).s.far == Gone;
  }

  // ---------------------------------------------------------------- an input

  lemma Stored(w: World, list: seq<Buf>, w': World)
    requires Inv(w) && BothSeated(w, [], true) && Picking(w) && 0 < |list| <= MAX_BUFS
    requires w' == Happen(w, ConsumerPushes(0, list, true, true))
    ensures Ready(w', 0, 1, list) && Holding(w', 0) && w'.ps[1].down == [] && w'.ps[1].pickups > 0
  {
    assert ConsumerOk(w, 0) && w.ss[Gen(0, 0)].far == AtDaemon && w.cs[0].fallback;
    StoredOnly(w, list, w');
  }

  lemma StoredOnly(w: World, list: seq<Buf>, w': World)
    requires Awake(w, 0) && w.cs[0].fallback && 0 < |list| <= MAX_BUFS
    requires w' == Happen(w, ConsumerPushes(0, list, true, true))
    ensures w' == w.(cs := w.cs[0 := w.cs[0].(stored := list)])
  {
    assert w.ss[CurrentGen(w, 0) := w.ss[CurrentGen(w, 0)]] == w.ss;
  }

  lemma Strays(w: World, c: Conn, p: Conn, list: seq<Buf>, g: Gen, w': World)
    requires Ready(w, c, p, list) && Mailing(w, c, p) && Tidy(w, c, p) && w.ps[p].down != [] && g == CurrentGen(w, c)
    requires w.ss[g].refreshDone == 0 && w' == Happen(w, ProducerReads(p, false))
    ensures w'.cs == w.cs && g in w'.ss && w'.ss[g].far == Stray(p) && w'.ss[g].refreshDone == 0
  {
  }

  lemma Shown(w: World, c: Conn, p: Conn, list: seq<Buf>, g: Gen, w': World)
    requires Awake(w, c) && g == CurrentGen(w, c) && w.cs[c].fallback && w.cs[c].notices > 0 && !w.cs[c].pending
    requires w.cs[c].stored == list != [] && w.ss[g].far == Stray(p) && w.ss[g].refreshDone == 0
    requires w' == Happen(w, ConsumerSelects(c, 0, true, true))
    ensures Stuck(w', g, p)
  {
  }

  lemma MailedStuck(w: World, c: Conn, p: Conn, list: seq<Buf>, w1: World, w2: World, g: Gen)
    requires Inv(w) && Ready(w, c, p, list) && Mailing(w, c, p) && Tidy(w, c, p) && g == CurrentGen(w, c)
    requires Unreturned(w, g)
    requires w1 == Happen(w, ProducerReads(p, false)) && w2 == Happen(w1, ConsumerSelects(c, 0, true, true))
    ensures Stuck(w2, g, p)
  {
    assert ConsumerOk(w, c) && SessionInv(w, g);
    Strays(w, c, p, list, g, w1);
    Shown(w1, c, p, list, g, w2);
  }

  lemma {:induction false} HistoryAfter(hs: seq<Happening>, more: seq<Happening>, all: seq<Happening>)
    requires all == hs + more
    ensures History(all) == After(History(hs), more)
    decreases |more|
  {
    if more == [] {
      assert all == hs;
    } else {
      assert all[..|all| - 1] == hs + more[..|more| - 1];
      HistoryAfter(hs, more[..|more| - 1], all[..|all| - 1]);
    }
  }

  /** The deposit picked up, after a consumer with something to show has stored it. */
  lemma MailedHappens(si: Screen, list: seq<Buf>) returns (hs: seq<Happening>)
    requires 0 < |list| <= MAX_BUFS
    ensures var w := History(hs); Inv(w) && Ready(w, 0, 1, list) && Mailing(w, 0, 1) && Tidy(w, 0, 1)
  {
    var before := PickingHappens(si);
    var h := ConsumerPushes(0, list, true, true);
    hs := MailedAfter(before, h, before + [h], list);
  }

  lemma MailedAfter(before: seq<Happening>, h: Happening, next: seq<Happening>, list: seq<Buf>)
    returns (hs: seq<Happening>)
    requires BothSeated(History(before), [], true) && Picking(History(before)) && 0 < |list| <= MAX_BUFS
    requires h == ConsumerPushes(0, list, true, true) && next == before + [h]
    ensures var w := History(hs); Inv(w) && Ready(w, 0, 1, list) && Mailing(w, 0, 1) && Tidy(w, 0, 1)
  {
    EveryHistory(before);
    Grown(before, h, next);
    Stored(History(before), list, History(next));
    EveryHistory(next);
    var more := PickUp(History(next), 0, 1, list);
    HistoryAfter(next, more, next + more);
    hs := next + more;
  }

  /** The producer picks a session up and cannot map it, while the consumer leaves fallback and
      selects a buffer: both wait for good. */
  lemma StuckHappens(si: Screen, list: seq<Buf>) returns (hs: seq<Happening>, g: Gen)
    requires 0 < |list| <= MAX_BUFS
    ensures g.c == 0 && Stuck(History(hs), g, 1)
  {
    var before := MailedHappens(si, list);
    var h1, h2 := ProducerReads(1, false), ConsumerSelects(0, 0, true, true);
    StuckAfter(before, list, h1, h2);
    hs, g := before + [h1] + [h2], CurrentGen(History(before), 0);
  }

  /** In particular a consumer can be awake and out of fallback, as LostHello supposes. */
  lemma OutOfFallbackHappens(si: Screen, list: seq<Buf>) returns (hs: seq<Happening>)
    requires 0 < |list| <= MAX_BUFS
    ensures Awake(History(hs), 0) && !History(hs).cs[0].fallback
  {
    var g;
    hs, g := StuckHappens(si, list);
    EveryHistory(hs);
    assert ConsumerOk(History(hs), 0);
  }

  lemma StuckAfter(all: seq<Happening>, list: seq<Buf>, h1: Happening, h2: Happening)
    requires var w := History(all); Inv(w) && Ready(w, 0, 1, list) && Mailing(w, 0, 1) && Tidy(w, 0, 1)
    requires h1 == ProducerReads(1, false) && h2 == ConsumerSelects(0, 0, true, true)
    ensures Stuck(History(all + [h1] + [h2]), CurrentGen(History(all), 0), 1)
  {
    Grown(all, h1, all + [h1]);
    Grown(all + [h1], h2, all + [h1] + [h2]);
    EveryUnreturned(all, CurrentGen(History(all), 0));
    MailedStuck(History(all), 0, 1, list, History(all + [h1]), History(all + [h1] + [h2]), CurrentGen(History(all), 0));
  }
}
