/**
 Every step the daemon takes keeps the invariant of the display protocol.
 */
module ProtocolDaemon {
  import opened Options
  import opened DisplayDaemon
  import opened Contexts
  import opened Protocol
  import opened ProtocolInv
  import opened ProtocolSteps

  // ---------------------------------------------------------------- the daemon hands out descriptors

  /** What a delivery attempt does to the daemon. */
  lemma DeliverFacts(d: State, ok: Sends, fds: FdList)
    ensures var t := TryDeliver(d, ok);
            && t.consumer == d.consumer && t.producer == d.producer && t.nextConn == d.nextConn
            && (Handed(d.log, fds) ==> Handed(t.log, fds))
            && (if d.producer.Some? && |d.deposit| >= 4 && ok.fdsOk
                then t.deposit == [] && Handed(t.log, d.deposit) else t.deposit == d.deposit)
  {
  }

  /** The daemon has changed, but not in what consumer `c` depends on. */
  predicate SameFor(d: State, d': State, c: Conn, fds: FdList) {
    && d'.consumer == d.consumer && d'.nextConn == d.nextConn
    && Deposits(d', c) == Deposits(d, c)
    && (Deposits(d, c) ==> d'.deposit == d.deposit)
    && (Handed(d.log, fds) ==> Handed(d'.log, fds))
  }

  lemma DaemonFrame(w: World, w': World, c: Conn)
    requires ConsumerOk(w, c) && c in w'.cs && w'.cs[c] == w.cs[c] && SameFor(w.d, w'.d, c, FdsOf(CurrentGen(w, c)))
    requires forall k: nat | Gen(c, k) in w'.ss ::
               Gen(c, k) in w.ss && SamePlace(w.ss[Gen(c, k)].far, w'.ss[Gen(c, k)].far)
    requires CurrentGen(w, c) in w'.ss
    ensures ConsumerOk(w', c)
  {
  }

  lemma UndeliveredConsumers(w: World, w': World)
    requires Consumers(w) && DepositOk(w) && w'.cs == w.cs && w'.ss == w.ss
    requires w'.d.consumer == w.d.consumer && w'.d.nextConn == w.d.nextConn && w'.d.deposit == w.d.deposit
    requires forall fds :: Handed(w.d.log, fds) ==> Handed(w'.d.log, fds)
    ensures Consumers(w') && DepositOk(w')
  {
    forall c | c in w'.cs ensures ConsumerOk(w', c) { DaemonFrame(w, w', c); }
  }

  /** The session the daemon is about to hand out, and to whom. */
  ghost predicate Delivering(w: World, sends: Sends, g: Gen, p: Conn) {
    && Inv(w) && |w.d.deposit| == 4 && Possible(w, sends).fdsOk
    && w.d.producer == Some(p) && g == GenOf(w.d.deposit)
  }

  lemma DeliveredOwner(w: World, sends: Sends, g: Gen, p: Conn, w': World)
    requires Delivering(w, sends, g, p) && w' == Deliver(w, sends)
    ensures ConsumerOk(w', g.c)
  {
    DeliverFacts(w.d, Possible(w, sends), FdsOf(g));
    assert ConsumerOk(w, g.c);
  }

  lemma DeliveredOther(w: World, sends: Sends, g: Gen, p: Conn, w': World, c: Conn)
    requires Delivering(w, sends, g, p) && w' == Deliver(w, sends) && c in w.cs && c != g.c
    ensures ConsumerOk(w', c)
  {
    DeliverFacts(w.d, Possible(w, sends), FdsOf(CurrentGen(w, c)));
    assert ConsumerOk(w, c);
    DaemonFrame(w, w', c);
  }

  lemma DeliveredProducers(w: World, sends: Sends, g: Gen, p: Conn, w': World, q: Conn)
    requires Delivering(w, sends, g, p) && w' == Deliver(w, sends) && q in w.ps
    ensures ProducerOk(w', q)
  {
    assert ProducerOk(w, q);
    DeliveredMail(w, g, p, w', q);
  }

  lemma DeliveredMail(w: World, g: Gen, p: Conn, w': World, q: Conn)
    requires ProducerOk(w, q) && g in w.ss && p in w.ps && w.ps[p].alive && w.ss[g].far == AtDaemon
    requires w'.ss == w.ss[g := w.ss[g].(far := InMail(p))]
    requires w'.ps == w.ps[p := w.ps[p].(down := w.ps[p].down + [FdsMail(g)])]
    ensures ProducerOk(w', q)
  {
  }

  lemma DeliveredSession(w: World, sends: Sends, g: Gen, p: Conn, w': World, g': Gen)
    requires Delivering(w, sends, g, p) && w' == Deliver(w, sends) && g' in w.ss
    ensures SessionInv(w', g')
  {
    assert SessionInv(w, g');
    DeliveredTo(w, g, p, Possible(w, sends), w', g');
  }

  lemma DeliveredTo(w: World, g: Gen, p: Conn, ok: Sends, w': World, g': Gen)
    requires SessionInv(w, g') && g in w.ss && p in w.ps && g in w'.ss && w.ss[g].far == AtDaemon
    requires w'.ss == w.ss[g := w.ss[g].(far := InMail(p))]
    requires w'.ps == w.ps[p := w.ps[p].(down := w.ps[p].down + [FdsMail(g)])]
    requires g'.c in w'.cs && w'.cs[g'.c] == w.cs[g'.c].(notices := w'.cs[g'.c].notices)
    ensures SessionInv(w', g')
  {
  }

  lemma DeliveredDeposit(w: World, sends: Sends, g: Gen, p: Conn, w': World)
    requires Delivering(w, sends, g, p) && w' == Deliver(w, sends)
    ensures Shape(w') && DepositOk(w')
  {
    DeliverFacts(w.d, Possible(w, sends), FdsOf(g));
  }

  lemma HandedGrows(w: World, sends: Sends, w': World)
    requires w'.d == TryDeliver(w.d, Possible(w, sends))
    ensures forall fds :: Handed(w.d.log, fds) ==> Handed(w'.d.log, fds)
  {
    forall fds | Handed(w.d.log, fds) ensures Handed(w'.d.log, fds) { DeliverFacts(w.d, Possible(w, sends), fds); }
  }

  lemma UndeliveredKeeps(w: World, w': World)
    requires Inv(w) && w' == w.(d := w'.d)
    requires w'.d.consumer == w.d.consumer && w'.d.nextConn == w.d.nextConn && w'.d.deposit == w.d.deposit
    requires w'.d.producer == w.d.producer || w'.d.producer == None
    requires forall fds :: Handed(w.d.log, fds) ==> Handed(w'.d.log, fds)
    ensures Inv(w')
  {
    UndeliveredConsumers(w, w');
    assert Producers(w') by { forall p | p in w'.ps ensures ProducerOk(w', p) { ProducerFrame(w, w', p); } }
    assert Sessions(w') by { forall g | g in w'.ss ensures SessionInv(w', g) { SessionFrame(w, w', g); } }
  }

  lemma DeliverKeepsAll(w: World, sends: Sends, w': World)
    requires Inv(w) && w' == Deliver(w, sends)
    ensures Inv(w')
  {
    var ok := Possible(w, sends);
    DeliverFacts(w.d, ok, []);
    if |w.d.deposit| >= 4 && ok.fdsOk {
      var g, p := GenOf(w.d.deposit), w.d.producer.value;
      DeliveredDeposit(w, sends, g, p, w');
      DeliveredOwner(w, sends, g, p, w');
      assert Consumers(w') by {
        forall c | c in w'.cs ensures ConsumerOk(w', c) { if c != g.c { DeliveredOther(w, sends, g, p, w', c); } }
      }
      assert Producers(w') by {
        forall q | q in w'.ps ensures ProducerOk(w', q) { DeliveredProducers(w, sends, g, p, w', q); }
      }
      assert Sessions(w') by {
        forall g' | g' in w'.ss ensures SessionInv(w', g') { DeliveredSession(w, sends, g, p, w', g'); }
      }
    } else {
      HandedGrows(w, sends, w');
      UndeliveredKeeps(w, w');
    }
  }

  // ---------------------------------------------------------------- the daemon takes a hello

  /** Consumer `c`, whose hello for session `g` is next to be read, has the slot in `d`. */
  predicate Seated(w: World, d: State, c: Conn, g: Gen) {
    && c in w.cs && w.cs[c].up != [] && w.cs[c].up[0] == Hello(g.k) && g.c == c && g in w.ss
    && d.consumer == Some(c) && c < d.nextConn
    && d.producer == w.d.producer && d.deposit == w.d.deposit && d.log == w.d.log
    && (|| (d.nextConn == w.d.nextConn && w.d.consumer == Some(c))
        || (d.nextConn == c + 1 && c == w.d.nextConn < w.next && w.d.consumer == None))
  }

  lemma ShelvedOwner(w: World, d: State, c: Conn, g: Gen, w': World)
    requires Seated(w, d, c, g) && ConsumerOk(w, c) && w' == Shelve(Popped(w, c).(d := d), c, g)
    ensures ConsumerOk(w', c) && w.ss[g].far == InHello && g == CurrentGen(w, c)
  {
    var up := w.cs[c].up;
    assert Hellos(up) == [g.k] + Hellos(up[1..]);
    assert Hellos(up) != [] && |Hellos(up)| == 1 + |Hellos(up[1..])|;
    assert Hellos(up)[0] == g.k;
    assert w.ss[CurrentGen(w, c)].far == InHello && g == CurrentGen(w, c);
  }

  lemma ShelvedOther(w: World, d: State, c: Conn, g: Gen, w': World, c': Conn)
    requires Seated(w, d, c, g) && w' == Shelve(Popped(w, c).(d := d), c, g) && ConsumerOk(w, c') && c' != c
    ensures ConsumerOk(w', c')
  {
  }

  lemma ShelvedProducer(w: World, d: State, c: Conn, g: Gen, w': World, p: Conn)
    requires Seated(w, d, c, g) && w' == Shelve(Popped(w, c).(d := d), c, g)
    requires ProducerOk(w, p) && w.ss[g].far == InHello
    ensures ProducerOk(w', p)
  {
  }

  lemma ShelvedSession(w: World, d: State, c: Conn, g: Gen, w': World, g': Gen)
    requires Seated(w, d, c, g) && w' == Shelve(Popped(w, c).(d := d), c, g)
    requires SessionInv(w, g') && w.ss[g].far == InHello
    ensures SessionInv(w', g')
  {
  }

  lemma ShelvedConsumers(w: World, d: State, c: Conn, g: Gen, w': World)
    requires Consumers(w) && Seated(w, d, c, g) && w' == Shelve(Popped(w, c).(d := d), c, g)
    ensures Consumers(w') && w.ss[g].far == InHello
  {
    assert ConsumerOk(w, c);
    ShelvedOwner(w, d, c, g, w');
    forall c' | c' in w'.cs ensures ConsumerOk(w', c') {
      if c' != c { assert ConsumerOk(w, c'); ShelvedOther(w, d, c, g, w', c'); }
    }
  }

  lemma ShelvedOthers(w: World, d: State, c: Conn, g: Gen, w': World)
    requires Producers(w) && Sessions(w) && Seated(w, d, c, g) && w' == Shelve(Popped(w, c).(d := d), c, g)
    requires w.ss[g].far == InHello
    ensures Producers(w') && Sessions(w')
  {
    forall p | p in w'.ps ensures ProducerOk(w', p) { assert ProducerOk(w, p); ShelvedProducer(w, d, c, g, w', p); }
    forall g' | g' in w'.ss ensures SessionInv(w', g') { assert SessionInv(w, g'); ShelvedSession(w, d, c, g, w', g'); }
  }

  lemma ShelvedShape(w: World, d: State, c: Conn, g: Gen, w': World)
    requires Shape(w) && Seated(w, d, c, g) && w' == Shelve(Popped(w, c).(d := d), c, g)
    ensures Shape(w') && DepositOk(w')
  {
  }

  lemma ShelvedKeeps(w: World, d: State, c: Conn, g: Gen, w': World)
    requires Inv(w) && Seated(w, d, c, g) && w' == Shelve(Popped(w, c).(d := d), c, g)
    ensures Inv(w')
  {
    ShelvedConsumers(w, d, c, g, w');
    ShelvedOthers(w, d, c, g, w');
    ShelvedShape(w, d, c, g, w');
  }

  // ---------------------------------------------------------------- the daemon lets go of a consumer

  lemma OrphanSession(w: World, c: Conn, w': World, g: Gen)
    requires SessionInv(w, g) && w'.ss == Orphan(w, c).ss && w'.cs == Orphan(w, c).cs && w'.ps == w.ps
    ensures SessionInv(w', g)
  {
  }

  lemma OrphanProducer(w: World, c: Conn, w': World, p: Conn)
    requires ProducerOk(w, p) && w'.ss == Orphan(w, c).ss && w'.ps == w.ps
    ensures ProducerOk(w', p)
  {
  }

  /** The daemon's side of losing consumer `c`: freed from its slot, or dropped at accept. */
  predicate LetGo(w: World, c: Conn, d: State) {
    && d.producer == w.d.producer && d.deposit == w.d.deposit && d.log == w.d.log
    && (|| (w.d.consumer == Some(c) && d.consumer == None && d.nextConn == w.d.nextConn && c < d.nextConn)
        || (d.consumer == w.d.consumer && c == w.d.nextConn < w.next && d.nextConn == c + 1 && w.d.consumer != Some(c)))
  }

  lemma OrphanConsumer(w: World, c: Conn, w': World, c': Conn)
    requires ConsumerOk(w, c') && LetGo(w, c, w'.d) && w' == Orphan(w, c).(d := w'.d)
    ensures ConsumerOk(w', c')
  {
  }

  lemma OrphanShape(w: World, c: Conn, w': World)
    requires Shape(w) && LetGo(w, c, w'.d) && w' == Orphan(w, c).(d := w'.d)
    ensures Shape(w')
  {
    assert w'.cs.Keys == w.cs.Keys && w'.ss.Keys == w.ss.Keys;
    assert forall c' | c' in w.cs :: w'.cs[c'].made == w.cs[c'].made;
  }

  lemma OrphanDeposit(w: World, c: Conn, w': World)
    requires DepositOk(w) && LetGo(w, c, w'.d) && w' == Orphan(w, c).(d := w'.d)
    ensures DepositOk(w')
  {
  }

  lemma OrphanOthers(w: World, c: Conn, w': World)
    requires Producers(w) && Sessions(w) && w' == Orphan(w, c).(d := w'.d)
    ensures Producers(w') && Sessions(w')
  {
    forall p | p in w'.ps ensures ProducerOk(w', p) { assert ProducerOk(w, p); OrphanProducer(w, c, w', p); }
    forall g | g in w'.ss ensures SessionInv(w', g) { assert SessionInv(w, g); OrphanSession(w, c, w', g); }
  }

  lemma OrphanKeeps(w: World, c: Conn, w': World)
    requires Inv(w) && LetGo(w, c, w'.d) && w' == Orphan(w, c).(d := w'.d)
    ensures Inv(w')
  {
    OrphanShape(w, c, w');
    OrphanDeposit(w, c, w');
    OrphanOthers(w, c, w');
    assert Consumers(w') by {
      forall c' | c' in w'.cs ensures ConsumerOk(w', c') { assert ConsumerOk(w, c'); OrphanConsumer(w, c, w', c'); }
    }
  }

  // ---------------------------------------------------------------- screens

  lemma MailedProducer(w: World, p: Conn, si: Screen, q: Conn, w': World)
    requires ProducerOk(w, q) && p in w.ps && w.ps[p].alive
    requires w'.ps == Mailed(w, p, ScreenMail(si)).ps && w'.ss == w.ss
    ensures ProducerOk(w', q)
  {
  }

  lemma MailedSession(w: World, p: Conn, si: Screen, g: Gen, w': World)
    requires SessionInv(w, g) && p in w.ps
    requires w'.ps == Mailed(w, p, ScreenMail(si)).ps && w'.ss == w.ss && w'.cs == w.cs
    ensures SessionInv(w', g)
  {
  }

  lemma MailedKeeps(w: World, p: Conn, si: Screen, w': World)
    requires Inv(w) && p in w.ps && w.ps[p].alive && w' == Mailed(w, p, ScreenMail(si))
    ensures Inv(w')
  {
    assert Consumers(w') by { forall c | c in w'.cs ensures ConsumerOk(w', c) { ConsumerFrame(w, w', c); } }
    assert Producers(w') by {
      forall q | q in w'.ps ensures ProducerOk(w', q) { assert ProducerOk(w, q); MailedProducer(w, p, si, q, w'); }
    }
    assert Sessions(w') by {
      forall g | g in w'.ss ensures SessionInv(w', g) { assert SessionInv(w, g); MailedSession(w, p, si, g, w'); }
    }
  }

  // ---------------------------------------------------------------- every event of the daemon

  lemma OfferKeeps(w: World, d: State, c: Conn, g: Gen, sends: Sends, w': World)
    requires Inv(w) && Seated(w, d, c, g) && w' == Offer(Popped(w, c).(d := d), c, g, sends)
    ensures Inv(w')
  {
    var w1 := Shelve(Popped(w, c).(d := d), c, g);
    ShelvedKeeps(w, d, c, g, w1);
    DeliverKeepsAll(w1, sends, Deliver(w1, sends));
  }

  lemma VacateKeeps(w: World)
    requires Inv(w)
    ensures Inv(Vacate(w))
  {
    if w.d.consumer.Some? {
      OrphanKeeps(w, w.d.consumer.value, Vacate(w));
    }
  }

  lemma HangUpKeeps(w: World, c: Conn)
    requires Inv(w)
    ensures Inv(HangUp(w, c))
  {
    if w.d.consumer == Some(c) {
      VacateKeeps(w);
    } else if w.d.producer == Some(c) {
      UndeliveredKeeps(w, HangUp(w, c));
    }
  }

  /** The next connection, if it is a consumer's, is still offering its first session. */
  lemma VacateLeaves(w: World, c: Conn)
    requires Inv(w) && c == w.d.nextConn && c in w.cs
    ensures var w1 := Vacate(w);
            c in w1.cs && w1.cs[c] == w.cs[c] && w1.d.consumer == None && w1.d.nextConn == c && w1.next == w.next
    ensures forall g | g in w.ss :: g in Vacate(w).ss
  {
  }

  lemma AdmitConsumerKeeps(w: World, c: Conn, g: Gen, sends: Sends)
    requires Inv(w) && c == w.d.nextConn < w.next && c in w.cs && w.cs[c].up != [] && w.cs[c].up[0] == Hello(g.k)
    requires g.c == c && g in w.ss
    ensures Inv(AdmitConsumer(w, c, g, sends))
  {
    var w1 := Vacate(w);
    VacateKeeps(w);
    VacateLeaves(w, c);
    OfferKeeps(w1, SeatConsumer(w1.d.(nextConn := c + 1), c), c, g, sends, AdmitConsumer(w, c, g, sends));
  }

  lemma SeatedProducerKeeps(w: World, p: Conn, ok: bool, w': World)
    requires Inv(w) && p == w.d.nextConn < w.next && p in w.ps
    requires w' == w.(d := GreetProducer(SeatProducer(w.d.(nextConn := p + 1), p), p, ok))
    ensures Inv(w')
  {
    assert Consumers(w') by {
      forall c | c in w'.cs ensures ConsumerOk(w', c) { assert ConsumerOk(w, c); GreetedConsumer(w, p, ok, w', c); }
    }
    assert Producers(w') by { forall q | q in w'.ps ensures ProducerOk(w', q) { ProducerFrame(w, w', q); } }
    assert Sessions(w') by { forall g | g in w'.ss ensures SessionInv(w', g) { SessionFrame(w, w', g); } }
  }

  lemma GreetedConsumer(w: World, p: Conn, ok: bool, w': World, c: Conn)
    requires ConsumerOk(w, c) && c != p && p == w.d.nextConn
    requires w' == w.(d := GreetProducer(SeatProducer(w.d.(nextConn := p + 1), p), p, ok))
    ensures ConsumerOk(w', c)
  {
    assert w'.d.deposit == w.d.deposit && w'.d.consumer == w.d.consumer && w'.d.nextConn == p + 1;
    assert w'.d.log == w.d.log || w'.d.log == Then(w.d.log, w'.d.log.last);
  }

  lemma AdmitProducerKeeps(w: World, p: Conn, sends: Sends)
    requires Inv(w) && p == w.d.nextConn < w.next && p in w.ps
    ensures Inv(AdmitProducer(w, p, sends))
  {
    var ok := sends.screenOk && w.ps[p].alive;
    var w1 := w.(d := GreetProducer(SeatProducer(w.d.(nextConn := p + 1), p), p, ok));
    var w' := AdmitProducer(w, p, sends);
    assert w' == if w.d.screen.Some? && ok then Mailed(w1, p, ScreenMail(w.d.screen.value)) else w1;
    assert w1.ps == w.ps;
    GreetedKeeps(w, p, ok, w1, w');
  }

  lemma GreetedKeeps(w: World, p: Conn, ok: bool, w1: World, w': World)
    requires Inv(w) && p == w.d.nextConn < w.next && p in w.ps && p in w1.ps && (ok ==> w1.ps[p].alive)
    requires w1 == w.(d := GreetProducer(SeatProducer(w.d.(nextConn := p + 1), p), p, ok))
    requires w' == if w.d.screen.Some? && ok then Mailed(w1, p, ScreenMail(w.d.screen.value)) else w1
    ensures Inv(w')
  {
    SeatedProducerKeeps(w, p, ok, w1);
    if w.d.screen.Some? && ok {
      MailedKeeps(w1, p, w.d.screen.value, w');
    }
  }

  /** Reading an announcement leaves the consumer's hellos alone. */
  lemma PoppedConsumer(w: World, c: Conn, w': World, c': Conn)
    requires ConsumerOk(w, c') && c in w.cs && w.cs[c].up != [] && w.cs[c].up[0].Announce? && w' == Popped(w, c)
    requires c < w.d.nextConn
    ensures ConsumerOk(w', c')
  {
    if c' != c { ConsumerFrame(w, w', c'); }
  }

  lemma PoppedKeeps(w: World, c: Conn, w': World)
    requires Inv(w) && c in w.cs && w.cs[c].up != [] && w.cs[c].up[0].Announce? && w' == Popped(w, c)
    requires c < w.d.nextConn
    ensures Inv(w')
  {
    assert Consumers(w') by {
      forall c' | c' in w'.cs ensures ConsumerOk(w', c') { assert ConsumerOk(w, c'); PoppedConsumer(w, c, w', c'); }
    }
    assert Producers(w') by { forall q | q in w'.ps ensures ProducerOk(w', q) { ProducerFrame(w, w', q); } }
    assert Sessions(w') by {
      forall g | g in w'.ss ensures SessionInv(w', g) { assert SessionInv(w, g); UpChanged(w, c, w', g); }
    }
  }

  /** Sessions do not depend on a consumer's unread messages. */
  lemma UpChanged(w: World, c: Conn, w': World, g: Gen)
    requires SessionInv(w, g) && w'.ss == w.ss && w'.ps == w.ps && c in w.cs && c in w'.cs
    requires w'.cs == w.cs[c := w.cs[c].(up := w'.cs[c].up)]
    ensures SessionInv(w', g)
  {
  }

  lemma StoredKeeps(w: World, c: Conn, si: Screen, ok: Sends, w': World)
    requires Inv(w) && w' == w.(d := StoreScreen(CloseReceived(w.d, []), c, si, ok))
    ensures Inv(w')
  {
    StoredFacts(w.d, c, si, ok, w'.d);
    UndeliveredKeeps(w, w');
  }

  lemma StoredFacts(d: State, c: Conn, si: Screen, ok: Sends, t: State)
    requires t == StoreScreen(CloseReceived(d, []), c, si, ok)
    ensures t.consumer == d.consumer && t.nextConn == d.nextConn && t.deposit == d.deposit
    ensures t.producer == d.producer || t.producer == None
    ensures forall fds :: Handed(d.log, fds) ==> Handed(t.log, fds)
  {
    var l1 := Then(d.log, ScreenFrom(c, si));
    assert t.log == l1 || (t.log.Then? && t.log.before == l1);
    assert forall fds :: Handed(d.log, fds) ==> Handed(l1, fds);
  }

  lemma ScreenedKeeps(w: World, c: Conn, si: Screen, sends: Sends)
    requires Inv(w)
    ensures Inv(Screened(w, c, si, sends))
  {
    var ok := Possible(w, sends);
    var w1 := w.(d := StoreScreen(CloseReceived(w.d, []), c, si, ok));
    StoredKeeps(w, c, si, ok, w1);
    StoredFacts(w.d, c, si, ok, w1.d);
    if w1.d.producer.Some? && w.d.waitScreen && ok.screenOk {
      MailedKeeps(w1, w1.d.producer.value, si, Screened(w, c, si, sends));
    }
  }

  lemma ReadConsumerKeeps(w: World, sends: Sends)
    requires Inv(w)
    ensures Inv(ReadConsumer(w, sends))
  {
    if w.d.consumer.Some? && w.cs[w.d.consumer.value].up != [] {
      var c := w.d.consumer.value;
      match w.cs[c].up[0]
      case Hello(k) =>
        if Gen(c, k) in w.ss {
          assert Popped(w, c).(d := w.d) == Popped(w, c);
          OfferKeeps(w, w.d, c, Gen(c, k), sends, ReadConsumer(w, sends));
        }
      case Announce(si) =>
        PoppedKeeps(w, c, Popped(w, c));
        ScreenedKeeps(Popped(w, c), c, si, sends);
    }
  }

  lemma PickupReadKeeps(w: World, p: Conn, n: nat, w': World)
    requires Inv(w) && p in w.ps
    requires w' == w.(d := w'.d, ps := w.ps[p := w.ps[p].(pickups := n)])
    requires w'.d == w.d || w'.d == CloseReceived(w.d, [])
    ensures Inv(w')
  {
    assert Consumers(w') by { forall c | c in w'.cs ensures ConsumerOk(w', c) { DaemonFrame(w, w', c); } }
    assert Producers(w') by {
      forall q | q in w'.ps ensures ProducerOk(w', q) { assert ProducerOk(w, q); }
    }
    assert Sessions(w') by {
      forall g | g in w'.ss ensures SessionInv(w', g) { assert SessionInv(w, g); PickupSession(w, p, n, w', g); }
    }
  }

  lemma PickupSession(w: World, p: Conn, n: nat, w': World, g: Gen)
    requires SessionInv(w, g) && p in w.ps && w'.ss == w.ss
    requires w'.cs == w.cs && w'.ps == w.ps[p := w.ps[p].(pickups := n)]
    ensures SessionInv(w', g)
  {
  }

  lemma ReadProducerKeeps(w: World, sends: Sends)
    requires Inv(w)
    ensures Inv(ReadProducer(w, sends))
  {
    if w.d.producer.Some? && w.ps[w.d.producer.value].pickups > 0 {
      var p := w.d.producer.value;
      var w1 := w.(d := CloseReceived(w.d, []), ps := w.ps[p := w.ps[p].(pickups := w.ps[p].pickups - 1)]);
      PickupReadKeeps(w, p, w.ps[p].pickups - 1, w1);
      DeliverKeepsAll(w1, sends, Deliver(w1, sends));
    }
  }

  lemma AcceptNextKeeps(w: World, readable: bool, sends: Sends)
    requires Inv(w)
    ensures Inv(AcceptNext(w, readable, sends))
  {
    var c := w.d.nextConn;
    if c < w.next {
      if !readable {
        OrphanKeeps(w, c, AcceptNext(w, readable, sends));
      } else if c in w.cs && w.cs[c].up != [] && w.cs[c].up[0].Hello? && Gen(c, w.cs[c].up[0].k) in w.ss {
        AdmitConsumerKeeps(w, c, Gen(c, w.cs[c].up[0].k), sends);
      } else if c in w.ps {
        AdmitProducerKeeps(w, c, sends);
      }
    }
  }
}
