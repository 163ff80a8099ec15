/**
 What the daemon logs as sent is what its clients get: over every history, a producer has read,
 in order, exactly the messages sent to it that are not still in its mail, and a consumer's
 notices grow by exactly those that got through.
 */
module ProtocolMail {
  import opened Options
  import opened DisplayDaemon
  import opened Contexts
  import opened Protocol
  import opened ProtocolInv
  import opened ProtocolDaemon
  import opened ProtocolSafety
  import opened ProtocolLosses
  import opened ProtocolStuck

  /** The messages that were sent to producer `p` successfully, in order. */
  function MailTo(log: Log, p: Conn): seq<Mail> {
    match log
    case Nothing => []
    case Then(before, e) =>
      MailTo(before, p)
      + (if e.ScreenTo? && e.to == p && e.ok then [ScreenMail(e.screen)]
         else if e.FdsTo? && e.to == p && e.ok && e.fds != [] then [FdsMail(GenOf(e.fds))]
         else [])
  }

  /** How many notices were sent to consumer `c` successfully. */
  function NoticesTo(log: Log, c: Conn): nat {
    match log
    case Nothing => 0
    case Then(before, e) => NoticesTo(before, c) + if e == ReadyTo(c, true) then 1 else 0
  }

  /** A step adds to the mail of `p` what it logs as sent to it, and nothing to anyone's who is
      no producer. */
  predicate SentTo(w: World, w': World, p: Conn) {
    && MailTo(w.d.log, p) <= MailTo(w'.d.log, p)
    && if p in w.ps then
         && p in w'.ps && w'.ps[p].alive == w.ps[p].alive
         && w'.ps[p].down == w.ps[p].down + MailTo(w'.d.log, p)[|MailTo(w.d.log, p)|..]
       else p !in w'.ps && MailTo(w'.d.log, p) == MailTo(w.d.log, p)
  }

  /** A step adds to the notices of `c` as many as it logs as sent to it. */
  predicate NoticedTo(w: World, w': World, c: Conn) {
    c in w.cs ==>
      c in w'.cs && w'.cs[c].notices - w.cs[c].notices == NoticesTo(w'.d.log, c) - NoticesTo(w.d.log, c)
  }

  lemma SentTwice(w: World, w1: World, w2: World, p: Conn)
    requires SentTo(w, w1, p) && SentTo(w1, w2, p)
    ensures SentTo(w, w2, p)
  {
  }

  lemma SameSent(w: World, w': World, p: Conn)
    requires w'.d.log == w.d.log && w'.ps == w.ps
    ensures SentTo(w, w', p)
  {
  }

  // ---------------------------------------------------------------- the daemon

  lemma DeliverSends(w: World, sends: Sends, w': World, p: Conn)
    requires DepositOk(w) && w' == Deliver(w, sends)
    ensures SentTo(w, w', p)
  {
    var ok := Possible(w, sends);
    assert w.d.deposit != [] ==> w.d.deposit == FdsOf(GenOf(w.d.deposit)) && GenOf(w.d.deposit) in w.ss;
  }

  lemma DeliverNotices(w: World, sends: Sends, w': World, c: Conn)
    requires DepositOk(w) && w' == Deliver(w, sends)
    ensures NoticedTo(w, w', c)
  {
  }

  lemma ShelveSends(w: World, c0: Conn, g: Gen, p: Conn)
    requires g in w.ss
    ensures SentTo(w, Shelve(w, c0, g), p)
    ensures forall c :: NoticedTo(w, Shelve(w, c0, g), c)
  {
    assert MailTo(Shelve(w, c0, g).d.log, p) == MailTo(w.d.log, p);
  }

  lemma ShelvedDeposit(w: World, c0: Conn, g: Gen)
    requires g in w.ss && w.d.consumer == Some(g.c)
    ensures DepositOk(Shelve(w, c0, g))
  {
  }

  lemma OfferSends(w: World, c0: Conn, g: Gen, sends: Sends, w': World, p: Conn)
    requires g in w.ss && w.d.consumer == Some(g.c) && w' == Offer(w, c0, g, sends)
    ensures SentTo(w, w', p)
  {
    var w1 := Shelve(w, c0, g);
    ShelveSends(w, c0, g, p);
    ShelvedDeposit(w, c0, g);
    if w1.d.waitFds {
      DeliverSends(w1, sends, w', p);
      SentTwice(w, w1, w', p);
    }
  }

  lemma OfferNotices(w: World, c0: Conn, g: Gen, sends: Sends, w': World, c: Conn)
    requires g in w.ss && w.d.consumer == Some(g.c) && w' == Offer(w, c0, g, sends)
    ensures NoticedTo(w, w', c)
  {
    var w1 := Shelve(w, c0, g);
    ShelveSends(w, c0, g, 0);
    ShelvedDeposit(w, c0, g);
    if w1.d.waitFds { DeliverNotices(w1, sends, w', c); }
  }

  /** Seating a consumer sends nothing. */
  lemma SeatingSends(w: World, w1: World, c: Conn, d: State, w2: World, p: Conn)
    requires w1 == Vacate(w) && c in w1.cs && w1.cs[c].up != []
    requires d == SeatConsumer(w1.d.(nextConn := c + 1), c) && w2 == Popped(w1, c).(d := d)
    ensures w2.d.log == w.d.log && w2.ps == w.ps && w2.d.consumer == Some(c) && w2.ss == w1.ss
    ensures forall c' | c' in w.cs :: c' in w2.cs && w2.cs[c'].notices == w.cs[c'].notices
  {
  }

  lemma AdmitSends(w: World, w1: World, c: Conn, g: Gen, sends: Sends, w': World, p: Conn)
    requires c in w.cs && w.cs[c].up != [] && g in w.ss && g.c == c && w1 == Vacate(w)
    requires c in w1.cs && w1.cs[c].up != [] && g in w1.ss && w' == AdmitConsumer(w, c, g, sends)
    ensures SentTo(w, w', p) && NoticedTo(w, w', p)
  {
    Admitted(w, w1, c, g, sends, w');
    var d := SeatConsumer(w1.d.(nextConn := c + 1), c);
    var w2 := Popped(w1, c).(d := d);
    SeatingSends(w, w1, c, d, w2, p);
    SameSent(w, w2, p);
    OfferSends(w2, c, g, sends, w', p);
    OfferNotices(w2, c, g, sends, w', p);
    SentTwice(w, w2, w', p);
  }

  lemma GreetedLog(d: State, q: Conn, ok: bool, t: State)
    requires t == GreetProducer(SeatProducer(d.(nextConn := q + 1), q), q, ok)
    ensures t.log == if d.screen.Some? then Then(d.log, ScreenTo(q, d.screen.value, ok)) else d.log
  {
  }

  lemma StoredLog(d: State, c: Conn, si: Screen, ok: Sends, t: State)
    requires t == StoreScreen(d, c, si, ok)
    ensures t.log == if d.waitScreen && t.producer.Some?
                     then Then(Then(d.log, ScreenFrom(c, si)), ScreenTo(t.producer.value, si, ok.screenOk))
                     else Then(d.log, ScreenFrom(c, si))
    ensures t.producer.Some? ==> t.producer == d.producer
  {
  }

  lemma GreetSends(w: World, q: Conn, sends: Sends, w': World, p: Conn)
    requires q in w.ps && w' == AdmitProducer(w, q, sends)
    ensures SentTo(w, w', p) && w'.cs == w.cs
    ensures NoticesTo(w'.d.log, p) == NoticesTo(w.d.log, p)
  {
    var ok := sends.screenOk && w.ps[q].alive;
    GreetedLog(w.d, q, ok, w'.d);
  }

  lemma ScreenedSends(w: World, c: Conn, si: Screen, sends: Sends, w': World, p: Conn)
    requires w' == Screened(w, c, si, sends) && (w.d.producer.Some? ==> w.d.producer.value in w.ps)
    ensures SentTo(w, w', p) && w'.cs == w.cs
    ensures NoticesTo(w'.d.log, p) == NoticesTo(w.d.log, p)
  {
    StoredLog(CloseReceived(w.d, []), c, si, Possible(w, sends), w'.d);
  }

  lemma AcceptSends(w: World, readable: bool, sends: Sends, w': World, p: Conn)
    requires Inv(w) && w' == AcceptNext(w, readable, sends)
    ensures SentTo(w, w', p) && NoticedTo(w, w', p)
  {
    var c := w.d.nextConn;
    if c < w.next && readable && c in w.cs {
      assert ConsumerOk(w, c);
      Queued(w, c);
      VacateLeaves(w, c);
      AdmitSends(w, Vacate(w), c, CurrentGen(w, c), sends, w', p);
    } else if c < w.next && readable {
      assert c in w.ps;
      GreetSends(w, c, sends, w', p);
    }
  }

  lemma HelloSends(w: World, c: Conn, g: Gen, sends: Sends, w': World, p: Conn)
    requires c in w.cs && w.cs[c].up != [] && g in w.ss && g.c == c && w.d.consumer == Some(c)
    requires w' == Offer(Popped(w, c), c, g, sends)
    ensures SentTo(w, w', p) && NoticedTo(w, w', p)
  {
    OfferSends(Popped(w, c), c, g, sends, w', p);
    OfferNotices(Popped(w, c), c, g, sends, w', p);
  }

  lemma AnnounceSends(w: World, c: Conn, si: Screen, sends: Sends, w': World, p: Conn)
    requires c in w.cs && w.cs[c].up != [] && w' == Screened(Popped(w, c), c, si, sends)
    requires w.d.producer.Some? ==> w.d.producer.value in w.ps
    ensures SentTo(w, w', p) && NoticedTo(w, w', p)
  {
    ScreenedSends(Popped(w, c), c, si, sends, w', p);
  }

  lemma ReadConsumerSends(w: World, sends: Sends, w': World, p: Conn)
    requires Inv(w) && w' == ReadConsumer(w, sends)
    ensures SentTo(w, w', p) && NoticedTo(w, w', p)
  {
    if w.d.consumer.Some? && w.cs[w.d.consumer.value].up != [] {
      var c := w.d.consumer.value;
      assert ConsumerOk(w, c);
      ConsumerRead(w, sends, c, w');
      match w.cs[c].up[0]
      case Hello(k) =>
        HelloReadCurrent(w, c);
        HelloSends(w, c, CurrentGen(w, c), sends, w', p);
      case Announce(si) => AnnounceSends(w, c, si, sends, w', p);
    }
  }

  lemma PickupSends(w: World, q: Conn, sends: Sends, w1: World, p: Conn)
    requires DepositOk(w) && q in w.ps && w.ps[q].pickups > 0
    requires w1 == w.(d := CloseReceived(w.d, []), ps := w.ps[q := w.ps[q].(pickups := w.ps[q].pickups - 1)])
    ensures SentTo(w, Deliver(w1, sends), p) && NoticedTo(w, Deliver(w1, sends), p)
  {
    assert DepositOk(w1);
    DeliverSends(w1, sends, Deliver(w1, sends), p);
    DeliverNotices(w1, sends, Deliver(w1, sends), p);
  }

  lemma ReadProducerSends(w: World, sends: Sends, w': World, p: Conn)
    requires DepositOk(w) && w' == ReadProducer(w, sends)
    ensures SentTo(w, w', p) && NoticedTo(w, w', p)
  {
    if w.d.producer.Some? && w.d.producer.value in w.ps && w.ps[w.d.producer.value].pickups > 0 {
      var q := w.d.producer.value;
      var w1 := w.(d := CloseReceived(w.d, []), ps := w.ps[q := w.ps[q].(pickups := w.ps[q].pickups - 1)]);
      ProducerRead(w, sends, q, w1, w');
      PickupSends(w, q, sends, w1, p);
    }
  }

  lemma HangSends(w: World, c: Conn, w': World, p: Conn)
    requires w' == HangUp(w, c)
    ensures SentTo(w, w', p) && NoticedTo(w, w', p)
  {
  }

  /** A step of the daemon puts into each producer's mail, and among each consumer's notices, what
      it logs as sent to them, and nothing else. */
  lemma SentIsReceived(w: World, h: Happening, p: Conn)
    requires Inv(w) && FromDaemon(h)
    ensures SentTo(w, Happen(w, h), p) && NoticedTo(w, Happen(w, h), p)
  {
    match h
    case Accepts(readable, sends) => AcceptSends(w, readable, sends, AcceptNext(w, readable, sends), p);
    case ReadsConsumer(sends) => ReadConsumerSends(w, sends, ReadConsumer(w, sends), p);
    case ReadsProducer(sends) => ReadProducerSends(w, sends, ReadProducer(w, sends), p);
    case Hangs(c) => HangSends(w, c, HangUp(w, c), p);
  }

  // ---------------------------------------------------------------- over histories

  /** Producer `p` reads a message in this step. */
  predicate Reads(w: World, h: Happening, p: Conn) {
    h.ProducerReads? && h.p == p && p in w.ps && w.ps[p].alive && w.ps[p].session.None? && w.ps[p].down != []
  }

  /** The messages that producer `p` has read, in order. */
  function ReadBy(hs: seq<Happening>, p: Conn): seq<Mail> {
    if hs == [] then []
    else
      var before, h := hs[..|hs| - 1], hs[|hs| - 1];
      ReadBy(before, p) + if Reads(History(before), h, p) then [History(before).ps[p].down[0]] else []
  }

  /** What producer `p` was sent is what it has read and what is still in its mail. */
  predicate MailOk(w: World, read: seq<Mail>, p: Conn) {
    if p in w.ps then w.ps[p].alive ==> MailTo(w.d.log, p) == read + w.ps[p].down
    else MailTo(w.d.log, p) == [] && read == []
  }

  /** What a client's step does to the mail of `p`: only `p` itself reads it, or ends. */
  predicate ClientKeeps(w: World, h: Happening, w': World, p: Conn) {
    && w'.d.log == w.d.log
    && (p in w.ps ==>
          && p in w'.ps && (w'.ps[p].alive ==> w.ps[p].alive)
          && (w'.ps[p].alive ==> w'.ps[p].down == if Reads(w, h, p) then w.ps[p].down[1..] else w.ps[p].down))
    && (p !in w.ps && p in w'.ps ==> w'.ps[p].down == [])
  }

  lemma ConsumerMail(w: World, h: Happening, w': World, p: Conn)
    requires FromConsumer(h) && w' == Happen(w, h)
    ensures ClientKeeps(w, h, w', p)
  {
    assert w'.ps == w.ps;
  }

  lemma WorkMail(w: World, h: Happening, w': World, p: Conn)
    requires (h.ProducerWaits? || h.ProducerTriggers? || h.ProducerPolls?) && w' == Happen(w, h)
    ensures ClientKeeps(w, h, w', p)
  {
    ProducerCalled(w, h, w');
  }

  lemma ReadingMail(w: World, h: Happening, w': World, p: Conn)
    requires h.ProducerReads? && w' == Happen(w, h)
    ensures ClientKeeps(w, h, w', p)
  {
  }

  lemma LeavingMail(w: World, h: Happening, w': World, p: Conn)
    requires h.ProducerLeaves? && w' == Happen(w, h)
    ensures ClientKeeps(w, h, w', p)
  {
  }

  lemma OtherMail(w: World, h: Happening, w': World, p: Conn)
    requires (h.ProducerAsks? || h.ProducerConnects?) && w' == Happen(w, h) && w.next !in w.ps
    ensures ClientKeeps(w, h, w', p)
  {
  }

  lemma ClientMail(w: World, h: Happening, w': World, p: Conn)
    requires Inv(w) && !FromDaemon(h) && w' == Happen(w, h)
    ensures ClientKeeps(w, h, w', p)
  {
    if FromConsumer(h) {
      ConsumerMail(w, h, w', p);
    } else if h.ProducerWaits? || h.ProducerTriggers? || h.ProducerPolls? {
      WorkMail(w, h, w', p);
    } else if h.ProducerReads? {
      ReadingMail(w, h, w', p);
    } else if h.ProducerLeaves? {
      LeavingMail(w, h, w', p);
    } else {
      assert w.next !in w.ps;
      OtherMail(w, h, w', p);
    }
  }

  lemma MailClient(w: World, h: Happening, w': World, read: seq<Mail>, read': seq<Mail>, p: Conn)
    requires MailOk(w, read, p) && ClientKeeps(w, h, w', p)
    requires read' == read + if Reads(w, h, p) then [w.ps[p].down[0]] else []
    ensures MailOk(w', read', p)
  {
    if Reads(w, h, p) { assert w.ps[p].down == [w.ps[p].down[0]] + w.ps[p].down[1..]; }
  }

  lemma MailDaemon(w: World, w': World, read: seq<Mail>, p: Conn)
    requires MailOk(w, read, p) && SentTo(w, w', p)
    ensures MailOk(w', read, p)
  {
    var a, b := MailTo(w.d.log, p), MailTo(w'.d.log, p);
    assert b == a + b[|a|..];
  }

  lemma MailStep(w: World, h: Happening, w': World, read: seq<Mail>, read': seq<Mail>, p: Conn)
    requires Inv(w) && MailOk(w, read, p) && w' == Happen(w, h)
    requires read' == read + if Reads(w, h, p) then [w.ps[p].down[0]] else []
    ensures MailOk(w', read', p)
  {
    if FromDaemon(h) {
      SentIsReceived(w, h, p);
      MailDaemon(w, w', read, p);
    } else {
      ClientMail(w, h, w', p);
      MailClient(w, h, w', read, read', p);
    }
  }

  lemma {:induction false} MailKept(hs: seq<Happening>, p: Conn)
    ensures MailOk(History(hs), ReadBy(hs, p), p)
  {
    if hs != [] {
      var before, h := hs[..|hs| - 1], hs[|hs| - 1];
      MailKept(before, p);
      EveryHistory(before);
      MailStep(History(before), h, History(hs), ReadBy(before, p), ReadBy(hs, p), p);
    }
  }

  /** After every history, a producer that has not ended has been sent exactly what it has read,
      in that order, and then what is in its mail. */
  lemma MailConserved(hs: seq<Happening>, p: Conn)
    requires p in History(hs).ps && History(hs).ps[p].alive
    ensures MailTo(History(hs).d.log, p) == ReadBy(hs, p) + History(hs).ps[p].down
  {
    MailKept(hs, p);
  }
}
