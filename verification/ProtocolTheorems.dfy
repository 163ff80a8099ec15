/**
 The promises of the display protocol, for every history of any number of consumers and
 producers: session agreement, frame handoff, buffer table agreement, and one place for
 every session's descriptors.
 */
module ProtocolTheorems {
  import opened Messages
  import opened Options
  import opened DisplayDaemon
  import opened Contexts
  import opened Protocol
  import opened DaemonSafety
  import opened ProtocolInv
  import opened ProtocolSteps
  import opened ProtocolSafety
  import opened ProtocolOrder

  // ---------------------------------------------------------------- the daemon inside the system

  /** The daemon's part of any step is a step of the daemon alone. */
  lemma DaemonFollows(w: World, h: Happening) returns (e: Event)
    requires Inv(w)
    ensures Happen(w, h).d == w.d || Happen(w, h).d == Step(w.d, e)
  {
    e := Hangup(0);
    if h.Accepts? {
      e := AcceptFollows(w, h.readable, h.sends);
    } else if h.ReadsConsumer? {
      e := ReadFollows(w, h.sends);
    } else if h.ReadsProducer? {
      e := PickupFollows(w, h.sends);
    } else if h.Hangs? {
      e := Hangup(h.c);
    } else {
      ClientStep(w, h);
    }
  }

  lemma AcceptUnread(w: World, c: Conn, sends: Sends)
    requires c == w.d.nextConn
    ensures Orphan(w, c).(d := w.d.(nextConn := c + 1)).d == Step(w.d, Accept(Closed, sends))
  {
  }

  /** The first message of a connection, as the daemon reads it. */
  function Greeting(kind: nat, fds: FdList): Inbound { Message(true, kind, 0, true, Screen(0, 0, 0, 0), fds) }

  lemma OfferFollows(w: World, c: Conn, g: Gen, sends: Sends) returns (ok: Sends)
    requires g in w.ss
    ensures Offer(w, c, g, sends).d == Deposit(w.d, c, FdsOf(g), ok)
  {
    ok := Possible(Shelve(w, c, g), sends);
  }

  lemma VacateSeats(w: World, c: Conn)
    ensures SeatConsumer(Vacate(w).d.(nextConn := c + 1), c) == SeatConsumer(w.d.(nextConn := c + 1), c)
  {
  }

  lemma AdmitFollows(w: World, w1: World, t: State, c: Conn, g: Gen, sends: Sends) returns (ok: Sends)
    requires c in w.cs && w.cs[c].up != [] && g in w.ss
    requires w1 == Vacate(w) && c in w1.cs && w1.cs[c].up != [] && g in w1.ss
    requires t == SeatConsumer(w1.d.(nextConn := c + 1), c)
    ensures AdmitConsumer(w, c, g, sends).d == Deposit(t, c, FdsOf(g), ok)
  {
    ok := OfferFollows(Popped(w1, c).(d := t), c, g, sends);
  }

  lemma AcceptHello(w: World, c: Conn, g: Gen, sends: Sends, m: Inbound) returns (ok: Sends)
    requires w.d.consumer != Some(c) && c in w.cs && c == w.d.nextConn && w.cs[c].up != [] && g in w.ss
    requires m == Greeting(CONSUMER_HELLO, FdsOf(g))
    ensures AdmitConsumer(w, c, g, sends).d == NewConnection(w.d, m, ok)
  {
    var w1, t := Vacate(w), SeatConsumer(w.d.(nextConn := c + 1), c);
    VacateSeats(w, c);
    ok := AdmitFollows(w, w1, t, c, g, sends);
    ConsumerAccepted(w.d, m, ok, t);
  }

  lemma AcceptGreeting(w: World, p: Conn, sends: Sends, m: Inbound, ok: Sends)
    requires p == w.d.nextConn && p in w.ps && ok.screenOk == (sends.screenOk && w.ps[p].alive)
    requires Greets(m, PRODUCER_HELLO)
    ensures AdmitProducer(w, p, sends).d == NewConnection(w.d, m, ok)
  {
    AdmitProducerParts(w, p, sends, ok.screenOk);
    ProducerAccepted(w.d, m, ok, SeatProducer(w.d.(nextConn := p + 1), p));
  }

  lemma AcceptFollows(w: World, readable: bool, sends: Sends) returns (e: Event)
    requires w.d.consumer != Some(w.d.nextConn)
    ensures AcceptNext(w, readable, sends).d == w.d || AcceptNext(w, readable, sends).d == Step(w.d, e)
  {
    var c := w.d.nextConn;
    e := Accept(Closed, sends);
    if c >= w.next {
    } else if !readable {
      AcceptUnread(w, c, sends);
    } else if c in w.cs && w.cs[c].up != [] && w.cs[c].up[0].Hello? && Gen(c, w.cs[c].up[0].k) in w.ss {
      var g := Gen(c, w.cs[c].up[0].k);
      var ok := AcceptHello(w, c, g, sends, Greeting(CONSUMER_HELLO, FdsOf(g)));
      e := Accept(Greeting(CONSUMER_HELLO, FdsOf(g)), ok);
    } else if c in w.ps {
      var ok := Sends(true, true, sends.screenOk && w.ps[c].alive);
      AcceptGreeting(w, c, sends, Greeting(PRODUCER_HELLO, []), ok);
      e := Accept(Greeting(PRODUCER_HELLO, []), ok);
    }
  }

  lemma ReadFollows(w: World, sends: Sends) returns (e: Event)
    requires Inv(w)
    ensures ReadConsumer(w, sends).d == w.d || ReadConsumer(w, sends).d == Step(w.d, e)
  {
    e := Hangup(0);
    if w.d.consumer.Some? && w.cs[w.d.consumer.value].up != [] {
      var c := w.d.consumer.value;
      match w.cs[c].up[0]
      case Hello(k) =>
        if Gen(c, k) in w.ss {
          var ok := OfferFollows(Popped(w, c), c, Gen(c, k), sends);
          e := Data(c, Greeting(CONSUMER_HELLO, FdsOf(Gen(c, k))), ok);
        }
      case Announce(si) =>
        e := Data(c, Message(true, SCREEN_INFO, SCREEN_INFO_SIZE, true, si, []), Possible(Popped(w, c), sends));
    }
  }

  lemma PickupFollows(w: World, sends: Sends) returns (e: Event)
    requires Inv(w)
    ensures ReadProducer(w, sends).d == w.d || ReadProducer(w, sends).d == Step(w.d, e)
  {
    e := Hangup(0);
    if w.d.producer.Some? && w.ps[w.d.producer.value].pickups > 0 {
      var p := w.d.producer.value;
      var w1 := w.(d := CloseReceived(w.d, []), ps := w.ps[p := w.ps[p].(pickups := w.ps[p].pickups - 1)]);
      assert w.d.consumer != Some(p);
      e := Data(p, Greeting(PICKUP_FDS, []), Possible(w1, sends));
    }
  }

  /** Whatever happens in the system, the daemon has run some events of its own: everything
      proved of its runs holds here. */
  lemma {:induction false} DaemonRuns(hs: seq<Happening>) returns (es: seq<Event>)
    ensures History(hs).d == Run(es)
  {
    es := [];
    if hs != [] {
      var before := hs[..|hs| - 1];
      es := DaemonRuns(before);
      EveryHistory(before);
      var e := DaemonFollows(History(before), hs[|hs| - 1]);
      if History(hs).d != History(before).d {
        assert (es + [e])[..|es|] == es;
        es := es + [e];
      }
    }
  }

  /** Sessions sent to producers later - to the same one or to another - are later sessions. */
  lemma DeliveriesIncrease(hs: seq<Happening>, i: nat, j: nat)
    requires var log := Entries(History(hs).d.log); i < j < |log| && Delivery(log[i]) && Delivery(log[j])
    ensures var log := Entries(History(hs).d.log);
            && log[i].fds != [] && log[j].fds != []
            && Earlier(GenOf(log[i].fds), GenOf(log[j].fds))
  {
    var es := DaemonRuns(hs);
    var di, dj := DeliveriesAdvance(es, i, j);
    GenerationsIncrease(hs, di, dj);
  }

  /** Every delivery hands out the four descriptors of one session, in the order of its hello. */
  lemma DeliveredWhole(hs: seq<Happening>, i: nat)
    requires i < |Entries(History(hs).d.log)| && Delivery(Entries(History(hs).d.log)[i])
    ensures var fds := Entries(History(hs).d.log)[i].fds; fds != [] && fds == FdsOf(GenOf(fds))
  {
    var es := DaemonRuns(hs);
    EveryRun(es);
    var d := Source(History(hs).d.log, i);
    EveryLog(hs, 0);
    OffersWhole(History(hs).d.log, d);
  }

  // ---------------------------------------------------------------- session agreement

  function One(b: bool): nat { if b then 1 else 0 }

  lemma OneOffer(w: World, c: Conn)
    requires ConsumerOk(w, c)
    ensures |Hellos(w.cs[c].up)| + One(Deposits(w.d, c)) + w.cs[c].notices + One(!w.cs[c].fallback) <= 1
    ensures !w.cs[c].fallback ==> Handed(w.d.log, FdsOf(CurrentGen(w, c)))
  {
    assert Phase(w.d, c, w.cs[c], w.ss[CurrentGen(w, c)].far);
  }

  /** Hellos under way, a deposit, notices and "out of fallback" of one consumer never add up
      to more than one; out of fallback, the descriptors the consumer holds have been sent to
      a producer. */
  lemma SessionAgreement(hs: seq<Happening>, c: Conn)
    requires c in History(hs).cs
    ensures var w := History(hs); var x := w.cs[c];
            && |Hellos(x.up)| + One(Deposits(w.d, c)) + x.notices + One(!x.fallback) <= 1
            && x.made > 0
            && (!x.fallback ==> Handed(w.d.log, FdsOf(CurrentGen(w, c))))
  {
    EveryHistory(hs);
    OneOffer(History(hs), c);
  }

  // ---------------------------------------------------------------- one place

  /** The places where the far end of a session can be. */
  datatype Place =
    | HelloPlace(c: Conn) | DepositPlace | MailPlace(p: Conn) | ProducerPlace(p: Conn) | StrayPlace(p: Conn)

  predicate At(w: World, g: Gen, place: Place) {
    match place
    case HelloPlace(c) => c == g.c && c in w.cs && g.k in Hellos(w.cs[c].up)
    case DepositPlace => w.d.deposit == FdsOf(g)
    case MailPlace(p) => p in w.ps && FdsMail(g) in w.ps[p].down
    case ProducerPlace(p) => p in w.ps && w.ps[p].session == Some(g)
    case StrayPlace(p) => p in w.ps && g in w.ps[p].strays
  }

  lemma PlaceOfFar(w: World, g: Gen, place: Place)
    requires Inv(w) && At(w, g, place)
    ensures g in w.ss
    ensures w.ss[g].far == match place
                           case HelloPlace(_) => InHello
                           case DepositPlace => AtDaemon
                           case MailPlace(p) => InMail(p)
                           case ProducerPlace(p) => Held(p)
                           case StrayPlace(p) => Stray(p)
  {
    match place
    case HelloPlace(c) => assert ConsumerOk(w, c);
    case DepositPlace => assert GenOf(w.d.deposit) == g;
    case MailPlace(p) => assert ProducerOk(w, p);
    case ProducerPlace(p) => assert ProducerOk(w, p);
    case StrayPlace(p) => assert ProducerOk(w, p);
  }

  /** Each session's descriptors are in at most one place: one hello, the deposit, the mail
      of one producer, or the hands of one producer. */
  lemma OnePlace(hs: seq<Happening>, g: Gen, place: Place, place': Place)
    requires At(History(hs), g, place) && At(History(hs), g, place')
    ensures place == place'
  {
    EveryHistory(hs);
    PlaceOfFar(History(hs), g, place);
    PlaceOfFar(History(hs), g, place');
  }

  // ---------------------------------------------------------------- frame handoff

  /** Tokens and held frames of a session never exceed one. */
  lemma FrameHandoff(hs: seq<Happening>, g: Gen)
    requires g in History(hs).ss
    ensures var w := History(hs); w.ss[g].bufReady + w.ss[g].refreshDone + One(FrameHeld(w, w.ss[g])) <= 1
  {
    EveryHistory(hs);
    assert SessionInv(History(hs), g);
  }

  /** A consumer blocked in refresh_done has its token in flight - ready for the producer,
      with a producer that holds the frame, or on its way back - or its peer end is closed. */
  lemma BlockedConsumer(hs: seq<Happening>, c: Conn)
    requires var w := History(hs); c in w.cs && w.cs[c].pending
    ensures var w := History(hs);
            && w.cs[c].made > 0 && CurrentGen(w, c) in w.ss
            && var g := CurrentGen(w, c); var s := w.ss[g];
            || s.bufReady == 1
            || s.refreshDone == 1
            || (exists p :: p in w.ps && w.ps[p].alive && w.ps[p].session == Some(g) && w.ps[p].holds)
            || (forall place :: !At(w, g, place))
  {
    EveryHistory(hs);
    var w := History(hs);
    assert ConsumerOk(w, c);
    var g := CurrentGen(w, c);
    assert SessionInv(w, g);
    if w.ss[g].far == Gone {
      forall place ensures !At(w, g, place) { if At(w, g, place) { PlaceOfFar(w, g, place); } }
    } else if FrameHeld(w, w.ss[g]) {
      assert ProducerOk(w, w.ss[g].far.p);
    }
  }

  /** The shared index is not rewritten while a producer holds the frame. */
  lemma WordStable(hs: seq<Happening>, h: Happening, g: Gen)
    requires g in History(hs).ss && FrameHeld(History(hs), History(hs).ss[g])
    ensures var w' := Happen(History(hs), h); g in w'.ss && w'.ss[g].word == History(hs).ss[g].word
  {
    EveryHistory(hs);
    var w := History(hs);
    assert SessionInv(w, g);
    if ConsumerCallOf(h) && Awake(w, h.c) && CurrentGen(w, h.c) == g {
      SelectBlocked(w, h, g);
    } else {
      SessionKept(w, h, g);
    }
  }

  lemma SelectBlocked(w: World, h: Happening, g: Gen)
    requires Inv(w) && SessionInv(w, g) && FrameHeld(w, w.ss[g])
    requires ConsumerCallOf(h) && Awake(w, h.c) && CurrentGen(w, h.c) == g
    ensures var w' := Happen(w, h); g in w'.ss && w'.ss[g].word == w.ss[g].word
  {
    assert w.cs[h.c].pending;
    assert ConsumerOk(w, h.c);
  }

  // ---------------------------------------------------------------- the selected index

  /** The step is a select_dmabuf that goes through in session `g`. */
  predicate Selects(w: World, h: Happening, g: Gen) {
    && h.ConsumerSelects? && h.c == g.c && Awake(w, h.c) && !w.cs[h.c].pending
    && ConsumerCall(w, h).x.pending && ConsumerCall(w, h).x.made == g.k + 1
  }

  /** The index selected last in session `g`; 0 before any. */
  function Selected(hs: seq<Happening>, g: Gen): int {
    if hs == [] then 0
    else
      var before, h := hs[..|hs| - 1], hs[|hs| - 1];
      if Selects(History(before), h, g) then h.idx else Selected(before, g)
  }

  /** The call has ended in fallback with a new session, in which nothing has happened yet. */
  predicate Renewed(a: ConsumerSide, b: ConsumerSide) {
    b.x.made == a.x.made + 1 && b.x.fallback && !b.x.pending && b.s.word == 0 && b.s.sent == []
  }

  lemma CallWord(w: World, h: Happening, a: ConsumerSide, b: ConsumerSide)
    requires ConsumerCallOf(h) && Awake(w, h.c) && a == SideOf(w, h.c) && b == ConsumerCall(w, h)
    requires h.ConsumerSelects? ==> !a.x.pending
    ensures b.x.made == a.x.made ==>
              b.s.word == (if h.ConsumerSelects? && b.x.pending then h.idx else a.s.word)
    ensures b.x.made == a.x.made || Renewed(a, b)
  {
  }

  lemma OwnCall(w: World, h: Happening, g: Gen)
    requires ConsumerCallOf(h) && Awake(w, h.c) && CurrentGen(w, h.c) == g
    requires (h.ConsumerSelects? ==> !w.cs[h.c].pending)
    ensures g in Happen(w, h).ss && Happen(w, h).ss[g].word == if Selects(w, h, g) then h.idx else w.ss[g].word
  {
    CallWord(w, h, SideOf(w, h.c), ConsumerCall(w, h));
  }

  /** Only the current session of a consumer can be selected in. */
  lemma SelectsCurrent(w: World, h: Happening, g: Gen)
    requires Selects(w, h, g)
    ensures CurrentGen(w, h.c) == g && g in w.ss
  {
    CallWord(w, h, SideOf(w, h.c), ConsumerCall(w, h));
  }

  /** A session comes into being with a word of 0, nothing sent and its consumer in fallback. */
  lemma BornEmpty(w: World, h: Happening, g: Gen)
    requires Inv(w) && g !in w.ss && g in Happen(w, h).ss
    ensures Happen(w, h).ss[g].word == 0 && Happen(w, h).ss[g].sent == [] && !InUse(Happen(w, h), g)
  {
    if FromDaemon(h) {
      BornNot(w, h, g);
    } else if ConsumerCallOf(h) {
      CallWord(w, h, SideOf(w, h.c), ConsumerCall(w, h));
    }
  }

  lemma BornNot(w: World, h: Happening, g: Gen)
    requires FromDaemon(h) && g !in w.ss
    ensures g !in Happen(w, h).ss
  {
    match h
    case Accepts(readable, sends) => AcceptBornNot(w, readable, sends, g);
    case _ =>
  }

  lemma AcceptBornNot(w: World, readable: bool, sends: Sends, g: Gen)
    requires g !in w.ss
    ensures g !in AcceptNext(w, readable, sends).ss
  {
    assert g !in Vacate(w).ss && g !in Orphan(w, w.d.nextConn).ss;
  }

  /** After every history, the shared word of every session is the index selected last in it. */
  lemma {:induction false} WordIsSelected(hs: seq<Happening>, g: Gen)
    ensures if g in History(hs).ss then History(hs).ss[g].word == Selected(hs, g) else Selected(hs, g) == 0
  {
    if hs != [] {
      var before, h := hs[..|hs| - 1], hs[|hs| - 1];
      WordIsSelected(before, g);
      EveryHistory(before);
      SelectedStep(History(before), h, g);
    }
  }

  lemma SelectedStep(w: World, h: Happening, g: Gen)
    requires Inv(w)
    ensures g in w.ss ==> g in Happen(w, h).ss
    ensures g in w.ss ==> Happen(w, h).ss[g].word == if Selects(w, h, g) then h.idx else w.ss[g].word
    ensures g !in w.ss ==> !Selects(w, h, g) && (g in Happen(w, h).ss ==> Happen(w, h).ss[g].word == 0)
  {
    if Selects(w, h, g) { SelectsCurrent(w, h, g); }
    if g in w.ss {
      SessionKept(w, h, g);
      if ConsumerCallOf(h) && Awake(w, h.c) && CurrentGen(w, h.c) == g && (h.ConsumerSelects? ==> !w.cs[h.c].pending) {
        OwnCall(w, h, g);
      }
    } else if g in Happen(w, h).ss {
      BornEmpty(w, h, g);
    }
  }
}
