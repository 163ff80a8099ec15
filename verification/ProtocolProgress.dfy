/**
 Nothing that is not lost stays blocked: from every state in which a consumer's current session
 is still on its way to a waiting producer, the parties can go on, without any failure, until
 the producer holds a frame of that session.
 */
module ProtocolProgress {
  import opened Options
  import opened DisplayDaemon
  import opened Contexts
  import opened Protocol
  import opened ProtocolInv
  import opened ProtocolSafety
  import opened ProtocolStranded

  // ---------------------------------------------------------------- continuations

  /** Nothing fails, and nobody leaves. */
  predicate Smooth(h: Happening) {
    match h
    case Accepts(readable, sends) => readable && sends == FINE
    case ReadsConsumer(sends) => sends == FINE
    case ReadsProducer(sends) => sends == FINE
    case Hangs(_) => false
    case ConsumerPushes(_, _, sendOk, helloOk) => sendOk && helloOk
    case ConsumerSelects(_, _, sendOk, helloOk) => sendOk && helloOk
    case ConsumerWaits(_, broken, helloOk) => !broken && helloOk
    case ConsumerSends(_, _, _, sendOk, helloOk) => sendOk && helloOk
    case ConsumerLeaves(_) => false
    case ProducerReads(_, mapOk) => mapOk
    case ProducerWaits(_, broken) => !broken
    case ProducerPolls(_, broken) => !broken
    case ProducerLeaves(_) => false
    case _ => true
  }

  predicate AllSmooth(hs: seq<Happening>) { forall i | 0 <= i < |hs| :: Smooth(hs[i]) }

  lemma {:induction false} AfterBoth(w: World, a: seq<Happening>, b: seq<Happening>, all: seq<Happening>)
    requires all == a + b
    ensures After(w, all) == After(After(w, a), b)
    decreases |b|
  {
    if b == [] {
      assert all == a;
    } else {
      assert all[..|all| - 1] == a + b[..|b| - 1];
      AfterBoth(w, a, b[..|b| - 1], all[..|all| - 1]);
    }
  }

  lemma AfterOne(w: World, h: Happening)
    ensures After(w, [h]) == Happen(w, h)
  {
    assert After(w, [h][..0]) == w;
  }

  lemma AfterTwo(w: World, h: Happening, h': Happening)
    ensures After(w, [h, h']) == Happen(Happen(w, h), h')
  {
    AfterOne(w, h);
    assert [h, h'][..1] == [h];
  }

  lemma OneKeeps(w: World, h: Happening)
    requires Inv(w)
    ensures After(w, [h]) == Happen(w, h) && Inv(Happen(w, h))
  {
    AfterOne(w, h);
    StepKeepsInv(w, h);
  }

  // ---------------------------------------------------------------- where a session can be

  /** A consumer with buffers to show, and the daemon's producer, in fallback. */
  predicate Ready(w: World, c: Conn, p: Conn, list: seq<Buf>) {
    && Awake(w, c) && w.cs[c].stored == list && list != []
    && w.d.producer == Some(p) && p in w.ps && w.ps[p].alive && w.ps[p].greeted && w.ps[p].session.None?
  }

  /** The consumer's hello is the next thing the daemon reads of it. */
  predicate Saying(w: World, c: Conn) {
    && c in w.cs && w.cs[c].up != [] && w.cs[c].up[0].Hello?
    && (w.d.consumer == Some(c) || c == w.d.nextConn < w.next)
  }

  /** The daemon holds the session. */
  predicate Holding(w: World, c: Conn) {
    Awake(w, c) && w.d.consumer == Some(c) && w.ss[CurrentGen(w, c)].far == AtDaemon
  }

  /** The session is in the mail of producer `p`, and the notice is there. */
  predicate Mailing(w: World, c: Conn, p: Conn) {
    Awake(w, c) && w.cs[c].notices > 0 && w.ss[CurrentGen(w, c)].far == InMail(p)
  }

  /** The session has ended, and the consumer can find out. */
  predicate Ended(w: World, c: Conn) {
    && Awake(w, c) && w.d.consumer == Some(c) && w.cs[c].up == []
    && w.ss[CurrentGen(w, c)].far == Gone && (w.cs[c].notices > 0 || !w.cs[c].fallback)
  }

  predicate Promising(w: World, c: Conn, p: Conn) {
    Saying(w, c) || Holding(w, c) || Mailing(w, c, p) || Ended(w, c)
  }

  /** Whatever else the producer has to read is of sessions whose consumers have given them up. */
  predicate OldMail(w: World, c: Conn, p: Conn)
    requires Awake(w, c) && p in w.ps
  {
    forall i | 0 <= i < |w.ps[p].down| && w.ps[p].down[i].FdsMail? ::
      w.ps[p].down[i].g == CurrentGen(w, c) || !ConsumerEndOpen(w, w.ps[p].down[i].g)
  }

  /** Producer `p` has a frame of the consumer's current session, from the consumer's list. */
  predicate HandedOver(w: World, c: Conn, p: Conn, list: seq<Buf>, idx: nat) {
    && Awake(w, c) && !w.cs[c].fallback && w.cs[c].pending && w.cs[c].stored == list
    && InSession(w, p) && w.ps[p].session == Some(CurrentGen(w, c)) && w.ps[p].holds && w.ps[p].table == list
    && GetSelectedIdx(PSideOf(w, p)) == idx
  }

  /** Nothing else can have become of the session of the daemon's consumer, once its messages
      are read: it is on its way, some producer has it, or the consumer is stranded. */
  lemma WhereItIs(w: World, c: Conn, p: Conn)
    requires Inv(w) && Awake(w, c) && w.d.consumer == Some(c) && w.cs[c].up == []
    ensures var f := w.ss[CurrentGen(w, c)].far;
            Promising(w, c, p) || Stranded(w, c) || f.InMail? || f.Held? || f.Stray?
    ensures Promising(w, c, p) ==> !Stranded(w, c)
  {
    assert ConsumerOk(w, c);
    assert Hellos(w.cs[c].up) == [];
  }

  // ---------------------------------------------------------------- old mail

  predicate Tidy(w: World, c: Conn, p: Conn)
    requires Awake(w, c) && p in w.ps
  {
    w.ps[p].down == [] || w.ps[p].down[0] == FdsMail(CurrentGen(w, c))
  }

  /** One message less in the producer's mail, and nothing else that matters to `c`. */
  predicate OneLess(w: World, w': World, c: Conn, p: Conn)
    requires Awake(w, c) && p in w.ps && w.ps[p].down != []
  {
    && w'.d == w.d && w'.cs == w.cs && w'.next == w.next && p in w'.ps
    && w'.ps[p].down == w.ps[p].down[1..] && w'.ps[p].alive == w.ps[p].alive
    && w'.ps[p].greeted && w'.ps[p].session.None?
    && CurrentGen(w, c) in w'.ss && w'.ss[CurrentGen(w, c)] == w.ss[CurrentGen(w, c)]
  }

  lemma LessIsReady(w: World, w': World, c: Conn, p: Conn, list: seq<Buf>)
    requires Ready(w, c, p, list) && Promising(w, c, p) && OldMail(w, c, p)
    requires w.ps[p].down != [] && OneLess(w, w', c, p)
    ensures Ready(w', c, p, list) && Promising(w', c, p) && OldMail(w', c, p)
  {
  }

  lemma ScreenRead(w: World, c: Conn, p: Conn, list: seq<Buf>, w': World)
    requires Ready(w, c, p, list) && w.ps[p].down != [] && w.ps[p].down[0].ScreenMail?
    requires w' == Happen(w, ProducerReads(p, true))
    ensures OneLess(w, w', c, p)
  {
  }

  /** An old session is picked up, found closed, and given up. */
  lemma OldSessionRead(w: World, c: Conn, p: Conn, list: seq<Buf>, g: Gen, w1: World, w': World)
    requires Ready(w, c, p, list) && ProducerOk(w, p) && w.ps[p].down != [] && w.ps[p].down[0] == FdsMail(g)
    requires g != CurrentGen(w, c) && !ConsumerEndOpen(w, g)
    requires w1 == Happen(w, ProducerReads(p, true)) && w' == Happen(w1, ProducerWaits(p, false))
    ensures OneLess(w, w', c, p)
  {
    assert InSession(w1, p) && w1.ps[p].session == Some(g) && !w1.ps[p].holds && !ConsumerEndOpen(w1, g);
  }

  lemma DrainOne(w: World, c: Conn, p: Conn, list: seq<Buf>) returns (more: seq<Happening>)
    requires ProducerOk(w, p) && Ready(w, c, p, list) && OldMail(w, c, p) && !Tidy(w, c, p)
    ensures AllSmooth(more) && OneLess(w, After(w, more), c, p)
  {
    var h, h' := ProducerReads(p, true), ProducerWaits(p, false);
    if w.ps[p].down[0].ScreenMail? {
      AfterOne(w, h);
      ScreenRead(w, c, p, list, After(w, [h]));
      more := [h];
    } else {
      AfterTwo(w, h, h');
      OldSessionRead(w, c, p, list, w.ps[p].down[0].g, Happen(w, h), After(w, [h, h']));
      more := [h, h'];
    }
  }

  lemma {:induction false} AfterKeeps(w: World, more: seq<Happening>)
    requires Inv(w)
    ensures Inv(After(w, more))
  {
    if more != [] {
      AfterKeeps(w, more[..|more| - 1]);
      StepKeepsInv(After(w, more[..|more| - 1]), more[|more| - 1]);
    }
  }

  lemma {:induction false} Drain(w: World, c: Conn, p: Conn, list: seq<Buf>) returns (more: seq<Happening>)
    requires Inv(w) && Ready(w, c, p, list) && Promising(w, c, p) && OldMail(w, c, p)
    ensures AllSmooth(more) && Inv(After(w, more))
    ensures var w' := After(w, more); Ready(w', c, p, list) && Promising(w', c, p) && Tidy(w', c, p)
    decreases if p in w.ps then |w.ps[p].down| else 0
  {
    if Tidy(w, c, p) {
      more := [];
    } else {
      assert ProducerOk(w, p);
      var one := DrainOne(w, c, p, list);
      AfterKeeps(w, one);
      LessIsReady(w, After(w, one), c, p, list);
      var rest := Drain(After(w, one), c, p, list);
      AfterBoth(w, one, rest, one + rest);
      more := one + rest;
    }
  }

  // ---------------------------------------------------------------- a new session

  /** A consumer that finds its session ended offers another. */
  lemma EndedCall(w: World, c: Conn, h: Happening, w': World)
    requires Ended(w, c) && (w.cs[c].pending ==> !w.cs[c].fallback) && w.cs[c].stored != []
    requires h == (if w.cs[c].fallback then ConsumerSelects(c, 0, true, true) else ConsumerSends(c, 0, 0, true, true))
    requires w' == Happen(w, h)
    ensures w'.d == w.d && w'.ps == w.ps && Saying(w', c) && Awake(w', c) && w'.cs[c].stored == w.cs[c].stored
  {
    assert SideOf(w, c).s.far == Gone && Linked(w, c);
    assert ConsumerCall(w, h) == FreshSession(w.cs[c].(fallback := true, pending := false,
                                                       notices := ConsumerCall(w, h).x.notices), true);
  }

  lemma Renew(w: World, c: Conn, p: Conn, list: seq<Buf>) returns (more: seq<Happening>)
    requires Inv(w) && Ready(w, c, p, list) && Ended(w, c) && w.ps[p].down == []
    ensures AllSmooth(more) && Inv(After(w, more))
    ensures var w' := After(w, more); Ready(w', c, p, list) && Saying(w', c) && w'.ps[p].down == []
  {
    var h := if w.cs[c].fallback then ConsumerSelects(c, 0, true, true) else ConsumerSends(c, 0, 0, true, true);
    assert ConsumerOk(w, c);
    OneKeeps(w, h);
    EndedCall(w, c, h, Happen(w, h));
    more := [h];
  }

  // ---------------------------------------------------------------- the hello is read

  /** The session is with the daemon or in the mail, and the producer's mail holds nothing else. */
  predicate Passed(w: World, c: Conn, p: Conn) {
    && p in w.ps && (Holding(w, c) || Mailing(w, c, p))
    && (Holding(w, c) ==> w.ps[p].down == [])
    && (Mailing(w, c, p) ==> w.ps[p].down == [FdsMail(CurrentGen(w, c))])
  }

  lemma DeliverPasses(w: World, c: Conn, p: Conn, list: seq<Buf>, w': World)
    requires Ready(w, c, p, list) && Holding(w, c) && w.ps[p].down == [] && w.d.deposit == FdsOf(CurrentGen(w, c))
    requires w' == Deliver(w, FINE)
    ensures Ready(w', c, p, list) && Mailing(w', c, p) && w'.ps[p].down == [FdsMail(CurrentGen(w, c))]
    ensures CurrentGen(w', c) == CurrentGen(w, c)
  {
    var g := CurrentGen(w, c);
    assert GenOf(w.d.deposit) == g && Possible(w, FINE) == FINE;
  }

  lemma OfferPasses(w: World, c: Conn, p: Conn, list: seq<Buf>, w': World)
    requires Ready(w, c, p, list) && w.d.consumer == Some(c) && w.ps[p].down == []
    requires w' == Offer(w, c, CurrentGen(w, c), FINE) && w.cs[c].notices == 0
    ensures Ready(w', c, p, list) && Passed(w', c, p)
  {
    var w1 := Shelve(w, c, CurrentGen(w, c));
    assert Ready(w1, c, p, list) && Holding(w1, c);
    if w1.d.waitFds { DeliverPasses(w1, c, p, list, w'); }
  }

  /** The hello at the head is the one of the current session. */
  lemma HelloIsCurrent(w: World, c: Conn)
    requires ConsumerOk(w, c) && w.cs[c].up != [] && w.cs[c].up[0].Hello?
    ensures w.cs[c].up[0] == Hello(CurrentGen(w, c).k) && w.cs[c].notices == 0
  {
    var up := w.cs[c].up;
    assert Hellos(up) == [up[0].k] + Hellos(up[1..]);
    assert |Hellos(up)| == 1 + |Hellos(up[1..])| && Hellos(up)[0] == up[0].k;
  }

  lemma ReadPasses(w: World, c: Conn, p: Conn, list: seq<Buf>, w': World)
    requires Ready(w, c, p, list) && w.d.consumer == Some(c) && w.ps[p].down == [] && w.cs[c].up != []
    requires w.cs[c].up[0] == Hello(CurrentGen(w, c).k) && w.cs[c].notices == 0 && w' == ReadConsumer(w, FINE)
    ensures Ready(w', c, p, list) && Passed(w', c, p)
  {
    OfferPasses(Popped(w, c), c, p, list, w');
  }

  lemma VacateReady(w: World, c: Conn, p: Conn, list: seq<Buf>, w1: World)
    requires Ready(w, c, p, list) && w.d.consumer != Some(c) && w1 == Vacate(w)
    ensures Ready(w1, c, p, list) && w1.cs[c] == w.cs[c] && w1.ps == w.ps
  {
  }

  lemma AdmitPasses(w: World, w1: World, c: Conn, p: Conn, list: seq<Buf>, w': World)
    requires Ready(w, c, p, list) && w1 == Vacate(w) && Ready(w1, c, p, list) && w1.cs[c] == w.cs[c]
    requires w1.ps[p].down == [] && w.cs[c].up != [] && w.cs[c].notices == 0
    requires w' == AdmitConsumer(w, c, CurrentGen(w, c), FINE)
    ensures Ready(w', c, p, list) && Passed(w', c, p)
  {
    var d := SeatConsumer(w1.d.(nextConn := c + 1), c);
    assert d.producer == w1.d.producer && d.consumer == Some(c);
    OfferPasses(Popped(w1, c).(d := d), c, p, list, w');
  }

  lemma HelloPasses(w: World, c: Conn, p: Conn, list: seq<Buf>, h: Happening, w': World)
    requires Ready(w, c, p, list) && Saying(w, c) && w.ps[p].down == []
    requires w.cs[c].up[0] == Hello(CurrentGen(w, c).k) && w.cs[c].notices == 0
    requires h == (if w.d.consumer == Some(c) then ReadsConsumer(FINE) else Accepts(true, FINE)) && w' == Happen(w, h)
    ensures Ready(w', c, p, list) && Passed(w', c, p)
  {
    if w.d.consumer == Some(c) {
      ReadPasses(w, c, p, list, w');
    } else {
      VacateReady(w, c, p, list, Vacate(w));
      AdmitPasses(w, Vacate(w), c, p, list, w');
    }
  }

  lemma HelloRead(w: World, c: Conn, p: Conn, list: seq<Buf>, h: Happening) returns (more: seq<Happening>)
    requires Inv(w) && ConsumerOk(w, c) && Ready(w, c, p, list) && Saying(w, c) && w.ps[p].down == []
    requires h == (if w.d.consumer == Some(c) then ReadsConsumer(FINE) else Accepts(true, FINE))
    ensures AllSmooth(more) && Inv(After(w, more))
    ensures var w' := After(w, more); Ready(w', c, p, list) && Passed(w', c, p)
  {
    HelloIsCurrent(w, c);
    OneKeeps(w, h);
    HelloPasses(w, c, p, list, h, After(w, [h]));
    more := [h];
  }

  lemma Hear(w: World, c: Conn, p: Conn, list: seq<Buf>) returns (more: seq<Happening>)
    requires Inv(w) && Ready(w, c, p, list) && Saying(w, c) && w.ps[p].down == []
    ensures AllSmooth(more) && Inv(After(w, more))
    ensures var w' := After(w, more); Ready(w', c, p, list) && Passed(w', c, p)
  {
    assert ConsumerOk(w, c);
    var h := if w.d.consumer == Some(c) then ReadsConsumer(FINE) else Accepts(true, FINE);
    more := HelloRead(w, c, p, list, h);
  }

  // ---------------------------------------------------------------- the producer asks

  lemma PickupPasses(w: World, c: Conn, p: Conn, list: seq<Buf>, w': World)
    requires Ready(w, c, p, list) && Holding(w, c) && w.ps[p].down == [] && w.d.deposit == FdsOf(CurrentGen(w, c))
    requires w.ps[p].pickups > 0 && w' == ReadProducer(w, FINE)
    ensures Ready(w', c, p, list) && Mailing(w', c, p) && w'.ps[p].down == [FdsMail(CurrentGen(w', c))]
  {
    var n := w.ps[p].pickups;
    DeliverPasses(w.(d := CloseReceived(w.d, []), ps := w.ps[p := w.ps[p].(pickups := n - 1)]), c, p, list, w');
  }

  lemma AskReady(w: World, c: Conn, p: Conn, list: seq<Buf>, w': World)
    requires Ready(w, c, p, list) && Holding(w, c) && w.ps[p].down == [] && w' == Happen(w, ProducerAsks(p))
    ensures Ready(w', c, p, list) && Holding(w', c) && w'.ps[p].down == [] && w'.ps[p].pickups > 0
  {
  }

  lemma Ask(w: World, c: Conn, p: Conn, list: seq<Buf>) returns (more: seq<Happening>)
    requires Inv(w) && Ready(w, c, p, list) && Holding(w, c) && w.ps[p].down == []
    ensures AllSmooth(more) && Inv(After(w, more))
    ensures var w' := After(w, more);
            Ready(w', c, p, list) && Holding(w', c) && w'.ps[p].down == [] && w'.ps[p].pickups > 0
  {
    var h := ProducerAsks(p);
    OneKeeps(w, h);
    AskReady(w, c, p, list, After(w, [h]));
    more := [h];
  }

  lemma PickUp(w: World, c: Conn, p: Conn, list: seq<Buf>) returns (more: seq<Happening>)
    requires Inv(w) && Ready(w, c, p, list) && Holding(w, c) && w.ps[p].down == [] && w.ps[p].pickups > 0
    ensures AllSmooth(more) && Inv(After(w, more))
    ensures var w' := After(w, more); Ready(w', c, p, list) && Mailing(w', c, p) && Tidy(w', c, p)
  {
    var h := ReadsProducer(FINE);
    assert ConsumerOk(w, c);
    OneKeeps(w, h);
    PickupPasses(w, c, p, list, After(w, [h]));
    more := [h];
  }

  // ---------------------------------------------------------------- the frame

  /** The producer is in the session; the consumer has not read its notice yet. */
  predicate Joined(w: World, c: Conn, p: Conn, list: seq<Buf>) {
    && Awake(w, c) && w.cs[c].stored == list && w.cs[c].fallback && w.cs[c].notices > 0
    && InSession(w, p) && w.ps[p].session == Some(CurrentGen(w, c)) && w.ps[p].table == []
    && w.ss[CurrentGen(w, c)].far == Held(p)
  }

  lemma Joins(w: World, c: Conn, p: Conn, list: seq<Buf>, w': World)
    requires Ready(w, c, p, list) && Mailing(w, c, p) && Tidy(w, c, p) && w.ps[p].down != [] && w.cs[c].fallback
    requires w' == Happen(w, ProducerReads(p, true))
    ensures Joined(w', c, p, list)
  {
  }

  /** The consumer has sent its list and one token. */
  predicate Shown(w: World, c: Conn, p: Conn, list: seq<Buf>, idx: nat) {
    && Awake(w, c) && w.cs[c].stored == list && !w.cs[c].fallback && w.cs[c].pending
    && InSession(w, p) && w.ps[p].session == Some(CurrentGen(w, c)) && w.ps[p].table == [] && !w.ps[p].holds
    && var s := w.ss[CurrentGen(w, c)]; s.sent == [Bufs(list)] && s.taken == 0 && s.bufReady > 0 && s.word == idx
  }

  lemma Shows(w: World, c: Conn, p: Conn, list: seq<Buf>, idx: nat, w': World)
    requires Joined(w, c, p, list) && idx < |list| && w' == Happen(w, ConsumerSelects(c, idx, true, true))
    requires ConsumerOk(w, c) && TableOk(w, CurrentGen(w, c)) && ProducerOk(w, p)
    ensures Shown(w', c, p, list, idx)
  {
    var s := w.ss[CurrentGen(w, c)];
    assert s.sent == [] && s.taken == 0 && !w.ps[p].holds && !w.cs[c].pending;
    assert s.sent + [Bufs(list)] == [Bufs(list)];
  }

  lemma Takes(w: World, c: Conn, p: Conn, list: seq<Buf>, idx: nat, w': World)
    requires Shown(w, c, p, list, idx) && idx < |list| && w' == Happen(w, ProducerWaits(p, false))
    ensures HandedOver(w', c, p, list, idx)
  {
    assert ConsumerEndOpen(w, CurrentGen(w, c));
  }

  lemma Join(w: World, c: Conn, p: Conn, list: seq<Buf>) returns (more: seq<Happening>)
    requires Inv(w) && Ready(w, c, p, list) && Mailing(w, c, p) && Tidy(w, c, p)
    ensures AllSmooth(more) && Inv(After(w, more)) && Joined(After(w, more), c, p, list)
  {
    var h := ProducerReads(p, true);
    assert ConsumerOk(w, c) && SessionInv(w, CurrentGen(w, c));
    OneKeeps(w, h);
    Joins(w, c, p, list, Happen(w, h));
    more := [h];
  }

  lemma HandOver(w: World, c: Conn, p: Conn, list: seq<Buf>, idx: nat) returns (more: seq<Happening>)
    requires Inv(w) && Joined(w, c, p, list) && idx < |list|
    ensures AllSmooth(more) && HandedOver(After(w, more), c, p, list, idx)
  {
    var h, h' := ConsumerSelects(c, idx, true, true), ProducerWaits(p, false);
    assert ConsumerOk(w, c) && SessionInv(w, CurrentGen(w, c)) && ProducerOk(w, p);
    Shows(w, c, p, list, idx, Happen(w, h));
    Takes(Happen(w, h), c, p, list, idx, Happen(Happen(w, h), h'));
    AfterTwo(w, h, h');
    more := [h, h'];
  }

  lemma FromMail(w: World, c: Conn, p: Conn, list: seq<Buf>, idx: nat) returns (more: seq<Happening>)
    requires Inv(w) && Ready(w, c, p, list) && Mailing(w, c, p) && Tidy(w, c, p) && idx < |list|
    ensures AllSmooth(more) && HandedOver(After(w, more), c, p, list, idx)
  {
    var one := Join(w, c, p, list);
    var rest := HandOver(After(w, one), c, p, list, idx);
    AfterBoth(w, one, rest, one + rest);
    more := one + rest;
  }

  lemma FromAsked(w: World, c: Conn, p: Conn, list: seq<Buf>, idx: nat) returns (more: seq<Happening>)
    requires Inv(w) && Ready(w, c, p, list) && Holding(w, c) && w.ps[p].down == [] && w.ps[p].pickups > 0
    requires idx < |list|
    ensures AllSmooth(more) && HandedOver(After(w, more), c, p, list, idx)
  {
    var one := PickUp(w, c, p, list);
    var rest := FromMail(After(w, one), c, p, list, idx);
    AfterBoth(w, one, rest, one + rest);
    more := one + rest;
  }

  lemma FromDaemonHeld(w: World, c: Conn, p: Conn, list: seq<Buf>, idx: nat) returns (more: seq<Happening>)
    requires Inv(w) && Ready(w, c, p, list) && Holding(w, c) && w.ps[p].down == [] && idx < |list|
    ensures AllSmooth(more) && HandedOver(After(w, more), c, p, list, idx)
  {
    var one := Ask(w, c, p, list);
    var rest := FromAsked(After(w, one), c, p, list, idx);
    AfterBoth(w, one, rest, one + rest);
    more := one + rest;
  }

  lemma FromHello(w: World, c: Conn, p: Conn, list: seq<Buf>, idx: nat) returns (more: seq<Happening>)
    requires Inv(w) && Ready(w, c, p, list) && Saying(w, c) && w.ps[p].down == [] && idx < |list|
    ensures AllSmooth(more) && HandedOver(After(w, more), c, p, list, idx)
  {
    var one := Hear(w, c, p, list);
    var rest;
    if Mailing(After(w, one), c, p) {
      rest := FromMail(After(w, one), c, p, list, idx);
    } else {
      rest := FromDaemonHeld(After(w, one), c, p, list, idx);
    }
    AfterBoth(w, one, rest, one + rest);
    more := one + rest;
  }

  lemma FromEnded(w: World, c: Conn, p: Conn, list: seq<Buf>, idx: nat) returns (more: seq<Happening>)
    requires Inv(w) && Ready(w, c, p, list) && Ended(w, c) && w.ps[p].down == [] && idx < |list|
    ensures AllSmooth(more) && HandedOver(After(w, more), c, p, list, idx)
  {
    var one := Renew(w, c, p, list);
    var rest := FromHello(After(w, one), c, p, list, idx);
    AfterBoth(w, one, rest, one + rest);
    more := one + rest;
  }

  /** A session that is not in the producer's mail leaves tidy mail empty. */
  lemma NotMailed(w: World, c: Conn, p: Conn)
    requires Awake(w, c) && ProducerOk(w, p) && ConsumerOk(w, c) && Promising(w, c, p) && Tidy(w, c, p)
    ensures Mailing(w, c, p) || w.ps[p].down == []
  {
    if Saying(w, c) { HelloIsCurrent(w, c); HelloIsUnderWay(w, c); }
  }

  lemma HelloIsUnderWay(w: World, c: Conn)
    requires ConsumerOk(w, c) && w.cs[c].up != [] && w.cs[c].up[0].Hello?
    ensures w.ss[CurrentGen(w, c)].far == InHello
  {
    assert Hellos(w.cs[c].up) != [];
  }

  lemma FromTidy(w: World, c: Conn, p: Conn, list: seq<Buf>, idx: nat) returns (more: seq<Happening>)
    requires Inv(w) && Ready(w, c, p, list) && Promising(w, c, p) && Tidy(w, c, p) && idx < |list|
    ensures AllSmooth(more) && HandedOver(After(w, more), c, p, list, idx)
  {
    assert ProducerOk(w, p) && ConsumerOk(w, c);
    NotMailed(w, c, p);
    if Mailing(w, c, p) {
      more := FromMail(w, c, p, list, idx);
    } else if Holding(w, c) {
      more := FromDaemonHeld(w, c, p, list, idx);
    } else if Saying(w, c) {
      more := FromHello(w, c, p, list, idx);
    } else {
      more := FromEnded(w, c, p, list, idx);
    }
  }

  /** After every history: if the consumer's hello is next to be read, the daemon holds its
      session, the session and its notice are in the mail, or the session has ended, and the
      daemon's producer is in fallback, then the parties can go on without any failure until
      the producer holds a frame of the consumer's current session, with the consumer's list
      and the index it selected. */
  lemma Progress(hs: seq<Happening>, c: Conn, p: Conn, list: seq<Buf>, idx: nat) returns (more: seq<Happening>)
    requires var w := History(hs); Ready(w, c, p, list) && Promising(w, c, p) && OldMail(w, c, p)
    requires idx < |list|
    ensures AllSmooth(more) && HandedOver(After(History(hs), more), c, p, list, idx)
  {
    EveryHistory(hs);
    var w := History(hs);
    var one := Drain(w, c, p, list);
    var rest := FromTidy(After(w, one), c, p, list, idx);
    AfterBoth(w, one, rest, one + rest);
    more := one + rest;
  }
}
