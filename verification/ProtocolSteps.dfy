/**
 Every step of the protocol keeps the invariant.
 */
module ProtocolSteps {
  import opened Options
  import opened DisplayDaemon
  import opened Contexts
  import opened Protocol
  import opened ProtocolInv

  // ---------------------------------------------------------------- calls into the consumer library

  /** A call that stays in the session, perhaps leaving fallback by using up a notice. */
  predicate Stays(a: ConsumerSide, b: ConsumerSide) {
    && b.x.made == a.x.made && b.x.up == a.x.up && b.x.alive == a.x.alive
    && b.s.far == a.s.far && b.s.taken == a.s.taken
    && (|| (b.x.notices == a.x.notices && b.x.fallback == a.x.fallback)
        || (a.x.fallback && a.x.notices > 0 && b.x.notices == a.x.notices - 1 && !b.x.fallback))
  }

  /** A call that ends in fallback with a new session. */
  predicate Renews(a: ConsumerSide, b: ConsumerSide, helloOk: bool) {
    && b.x.made == a.x.made + 1 && b.x.alive == a.x.alive && b.x.fallback && !b.x.pending
    && b.x.up == (if helloOk then a.x.up + [Hello(a.x.made)] else a.x.up)
    && b.s == Session(0, 0, 0, [], 0, if helloOk then InHello else Gone)
    && (if a.x.fallback then a.x.notices > 0 && b.x.notices == a.x.notices - 1 else b.x.notices == a.x.notices)
  }

  predicate ConsumerCallOf(h: Happening) {
    h.ConsumerPushes? || h.ConsumerSelects? || h.ConsumerWaits? || h.ConsumerSends?
  }

  /** The consumer's own part of the session invariants. */
  predicate SideOk(a: ConsumerSide, tokens: int) {
    && (if a.x.pending then tokens == 1 || a.s.far == Gone else tokens == 0)
    && tokens <= 1
    && (a.x.pending ==> !a.x.fallback)
    && (a.s.bufReady > 0 ==> a.s.sent != [])
    && (a.s.sent == [] ==> a.s.word == 0)
    && (forall i | 0 <= i < |a.s.sent| && a.s.sent[i].Bufs? :: a.s.sent[i].list != [])
    && (Clean(a.s) ==> a.s.word < |a.s.sent[0].list|)
    && a.s.taken <= |a.s.sent|
    && (!a.x.fallback ==> (a.x.stored != [] ==> a.s.sent != []) && (Clean(a.s) ==> a.x.stored == a.s.sent[0].list))
    && (a.x.fallback ==> a.s.sent == [])
  }

  /** A call from `a` to `b` with a frame held by the producer or not. */
  predicate GoodCall(a: ConsumerSide, b: ConsumerSide, held: nat, helloOk: bool) {
    || (Stays(a, b) && SideOk(b, b.s.bufReady + b.s.refreshDone + held) && a.s.sent <= b.s.sent)
    || Renews(a, b, helloOk)
  }

  lemma PushEffect(a: ConsumerSide, list: seq<Buf>, sendOk: bool, helloOk: bool, held: nat)
    requires SideOk(a, a.s.bufReady + a.s.refreshDone + held) && !a.x.fallback && list != []
    ensures GoodCall(a, PushStored(a.(x := a.x.(stored := list)), sendOk, helloOk), held, helloOk)
  {
    var b := PushStored(a.(x := a.x.(stored := list)), sendOk, helloOk);
    if sendOk && a.s.far != Gone {
      assert b.s.sent == a.s.sent + [Bufs(list)];
      if a.s.sent != [] {
        assert b.s.sent[|a.s.sent|].Bufs?;
      }
    }
  }

  lemma ExitEffect(a: ConsumerSide, sendOk: bool, helloOk: bool)
    requires SideOk(a, 0) && a.x.fallback && a.s.bufReady + a.s.refreshDone == 0
    ensures GoodCall(a, TryExitFallback(a, sendOk, helloOk), 0, helloOk)
  {
    var a1 := a.(x := a.x.(notices := if a.x.notices > 0 then a.x.notices - 1 else 0, fallback := false));
    if a.x.notices > 0 && a.x.stored != [] && sendOk && a.s.far != Gone {
      assert TryExitFallback(a, sendOk, helloOk) == a1.(s := a1.s.(sent := a.s.sent + [Bufs(a.x.stored)]));
    }
  }

  lemma SelectEffect(a: ConsumerSide, idx: int, sendOk: bool, helloOk: bool, held: nat)
    requires SideOk(a, a.s.bufReady + a.s.refreshDone + held) && !a.x.pending
    ensures GoodCall(a, SelectDmabuf(a, idx, sendOk, helloOk), held, helloOk)
  {
    if a.x.fallback {
      ExitEffect(a, sendOk, helloOk);
    }
  }

  lemma SendEffect(a: ConsumerSide, kind: nat, body: nat, sendOk: bool, helloOk: bool, held: nat)
    requires SideOk(a, a.s.bufReady + a.s.refreshDone + held)
    ensures GoodCall(a, PushEvent(a, kind, body, sendOk, helloOk), held, helloOk)
  {
    if !a.x.fallback && sendOk && a.s.far != Gone {
      var sent := a.s.sent + [Other(kind, body)];
      assert forall i | 0 <= i < |a.s.sent| :: sent[i] == a.s.sent[i];
    }
  }

  lemma CallEffect(w: World, h: Happening, a: ConsumerSide, held: nat)
    requires ConsumerCallOf(h) && Awake(w, h.c) && (h.ConsumerSelects? ==> !a.x.pending)
    requires a == SideOf(w, h.c) && SideOk(a, a.s.bufReady + a.s.refreshDone + held)
    ensures GoodCall(a, ConsumerCall(w, h), held, h.helloOk && Linked(w, h.c))
  {
    var helloOk := h.helloOk && Linked(w, h.c);
    match h
    case ConsumerPushes(_, list, sendOk, _) =>
      if list != [] && !a.x.fallback {
        PushEffect(a, list, sendOk, helloOk, held);
      }
    case ConsumerSelects(_, idx, sendOk, _) => SelectEffect(a, idx, sendOk, helloOk, held);
    case ConsumerWaits(_, broken, _) =>
    case ConsumerSends(_, kind, body, sendOk, _) => SendEffect(a, kind, body, sendOk, helloOk, held);
  }

  // ---------------------------------------------------------------- frames

  /** Far ends of known sessions are where they were. */
  ghost predicate SameFar(w: World, w': World) {
    forall g | g in w.ss :: g in w'.ss && w'.ss[g].far == w.ss[g].far
  }

  lemma ProducerFrame(w: World, w': World, p: Conn)
    requires ProducerOk(w, p) && p in w'.ps && w'.ps[p] == w.ps[p] && SameFar(w, w')
    ensures ProducerOk(w', p)
  {
  }

  predicate SamePlace(f: Far, f': Far) { f == f' || (!Offered(f) && !Offered(f')) }

  lemma ConsumerFrame(w: World, w': World, c: Conn)
    requires ConsumerOk(w, c)
    requires c in w'.cs && w'.cs[c] == w.cs[c] && w'.d == w.d
    requires forall k: nat | Gen(c, k) in w'.ss ::
               Gen(c, k) in w.ss && SamePlace(w.ss[Gen(c, k)].far, w'.ss[Gen(c, k)].far)
    requires CurrentGen(w, c) in w'.ss
    ensures ConsumerOk(w', c)
  {
  }

  lemma SessionFrame(w: World, w': World, g: Gen)
    requires SessionInv(w, g)
    requires g in w'.ss && w'.ss[g] == w.ss[g] && g.c in w'.cs && w'.cs[g.c] == w.cs[g.c] && w'.ps == w.ps
    ensures SessionInv(w', g)
  {
  }

  // ---------------------------------------------------------------- the world after a consumer call

  function HeldCount(w: World, s: Session): nat { if FrameHeld(w, s) then 1 else 0 }

  lemma PutShape(w: World, c: Conn, b: ConsumerSide)
    requires Shape(w) && c in w.cs && (b.x.made == w.cs[c].made || b.x.made == w.cs[c].made + 1)
    ensures Shape(PutConsumer(w, c, b))
  {
  }

  lemma StaysConsumer(w: World, c: Conn, b: ConsumerSide, w': World)
    requires Awake(w, c) && ConsumerOk(w, c) && Stays(SideOf(w, c), b) && w' == PutConsumer(w, c, b)
    requires b.x.pending ==> !b.x.fallback
    ensures ConsumerOk(w', c)
  {
  }

  lemma RenewsConsumer(w: World, c: Conn, b: ConsumerSide, helloOk: bool, w': World)
    requires Awake(w, c) && ConsumerOk(w, c) && Renews(SideOf(w, c), b, helloOk) && w' == PutConsumer(w, c, b)
    requires helloOk ==> Linked(w, c)
    requires SideOk(SideOf(w, c), 0) || !w.cs[c].fallback
    ensures ConsumerOk(w', c)
  {
    HellosAppended(w.cs[c].up, Hello(w.cs[c].made));
  }

  lemma StaysSession(w: World, c: Conn, b: ConsumerSide, w': World, g: Gen)
    requires Awake(w, c) && g == CurrentGen(w, c) && g.c in w.cs && SessionInv(w, g)
    requires Stays(SideOf(w, c), b) && SideOk(b, b.s.bufReady + b.s.refreshDone + HeldCount(w, w.ss[g]))
    requires w.ss[g].sent <= b.s.sent && w' == PutConsumer(w, c, b)
    ensures SessionInv(w', g)
  {
  }

  lemma OldSession(w: World, w': World, c: Conn, b: ConsumerSide, g: Gen)
    requires g in w.ss && g.c == c && c in w.cs && SessionInv(w, g) && b.x.made > 0
    requires w' == PutConsumer(w, c, b) && g.k < b.x.made - 1
    ensures SessionInv(w', g)
  {
  }

  lemma FreshSessionOk(w': World, g: Gen)
    requires g in w'.ss && g.c in w'.cs && w'.ss[g].(far := Gone) == Session(0, 0, 0, [], 0, Gone)
    requires (w'.ss[g].far == InHello || w'.ss[g].far == Gone) && w'.cs[g.c].fallback && !w'.cs[g.c].pending
    ensures SessionInv(w', g)
  {
  }

  lemma CalledConsumers(w: World, w': World, c: Conn, b: ConsumerSide)
    requires Consumers(w) && b.x.made > 0 && w' == PutConsumer(w, c, b) && ConsumerOk(w', c)
    ensures Consumers(w')
  {
    forall c' | c' in w'.cs ensures ConsumerOk(w', c') { if c' != c { ConsumerFrame(w, w', c'); } }
  }

  lemma CalledProducers(w: World, w': World)
    requires Producers(w) && w'.ps == w.ps && SameFar(w, w')
    ensures Producers(w')
  {
    forall p | p in w'.ps ensures ProducerOk(w', p) { ProducerFrame(w, w', p); }
  }

  lemma CalledSessions(w: World, w': World, c: Conn, b: ConsumerSide)
    requires Sessions(w) && b.x.made > 0 && w' == PutConsumer(w, c, b) && SessionInv(w', Gen(c, b.x.made - 1))
    requires forall g | g in w.ss && g.c == c :: g.k < b.x.made
    ensures Sessions(w')
  {
    forall g | g in w'.ss ensures SessionInv(w', g) {
      if g.c != c { SessionFrame(w, w', g); }
      else if g.k < b.x.made - 1 { assert SessionInv(w, g); OldSession(w, w', c, b, g); }
    }
  }

  /** The session named next on connection `c` does not exist yet. */
  ghost predicate NamesFree(w: World, c: Conn) {
    c in w.cs && forall g | g in w.ss && g.c == c :: g.k < w.cs[c].made
  }

  lemma CalledCurrent(w: World, c: Conn, b: ConsumerSide, helloOk: bool, w': World)
    requires ConsumerOk(w, c) && SessionInv(w, CurrentGen(w, c)) && Awake(w, c) && (helloOk ==> Linked(w, c))
    requires GoodCall(SideOf(w, c), b, HeldCount(w, SideOf(w, c).s), helloOk) && w' == PutConsumer(w, c, b)
    ensures ConsumerOk(w', c) && SessionInv(w', Gen(c, b.x.made - 1))
  {
    var a, g := SideOf(w, c), Gen(c, b.x.made - 1);
    if Stays(a, b) {
      StaysConsumer(w, c, b, w');
      StaysSession(w, c, b, w', g);
    } else {
      RenewsConsumer(w, c, b, helloOk, w');
      FreshSessionOk(w', g);
    }
  }

  lemma CalledFar(w: World, c: Conn, b: ConsumerSide, helloOk: bool, w': World)
    requires Awake(w, c) && NamesFree(w, c) && DepositOk(w)
    requires Stays(SideOf(w, c), b) || Renews(SideOf(w, c), b, helloOk)
    requires w' == PutConsumer(w, c, b)
    ensures SameFar(w, w') && DepositOk(w') && NamesFree(w', c)
  {
  }

  lemma CalledKeeps(w: World, c: Conn, b: ConsumerSide, helloOk: bool, w': World)
    requires Inv(w) && Awake(w, c) && (helloOk ==> Linked(w, c))
    requires GoodCall(SideOf(w, c), b, HeldCount(w, SideOf(w, c).s), helloOk) && w' == PutConsumer(w, c, b)
    ensures Inv(w')
  {
    assert NamesFree(w, c) && ConsumerOk(w, c) && SessionInv(w, CurrentGen(w, c));
    CalledCurrent(w, c, b, helloOk, w');
    CalledFar(w, c, b, helloOk, w');
    PutShape(w, c, b);
    CalledConsumers(w, w', c, b);
    CalledProducers(w, w');
    CalledSessions(w, w', c, b);
  }

  lemma ConsumerCallKeeps(w: World, h: Happening, w': World)
    requires Inv(w) && ConsumerCallOf(h) && Awake(w, h.c) && (h.ConsumerSelects? ==> !w.cs[h.c].pending)
    requires ConsumerCall(w, h).x.made > 0 && w' == PutConsumer(w, h.c, ConsumerCall(w, h))
    ensures Inv(w')
  {
    var c, a, b, helloOk := h.c, SideOf(w, h.c), ConsumerCall(w, h), h.helloOk && Linked(w, h.c);
    var held := HeldCount(w, a.s);
    assert ConsumerOk(w, c) && SessionInv(w, CurrentGen(w, c));
    CallEffect(w, h, a, held);
    CalledKeeps(w, c, b, helloOk, w');
  }

  // ---------------------------------------------------------------- the world after a producer call

  /** A producer call stays in the session or ends it; it does not touch the control socket. */
  predicate Worked(p: Conn, g: Gen, a: ProducerSide, b: ProducerSide) {
    && b.x.alive == a.x.alive && b.x.down == a.x.down && b.x.greeted == a.x.greeted && b.x.strays == a.x.strays
    && (|| (b.x.session == Some(g) && b.s.far == Held(p) && (b.x.holds ==> b.x.table != []))
        || (b.x.session == None && b.s.far == Gone && !b.x.holds))
  }

  lemma WorkedShape(w: World, p: Conn, g: Gen, b: ProducerSide)
    requires Shape(w) && p in w.ps && g in w.ss
    ensures Shape(PutProducer(w, p, g, b))
  {
  }

  lemma WorkedConsumers(w: World, p: Conn, g: Gen, b: ProducerSide, w': World)
    requires Consumers(w) && g in w.ss && !Offered(w.ss[g].far) && !Offered(b.s.far) && w' == PutProducer(w, p, g, b)
    ensures Consumers(w')
  {
    forall c | c in w'.cs ensures ConsumerOk(w', c) { ConsumerFrame(w, w', c); }
  }

  lemma WorkedProducers(w: World, p: Conn, g: Gen, b: ProducerSide, w': World)
    requires Producers(w) && InSession(w, p) && g == w.ps[p].session.value
    requires Worked(p, g, PSideOf(w, p), b) && w' == PutProducer(w, p, g, b)
    ensures Producers(w')
  {
    assert ProducerOk(w, p);
    forall q | q in w'.ps ensures ProducerOk(w', q) {
      assert ProducerOk(w, q);
    }
  }

  lemma OtherSession(w: World, p: Conn, g: Gen, b: ProducerSide, w': World, g': Gen)
    requires SessionInv(w, g') && g' != g && InSession(w, p) && g == w.ps[p].session.value
    requires Worked(p, g, PSideOf(w, p), b) && w' == PutProducer(w, p, g, b)
    ensures SessionInv(w', g')
  {
  }

  lemma WorkedSessions(w: World, p: Conn, g: Gen, b: ProducerSide, w': World)
    requires Sessions(w) && InSession(w, p) && g == w.ps[p].session.value
    requires Worked(p, g, PSideOf(w, p), b) && w' == PutProducer(w, p, g, b) && SessionInv(w', g)
    ensures Sessions(w')
  {
    forall g' | g' in w'.ss ensures SessionInv(w', g') {
      if g' != g { OtherSession(w, p, g, b, w', g'); }
    }
  }

  lemma WorkedDeposit(w: World, p: Conn, g: Gen, b: ProducerSide, w': World)
    requires DepositOk(w) && g in w.ss && !Offered(w.ss[g].far) && w' == PutProducer(w, p, g, b)
    ensures DepositOk(w')
  {
  }

  lemma WorkedKeeps(w: World, p: Conn, g: Gen, b: ProducerSide, w': World)
    requires Inv(w) && InSession(w, p) && g == w.ps[p].session.value
    requires Worked(p, g, PSideOf(w, p), b) && w' == PutProducer(w, p, g, b) && SessionInv(w', g)
    ensures Inv(w')
  {
    assert ProducerOk(w, p);
    WorkedDeposit(w, p, g, b, w');
    WorkedConsumers(w, p, g, b, w');
    WorkedProducers(w, p, g, b, w');
    WorkedSessions(w, p, g, b, w');
    WorkedShape(w, p, g, b);
  }

  lemma WaitEffect(w: World, p: Conn, g: Gen, hup: bool, w': World)
    requires InSession(w, p) && g == w.ps[p].session.value && !w.ps[p].holds && SessionInv(w, g) && ProducerOk(w, p)
    requires w' == PutProducer(w, p, g, WaitBuffer(PSideOf(w, p), hup))
    ensures SessionInv(w', g) && Worked(p, g, PSideOf(w, p), WaitBuffer(PSideOf(w, p), hup))
  {
  }

  lemma TriggerEffect(w: World, p: Conn, g: Gen, w': World)
    requires InSession(w, p) && g == w.ps[p].session.value && w.ps[p].holds && SessionInv(w, g) && ProducerOk(w, p)
    requires w' == PutProducer(w, p, g, TriggerRefresh(PSideOf(w, p)))
    ensures SessionInv(w', g) && Worked(p, g, PSideOf(w, p), TriggerRefresh(PSideOf(w, p)))
  {
  }

  lemma PollEffect(w: World, p: Conn, g: Gen, hup: bool, w': World)
    requires InSession(w, p) && g == w.ps[p].session.value
    requires w.ps[p].table != [] && SessionInv(w, g) && ProducerOk(w, p)
    requires w' == PutProducer(w, p, g, PollDisplay(PSideOf(w, p), hup))
    ensures SessionInv(w', g) && Worked(p, g, PSideOf(w, p), PollDisplay(PSideOf(w, p), hup))
  {
  }

  // ---------------------------------------------------------------- reading mail, leaving

  lemma ReadMailReader(w: World, p: Conn, mapOk: bool, w': World)
    requires ProducerOk(w, p) && w.ps[p].alive && w.ps[p].down != [] && w.ps[p].session.None?
    requires w' == ReadMail(w, p, mapOk)
    ensures ProducerOk(w', p)
  {
    var x := w.ps[p];
    assert forall i | 0 <= i < |x.down| - 1 :: x.down[1..][i] == x.down[i + 1];
  }

  /** The mail of one producer is in no other producer's hands. */
  lemma ReadMailOther(w: World, p: Conn, mapOk: bool, w': World, q: Conn)
    requires ProducerOk(w, p) && ProducerOk(w, q) && q != p && w.ps[p].down != [] && w' == ReadMail(w, p, mapOk)
    ensures ProducerOk(w', q)
  {
    var m := w.ps[p].down[0];
    assert w'.ps[q] == w.ps[q];
    assert forall g | g in w.ss && w'.ss[g] != w.ss[g] :: m == FdsMail(g) && w.ss[g].far == InMail(p);
  }

  lemma ReadMailProducers(w: World, p: Conn, mapOk: bool, w': World)
    requires Producers(w) && p in w.ps && w.ps[p].alive && w.ps[p].down != [] && w.ps[p].session.None?
    requires w' == ReadMail(w, p, mapOk)
    ensures Producers(w')
  {
    assert ProducerOk(w, p);
    ReadMailReader(w, p, mapOk, w');
    forall q | q in w'.ps ensures ProducerOk(w', q) {
      if q != p {
        assert ProducerOk(w, q);
        ReadMailOther(w, p, mapOk, w', q);
      }
    }
  }

  lemma ReadMailSession(w: World, p: Conn, mapOk: bool, w': World, g: Gen)
    requires SessionInv(w, g) && ProducerOk(w, p) && w.ps[p].down != [] && w.ps[p].session.None?
    requires w' == ReadMail(w, p, mapOk)
    ensures SessionInv(w', g)
  {
    var x := w.ps[p];
    if x.down[0] == FdsMail(g) {
      assert w'.ss[g] == w.ss[g].(far := if mapOk then Held(p) else Stray(p)) && !w'.ps[p].holds;
    } else {
      ReadMailUnread(w, p, mapOk, w', g);
    }
  }

  lemma ReadMailUnread(w: World, p: Conn, mapOk: bool, w': World, g: Gen)
    requires SessionInv(w, g) && ProducerOk(w, p) && w.ps[p].down != [] && w.ps[p].session.None?
    requires w' == ReadMail(w, p, mapOk) && w.ps[p].down[0] != FdsMail(g)
    ensures SessionInv(w', g)
  {
    var x := w.ps[p];
    assert w'.ss[g] == w.ss[g];
    assert FdsMail(g) in x.down ==> FdsMail(g) in x.down[1..];
  }

  lemma ReadMailConsumers(w: World, p: Conn, mapOk: bool, w': World)
    requires Consumers(w) && DepositOk(w) && ProducerOk(w, p) && w.ps[p].down != [] && w' == ReadMail(w, p, mapOk)
    ensures Consumers(w') && DepositOk(w')
  {
    forall c | c in w'.cs ensures ConsumerOk(w', c) { ConsumerFrame(w, w', c); }
  }

  lemma ReadMailSessions(w: World, p: Conn, mapOk: bool, w': World)
    requires Sessions(w) && ProducerOk(w, p) && w.ps[p].down != []
    requires w.ps[p].session.None? && w' == ReadMail(w, p, mapOk)
    ensures Sessions(w')
  {
    forall g | g in w'.ss ensures SessionInv(w', g) { assert SessionInv(w, g); ReadMailSession(w, p, mapOk, w', g); }
  }

  lemma ReadMailKeeps(w: World, p: Conn, mapOk: bool, w': World)
    requires Inv(w) && p in w.ps && w.ps[p].alive && w.ps[p].down != [] && w.ps[p].session.None?
    requires w' == ReadMail(w, p, mapOk)
    ensures Inv(w')
  {
    assert ProducerOk(w, p);
    ReadMailConsumers(w, p, mapOk, w');
    ReadMailProducers(w, p, mapOk, w');
    ReadMailSessions(w, p, mapOk, w');
  }

  lemma LeavesProducers(w: World, p: Conn, w': World)
    requires Producers(w) && p in w.ps && w' == ProducerGone(w, p)
    ensures Producers(w')
  {
    forall q | q in w'.ps ensures ProducerOk(w', q) { assert ProducerOk(w, q); }
  }

  /** Where a session's far end is once producer `p` has ended. */
  lemma GoneFar(w: World, p: Conn, w': World, g: Gen)
    requires g in w.ss && p in w.ps && w' == ProducerGone(w, p)
    ensures g in w'.ss
    ensures w'.ss[g] == if w.ss[g].far in [InMail(p), Held(p), Stray(p)] then w.ss[g].(far := Gone) else w.ss[g]
  {
  }

  lemma LeavesSession(w: World, p: Conn, w': World, g: Gen)
    requires SessionInv(w, g) && p in w.ps && w' == ProducerGone(w, p)
    ensures SessionInv(w', g)
  {
    GoneFar(w, p, w', g);
  }

  lemma LeavesConsumers(w: World, p: Conn, w': World)
    requires Consumers(w) && DepositOk(w) && p in w.ps && w' == ProducerGone(w, p)
    ensures Consumers(w') && DepositOk(w')
  {
    forall c | c in w'.cs ensures ConsumerOk(w', c) { ConsumerFrame(w, w', c); }
  }

  lemma LeavesKeeps(w: World, p: Conn, w': World)
    requires Inv(w) && p in w.ps && w' == ProducerGone(w, p)
    ensures Inv(w')
  {
    LeavesConsumers(w, p, w');
    LeavesProducers(w, p, w');
    assert Sessions(w') by {
      forall g | g in w'.ss ensures SessionInv(w', g) { assert SessionInv(w, g); LeavesSession(w, p, w', g); }
    }
  }
}
