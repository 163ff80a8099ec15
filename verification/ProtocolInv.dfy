/**
 The invariant of the display protocol, one consumer, producer or session at a time.
 */
module ProtocolInv {
  import opened Options
  import opened DisplayDaemon
  import opened Contexts
  import opened Protocol
  import opened DaemonSafety

  // ---------------------------------------------------------------- vocabulary

  /** The hellos among some messages to the daemon. */
  function Hellos(up: seq<Upward>): seq<nat> {
    if up == [] then []
    else if up[0].Hello? then [up[0].k] + Hellos(up[1..])
    else Hellos(up[1..])
  }

  lemma {:induction false} HellosAppended(up: seq<Upward>, m: Upward)
    ensures Hellos(up + [m]) == Hellos(up) + if m.Hello? then [m.k] else []
  {
    if up != [] {
      HellosAppended(up[1..], m);
      assert (up + [m])[1..] == up[1..] + [m];
    }
  }

  /** Whether a descriptor list has been sent to some producer. */
  predicate Handed(log: Log, fds: FdList) {
    log.Then? && ((Delivery(log.last) && log.last.fds == fds) || Handed(log.before, fds))
  }

  /** Whether the daemon's deposit was made on connection `c`. */
  predicate Deposits(d: State, c: Conn) { d.deposit != [] && GenOf(d.deposit).c == c }

  predicate Offered(f: Far) { f == InHello || f == AtDaemon }

  // ---------------------------------------------------------------- the invariant

  /** Connection numbers and session names are used consistently. */
  ghost predicate Shape(w: World) {
    && w.d.nextConn <= w.next
    && (forall c | c in w.cs :: c < w.next && c !in w.ps && w.cs[c].made > 0)
    && (forall p | p in w.ps :: p < w.next)
    && (forall c: Conn | c < w.next :: c in w.cs || c in w.ps)
    && (forall g: Gen :: g in w.ss <==> g.c in w.cs && g.k < w.cs[g.c].made)
    && (w.d.consumer.Some? ==> w.d.consumer.value in w.cs && w.d.consumer.value < w.d.nextConn)
    && (w.d.producer.Some? ==> w.d.producer.value in w.ps && w.d.producer.value < w.d.nextConn)
  }

  /** The current session of consumer `c` is in exactly one phase - its hello is under way,
      the daemon holds it, or it has been handed out - and only in the last phase can there
      be a notice or can the consumer be out of fallback. */
  predicate Phase(d: State, c: Conn, x: Consumer, f: Far)
    requires x.made > 0
  {
    var g := Gen(c, x.made - 1);
    match f
    case InHello => Hellos(x.up) == [g.k] && x.fallback && x.notices == 0 && !Deposits(d, c)
    case AtDaemon => Hellos(x.up) == [] && x.fallback && x.notices == 0 && d.deposit == FdsOf(g)
    case _ =>
      && Hellos(x.up) == []
      && !Deposits(d, c)
      && x.notices <= 1
      && (x.notices == 1 ==> x.fallback)
      && (x.notices == 1 || !x.fallback ==> Handed(d.log, FdsOf(g)))
  }

  ghost predicate ConsumerOk(w: World, c: Conn) {
    c in w.cs && w.cs[c].made > 0 && CurrentGen(w, c) in w.ss &&
    var x, f := w.cs[c], w.ss[CurrentGen(w, c)].far;
    && Phase(w.d, c, x, f)
    && (x.pending ==> !x.fallback)
    && (c >= w.d.nextConn ==> f == InHello && x.up[0].Hello?)
    && (!Linked(w, c) ==> x.up == [])
    && (forall k: nat | k < x.made - 1 && Gen(c, k) in w.ss :: !Offered(w.ss[Gen(c, k)].far))
  }

  /** Whatever the daemon holds is a whole session whose far end is there, made by its
      consumer if one is connected. */
  predicate DepositOk(w: World) {
    w.d.deposit != [] ==>
      var g := GenOf(w.d.deposit);
      && w.d.deposit == FdsOf(g) && g in w.ss && w.ss[g].far == AtDaemon
      && (w.d.consumer.Some? ==> w.d.consumer.value == g.c)
  }

  /** A producer's mail and session are far ends that are nowhere else. */
  ghost predicate ProducerOk(w: World, p: Conn) {
    p in w.ps &&
    var x := w.ps[p];
    && (forall i | 0 <= i < |x.down| && x.down[i].FdsMail? ::
          x.down[i].g in w.ss && w.ss[x.down[i].g].far == InMail(p))
    && (forall i, j | 0 <= i < j < |x.down| && x.down[i].FdsMail? :: x.down[i] != x.down[j])
    && (x.session.Some? ==> x.alive && x.session.value in w.ss && w.ss[x.session.value].far == Held(p))
    && (!x.alive ==> x.down == [] && x.strays == [])
    && (forall i | 0 <= i < |x.strays| :: x.strays[i] in w.ss && w.ss[x.strays[i]].far == Stray(p))
    && (x.holds ==> x.session.Some? && x.table != [])
  }

  /** The far end of a session is where `far` says. */
  predicate FarOk(w: World, g: Gen)
    requires g in w.ss
  {
    match w.ss[g].far
    case InMail(p) => p in w.ps && FdsMail(g) in w.ps[p].down
    case Held(p) => p in w.ps && w.ps[p].session == Some(g)
    case Stray(p) => p in w.ps && g in w.ps[p].strays
    case _ => true
  }

  /** Whether the producer holding the far end of a session holds its frame. */
  predicate FrameHeld(w: World, s: Session) {
    s.far.Held? && s.far.p in w.ps && w.ps[s.far.p].holds
  }

  /** Buffer-ready tokens, frames held and refresh-done tokens of a session. */
  function Tokens(w: World, s: Session): nat {
    s.bufReady + s.refreshDone + if FrameHeld(w, s) then 1 else 0
  }

  /** At most one token; exactly one while a frame is pending, unless the far end is gone;
      none otherwise. */
  predicate TokensOk(w: World, g: Gen)
    requires g in w.ss && g.c in w.cs
  {
    var x, s := w.cs[g.c], w.ss[g];
    && Tokens(w, s) <= 1
    && (g.k == x.made - 1 && x.pending ==> Tokens(w, s) == 1 || s.far == Gone)
    && (g.k == x.made - 1 && !x.pending ==> Tokens(w, s) == 0)
  }

  /** The buffer list was sent, as the first frame, exactly once. */
  predicate Clean(s: Session) {
    |s.sent| > 0 && s.sent[0].Bufs? && forall i | 1 <= i < |s.sent| :: !s.sent[i].Bufs?
  }

  /** The producer's table is the first frame; in a clean session it is the consumer's list
      and the shared word is an index of it. */
  predicate TableOk(w: World, g: Gen)
    requires g in w.ss && g.c in w.cs
  {
    var x, s := w.cs[g.c], w.ss[g];
    && (s.bufReady > 0 ==> s.sent != [])
    && (s.sent == [] ==> s.word == 0)
    && (forall i | 0 <= i < |s.sent| && s.sent[i].Bufs? :: s.sent[i].list != [])
    && (Clean(s) ==> s.word < |s.sent[0].list|)
    && s.taken <= |s.sent|
    && (if s.far.Held? && s.far.p in w.ps && w.ps[s.far.p].table != []
        then s.taken > 0 && s.sent[0] == Bufs(w.ps[s.far.p].table)
        else s.far != Gone ==> s.taken == 0)
    && (g.k == x.made - 1 && !x.fallback ==>
          && (x.stored != [] ==> s.sent != [])
          && (Clean(s) ==> x.stored == s.sent[0].list))
    && (g.k == x.made - 1 && x.fallback ==> s.sent == [])
  }

  predicate SessionInv(w: World, g: Gen) {
    g in w.ss && g.c in w.cs && FarOk(w, g) && TokensOk(w, g) && TableOk(w, g)
  }

  ghost predicate Consumers(w: World) { forall c {:trigger ConsumerOk(w, c)} | c in w.cs :: ConsumerOk(w, c) }
  ghost predicate Producers(w: World) { forall p {:trigger ProducerOk(w, p)} | p in w.ps :: ProducerOk(w, p) }
  ghost predicate Sessions(w: World) { forall g {:trigger SessionInv(w, g)} | g in w.ss :: SessionInv(w, g) }

  ghost predicate Inv(w: World) {
    Shape(w) && DepositOk(w) && Consumers(w) && Producers(w) && Sessions(w)
  }
}
