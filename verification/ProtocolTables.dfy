/**
 Agreement on the buffer table: where the buffer list is stored before a session leaves
 fallback and not pushed again in it, BUFS_READY is the first frame of the data stream and the
 only one of its kind, and the producer's table is the consumer's list.
 */
module ProtocolTables {
  import opened Messages
  import opened Options
  import opened DisplayDaemon
  import opened Contexts
  import opened Protocol
  import opened ProtocolInv
  import opened ProtocolSteps
  import opened ProtocolSafety
  import opened ProtocolOrder
  import opened ProtocolTheorems

  // ---------------------------------------------------------------- what callers do

  /** The step is a call of the consumer whose current session is `g`. */
  predicate CallIn(w: World, h: Happening, g: Gen) {
    ConsumerCallOf(h) && Awake(w, h.c) && CurrentGen(w, h.c) == g
  }

  /** A list is pushed while the session is in use. */
  predicate PushesAgain(w: World, h: Happening, g: Gen) {
    CallIn(w, h, g) && h.ConsumerPushes? && !w.cs[h.c].fallback && 1 <= |h.list| <= MAX_BUFS
  }

  /** The consumer leaves fallback without having stored a list. */
  predicate LeavesBare(w: World, h: Happening, g: Gen) {
    CallIn(w, h, g) && h.ConsumerSelects? && w.cs[h.c].fallback && w.cs[h.c].notices > 0 && w.cs[h.c].stored == []
  }

  /** In session `g` the list was stored before leaving fallback, and not pushed again. */
  predicate Orderly(hs: seq<Happening>, g: Gen) {
    hs != [] ==>
      && Orderly(hs[..|hs| - 1], g)
      && !PushesAgain(History(hs[..|hs| - 1]), hs[|hs| - 1], g)
      && !LeavesBare(History(hs[..|hs| - 1]), hs[|hs| - 1], g)
  }

  // ---------------------------------------------------------------- the first frame

  /** Nothing was sent, or the list first and only once; something was, if the session is in use. */
  predicate ListFirst(s: Session, inUse: bool) {
    (s.sent == [] || Clean(s)) && (inUse ==> s.sent != [])
  }

  lemma OtherAppended(s: Session, kind: nat, body: nat)
    requires Clean(s)
    ensures Clean(s.(sent := s.sent + [Other(kind, body)]))
  {
  }

  /** A call of the session's own consumer, on its side of the session. */
  lemma CallListFirst(w: World, h: Happening, g: Gen, a: ConsumerSide, b: ConsumerSide)
    requires CallIn(w, h, g) && a == SideOf(w, h.c) && b == ConsumerCall(w, h)
    requires !PushesAgain(w, h, g) && !LeavesBare(w, h, g) && (h.ConsumerSelects? ==> !a.x.pending)
    requires ListFirst(a.s, !a.x.fallback) && (a.x.fallback ==> a.s.sent == [])
    ensures b.x.made == a.x.made ==> ListFirst(b.s, !b.x.fallback)
    ensures b.x.made == a.x.made || b.x.made == a.x.made + 1
  {
    match h
    case ConsumerPushes(_, list, sendOk, _) =>
    case ConsumerSelects(_, idx, sendOk, _) =>
    case ConsumerWaits(_, broken, _) =>
    case ConsumerSends(_, kind, body, sendOk, _) => if !a.x.fallback { OtherAppended(a.s, kind, body); }
  }

  lemma OwnListFirst(w: World, h: Happening, g: Gen)
    requires CallIn(w, h, g) && !PushesAgain(w, h, g) && !LeavesBare(w, h, g)
    requires (h.ConsumerSelects? ==> !w.cs[h.c].pending)
    requires ListFirst(w.ss[g], InUse(w, g)) && (w.cs[h.c].fallback ==> w.ss[g].sent == [])
    ensures g in Happen(w, h).ss && ListFirst(Happen(w, h).ss[g], InUse(Happen(w, h), g))
  {
    CallListFirst(w, h, g, SideOf(w, h.c), ConsumerCall(w, h));
  }

  lemma StepListFirst(w: World, h: Happening, g: Gen)
    requires Inv(w) && g in w.ss && ListFirst(w.ss[g], InUse(w, g)) && !PushesAgain(w, h, g) && !LeavesBare(w, h, g)
    ensures g in Happen(w, h).ss && ListFirst(Happen(w, h).ss[g], InUse(Happen(w, h), g))
  {
    SessionKept(w, h, g);
    if CallIn(w, h, g) && (h.ConsumerSelects? ==> !w.cs[h.c].pending) {
      assert SessionInv(w, g);
      OwnListFirst(w, h, g);
    }
  }

  /** After every history that is orderly in session `g`: BUFS_READY is the first frame and the
      only one of its kind, if any frame was sent - and one was, if the session is in use. */
  lemma {:induction false} BufsReadyFirst(hs: seq<Happening>, g: Gen)
    requires Orderly(hs, g) && g in History(hs).ss
    ensures ListFirst(History(hs).ss[g], InUse(History(hs), g))
  {
    if hs != [] {
      var before, h := hs[..|hs| - 1], hs[|hs| - 1];
      EveryHistory(before);
      if g in History(before).ss {
        BufsReadyFirst(before, g);
        StepListFirst(History(before), h, g);
      } else {
        BornEmpty(History(before), h, g);
      }
    }
  }

  // ---------------------------------------------------------------- agreement

  /** In an orderly session, a producer that holds a frame has exactly the consumer's buffer
      list, in order, and get_selected_idx is the index selected last, unclamped. */
  lemma TableAgreement(hs: seq<Happening>, p: Conn, g: Gen)
    requires Orderly(hs, g)
    requires var w := History(hs); p in w.ps && w.ps[p].holds && w.ps[p].session == Some(g)
    ensures var w := History(hs);
            && g in w.ss && Clean(w.ss[g]) && w.ss[g].sent[0] == Bufs(w.ps[p].table)
            && GetSelectedIdx(ProducerSide(w.ps[p], w.ss[g])) == Selected(hs, g) < |w.ps[p].table|
            && (InUse(w, g) ==> w.ps[p].table == w.cs[g.c].stored)
  {
    EveryHistory(hs);
    var w := History(hs);
    assert ProducerOk(w, p) && SessionInv(w, g);
    BufsReadyFirst(hs, g);
    WordIsSelected(hs, g);
  }

  lemma WaitTakes(b: ProducerSide)
    requires b.s.bufReady > 0 && Clean(b.s)
    requires if b.x.table != [] then b.s.sent[0] == Bufs(b.x.table) else b.s.taken == 0 && b.s.sent[0].list != []
    ensures var r := WaitBuffer(b, false); r.x.holds && r.x.session == b.x.session && r.x.table == b.s.sent[0].list
  {
  }

  lemma WaitIn(w: World, p: Conn, g: Gen)
    requires InSession(w, p) && w.ps[p].session == Some(g) && !w.ps[p].holds
    requires ConsumerEndOpen(w, g) && w.ss[g].bufReady > 0 && Clean(w.ss[g]) && TableOk(w, g) && w.ss[g].far == Held(p)
    ensures var w' := Happen(w, ProducerWaits(p, false));
            p in w'.ps && w'.ps[p].holds && w'.ps[p].session == Some(g) && w'.ps[p].table == w.ss[g].sent[0].list
  {
    WaitTakes(PSideOf(w, p));
  }

  /** In an orderly session, with a token waiting and the consumer connected, an unbroken wait
      succeeds: the producer then holds the frame and has the list the consumer stored. */
  lemma WaitSucceeds(hs: seq<Happening>, p: Conn, g: Gen)
    requires Orderly(hs, g)
    requires var w := History(hs);
             && InSession(w, p) && w.ps[p].session == Some(g) && !w.ps[p].holds
             && ConsumerEndOpen(w, g) && w.ss[g].bufReady > 0
    ensures var w, w' := History(hs), Happen(History(hs), ProducerWaits(p, false));
            && p in w'.ps && w'.ps[p].holds && w'.ps[p].session == Some(g)
            && w.ss[g].sent != [] && w.ss[g].sent[0] == Bufs(w'.ps[p].table)
            && (!w.cs[g.c].fallback ==> w'.ps[p].table == w.cs[g.c].stored)
  {
    EveryHistory(hs);
    assert ProducerOk(History(hs), p) && SessionInv(History(hs), g);
    BufsReadyFirst(hs, g);
    WaitIn(History(hs), p, g);
  }
}
