/**
 The two views of the producer library agree: waiting for a buffer in the protocol
 (Contexts.dfy) is waiting for a buffer in the resource model (ProducerLibrary.dfy).
 */
module ProducerSimulation {
  import opened Messages
  import opened Options
  import opened Descriptors
  import opened Contexts
  import opened Protocol
  import opened DaemonSafety
  import opened ProtocolTheorems
  import L = ProducerLibrary
  import opened WireRuns
  import opened Wire

  /** The same session state and the same buffer table. */
  ghost predicate Matches(b: ProducerSide, x: L.Ctx) {
    && b.x.session.Some? == !x.fallback
    && |b.x.table| == |x.table| == |x.infos|
    && forall i | 0 <= i < |x.table| :: b.x.table[i] == Buf(x.table[i], x.infos[i])
  }

  function Fds(list: seq<Buf>): seq<Fd> { seq(|list|, i requires 0 <= i < |list| => list[i].fd) }
  function Infos(list: seq<Buf>): seq<nat> { seq(|list|, i requires 0 <= i < |list| => list[i].info) }

  /** What the next receive on the data stream yields, header and layouts read whole. */
  function NextMessage(s: Session): L.DataMsg {
    if s.taken >= |s.sent| then L.Eof
    else match s.sent[s.taken]
      case Other(kind, _) => L.Header(true, kind, 0, [], L.NoLayouts)
      case Bufs(list) =>
        if |list| > MAX_BUFS then L.Eof
        else L.Header(true, BUFS_READY, |list| * BUF_INFO_SIZE, Fds(list), L.Layouts(Infos(list)))
  }

  /** The polls report what the session's state makes them report: the first that is not idle
      a hang-up, or a token if there is one; without either, all are idle. */
  ghost predicate Reported(s: Session, hup: bool, polls: seq<L.Poll>) {
    && (hup ==> L.Ends(polls))
    && (!hup && s.bufReady > 0 ==> L.Arrives(polls))
    && (!hup && s.bufReady == 0 ==> forall j | 0 <= j < |polls| :: L.Idle(polls[j]))
  }

  lemma ReportedDecides(s: Session, hup: bool, polls: seq<L.Poll>)
    requires Reported(s, hup, polls)
    ensures L.Decide(polls) == if hup then L.Broke else if s.bufReady > 0 then L.Token else L.Waiting
  {
    if hup {
      var i: nat :| L.FirstAt(polls, i) && (polls[i].Failed? || polls[i].hup);
      L.DecidedAt(polls, i);
    } else if s.bufReady > 0 {
      var i: nat :| L.FirstAt(polls, i) && polls[i] == L.Woken(true, false);
      L.DecidedAt(polls, i);
    } else {
      L.Undecided(polls);
    }
  }

  lemma ReceiveSimulates(b: ProducerSide, x: L.Ctx)
    requires Matches(b, x) && !x.fallback
    requires b.s.taken < |b.s.sent| && b.s.sent[b.s.taken].Bufs? ==> 1 <= |b.s.sent[b.s.taken].list| <= MAX_BUFS
    ensures var y := L.ReceiveDmabufs(x, NextMessage(b.s));
            match ReceiveDmabufs(b)
            case None => y.fallback && y.table == []
            case Some(b') => Matches(b', y)
  {
    if b.x.table == [] && b.s.taken < |b.s.sent| && b.s.sent[b.s.taken].Bufs? {
      var list := b.s.sent[b.s.taken].list;
      assert (|list| * BUF_INFO_SIZE) / BUF_INFO_SIZE == |list|;
      assert L.ListOf(NextMessage(b.s));
    }
  }

  /** A wait of the protocol and the library's wait on the same stream keep agreeing, for
      every sequence of poll results that ends as the session's state makes it end. */
  lemma WaitSimulates(b: ProducerSide, x: L.Ctx, hup: bool, polls: seq<L.Poll>, r: L.Reply, mmapOk: bool)
    requires Matches(b, x) && !x.fallback && x.asyncPending && Reported(b.s, hup, polls)
    requires b.s.taken < |b.s.sent| && b.s.sent[b.s.taken].Bufs? ==> 1 <= |b.s.sent[b.s.taken].list| <= MAX_BUFS
    ensures Matches(WaitBuffer(b, hup), L.WaitBufferResult(x, r, mmapOk, polls, NextMessage(b.s)))
  {
    ReportedDecides(b.s, hup, polls);
    if !hup && b.s.bufReady > 0 {
      var b1 := b.(s := b.s.(bufReady := 0));
      assert NextMessage(b1.s) == NextMessage(b.s);
      ReceiveSimulates(b1, x);
    }
  }

  /** What a wait in a session comes to, by its fields. */
  lemma WaitEffect(b: ProducerSide, hup: bool, r: ProducerSide)
    requires r == WaitBuffer(b, hup)
    ensures !hup && b.s.bufReady == 0 ==> r == b
    ensures !hup && b.s.bufReady > 0 && b.x.table != [] ==>
              r.x == b.x.(holds := true) && r.s == b.s.(bufReady := 0)
    ensures !hup && b.s.bufReady > 0 && b.x.table == [] && b.s.taken < |b.s.sent| && b.s.sent[b.s.taken].Bufs? ==>
              && r.x == b.x.(holds := true, table := b.s.sent[b.s.taken].list)
              && r.s == b.s.(bufReady := 0, taken := b.s.taken + 1)
    ensures hup || (b.s.bufReady > 0 && b.x.table == []
                    && !(b.s.taken < |b.s.sent| && b.s.sent[b.s.taken].Bufs?)) ==>
              r.x == b.x.(session := None, table := [], holds := false) && r.s.far == Gone
  {
  }

  /** A poll for events in the protocol takes one frame off the stream, as the poll of its bytes
      does: afterwards the bytes left are those of the frames left. */
  method PollSimulates(b: ProducerSide, ch: Channel, a: Attempt, ghost fs: seq<Wire.Frame>) returns (r: Polled)
    requires |fs| == |b.s.sent| && b.s.taken <= |fs| && ch.data == EncodeAll(fs[b.s.taken..]) && !ch.fallback
    requires Smooth(Poll(a)) && Looks(a) && forall k | 0 <= k < |fs| :: Acceptable(fs[k].kind, |fs[k].payload|)
    modifies ch
    ensures var t := PollDisplay(b, false).s.taken;
            && b.s.taken <= t <= |fs| && ch.data == EncodeAll(fs[t..]) && !ch.fallback
            && (t == b.s.taken <==> b.s.taken == |fs|)
  {
    ghost var n;
    r, n := PollOne(ch, a, fs, b.s.taken);
  }

  // ---------------------------------------------------------------- the four descriptors

  /** A context whose session fields have the roles of `e`. */
  predicate Assigned(y: L.Ctx, e: Ends) {
    && y.bufReady == L.Open(e.bufReady) && y.refreshDone == L.Open(e.refreshDone)
    && y.data == L.Open(e.data) && y.shm == L.Open(e.shm)
  }

  /** Picking up what any history delivers gives every descriptor the role for which its
      consumer made it, on both pickup paths; fallback is left exactly if the shared word can
      be mapped. */
  lemma RolesAgree(hs: seq<Happening>, i: nat, x: L.Ctx, mmapOk: bool)
    requires i < |Entries(History(hs).d.log)| && Delivery(Entries(History(hs).d.log)[i]) && x.fallback
    ensures var fds := Entries(History(hs).d.log)[i].fds;
            && fds != []
            && var answer := L.Answer(FDS_READY, fds);
            var y, z := L.PickupFds(x, answer, mmapOk), L.TryReconnect(x, answer, mmapOk);
            && Assigned(y, EndsOf(GenOf(fds))) && Assigned(z, EndsOf(GenOf(fds)))
            && y.fallback == z.fallback == !mmapOk && y.mapped == z.mapped == mmapOk
  {
    DeliveredWhole(hs, i);
  }
}
