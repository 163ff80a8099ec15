/**
 The resources of libdisplay_producer (display_producer.c): the four descriptors and the
 mapping of a session, and the descriptors of the shared buffers.
 */
module ProducerLibrary {
  import opened Messages
  import opened Descriptors

  /** A descriptor field: -1 or an open descriptor. */
  datatype Slot = Shut | Open(fd: Fd)

  /** The fields of `display_ctx` that own something, and what has been closed. */
  datatype Ctx = Ctx(
    fallback: bool,
    asyncPending: bool,
    bufReady: Slot,
    refreshDone: Slot,
    data: Slot,
    shm: Slot,
    mapped: bool,
    table: seq<Fd>,
    infos: seq<nat>,
    closed: Closes)

  type FourFds = fds: seq<Fd> | |fds| <= 4
  type BufFds = fds: seq<Fd> | |fds| <= MAX_BUFS

  /** What the daemon's answer to a pickup request yields; `Silent` stands for a failed send,
      a timeout, an error or the end of the stream. */
  datatype Reply = Silent | Answer(kind: nat, fds: FourFds)

  /** What the next receive on the data stream yields.  `payload` are the layouts of as many
      buffers as the header announces; anything else could not be read. */
  datatype Layouts = NoLayouts | Layouts(infos: seq<nat>)
  datatype DataMsg = Eof | Header(whole: bool, kind: nat, size: nat, fds: BufFds, payload: Layouts)

  /** One return of poll() on the buffer-ready counter and the data stream. */
  datatype Poll = Interrupted | Failed | Quiet | Woken(token: bool, hup: bool)

  datatype Call =
    | WaitAsync
    | WaitResult(reply: Reply, mmapOk: bool, polls: seq<Poll>, msg: DataMsg)
    | PollEvent(broken: bool)
    | PushWindow(sendOk: bool)
    | Reconnect(reply: Reply, mmapOk: bool)

  // ---------------------------------------------------------------- the library

  function Fresh(): Ctx { Ctx(true, false, Shut, Shut, Shut, Shut, false, [], [], NoCloses) }

  predicate AllShut(x: Ctx) { x.data.Shut? && x.bufReady.Shut? && x.refreshDone.Shut? && x.shm.Shut? }
  predicate AllOpen(x: Ctx) { x.data.Open? && x.bufReady.Open? && x.refreshDone.Open? && x.shm.Open? }

  /** Closing a descriptor field, unless it is -1. */
  function CloseSlot(cs: Closes, s: Slot): Closes { if s.Open? then AndClosed(cs, [s.fd]) else cs }

  /** Closing every buffer, then the four session descriptors; also what disconnect does. */
  function CloseAll(x: Ctx): Closes {
    CloseSlot(CloseSlot(CloseSlot(CloseSlot(AndClosed(x.closed, x.table), x.data), x.bufReady), x.refreshDone), x.shm)
  }

  function EnterFallback(x: Ctx): Ctx {
    if x.fallback then x
    else x.(fallback := true, table := [], infos := [], data := Shut, bufReady := Shut, refreshDone := Shut,
            shm := Shut, mapped := false, closed := CloseAll(x))
  }

  predicate Accepted(r: Reply) { r.Answer? && r.kind == FDS_READY && |r.fds| == 4 }

  function PickupFds(x: Ctx, r: Reply, mmapOk: bool): Ctx {
    if !Accepted(r) then x
    else x.(bufReady := Open(r.fds[0]), refreshDone := Open(r.fds[1]), data := Open(r.fds[2]), shm := Open(r.fds[3]),
            mapped := mmapOk, fallback := x.fallback && !mmapOk)
  }

  function TryReconnect(x: Ctx, r: Reply, mmapOk: bool): Ctx {
    if !x.fallback then x
    else if Accepted(r) && mmapOk then PickupFds(x, r, mmapOk).(table := [], infos := [])
    else PickupFds(x, r, mmapOk)
  }

  predicate Readable(m: DataMsg) { m.Header? && m.whole && |m.fds| >= 1 }
  predicate ListOf(m: DataMsg) { Readable(m) && m.kind == BUFS_READY && m.size / BUF_INFO_SIZE == |m.fds| }

  function ReceiveDmabufs(x: Ctx, m: DataMsg): Ctx {
    if |x.table| > 0 then x
    else if !Readable(m) then EnterFallback(x)
    else if !ListOf(m) then x.(closed := AndClosed(x.closed, m.fds))
    else if m.payload.NoLayouts? || |m.payload.infos| != |m.fds|
    then EnterFallback(x.(closed := AndClosed(x.closed, m.fds)))
    else x.(table := m.fds, infos := m.payload.infos)
  }

  /** The payload of an accepted list is read whole into an array of MAX_BUFS layouts.  The
      test on the count admits a size that is no multiple of a layout: the read stays inside
      the array if and only if there are fewer than MAX_BUFS buffers or the size is exact. */
  lemma LayoutsFit(m: DataMsg)
    requires ListOf(m)
    ensures m.size <= MAX_BUFS * BUF_INFO_SIZE <==> |m.fds| < MAX_BUFS || m.size % BUF_INFO_SIZE == 0
  {
  }

  /** Such a list exists: eight buffers and a size of 161 pass the test and do not fit. */
  lemma LayoutsOverrun(fds: BufFds)
    requires |fds| == MAX_BUFS
    ensures var m := Header(true, BUFS_READY, MAX_BUFS * BUF_INFO_SIZE + 1, fds, NoLayouts);
            ListOf(m) && m.size > MAX_BUFS * BUF_INFO_SIZE
  {
  }

  datatype Outcome = Waiting | Broke | Token

  /** The poll says nothing that concerns the wait. */
  predicate Idle(p: Poll) { p.Interrupted? || p.Quiet? || p == Woken(false, false) }

  /** Poll `i` is the first that is not idle. */
  predicate FirstAt(polls: seq<Poll>, i: nat) {
    i < |polls| && !Idle(polls[i]) && forall j | 0 <= j < i :: Idle(polls[j])
  }

  /** The first poll that is not idle brings a buffer-ready token and no hang-up. */
  ghost predicate Arrives(polls: seq<Poll>) { exists i: nat :: FirstAt(polls, i) && polls[i] == Woken(true, false) }

  /** The first poll that is not idle failed or reports a hang-up. */
  ghost predicate Ends(polls: seq<Poll>) { exists i: nat :: FirstAt(polls, i) && (polls[i].Failed? || polls[i].hup) }

  /** A whole buffer list: header, at least one descriptor, and as many layouts. */
  predicate GoodList(m: DataMsg) {
    && m.Header? && m.whole && m.kind == BUFS_READY && 1 <= |m.fds| && m.size / 20 == |m.fds|
    && m.payload.Layouts? && |m.payload.infos| == |m.fds|
  }

  /** A whole header with descriptors that is not that of a list, or of another length. */
  predicate ListedOtherwise(m: DataMsg) {
    m.Header? && m.whole && 1 <= |m.fds| && (m.kind != BUFS_READY || m.size / 20 != |m.fds|)
  }

  /** An answer with all four descriptors. */
  predicate TakesOver(r: Reply) { r.Answer? && r.kind == FDS_READY && |r.fds| >= 4 }

  /** The first poll that decides the wait. */
  function Decide(polls: seq<Poll>): Outcome {
    if polls == [] then Waiting
    else match polls[0]
      case Failed => Broke
      case Woken(token, hup) => if hup then Broke else if token then Token else Decide(polls[1..])
      case _ => Decide(polls[1..])
  }

  lemma FirstAhead(polls: seq<Poll>, i: nat)
    requires i > 0 && FirstAt(polls, i)
    ensures FirstAt(polls[1..], i - 1) && polls[1..][i - 1] == polls[i]
  {
    forall j | 0 <= j < i - 1 ensures Idle(polls[1..][j]) { assert Idle(polls[j + 1]); }
  }

  /** The first poll that is not idle decides the wait. */
  lemma {:induction false} DecidedAt(polls: seq<Poll>, i: nat)
    requires FirstAt(polls, i)
    ensures Decide(polls) == if polls[i].Failed? || polls[i].hup then Broke else Token
    decreases i
  {
    if i > 0 {
      assert Idle(polls[0]);
      FirstAhead(polls, i);
      DecidedAt(polls[1..], i - 1);
    }
  }

  lemma {:induction false} Undecided(polls: seq<Poll>)
    requires forall j | 0 <= j < |polls| :: Idle(polls[j])
    ensures Decide(polls) == Waiting
  {
    if polls != [] {
      assert Idle(polls[0]);
      forall j | 0 <= j < |polls[1..]| ensures Idle(polls[1..][j]) { assert Idle(polls[j + 1]); }
      Undecided(polls[1..]);
    }
  }

  function WaitBufferResult(x: Ctx, r: Reply, mmapOk: bool, polls: seq<Poll>, m: DataMsg): Ctx {
    if x.fallback then PickupFds(x.(asyncPending := false), r, mmapOk)
    else if !x.asyncPending then x
    else match Decide(polls)
      case Waiting => x
      case Broke => EnterFallback(x).(asyncPending := false)
      case Token => ReceiveDmabufs(x, m).(asyncPending := false)
  }

  function Perform(x: Ctx, call: Call): Ctx {
    match call
    case WaitAsync => x.(asyncPending := true)
    case WaitResult(r, mmapOk, polls, m) => WaitBufferResult(x, r, mmapOk, polls, m)
    case PollEvent(broken) => if broken then EnterFallback(x) else x
    case PushWindow(sendOk) => if sendOk then x else EnterFallback(x)
    case Reconnect(r, mmapOk) => TryReconnect(x, r, mmapOk)
  }

  /** The calls made on a context from connect_to_deamon on; the first answer and its mapping
      are part of connecting. */
  function After(calls: seq<Call>, first: Reply): Ctx {
    if calls == [] then PickupFds(Fresh(), first, true)
    else Perform(After(calls[..|calls| - 1], first), calls[|calls| - 1])
  }

  // ---------------------------------------------------------------- fallback means empty

  /** In fallback nothing is held; otherwise all four descriptors and the mapping are. */
  predicate Sound(x: Ctx) {
    if x.fallback then x.table == [] && AllShut(x) && !x.mapped else AllOpen(x) && x.mapped
  }

  /** What holds even when mapping the shared word fails. */
  predicate HalfSound(x: Ctx) {
    if x.fallback then x.table == [] && !x.mapped else AllOpen(x) && x.mapped
  }

  /** The call takes over a set of descriptors and cannot map the shared word. */
  predicate MapFails(x: Ctx, call: Call) {
    (call.WaitResult? || call.Reconnect?) && x.fallback && Accepted(call.reply) && !call.mmapOk
  }

  lemma PerformHalfSound(x: Ctx, call: Call)
    requires HalfSound(x)
    ensures HalfSound(Perform(x, call))
  {
  }

  lemma PerformSound(x: Ctx, call: Call)
    requires Sound(x)
    ensures Sound(Perform(x, call)) <==> !MapFails(x, call)
  {
  }

  /** No call so far failed to map the shared word. */
  predicate AllMapped(calls: seq<Call>, first: Reply) {
    calls != [] ==>
      AllMapped(calls[..|calls| - 1], first) && !MapFails(After(calls[..|calls| - 1], first), calls[|calls| - 1])
  }

  lemma {:induction false} SoundWhenMapped(calls: seq<Call>, first: Reply)
    requires Accepted(first) && AllMapped(calls, first)
    ensures Sound(After(calls, first))
  {
    if calls != [] {
      SoundWhenMapped(calls[..|calls| - 1], first);
      PerformSound(After(calls[..|calls| - 1], first), calls[|calls| - 1]);
    }
  }

  ghost predicate AlwaysSound(calls: seq<Call>, first: Reply) {
    forall n | 0 <= n <= |calls| :: Sound(After(calls[..n], first))
  }

  /** Fallback means nothing held, and out of fallback everything is held, throughout a run -
      if and only if no call of the run takes over descriptors and then fails to map. */
  lemma {:induction false} ResourceStates(calls: seq<Call>, first: Reply)
    requires Accepted(first)
    ensures AlwaysSound(calls, first) <==> AllMapped(calls, first)
    ensures HalfSound(After(calls, first))
  {
    if calls == [] {
      assert calls[..0] == calls;
    } else {
      var before, x := calls[..|calls| - 1], After(calls[..|calls| - 1], first);
      ResourceStates(before, first);
      PerformHalfSound(x, calls[|calls| - 1]);
      assert calls[..|calls|] == calls;
      assert forall n | 0 <= n <= |before| :: before[..n] == calls[..n];
      if AlwaysSound(calls, first) {
        forall n | 0 <= n <= |before| ensures Sound(After(before[..n], first)) { assert before[..n] == calls[..n]; }
        assert Sound(After(calls[..|before|], first)) && Sound(After(calls[..|calls|], first));
        PerformSound(x, calls[|calls| - 1]);
      }
      if AllMapped(calls, first) {
        forall n | 0 <= n <= |calls| ensures Sound(After(calls[..n], first)) {
          if n == |calls| { SoundWhenMapped(calls, first); } else { assert before[..n] == calls[..n]; }
        }
      }
    }
  }

  // ---------------------------------------------------------------- conservation

  /** The call gets as far as reading the data stream. */
  predicate Receives(x: Ctx, call: Call) {
    call.WaitResult? && !x.fallback && x.asyncPending && Decide(call.polls) == Token && x.table == []
  }

  predicate Asks(x: Ctx, call: Call) { (call.WaitResult? || call.Reconnect?) && x.fallback }

  /** The descriptors a call takes off a socket. */
  function Taken(x: Ctx, call: Call): seq<Fd> {
    if Asks(x, call) && call.reply.Answer? then call.reply.fds
    else if Receives(x, call) && call.msg.Header? then call.msg.fds
    else []
  }

  /** The call forgets descriptors: those of an answer it rejects, those it overwrites with
      new ones after an earlier mapping failure, or those of a header that came short. */
  predicate Forgets(x: Ctx, call: Call) {
    if Asks(x, call) && call.reply.Answer? then
      if Accepted(call.reply) then !AllShut(x) else call.reply.fds != []
    else Receives(x, call) && call.msg.Header? && !call.msg.whole && call.msg.fds != []
  }

  function InSlot(s: Slot, f: Fd): nat { if s == Open(f) then 1 else 0 }

  /** How often `f` is in the fields of a session. */
  function InSession(x: Ctx, f: Fd): nat {
    InSlot(x.data, f) + InSlot(x.bufReady, f) + InSlot(x.refreshDone, f) + InSlot(x.shm, f)
  }

  function Accounted(x: Ctx, f: Fd): nat { TimesClosed(x.closed, f) + Times(x.table, f) + InSession(x, f) }

  /** How often a call forgets `f`. */
  function ForgottenTimes(x: Ctx, call: Call, f: Fd): nat {
    if !Forgets(x, call) then 0
    else if Receives(x, call) then Times(call.msg.fds, f)
    else if Accepted(call.reply) then InSession(x, f)
    else Times(call.reply.fds, f)
  }

  lemma SlotCounts(cs: Closes, s: Slot, f: Fd)
    ensures TimesClosed(CloseSlot(cs, s), f) == TimesClosed(cs, f) + InSlot(s, f)
  {
    if s.Open? {
      var one := [s.fd];
      assert one[..|one| - 1] == [];
      assert Times(one, f) == InSlot(s, f);
    }
  }

  lemma CloseAllLedger(x: Ctx, f: Fd)
    ensures TimesClosed(CloseAll(x), f) == Accounted(x, f)
    ensures Accounted(EnterFallback(x), f) == Accounted(x, f)
  {
    var c1 := AndClosed(x.closed, x.table);
    var c2 := CloseSlot(c1, x.data);
    var c3 := CloseSlot(c2, x.bufReady);
    var c4 := CloseSlot(c3, x.refreshDone);
    SlotCounts(c1, x.data, f);
    SlotCounts(c2, x.bufReady, f);
    SlotCounts(c3, x.refreshDone, f);
    SlotCounts(c4, x.shm, f);
  }

  lemma TimesOfFour(fds: seq<Fd>, f: Fd)
    requires |fds| == 4
    ensures Times(fds, f)
         == InSlot(Open(fds[0]), f) + InSlot(Open(fds[1]), f) + InSlot(Open(fds[2]), f) + InSlot(Open(fds[3]), f)
  {
    assert fds[..3][..2] == fds[..2] && fds[..2][..1] == fds[..1] && fds[..1][..0] == [];
    assert Times(fds[..1], f) == InSlot(Open(fds[0]), f);
    assert Times(fds[..2], f) == Times(fds[..1], f) + InSlot(Open(fds[1]), f);
    assert Times(fds[..3], f) == Times(fds[..2], f) + InSlot(Open(fds[2]), f);
  }

  lemma PickupLedger(x: Ctx, r: Reply, mmapOk: bool, y: Ctx, f: Fd)
    requires y == PickupFds(x, r, mmapOk) && Accepted(r)
    ensures Accounted(y, f) + InSession(x, f) == Accounted(x, f) + Times(r.fds, f)
  {
    TimesOfFour(r.fds, f);
  }

  lemma ReceiveLedger(x: Ctx, m: DataMsg, y: Ctx, f: Fd)
    requires x.table == [] && !x.fallback && m.Header? && y == ReceiveDmabufs(x, m)
    ensures Accounted(y, f) + (if m.whole then 0 else Times(m.fds, f)) == Accounted(x, f) + Times(m.fds, f)
  {
    var x1 := x.(closed := AndClosed(x.closed, m.fds));
    CloseAllLedger(x, f);
    CloseAllLedger(x1, f);
  }

  lemma AskLedger(x: Ctx, call: Call, y: Ctx, f: Fd)
    requires HalfSound(x) && Asks(x, call) && y == Perform(x, call)
    ensures Accounted(y, f) + ForgottenTimes(x, call, f) == Accounted(x, f) + Times(Taken(x, call), f)
  {
    var x1 := x.(asyncPending := y.asyncPending);
    if Accepted(call.reply) { PickupLedger(x1, call.reply, call.mmapOk, PickupFds(x1, call.reply, call.mmapOk), f); }
  }

  lemma TakeLedger(x: Ctx, call: Call, y: Ctx, f: Fd)
    requires Receives(x, call) && y == Perform(x, call)
    ensures Accounted(y, f) + ForgottenTimes(x, call, f) == Accounted(x, f) + Times(Taken(x, call), f)
  {
    CloseAllLedger(x, f);
    if call.msg.Header? { ReceiveLedger(x, call.msg, ReceiveDmabufs(x, call.msg), f); }
  }

  lemma PerformLedger(x: Ctx, call: Call, y: Ctx, f: Fd)
    requires HalfSound(x) && y == Perform(x, call)
    ensures Accounted(y, f) + ForgottenTimes(x, call, f) == Accounted(x, f) + Times(Taken(x, call), f)
  {
    if Asks(x, call) {
      AskLedger(x, call, y, f);
    } else if Receives(x, call) {
      TakeLedger(x, call, y, f);
    } else {
      CloseAllLedger(x, f);
    }
  }

  /** How often `f` was taken in by connecting and by the calls since. */
  function AllTaken(calls: seq<Call>, first: Reply, f: Fd): nat {
    if calls == [] then (if first.Answer? then Times(first.fds, f) else 0)
    else AllTaken(calls[..|calls| - 1], first, f)
         + Times(Taken(After(calls[..|calls| - 1], first), calls[|calls| - 1]), f)
  }

  function AllForgotten(calls: seq<Call>, first: Reply, f: Fd): nat {
    if calls == [] then 0
    else AllForgotten(calls[..|calls| - 1], first, f)
         + ForgottenTimes(After(calls[..|calls| - 1], first), calls[|calls| - 1], f)
  }

  lemma {:induction false} Ledger(calls: seq<Call>, first: Reply, f: Fd)
    requires Accepted(first)
    ensures AllTaken(calls, first, f) == Accounted(After(calls, first), f) + AllForgotten(calls, first, f)
  {
    if calls == [] {
      PickupLedger(Fresh(), first, true, PickupFds(Fresh(), first, true), f);
    } else {
      var before := calls[..|calls| - 1];
      Ledger(before, first, f);
      ResourceStates(before, first);
      PerformLedger(After(before, first), calls[|calls| - 1], After(calls, first), f);
    }
  }

  /** No call so far forgot a descriptor. */
  predicate NothingForgotten(calls: seq<Call>, first: Reply) {
    calls != [] ==>
      NothingForgotten(calls[..|calls| - 1], first) && !Forgets(After(calls[..|calls| - 1], first), calls[|calls| - 1])
  }

  lemma ForgottenOne(x: Ctx, call: Call) returns (f: Fd)
    requires Forgets(x, call)
    ensures ForgottenTimes(x, call, f) > 0
  {
    if Receives(x, call) {
      f := call.msg.fds[|call.msg.fds| - 1];
    } else if Accepted(call.reply) {
      f := if x.data.Open? then x.data.fd else if x.bufReady.Open? then x.bufReady.fd
           else if x.refreshDone.Open? then x.refreshDone.fd else x.shm.fd;
    } else {
      f := call.reply.fds[|call.reply.fds| - 1];
    }
  }

  lemma {:induction false} ForgottenNone(calls: seq<Call>, first: Reply, f: Fd)
    requires NothingForgotten(calls, first)
    ensures AllForgotten(calls, first, f) == 0
  {
    if calls != [] { ForgottenNone(calls[..|calls| - 1], first, f); }
  }

  lemma {:induction false} ForgottenSome(calls: seq<Call>, first: Reply) returns (f: Fd)
    requires !NothingForgotten(calls, first)
    ensures AllForgotten(calls, first, f) > 0
  {
    var before := calls[..|calls| - 1];
    if !NothingForgotten(before, first) {
      f := ForgottenSome(before, first);
    } else {
      f := ForgottenOne(After(before, first), calls[|calls| - 1]);
    }
  }

  /** Disconnecting after a run has closed every descriptor exactly as often as it was taken
      in - if and only if no call of the run forgot one.  None is ever closed more often. */
  lemma ClosedExactlyOnce(calls: seq<Call>, first: Reply)
    requires Accepted(first)
    ensures (forall f :: TimesClosed(CloseAll(After(calls, first)), f) == AllTaken(calls, first, f))
            <==> NothingForgotten(calls, first)
    ensures forall f :: TimesClosed(CloseAll(After(calls, first)), f) <= AllTaken(calls, first, f)
  {
    var x := After(calls, first);
    forall f ensures TimesClosed(CloseAll(x), f) + AllForgotten(calls, first, f) == AllTaken(calls, first, f) {
      Ledger(calls, first, f);
      CloseAllLedger(x, f);
    }
    if NothingForgotten(calls, first) {
      forall f ensures TimesClosed(CloseAll(x), f) == AllTaken(calls, first, f) { ForgottenNone(calls, first, f); }
    } else {
      var f := ForgottenSome(calls, first);
      assert TimesClosed(CloseAll(x), f) != AllTaken(calls, first, f);
    }
  }

  /** Connecting that fails after the answer came closes what it had accepted. */
  lemma FailedConnectCloses(first: Reply, f: Fd)
    requires Accepted(first)
    ensures TimesClosed(CloseAll(PickupFds(Fresh(), first, false)), f) == Times(first.fds, f)
  {
    PickupLedger(Fresh(), first, false, PickupFds(Fresh(), first, false), f);
    CloseAllLedger(PickupFds(Fresh(), first, false), f);
  }

  /** A peer that attaches descriptors to nothing but whole answers and whole headers. */
  predicate WellFormed(call: Call) {
    match call
    case WaitResult(r, _, _, m) => (r.Answer? ==> Accepted(r) || r.fds == []) && (m.Header? ==> m.whole || m.fds == [])
    case Reconnect(r, _) => r.Answer? ==> Accepted(r) || r.fds == []
    case _ => true
  }

  /** With such peers and a mapping that never fails, nothing is forgotten. */
  lemma {:induction false} WellFormedForgetNothing(calls: seq<Call>, first: Reply)
    requires Accepted(first) && AllMapped(calls, first) && forall i | 0 <= i < |calls| :: WellFormed(calls[i])
    ensures NothingForgotten(calls, first)
  {
    if calls != [] {
      var before := calls[..|calls| - 1];
      WellFormedForgetNothing(before, first);
      SoundWhenMapped(before, first);
      assert WellFormed(calls[|calls| - 1]);
    }
  }

  /** The code does forget: a failed mapping leaves fallback holding four descriptors, and the
      next answer overwrites them. */
  lemma OverwriteForgets(a: FourFds, b: FourFds, c: FourFds)
    requires |a| == 4 && |b| == 4 && |c| == 4
    ensures var failing, working := Reconnect(Answer(FDS_READY, b), false), Reconnect(Answer(FDS_READY, c), true);
            var calls := [PollEvent(true), failing, working];
            !AllMapped(calls[..2], Answer(FDS_READY, a)) && Forgets(After(calls[..2], Answer(FDS_READY, a)), calls[2])
  {
    var first := Answer(FDS_READY, a);
    var calls := [PollEvent(true), Reconnect(Answer(FDS_READY, b), false), Reconnect(Answer(FDS_READY, c), true)];
    assert calls[..2][..1] == [calls[0]] && calls[..2][1] == calls[1] && [calls[0]][..0] == [];
    assert After([calls[0]], first) == EnterFallback(PickupFds(Fresh(), first, true));
    assert After(calls[..2], first) == TryReconnect(After([calls[0]], first), Answer(FDS_READY, b), false);
  }
}
