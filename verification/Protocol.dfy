/**
 The whole display protocol as one transition system: the daemon, any number of consumers
 and producers, their control sockets, and the kernel objects of every session.
 */
module Protocol {
  import opened Options
  import opened DisplayDaemon
  import opened Contexts

  /** Connections are numbered in the order of connect(), which is the order of accept(). */
  datatype World = World(
    d: State,
    next: Conn,
    cs: map<Conn, Consumer>,
    ps: map<Conn, Producer>,
    ss: map<Gen, Session>)

  function Start(): World { World(Init(), 0, map[], map[], map[]) }

  datatype Happening =
    // the daemon
    | Accepts(readable: bool, sends: Sends)
    | ReadsConsumer(sends: Sends)
    | ReadsProducer(sends: Sends)
    | Hangs(c: Conn)
    // a consumer
    | ConsumerConnects
    | ConsumerAnnounces(c: Conn, si: Screen)
    | ConsumerPushes(c: Conn, list: seq<Buf>, sendOk: bool, helloOk: bool)
    | ConsumerSelects(c: Conn, idx: int, sendOk: bool, helloOk: bool)
    | ConsumerWaits(c: Conn, broken: bool, helloOk: bool)
    | ConsumerSends(c: Conn, kind: nat, body: nat, sendOk: bool, helloOk: bool)
    | ConsumerLeaves(c: Conn)
    // a producer
    | ProducerConnects
    | ProducerAsks(p: Conn)
    | ProducerReads(p: Conn, mapOk: bool)
    | ProducerWaits(p: Conn, broken: bool)
    | ProducerTriggers(p: Conn)
    | ProducerPolls(p: Conn, broken: bool)
    | ProducerLeaves(p: Conn)

  // ---------------------------------------------------------------- consumers

  function CurrentGen(w: World, c: Conn): Gen
    requires c in w.cs && w.cs[c].made > 0
  {
    Gen(c, w.cs[c].made - 1)
  }

  /** The consumer is in the accept queue or the daemon still has its end open. */
  predicate Linked(w: World, c: Conn) { c >= w.d.nextConn || w.d.consumer == Some(c) }

  predicate Awake(w: World, c: Conn) {
    c in w.cs && w.cs[c].alive && w.cs[c].made > 0 && CurrentGen(w, c) in w.ss
  }

  function SideOf(w: World, c: Conn): ConsumerSide
    requires Awake(w, c)
  {
    ConsumerSide(w.cs[c], w.ss[CurrentGen(w, c)])
  }

  function PutConsumer(w: World, c: Conn, a: ConsumerSide): World
    requires a.x.made > 0
  {
    w.(cs := w.cs[c := a.x], ss := w.ss[Gen(c, a.x.made - 1) := a.s])
  }

  /** A call into the consumer library: a hello goes through only while linked. */
  function ConsumerCall(w: World, h: Happening): ConsumerSide
    requires h.ConsumerPushes? || h.ConsumerSelects? || h.ConsumerWaits? || h.ConsumerSends?
    requires Awake(w, h.c)
  {
    var a, helloOk := SideOf(w, h.c), h.helloOk && Linked(w, h.c);
    match h
    case ConsumerPushes(_, list, sendOk, _) => PushDmabufs(a, list, sendOk, helloOk)
    case ConsumerSelects(_, idx, sendOk, _) => SelectDmabuf(a, idx, sendOk, helloOk)
    case ConsumerWaits(_, broken, _) => RefreshDone(a, broken, helloOk)
    case ConsumerSends(_, kind, body, sendOk, _) => PushEvent(a, kind, body, sendOk, helloOk)
  }

  // ---------------------------------------------------------------- producers

  predicate InSession(w: World, p: Conn) {
    p in w.ps && w.ps[p].alive && w.ps[p].session.Some? && w.ps[p].session.value in w.ss
  }

  function PSideOf(w: World, p: Conn): ProducerSide
    requires InSession(w, p)
  {
    ProducerSide(w.ps[p], w.ss[w.ps[p].session.value])
  }

  function PutProducer(w: World, p: Conn, g: Gen, b: ProducerSide): World {
    w.(ps := w.ps[p := b.x], ss := w.ss[g := b.s])
  }

  /** The consumer still has its end of the session's data stream open. */
  predicate ConsumerEndOpen(w: World, g: Gen) {
    g.c in w.cs && w.cs[g.c].alive && w.cs[g.c].made == g.k + 1
  }

  /** Reading the next control message: the greeting, or the answer to a pickup.  A producer
      that cannot map the shared word stays in fallback with the descriptors open. */
  function ReadMail(w: World, p: Conn, mapOk: bool): World
    requires p in w.ps && w.ps[p].down != []
  {
    var x := w.ps[p];
    var y := x.(down := x.down[1..]);
    match x.down[0]
    case ScreenMail(_) => w.(ps := w.ps[p := y.(greeted := true)])
    case FdsMail(g) =>
      if g in w.ss && !mapOk
      then PutProducer(w, p, g, ProducerSide(y.(strays := y.strays + [g]), w.ss[g].(far := Stray(p))))
      else if g in w.ss
      then PutProducer(w, p, g, ProducerSide(y.(session := Some(g), table := []), w.ss[g].(far := Held(p))))
      else w.(ps := w.ps[p := y])
  }

  // ---------------------------------------------------------------- moving far ends

  function Moved(ss: map<Gen, Session>, from: Far, to: Far): map<Gen, Session> {
    map g | g in ss :: if ss[g].far == from then ss[g].(far := to) else ss[g]
  }

  /** The daemon closes its end of a consumer's connection: an unread hello is lost. */
  function Orphan(w: World, c: Conn): World {
    if c !in w.cs || w.cs[c].made == 0 || CurrentGen(w, c) !in w.ss then w
    else
      var g := CurrentGen(w, c);
      w.(cs := w.cs[c := w.cs[c].(up := [])],
         ss := if w.ss[g].far == InHello then w.ss[g := w.ss[g].(far := Gone)] else w.ss)
  }

  /** A producer process ends: its session and its unread mail are closed. */
  function ProducerGone(w: World, p: Conn): World
    requires p in w.ps
  {
    var x := w.ps[p].(alive := false, session := None, table := [], holds := false, down := [], strays := []);
    w.(ps := w.ps[p := x],
       ss := Moved(Moved(Moved(w.ss, InMail(p), Gone), Held(p), Gone), Stray(p), Gone))
  }

  // ---------------------------------------------------------------- the daemon

  function FdsOf(g: Gen): FdList { HelloFds(EndsOf(g)) }

  /** The session a descriptor list belongs to. */
  function GenOf(fds: FdList): Gen
    requires fds != []
  {
    Gen(fds[0].conn, fds[0].group)
  }

  /** Which sends can succeed: not those to a process that is gone. */
  function Possible(w: World, sends: Sends): Sends {
    var c, p := w.d.consumer, w.d.producer;
    Sends(sends.fdsOk && p.Some? && p.value in w.ps && w.ps[p.value].alive,
          sends.readyOk && c.Some? && c.value in w.cs && w.cs[c.value].alive,
          sends.screenOk && p.Some? && p.value in w.ps && w.ps[p.value].alive)
  }

  function Mailed(w: World, p: Conn, m: Mail): World
    requires p in w.ps
  {
    w.(ps := w.ps[p := w.ps[p].(down := w.ps[p].down + [m])])
  }

  /** try_deliver_fds: the deposit goes into the producer's mail, a notice to the consumer. */
  function Deliver(w: World, sends: Sends): World {
    var ok := Possible(w, sends);
    var w1 := w.(d := TryDeliver(w.d, ok));
    if |w.d.deposit| < 4 || !ok.fdsOk || GenOf(w.d.deposit) !in w.ss then w1
    else
      var g, p := GenOf(w.d.deposit), w.d.producer.value;
      var w2 := Mailed(w1, p, FdsMail(g)).(ss := w.ss[g := w.ss[g].(far := InMail(p))]);
      if ok.readyOk then
        var c := w.d.consumer.value;
        w2.(cs := w.cs[c := w.cs[c].(notices := w.cs[c].notices + 1)])
      else w2
  }

  /** The daemon takes session `g` into its deposit; a session deposited before is closed. */
  function Shelve(w: World, c: Conn, g: Gen): World
    requires g in w.ss
  {
    var ss := Moved(w.ss, AtDaemon, Gone);
    w.(d := ClearDeposit(w.d).(deposit := FdsOf(g), log := Then(w.d.log, Deposited(c, FdsOf(g)))),
       ss := ss[g := ss[g].(far := AtDaemon)])
  }

  /** The two hello paths, once the hello has been read. */
  function Offer(w: World, c: Conn, g: Gen, sends: Sends): World
    requires g in w.ss
  {
    var w1 := Shelve(w, c, g);
    if w1.d.waitFds then Deliver(w1, sends) else w1
  }

  /** The daemon frees its consumer slot. */
  function Vacate(w: World): World {
    if w.d.consumer.None? then w
    else Orphan(w, w.d.consumer.value).(d := ClientFree(w.d, w.d.consumer).(consumer := None))
  }

  /** handle_disconnect */
  function HangUp(w: World, c: Conn): World {
    if w.d.consumer == Some(c) then Vacate(w)
    else if w.d.producer == Some(c) then w.(d := DropProducer(w.d))
    else w
  }

  function Popped(w: World, c: Conn): World
    requires c in w.cs && w.cs[c].up != []
  {
    w.(cs := w.cs[c := w.cs[c].(up := w.cs[c].up[1..])])
  }

  /** handle_new_connection for the next connection in the queue; `readable` says whether
      its hello can be read. */
  function AcceptNext(w: World, readable: bool, sends: Sends): World {
    var c := w.d.nextConn;
    if c >= w.next then w
    else if !readable then Orphan(w, c).(d := w.d.(nextConn := c + 1))
    else if c in w.cs && w.cs[c].up != [] && w.cs[c].up[0].Hello? && Gen(c, w.cs[c].up[0].k) in w.ss then
      AdmitConsumer(w, c, Gen(c, w.cs[c].up[0].k), sends)
    else if c in w.ps then AdmitProducer(w, c, sends)
    else w
  }

  function AdmitConsumer(w: World, c: Conn, g: Gen, sends: Sends): World
    requires c in w.cs && w.cs[c].up != [] && g in w.ss
  {
    var w1 := Vacate(w);
    if c !in w1.cs || w1.cs[c].up == [] || g !in w1.ss then w1
    else Offer(Popped(w1, c).(d := SeatConsumer(w1.d.(nextConn := c + 1), c)), c, g, sends)
  }

  function AdmitProducer(w: World, p: Conn, sends: Sends): World
    requires p in w.ps
  {
    var ok := sends.screenOk && w.ps[p].alive;
    var w1 := w.(d := GreetProducer(SeatProducer(w.d.(nextConn := p + 1), p), p, ok));
    if w.d.screen.Some? && ok then Mailed(w1, p, ScreenMail(w.d.screen.value)) else w1
  }

  /** The daemon stores a screen; a waiting producer is told. */
  function Screened(w: World, c: Conn, si: Screen, sends: Sends): World {
    var ok := Possible(w, sends);
    var w1 := w.(d := StoreScreen(CloseReceived(w.d, []), c, si, ok));
    if w1.d.producer.Some? && w.d.waitScreen && ok.screenOk then Mailed(w1, w1.d.producer.value, ScreenMail(si)) else w1
  }

  /** The daemon reads the next message of its consumer. */
  function ReadConsumer(w: World, sends: Sends): World {
    if w.d.consumer.None? || w.d.consumer.value !in w.cs || w.cs[w.d.consumer.value].up == [] then w
    else
      var c := w.d.consumer.value;
      match w.cs[c].up[0]
      case Hello(k) => if Gen(c, k) in w.ss then Offer(Popped(w, c), c, Gen(c, k), sends) else w
      case Announce(si) => Screened(Popped(w, c), c, si, sends)
  }

  /** The daemon reads a pickup request of its producer. */
  function ReadProducer(w: World, sends: Sends): World {
    if w.d.producer.None? || w.d.producer.value !in w.ps || w.ps[w.d.producer.value].pickups == 0 then w
    else
      var p := w.d.producer.value;
      Deliver(w.(d := CloseReceived(w.d, []), ps := w.ps[p := w.ps[p].(pickups := w.ps[p].pickups - 1)]), sends)
  }

  // ---------------------------------------------------------------- every happening

  /** One step of the system.  Callers of the consumer library select only when no frame is
      pending; callers of the producer library ask for descriptors only in fallback, wait
      only when they hold no frame, trigger only when they hold one, and poll events only
      after the first buffer.  Anything else leaves the world as it is. */
  function Happen(w: World, h: Happening): World {
    match h
    case Accepts(readable, sends) => AcceptNext(w, readable, sends)
    case ReadsConsumer(sends) => ReadConsumer(w, sends)
    case ReadsProducer(sends) => ReadProducer(w, sends)
    case Hangs(c) => HangUp(w, c)
    case ConsumerConnects =>
      PutConsumer(w.(next := w.next + 1), w.next, ConnectConsumer())
    case ConsumerAnnounces(c, si) =>
      if Awake(w, c) && Linked(w, c) then w.(cs := w.cs[c := w.cs[c].(up := w.cs[c].up + [Announce(si)])]) else w
    case ConsumerPushes(c, _, _, _) => if Awake(w, c) then PutConsumer(w, c, ConsumerCall(w, h)) else w
    case ConsumerSelects(c, _, _, _) =>
      if Awake(w, c) && !w.cs[c].pending then PutConsumer(w, c, ConsumerCall(w, h)) else w
    case ConsumerWaits(c, _, _) => if Awake(w, c) then PutConsumer(w, c, ConsumerCall(w, h)) else w
    case ConsumerSends(c, _, _, _, _) => if Awake(w, c) then PutConsumer(w, c, ConsumerCall(w, h)) else w
    case ConsumerLeaves(c) => if Awake(w, c) then w.(cs := w.cs[c := w.cs[c].(alive := false)]) else w
    case ProducerConnects => w.(next := w.next + 1, ps := w.ps[w.next := ConnectProducer()])
    case ProducerAsks(p) =>
      if p in w.ps && w.ps[p].alive && w.ps[p].greeted && w.ps[p].session.None?
      then w.(ps := w.ps[p := w.ps[p].(pickups := w.ps[p].pickups + 1)]) else w
    case ProducerReads(p, mapOk) =>
      if p in w.ps && w.ps[p].alive && w.ps[p].session.None? && w.ps[p].down != [] then ReadMail(w, p, mapOk) else w
    case ProducerWaits(p, broken) =>
      if InSession(w, p) && !w.ps[p].holds then
        var g := w.ps[p].session.value;
        PutProducer(w, p, g, WaitBuffer(PSideOf(w, p), broken || !ConsumerEndOpen(w, g)))
      else w
    case ProducerTriggers(p) =>
      if InSession(w, p) && w.ps[p].holds
      then PutProducer(w, p, w.ps[p].session.value, TriggerRefresh(PSideOf(w, p))) else w
    case ProducerPolls(p, broken) =>
      if InSession(w, p) && w.ps[p].table != [] then
        var g := w.ps[p].session.value;
        PutProducer(w, p, g, PollDisplay(PSideOf(w, p), broken || !ConsumerEndOpen(w, g)))
      else w
    case ProducerLeaves(p) =>
      if p in w.ps && w.ps[p].alive then ProducerGone(w, p) else w
  }

  function History(hs: seq<Happening>): World {
    if hs == [] then Start() else Happen(History(hs[..|hs| - 1]), hs[|hs| - 1])
  }
}
