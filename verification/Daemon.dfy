/**
 The display daemon (daemon/daemon.c): two client slots, a stored screen, a deposit of at
 most four descriptors and two waiting flags.

 `State` is the daemon's static storage together with what the kernel can observe of it:
 the calls that open and close control sockets, the received descriptors closed so far, and
 the log of messages.  The functions below give the meaning of each handler; the class
 `Daemon` in DaemonImpl.dfy runs them in place and is proved to have that meaning.
 */
module DisplayDaemon {
  import opened Messages
  import opened Options
  import opened Descriptors

  /** A connection: its number in the order in which the daemon accepted it. */
  type Conn = nat

  datatype Screen = Screen(width: nat, height: nat, format: nat, refresh: nat)

  /** The descriptors one `recv_fds` call yields: at most MAX_FDS of those attached. */
  type FdList = fds: seq<Fd> | |fds| <= MAX_FDS

  /** What one receive on a control socket yields: an error or end of file, or a header with
      the descriptors attached to it.  A header that arrived short is not `whole`: `kind` and
      `size` are then whatever the header's memory holds.  `payloadOk` says whether the `size`
      payload bytes could be read. */
  datatype Inbound =
    | Closed
    | Message(whole: bool, kind: nat, size: nat, payloadOk: bool, payload: Screen, fds: FdList)

  /** Which of the sends attempted in one handler succeed. */
  datatype Sends = Sends(fdsOk: bool, readyOk: bool, screenOk: bool)

  datatype Event =
    | Accept(first: Inbound, sends: Sends)
    | Data(conn: Conn, msg: Inbound, sends: Sends)
    | Hangup(conn: Conn)

  datatype Entry =
    | Deposited(from: Conn, fds: FdList)
    | ScreenFrom(from: Conn, screen: Screen)
    | ScreenTo(to: Conn, screen: Screen, ok: bool)
    | FdsTo(to: Conn, fds: FdList, ok: bool)
    | ReadyTo(to: Conn, ok: bool)

  /** The messages so far, the latest outermost. */
  datatype Log = Nothing | Then(before: Log, last: Entry)

  /** The calls on control sockets so far: a connection's socket enters the epoll set, or
      leaves it and is closed. */
  datatype SocketCalls = NoCalls | WatchOn(before: SocketCalls, conn: Conn) | Unwatch(before: SocketCalls, conn: Conn)

  datatype State = State(
    consumer: Option<Conn>,
    producer: Option<Conn>,
    screen: Option<Screen>,
    deposit: FdList,
    waitScreen: bool,
    waitFds: bool,
    nextConn: Conn,
    sockets: SocketCalls,
    closed: Closes,
    log: Log)

  function Init(): State {
    State(None, None, None, [], false, false, 0, NoCalls, NoCloses, Nothing)
  }

  function ClientFree(s: State, c: Option<Conn>): State {
    if c.None? then s
    else s.(sockets := Unwatch(s.sockets, c.value))
  }

  function ClearDeposit(s: State): State {
    s.(closed := AndClosed(s.closed, s.deposit), deposit := [])
  }

  function CloseReceived(s: State, fds: FdList): State {
    s.(closed := AndClosed(s.closed, fds))
  }

  function TryDeliver(s: State, sends: Sends): State {
    if s.producer.None? || |s.deposit| < 4 then
      s.(waitFds := true)
    else
      var s1 := s.(log := Then(s.log, FdsTo(s.producer.value, s.deposit, sends.fdsOk)));
      if !sends.fdsOk then
        s1.(waitFds := true)
      else
        var s2 := if s1.consumer.Some?
                  then s1.(log := Then(s1.log, ReadyTo(s1.consumer.value, sends.readyOk))) else s1;
        ClearDeposit(s2).(waitFds := false)
  }

  function DropProducer(s: State): State {
    ClientFree(s, s.producer).(producer := None, waitScreen := false, waitFds := false)
  }

  function Disconnect(s: State, c: Conn): State {
    if s.consumer == Some(c) then ClientFree(s, s.consumer).(consumer := None)
    else if s.producer == Some(c) then DropProducer(s)
    else s
  }

  function Deposit(s: State, c: Conn, fds: FdList, sends: Sends): State {
    var s1 := ClearDeposit(s);
    var s2 := s1.(deposit := fds, log := Then(s1.log, Deposited(c, fds)));
    if s2.waitFds then TryDeliver(s2, sends) else s2
  }

  function SendScreen(s: State, p: Conn, ok: bool): State
    requires s.screen.Some?
  {
    s.(log := Then(s.log, ScreenTo(p, s.screen.value, ok)))
  }

  /** A changed screen disconnects the producer. */
  function ReplaceScreen(s: State, si: Screen): State {
    var t := s.(screen := Some(si));
    if s.screen.Some? && s.screen.value != si && s.producer.Some? then DropProducer(t) else t
  }

  function StoreScreen(s: State, c: Conn, si: Screen, sends: Sends): State {
    var s1 := ReplaceScreen(s.(log := Then(s.log, ScreenFrom(c, si))), si);
    if s1.waitScreen && s1.producer.Some?
    then SendScreen(s1, s1.producer.value, sends.screenOk).(waitScreen := false)
    else s1
  }

  /** handle_client_data, for a client `c` occupying one of the slots. */
  function ClientData(s: State, c: Conn, m: Inbound, sends: Sends): State {
    match m
    case Closed => Disconnect(s, c)
    case Message(_, kind, size, payloadOk, payload, fds) =>
      if size > SCREEN_INFO_SIZE || (size > 0 && !payloadOk) then Disconnect(s, c)
      else if kind == CONSUMER_HELLO then
        if s.consumer == Some(c) && |fds| >= 3 then Deposit(s, c, fds, sends)
        else CloseReceived(s, fds)
      else if kind == SCREEN_INFO then
        var s1 := CloseReceived(s, fds);
        if s1.consumer == Some(c) && size == SCREEN_INFO_SIZE
        then StoreScreen(s1, c, payload, sends) else s1
      else if kind == PICKUP_FDS then
        var s1 := CloseReceived(s, fds);
        if s1.producer == Some(c) then TryDeliver(s1, sends) else s1
      else CloseReceived(s, fds)
  }

  function Watch(s: State, c: Conn): State {
    s.(sockets := WatchOn(s.sockets, c))
  }

  function SeatConsumer(s: State, c: Conn): State {
    Watch(ClientFree(s, s.consumer).(consumer := Some(c)), c)
  }

  function SeatProducer(s: State, c: Conn): State {
    Watch(ClientFree(s, s.producer).(producer := Some(c), waitScreen := false, waitFds := false), c)
  }

  /** handle_new_connection, after accept() has returned a socket. */
  function NewConnection(s: State, m: Inbound, sends: Sends): State {
    var c := s.nextConn;
    var s0 := s.(nextConn := c + 1);
    if m.Closed? || !m.whole then s0
    else if m.kind == CONSUMER_HELLO then Deposit(SeatConsumer(s0, c), c, m.fds, sends)
    else if m.kind == PRODUCER_HELLO then GreetProducer(SeatProducer(s0, c), c, sends.screenOk)
    else CloseReceived(s0, m.fds)
  }

  function GreetProducer(s: State, c: Conn, ok: bool): State {
    if s.screen.Some? then SendScreen(s, c, ok) else s.(waitScreen := true)
  }

  predicate Live(s: State, c: Conn) {
    s.consumer == Some(c) || s.producer == Some(c)
  }

  /** One epoll event.  Events are delivered for live clients only; anything else is not an
      event. */
  function Step(s: State, e: Event): State {
    match e
    case Accept(m, sends) => NewConnection(s, m, sends)
    case Data(c, m, sends) => if Live(s, c) then ClientData(s, c, m, sends) else s
    case Hangup(c) => if Live(s, c) then Disconnect(s, c) else s
  }

  function Run(es: seq<Event>): State {
    if es == [] then Init() else Step(Run(es[..|es| - 1]), es[|es| - 1])
  }

  /** The shutdown sequence at the end of main. */
  function Shutdown(s: State): State {
    ClientFree(ClientFree(ClearDeposit(s), s.consumer), s.producer)
  }
}
