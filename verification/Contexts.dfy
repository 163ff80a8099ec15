/**
 The two client libraries, libdisplay_consumer and libdisplay_producer, as functions of a
 `display_ctx` and the kernel objects of the session it currently holds: two event counters,
 one shared word and a data stream.  `far` says where the producer's half of the session's
 descriptors is.
 */
module Contexts {
  import opened Messages
  import opened Options
  import opened Descriptors
  import opened DisplayDaemon

  /** A session is named by the consumer connection it was made on and its number there. */
  datatype Gen = Gen(c: Conn, k: nat)

  /** A shared pixel buffer: its descriptor and its layout. */
  datatype Buf = Buf(fd: Fd, info: nat)

  /** A frame on the data stream: the buffer list, or an input event or window command. */
  datatype Frame = Bufs(list: seq<Buf>) | Other(kind: nat, body: nat)

  /** The producer's half of a session: in a hello, in the daemon's deposit, in the mail of a
      producer, with a producer in the session, with a producer that could not map the shared
      word, or closed. */
  datatype Far = InHello | AtDaemon | InMail(p: Conn) | Held(p: Conn) | Stray(p: Conn) | Gone

  /** The descriptors of a session's far half, by their roles. */
  datatype Ends = Ends(bufReady: Fd, refreshDone: Fd, data: Fd, shm: Fd)

  function EndsOf(g: Gen): Ends { Ends(Fd(g.c, g.k, 0), Fd(g.c, g.k, 1), Fd(g.c, g.k, 2), Fd(g.c, g.k, 3)) }

  /** The order in which a hello lists them. */
  function HelloFds(e: Ends): FdList { [e.bufReady, e.refreshDone, e.data, e.shm] }

  datatype Session = Session(
    bufReady: nat,
    refreshDone: nat,
    word: nat,
    sent: seq<Frame>,
    taken: nat,
    far: Far)

  /** Messages from a consumer to the daemon, and from the daemon to a producer. */
  datatype Upward = Hello(k: nat) | Announce(si: Screen)
  datatype Mail = ScreenMail(si: Screen) | FdsMail(g: Gen)

  /** `made` counts the descriptor sets made on this connection; the last one is current. */
  datatype Consumer = Consumer(alive: bool, fallback: bool, pending: bool, stored: seq<Buf>,
                               up: seq<Upward>, notices: nat, made: nat)

  datatype Producer = Producer(alive: bool, greeted: bool, session: Option<Gen>, table: seq<Buf>, holds: bool,
                               pickups: nat, down: seq<Mail>, strays: seq<Gen>)

  /** A consumer with its current session. */
  datatype ConsumerSide = ConsumerSide(x: Consumer, s: Session)

  /** A producer with the session it has picked up. */
  datatype ProducerSide = ProducerSide(x: Producer, s: Session)

  // ---------------------------------------------------------------- consumer library

  /** New descriptors, and the hello that offers them to the daemon. */
  function FreshSession(x: Consumer, helloOk: bool): ConsumerSide {
    ConsumerSide(x.(made := x.made + 1, up := if helloOk then x.up + [Hello(x.made)] else x.up),
                 Session(0, 0, 0, [], 0, if helloOk then InHello else Gone))
  }

  /** connect_to_deamon of the consumer. */
  function ConnectConsumer(): ConsumerSide {
    FreshSession(Consumer(true, true, false, [], [], 0, 0), true)
  }

  /** enter_fallback of the consumer. */
  function ConsumerFallback(a: ConsumerSide, helloOk: bool): ConsumerSide {
    if a.x.fallback then a else FreshSession(a.x.(fallback := true, pending := false), helloOk)
  }

  /** Send one frame on the data stream; a closed far end or an error means fallback. */
  function SendFrame(a: ConsumerSide, f: Frame, sendOk: bool, helloOk: bool): ConsumerSide {
    if sendOk && a.s.far != Gone then a.(s := a.s.(sent := a.s.sent + [f]))
    else ConsumerFallback(a, helloOk)
  }

  /** push_dmabufs_internal */
  function PushStored(a: ConsumerSide, sendOk: bool, helloOk: bool): ConsumerSide {
    if a.x.stored == [] then a else SendFrame(a, Bufs(a.x.stored), sendOk, helloOk)
  }

  /** try_exit_fallback */
  function TryExitFallback(a: ConsumerSide, sendOk: bool, helloOk: bool): ConsumerSide {
    if a.x.notices > 0
    then PushStored(a.(x := a.x.(notices := a.x.notices - 1, fallback := false)), sendOk, helloOk)
    else a
  }

  /** push_dmabufs */
  function PushDmabufs(a: ConsumerSide, list: seq<Buf>, sendOk: bool, helloOk: bool): ConsumerSide {
    if list == [] || |list| > MAX_BUFS then a
    else
      var b := a.(x := a.x.(stored := list));
      if b.x.fallback then b else PushStored(b, sendOk, helloOk)
  }

  /** select_dmabuf */
  function SelectDmabuf(a: ConsumerSide, idx: int, sendOk: bool, helloOk: bool): ConsumerSide {
    var b := if a.x.fallback then TryExitFallback(a, sendOk, helloOk) else a;
    if b.x.fallback || idx < 0 || idx >= |b.x.stored| then b
    else ConsumerSide(b.x.(pending := true), b.s.(word := idx, bufReady := b.s.bufReady + 1))
  }

  /** refresh_done, once poll() has something to report; `broken` stands for its errors. */
  function RefreshDone(a: ConsumerSide, broken: bool, helloOk: bool): ConsumerSide {
    if !a.x.pending then a
    else if broken || a.s.far == Gone then ConsumerFallback(a, helloOk)
    else if a.s.refreshDone > 0 then ConsumerSide(a.x.(pending := false), a.s.(refreshDone := 0))
    else a
  }

  /** push_input_event and push_window_command */
  function PushEvent(a: ConsumerSide, kind: nat, body: nat, sendOk: bool, helloOk: bool): ConsumerSide {
    if a.x.fallback then a else SendFrame(a, Other(kind, body), sendOk, helloOk)
  }

  // ---------------------------------------------------------------- producer library

  function ConnectProducer(): Producer { Producer(true, false, None, [], false, 0, [], []) }

  /** enter_fallback of a producer in a session: its half of the session is closed. */
  function ProducerFallback(b: ProducerSide): ProducerSide {
    ProducerSide(b.x.(session := None, table := [], holds := false), b.s.(far := Gone))
  }

  /** receive_dmabufs: unless the table is known, the buffer list must be the next frame. */
  function ReceiveDmabufs(b: ProducerSide): (r: Option<ProducerSide>) {
    if b.x.table != [] then Some(b)
    else if b.s.taken < |b.s.sent| && b.s.sent[b.s.taken].Bufs?
    then Some(ProducerSide(b.x.(table := b.s.sent[b.s.taken].list), b.s.(taken := b.s.taken + 1)))
    else None
  }

  /** wait_buffer_async_result in a session, once poll() has something to report; `hup` says
      that the consumer's end is closed or that poll() failed. */
  function WaitBuffer(b: ProducerSide, hup: bool): ProducerSide {
    if hup then ProducerFallback(b)
    else if b.s.bufReady == 0 then b
    else
      var b1 := b.(s := b.s.(bufReady := 0));
      match ReceiveDmabufs(b1)
      case None => ProducerFallback(b1)
      case Some(b2) => b2.(x := b2.x.(holds := true))
  }

  /** trigger_refresh by a producer that holds a frame. */
  function TriggerRefresh(b: ProducerSide): ProducerSide {
    ProducerSide(b.x.(holds := false), b.s.(refreshDone := b.s.refreshDone + 1))
  }

  /** poll_display_event in a session: at most one frame is consumed. */
  function PollDisplay(b: ProducerSide, hup: bool): ProducerSide {
    if hup then ProducerFallback(b)
    else if b.s.taken < |b.s.sent| then b.(s := b.s.(taken := b.s.taken + 1))
    else b
  }

  /** get_selected_idx: the shared word, or 0 when it is no index of the table. */
  function GetSelectedIdx(b: ProducerSide): nat {
    if b.s.word < |b.x.table| then b.s.word else 0
  }
}
