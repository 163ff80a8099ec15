/**
 The data stream at byte level: the packed layouts of common/protocol.h, send_all and
 recv_all of common/socket_utils.c under any short counts and interrupts, the consumer's
 push functions and the producer's poll_display_event.
 */
module Wire {
  import opened Messages

  type Byte = x: int | 0 <= x < 256
  type Word = n: int | 0 <= n < 0x1_0000_0000
  type Payload = p: seq<Byte> | |p| < 0x1_0000_0000

  const MAX_DISCARD: nat := 4096
  const DISCARD_CHUNK: nat := 256

  // ---------------------------------------------------------------- layouts

  /** A 32-bit field in memory order, least significant byte first. */
  function Bytes4(n: Word): (b: seq<Byte>)
    ensures |b| == 4
  {
    var q: int := n / 256;
    var r: int := n / 65536;
    [n % 256, q % 256, r % 256, n / 16777216]
  }

  function Word4(b: seq<Byte>): Word
    requires |b| >= 4
  {
    var b0: int, b1: int, b2: int, b3: int := b[0], b[1], b[2], b[3];
    b0 + 256 * b1 + 65536 * b2 + 16777216 * b3
  }

  lemma WordRoundTrip(n: Word, rest: seq<Byte>)
    ensures Word4(Bytes4(n) + rest) == n
  {
    var q: int := n / 256;
    var r: int := n / 65536;
    assert n == 256 * q + n % 256;
    assert r == q / 256 && q == 256 * r + q % 256;
    assert n / 16777216 == r / 256 && r == 256 * (r / 256) + r % 256;
  }

  lemma BytesRoundTrip(b: seq<Byte>)
    requires |b| == 4
    ensures Bytes4(Word4(b)) == b
  {
    var n := Word4(b);
    var b1: int, b2: int, b3: int := b[1], b[2], b[3];
    var q: int := b1 + 256 * b2 + 65536 * b3;
    var r: int := b2 + 256 * b3;
    assert n == 256 * q + b[0] && n / 256 == q && n % 256 == b[0];
    assert q == 256 * r + b[1] && q / 256 == r && q % 256 == b[1];
    assert n / 65536 == q / 256;
    assert n / 16777216 == r / 256 && r / 256 == b[3];
  }

  /** One data message: struct data_msg followed by its payload. */
  datatype Frame = Frame(kind: Word, payload: Payload)

  function Encode(f: Frame): (b: seq<Byte>)
    ensures |b| == HEADER_SIZE + |f.payload|
  {
    Bytes4(f.kind) + Bytes4(|f.payload|) + f.payload
  }

  predicate LittleEndian(n: int, b0: int, b1: int, b2: int, b3: int) {
    n == b0 + 256 * b1 + 65536 * b2 + 16777216 * b3
  }

  /** The layout, byte by byte: two little-endian fields, the kind before the size, and then
      the payload. */
  lemma FrameLayout(f: Frame, rest: seq<Byte>)
    ensures var b := Encode(f) + rest;
            && LittleEndian(f.kind, b[0], b[1], b[2], b[3]) && LittleEndian(|f.payload|, b[4], b[5], b[6], b[7])
            && b[8..8 + |f.payload|] == f.payload && b[8 + |f.payload|..] == rest
  {
    var b := Encode(f) + rest;
    DecodeEncoded(f, rest);
    assert b[4..][0] == b[4] && b[4..][1] == b[5] && b[4..][2] == b[6] && b[4..][3] == b[7];
  }

  function KindOf(b: seq<Byte>): Word requires |b| >= 8 { Word4(b) }
  function SizeOf(b: seq<Byte>): Word requires |b| >= 8 { Word4(b[4..]) }

  /** The frame a byte sequence starts with, if it is there whole. */
  predicate Whole(b: seq<Byte>) { |b| >= 8 && |b| - 8 >= SizeOf(b) }
  function Decode(b: seq<Byte>): Frame
    requires Whole(b)
  {
    Frame(KindOf(b), b[8..8 + SizeOf(b)])
  }

  lemma DecodeEncoded(f: Frame, rest: seq<Byte>)
    ensures Whole(Encode(f) + rest) && KindOf(Encode(f) + rest) == f.kind && SizeOf(Encode(f) + rest) == |f.payload|
    ensures Decode(Encode(f) + rest) == f
  {
    var b := Encode(f) + rest;
    assert b == Bytes4(f.kind) + (Bytes4(|f.payload|) + f.payload + rest);
    WordRoundTrip(f.kind, Bytes4(|f.payload|) + f.payload + rest);
    assert b[4..] == Bytes4(|f.payload|) + (f.payload + rest);
    WordRoundTrip(|f.payload|, f.payload + rest);
    assert b[8..8 + |f.payload|] == f.payload;
  }

  lemma EncodeDecoded(b: seq<Byte>)
    requires Whole(b)
    ensures b == Encode(Decode(b)) + b[8 + SizeOf(b)..]
  {
    BytesRoundTrip(b[..4]);
    BytesRoundTrip(b[4..8]);
    assert Word4(b[..4]) == KindOf(b) && Word4(b[4..8]) == SizeOf(b);
    assert b == b[..4] + b[4..8] + b[8..8 + SizeOf(b)] + b[8 + SizeOf(b)..];
  }

  /** No encoded frame is a prefix of another: a stream can be cut in one way only. */
  lemma CutOnce(f: Frame, x: seq<Byte>, g: Frame, y: seq<Byte>)
    requires Encode(f) + x == Encode(g) + y
    ensures f == g && x == y
  {
    DecodeEncoded(f, x);
    DecodeEncoded(g, y);
    assert x == (Encode(f) + x)[8 + |f.payload|..];
    assert y == (Encode(g) + y)[8 + |g.payload|..];
  }

  function EncodeAll(fs: seq<Frame>): seq<Byte> {
    if fs == [] then [] else Encode(fs[0]) + EncodeAll(fs[1..])
  }

  lemma {:induction false} EncodeAppended(fs: seq<Frame>, f: Frame)
    ensures EncodeAll(fs + [f]) == EncodeAll(fs) + Encode(f)
  {
    if fs == [] {
      assert fs + [f] == [f];
    } else {
      EncodeAppended(fs[1..], f);
      assert (fs + [f])[1..] == fs[1..] + [f];
    }
  }

  // ---------------------------------------------------------------- system calls

  /** One send() or recv(): interrupted, failed, or at most `n` bytes moved (0: the end). */
  datatype Io = Interrupted | Failed | Moved(n: nat)

  /** Outcomes with no failure among them. */
  predicate Steady(io: seq<Io>) { forall i | 0 <= i < |io| :: !io[i].Failed? && io[i] != Moved(0) }

  /** How many of the outcomes move something. */
  function Moves(io: seq<Io>): nat {
    if io == [] then 0 else (if io[0].Moved? then 1 else 0) + Moves(io[1..])
  }

  function Min(a: nat, b: nat): nat { if a <= b then a else b }

  /** How many bytes a read of `len` gets out of `avail`. */
  function TakenBy(avail: nat, len: nat, io: seq<Io>): (n: nat)
    ensures n <= len && n <= avail
    decreases |io|
  {
    if len == 0 || io == [] then 0
    else match io[0]
      case Interrupted => TakenBy(avail, len, io[1..])
      case Failed => 0
      case Moved(k) =>
        var n := Min(k, Min(len, avail));
        if n == 0 then 0 else n + TakenBy(avail - n, len - n, io[1..])
  }

  /** How many bytes the outcomes could move together. */
  function Room(io: seq<Io>): nat {
    if io == [] then 0 else (if io[0].Moved? then io[0].n else 0) + Room(io[1..])
  }

  /** Without failures, a transfer moves what it wants, what there is, or what the outcomes
      together let through, whichever is least. */
  lemma {:induction false} TakenSteady(avail: nat, len: nat, io: seq<Io>)
    requires Steady(io)
    ensures TakenBy(avail, len, io) == Min(Room(io), Min(len, avail))
    decreases |io|
  {
    if len > 0 && io != [] {
      if io[0].Interrupted? {
        TakenSteady(avail, len, io[1..]);
      } else {
        var n := Min(io[0].n, Min(len, avail));
        TakenSteady(avail - n, len - n, io[1..]);
      }
    }
  }

  /** A failure, or an end of the stream, ends the transfer: nothing moves after it. */
  lemma {:induction false} TakenStops(avail: nat, len: nat, io: seq<Io>, i: nat)
    requires i < |io| && (io[i].Failed? || io[i] == Moved(0))
    ensures TakenBy(avail, len, io) == TakenBy(avail, len, io[..i])
    decreases |io|
  {
    if len > 0 && i > 0 {
      assert io[..i][0] == io[0] && io[..i][1..] == io[1..][..i - 1];
      match io[0]
      case Interrupted => TakenStops(avail, len, io[1..], i - 1);
      case Failed =>
      case Moved(k) =>
        var n := Min(k, Min(len, avail));
        TakenStops(avail - n, len - n, io[1..], i - 1);
    }
  }

  /** The outcomes left after such a read. */
  function LeftBy(avail: nat, len: nat, io: seq<Io>): (rest: seq<Io>)
    decreases |io|
  {
    if len == 0 || io == [] then io
    else match io[0]
      case Interrupted => LeftBy(avail, len, io[1..])
      case Failed => io[1..]
      case Moved(k) =>
        var n := Min(k, Min(len, avail));
        if n == 0 then io[1..] else LeftBy(avail - n, len - n, io[1..])
  }

  /** Steady reads get everything, and leave enough steady outcomes. */
  lemma {:induction false} SteadyTakes(avail: nat, len: nat, io: seq<Io>)
    requires Steady(io) && Moves(io) >= len && avail >= len
    ensures TakenBy(avail, len, io) == len
    ensures Steady(LeftBy(avail, len, io)) && Moves(LeftBy(avail, len, io)) >= Moves(io) - len
    decreases |io|
  {
    if len > 0 {
      if io[0].Interrupted? {
        SteadyTakes(avail, len, io[1..]);
      } else {
        var n := Min(io[0].n, len);
        SteadyTakes(avail - n, len - n, io[1..]);
      }
    }
  }

  /** Results of poll_display_event. */
  datatype Polled = Nothing | Error | Input(payload: seq<Byte>) | Command(payload: seq<Byte>)

  /** What the frame means to the caller of poll_display_event. */
  function Meaning(f: Frame): Polled {
    if f.kind == INPUT_EVENT then Input(f.payload)
    else if f.kind == WINDOW_COMMAND then Command(f.payload)
    else Nothing
  }

  /** The frames that poll_display_event accepts. */
  predicate Acceptable(kind: Word, size: nat) {
    if kind == INPUT_EVENT then size == INPUT_EVENT_SIZE
    else if kind == WINDOW_COMMAND then size == WINDOW_COMMAND_SIZE
    else size <= MAX_DISCARD
  }

  /** The environment of one poll: whether poll() reports input or a hang-up, how much of the
      stream has arrived when it is peeked at, and the outcomes of the reads. */
  datatype Attempt = Attempt(ready: bool, hup: bool, arrived: nat, io: seq<Io>)

  predicate Looks(a: Attempt) { a.ready && !a.hup && a.arrived >= HEADER_SIZE }

  /** Some of the first frame has been read off the stream, but not all of it. */
  predicate Torn(was: seq<Byte>, now: seq<Byte>) {
    && |was| >= HEADER_SIZE
    && |was| - HEADER_SIZE - SizeOf(was) < |now| < |was| && now == was[|was| - |now|..]
  }

  /** The data stream of a session, towards the producer: `data` are the bytes sent and not
      yet read, and `fallback` the reader's flag. */
  class Channel {
    var data: seq<Byte>
    var fallback: bool

    constructor ()
      ensures data == [] && !fallback
    {
      data, fallback := [], false;
    }

    /** send_all: all of the bytes, or on failure a proper prefix of them. */
    method SendAll(buf: seq<Byte>, io: seq<Io>) returns (ok: bool, sent: nat)
      modifies this`data
      ensures sent <= |buf| && data == old(data) + buf[..sent]
      ensures ok <==> sent == |buf|
      ensures sent == TakenBy(|buf|, |buf|, io)
      ensures Steady(io) && Moves(io) >= |buf| ==> ok
    {
      sent := 0;
      var todo := io;
      while sent < |buf|
        invariant sent <= |buf| && (Steady(io) ==> Steady(todo))
        invariant data == old(data) + buf[..sent]
        invariant sent + TakenBy(|buf| - sent, |buf| - sent, todo) == TakenBy(|buf|, |buf|, io)
        invariant Moves(todo) + sent >= Moves(io)
        decreases |todo|
      {
        if todo == [] {
          return false, sent;
        }
        var r := todo[0];
        todo := todo[1..];
        if r.Interrupted? {
          continue;
        }
        if r.Failed? || r.n == 0 {
          return false, sent;
        }
        var n := Min(r.n, |buf| - sent);
        assert buf[..sent + n] == buf[..sent] + buf[sent..sent + n];
        data := data + buf[sent..sent + n];
        sent := sent + n;
      }
      return true, sent;
    }

    /** One recv() that moves at most `n` of the `max` bytes asked for. */
    method Recv(max: nat, n: nat) returns (got: seq<Byte>)
      modifies this`data
      ensures old(data) == got + data && |got| == Min(n, Min(max, |old(data)|))
    {
      var k := Min(n, Min(max, |data|));
      got, data := data[..k], data[k..];
    }

    /** The loop of recv_all: exactly as many bytes as the outcomes let through. */
    method RecvLoop(len: nat, io: seq<Io>) returns (buf: seq<Byte>, rest: seq<Io>)
      modifies this`data
      ensures old(data) == buf + data
      ensures |buf| == TakenBy(|old(data)|, len, io) && rest == LeftBy(|old(data)|, len, io)
    {
      buf := [];
      rest := io;
      ghost var was := data;
      while |buf| < len
        invariant |buf| <= len && was == buf + data
        invariant |buf| + TakenBy(|data|, len - |buf|, rest) == TakenBy(|was|, len, io)
        invariant LeftBy(|data|, len - |buf|, rest) == LeftBy(|was|, len, io)
        decreases |rest|
      {
        if rest == [] {
          return;
        }
        var r := rest[0];
        rest := rest[1..];
        if r.Interrupted? {
          continue;
        }
        if r.Failed? {
          return;
        }
        var got := Recv(len - |buf|, r.n);
        if got == [] {
          return;
        }
        buf := buf + got;
      }
    }

    /** recv_all: the next `len` bytes, or on failure fewer of them. */
    method RecvAll(len: nat, io: seq<Io>) returns (ok: bool, buf: seq<Byte>, rest: seq<Io>)
      modifies this`data
      ensures old(data) == buf + data && |buf| <= len
      ensures ok <==> |buf| == len
      ensures |buf| == TakenBy(|old(data)|, len, io) && rest == LeftBy(|old(data)|, len, io)
      ensures Steady(io) && Moves(io) >= len && |old(data)| >= len ==>
                ok && Steady(rest) && Moves(rest) >= Moves(io) - len
    {
      if Steady(io) && Moves(io) >= len && |data| >= len { SteadyTakes(|data|, len, io); }
      buf, rest := RecvLoop(len, io);
      ok := |buf| == len;
    }

    /** The discard loop: the payload of an uninteresting frame, in chunks. */
    method Discard(len: nat, io: seq<Io>) returns (ok: bool, ghost gone: seq<Byte>)
      modifies this`data
      ensures old(data) == gone + data
      ensures |gone| <= len && (ok <==> |gone| == len)
      ensures Steady(io) && Moves(io) >= len && |old(data)| >= len ==> ok
    {
      var size: nat, io' := len, io;
      gone := [];
      while size > 0
        invariant old(data) == gone + data && |gone| == len - size
        invariant Steady(io) && Moves(io) >= len && |old(data)| >= len ==>
                    Steady(io') && Moves(io') >= size && |data| >= size
      {
        var chunk := if size > DISCARD_CHUNK then DISCARD_CHUNK else size;
        var read, buf, io1 := RecvAll(chunk, io');
        gone := gone + buf;
        if !read {
          return false, gone;
        }
        io' := io1;
        size := size - chunk;
      }
      return true, gone;
    }

    /** A frame of a fixed-size kind: header and payload in one read. */
    method ReadWhole(size: nat, io: seq<Io>) returns (ok: bool, payload: seq<Byte>)
      requires |data| >= 8 && SizeOf(data) == size
      modifies this`data
      ensures ok ==> Whole(old(data)) && payload == Decode(old(data)).payload && data == old(data)[8 + size..]
      ensures Steady(io) && Moves(io) >= 8 + size && Whole(old(data)) ==> ok
      ensures var n := TakenBy(|old(data)|, 8 + size, io); data == old(data)[n..] && (ok <==> n == 8 + size)
      ensures !ok ==> data == old(data) || Torn(old(data), data)
    {
      var buf, rest;
      ok, buf, rest := RecvAll(HEADER_SIZE + size, io);
      payload := if ok then buf[HEADER_SIZE..] else [];
    }

    /** Any other frame: the header in one read, the payload discarded. */
    method SkipFrame(size: nat, io: seq<Io>) returns (ok: bool)
      requires |data| >= 8 && SizeOf(data) == size
      modifies this`data
      ensures ok ==> Whole(old(data)) && data == old(data)[8 + size..]
      ensures Steady(io) && Moves(io) >= 8 + size && Whole(old(data)) ==> ok
      ensures !ok ==> data == old(data) || Torn(old(data), data)
    {
      ghost var was := data;
      var header, rest;
      ok, header, rest := RecvAll(HEADER_SIZE, io);
      if !ok {
        return;
      }
      ghost var gone;
      ok, gone := Discard(size, rest);
      assert was == (header + gone) + data;
      assert data == was[|header + gone|..];
    }

    /** The part of poll_display_event that has seen a header. */
    method PollFrame(io: seq<Io>) returns (r: Polled)
      requires !fallback && |data| >= HEADER_SIZE
      modifies this
      ensures r != Error && KindOf(old(data)) == INPUT_EVENT ==> |old(data)| >= 28 && r == Input(old(data)[8..28])
      ensures r != Error && KindOf(old(data)) == WINDOW_COMMAND ==> |old(data)| >= 16 && r == Command(old(data)[8..16])
      ensures r != Error && KindOf(old(data)) !in {INPUT_EVENT, WINDOW_COMMAND} ==> r == Nothing
      ensures var kind, size := KindOf(old(data)), SizeOf(old(data));
              fallback <==> if kind == INPUT_EVENT then size != 20
                            else if kind == WINDOW_COMMAND then size != 8 else size > 4096
      ensures fallback ==> r == Error && data == old(data)
      ensures r != Error ==>
                && Whole(old(data)) && old(data) == Encode(Decode(old(data))) + data && data != old(data)
                && r == Meaning(Decode(old(data))) && !fallback
      ensures Whole(old(data)) && Acceptable(KindOf(old(data)), SizeOf(old(data)))
              && Steady(io) && Moves(io) >= 8 + SizeOf(old(data)) ==>
                r != Error
      ensures r == Error ==> data == old(data) || Torn(old(data), data)
      ensures KindOf(old(data)) == INPUT_EVENT && SizeOf(old(data)) == INPUT_EVENT_SIZE ==>
                && !fallback
                && var n := TakenBy(|old(data)|, HEADER_SIZE + INPUT_EVENT_SIZE, io);
                data == old(data)[n..] && (r == Error <==> n < HEADER_SIZE + INPUT_EVENT_SIZE)
    {
      var kind, size := KindOf(data), SizeOf(data);
      if Whole(data) { EncodeDecoded(data); }
      if kind == INPUT_EVENT {
        if size != INPUT_EVENT_SIZE {
          fallback := true;
          return Error;
        }
        var ok, payload := ReadWhole(INPUT_EVENT_SIZE, io);
        return if ok then Input(payload) else Error;
      }
      if kind == WINDOW_COMMAND {
        if size != WINDOW_COMMAND_SIZE {
          fallback := true;
          return Error;
        }
        var ok, payload := ReadWhole(WINDOW_COMMAND_SIZE, io);
        return if ok then Command(payload) else Error;
      }
      if size > MAX_DISCARD {
        fallback := true;
        return Error;
      }
      var skipped := SkipFrame(size, io);
      return if skipped then Nothing else Error;
    }

    /** poll_display_event.  Unless it fails it consumes nothing, or one whole frame and
        returns what the frame means; if it fails it has consumed less than the frame.  With
        something acceptable to read and steady reads it does consume a frame. */
    method PollDisplayEvent(a: Attempt) returns (r: Polled)
      modifies this
      ensures r != Error && data != old(data) ==>
                |old(data)| >= HEADER_SIZE &&
                var kind := KindOf(old(data));
                && (kind == INPUT_EVENT ==> |old(data)| >= 28 && r == Input(old(data)[8..28]))
                && (kind == WINDOW_COMMAND ==> |old(data)| >= 16 && r == Command(old(data)[8..16]))
                && (kind != INPUT_EVENT && kind != WINDOW_COMMAND ==> r == Nothing)
      ensures !old(fallback) && a.ready && a.hup ==> r == Error && fallback && data == old(data)
      ensures Looks(a) && !old(fallback) && |old(data)| >= HEADER_SIZE ==>
                var kind, size := KindOf(old(data)), SizeOf(old(data));
                && (fallback <==> if kind == INPUT_EVENT then size != 20
                                  else if kind == WINDOW_COMMAND then size != 8 else size > 4096)
                && (fallback ==> r == Error && data == old(data))
      ensures old(fallback) ==> fallback
      ensures r != Error && data != old(data) ==>
                && Whole(old(data)) && !old(fallback)
                && old(data) == Encode(Decode(old(data))) + data
                && r == Meaning(Decode(old(data)))
      ensures r != Error && data == old(data) ==> r == Nothing
      ensures r != Error ==> fallback == old(fallback)
      ensures old(fallback) || !a.ready || (!a.hup && Min(a.arrived, |old(data)|) < HEADER_SIZE) ==>
                r == Nothing && data == old(data)
      ensures Looks(a) && !old(fallback) && Whole(old(data)) && Acceptable(KindOf(old(data)), SizeOf(old(data)))
              && Steady(a.io) && Moves(a.io) >= 8 + SizeOf(old(data)) ==>
                r != Error && data != old(data)
      ensures r == Error ==> data == old(data) || Torn(old(data), data)
      ensures Looks(a) && !old(fallback) && |old(data)| >= HEADER_SIZE
              && KindOf(old(data)) == INPUT_EVENT && SizeOf(old(data)) == INPUT_EVENT_SIZE ==>
                && fallback == old(fallback)
                && var n := TakenBy(|old(data)|, HEADER_SIZE + INPUT_EVENT_SIZE, a.io);
                data == old(data)[n..] && (r == Error <==> n < HEADER_SIZE + INPUT_EVENT_SIZE)
    {
      if fallback || !a.ready {
        return Nothing;
      }
      if a.hup {
        fallback := true;
        return Error;
      }
      if Min(a.arrived, |data|) < HEADER_SIZE {
        return Nothing;
      }
      r := PollFrame(a.io);
    }
  }
}
