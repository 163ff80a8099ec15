/**
 Whole conversations on the data stream: any interleaving of pushes and polls, each with its
 own short counts, interrupts and failures.
 */
module WireRuns {
  import opened Messages
  import opened Wire

  datatype Traffic = Push(f: Frame, io: seq<Io>) | Poll(a: Attempt)

  /** The frames pushed, in order. */
  function Pushed(steps: seq<Traffic>): seq<Frame> {
    if steps == [] then []
    else
      var last := steps[|steps| - 1];
      Pushed(steps[..|steps| - 1]) + if last.Push? then [last.f] else []
  }

  /** The input events and window commands among some frames, in order. */
  function Heard(fs: seq<Frame>): seq<Polled> {
    if fs == [] then []
    else
      var m := Meaning(fs[|fs| - 1]);
      Heard(fs[..|fs| - 1]) + if m == Nothing then [] else [m]
  }

  /** Whether the caller of poll_display_event hears of a frame. */
  predicate Spoken(f: Frame) { f.kind == INPUT_EVENT || f.kind == WINDOW_COMMAND }

  /** The results are the frames at the positions `at`: these are, in order, exactly the input
      events and window commands among the first `n` frames, each with its payload. */
  predicate Answers(fs: seq<Frame>, n: nat, results: seq<Polled>, at: seq<nat>) {
    && |at| == |results| && n <= |fs|
    && (forall i | 0 <= i < |at| :: at[i] < n && Answer(fs[at[i]], results[i]))
    && (forall i, j | 0 <= i < j < |at| :: at[i] < at[j])
    && (forall k: nat | k < n && Spoken(fs[k]) :: k in at)
  }

  /** What the caller hears of such a frame: its payload, as what it is. */
  predicate Answer(f: Frame, r: Polled) {
    (f.kind == INPUT_EVENT && r == Input(f.payload)) || (f.kind == WINDOW_COMMAND && r == Command(f.payload))
  }

  lemma AnswersMore(fs: seq<Frame>, n: nat, rs: seq<Polled>, at: seq<nat>, rs': seq<Polled>, at': seq<nat>)
    requires n < |fs| && Answers(fs, n, rs, at)
    requires if Spoken(fs[n]) then at' == at + [n] && |rs'| == |rs| + 1 && rs <= rs' && Answer(fs[n], rs'[|rs|])
             else at' == at && rs' == rs
    ensures Answers(fs, n + 1, rs', at')
  {
    if Spoken(fs[n]) {
      forall i | 0 <= i < |at'| ensures at'[i] < n + 1 && Answer(fs[at'[i]], rs'[i]) {
        if i < |at| { assert at'[i] == at[i] && rs'[i] == rs[i]; }
      }
      forall k: nat | k < n + 1 && Spoken(fs[k]) ensures k in at' { if k < n { assert k in at; } }
    }
  }

  lemma HeardOne(fs: seq<Frame>, n: nat, rs: seq<Polled>, rs': seq<Polled>)
    requires n < |fs| && rs == Heard(fs[..n]) && rs' == Heard(fs[..n + 1])
    ensures if Spoken(fs[n]) then |rs'| == |rs| + 1 && rs <= rs' && Answer(fs[n], rs'[|rs|]) else rs' == rs
  {
    HeardNext(fs, n);
  }

  lemma {:induction false} HeardAnswers(fs: seq<Frame>, n: nat) returns (at: seq<nat>)
    requires n <= |fs|
    ensures Answers(fs, n, Heard(fs[..n]), at)
  {
    if n == 0 {
      at := [];
    } else {
      var before := HeardAnswers(fs, n - 1);
      HeardOne(fs, n - 1, Heard(fs[..n - 1]), Heard(fs[..n]));
      at := if Spoken(fs[n - 1]) then before + [n - 1] else before;
      AnswersMore(fs, n - 1, Heard(fs[..n - 1]), before, Heard(fs[..n]), at);
    }
  }

  /** How many frames have been read once every poll that looks at one reads it. */
  function Consumed(steps: seq<Traffic>): (n: nat)
    ensures n <= |Pushed(steps)|
  {
    if steps == [] then 0
    else
      var before, last := steps[..|steps| - 1], steps[|steps| - 1];
      if last.Poll? && Looks(last.a) && Consumed(before) < |Pushed(before)|
      then Consumed(before) + 1 else Consumed(before)
  }

  /** A step without failures: a frame the reader accepts, pushed steadily; or a poll without
      a hang-up whose reads, if any, are steady. */
  predicate Smooth(t: Traffic) {
    match t
    case Push(f, io) => Acceptable(f.kind, |f.payload|) && Steady(io) && Moves(io) >= |Encode(f)|
    case Poll(a) => !a.hup && Steady(a.io) && Moves(a.io) >= HEADER_SIZE + MAX_DISCARD
  }

  lemma {:induction false} SmoothFrames(steps: seq<Traffic>, k: nat)
    requires forall i | 0 <= i < |steps| :: Smooth(steps[i])
    requires k < |Pushed(steps)|
    ensures Acceptable(Pushed(steps)[k].kind, |Pushed(steps)[k].payload|)
  {
    var before := steps[..|steps| - 1];
    if k < |Pushed(before)| {
      SmoothFrames(before, k);
    } else {
      assert Smooth(steps[|steps| - 1]);
    }
  }

  /** The stream after `n` of the frames `fs` have been read starts with the next one. */
  lemma NextFrame(fs: seq<Frame>, n: nat)
    requires n < |fs|
    ensures EncodeAll(fs[n..]) == Encode(fs[n]) + EncodeAll(fs[n + 1..])
    ensures Whole(EncodeAll(fs[n..])) && Decode(EncodeAll(fs[n..])) == fs[n]
  {
    assert fs[n..][0] == fs[n] && fs[n..][1..] == fs[n + 1..];
    DecodeEncoded(fs[n], EncodeAll(fs[n + 1..]));
  }

  lemma HeardNext(fs: seq<Frame>, n: nat)
    requires n < |fs|
    ensures Heard(fs[..n + 1]) == Heard(fs[..n]) + if Meaning(fs[n]) == Nothing then [] else [Meaning(fs[n])]
  {
    assert fs[..n + 1][..n] == fs[..n];
  }

  lemma PushedMore(fs: seq<Frame>, f: Frame, n: nat)
    requires n <= |fs|
    ensures (fs + [f])[..n] == fs[..n] && EncodeAll((fs + [f])[n..]) == EncodeAll(fs[n..]) + Encode(f)
  {
    assert (fs + [f])[n..] == fs[n..] + [f];
    EncodeAppended(fs[n..], f);
  }

  // ---------------------------------------------------------------- failed reads

  /** The stream can still be cut at a frame: some of the frames from `n` on are left, whole. */
  ghost predicate Cut(fs: seq<Frame>, n: nat, data: seq<Byte>) {
    exists m: nat :: n <= m <= |fs| && data == EncodeAll(fs[m..])
  }

  lemma {:induction false} ShorterFrom(fs: seq<Frame>, n: nat, m: nat)
    requires n <= m <= |fs|
    ensures |EncodeAll(fs[m..])| <= |EncodeAll(fs[n..])|
    decreases m - n
  {
    if n < m {
      NextFrame(fs, n);
      ShorterFrom(fs, n + 1, m);
    }
  }

  /** A torn stream cannot be cut at a frame any more. */
  lemma TornNotCut(fs: seq<Frame>, n: nat, data: seq<Byte>)
    requires n <= |fs| && Torn(EncodeAll(fs[n..]), data)
    ensures !Cut(fs, n, data)
  {
    if n < |fs| {
      NextFrame(fs, n);
      DecodeEncoded(fs[n], EncodeAll(fs[n + 1..]));
      forall m: nat | n <= m <= |fs| ensures data != EncodeAll(fs[m..]) {
        if m > n { ShorterFrom(fs, n + 1, m); }
      }
    }
  }

  /** One poll on a stream from which `n` of the frames `fs` have been read.  After a failed
      poll the stream can still be cut at a frame if and only if the poll read nothing. */
  method PollOne(ch: Channel, a: Attempt, ghost fs: seq<Frame>, ghost n: nat) returns (r: Polled, ghost n': nat)
    requires n <= |fs| && ch.data == EncodeAll(fs[n..]) && !ch.fallback
    modifies ch
    ensures n <= n' <= |fs| && n' <= n + 1
    ensures r != Error ==> ch.data == EncodeAll(fs[n'..]) && !ch.fallback
    ensures r != Error ==> Heard(fs[..n']) == Heard(fs[..n]) + if r == Nothing then [] else [r]
    ensures r != Error ==> if n' == n then r == Nothing else if Spoken(fs[n]) then Answer(fs[n], r) else r == Nothing
    ensures Smooth(Poll(a)) && (forall k | 0 <= k < |fs| :: Acceptable(fs[k].kind, |fs[k].payload|)) ==>
              r != Error && n' == if Looks(a) && n < |fs| then n + 1 else n
    ensures r == Error ==> (Cut(fs, n, ch.data) <==> ch.data == old(ch.data))
  {
    ghost var was := ch.data;
    n' := n;
    if n < |fs| { NextFrame(fs, n); HeardNext(fs, n); }
    r := ch.PollDisplayEvent(a);
    if r != Error && ch.data != was {
      n' := n + 1;
      CutOnce(fs[n], EncodeAll(fs[n + 1..]), fs[n], ch.data);
    }
    if r == Error && ch.data != was { TornNotCut(fs, n, ch.data); }
  }

  /** An input event whose first bytes look like a window command. */
  function Disguised(command: Frame): Frame
    requires command.kind == WINDOW_COMMAND && |command.payload| == WINDOW_COMMAND_SIZE
  {
    Frame(INPUT_EVENT, Encode(command) + [0, 0, 0, 0])
  }

  lemma TakesHeader()
    ensures var size := HEADER_SIZE + INPUT_EVENT_SIZE; TakenBy(size, size, [Moved(HEADER_SIZE), Failed]) == HEADER_SIZE
  {
    var io := [Moved(HEADER_SIZE), Failed];
    assert io[1..] == [Failed];
  }

  lemma AfterHeader(f: Frame)
    ensures Encode(f)[HEADER_SIZE..] == f.payload
  {
  }

  /** The code does hand out events nobody sent: the only frame sent is an input event, the
      read of it fails after the header, and the next poll returns a window command. */
  method Phantom(command: Frame, out: seq<Io>, io: seq<Io>) returns (first: Polled, second: Polled, sent: Frame)
    requires command.kind == WINDOW_COMMAND && |command.payload| == WINDOW_COMMAND_SIZE
    requires Steady(out) && Moves(out) >= HEADER_SIZE + INPUT_EVENT_SIZE
    requires Steady(io) && Moves(io) >= HEADER_SIZE + WINDOW_COMMAND_SIZE
    ensures sent.kind == INPUT_EVENT && Acceptable(sent.kind, |sent.payload|)
    ensures first == Error && second == Command(command.payload)
  {
    var ch := new Channel();
    sent := Disguised(command);
    var _, _ := ch.SendAll(Encode(sent), out);
    DecodeEncoded(sent, []);
    assert Encode(sent) + [] == Encode(sent);
    TakesHeader();
    first := ch.PollDisplayEvent(Attempt(true, false, HEADER_SIZE, [Moved(HEADER_SIZE), Failed]));
    AfterHeader(sent);
    assert ch.data == Encode(command) + [0, 0, 0, 0];
    DecodeEncoded(command, [0, 0, 0, 0]);
    second := ch.PollDisplayEvent(Attempt(true, false, HEADER_SIZE, io));
  }

  ghost predicate AllSmooth(steps: seq<Traffic>) { forall i | 0 <= i < |steps| :: Smooth(steps[i]) }

  /** The stream and the results after some steps, of which `n` frames have been read. */
  ghost predicate Told(steps: seq<Traffic>, results: seq<Polled>, left: seq<Byte>, n: nat) {
    n <= |Pushed(steps)| && results == Heard(Pushed(steps)[..n]) && left == EncodeAll(Pushed(steps)[n..])
  }

  lemma OneMore(before: seq<Traffic>, t: Traffic, after: seq<Traffic>)
    requires after == before + [t]
    ensures Pushed(after) == if t.Push? then Pushed(before) + [t.f] else Pushed(before)
    ensures Consumed(after)
         == if t.Poll? && Looks(t.a) && Consumed(before) < |Pushed(before)|
            then Consumed(before) + 1 else Consumed(before)
  {
    assert after[..|after| - 1] == before && after[|after| - 1] == t;
  }

  /** One step of a conversation. */
  method Next(ch: Channel, ghost before: seq<Traffic>, t: Traffic, ghost after: seq<Traffic>,
              results: seq<Polled>, ghost n: nat)
    returns (ok: bool, results': seq<Polled>, ghost n': nat)
    requires after == before + [t] && Told(before, results, ch.data, n) && !ch.fallback
    modifies ch
    ensures ok ==> Told(after, results', ch.data, n') && !ch.fallback
    ensures AllSmooth(before) && Smooth(t) && n == Consumed(before) ==> ok && n' == Consumed(after)
  {
    ghost var fs := Pushed(before);
    OneMore(before, t, after);
    results', n' := results, n;
    match t
    case Push(f, io) =>
      var sent, _ := ch.SendAll(Encode(f), io);
      PushedMore(fs, f, n);
      ok := sent;
    case Poll(a) =>
      if AllSmooth(before) {
        forall k | 0 <= k < |fs| ensures Acceptable(fs[k].kind, |fs[k].payload|) { SmoothFrames(before, k); }
      }
      var r;
      r, n' := PollOne(ch, a, fs, n);
      ok := r != Error;
      results' := results + if r == Nothing then [] else [r];
  }

  /** Any conversation that meets no failure: the results are exactly the input events and
      window commands among the first frames pushed, in order, and what is left in the
      stream is exactly the remaining frames.  If every step is smooth there is no failure,
      and every poll that finds a frame reads it. */
  method Converse(steps: seq<Traffic>)
    returns (ok: bool, results: seq<Polled>, left: seq<Byte>, ghost n: nat, ghost at: seq<nat>)
    ensures ok ==> Told(steps, results, left, n) && Answers(Pushed(steps), n, results, at)
    ensures AllSmooth(steps) ==> ok && n == Consumed(steps)
  {
    var ch := new Channel();
    n, at, results := 0, [], [];
    assert steps[..0] == [];
    for i := 0 to |steps|
      invariant fresh(ch) && !ch.fallback
      invariant Told(steps[..i], results, ch.data, n)
      invariant AllSmooth(steps) ==> n == Consumed(steps[..i])
    {
      assert steps[..i + 1] == steps[..i] + [steps[i]];
      ok, results, n := Next(ch, steps[..i], steps[i], steps[..i + 1], results, n);
      if !ok {
        return false, results, ch.data, n, at;
      }
    }
    assert steps[..|steps|] == steps;
    at := HeardAnswers(Pushed(steps), n);
    return true, results, ch.data, n, at;
  }
}
