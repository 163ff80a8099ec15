/**
 What holds after every history of the display protocol: any number of consumers and
 producers, any interleaving, any failure of any system call.
 */
module ProtocolSafety {
  import opened DisplayDaemon
  import opened Contexts
  import opened Protocol
  import opened ProtocolInv
  import opened ProtocolSteps
  import opened ProtocolDaemon

  // ---------------------------------------------------------------- connecting, announcing, leaving

  lemma ConsumerConnectsShape(w: World, w': World)
    requires Shape(w) && w' == Happen(w, ConsumerConnects)
    ensures Shape(w') && ConnectConsumer().x.made == 1
  {
  }

  lemma NewConsumerOk(w: World, w': World)
    requires Shape(w) && DepositOk(w) && w' == Happen(w, ConsumerConnects)
    ensures ConsumerOk(w', w.next) && SessionInv(w', Gen(w.next, 0)) && DepositOk(w')
  {
    assert ConnectConsumer().x.up == [Hello(0)];
    assert Hellos([Hello(0)][1..]) == [];
  }

  lemma ConsumerConnectsOthers(w: World, w': World)
    requires Shape(w) && Producers(w) && Sessions(w) && w' == Happen(w, ConsumerConnects)
    requires SessionInv(w', Gen(w.next, 0))
    ensures Producers(w') && Sessions(w')
  {
    assert SameFar(w, w');
    forall p | p in w'.ps ensures ProducerOk(w', p) { ProducerFrame(w, w', p); }
    forall g | g in w'.ss ensures SessionInv(w', g) { if g != Gen(w.next, 0) { SessionFrame(w, w', g); } }
  }

  lemma ConsumerConnectsKeeps(w: World, w': World)
    requires Inv(w) && w' == Happen(w, ConsumerConnects)
    ensures Inv(w')
  {
    ConsumerConnectsShape(w, w');
    NewConsumerOk(w, w');
    ConsumerConnectsOthers(w, w');
    assert Consumers(w') by {
      forall c | c in w'.cs ensures ConsumerOk(w', c) { if c != w.next { ConsumerFrame(w, w', c); } }
    }
  }

  lemma ProducerConnectsKeeps(w: World, w': World)
    requires Inv(w) && w' == Happen(w, ProducerConnects)
    ensures Inv(w')
  {
    assert Consumers(w') by { forall c | c in w'.cs ensures ConsumerOk(w', c) { ConsumerFrame(w, w', c); } }
    assert Producers(w') by {
      forall p | p in w'.ps ensures ProducerOk(w', p) { if p != w.next { ProducerFrame(w, w', p); } }
    }
    assert Sessions(w') by {
      forall g | g in w'.ss ensures SessionInv(w', g) { assert SessionInv(w, g); NewProducerSession(w, w', g); }
    }
  }

  lemma NewProducerSession(w: World, w': World, g: Gen)
    requires SessionInv(w, g) && w.next !in w.ps && w' == Happen(w, ProducerConnects)
    ensures SessionInv(w', g)
  {
  }

  lemma AnnouncesConsumer(w: World, c: Conn, si: Screen, w': World)
    requires ConsumerOk(w, c) && Linked(w, c)
    requires w' == w.(cs := w.cs[c := w.cs[c].(up := w.cs[c].up + [Announce(si)])])
    ensures ConsumerOk(w', c)
  {
    HellosAppended(w.cs[c].up, Announce(si));
  }

  lemma AnnouncesKeeps(w: World, c: Conn, si: Screen, w': World)
    requires Inv(w) && c in w.cs && Linked(w, c)
    requires w' == w.(cs := w.cs[c := w.cs[c].(up := w.cs[c].up + [Announce(si)])])
    ensures Inv(w')
  {
    assert ConsumerOk(w, c);
    AnnouncesConsumer(w, c, si, w');
    assert Consumers(w') by {
      forall c' | c' in w'.cs ensures ConsumerOk(w', c') { if c' != c { ConsumerFrame(w, w', c'); } }
    }
    assert Producers(w') by { forall p | p in w'.ps ensures ProducerOk(w', p) { ProducerFrame(w, w', p); } }
    assert Sessions(w') by {
      forall g | g in w'.ss ensures SessionInv(w', g) { assert SessionInv(w, g); UpChanged(w, c, w', g); }
    }
  }

  lemma ConsumerLeavesKeeps(w: World, c: Conn, w': World)
    requires Inv(w) && c in w.cs && w' == w.(cs := w.cs[c := w.cs[c].(alive := false)])
    ensures Inv(w')
  {
    assert Consumers(w') by {
      forall c' | c' in w'.cs ensures ConsumerOk(w', c') { assert ConsumerOk(w, c'); LeftConsumer(w, c, w', c'); }
    }
    assert Producers(w') by { forall p | p in w'.ps ensures ProducerOk(w', p) { ProducerFrame(w, w', p); } }
    assert Sessions(w') by {
      forall g | g in w'.ss ensures SessionInv(w', g) { assert SessionInv(w, g); LeftSession(w, c, w', g); }
    }
  }

  lemma LeftConsumer(w: World, c: Conn, w': World, c': Conn)
    requires ConsumerOk(w, c') && c in w.cs && w' == w.(cs := w.cs[c := w.cs[c].(alive := false)])
    ensures ConsumerOk(w', c')
  {
  }

  lemma LeftSession(w: World, c: Conn, w': World, g: Gen)
    requires SessionInv(w, g) && c in w.cs && w' == w.(cs := w.cs[c := w.cs[c].(alive := false)])
    ensures SessionInv(w', g)
  {
  }

  // ---------------------------------------------------------------- every step

  lemma WaitKeeps(w: World, p: Conn, g: Gen, hup: bool, w': World)
    requires Inv(w) && InSession(w, p) && g == w.ps[p].session.value && !w.ps[p].holds
    requires w' == PutProducer(w, p, g, WaitBuffer(PSideOf(w, p), hup))
    ensures Inv(w')
  {
    assert ProducerOk(w, p) && SessionInv(w, g);
    WaitEffect(w, p, g, hup, w');
    WorkedKeeps(w, p, g, WaitBuffer(PSideOf(w, p), hup), w');
  }

  lemma TriggerKeeps(w: World, p: Conn, g: Gen, w': World)
    requires Inv(w) && InSession(w, p) && g == w.ps[p].session.value && w.ps[p].holds
    requires w' == PutProducer(w, p, g, TriggerRefresh(PSideOf(w, p)))
    ensures Inv(w')
  {
    assert ProducerOk(w, p) && SessionInv(w, g);
    TriggerEffect(w, p, g, w');
    WorkedKeeps(w, p, g, TriggerRefresh(PSideOf(w, p)), w');
  }

  lemma PollKeeps(w: World, p: Conn, g: Gen, hup: bool, w': World)
    requires Inv(w) && InSession(w, p) && g == w.ps[p].session.value && w.ps[p].table != []
    requires w' == PutProducer(w, p, g, PollDisplay(PSideOf(w, p), hup))
    ensures Inv(w')
  {
    assert ProducerOk(w, p) && SessionInv(w, g);
    PollEffect(w, p, g, hup, w');
    WorkedKeeps(w, p, g, PollDisplay(PSideOf(w, p), hup), w');
  }

  /** What a call of the producer library makes of the world. */
  lemma ProducerCalled(w: World, h: Happening, w': World)
    requires (h.ProducerWaits? || h.ProducerTriggers? || h.ProducerPolls?) && w' == Happen(w, h)
    ensures w' == w || InSession(w, h.p)
    ensures var p := h.p;
            w' == w ||
            var g, b := w.ps[p].session.value, PSideOf(w, p);
            match h
            case ProducerWaits(_, broken) =>
              !w.ps[p].holds && w' == PutProducer(w, p, g, WaitBuffer(b, broken || !ConsumerEndOpen(w, g)))
            case ProducerTriggers(_) => w.ps[p].holds && w' == PutProducer(w, p, g, TriggerRefresh(b))
            case ProducerPolls(_, broken) =>
              w.ps[p].table != [] && w' == PutProducer(w, p, g, PollDisplay(b, broken || !ConsumerEndOpen(w, g)))
            case _ => true
  {
  }

  lemma ProducerCallKeeps(w: World, h: Happening, w': World)
    requires Inv(w) && (h.ProducerWaits? || h.ProducerTriggers? || h.ProducerPolls?) && w' == Happen(w, h)
    ensures Inv(w')
  {
    ProducerCalled(w, h, w');
    if w' != w {
      var p, g := h.p, w.ps[h.p].session.value;
      match h
      case ProducerWaits(_, broken) => WaitKeeps(w, p, g, broken || !ConsumerEndOpen(w, g), w');
      case ProducerTriggers(_) => TriggerKeeps(w, p, g, w');
      case ProducerPolls(_, broken) => PollKeeps(w, p, g, broken || !ConsumerEndOpen(w, g), w');
    }
  }

  predicate FromDaemon(h: Happening) { h.Accepts? || h.ReadsConsumer? || h.ReadsProducer? || h.Hangs? }

  predicate FromConsumer(h: Happening) {
    ConsumerCallOf(h) || h.ConsumerConnects? || h.ConsumerAnnounces? || h.ConsumerLeaves?
  }

  lemma DaemonEventKeeps(w: World, h: Happening)
    requires Inv(w) && FromDaemon(h)
    ensures Inv(Happen(w, h))
  {
    match h
    case Accepts(readable, sends) => AcceptNextKeeps(w, readable, sends);
    case ReadsConsumer(sends) => ReadConsumerKeeps(w, sends);
    case ReadsProducer(sends) => ReadProducerKeeps(w, sends);
    case Hangs(c) => HangUpKeeps(w, c);
  }

  /** What a call of the consumer library makes of the world. */
  lemma ConsumerCalled(w: World, h: Happening, w': World)
    requires ConsumerCallOf(h) && w' == Happen(w, h)
    ensures w' == w
         || (Awake(w, h.c) && ConsumerCall(w, h).x.made > 0 && (h.ConsumerSelects? ==> !w.cs[h.c].pending)
             && w' == PutConsumer(w, h.c, ConsumerCall(w, h)))
  {
  }

  lemma CallStepKeeps(w: World, h: Happening, w': World)
    requires Inv(w) && ConsumerCallOf(h) && w' == Happen(w, h)
    ensures Inv(w')
  {
    ConsumerCalled(w, h, w');
    if w' != w { ConsumerCallKeeps(w, h, w'); }
  }

  lemma ConsumerEventKeeps(w: World, h: Happening)
    requires Inv(w) && FromConsumer(h)
    ensures Inv(Happen(w, h))
  {
    if h.ConsumerConnects? {
      ConsumerConnectsKeeps(w, Happen(w, h));
    } else if ConsumerCallOf(h) {
      CallStepKeeps(w, h, Happen(w, h));
    } else if Awake(w, h.c) {
      if h.ConsumerLeaves? {
        ConsumerLeavesKeeps(w, h.c, Happen(w, h));
      } else if Linked(w, h.c) {
        AnnouncesKeeps(w, h.c, h.si, Happen(w, h));
      }
    }
  }

  lemma ProducerEventKeeps(w: World, h: Happening)
    requires Inv(w) && !FromDaemon(h) && !FromConsumer(h)
    ensures Inv(Happen(w, h))
  {
    if h.ProducerConnects? {
      ProducerConnectsKeeps(w, Happen(w, h));
    } else if h.ProducerWaits? || h.ProducerTriggers? || h.ProducerPolls? {
      ProducerCallKeeps(w, h, Happen(w, h));
    } else if h.p in w.ps && w.ps[h.p].alive {
      if h.ProducerAsks? {
        var n := w.ps[h.p].pickups + 1;
        PickupReadKeeps(w, h.p, n, w.(ps := w.ps[h.p := w.ps[h.p].(pickups := n)]));
      } else if h.ProducerReads? {
        if w.ps[h.p].session.None? && w.ps[h.p].down != [] { ReadMailKeeps(w, h.p, h.mapOk, Happen(w, h)); }
      } else {
        LeavesKeeps(w, h.p, Happen(w, h));
      }
    }
  }

  /** One step of any party keeps the invariant. */
  lemma StepKeepsInv(w: World, h: Happening)
    requires Inv(w)
    ensures Inv(Happen(w, h))
  {
    if FromDaemon(h) {
      DaemonEventKeeps(w, h);
    } else if FromConsumer(h) {
      ConsumerEventKeeps(w, h);
    } else {
      ProducerEventKeeps(w, h);
    }
  }

  /** The invariant holds after every history. */
  lemma {:induction false} EveryHistory(hs: seq<Happening>)
    ensures Inv(History(hs))
  {
    if hs != [] {
      EveryHistory(hs[..|hs| - 1]);
      StepKeepsInv(History(hs[..|hs| - 1]), hs[|hs| - 1]);
    }
  }
}
