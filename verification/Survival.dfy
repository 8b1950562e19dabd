// When the receive thread dies of an assertion or an uncaught exception.

module Survival {
  import opened Packets
  import opened Codec
  import Mux = MuxProtocol
  import MuxSafety
  import MuxRuns
  import HelloFirst
  import Demux = DemuxProtocol
  import DemuxSafety
  import DemuxRuns
  import opened Pipeline
  import Gate

  /** The message byte of the first packet, if it is a control packet, can be read. */
  ghost predicate FirstSound(ps: seq<Packet>)
  {
    ps != [] && ps[0].kind == CONTROL_PACKET ==> ps[0].data != []
  }

  /** Nothing the receive thread would die of was sent. */
  ghost predicate Harmless(tx: Mux.MuxState)
  {
    && AllBelow(tx.posted, U32)
    && AllBelow(MuxSafety.Started(tx), INT_LIMIT)
    && FirstSound(MuxSafety.Started(tx))
  }

  /**
   * The receive thread never dies if every payload sent fits in an int and the first packet sent is
   * not an empty control packet. (Later control packets may be empty: only the greeting reads them.)
   */
  lemma {:induction false} NeverAborts(steps: seq<Step>)
    requires Legal(steps) && Sticky(steps) && Harmless(Run(steps).tx)
    ensures !Run(steps).rx.phase.Aborted?
  {
    if steps != [] {
      var front, a := steps[..|steps| - 1], steps[|steps| - 1];
      StickyFront(steps);
      TxSide(front);
      MuxSafety.RunKeeps(TxOf(front));
      SenderGrows(Run(front), a);
      HarmlessBefore(Run(front).tx, Run(steps).tx);
      NeverAborts(front);
      if a == Rx(Demux.Finish) {
        FinishesWell(front);
      } else {
        OnlyFinishAborts(Run(front), a);
      }
    }
  }

  lemma HarmlessBefore(tx: Mux.MuxState, tx': Mux.MuxState)
    requires tx.posted <= tx'.posted && MuxSafety.Started(tx) <= MuxSafety.Started(tx') && Harmless(tx')
    ensures Harmless(tx)
  {
    BelowPrefix(tx.posted, tx'.posted, U32);
    BelowPrefix(MuxSafety.Started(tx), MuxSafety.Started(tx'), INT_LIMIT);
  }

  lemma BelowPrefix(a: seq<Packet>, b: seq<Packet>, limit: int)
    requires a <= b && AllBelow(b, limit)
    ensures AllBelow(a, limit)
  {
    assert forall i :: 0 <= i < |a| ==> a[i] == b[i];
  }

  lemma OnlyFinishAborts(s: State, a: Step)
    requires Enabled(s, a) && a != Rx(Demux.Finish) && !s.rx.phase.Aborted?
    ensures !Apply(s, a).rx.phase.Aborted?
  {
    if a.Rx? {
      ReceiverOnlyFinishAborts(s.rx, a.d);
    }
  }

  lemma ReceiverOnlyFinishAborts(d: Demux.DemuxState, b: Demux.Step)
    requires Demux.Enabled(d, b) && !b.Finish? && !d.phase.Aborted?
    ensures !Demux.Apply(d, b).phase.Aborted?
  {
  }

  lemma StickyFront(steps: seq<Step>)
    requires steps != [] && Legal(steps) && Sticky(steps)
    ensures Sticky(steps[..|steps| - 1])
  {
    var front := steps[..|steps| - 1];
    Sides(steps);
    Sides(front);
    if steps[|steps| - 1].Tx? {
      assert TxOf(steps)[..|TxOf(steps)| - 1] == TxOf(front);
    } else {
      assert TxOf(steps) == TxOf(front);
    }
  }

  lemma SenderGrows(s: State, a: Step)
    requires Enabled(s, a) && MuxSafety.ThreadOk(s.tx)
    ensures s.tx.posted <= Apply(s, a).tx.posted && MuxSafety.Started(s.tx) <= MuxSafety.Started(Apply(s, a).tx)
  {
    if a.Tx? {
      StepGrows(s.tx, a.m);
    }
  }

  lemma StepGrows(s: Mux.MuxState, a: Mux.Step)
    requires Mux.Enabled(s, a) && MuxSafety.ThreadOk(s)
    ensures s.posted <= Mux.Apply(s, a).posted && MuxSafety.Started(s) <= MuxSafety.Started(Mux.Apply(s, a))
  {
  }

  lemma FinishesWell(steps: seq<Step>)
    requires Legal(steps) && Sticky(steps) && Harmless(Run(steps).tx)
    requires Demux.Enabled(Run(steps).rx, Demux.Finish)
    ensures !Demux.Apply(Run(steps).rx, Demux.Finish).phase.Aborted?
  {
    Sides(steps);
    DemuxSafety.RunKeeps(RxOf(steps));
    HeaderThere(Run(steps).rx.got);
    var q := FrameBeingRead(steps);
    FinishesFrame(Run(steps).rx, q);
  }

  lemma HeaderThere(got: seq<Byte>)
    requires Demux.Want(got) == 0
    ensures 8 <= |got|
  {
  }

  /** A receiver that has read a frame's header is reading the frame of the next packet that was sent. */
  lemma FrameBeingRead(steps: seq<Step>) returns (q: Packet)
    requires Legal(steps) && Sticky(steps) && AllBelow(Run(steps).tx.posted, U32)
    requires 8 <= |Run(steps).rx.got|
    ensures q.kind != INVALID_PACKET && ReadsHeaderOf(Run(steps).rx.got, q)
    ensures var n, started := |Run(steps).rx.received|, MuxSafety.Started(Run(steps).tx);
            n < |started| && q == started[n]
  {
    RunConnected(steps);
    ReceivedStarted(Run(steps).tx, Run(steps).rx);
    q := NextPacket(Run(steps).rx.received, Run(steps).rx.got, MuxSafety.Started(Run(steps).tx));
    TxSide(steps);
    MuxSafety.StartedValid(TxOf(steps));
  }

  lemma NextPacket(a: seq<Packet>, x: seq<Byte>, b: seq<Packet>) returns (q: Packet)
    requires a <= b && EncodeAll(a) + x <= EncodeAll(b) && 8 <= |x| && AllBelow(b, U32)
    ensures |a| < |b| && q == b[|a|] && ReadsHeaderOf(x, q)
  {
    NextFrames(a, x, b);
    var rest := b[|a|..];
    assert rest != [];
    q := rest[0];
    assert q == b[|a|];
    Peel(rest);
    SameHeader(x, q, EncodeAll(rest[1..]));
  }

  lemma FinishesFrame(rx: Demux.DemuxState, q: Packet)
    requires Demux.Enabled(rx, Demux.Finish) && Demux.Want(rx.got) == 0 && ReadsHeaderOf(rx.got, q)
    requires q.kind != INVALID_PACKET && |q.data| < INT_LIMIT
    requires rx.greeting && q.kind == CONTROL_PACKET ==> q.data != []
    ensures !Demux.Apply(rx, Demux.Finish).phase.Aborted?
  {
    var r := ParseFrame(rx.got);
    assert r.Complete? && r.packet.kind == q.kind && |r.packet.data| == |q.data|;
  }

  // ---------------------------------------------------------------------------------------------
  // Exactly when, seen from where the send loop first takes the lock

  ghost predicate NeverDies(begin: seq<Mux.Step>)
  {
    forall steps :: Legal(steps) && begin <= TxOf(steps) ==> Survives(steps)
  }

  ghost predicate Survives(steps: seq<Step>)
    requires Legal(steps)
  {
    Sticky(steps) && AllBelow(Run(steps).tx.posted, INT_LIMIT) ==> !Run(steps).rx.phase.Aborted?
  }

  ghost predicate FirstControlSound(s: Mux.MuxState)
  {
    var controls := OfType(s.posted, CONTROL_PACKET);
    controls != [] && controls[0].data != []
  }

  lemma {:induction false} RunGrows(steps: seq<Mux.Step>, more: seq<Mux.Step>)
    requires Mux.Legal(steps) && Mux.Legal(steps + more)
    ensures Mux.Run(steps).posted <= Mux.Run(steps + more).posted
    decreases |more|
  {
    if more == [] {
      assert steps + more == steps;
    } else {
      Mux.LastOf(steps, more);
      RunGrows(steps, more[..|more| - 1]);
      MuxSafety.RunKeeps(steps + more[..|more| - 1]);
      StepGrows(Mux.Run(steps + more[..|more| - 1]), more[|more| - 1]);
    }
  }

  /** What is sent first is sound if the first control packet is. */
  lemma SoundStart(begin: Mux.MuxState, tx: Mux.MuxState)
    requires MuxSafety.Inv(tx) && begin.posted <= tx.posted && FirstControlSound(begin)
    ensures FirstSound(MuxSafety.Started(tx))
  {
    var started := MuxSafety.Started(tx);
    MuxSafety.StartedInOrder(tx, CONTROL_PACKET);
    OfTypePrefix(begin.posted, tx.posted, CONTROL_PACKET);
    if started != [] && started[0].kind == CONTROL_PACKET {
      FirstOfType(started);
    }
  }

  lemma FirstOfType(ps: seq<Packet>)
    requires ps != []
    ensures OfType(ps, ps[0].kind) != [] && OfType(ps, ps[0].kind)[0] == ps[0]
  {
    OfTypeOne(ps[0], ps[0].kind);
    assert [ps[0]] <= ps;
    OfTypePrefix([ps[0]], ps, ps[0].kind);
  }

  /** Nothing is sent any more once the flag is set. */
  lemma NothingStarted(begin: seq<Mux.Step>, more: seq<Mux.Step>)
    requires Mux.Legal(begin) && Mux.Legal(begin + more) && Mux.Run(begin).err && Mux.Run(begin).popped == []
    ensures MuxSafety.Started(Mux.Run(begin + more)) == []
  {
    MuxSafety.ErrorLatch(begin, more);
    MuxSafety.RunKeeps(begin + more);
  }

  lemma SurvivesFrom(begin: seq<Mux.Step>, steps: seq<Step>)
    requires Mux.Legal(begin) && Mux.Run(begin).popped == []
    requires Mux.Run(begin).err || FirstControlSound(Mux.Run(begin))
    requires Legal(steps) && begin <= TxOf(steps)
    ensures Survives(steps)
  {
    if Sticky(steps) && AllBelow(Run(steps).tx.posted, INT_LIMIT) {
      var more := TxOf(steps)[|begin|..];
      assert TxOf(steps) == begin + more;
      TxSide(steps);
      MuxSafety.RunKeeps(TxOf(steps));
      if Mux.Run(begin).err {
        NothingStarted(begin, more);
      } else {
        RunGrows(begin, more);
        SoundStart(Mux.Run(begin), Run(steps).tx);
      }
      StartedBelow(Run(steps).tx, INT_LIMIT);
      NeverAborts(steps);
    }
  }

  /** The control queue can be served first. */
  lemma ControlFirst(steps: seq<Mux.Step>) returns (more: seq<Mux.Step>)
    requires Mux.Legal(steps)
    requires var s := Mux.Run(steps);
             && s.sender.LoopHead? && !s.err && s.popped == []
             && OfType(s.posted, CONTROL_PACKET) != []
    ensures Mux.Legal(steps + more)
    ensures var s, s' := Mux.Run(steps), Mux.Run(steps + more);
            && s'.wire == Encode(OfType(s.posted, CONTROL_PACKET)[0])
            && s'.posted == s.posted && !s'.err && s'.sender.Serving?
  {
    var s := Mux.Run(steps);
    MuxSafety.RunKeeps(steps);
    HelloFirst.NothingWritten(s);
    assert OfType(s.posted, CONTROL_PACKET) == OfType([], CONTROL_PACKET) + Mux.Queue(s.queues, CONTROL_PACKET);
    MuxSafety.QueuedKinds(s, CONTROL_PACKET);
    assert steps + [] == steps;
    if s.numPosted != s.numSent {
      MuxRuns.Then(steps, [], Mux.StartPass);
      more := [] + [Mux.StartPass];
    } else {
      MuxRuns.Then(steps, [], Mux.Sleep);
      MuxRuns.Then(steps, [] + [Mux.Sleep], Mux.Wake(false));
      more := [] + [Mux.Sleep] + [Mux.Wake(false)];
    }
    MuxRuns.Then(steps, more, Mux.Visit(CONTROL_PACKET));
    more := MuxRuns.ServesFront(steps, more + [Mux.Visit(CONTROL_PACKET)]);
    var p := OfType(s.posted, CONTROL_PACKET)[0];
    assert [] + Encode(p) == Encode(p);
  }

  /** A receiver that is sent an empty control packet first. */
  lemma DiesOf(p: Packet) returns (b: seq<Demux.Step>)
    requires p.kind == CONTROL_PACKET && p.data == []
    ensures Demux.Legal(b) && Demux.Run(b).phase.Aborted? && Demux.Run(b).consumed == Encode(p)
  {
    b := DemuxRuns.Receives([], p);
    assert [] + b == b;
    assert [] + Encode(p) == Encode(p);
  }

  lemma DiesFrom(before: seq<Mux.Step>) returns (steps: seq<Step>)
    requires Mux.Legal(before) && Mux.Enabled(Mux.Run(before), Mux.Acquire) && AllBelow(Mux.Run(before).posted, INT_LIMIT)
    requires !Mux.Run(before).err && !FirstControlSound(Mux.Run(before))
    ensures Legal(steps) && before + [Mux.Acquire] <= TxOf(steps) && !Survives(steps)
  {
    var begin := before + [Mux.Acquire];
    Mux.RunAppend(before, Mux.Acquire);
    HelloFirst.NothingSent(before);
    HelloFirst.HelloIsPosted(before);
    MuxSafety.RunKeeps(before);
    HelloFirst.HelloIsQueued(Mux.Run(before));
    var p := OfType(Mux.Run(before).posted, CONTROL_PACKET)[0];
    OfTypeMembers(Mux.Run(before).posted, CONTROL_PACKET);
    assert p in OfType(Mux.Run(before).posted, CONTROL_PACKET);
    var more := ControlFirst(begin);
    var b := DiesOf(p);
    MuxSafety.UnfailedSticky(begin + more);
    steps := Gate.OneAfterTheOther(begin + more, b);
    assert begin <= begin + more;
  }

  /**
   * As long as the payloads fit in an int, the receive thread never dies, whatever is posted later and
   * however the bytes are cut up, if and only if the first control packet posted before the send loop
   * first takes the lock has a message byte (or the sender's flag is set already).
   */
  lemma NeverDiesIff(before: seq<Mux.Step>)
    requires Mux.Legal(before) && Mux.Enabled(Mux.Run(before), Mux.Acquire) && AllBelow(Mux.Run(before).posted, INT_LIMIT)
    ensures NeverDies(before + [Mux.Acquire]) <==> Mux.Run(before).err || FirstControlSound(Mux.Run(before))
  {
    Mux.RunAppend(before, Mux.Acquire);
    HelloFirst.NothingSent(before);
    if Mux.Run(before).err || FirstControlSound(Mux.Run(before)) {
      forall steps | Legal(steps) && before + [Mux.Acquire] <= TxOf(steps)
        ensures Survives(steps)
      {
        SurvivesFrom(before + [Mux.Acquire], steps);
      }
    } else {
      var steps := DiesFrom(before);
      assert !Survives(steps);
    }
  }

  /** An empty control packet posted before the send thread's Hello kills the receive thread. */
  lemma EmptyControlKills() returns (steps: seq<Step>)
    ensures Legal(steps) && Sticky(steps) && Run(steps).rx.phase.Aborted?
  {
    var p := Packet(CONTROL_PACKET, []);
    Mux.RunAppend([], Mux.Post(p));
    Mux.RunAppend([] + [Mux.Post(p)], Mux.Greet);
    var before := [] + [Mux.Post(p)] + [Mux.Greet];
    var s := Mux.Run(before);
    assert s.posted == [p] + [HELLO_PACKET];
    OfTypeAppend([p], HELLO_PACKET, CONTROL_PACKET);
    OfTypeOne(p, CONTROL_PACKET);
    steps := DiesFrom(before);
  }
}
