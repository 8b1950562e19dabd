// Whether the receiver's Hello gate opens, given what the send loop finds when it first takes the lock;
// and runs of both ends in which the gate closes, or a packet arrives that nobody posted.

module Gate {
  import opened Packets
  import opened Codec
  import Mux = MuxProtocol
  import MuxSafety
  import MuxRuns
  import HelloFirst
  import Demux = DemuxProtocol
  import DemuxSafety
  import DemuxRuns
  import opened Pipeline

  // ---------------------------------------------------------------------------------------------
  // The sender first, then the receiver

  lemma SenderNext(steps: seq<Step>, m: Mux.Step)
    requires Legal(steps) && Mux.Enabled(Run(steps).tx, m)
    ensures Legal(steps + [Tx(m)]) && Run(steps + [Tx(m)]) == State(Mux.Apply(Run(steps).tx, m), Run(steps).rx)
    ensures TxOf(steps + [Tx(m)]) == TxOf(steps) + [m] && RxOf(steps + [Tx(m)]) == RxOf(steps)
  {
    assert (steps + [Tx(m)])[..|steps|] == steps;
  }

  lemma {:induction false} SenderAlone(a: seq<Mux.Step>) returns (steps: seq<Step>)
    requires Mux.Legal(a)
    ensures Legal(steps) && Run(steps) == State(Mux.Run(a), Demux.Init())
    ensures TxOf(steps) == a && RxOf(steps) == []
  {
    if a == [] {
      steps := [];
    } else {
      var front := SenderAlone(a[..|a| - 1]);
      SenderNext(front, a[|a| - 1]);
      steps := front + [Tx(a[|a| - 1])];
    }
  }

  lemma ReadsOn(d: Demux.DemuxState, b: Demux.Step)
    requires Demux.Enabled(d, b)
    ensures d.consumed <= Demux.Apply(d, b).consumed
    ensures b.Take? ==> Demux.Apply(d, b).consumed == d.consumed + b.bytes
  {
    if b.Finish? {
      DemuxSafety.FinishQuiet(d);
    }
  }

  lemma LastRead(b: seq<Demux.Step>)
    requires Demux.Legal(b) && b != []
    ensures var front, last := b[..|b| - 1], b[|b| - 1];
            && b == front + [last]
            && Demux.Legal(front) && Demux.Enabled(Demux.Run(front), last)
            && Demux.Run(b) == Demux.Apply(Demux.Run(front), last)
            && Demux.Run(front).consumed <= Demux.Run(b).consumed
            && (last.Take? ==> Demux.Run(front).consumed + last.bytes <= Demux.Run(b).consumed)
  {
    ReadsOn(Demux.Run(b[..|b| - 1]), b[|b| - 1]);
  }

  lemma ReceiverNext(steps: seq<Step>, d: Demux.Step)
    requires Legal(steps) && Enabled(Run(steps), Rx(d))
    ensures Legal(steps + [Rx(d)]) && Run(steps + [Rx(d)]) == State(Run(steps).tx, Demux.Apply(Run(steps).rx, d))
    ensures TxOf(steps + [Rx(d)]) == TxOf(steps) && RxOf(steps + [Rx(d)]) == RxOf(steps) + [d]
  {
    assert (steps + [Rx(d)])[..|steps|] == steps;
  }

  lemma {:induction false} OneAfterTheOther(a: seq<Mux.Step>, b: seq<Demux.Step>) returns (steps: seq<Step>)
    requires Mux.Legal(a) && Demux.Legal(b) && Demux.Run(b).consumed <= Mux.Run(a).wire
    ensures Legal(steps) && Run(steps) == State(Mux.Run(a), Demux.Run(b))
    ensures TxOf(steps) == a && RxOf(steps) == b
    decreases |b|
  {
    if b == [] {
      steps := SenderAlone(a);
    } else {
      LastRead(b);
      var front := OneAfterTheOther(a, b[..|b| - 1]);
      steps := AddsLast(front, b);
    }
  }

  lemma AddsLast(front: seq<Step>, b: seq<Demux.Step>) returns (steps: seq<Step>)
    requires Legal(front) && Demux.Legal(b) && b != [] && RxOf(front) == b[..|b| - 1]
    requires Run(front).rx == Demux.Run(b[..|b| - 1]) && Demux.Run(b).consumed <= Run(front).tx.wire
    ensures Legal(steps) && Run(steps) == State(Run(front).tx, Demux.Run(b))
    ensures TxOf(steps) == TxOf(front) && RxOf(steps) == b
  {
    LastRead(b);
    steps := AddsStep(front, b[|b| - 1]);
  }

  lemma AddsStep(front: seq<Step>, d: Demux.Step) returns (steps: seq<Step>)
    requires Legal(front) && Demux.Enabled(Run(front).rx, d)
    requires d.Take? ==> Run(front).rx.consumed + d.bytes <= Run(front).tx.wire
    ensures Legal(steps) && Run(steps) == State(Run(front).tx, Demux.Apply(Run(front).rx, d))
    ensures TxOf(steps) == TxOf(front) && RxOf(steps) == RxOf(front) + [d]
  {
    ReceiverNext(front, d);
    steps := front + [Rx(d)];
  }

  // ---------------------------------------------------------------------------------------------
  // The gate

  ghost function Hellos(): iset<Packet>
  {
    iset p | DemuxSafety.IsHello(p)
  }

  /** In every run that begins like this on the sender's side, the gate is never closed. */
  ghost predicate GateHolds(begin: seq<Mux.Step>)
  {
    forall steps :: Legal(steps) && begin <= TxOf(steps) ==> GateOpen(steps)
  }

  ghost predicate GateOpen(steps: seq<Step>)
    requires Legal(steps)
  {
    Sticky(steps) && AllBelow(Run(steps).tx.posted, U32) ==> !Run(steps).rx.rejected
  }

  lemma GateSuffices(begin: seq<Mux.Step>, steps: seq<Step>)
    requires Mux.Legal(begin) && HelloFirst.Leads(Mux.Run(begin), Hellos())
    requires Legal(steps) && begin <= TxOf(steps)
    ensures GateOpen(steps)
  {
    if Sticky(steps) && AllBelow(Run(steps).tx.posted, U32) {
      var more := TxOf(steps)[|begin|..];
      assert TxOf(steps) == begin + more;
      TxSide(steps);
      HelloFirst.LeadsRun(begin, more, Hellos());
      RunConnected(steps);
      HelloFirst.StartedFirst(Run(steps).tx, Hellos());
      HelloOpensGate(steps);
    }
  }

  /** A receiver that is sent this packet first. */
  lemma RejectsOther(p: Packet) returns (b: seq<Demux.Step>)
    requires |p.data| < INT_LIMIT && p.kind != INVALID_PACKET && !DemuxSafety.IsHello(p)
    requires p.kind == CONTROL_PACKET ==> p.data != []
    ensures Demux.Legal(b) && Demux.Run(b).rejected && Demux.Run(b).consumed == Encode(p)
  {
    b := DemuxRuns.Receives([], p);
    assert [] + b == b;
    assert [] + Encode(p) == Encode(p);
    DemuxSafety.ArrivedData(DemuxRuns.Got(Demux.Init(), p), p);
  }

  /** The payloads fit in an int and the first control packet has a message byte. */
  ghost predicate Receivable(posted: seq<Packet>)
  {
    && AllBelow(posted, INT_LIMIT)
    && (OfType(posted, CONTROL_PACKET) != [] ==> OfType(posted, CONTROL_PACKET)[0].data != [])
  }

  lemma ReceivableFirst(posted: seq<Packet>, p: Packet)
    requires Receivable(posted) && HelloFirst.FromOutset(p, posted)
    ensures |p.data| < INT_LIMIT && (p.kind == CONTROL_PACKET ==> p.data != [])
  {
    if p != HelloFirst.NEWCOMER {
      OfTypeMembers(posted, p.kind);
      assert p in OfType(posted, p.kind);
    }
  }

  lemma GateNeeds(before: seq<Mux.Step>) returns (steps: seq<Step>)
    requires Mux.Legal(before) && Mux.Enabled(Mux.Run(before), Mux.Acquire) && Receivable(Mux.Run(before).posted)
    requires !HelloFirst.HellosAhead(Mux.Run(before), Hellos())
    ensures Legal(steps) && before + [Mux.Acquire] <= TxOf(steps) && !GateOpen(steps)
    ensures Run(steps).tx.posted <= Mux.Run(before).posted + [HelloFirst.NEWCOMER]
  {
    Mux.RunAppend(before, Mux.Acquire);
    HelloFirst.NothingSent(before);
    var begin := before + [Mux.Acquire];
    var more, p := HelloFirst.SendsOther(begin, Hellos());
    var a := begin + more;
    ReceivableFirst(Mux.Run(before).posted, p);
    var b := RejectsOther(p);
    steps := OneAfterTheOther(a, b);
    MuxSafety.UnfailedSticky(a);
    Below(Mux.Run(before).posted, Mux.Run(a).posted);
    assert begin <= a;
  }

  lemma Below(posted: seq<Packet>, later: seq<Packet>)
    requires Receivable(posted) && later <= posted + [HelloFirst.NEWCOMER]
    ensures AllBelow(later, U32)
  {
  }

  /**
   * The gate is never closed, whatever is posted later and however the bytes are cut up, if and only
   * if the send loop finds nothing but Hellos at the fronts of the queues when it first takes the
   * lock, and goes on without waiting (or the transport is down already).
   */
  lemma GateIff(before: seq<Mux.Step>)
    requires Mux.Legal(before) && Mux.Enabled(Mux.Run(before), Mux.Acquire) && Receivable(Mux.Run(before).posted)
    ensures GateHolds(before + [Mux.Acquire]) <==> HelloFirst.HellosAhead(Mux.Run(before), Hellos())
  {
    Mux.RunAppend(before, Mux.Acquire);
    HelloFirst.NothingSent(before);
    if HelloFirst.HellosAhead(Mux.Run(before), Hellos()) {
      forall steps | Legal(steps) && before + [Mux.Acquire] <= TxOf(steps)
        ensures GateOpen(steps)
      {
        GateSuffices(before + [Mux.Acquire], steps);
      }
    } else {
      var steps := GateNeeds(before);
      assert !GateOpen(steps);
    }
  }

  /** The gate also holds from where a pass reaches the control queue first, with Hello in front of it. */
  lemma GateOnVisit(before: seq<Mux.Step>)
    requires Mux.Legal(before) && Mux.Enabled(Mux.Run(before), Mux.Visit(CONTROL_PACKET))
    requires Mux.Run(before).popped == []
    requires var controls := OfType(Mux.Run(before).posted, CONTROL_PACKET);
             controls != [] && DemuxSafety.IsHello(controls[0])
    ensures GateHolds(before + [Mux.Visit(CONTROL_PACKET)])
  {
    Mux.RunAppend(before, Mux.Visit(CONTROL_PACKET));
    MuxSafety.RunKeeps(before);
    var s := Mux.Run(before);
    assert OfType(s.posted, CONTROL_PACKET) == OfType([], CONTROL_PACKET) + Mux.Queue(s.queues, CONTROL_PACKET);
    assert HelloFirst.AtHello(Mux.Run(before + [Mux.Visit(CONTROL_PACKET)]), Hellos());
    forall steps | Legal(steps) && before + [Mux.Visit(CONTROL_PACKET)] <= TxOf(steps)
      ensures GateOpen(steps)
    {
      GateSuffices(before + [Mux.Visit(CONTROL_PACKET)], steps);
    }
  }

  // ---------------------------------------------------------------------------------------------
  // Runs

  /** A user's packet posted before the send loop takes the lock can be sent first; the gate closes. */
  lemma HelloComesSecond() returns (steps: seq<Step>)
    ensures Legal(steps) && Sticky(steps) && Run(steps).rx.rejected
    ensures Run(steps).tx.posted <= [HELLO_PACKET, HelloFirst.NEWCOMER, HelloFirst.NEWCOMER]
  {
    var before := MuxRuns.Queued2(HelloFirst.NEWCOMER);
    var s := Mux.Run(before);
    assert s.posted == [HELLO_PACKET, HelloFirst.NEWCOMER];
    assert s.queues[2] == [HelloFirst.NEWCOMER] && 2 in MuxSafety.NonEmpty(s.queues);
    assert !HelloFirst.HellosAhead(s, Hellos());
    assert s.posted == [HELLO_PACKET] + [HelloFirst.NEWCOMER];
    OfTypeAppend([HELLO_PACKET], HelloFirst.NEWCOMER, CONTROL_PACKET);
    OfTypeOne(HELLO_PACKET, CONTROL_PACKET);
    steps := GateNeeds(before);
    assert s.posted + [HelloFirst.NEWCOMER] == [HELLO_PACKET, HelloFirst.NEWCOMER, HelloFirst.NEWCOMER];
  }

  /** And a packet nobody posted can reach a subscriber, if the transport fails and recovers within a frame. */
  lemma ForgedReceived() returns (steps: seq<Step>, s: Demux.Subscriber)
    ensures Legal(steps) && s in Run(steps).rx.known && Run(steps).rx.known[s].got == [MuxRuns.FORGED]
    ensures MuxRuns.FORGED !in Run(steps).tx.posted
  {
    var a := MuxRuns.DamageForges();
    var b;
    b, s := ReceivesForged();
    steps := OneAfterTheOther(a, b);
  }

  lemma ReceivesForged() returns (b: seq<Demux.Step>, s: Demux.Subscriber)
    ensures Demux.Legal(b) && Demux.Run(b).consumed == Encode(HELLO_PACKET) + Encode(MuxRuns.FORGED)
    ensures s in Demux.Run(b).known && Demux.Run(b).known[s].got == [MuxRuns.FORGED]
  {
    s := Demux.Subscriber(0, MuxRuns.FORGED.kind);
    Demux.RunAppend([], Demux.Subscribe(s));
    b := [] + [Demux.Subscribe(s)];
    var more := DemuxRuns.Receives(b, HELLO_PACKET);
    b := b + more;
    assert [] + Encode(HELLO_PACKET) == Encode(HELLO_PACKET);
    Demux.RunAppend(b, Demux.Enter);
    b := b + [Demux.Enter];
    more := DemuxRuns.Receives(b, MuxRuns.FORGED);
    b := b + more;
    b := CallsOne(b, MuxRuns.FORGED, s);
  }

  lemma CallsOne(b: seq<Demux.Step>, p: Packet, s: Demux.Subscriber) returns (b': seq<Demux.Step>)
    requires Demux.Legal(b)
    requires var d := Demux.Run(b);
             && d.phase == Demux.Holding(p) && Demux.Slots(d.subs, p.kind) == [s]
             && s in d.known && d.known[s].got == []
    ensures Demux.Legal(b') && Demux.Run(b').consumed == Demux.Run(b).consumed
    ensures s in Demux.Run(b').known && Demux.Run(b').known[s].got == [p]
  {
    Demux.RunAppend(b, Demux.Lock);
    Demux.RunAppend(b + [Demux.Lock], Demux.Call);
    b' := b + [Demux.Lock] + [Demux.Call];
  }
}
