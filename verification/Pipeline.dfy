// Both ends and the byte stream between them: posters, send thread, receive thread, subscribers and
// destructors in any interleaving, with any fragmentation of writes and reads.

module Pipeline {
  import opened Packets
  import opened Codec
  import Mux = MuxProtocol
  import MuxSafety
  import Demux = DemuxProtocol
  import DemuxSafety
  import opened Muxer
  import opened Demuxer

  datatype State = State(tx: Mux.MuxState, rx: Demux.DemuxState)

  datatype Step = Tx(m: Mux.Step) | Rx(d: Demux.Step)

  /** The stream is reliable: a read returns the next bytes on the wire. */
  predicate Enabled(s: State, a: Step)
  {
    match a
    case Tx(m) => Mux.Enabled(s.tx, m)
    case Rx(d) =>
      Demux.Enabled(s.rx, d) && (d.Take? ==> s.rx.consumed + d.bytes <= s.tx.wire)
  }

  function Apply(s: State, a: Step): State
    requires Enabled(s, a)
  {
    match a
    case Tx(m) => s.(tx := Mux.Apply(s.tx, m))
    case Rx(d) => s.(rx := Demux.Apply(s.rx, d))
  }

  predicate Legal(steps: seq<Step>)
    decreases |steps|, 0
  {
    steps == [] ||
    (Legal(steps[..|steps| - 1]) && Enabled(Run(steps[..|steps| - 1]), steps[|steps| - 1]))
  }

  function Run(steps: seq<Step>): State
    requires Legal(steps)
    decreases |steps|, 1
  {
    if steps == [] then State(Mux.Init(), Demux.Init())
    else Apply(Run(steps[..|steps| - 1]), steps[|steps| - 1])
  }

  /** What each side does in a run. */
  function TxOf(steps: seq<Step>): seq<Mux.Step>
  {
    if steps == [] then []
    else
      var a := steps[|steps| - 1];
      TxOf(steps[..|steps| - 1]) + (if a.Tx? then [a.m] else [])
  }

  function RxOf(steps: seq<Step>): seq<Demux.Step>
  {
    if steps == [] then []
    else
      var a := steps[|steps| - 1];
      RxOf(steps[..|steps| - 1]) + (if a.Rx? then [a.d] else [])
  }

  lemma TxKeepsStream(m: Mux.MuxState, a: Mux.Step, consumed: seq<Byte>)
    requires Mux.Enabled(m, a) && consumed <= m.wire
    ensures consumed <= Mux.Apply(m, a).wire
  {
  }

  lemma RxKeepsStream(d: Demux.DemuxState, a: Demux.Step, wire: seq<Byte>)
    requires Demux.Enabled(d, a) && d.consumed <= wire && (a.Take? ==> d.consumed + a.bytes <= wire)
    ensures Demux.Apply(d, a).consumed <= wire
  {
    if a.Finish? {
      DemuxSafety.FinishQuiet(d);
    }
  }

  lemma {:induction false} TxSide(steps: seq<Step>)
    requires Legal(steps)
    ensures Mux.Legal(TxOf(steps)) && Mux.Run(TxOf(steps)) == Run(steps).tx
  {
    if steps != [] {
      var front, a := steps[..|steps| - 1], steps[|steps| - 1];
      TxSide(front);
      if a.Tx? {
        Mux.RunAppend(TxOf(front), a.m);
      } else {
        assert TxOf(steps) == TxOf(front);
      }
    }
  }

  lemma {:induction false} RxSide(steps: seq<Step>)
    requires Legal(steps)
    ensures Demux.Legal(RxOf(steps)) && Demux.Run(RxOf(steps)) == Run(steps).rx
  {
    if steps != [] {
      var front, a := steps[..|steps| - 1], steps[|steps| - 1];
      RxSide(front);
      if a.Rx? {
        Demux.RunAppend(RxOf(front), a.d);
      } else {
        assert RxOf(steps) == RxOf(front);
      }
    }
  }

  lemma {:induction false} ReadsWire(steps: seq<Step>)
    requires Legal(steps)
    ensures Run(steps).rx.consumed <= Run(steps).tx.wire
  {
    if steps != [] {
      var front, a := steps[..|steps| - 1], steps[|steps| - 1];
      ReadsWire(front);
      match a
      case Tx(m) => TxKeepsStream(Run(front).tx, m, Run(front).rx.consumed);
      case Rx(d) => RxKeepsStream(Run(front).rx, d, Run(front).tx.wire);
    }
  }

  /** Each side of a run is a run of that side, and the receiver has read a prefix of the wire. */
  lemma Sides(steps: seq<Step>)
    requires Legal(steps)
    ensures Mux.Legal(TxOf(steps)) && Mux.Run(TxOf(steps)) == Run(steps).tx
    ensures Demux.Legal(RxOf(steps)) && Demux.Run(RxOf(steps)) == Run(steps).rx
    ensures Run(steps).rx.consumed <= Run(steps).tx.wire
  {
    TxSide(steps);
    RxSide(steps);
    ReadsWire(steps);
  }

  /** The sender's transport takes no more of a frame once a write of that frame has failed. */
  ghost predicate Sticky(steps: seq<Step>)
    requires Legal(steps)
  {
    TxSide(steps);
    Mux.Sticky(TxOf(steps))
  }

  /** A sender whose last frame was at worst cut short, and a receiver that has read a prefix of its wire. */
  ghost predicate Connected(tx: Mux.MuxState, rx: Demux.DemuxState)
  {
    && MuxSafety.Inv(tx) && MuxSafety.CleanNow(tx)
    && DemuxSafety.Inv(rx)
    && rx.consumed <= tx.wire
    && AllBelow(tx.posted, U32)
  }

  lemma RunConnected(steps: seq<Step>)
    requires Legal(steps) && Sticky(steps) && AllBelow(Run(steps).tx.posted, U32)
    ensures Connected(Run(steps).tx, Run(steps).rx)
  {
    Sides(steps);
    MuxSafety.RunKeeps(TxOf(steps));
    MuxSafety.StickyClean(TxOf(steps));
    DemuxSafety.RunKeeps(RxOf(steps));
  }

  /** What was received is a prefix of what sendPacket was called on. */
  lemma ReceivedStarted(tx: Mux.MuxState, rx: Demux.DemuxState)
    requires Connected(tx, rx)
    ensures AllBelow(MuxSafety.Started(tx), U32)
    ensures EncodeAll(rx.received) + rx.got <= EncodeAll(MuxSafety.Started(tx))
    ensures rx.received <= MuxSafety.Started(tx)
  {
    MuxSafety.CleanWire(tx);
    StartedBelow(tx, U32);
    FramesArePrefix(rx.received, rx.got, MuxSafety.Started(tx));
  }

  lemma StartedBelow(tx: Mux.MuxState, limit: int)
    requires MuxSafety.Inv(tx) && AllBelow(tx.posted, limit)
    ensures AllBelow(MuxSafety.Started(tx), limit)
  {
    var started := MuxSafety.Started(tx);
    forall i | 0 <= i < |started|
      ensures |started[i].data| < limit
    {
      MuxSafety.StartedPosted(tx, started[i]);
    }
  }

  lemma Stretch(tx: Mux.MuxState, rx: Demux.DemuxState, s: Demux.Subscriber)
    requires Connected(tx, rx) && s in rx.known
    ensures DemuxSafety.IsStretch(rx.known[s], OfType(tx.posted, s.kind))
  {
    ReceivedStarted(tx, rx);
    DemuxSafety.StretchOfReceived(rx, s);
    MuxSafety.StartedInOrder(tx, s.kind);
    OfTypePrefix(rx.received, MuxSafety.Started(tx), s.kind);
    LongerStretch(rx.known[s], OfType(rx.received, s.kind), OfType(tx.posted, s.kind));
  }

  /**
   * End to end, type by type, first in, first out: in every interleaving and fragmentation, the
   * callbacks of a subscriber are a gapless stretch of the packets posted under its type, from its
   * registration on, each whole and in order; for one registered before the first, a prefix. The
   * payloads have to be shorter than 2^32 bytes and the transport's failures sticky.
   */
  lemma EndToEnd(steps: seq<Step>, s: Demux.Subscriber)
    requires Legal(steps) && Sticky(steps) && AllBelow(Run(steps).tx.posted, U32)
    requires s in Run(steps).rx.known
    ensures DemuxSafety.IsStretch(Run(steps).rx.known[s], OfType(Run(steps).tx.posted, s.kind))
    ensures Run(steps).rx.known[s].start == 0 ==> Run(steps).rx.known[s].got <= OfType(Run(steps).tx.posted, s.kind)
  {
    RunConnected(steps);
    Stretch(Run(steps).tx, Run(steps).rx, s);
  }

  /** The same of the objects themselves, for a demuxer that has read a prefix of the muxer's wire. */
  lemma EndToEndObjects(muxer: PacketMuxer, demuxer: PacketDemuxer, s: Demux.Subscriber)
    requires muxer.Valid() && demuxer.Valid()
    requires MuxSafety.CleanNow(muxer.view) && AllBelow(muxer.view.posted, U32)
    requires demuxer.view.consumed <= muxer.transport.wire
    requires s in demuxer.view.known
    ensures var r := demuxer.view.known[s];
            var callbacks, posted := CallsOf(demuxer.calls, s), OfType(muxer.view.posted, s.kind);
            r.start + |callbacks| <= |posted| && callbacks == posted[r.start..r.start + |callbacks|]
  {
    StatesStretch(muxer.view, demuxer.view, s);
    RecordedCalls(demuxer.view.known, demuxer.calls, s);
  }

  lemma StatesStretch(tx: Mux.MuxState, rx: Demux.DemuxState, s: Demux.Subscriber)
    requires MuxSafety.Reachable(tx) && DemuxSafety.Reachable(rx) && MuxSafety.CleanNow(tx)
    requires AllBelow(tx.posted, U32) && rx.consumed <= tx.wire && s in rx.known
    ensures DemuxSafety.IsStretch(rx.known[s], OfType(tx.posted, s.kind))
  {
    MuxSafety.ReachableInv(tx);
    DemuxSafety.ReachableInv(rx);
    Stretch(tx, rx, s);
  }

  lemma RecordedCalls(known: map<Demux.Subscriber, Demux.History>, calls: seq<Callback>, s: Demux.Subscriber)
    requires Recorded(known, calls) && s in known
    ensures CallsOf(calls, s) == known[s].got
  {
  }

  lemma LongerStretch(r: Demux.History, a: seq<Packet>, b: seq<Packet>)
    requires DemuxSafety.IsStretch(r, a) && a <= b
    ensures DemuxSafety.IsStretch(r, b)
  {
  }

  /**
   * Nothing is lost: once the sender sleeps with nothing to do and the receiver has read everything,
   * every live subscriber has had every packet posted under its type since its registration.
   */
  lemma AllDelivered(steps: seq<Step>, s: Demux.Subscriber)
    requires Legal(steps) && AllBelow(Run(steps).tx.posted, U32)
    requires Run(steps).tx.sender == Mux.Waiting(false) && Mux.Total(Run(steps).tx.queues) < U32
    requires AtRest(Run(steps).rx) && Run(steps).rx.consumed == Run(steps).tx.wire
    requires s in Run(steps).rx.known && Run(steps).rx.known[s].live && s.kind != CONTROL_PACKET
    ensures var r, all := Run(steps).rx.known[s], OfType(Run(steps).tx.posted, s.kind);
            r.start <= |all| && r.got == all[r.start..]
  {
    Sides(steps);
    MuxSafety.NoLostWakeup(TxOf(steps));
    MuxSafety.RunKeeps(TxOf(steps));
    DemuxSafety.RunKeeps(RxOf(steps));
    AllDeliveredNow(Run(steps).tx, Run(steps).rx, s);
  }

  predicate AtRest(rx: Demux.DemuxState)
  {
    rx.phase.Polling? || (rx.phase.Idle? && !rx.err)
  }

  lemma AllDeliveredNow(tx: Mux.MuxState, rx: Demux.DemuxState, s: Demux.Subscriber)
    requires MuxSafety.Inv(tx) && !tx.err && tx.sender.Waiting? && MuxSafety.NonEmpty(tx.queues) == {}
    requires DemuxSafety.Inv(rx) && AtRest(rx) && rx.consumed == tx.wire && AllBelow(tx.posted, U32)
    requires s in rx.known && rx.known[s].live && s.kind != CONTROL_PACKET
    ensures var r, all := rx.known[s], OfType(tx.posted, s.kind);
            r.start <= |all| && r.got == all[r.start..]
  {
    AllSent(tx, s.kind);
    StartedBelow(tx, U32);
    GotAll(rx, tx.popped, s);
  }

  lemma GotAll(rx: Demux.DemuxState, popped: seq<Packet>, s: Demux.Subscriber)
    requires DemuxSafety.Inv(rx) && AtRest(rx) && rx.consumed == EncodeAll(popped) && AllBelow(popped, U32)
    requires s in rx.known && rx.known[s].live && s.kind != CONTROL_PACKET
    ensures var r, all := rx.known[s], OfType(popped, s.kind);
            r.start <= |all| && r.got == all[r.start..]
  {
    AllReceived(rx, popped);
    RestIsBetween(rx);
    DemuxSafety.DeliveredNow(rx, s);
  }

  lemma RestIsBetween(rx: Demux.DemuxState)
    requires DemuxSafety.Gated(rx) && AtRest(rx)
    ensures DemuxSafety.BetweenPackets(rx)
  {
  }

  lemma AllSent(tx: Mux.MuxState, t: PacketType)
    requires MuxSafety.Inv(tx) && !tx.err && tx.sender.Waiting? && MuxSafety.NonEmpty(tx.queues) == {}
    ensures tx.wire == EncodeAll(tx.popped)
    ensures MuxSafety.Started(tx) == tx.popped
    ensures OfType(tx.popped, t) == OfType(tx.posted, t)
  {
    assert OfType(tx.posted, t) == OfType(tx.popped, t) + Mux.Queue(tx.queues, t);
    assert t in tx.queues && tx.queues[t] != [] ==> t in MuxSafety.NonEmpty(tx.queues);
    assert MuxSafety.Current(tx) == [] && MuxSafety.Whole(tx) == tx.popped;
  }

  lemma AllReceived(rx: Demux.DemuxState, popped: seq<Packet>)
    requires DemuxSafety.Framed(rx) && AtRest(rx)
    requires rx.consumed == EncodeAll(popped) && AllBelow(popped, U32)
    ensures rx.received == popped
  {
    FramesArePrefix(rx.received, [], popped);
    DemuxSafety.NoneLeft(EncodeAll(rx.received));
    SameEncoding(rx.received, popped);
  }

  /** If the first packet sendPacket is called on is a Hello, the receiver's gate never closes. */
  lemma HelloOpensGate(steps: seq<Step>)
    requires Legal(steps) && Sticky(steps) && AllBelow(Run(steps).tx.posted, U32)
    requires var started := MuxSafety.Started(Run(steps).tx); started != [] ==> DemuxSafety.IsHello(started[0])
    ensures !Run(steps).rx.rejected
  {
    RunConnected(steps);
    ReceivedStarted(Run(steps).tx, Run(steps).rx);
  }
}
