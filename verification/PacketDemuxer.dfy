// src/PacketDemuxer.cpp and src/PacketSubscription.cpp in their own form. As for the muxer, every
// atomic action is also a step of the state machine, here DemuxProtocol.

module Demuxer {
  import opened Packets
  import opened Codec
  import opened IdTables
  import opened DemuxProtocol
  import opened DemuxSafety

  /** AbstractReader: hands out the bytes of a stream in chunks of any size, or reports an error. */
  class Reader {
    var incoming: seq<Byte>   // the bytes not read yet, arrived or still to come
    var patience: nat         // bounds how often it times out or gives nothing before it gives something or fails
    ghost var errors: nat     // how many reads have failed
    ghost var zeros: nat      // how many have given nothing
    ghost var polls: seq<bool>   // what readyForReading has said

    method ReadyForReading() returns (ready: bool)
      modifies this`patience, this`polls
      ensures polls == old(polls) + [ready]
      ensures patience <= old(patience) && (!ready ==> patience < old(patience))
    {
      ready := *;
      if patience == 0 {
        ready := true;
      } else if !ready {
        patience := patience - 1;
      }
      polls := polls + [ready];
    }

    method Read(size: nat) returns (n: int, bytes: seq<Byte>)
      requires 0 < size
      modifies this
      ensures -1 <= n <= size
      ensures |bytes| == (if n < 0 then 0 else n) && old(incoming) == bytes + incoming
      ensures errors == old(errors) + (if n < 0 then 1 else 0) && zeros == old(zeros) + (if n == 0 then 1 else 0)
      ensures polls == old(polls)
      ensures n <= 0 ==> patience <= old(patience)
      ensures n == 0 ==> patience < old(patience)
    {
      n :| -1 <= n <= size && n <= |incoming| && (n == 0 ==> 0 < patience);
      bytes := if n < 0 then [] else incoming[..n];
      errors := if n < 0 then errors + 1 else errors;
      zeros := if n == 0 then zeros + 1 else zeros;
      if n == 0 {
        patience := patience - 1;
      } else if 0 < n {
        patience := *;
      }
      incoming := incoming[|bytes|..];
    }
  }

  /** The reference counts of the shared_ptrs to subscribers. */
  class ControlBlocks {
    var useCount: map<Subscriber, nat>

    constructor ()
      ensures useCount == map[]
    {
      useCount := map[];
    }
  }

  // ---------------------------------------------------------------------------------------------
  // std::remove_if and erase

  /** Moves the elements other than s to the front, in order; the rest is unspecified. */
  method RemoveIf(queue: seq<Subscriber>, s: Subscriber) returns (q: seq<Subscriber>, end: nat)
    ensures |q| == |queue| && end <= |q| && q[..end] == Without(queue, s)
  {
    q, end := queue, 0;
    for i := 0 to |queue|
      invariant end <= i && |q| == |queue|
      invariant forall k :: i <= k < |q| ==> q[k] == queue[k]
      invariant q[..end] == Without(queue[..i], s)
    {
      assert queue[..i + 1][..i] == queue[..i];
      if q[i] != s {
        ghost var before := q[..end];
        q := q[end := q[i]];
        end := end + 1;
        assert q[..end] == before + [queue[i]];
      }
    }
    assert queue[..|queue|] == queue;
  }

  lemma {:induction false} WithoutLength(q: seq<Subscriber>, s: Subscriber)
    ensures |Without(q, s)| == |q| - multiset(q)[s]
  {
    if q != [] {
      assert q == q[..|q| - 1] + [q[|q| - 1]];
      WithoutLength(q[..|q| - 1], s);
    }
  }

  /** Erasing the single element remove_if points at removes s entirely only if s was there once. */
  lemma EraseIff(queue: seq<Subscriber>, s: Subscriber, q: seq<Subscriber>, end: nat)
    requires |q| == |queue| && end < |q| && q[..end] == Without(queue, s)
    ensures q[..end] + q[end + 1..] == Without(queue, s) <==> multiset(queue)[s] == 1
  {
    WithoutLength(queue, s);
    if end + 1 == |q| {
      assert q[end + 1..] == [];
    }
  }

  lemma {:induction false} OccursOnce(q: seq<Subscriber>, s: Subscriber)
    requires Ascending(q)
    ensures multiset(q)[s] == if s in q then 1 else 0
  {
    if q != [] {
      var front, last := q[..|q| - 1], q[|q| - 1];
      assert q == front + [last];
      AscendingFront(q);
      OccursOnce(front, s);
    }
  }

  // ---------------------------------------------------------------------------------------------

  /** One callback of one subscriber. */
  datatype Callback = Callback(subscriber: Subscriber, packet: Packet)

  function CallsOf(calls: seq<Callback>, s: Subscriber): seq<Packet>
  {
    if calls == [] then []
    else
      var last := calls[|calls| - 1];
      CallsOf(calls[..|calls| - 1], s) + (if last.subscriber == s then [last.packet] else [])
  }

  lemma CallsOfAppend(calls: seq<Callback>, c: Callback, s: Subscriber)
    ensures CallsOf(calls + [c], s) == CallsOf(calls, s) + (if c.subscriber == s then [c.packet] else [])
  {
    assert (calls + [c])[..|calls|] == calls;
  }

  lemma {:induction false} NoCalls(calls: seq<Callback>, s: Subscriber)
    requires forall i :: 0 <= i < |calls| ==> calls[i].subscriber != s
    ensures CallsOf(calls, s) == []
  {
    if calls != [] {
      NoCalls(calls[..|calls| - 1], s);
    }
  }

  /** Subscriber ids are never reused, and types come from the id table. */
  ghost predicate Issued(known: map<Subscriber, History>, nextId: nat, types: nat)
  {
    forall s :: s in known ==> s.id < nextId && s.kind < types
  }

  /** The callbacks made are those of the history, subscriber by subscriber. */
  ghost predicate Recorded(known: map<Subscriber, History>, calls: seq<Callback>)
  {
    && (forall s :: s in known ==> CallsOf(calls, s) == known[s].got)
    && (forall i :: 0 <= i < |calls| ==> calls[i].subscriber in known)
  }

  lemma RecordedNew(known: map<Subscriber, History>, calls: seq<Callback>, s: Subscriber, r: History)
    requires Recorded(known, calls) && s !in known && r.got == []
    ensures Recorded(known[s := r], calls)
  {
    NoCalls(calls, s);
  }

  lemma RecordedCall(known: map<Subscriber, History>, calls: seq<Callback>, s: Subscriber, p: Packet)
    requires Recorded(known, calls) && s in known
    ensures Recorded(known[s := known[s].(got := known[s].got + [p])], calls + [Callback(s, p)])
  {
    var calls', known' := calls + [Callback(s, p)], known[s := known[s].(got := known[s].got + [p])];
    forall u | u in known'
      ensures CallsOf(calls', u) == known'[u].got
    {
      CallsOfAppend(calls, Callback(s, p), u);
    }
  }

  /** These subscribers stay registered, or not, as they were. */
  ghost predicate Keeps(known: map<Subscriber, History>, known': map<Subscriber, History>, clients: set<Subscriber>)
  {
    forall s :: s in clients ==> s in known && s in known' && known'[s].live == known[s].live
  }

  lemma KeepsOn(a: map<Subscriber, History>, b: map<Subscriber, History>, c: map<Subscriber, History>, clients: set<Subscriber>)
    requires Keeps(a, b, clients) && Keeps(b, c, clients)
    ensures Keeps(a, c, clients)
  {
  }

  /** Callbacks change nothing but the record of them. */
  ghost predicate OnlyCalls(d: DemuxState, d': DemuxState)
  {
    && d'.greeting == d.greeting && d'.err == d.err && d'.subs == d.subs && d'.rejected == d.rejected
    && d'.consumed == d.consumed && d'.got == d.got
    && d'.received == d.received && d'.dispatched == d.dispatched
  }

  /** The callbacks for one packet. */
  function FanOut(queue: seq<Subscriber>, p: Packet): seq<Callback>
  {
    seq(|queue|, i requires 0 <= i < |queue| => Callback(queue[i], p))
  }

  lemma FanOutAppend(queue: seq<Subscriber>, s: Subscriber, p: Packet)
    ensures FanOut(queue + [s], p) == FanOut(queue, p) + [Callback(s, p)]
  {
  }

  lemma IssuedSame(known: map<Subscriber, History>, s: Subscriber, p: Packet, nextId: nat, types: nat)
    requires Issued(known, nextId, types) && s in known
    ensures Issued(known[s := known[s].(got := known[s].got + [p])], nextId, types)
  {
  }

  lemma TodoIsKnown(d: DemuxState)
    requires Reachable(d) && d.phase.Dispatching? && d.phase.todo != []
    ensures d.phase.todo[0] in d.known
  {
    ReachableInv(d);
    var t := d.phase.packet.kind;
    assert OwnQueue(Slots(d.subs, t), t);
    TailSplits(d.phase.todo, Slots(d.subs, t), t);
  }

  lemma LoopOutcome(d: DemuxState, calls: seq<Callback>)
    requires Reachable(d) && Recorded(d.known, calls)
    ensures d.consumed == EncodeAll(d.received) + d.got && OneFrame(d.got)
    ensures forall s :: s in d.known ==>
              IsStretch(History(d.known[s].start, d.known[s].live, CallsOf(calls, s)), OfType(d.received, s.kind))
    ensures d.rejected ==> calls == []
  {
    ReachableInv(d);
    forall s | s in d.known
      ensures IsStretch(d.known[s], OfType(d.received, s.kind))
    {
      StretchOfReceived(d, s);
    }
    LastCall(calls);
  }

  lemma LastCall(calls: seq<Callback>)
    ensures calls != [] ==> CallsOf(calls, calls[|calls| - 1].subscriber) != []
  {
  }

  /** What the read loop leaves alone while it lets other threads run. */
  ghost predicate SameReader(d: DemuxState, d': DemuxState)
  {
    && d'.phase == d.phase && d'.greeting == d.greeting && d'.rejected == d.rejected
    && d'.consumed == d.consumed && d'.got == d.got
    && d'.received == d.received && d'.dispatched == d.dispatched
    && (d.err ==> d'.err)
  }

  lemma SlotsAreLive(d: DemuxState, t: PacketType, n: nat)
    requires Reachable(d) && n < |Slots(d.subs, t)|
    ensures Slots(d.subs, t)[n] in d.known && d.known[Slots(d.subs, t)[n]].live
  {
    ReachableInv(d);
    var s := Slots(d.subs, t)[n];
    assert OwnQueue(Slots(d.subs, t), t);
    assert s in Slots(d.subs, t);
  }

  /** The live subscribers of type t, in the order of subscription. */
  ghost predicate IsRoster(queue: seq<Subscriber>, d: DemuxState, t: PacketType)
  {
    && Ascending(queue)
    && forall s :: s in queue <==> s in d.known && d.known[s].live && s.kind == t
  }

  lemma QueueIsLive(d: DemuxState, t: PacketType)
    requires Reachable(d)
    ensures IsRoster(Slots(d.subs, t), d, t)
  {
    ReachableInv(d);
    assert OwnQueue(Slots(d.subs, t), t);
  }

  lemma LiveHasSlot(d: DemuxState, s: Subscriber)
    requires Reachable(d)
    ensures Ascending(Slots(d.subs, s.kind))
    ensures s in Slots(d.subs, s.kind) <==> s in d.known && d.known[s].live
  {
    ReachableInv(d);
    assert OwnQueue(Slots(d.subs, s.kind), s.kind);
  }

  datatype Receipt = Received | NotReceived | Died

  /** A frame that ends the process: too long for the payload vector, or of the invalid type. */
  predicate Fatal(got: seq<Byte>)
  {
    match ParseFrame(got)
    case Complete(p, _) => p.kind == INVALID_PACKET
    case Oversize => true
    case Partial => false
  }

  /** The receive thread has read the frame of p and nothing else. */
  ghost predicate HasRead(d: DemuxState, d': DemuxState, p: Packet)
  {
    && d'.got == Encode(p) && |p.data| < INT_LIMIT
    && d'.consumed == d.consumed + Encode(p)
    && SameReader(d.(phase := Whole, consumed := d'.consumed, got := d'.got), d')
  }

  lemma FinishIs(d: DemuxState, p: Packet)
    requires d.phase.Whole? && d.got == Encode(p) && |p.data| < INT_LIMIT
    ensures Enabled(d, Finish)
    ensures Apply(d, Finish) == (if p.kind == INVALID_PACKET then d.(phase := Aborted) else Arrived(d, p))
  {
    FrameRoundTrip(p, []);
    NoneLeft(Encode(p));
  }

  /** Others may have subscribed before the receive thread first polls, but nothing has been received. */
  lemma GreetingIsNew(d: DemuxState)
    requires Reachable(d) && d.phase.Polling? && d.greeting
    ensures d.received == [] && !d.rejected
  {
    ReachableInv(d);
  }

  lemma PollingHasNothing(d: DemuxState)
    requires Reachable(d) && d.phase.Polling?
    ensures d.got == []
  {
    ReachableInv(d);
  }

  lemma HeaderParts(typeBytes: seq<Byte>, sizeBytes: seq<Byte>)
    requires |typeBytes| == 4 && |sizeBytes| == 4
    ensures var size := FromBe32(sizeBytes);
            && (size < INT_LIMIT ==> Want(typeBytes + sizeBytes) == size)
            && (size >= INT_LIMIT ==> Want(typeBytes + sizeBytes) == 0 && ParseFrame(typeBytes + sizeBytes) == Oversize)
  {
    assert (typeBytes + sizeBytes)[4..8] == sizeBytes;
  }

  lemma FrameParts(typeBytes: seq<Byte>, sizeBytes: seq<Byte>, data: seq<Byte>)
    requires |typeBytes| == 4 && |sizeBytes| == 4 && |data| == FromBe32(sizeBytes) < INT_LIMIT
    ensures var p, got := Packet(FromBe32(typeBytes), data), typeBytes + sizeBytes + data;
            Encode(p) == got && ParseFrame(got) == Complete(p, |got|) && Want(got) == 0
  {
    FromBe32Inverse(typeBytes);
    FromBe32Inverse(sizeBytes);
    var p := Packet(FromBe32(typeBytes), data);
    FrameRoundTrip(p, []);
    NoneLeft(Encode(p));
    assert (typeBytes + sizeBytes + data)[4..8] == sizeBytes;
  }

  /** A read was given up: nothing of the frame will be used. */
  ghost predicate GaveUp(d: DemuxState, d': DemuxState)
  {
    && d'.phase.Idle? && !d'.greeting && d'.rejected == d.rejected
    && d'.received == d.received && d'.dispatched == d.dispatched
    && d.consumed <= d'.consumed
  }

  /** When the last field of a frame has been read, or its size field shows it is too long, no more is wanted. */
  lemma FieldWants(got: seq<Byte>, data: seq<Byte>, last: bool)
    requires last ==> Want(got) == 0 || |got| >= 8
    ensures |data| == Want(got) && (last || ParseFrame(got + data).Oversize?) ==> Want(got + data) == 0
  {
    if |got| >= 8 {
      HeaderKept(got, data);
    }
  }

  lemma GaveUpOn(d: DemuxState, m: DemuxState, d': DemuxState)
    requires SameReader(d.(consumed := m.consumed, got := m.got), m) && d.consumed <= m.consumed && GaveUp(m, d')
    ensures GaveUp(d, d')
  {
  }

  lemma WantLess(got: seq<Byte>, bytes: seq<Byte>)
    requires |bytes| < Want(got)
    ensures Want(got + bytes) == Want(got) - |bytes|
  {
    if |got| >= 8 {
      HeaderKept(got, bytes);
    }
  }

  class PacketDemuxer {
    const packetIds: IdManager
    const transport: Reader
    const blocks: ControlBlocks
    var subscribers: map<PacketType, seq<Subscriber>>
    var transportError: bool
    var calls: seq<Callback>   // the callbacks made so far
    var nextId: nat
    var clients: set<Subscriber>   // those handed out by Subscribe; the others are other threads' own
    var destroyed: bool

    ghost const ids: seq<string>
    ghost const errorsBefore: nat
    ghost var shut: bool       // another thread has begun to destroy the demuxer
    ghost const stream: seq<Byte>
    ghost var view: DemuxState

    ghost predicate Named()
      reads packetIds
    {
      Distinct(Names(ids)) && packetIds.Holds(Names(ids))
    }

    /**
     * The error flag is set exactly if another thread has begun to destroy the demuxer, a read has
     * failed, or the greeting was rejected.
     */
    ghost predicate Accounted()
      reads this, transport
    {
      && errorsBefore <= transport.errors
      && (transportError <==> shut || errorsBefore < transport.errors || view.rejected)
    }

    ghost predicate Linked()
      reads this, transport
    {
      && Reachable(view)
      && view.subs == subscribers
      && stream == view.consumed + transport.incoming
      && Issued(view.known, nextId, |Names(ids)|)
      && Recorded(view.known, calls)
      && clients <= view.known.Keys
    }

    ghost predicate Valid()
      reads this, transport
    {
      Linked() && view.err == transportError
    }

    constructor (transport: Reader, list: seq<string>)
      requires Distinct(Names(list))
      ensures Valid() && Named() && Accounted() && view == Init() && calls == [] && !destroyed
      ensures this.transport == transport && ids == list && stream == transport.incoming
    {
      this.transport := transport;
      packetIds := new IdManager(list);
      blocks := new ControlBlocks();
      subscribers := map[];
      transportError, destroyed := false, false;
      calls, nextId, clients := [], 0, {};
      ids, stream, view := list, transport.incoming, Init();
      errorsBefore, shut := transport.errors, false;
    }

    /** Record one atomic action. */
    ghost method Do(a: Step)
      requires Reachable(view) && Enabled(view, a)
      modifies this`view
      ensures view == Apply(old(view), a) && Reachable(view)
    {
      ReachableStep(view, a);
      view := Apply(view, a);
    }

    ghost method DoLook()
      requires Reachable(view) && view.phase.Reading? && !view.err
      modifies this`view
      ensures Reachable(view)
      ensures view == old(view).(phase := if Want(old(view).got) > 0 then Fetching else Whole)
    {
      Do(Look);
    }

    ghost method DoTake(bytes: seq<Byte>)
      requires Reachable(view) && view.phase.Fetching? && |bytes| <= Want(view.got)
      modifies this`view
      ensures Reachable(view)
      ensures view == old(view).(phase := Reading, consumed := old(view).consumed + bytes, got := old(view).got + bytes)
    {
      Do(Take(bytes));
    }

    ghost method DoReadError()
      requires Reachable(view) && view.phase.Fetching?
      modifies this`view
      ensures Reachable(view) && view == old(view).(phase := Idle, err := true, greeting := false)
    {
      Do(ReadError);
    }

    ghost method DoExit()
      requires Reachable(view) && view.phase.Idle? && view.err
      modifies this`view
      ensures Reachable(view) && view == old(view).(phase := Exited)
    {
      Do(Exit);
    }

    ghost method DoGiveUp()
      requires Reachable(view) && view.phase.Reading? && view.err
      modifies this`view
      ensures Reachable(view) && view == old(view).(phase := Idle, greeting := false)
    {
      Do(GiveUp);
    }

    ghost method DoThrow()
      requires Reachable(view) && view.phase.Whole? && ParseFrame(view.got).Oversize?
      modifies this`view
      ensures Reachable(view) && view == old(view).(phase := Aborted)
    {
      Do(Finish);
    }

    ghost method DoPoll(ready: bool)
      requires Reachable(view) && view.phase.Polling?
      modifies this`view
      ensures Reachable(view)
      ensures view == if ready then old(view).(phase := Reading) else old(view).(phase := Idle, greeting := false)
    {
      Do(Poll(ready));
    }

    ghost method DoLock()
      requires Reachable(view) && view.phase.Holding?
      modifies this`view
      ensures Reachable(view)
      ensures var p, q := old(view).phase.packet, Slots(old(view).subs, old(view).phase.packet.kind);
              view == old(view).(phase := Dispatching(p, q), subs := old(view).subs[p.kind := q])
    {
      Do(Lock);
    }

    ghost method DoUnlock()
      requires Reachable(view) && view.phase.Dispatching? && view.phase.todo == []
      modifies this`view
      ensures Reachable(view)
      ensures view == old(view).(phase := Idle, dispatched := old(view).dispatched + [old(view).phase.packet])
    {
      Do(Unlock);
    }

    // -------------------------------------------------------------------------------------------
    // The registry

    /** A new subscriber is appended to the queue of its type. */
    method Register(t: PacketType) returns (s: Subscriber)
      requires Valid() && Unlocked(view) && t < |Names(ids)|
      modifies this`subscribers, this`nextId, this`view
      ensures Valid() && s.kind == t && s.id == old(nextId) && nextId == old(nextId) + 1
      ensures s !in old(view).known && Enabled(old(view), DemuxProtocol.Subscribe(s))
      ensures view == Apply(old(view), DemuxProtocol.Subscribe(s))
    {
      s := Subscriber(nextId, t);
      nextId := nextId + 1;
      subscribers := subscribers[t := (if t in subscribers then subscribers[t] else []) + [s]];
      RecordedNew(view.known, calls, s, History(|OfType(view.dispatched, t)|, true, []));
      Do(DemuxProtocol.Subscribe(s));
    }

    /** The subscriber is taken out of its queue; everyone else keeps their place. */
    method Remove(s: Subscriber)
      requires Valid() && Unlocked(view) && s in view.known && view.known[s].live
      modifies this`subscribers, this`view
      ensures Valid() && view == Apply(old(view), DemuxProtocol.Unsubscribe(s))
    {
      LiveHasSlot(view, s);
      var queue := if s.kind in subscribers then subscribers[s.kind] else [];
      var q, end := RemoveIf(queue, s);
      OccursOnce(queue, s);
      WithoutLength(queue, s);
      assert end != |q|;   // the assertion in the source
      EraseIff(queue, s, q, end);
      subscribers := subscribers[s.kind := q[..end] + q[end + 1..]];
      Do(DemuxProtocol.Unsubscribe(s));
    }

    method RemoveNth(t: PacketType, n: nat)
      requires Valid() && Unlocked(view) && n < |Slots(subscribers, t)| && Slots(subscribers, t)[n] !in clients
      modifies this`subscribers, this`view
      ensures Valid() && SameReader(old(view), view) && Unlocked(view)
      ensures Keeps(old(view).known, view.known, clients)
    {
      SlotsAreLive(view, t, n);
      Remove(subscribers[t][n]);
    }

    /** Whatever other threads do between two actions of the receive thread, with subscribers of their own. */
    method OtherThreads()
      requires Valid() && Accounted() && Named() && Unlocked(view)
      modifies this`subscribers, this`transportError, this`shut, this`nextId, this`view
      ensures Valid() && Accounted() && SameReader(old(view), view)
      ensures Keeps(old(view).known, view.known, clients)
    {
      var steps: nat := *;
      while steps > 0
        invariant Valid() && Accounted() && SameReader(old(view), view) && Unlocked(view)
        invariant Keeps(old(view).known, view.known, clients)
      {
        var t: PacketType := *;
        var queue := if t in subscribers then subscribers[t] else [];
        var choice: nat := *;
        if 0 <= choice < |queue| {
          var s := queue[choice];
          if s !in clients {
            RemoveNth(t, choice);
          }
        } else if choice == |queue| && t < |packetIds.reverse| {
          var s := Register(t);
        } else {
          SignalTransportError();
          shut := true;
        }
        steps := steps - 1;
      }
    }

    method SignalTransportError()
      requires Valid() && !view.phase.Aborted?
      modifies this`transportError, this`view
      ensures Valid() && transportError && view == old(view).(err := true)
    {
      transportError := true;
      Do(Shut);
    }

    // -------------------------------------------------------------------------------------------
    // Receiving

    /** One call to the transport. */
    method ReadOnce(size: nat, errorOnZeroBytes: bool) returns (ok: bool, bytes: seq<Byte>)
      requires Valid() && Accounted() && view.phase.Fetching? && 0 < size && Want(view.got) == size
      modifies this`transportError, this`view, transport
      ensures Valid() && (Accounted() || (errorOnZeroBytes && !ok && transport.zeros > old(transport.zeros))) && transport.polls == old(transport.polls) && view.consumed == old(view).consumed + bytes && view.known == old(view).known
      ensures ok ==>
                && |bytes| <= size
                && view == old(view).(phase := Reading, consumed := old(view).consumed + bytes, got := old(view).got + bytes)
                && (|bytes| < size ==> Want(view.got) == size - |bytes|)
                && (bytes == [] ==> transport.patience < old(transport.patience))
      ensures !ok ==> transportError && GaveUp(old(view), view) && bytes == []
      ensures transport.zeros >= old(transport.zeros) && (ok && errorOnZeroBytes ==> transport.zeros == old(transport.zeros))
      ensures |transport.incoming| <= old(|transport.incoming|)
    {
      var n;
      n, bytes := transport.Read(size);
      ok := !(n < 0 || (n == 0 && errorOnZeroBytes));
      if ok {
        if |bytes| < size {
          WantLess(view.got, bytes);
        }
        DoTake(bytes);
      } else {
        transportError := true;
        DoReadError();
      }
    }

    /** Once round the loop of readBytes; other threads may set the flag between the look at it and the read. */
    method ReadMore(size: nat, errorOnZeroBytes: bool) returns (ok: bool, bytes: seq<Byte>)
      requires Valid() && Accounted() && Named() && view.phase.Reading? && !transportError && 0 < size && Want(view.got) == size
      modifies this`subscribers, this`transportError, this`shut, this`nextId, this`view, transport
      ensures Valid() && (Accounted() || (errorOnZeroBytes && !ok && transport.zeros > old(transport.zeros))) && transport.polls == old(transport.polls) && view.consumed == old(view).consumed + bytes && Keeps(old(view).known, view.known, clients)
      ensures ok ==>
                && |bytes| <= size && view.got == old(view).got + bytes
                && SameReader(old(view).(consumed := view.consumed, got := view.got), view)
                && (|bytes| < size ==> Want(view.got) == size - |bytes|)
                && (bytes == [] ==> transport.patience < old(transport.patience))
      ensures !ok ==> transportError && GaveUp(old(view), view) && bytes == []
      ensures transport.zeros >= old(transport.zeros) && (ok && errorOnZeroBytes ==> transport.zeros == old(transport.zeros))
      ensures |transport.incoming| <= old(|transport.incoming|)
    {
      DoLook();
      OtherThreads();
      ok, bytes := ReadOnce(size, errorOnZeroBytes);
      if ok {
        ghost var known := view.known;
        OtherThreads();
        KeepsOn(old(view).known, known, view.known, clients);
      }
    }

    /** The loop of readBytes. It is left when all bytes are there, or when the flag is set, or by a failed read. */
    method ReadUp(size: nat, errorOnZeroBytes: bool) returns (failed: bool, data: seq<Byte>)
      requires Valid() && Accounted() && Named() && view.phase.Reading? && Want(view.got) == size
      modifies this`subscribers, this`transportError, this`shut, this`nextId, this`view, transport
      ensures Valid() && (Accounted() || (errorOnZeroBytes && failed && transport.zeros > old(transport.zeros))) && transport.polls == old(transport.polls) && |data| <= size && view.consumed == old(view).consumed + data
      ensures Keeps(old(view).known, view.known, clients)
      ensures failed ==> transportError && GaveUp(old(view), view)
      ensures !failed ==>
                && SameReader(old(view).(consumed := view.consumed, got := view.got), view)
                && view.got == old(view).got + data && (|data| == size || transportError)
      ensures transport.zeros >= old(transport.zeros) && (!failed && errorOnZeroBytes ==> transport.zeros == old(transport.zeros))
      ensures |transport.incoming| <= old(|transport.incoming|)
    {
      data := [];
      OtherThreads();
      while |data| < size && transportError == false
        invariant Valid() && Accounted() && transport.polls == old(transport.polls) && |data| <= size && Keeps(old(view).known, view.known, clients)
        invariant SameReader(old(view).(consumed := view.consumed, got := view.got), view)
        invariant view.consumed == old(view).consumed + data && view.got == old(view).got + data
        invariant |data| < size ==> Want(view.got) == size - |data|
        invariant |transport.incoming| <= old(|transport.incoming|)
        invariant transport.zeros >= old(transport.zeros) && (errorOnZeroBytes ==> transport.zeros == old(transport.zeros))
        decreases size - |data|, transport.patience
      {
        ghost var before := view;
        var ok, bytes := ReadMore(size - |data|, errorOnZeroBytes);
        KeepsOn(old(view).known, before.known, view.known, clients);
        if !ok {
          GaveUpOn(old(view), before, view);
          return true, data;
        }
        Assoc(old(view).consumed, data, bytes);
        Assoc(old(view).got, data, bytes);
        data := data + bytes;
      }
      failed := false;
    }

    /**
     * Reads one field: data are the bytes taken off the stream, in order. On success they are all the
     * bytes wanted; on failure the error flag is set and the read is over. The last look at the flag in
     * a frame makes it whole.
     */
    method ReadBytes(size: nat, errorOnZeroBytes: bool, ghost last: bool) returns (ok: bool, data: seq<Byte>)
      requires Valid() && Accounted() && Named() && view.phase.Reading? && Want(view.got) == size
      modifies this`subscribers, this`transportError, this`shut, this`nextId, this`view, transport
      requires last ==> Want(view.got) == 0 || |view.got| >= 8
      ensures Valid() && (Accounted() || (errorOnZeroBytes && !ok && transport.zeros > old(transport.zeros))) && transport.polls == old(transport.polls) && |data| <= size && view.consumed == old(view).consumed + data
      ensures Keeps(old(view).known, view.known, clients)
      ensures ok ==>
                && |data| == size && view.got == old(view).got + data
                && SameReader(old(view).(phase := view.phase, consumed := view.consumed, got := view.got), view)
                && view.phase == (if last || ParseFrame(view.got).Oversize? then Whole else Reading)
      ensures !ok ==> transportError && GaveUp(old(view), view)
      ensures transport.zeros >= old(transport.zeros) && (ok && errorOnZeroBytes ==> transport.zeros == old(transport.zeros))
      ensures |transport.incoming| <= old(|transport.incoming|)
    {
      var failed;
      failed, data := ReadUp(size, errorOnZeroBytes);
      if failed {
        return false, data;
      }
      ghost var before := view;
      FieldWants(old(view).got, data, last);
      ok := FieldRead(last);
      if !ok {
        GaveUpOn(old(view), before, view);
      }
    }

    /** The last look at the flag in readBytes. */
    method FieldRead(ghost last: bool) returns (ok: bool)
      requires Valid() && Accounted() && view.phase.Reading? && (!transportError ==> Want(view.got) == 0 || !(last || ParseFrame(view.got).Oversize?))
      modifies this`view
      ensures Valid() && Accounted() && (ok <==> !transportError)
      ensures ok ==> view == old(view).(phase := if last || ParseFrame(view.got).Oversize? then Whole else Reading)
      ensures !ok ==> view == old(view).(phase := Idle, greeting := false)
    {
      ok := !transportError;
      if !ok {
        DoGiveUp();
      } else if last || ParseFrame(view.got).Oversize? {
        DoLook();
      }
    }

    /** The two header fields of a frame. */
    method ReadHeader() returns (ok: bool, typeBytes: seq<Byte>, sizeBytes: seq<Byte>)
      requires Valid() && Accounted() && Named() && view.phase.Reading? && view.got == []
      modifies this`subscribers, this`transportError, this`shut, this`nextId, this`view, transport
      ensures Valid() && Accounted() && transport.polls == old(transport.polls)
      ensures ok ==>
                && |typeBytes| == 4 && |sizeBytes| == 4
                && view.got == typeBytes + sizeBytes && view.consumed == old(view).consumed + view.got
                && SameReader(old(view).(phase := view.phase, consumed := view.consumed, got := view.got), view)
                && Want(view.got) == (if FromBe32(sizeBytes) < INT_LIMIT then FromBe32(sizeBytes) else 0)
                && (FromBe32(sizeBytes) >= INT_LIMIT ==> ParseFrame(view.got) == Oversize)
                && view.phase == (if FromBe32(sizeBytes) >= INT_LIMIT then Whole else Reading)
      ensures Keeps(old(view).known, view.known, clients)
      ensures !ok ==> transportError && GaveUp(old(view), view)
    {
      sizeBytes := [];
      ok, typeBytes := ReadBytes(4, false, false);
      if ok {
        assert view.got == typeBytes;
        ok, sizeBytes := ReadBytes(4, false, false);
        if ok {
          HeaderParts(typeBytes, sizeBytes);
          Assoc(old(view).consumed, typeBytes, sizeBytes);
        }
      }
    }

    /** The frame after a successful poll. */
    method ReadFrame() returns (r: Receipt, p: Packet)
      requires Valid() && Accounted() && Named() && view.phase.Reading? && view.got == []
      modifies this`subscribers, this`transportError, this`shut, this`nextId, this`view, transport
      ensures Valid() && Accounted() && transport.polls == old(transport.polls)
      ensures Keeps(old(view).known, view.known, clients)
      ensures r.Received? ==> HasRead(old(view), view, p)
      ensures r.NotReceived? ==> transportError && GaveUp(old(view), view)
      ensures r.Died? ==> view.phase.Aborted? && Fatal(view.got)
    {
      r, p := NotReceived, HELLO_PACKET;
      var ok, typeBytes, sizeBytes, data;
      ok, typeBytes, sizeBytes := ReadHeader();
      if ok {
        var kind, size := FromBe32(typeBytes), FromBe32(sizeBytes);
        if size >= INT_LIMIT {
          DoThrow();   // the payload vector cannot be allocated
          r := Died;
        } else {
          ghost var known := view.known;
          ok, data := ReadBytes(size, false, true);
          KeepsOn(old(view).known, known, view.known, clients);
          if ok {
            FrameParts(typeBytes, sizeBytes, data);
            Assoc(old(view).consumed, typeBytes + sizeBytes, data);
            r, p := Received, Packet(kind, data);
          }
        }
      }
    }

    /** Swaps the packet just read into the caller's; the assertion on its type ends the process. */
    method HandOver(data: Packet, packet: ComPacket) returns (r: Receipt)
      requires Valid() && Accounted() && view.phase.Whole?
      requires view.got == Encode(data) && |data.data| < INT_LIMIT
      modifies this`view, packet
      ensures Valid() && Accounted() && !r.NotReceived? && view.known == old(view).known
      ensures r.Received? ==> view == old(view) && packet.Value() == data && data.kind != INVALID_PACKET
      ensures r.Died? ==> view.phase.Aborted? && Fatal(view.got)
    {
      var p := new ComPacket.Of(data);
      Swap(p, packet);
      r := Received;
      if packet.kind == INVALID_PACKET {
        FinishIs(view, data);
        Do(Finish);
        r := Died;
      }
    }

    /**
     * Receives one packet, or times out, or fails. A received packet is exactly one frame off the
     * stream; without an error nothing is left half read; and the packet is only ever replaced whole.
     */
    method ReceivePacket(packet: ComPacket, ghost handles: set<PacketSubscription>) returns (r: Receipt)
      requires Valid() && Accounted() && Named() && view.phase.Polling? && Owned(handles)
      modifies this`subscribers, this`transportError, this`shut, this`nextId, this`view, transport, packet
      ensures Valid() && Accounted() && Owned(handles) && Keeps(old(view).known, view.known, clients)
      ensures r.Received? ==>
                && packet.Value().kind != INVALID_PACKET
                && HasRead(old(view), view, packet.Value())
      ensures r.NotReceived? ==>
                && packet.Value() == old(packet.Value())
                && GaveUp(old(view), view)
                && (transportError ||
                      (view.consumed == old(view).consumed && transport.patience < old(transport.patience)))
      ensures exists ready :: transport.polls == old(transport.polls) + [ready] &&
                if ready then r.NotReceived? ==> transportError else r.NotReceived? && view.consumed == old(view).consumed
      ensures r.Died? ==> view.phase.Aborted? && Fatal(view.got)
    {
      PollingHasNothing(view);
      var ready := transport.ReadyForReading();
      DoPoll(ready);
      r := NotReceived;
      if ready {
        r := ReceiveFrame(packet);
      }
      HandlesKept(handles);
    }

    method ReceiveFrame(packet: ComPacket) returns (r: Receipt)
      requires Valid() && Accounted() && Named() && view.phase.Reading? && view.got == []
      modifies this`subscribers, this`transportError, this`shut, this`nextId, this`view, transport, packet
      ensures Valid() && Accounted() && transport.polls == old(transport.polls) && Keeps(old(view).known, view.known, clients)
      ensures r.Received? ==> packet.Value().kind != INVALID_PACKET && HasRead(old(view), view, packet.Value())
      ensures r.NotReceived? ==> packet.Value() == old(packet.Value()) && GaveUp(old(view), view) && transportError
      ensures r.Died? ==> view.phase.Aborted? && Fatal(view.got)
    {
      var data;
      r, data := ReadFrame();
      if r.Received? {
        ghost var known := view.known;
        OtherThreads();
        KeepsOn(old(view).known, known, view.known, clients);
        r := HandOver(data, packet);
      }
    }

    /**
     * The greeting: a first packet that is not Hello sets the error flag for good; without a packet in
     * time the check is skipped.
     */
    method ReceiveHelloMessage(packet: ComPacket, ghost handles: set<PacketSubscription>) returns (alive: bool)
      requires Valid() && Accounted() && Named() && view.phase.Polling? && view.greeting && Owned(handles)
      modifies this`subscribers, this`transportError, this`shut, this`nextId, this`view, transport, packet
      ensures Valid() && Accounted() && Owned(handles) && (alive <==> !view.phase.Aborted?)
      ensures alive ==>
                && view.phase.Idle? && !view.greeting
                && |view.received| <= 1
                && (view.rejected <==> view.received != [] && !IsHello(view.received[0]))
                && (view.rejected ==> transportError)
    {
      GreetingIsNew(view);
      var r := ReceivePacket(packet, handles);
      alive := !r.Died?;
      if r.Received? {
        alive := CheckHello(packet);
        HandlesKept(handles);
      }
    }

    /** The first packet must be a control packet that starts with Hello. */
    method CheckHello(packet: ComPacket) returns (alive: bool)
      requires Valid() && Accounted() && view.phase.Whole? && view.greeting && view.received == [] && !view.rejected
      requires view.got == Encode(packet.Value()) && |packet.data| < INT_LIMIT && packet.kind != INVALID_PACKET
      modifies this`transportError, this`view, packet
      ensures Valid() && Accounted() && view.known == old(view).known && (alive <==> !view.phase.Aborted?)
      ensures alive <==> !(old(packet.kind) == CONTROL_PACKET && old(packet.data) == [])
      ensures alive ==> transportError == (old(transportError) || view.rejected)
      ensures alive ==>
                && view.phase.Idle? && !view.greeting && view.received == [old(packet.Value())]
                && (view.rejected <==> !IsHello(old(packet.Value()))) && (view.rejected ==> transportError)
    {
      FinishIs(view, packet.Value());
      var failHard := true;
      if packet.kind == CONTROL_PACKET {
        var sptr := new ComPacket.MoveFrom(packet);
        if sptr.data == [] {
          Do(Finish);   // there is no message byte to read
          return false;
        }
        if sptr.data[0] == HELLO {
          failHard := false;
        }
      }
      Do(Finish);
      if failHard {
        transportError := true;
      }
      alive := true;
    }

    method CallBack(s: Subscriber, p: Packet)
      requires Valid() && view.phase.Dispatching? && view.phase.packet == p
      requires view.phase.todo != [] && view.phase.todo[0] == s
      modifies this`view, this`calls
      ensures Valid() && view.phase == Dispatching(p, old(view).phase.todo[1..])
      ensures OnlyCalls(old(view), view) && Keeps(old(view).known, view.known, clients)
      ensures calls == old(calls) + [Callback(s, p)]
    {
      TodoIsKnown(view);
      RecordedCall(view.known, calls, s, p);
      IssuedSame(view.known, s, p, nextId, |Names(ids)|);
      Do(Call);
      calls := calls + [Callback(s, p)];
    }

    method CallAll(queue: seq<Subscriber>, p: Packet)
      requires Valid() && view.phase == Dispatching(p, queue)
      modifies this`view, this`calls
      ensures Valid() && view.phase == Dispatching(p, [])
      ensures OnlyCalls(old(view), view) && Keeps(old(view).known, view.known, clients)
      ensures calls == old(calls) + FanOut(queue, p)
    {
      assert queue[..0] == [];
      for i := 0 to |queue|
        invariant Valid() && view.phase == Dispatching(p, queue[i..])
        invariant OnlyCalls(old(view), view) && Keeps(old(view).known, view.known, clients)
        invariant calls == old(calls) + FanOut(queue[..i], p)
      {
        CallBack(queue[i], p);
        FanOutAppend(queue[..i], queue[i], p);
        assert queue[..i + 1] == queue[..i] + [queue[i]];
      }
      assert queue[..|queue|] == queue;
    }

    /**
     * One callback per subscriber registered when the lock is taken, in the order of subscription, and
     * none for anyone else.
     */
    method Dispatch(p: Packet, ghost handles: set<PacketSubscription>) returns (queue: seq<Subscriber>)
      requires Valid() && Accounted() && Named() && view.phase == Holding(p) && Owned(handles)
      modifies this`subscribers, this`transportError, this`shut, this`nextId, this`view, this`calls
      ensures Valid() && Accounted() && Owned(handles) && view.phase.Idle? && view.greeting == old(view).greeting
      ensures view.received == old(view).received && view.dispatched == old(view).dispatched + [p]
      ensures view.consumed == old(view).consumed
      ensures IsRoster(queue, view, p.kind)
      ensures calls == old(calls) + FanOut(queue, p)
    {
      OtherThreads();
      ghost var known := view.known;
      queue := DispatchLocked(p);
      KeepsOn(old(view).known, known, view.known, clients);
      HandlesKept(handles);
    }

    /** The part that holds the subscriber lock. */
    method DispatchLocked(p: Packet) returns (queue: seq<Subscriber>)
      requires Valid() && view.phase == Holding(p)
      modifies this`subscribers, this`view, this`calls
      ensures Valid() && view.phase.Idle? && view.rejected == old(view).rejected && view.greeting == old(view).greeting
      ensures view.received == old(view).received && view.dispatched == old(view).dispatched + [p]
      ensures view.consumed == old(view).consumed && Keeps(old(view).known, view.known, clients)
      ensures IsRoster(queue, view, p.kind)
      ensures calls == old(calls) + FanOut(queue, p)
    {
      queue := if p.kind in subscribers then subscribers[p.kind] else [];
      subscribers := subscribers[p.kind := queue];
      DoLock();
      CallAll(queue, p);
      DoUnlock();
      QueueIsLive(view, p.kind);
    }

    /** Once round the receive loop. */
    method ReceiveNext(packet: ComPacket, ghost handles: set<PacketSubscription>) returns (alive: bool)
      requires Valid() && Accounted() && Named() && Owned(handles) && view.phase.Idle? && !view.greeting && !transportError
      modifies this`subscribers, this`transportError, this`shut, this`nextId, this`view, this`calls, transport, packet
      ensures Valid() && Accounted() && Owned(handles)
      ensures if alive then view.phase.Idle? && !view.greeting else view.phase.Aborted?
      ensures alive && !transportError ==>
                || |transport.incoming| < old(|transport.incoming|)
                || (|transport.incoming| == old(|transport.incoming|) && transport.patience < old(transport.patience))
    {
      Do(Enter);
      OtherThreads();
      HandlesKept(handles);
      var r := ReceivePacket(packet, handles);
      if r.Received? {
        Deliver(packet, handles);
      }
      alive := !r.Died?;
    }

    /** What the loop does with a packet: control packets go no further. */
    method Deliver(packet: ComPacket, ghost handles: set<PacketSubscription>)
      requires Valid() && Accounted() && Named() && Owned(handles) && view.phase.Whole? && !view.greeting
      requires view.got == Encode(packet.Value()) && |packet.data| < INT_LIMIT && packet.kind != INVALID_PACKET
      modifies this`subscribers, this`transportError, this`shut, this`nextId, this`view, this`calls, packet
      ensures Valid() && Accounted() && Owned(handles) && view.phase.Idle? && !view.greeting
      ensures view.received == old(view).received + [old(packet.Value())] && view.consumed == old(view).consumed
      ensures view.dispatched == old(view).dispatched +
                (if old(packet.kind) == CONTROL_PACKET then [] else [old(packet.Value())])
    {
      FinishIs(view, packet.Value());
      var packetType := packet.kind;
      var sptr := new ComPacket.MoveFrom(packet);
      Do(Finish);
      HandlesKept(handles);
      if packetType != CONTROL_PACKET {
        var queue := Dispatch(sptr.Value(), handles);
      }
    }

    /** The loop of receiveLoop. */
    method ReceiveAll(packet: ComPacket, ghost handles: set<PacketSubscription>) returns (alive: bool)
      requires Valid() && Accounted() && Named() && Owned(handles) && view.phase.Idle? && !view.greeting
      modifies this`subscribers, this`transportError, this`shut, this`nextId, this`view, this`calls, transport, packet
      ensures Valid() && Accounted() && Owned(handles)
      ensures if alive then transportError && view.phase.Idle? && !view.greeting else view.phase.Aborted?
    {
      alive := true;
      while alive && transportError == false
        invariant Valid() && Accounted() && Named() && Owned(handles)
        invariant if alive then view.phase.Idle? && !view.greeting else view.phase.Aborted?
        decreases alive && !transportError, |transport.incoming|, transport.patience
      {
        alive := ReceiveNext(packet, handles);
      }
    }

    /**
     * The whole life of the receive thread, other threads interleaved throughout. When it ends without
     * having died, the error flag is set. Whatever happened: the bytes read are the frames of the
     * packets received and the start of one more; every subscriber's callbacks are a gapless stretch of
     * the packets received under its type; there are none after a rejected greeting; and nobody's
     * handle has lost its subscriber.
     */
    method ReceiveLoop(ghost handles: set<PacketSubscription>) returns (alive: bool)
      requires Valid() && Accounted() && Named() && view.phase.Polling? && view.greeting && Owned(handles)
      modifies this`subscribers, this`transportError, this`shut, this`nextId, this`view, this`calls, transport
      ensures Valid() && Accounted() && Owned(handles)
      ensures if alive then (shut || errorsBefore < transport.errors || view.rejected) && view.phase.Exited? else view.phase.Aborted?
      ensures view.consumed == EncodeAll(view.received) + view.got && OneFrame(view.got)
      ensures forall s :: s in view.known ==>
                IsStretch(History(view.known[s].start, view.known[s].live, CallsOf(calls, s)), OfType(view.received, s.kind))
      ensures view.rejected ==> calls == []
    {
      var packet := new ComPacket();
      alive := ReceiveHelloMessage(packet, handles);
      if alive {
        alive := ReceiveAll(packet, handles);
      }
      if alive {
        label Leaving:
        DoExit();
        HandlesKept@Leaving(handles);
      }
      LoopOutcome(view, calls);
    }

    // -------------------------------------------------------------------------------------------
    // Subscriptions

    /**
     * Who owns what, as far as these handles go: no two hold the same subscriber, none holds another
     * thread's own, and the reference count of the subscriber one holds is 1 for the handle and 1
     * more while it is queued. (Ownership has the handles and counts of all threads.)
     */
    ghost predicate Owned(handles: set<PacketSubscription>)
      reads this, blocks, handles
    {
      && (forall h, g :: h in handles && g in handles && h != g && h.subscriber.Some? ==>
            h.subscriber != g.subscriber)
      && (forall h :: h in handles && h.subscriber.Some? ==>
            var s := h.subscriber.value;
            && s in blocks.useCount && s in clients && s in view.known
            && blocks.useCount[s] == (if Queued(s) then 2 else 1))
    }

    ghost predicate Queued(s: Subscriber)
      reads this
    {
      !destroyed && s in view.known && view.known[s].live
    }

    /** Whatever leaves the clients' subscribers as they were leaves their handles' ownership as it was. */
    twostate lemma HandlesKept(handles: set<PacketSubscription>)
      requires old(Owned(handles))
      requires Keeps(old(view).known, view.known, clients) && clients == old(clients) && destroyed == old(destroyed)
      requires blocks.useCount == old(blocks.useCount)
      requires forall h :: h in handles ==> h.subscriber == old(h.subscriber)
      ensures Owned(handles)
    {
    }

    /** An unknown name throws before anything is touched. */
    method Subscribe(name: string, ghost handles: set<PacketSubscription>) returns (h: PacketSubscription?)
      requires Valid() && Named() && Unlocked(view) && !destroyed && Owned(handles)
      modifies this`subscribers, this`nextId, this`view, this`clients, blocks
      ensures Valid() && (h != null <==> name in Names(ids))
      ensures h == null ==> view == old(view) && blocks.useCount == old(blocks.useCount) && Owned(handles)
      ensures h != null ==>
                && fresh(h) && h.subscriber.Some? && Owned(handles + {h})
                && blocks.useCount == old(blocks.useCount)[h.subscriber.value := 2]
                && packetIds.ToId(name) == Some(h.subscriber.value.kind) && h.subscriber.value !in old(view).known
                && Enabled(old(view), DemuxProtocol.Subscribe(h.subscriber.value))
                && view == Apply(old(view), DemuxProtocol.Subscribe(h.subscriber.value))
    {
      var t := packetIds.ToId(name);
      if t == None {
        return null;
      }
      KnownIdInRange(name);
      var s := Register(t.value);
      HandlesKept(handles);
      h := HandOut(s, handles);
    }

    method HandOut(s: Subscriber, ghost handles: set<PacketSubscription>) returns (h: PacketSubscription)
      requires Valid() && !destroyed && Owned(handles)
      requires s in view.known && view.known[s].live && s !in clients
      modifies this`clients, blocks
      ensures blocks.useCount == old(blocks.useCount)[s := 2]
      ensures Valid() && Owned(handles + {h}) && fresh(h) && h.subscriber == Some(s)
    {
      blocks.useCount := blocks.useCount[s := 2];   // the queue's and the handle's
      clients := clients + {s};
      h := new PacketSubscription.Of(Some(s));
    }

    lemma KnownIdInRange(name: string)
      requires Named() && packetIds.ToId(name).Some?
      ensures packetIds.ToId(name).value < |Names(ids)|
    {
      var i :| 0 <= i < |Names(ids)| && Names(ids)[i] == name;
      assert packetIds.ids[Names(ids)[i]] == i % U32 <= i;
    }

    /** The name is looked up unchecked, and the source asserts that the subscriber is queued. */
    method Unsubscribe(s: Subscriber)
      requires Valid() && Named() && Unlocked(view) && Queued(s)
      requires s in blocks.useCount && 0 < blocks.useCount[s]
      modifies this`subscribers, this`view, blocks
      ensures Valid() && view == Apply(old(view), DemuxProtocol.Unsubscribe(s))
      ensures blocks.useCount == old(blocks.useCount)[s := old(blocks.useCount)[s] - 1]
    {
      var name := packetIds.ToString(s.kind);
      Remove(s);
      blocks.useCount := blocks.useCount[s := blocks.useCount[s] - 1];   // the erased element's
    }

    method IsSubscribed(s: Subscriber) returns (r: bool)
      requires Valid()
      ensures r <==> s in view.known && view.known[s].live
    {
      LiveHasSlot(view, s);
      if s.kind !in subscribers {
        return false;
      }
      var queue := subscribers[s.kind];
      for i := 0 to |queue|
        invariant forall j :: 0 <= j < i ==> queue[j] != s
      {
        if queue[i] == s {
          return true;
        }
      }
      return false;
    }

    /** The types with live subscribers, by name; a type only seen on the wire never shows up. */
    method WarnAboutSubscribers() returns (warned: map<PacketType, string>)
      requires Valid() && Named()
      ensures forall t :: t in warned <==> Slots(subscribers, t) != []
      ensures forall t :: t in warned ==> t < |Names(ids)| && warned[t] == Names(ids)[t]
    {
      warned := map[];
      var todo := subscribers.Keys;
      while todo != {}
        invariant todo <= subscribers.Keys
        invariant forall t :: t in warned <==> t in subscribers.Keys - todo && subscribers[t] != []
        invariant forall t :: t in warned ==> t < |Names(ids)| && warned[t] == Names(ids)[t]
        decreases todo
      {
        var t :| t in todo;
        if subscribers[t] != [] {
          SlotsAreLive(view, t, 0);
          SlotKind(view, t);
          warned := warned[t := packetIds.ToString(t)];
        }
        todo := todo - {t};
      }
    }

    /** The destructor up to its join: the receive thread is made to end (JoinReturns). */
    method Shutdown(ghost handles: set<PacketSubscription>) returns (warned: map<PacketType, string>)
      requires Valid() && Named() && !view.phase.Aborted? && !destroyed && Owned(handles)
      modifies this`transportError, this`shut, this`view
      ensures Valid() && shut && transportError && Owned(handles) && view == old(view).(err := true)
      ensures forall t :: t in warned <==> exists s :: s in view.known && view.known[s].live && s.kind == t
    {
      SignalTransportError();
      shut := true;
      warned := WarnAboutSubscribers();
      forall t
        ensures Slots(subscribers, t) != [] <==> exists s :: s in view.known && view.known[s].live && s.kind == t
      {
        QueueIsLive(view, t);
        if Slots(subscribers, t) != [] {
          assert Slots(subscribers, t)[0] in Slots(subscribers, t);
        }
      }
    }

    /** The rest, once the receive thread has ended: the queues release their references; handles may outlive them. */
    method Destroy(ghost handles: set<PacketSubscription>)
      requires Valid() && Named() && view.phase.Exited? && !destroyed && Owned(handles)
      modifies this`destroyed, blocks
      ensures Valid() && transportError && destroyed && Owned(handles)
      ensures forall s :: s in blocks.useCount <==> s in old(blocks.useCount)
      ensures forall s :: s in old(blocks.useCount) ==>
                blocks.useCount[s] ==
                  (if s in view.known && view.known[s].live then Less(old(blocks.useCount)[s]) else old(blocks.useCount)[s])
    {
      EndedWithError(view);
      var released := set t, i | t in subscribers && 0 <= i < |subscribers[t]| :: subscribers[t][i];
      ReleasedIsLive(view, released);
      blocks.useCount := OneLess(blocks.useCount, released);
      destroyed := true;
    }
  }

  lemma EndedWithError(d: DemuxState)
    requires Reachable(d) && d.phase.Exited?
    ensures d.err
  {
    ReachableInv(d);
  }

  function OneLess(counts: map<Subscriber, nat>, released: set<Subscriber>): map<Subscriber, nat>
  {
    map s | s in counts :: if s in released then Less(counts[s]) else counts[s]
  }

  function Less(n: nat): nat
  {
    if n == 0 then 0 else n - 1
  }

  lemma SlotKind(d: DemuxState, t: PacketType)
    requires Reachable(d) && Slots(d.subs, t) != []
    ensures Slots(d.subs, t)[0].kind == t
  {
    ReachableInv(d);
    assert OwnQueue(Slots(d.subs, t), t);
    assert Slots(d.subs, t)[0] in Slots(d.subs, t);
  }

  lemma ReleasedIsLive(d: DemuxState, released: set<Subscriber>)
    requires Reachable(d)
    requires released == set t, i | t in d.subs && 0 <= i < |d.subs[t]| :: d.subs[t][i]
    ensures forall s :: s in released <==> s in d.known && d.known[s].live
  {
    forall s
      ensures s in released <==> s in d.known && d.known[s].live
    {
      LiveHasSlot(d, s);
      if s in released {
        var t, i :| t in d.subs && 0 <= i < |d.subs[t]| && d.subs[t][i] == s;
        SlotsAreLive(d, t, i);
      }
    }
  }

  /** The handle a client holds: src/PacketSubscription.cpp. Null after it was moved from. */
  class PacketSubscription {
    var subscriber: Option<Subscriber>

    constructor Of(s: Option<Subscriber>)
      ensures subscriber == s
    {
      subscriber := s;
    }

    constructor MoveFrom(toMove: PacketSubscription, ghost comms: PacketDemuxer, ghost handles: set<PacketSubscription>)
      requires toMove in handles && comms.Owned(handles)
      modifies toMove
      ensures subscriber == old(toMove.subscriber) && toMove.subscriber == None
      ensures comms.Owned(handles + {this})
    {
      subscriber := None;
      new;
      subscriber, toMove.subscriber := toMove.subscriber, subscriber;
    }

    /** A move assignment swaps, so the target's subscriber lives on in the source. */
    method MoveAssign(toMove: PacketSubscription)
      modifies this, toMove
      ensures subscriber == old(toMove.subscriber) && toMove.subscriber == old(subscriber)
    {
      var mine := subscriber;
      subscriber := toMove.subscriber;
      toMove.subscriber := mine;
    }

    /**
     * The destructor. The reference count tells exactly whether the subscriber is still queued, so the
     * demuxer is called if and only if it is there to be called and has the subscriber.
     */
    method Destroy(comms: PacketDemuxer, ghost handles: set<PacketSubscription>)
      requires comms.Valid() && comms.Named() && Unlocked(comms.view)
      requires this in handles && comms.Owned(handles)
      modifies this, comms`subscribers, comms`view, comms.blocks
      ensures comms.Valid() && comms.Owned(handles - {this})
      ensures subscriber == None
      ensures comms.view ==
                if old(subscriber.Some? && comms.Queued(subscriber.value))
                  then Apply(old(comms.view), Unsubscribe(old(subscriber).value)) else old(comms.view)
      ensures comms.blocks.useCount ==
                if old(subscriber.Some?) then old(comms.blocks.useCount)[old(subscriber).value := 0] else old(comms.blocks.useCount)
    {
      if subscriber.Some? {
        LetGo(subscriber.value, comms);
        subscriber := None;
      }
    }

    /** Unsubscribes the subscriber if there is another reference to it, and releases this one. */
    method LetGo(s: Subscriber, comms: PacketDemuxer)
      requires comms.Valid() && comms.Named() && Unlocked(comms.view)
      requires s in comms.view.known && s in comms.blocks.useCount
      requires comms.blocks.useCount[s] == if comms.Queued(s) then 2 else 1
      modifies comms`subscribers, comms`view, comms.blocks
      ensures comms.Valid()
      ensures comms.view == if old(comms.Queued(s)) then Apply(old(comms.view), Unsubscribe(s)) else old(comms.view)
      ensures comms.blocks.useCount == old(comms.blocks.useCount)[s := 0]
    {
      if comms.blocks.useCount[s] > 1 {
        comms.Unsubscribe(s);
      }
      comms.blocks.useCount := comms.blocks.useCount[s := comms.blocks.useCount[s] - 1];
    }

    /** Afterwards every demuxer's subscribers are owned as before, by the handles that have them now. */
    twostate lemma SwapKeepsOwned(toMove: PacketSubscription, comms: PacketDemuxer, handles: set<PacketSubscription>)
      requires old(comms.Owned(handles)) && comms.view == old(comms.view) && comms.clients == old(comms.clients)
      requires comms.destroyed == old(comms.destroyed) && comms.blocks.useCount == old(comms.blocks.useCount)
      requires subscriber == old(toMove.subscriber) && toMove.subscriber == old(subscriber)
      requires forall h :: h in handles && h != this && h != toMove ==> h.subscriber == old(h.subscriber)
      ensures comms.Owned(Swapped(handles, this, toMove))
    {
    }
  }

  /** The same handles with a and b in each other's place. */
  ghost function Swapped(handles: set<PacketSubscription>, a: PacketSubscription, b: PacketSubscription): set<PacketSubscription>
  {
    handles - {a, b} + (if a in handles then {b} else {}) + (if b in handles then {a} else {})
  }
}
