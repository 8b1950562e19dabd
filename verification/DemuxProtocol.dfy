// The receiving side as a state machine: the receive thread of src/PacketDemuxer.cpp, subscribing and
// unsubscribing threads and the destructor, interleaved at mutex sections, single reads and single looks
// at the error flag.

module DemuxProtocol {
  import opened Packets
  import opened Codec

  /** A pointer to a PacketSubscriber, by the number of its registration; its type never changes. */
  datatype Subscriber = Subscriber(id: nat, kind: PacketType)

  /** What became of a subscriber: how many packets of its type went before, and its callbacks. */
  datatype History = History(start: nat, live: bool, got: seq<Packet>)

  datatype Phase =
    | Idle       // at the head of the receive loop
    | Polling    // about to call readyForReading
    | Reading    // in readBytes, about to look at the error flag
    | Fetching   // it was clear: about to call the transport
    | Whole      // it was clear when all bytes of the frame were there
    | Holding(packet: Packet)
    | Dispatching(packet: Packet, todo: seq<Subscriber>)   // holds the subscriber lock
    | Exited
    | Aborted   // failed assertion or uncaught exception

  datatype DemuxState = DemuxState(
    phase: Phase,
    greeting: bool,   // receiveHelloMessage has not returned yet
    err: bool,
    subs: map<PacketType, seq<Subscriber>>,
    consumed: seq<Byte>,
    got: seq<Byte>,   // the part of the current frame read so far
    // history
    rejected: bool,
    received: seq<Packet>,
    dispatched: seq<Packet>,
    known: map<Subscriber, History>)

  datatype Step =
    | Enter                    // the error flag is clear: once more round the loop
    | Poll(ready: bool)        // readyForReading
    | Look                     // readBytes sees that the error flag is clear
    | Take(bytes: seq<Byte>)   // one read from the transport; possibly nothing
    | ReadError                // read returned an error
    | GiveUp                   // readBytes saw the error flag
    | Finish                   // receivePacket returns the packet of a complete frame
    | Lock                     // the subscriber lock is taken and the queue looked up
    | Call                     // the next callback
    | Unlock
    | Exit
    | Subscribe(s: Subscriber)
    | Unsubscribe(s: Subscriber)
    | Shut                     // signalTransportError in the destructor

  function Init(): DemuxState
  {
    DemuxState(Polling, true, false, map[], [], [], false, [], [], map[])
  }

  function Slots(subs: map<PacketType, seq<Subscriber>>, t: PacketType): seq<Subscriber>
  {
    if t in subs then subs[t] else []
  }

  /** How many bytes the current readBytes call still wants. */
  function Want(got: seq<Byte>): nat
  {
    if |got| < 4 then 4 - |got|
    else if |got| < 8 then 8 - |got|
    else
      var size := FromBe32(got[4..8]);
      if size >= INT_LIMIT || 8 + size <= |got| then 0 else 8 + size - |got|
  }

  predicate Unlocked(d: DemuxState)
  {
    !d.phase.Dispatching? && !d.phase.Aborted?
  }

  /** A new subscriber has a larger number than all before it. */
  predicate IsNew(s: Subscriber, known: map<Subscriber, History>)
  {
    forall u :: u in known ==> u.id < s.id
  }

  predicate Enabled(d: DemuxState, a: Step)
  {
    match a
    case Enter => d.phase.Idle? && !d.err
    case Poll(_) => d.phase.Polling?
    case Look => d.phase.Reading? && !d.err
    case Take(bytes) => d.phase.Fetching? && |bytes| <= Want(d.got)
    case ReadError => d.phase.Fetching?
    case GiveUp => d.phase.Reading? && d.err
    case Finish => d.phase.Whole?
    case Lock => d.phase.Holding?
    case Call => d.phase.Dispatching? && d.phase.todo != [] && d.phase.todo[0] in d.known
    case Unlock => d.phase.Dispatching? && d.phase.todo == []
    case Exit => d.phase.Idle? && d.err
    case Subscribe(s) => Unlocked(d) && IsNew(s, d.known)
    // that the subscriber is still queued is proved in Ownership
    case Unsubscribe(s) => Unlocked(d) && s in d.known && d.known[s].live
    case Shut => !d.phase.Aborted?
  }

  /** The first packet must be a control packet that starts with Hello. */
  function Greeted(d: DemuxState, p: Packet): DemuxState
  {
    if p.kind == CONTROL_PACKET && p.data == [] then
      d.(phase := Aborted)   // the message byte is read without a length check
    else if p.kind == CONTROL_PACKET && p.data[0] == HELLO then
      d.(phase := Idle, greeting := false)
    else
      d.(phase := Idle, greeting := false, err := true, rejected := true)
  }

  /** receivePacket has returned p; it is dispatched unless it is a control packet. */
  function Arrived(d: DemuxState, p: Packet): DemuxState
  {
    var d' := d.(received := d.received + [p], got := []);
    if d.greeting then Greeted(d', p)
    else d'.(phase := if p.kind == CONTROL_PACKET then Idle else Holding(p))
  }

  // An oversized payload makes the vector's constructor throw; an invalid type fails an assertion.
  function Finished(d: DemuxState): DemuxState
  {
    match ParseFrame(d.got)
    case Complete(p, _) => if p.kind == INVALID_PACKET then d.(phase := Aborted) else Arrived(d, p)
    case _ => d.(phase := Aborted)
  }

  function Apply(d: DemuxState, a: Step): DemuxState
    requires Enabled(d, a)
  {
    match a
    case Enter => d.(phase := Polling)
    case Poll(ready) => if ready then d.(phase := Reading) else d.(phase := Idle, greeting := false)
    case Look => d.(phase := if Want(d.got) > 0 then Fetching else Whole)
    case Take(bytes) => d.(phase := Reading, consumed := d.consumed + bytes, got := d.got + bytes)
    case ReadError => d.(phase := Idle, err := true, greeting := false)
    case GiveUp => d.(phase := Idle, greeting := false)
    case Finish => Finished(d)
    case Lock =>
      var p := d.phase.packet;
      var q := Slots(d.subs, p.kind);
      d.(phase := Dispatching(p, q), subs := d.subs[p.kind := q])
    case Call =>
      var p, s := d.phase.packet, d.phase.todo[0];
      d.(phase := Dispatching(p, d.phase.todo[1..]),
         known := d.known[s := d.known[s].(got := d.known[s].got + [p])])
    case Unlock => d.(phase := Idle, dispatched := d.dispatched + [d.phase.packet])
    case Exit => d.(phase := Exited)
    case Subscribe(s) =>
      d.(subs := d.subs[s.kind := Slots(d.subs, s.kind) + [s]],
         known := d.known[s := History(|OfType(d.dispatched, s.kind)|, true, [])])
    case Unsubscribe(s) =>
      d.(subs := d.subs[s.kind := Without(Slots(d.subs, s.kind), s)],
         known := d.known[s := d.known[s].(live := false)])
    case Shut => d.(err := true)
  }

  /** The queue without any occurrence of s; everyone else keeps their place in the order. */
  function Without(q: seq<Subscriber>, s: Subscriber): seq<Subscriber>
  {
    if q == [] then []
    else Without(q[..|q| - 1], s) + (if q[|q| - 1] == s then [] else [q[|q| - 1]])
  }

  lemma {:induction false} WithoutMembers(q: seq<Subscriber>, s: Subscriber)
    ensures forall u :: u in Without(q, s) <==> u in q && u != s
  {
    if q != [] {
      var front, last := q[..|q| - 1], q[|q| - 1];
      assert q == front + [last];
      WithoutMembers(front, s);
    }
  }

  /** In the order of subscription, nobody twice. */
  predicate Ascending(q: seq<Subscriber>)
  {
    forall i, j :: 0 <= i < j < |q| ==> q[i].id < q[j].id
  }

  lemma AscendingAppend(q: seq<Subscriber>, s: Subscriber)
    requires Ascending(q) && forall u :: u in q ==> u.id < s.id
    ensures Ascending(q + [s])
  {
  }

  lemma {:induction false} WithoutAscending(q: seq<Subscriber>, s: Subscriber)
    requires Ascending(q)
    ensures Ascending(Without(q, s))
  {
    if q != [] {
      var front, last := q[..|q| - 1], q[|q| - 1];
      WithoutAscending(front, s);
      WithoutMembers(front, s);
      assert forall u :: u in front ==> u.id < last.id;
      if last != s {
        AscendingAppend(Without(front, s), last);
      }
    }
  }

  /** The order of subscription leaves no choice: the members determine the queue. */
  lemma {:induction false} AscendingUnique(a: seq<Subscriber>, b: seq<Subscriber>)
    requires Ascending(a) && Ascending(b)
    requires forall s :: s in a <==> s in b
    ensures a == b
  {
    if a != [] && b != [] {
      var x, y := a[|a| - 1], b[|b| - 1];
      LastHighest(a, y);
      LastHighest(b, x);
      assert x == y;
      AscendingFront(a);
      AscendingFront(b);
      var front, rest := a[..|a| - 1], b[..|b| - 1];
      forall s
        ensures s in front <==> s in rest
      {
        assert s in front <==> s in a && s != x;
        assert s in rest <==> s in b && s != x;
      }
      AscendingUnique(front, rest);
    } else {
      SomeMember(a);
      SomeMember(b);
    }
  }

  lemma SomeMember(q: seq<Subscriber>)
    ensures q != [] ==> exists s :: s in q
  {
    assert q != [] ==> q[0] in q;
  }

  lemma LastHighest(q: seq<Subscriber>, s: Subscriber)
    requires Ascending(q) && s in q
    ensures s == q[|q| - 1] || s.id < q[|q| - 1].id
  {
  }

  lemma AscendingFront(q: seq<Subscriber>)
    requires Ascending(q) && q != []
    ensures Ascending(q[..|q| - 1])
    ensures forall s :: s in q[..|q| - 1] <==> s in q && s != q[|q| - 1]
  {
    assert q == q[..|q| - 1] + [q[|q| - 1]];
  }

  /**
   * Removal takes out the given subscriber and keeps the order of all others: of the sequences with
   * the others as members it is the one in the order of subscription.
   */
  lemma WithoutIff(q: seq<Subscriber>, s: Subscriber, r: seq<Subscriber>)
    requires Ascending(q)
    ensures r == Without(q, s) <==> Ascending(r) && forall u :: u in r <==> u in q && u != s
  {
    WithoutAscending(q, s);
    WithoutMembers(q, s);
    if Ascending(r) && forall u :: u in r <==> u in q && u != s {
      AscendingUnique(r, Without(q, s));
    }
  }

  predicate Legal(steps: seq<Step>)
    decreases |steps|, 0
  {
    steps == [] ||
    (Legal(steps[..|steps| - 1]) && Enabled(Run(steps[..|steps| - 1]), steps[|steps| - 1]))
  }

  function Run(steps: seq<Step>): DemuxState
    requires Legal(steps)
    decreases |steps|, 1
  {
    if steps == [] then Init() else Apply(Run(steps[..|steps| - 1]), steps[|steps| - 1])
  }

  lemma RunAppend(steps: seq<Step>, a: Step)
    requires Legal(steps) && Enabled(Run(steps), a)
    ensures Legal(steps + [a]) && Run(steps + [a]) == Apply(Run(steps), a)
  {
    assert (steps + [a])[..|steps|] == steps;
  }

  /** The last step of a continuation. */
  lemma LastOf(steps: seq<Step>, more: seq<Step>)
    requires Legal(steps + more) && more != []
    ensures var front, a := more[..|more| - 1], more[|more| - 1];
            && Legal(steps + front) && Enabled(Run(steps + front), a)
            && Run(steps + more) == Apply(Run(steps + front), a)
  {
    assert (steps + more)[..|steps + more| - 1] == steps + more[..|more| - 1];
  }
}
