// What every run of the receiving side keeps.

module DemuxSafety {
  import opened Packets
  import opened Codec
  import opened DemuxProtocol

  // ---------------------------------------------------------------------------------------------
  // Invariants

  /** The bytes read are the frames of the packets received, and the start of one more. */
  ghost predicate Framed(d: DemuxState)
  {
    && d.consumed == EncodeAll(d.received) + d.got
    && AllBelow(d.received, INT_LIMIT)
    && OneFrame(d.got)
    && (Aligned(d) ==> d.got == [])
    && (d.phase.Fetching? ==> Want(d.got) > 0)
    && (d.phase.Whole? ==> Want(d.got) == 0)
  }

  ghost predicate OneFrame(got: seq<Byte>)
  {
    |got| > 8 ==> FromBe32(got[4..8]) < INT_LIMIT && |got| <= 8 + FromBe32(got[4..8])
  }

  /** Nothing is dispatched during the greeting, nor ever after a rejected one. */
  ghost predicate Gated(d: DemuxState)
  {
    && (d.greeting ==>
          && !d.rejected && (d.received == [] || d.phase.Aborted?)
          && !d.phase.Idle? && !d.phase.Holding? && !d.phase.Dispatching? && !d.phase.Exited?)
    && (d.phase.Exited? ==> d.err)
    && (d.rejected ==> d.err && (d.phase.Idle? || d.phase.Exited?) && d.received != [] && !IsHello(d.received[0]))
    && (d.greeting || d.rejected ==> d.dispatched == [] && forall s :: s in d.known ==> d.known[s].got == [])
  }

  /** What receiveHelloMessage accepts. */
  predicate IsHello(p: Packet)
  {
    p.kind == CONTROL_PACKET && p.data != [] && p.data[0] == HELLO
  }

  lemma HeartBeatIsNoHello()
    ensures IsHello(HELLO_PACKET) && !IsHello(HEART_BEAT_PACKET)
  {
  }

  /** The packet between receivePacket and the end of its dispatch. */
  ghost function InHand(d: DemuxState): seq<Packet>
  {
    if d.phase.Holding? || d.phase.Dispatching? then [d.phase.packet] else []
  }

  ghost predicate Flowing(d: DemuxState)
  {
    && OfType(d.dispatched, CONTROL_PACKET) == []
    && (d.phase.Holding? || d.phase.Dispatching? ==> d.phase.packet.kind != CONTROL_PACKET)
    && (!d.rejected ==> forall t :: t != CONTROL_PACKET ==>
          OfType(d.received, t) == OfType(d.dispatched, t) + OfType(InHand(d), t))
  }

  /** The packets of type t whose dispatch has begun. */
  ghost function Seen(d: DemuxState, t: PacketType): seq<Packet>
  {
    OfType(d.dispatched, t) + (if d.phase.Dispatching? && d.phase.packet.kind == t then [d.phase.packet] else [])
  }

  /** The registry: each queue holds the live subscribers of its type, in the order of subscription. */
  ghost predicate Registered(d: DemuxState)
  {
    && (forall t :: OwnQueue(Slots(d.subs, t), t))
    && (forall s: Subscriber :: s in Slots(d.subs, s.kind) <==> s in d.known && d.known[s].live)
    && (d.phase.Dispatching? ==> IsTail(d.phase.todo, Slots(d.subs, d.phase.packet.kind)))
  }

  ghost predicate OwnQueue(q: seq<Subscriber>, t: PacketType)
  {
    Ascending(q) && forall s :: s in q ==> s.kind == t
  }

  predicate IsTail(todo: seq<Subscriber>, q: seq<Subscriber>)
  {
    |todo| <= |q| && todo == q[|q| - |todo|..]
  }

  /**
   * The callbacks of s so far are the packets of its type from its registration on, without a gap;
   * while s is registered they reach up to the packet being dispatched now.
   */
  ghost predicate InSequence(d: DemuxState, s: Subscriber)
    requires s in d.known
  {
    var r, seen := d.known[s], Seen(d, s.kind);
    && r.start + |r.got| <= |seen|
    && r.got == seen[r.start..r.start + |r.got|]
    && (r.live ==> r.start + |r.got| + (if Pending(d, s) then 1 else 0) == |seen|)
  }

  ghost predicate Pending(d: DemuxState, s: Subscriber)
  {
    d.phase.Dispatching? && s in d.phase.todo
  }

  ghost predicate Inv(d: DemuxState)
  {
    && Framed(d) && Gated(d) && Flowing(d) && Registered(d)
    && forall s :: s in d.known ==> InSequence(d, s)
  }

  // ---------------------------------------------------------------------------------------------
  // Preservation

  /** The read either ends the process or has taken exactly one frame. */
  lemma FinishCases(d: DemuxState) returns (p: Packet)
    requires OneFrame(d.got) && Want(d.got) == 0 && Enabled(d, Finish)
    ensures Apply(d, Finish) != d.(phase := Aborted) ==>
              && d.got == Encode(p) && |p.data| < INT_LIMIT && p.kind != INVALID_PACKET
              && Apply(d, Finish) == Arrived(d, p)
  {
    var r := ParseFrame(d.got);
    if r.Complete? {
      p := r.packet;
      ParsedIsEncoded(d.got);
      assert d.got[..r.length] == d.got;
    } else {
      p := HELLO_PACKET;
    }
  }

  lemma ArrivedFramed(d: DemuxState, p: Packet)
    requires Framed(d) && d.got == Encode(p) && |p.data| < INT_LIMIT && d.phase.Whole?
    ensures Framed(Arrived(d, p))
  {
    ArrivedData(d, p);
    EncodeAllAppend(d.received, p);
    AllBelowAppend(d.received, p, INT_LIMIT);
    NothingHalfRead(Arrived(d, p));
  }

  lemma ArrivedData(d: DemuxState, p: Packet)
    ensures var d' := Arrived(d, p);
            && d'.received == d.received + [p] && d'.got == [] && d'.consumed == d.consumed
            && (d.phase.Whole? ==> !d'.phase.Fetching? && !d'.phase.Whole?)
  {
  }

  lemma NothingHalfRead(d: DemuxState)
    requires d.got == [] && d.consumed == EncodeAll(d.received) && AllBelow(d.received, INT_LIMIT)
    requires !d.phase.Fetching? && !d.phase.Whole?
    ensures Framed(d)
  {
    NoneLeft(EncodeAll(d.received));
  }

  lemma AllBelowAppend(ps: seq<Packet>, p: Packet, limit: int)
    requires AllBelow(ps, limit) && |p.data| < limit
    ensures AllBelow(ps + [p], limit)
  {
  }

  lemma NoneLeft(bytes: seq<Byte>)
    ensures bytes + [] == bytes
  {
  }

  lemma FinishFramed(d: DemuxState)
    requires Framed(d) && Enabled(d, Finish)
    ensures Framed(Apply(d, Finish))
  {
    var p := FinishCases(d);
    if Apply(d, Finish) != d.(phase := Aborted) {
      ArrivedFramed(d, p);
    }
  }

  lemma TakeFramed(d: DemuxState, bytes: seq<Byte>)
    requires Framed(d) && Enabled(d, Take(bytes))
    ensures Framed(Apply(d, Take(bytes)))
  {
    Assoc(EncodeAll(d.received), d.got, bytes);
    if |d.got| >= 8 {
      HeaderKept(d.got, bytes);
    }
  }

  lemma HeaderKept(a: seq<Byte>, b: seq<Byte>)
    requires |a| >= 8
    ensures (a + b)[4..8] == a[4..8]
  {
  }

  lemma StepFramed(d: DemuxState, a: Step)
    requires Framed(d) && Gated(d) && Enabled(d, a)
    ensures Framed(Apply(d, a))
  {
    match a
    case Finish => FinishFramed(d);
    case Take(bytes) => TakeFramed(d, bytes);
    case _ =>
  }

  lemma ReceiveOne(received: seq<Packet>, dispatched: seq<Packet>, p: Packet, t: PacketType)
    requires OfType(received, t) == OfType(dispatched, t)
    ensures OfType(received + [p], t) == OfType(dispatched, t) + (if p.kind == t then [p] else [])
  {
    OfTypeAppend(received, p, t);
  }

  /** Afterwards the packet is in hand, or is a control packet, or closed the gate. */
  lemma ArrivedInHand(d: DemuxState, p: Packet)
    requires Gated(d) && d.phase.Whole?
    ensures var d' := Arrived(d, p);
            && d'.received == d.received + [p] && d'.dispatched == d.dispatched
            && (InHand(d') == [p] <==> d'.phase.Holding?)
            && (InHand(d') == [] <==> !d'.phase.Holding?)
            && (d'.rejected || (d'.phase.Holding? <==> p.kind != CONTROL_PACKET))
  {
  }

  lemma ArrivedFlowing(d: DemuxState, p: Packet)
    requires Gated(d) && Flowing(d) && d.phase.Whole?
    ensures Flowing(Arrived(d, p))
  {
    var d' := Arrived(d, p);
    ArrivedInHand(d, p);
    if !d'.rejected {
      forall t | t != CONTROL_PACKET
        ensures OfType(d'.received, t) == OfType(d'.dispatched, t) + OfType(InHand(d'), t)
      {
        assert OfType(d.received, t) == OfType(d.dispatched, t) + OfType(InHand(d), t);
        ReceiveOne(d.received, d.dispatched, p, t);
        OfTypeOne(p, t);
      }
    }
  }

  lemma FinishFlowing(d: DemuxState)
    requires Framed(d) && Gated(d) && Flowing(d) && Enabled(d, Finish)
    ensures Flowing(Apply(d, Finish))
  {
    var p := FinishCases(d);
    if Apply(d, Finish) != d.(phase := Aborted) {
      ArrivedFlowing(d, p);
    } else {
      assert InHand(d.(phase := Aborted)) == InHand(d);
    }
  }

  lemma FinishGated(d: DemuxState)
    requires Framed(d) && Gated(d) && Enabled(d, Finish)
    ensures Gated(Apply(d, Finish))
  {
    var p := FinishCases(d);
  }

  lemma UnlockData(d: DemuxState)
    requires Enabled(d, Unlock)
    ensures var d', p := Apply(d, Unlock), d.phase.packet;
            && d'.phase == Idle && d'.received == d.received && d'.rejected == d.rejected
            && d'.dispatched == d.dispatched + [p] && InHand(d) == [p] && InHand(d') == []
  {
  }

  lemma OneDispatched(all: seq<Packet>, dispatched: seq<Packet>, p: Packet, t: PacketType)
    requires all == OfType(dispatched, t) + OfType([p], t)
    ensures all == OfType(dispatched + [p], t) + OfType([], t)
  {
    OfTypeConcat(dispatched, [p], t);
  }

  lemma UnlockFlowing(d: DemuxState)
    requires Flowing(d) && Enabled(d, Unlock)
    ensures Flowing(Apply(d, Unlock))
  {
    var d', p := Apply(d, Unlock), d.phase.packet;
    UnlockData(d);
    OfTypeAppend(d.dispatched, p, CONTROL_PACKET);
    if !d.rejected {
      forall t | t != CONTROL_PACKET
        ensures OfType(d'.received, t) == OfType(d'.dispatched, t) + OfType(InHand(d'), t)
      {
        assert OfType(d.received, t) == OfType(d.dispatched, t) + OfType(InHand(d), t);
        OneDispatched(OfType(d.received, t), d.dispatched, p, t);
      }
    }
  }

  lemma StepGated(d: DemuxState, a: Step)
    requires Framed(d) && Gated(d) && Enabled(d, a)
    ensures Gated(Apply(d, a))
  {
    if a.Finish? {
      FinishGated(d);
    }
  }

  lemma StepFlowing(d: DemuxState, a: Step)
    requires Framed(d) && Gated(d) && Flowing(d) && Enabled(d, a)
    ensures Flowing(Apply(d, a))
  {
    match a
    case Finish => FinishFlowing(d);
    case Unlock => UnlockFlowing(d);
    case _ => assert InHand(Apply(d, a)) == InHand(d);
  }

  lemma SubscribeRegistered(d: DemuxState, s: Subscriber)
    requires Registered(d) && Enabled(d, Subscribe(s))
    ensures Registered(Apply(d, Subscribe(s)))
  {
    var subs' := Apply(d, Subscribe(s)).subs;
    assert OwnQueue(Slots(d.subs, s.kind), s.kind);
    AscendingAppend(Slots(d.subs, s.kind), s);
    forall t
      ensures OwnQueue(Slots(subs', t), t)
    {
      assert OwnQueue(Slots(d.subs, t), t);
    }
  }

  lemma UnsubscribeRegistered(d: DemuxState, s: Subscriber)
    requires Registered(d) && Enabled(d, Unsubscribe(s))
    ensures Registered(Apply(d, Unsubscribe(s)))
  {
    var subs' := Apply(d, Unsubscribe(s)).subs;
    assert OwnQueue(Slots(d.subs, s.kind), s.kind);
    WithoutAscending(Slots(d.subs, s.kind), s);
    WithoutMembers(Slots(d.subs, s.kind), s);
    forall t
      ensures OwnQueue(Slots(subs', t), t)
    {
      assert OwnQueue(Slots(d.subs, t), t);
    }
  }

  lemma CallRegistered(d: DemuxState)
    requires Registered(d) && Enabled(d, Call)
    ensures Registered(Apply(d, Call))
  {
    var q, todo := Slots(d.subs, d.phase.packet.kind), d.phase.todo;
    assert IsTail(todo[1..], q);
  }

  lemma QuietRegistered(d: DemuxState, d': DemuxState)
    requires Registered(d) && d'.subs == d.subs && d'.known == d.known && !d'.phase.Dispatching?
    ensures Registered(d')
  {
  }

  lemma LockRegistered(d: DemuxState)
    requires Registered(d) && Enabled(d, Lock)
    ensures Registered(Apply(d, Lock))
  {
    var d' := Apply(d, Lock);
    assert forall t :: Slots(d'.subs, t) == Slots(d.subs, t);
    assert IsTail(d'.phase.todo, Slots(d.subs, d.phase.packet.kind));
  }

  lemma ShutRegistered(d: DemuxState)
    requires Registered(d) && Enabled(d, Shut)
    ensures Registered(Apply(d, Shut))
  {
  }

  lemma FinishRegistered(d: DemuxState)
    requires Registered(d) && Enabled(d, Finish)
    ensures Registered(Apply(d, Finish))
  {
    FinishQuiet(d);
    QuietRegistered(d, Apply(d, Finish));
  }

  /** The registry and its history are as before, and nothing is being dispatched. */
  predicate Quiet(d: DemuxState, d': DemuxState)
  {
    && d'.subs == d.subs && d'.known == d.known && d'.dispatched == d.dispatched
    && d'.consumed == d.consumed && !d'.phase.Dispatching?
  }

  lemma GreetedQuiet(d: DemuxState, p: Packet)
    ensures Quiet(d, Greeted(d, p))
  {
  }

  lemma ArrivedQuiet(d: DemuxState, p: Packet)
    ensures Quiet(d, Arrived(d, p))
  {
    GreetedQuiet(d.(received := d.received + [p], got := []), p);
  }

  lemma FinishQuiet(d: DemuxState)
    requires Enabled(d, Finish)
    ensures Quiet(d, Apply(d, Finish))
  {
    var r := ParseFrame(d.got);
    if r.Complete? {
      ArrivedQuiet(d, r.packet);
    }
  }

  lemma StepRegistered(d: DemuxState, a: Step)
    requires Registered(d) && Enabled(d, a)
    ensures Registered(Apply(d, a))
  {
    match a
    case Subscribe(s) => SubscribeRegistered(d, s);
    case Unsubscribe(s) => UnsubscribeRegistered(d, s);
    case Call => CallRegistered(d);
    case Lock => LockRegistered(d);
    case Finish => FinishRegistered(d);
    case Shut => ShutRegistered(d);
    case _ => QuietRegistered(d, Apply(d, a));
  }

  lemma TailSplits(todo: seq<Subscriber>, q: seq<Subscriber>, t: PacketType)
    requires IsTail(todo, q) && todo != [] && OwnQueue(q, t)
    ensures todo[0] in q && todo[0].kind == t && todo[0] !in todo[1..]
    ensures forall s :: s in todo <==> s == todo[0] || s in todo[1..]
  {
    assert todo[0] == q[|q| - |todo|];
    assert todo == [todo[0]] + todo[1..];
  }

  /** Whoever is called next is of the right type, and is not called again. */
  lemma NextCalled(d: DemuxState)
    requires Registered(d) && d.phase.Dispatching? && d.phase.todo != []
    ensures var todo := d.phase.todo;
            && todo[0] in Slots(d.subs, d.phase.packet.kind) && todo[0].kind == d.phase.packet.kind
            && todo[0] in d.known && d.known[todo[0]].live
            && todo[0] !in todo[1..] && forall s :: s in todo <==> s == todo[0] || s in todo[1..]
  {
    var t := d.phase.packet.kind;
    assert OwnQueue(Slots(d.subs, t), t);
    TailSplits(d.phase.todo, Slots(d.subs, t), t);
  }

  lemma CallInSequence(d: DemuxState, s: Subscriber)
    requires Registered(d) && Enabled(d, Call) && s in d.known && InSequence(d, s)
    ensures InSequence(Apply(d, Call), s)
  {
    NextCalled(d);
    CalledInSequence(d, s);
  }

  lemma CalledInSequence(d: DemuxState, s: Subscriber)
    requires Enabled(d, Call) && s in d.known && InSequence(d, s)
    requires var todo := d.phase.todo;
             todo[0].kind == d.phase.packet.kind && todo[0] !in todo[1..] && (s in todo <==> s == todo[0] || s in todo[1..])
    requires d.known[d.phase.todo[0]].live
    ensures InSequence(Apply(d, Call), s)
  {
    assert Seen(Apply(d, Call), s.kind) == Seen(d, s.kind);
  }

  /** Those about to be called when the lock is taken are the registered subscribers of the type. */
  lemma LockPending(d: DemuxState, s: Subscriber)
    requires Registered(d) && Enabled(d, Lock) && s in d.known
    ensures Pending(Apply(d, Lock), s) <==> s.kind == d.phase.packet.kind && d.known[s].live
  {
    var t := d.phase.packet.kind;
    assert OwnQueue(Slots(d.subs, t), t);
    assert s in Slots(d.subs, s.kind) <==> d.known[s].live;
  }

  lemma LockInSequence(d: DemuxState, s: Subscriber)
    requires Registered(d) && Enabled(d, Lock) && s in d.known && InSequence(d, s)
    ensures InSequence(Apply(d, Lock), s)
  {
    var p := d.phase.packet;
    LockPending(d, s);
    assert Seen(Apply(d, Lock), s.kind) == Seen(d, s.kind) + (if p.kind == s.kind then [p] else []);
  }

  lemma UnlockInSequence(d: DemuxState, s: Subscriber)
    requires Enabled(d, Unlock) && s in d.known && InSequence(d, s)
    ensures InSequence(Apply(d, Unlock), s)
  {
    OfTypeAppend(d.dispatched, d.phase.packet, s.kind);
    assert Seen(Apply(d, Unlock), s.kind) == Seen(d, s.kind);
  }

  lemma QuietInSequence(d: DemuxState, d': DemuxState, s: Subscriber)
    requires s in d.known && InSequence(d, s) && s in d'.known
    requires d'.dispatched == d.dispatched && !d.phase.Dispatching? && !d'.phase.Dispatching?
    requires d'.known[s] == d.known[s] || d'.known[s] == d.known[s].(live := false)
    ensures InSequence(d', s)
  {
    assert Seen(d', s.kind) == Seen(d, s.kind);
  }

  lemma SubscribeInSequence(d: DemuxState, u: Subscriber, s: Subscriber)
    requires Enabled(d, Subscribe(u)) && s in Apply(d, Subscribe(u)).known
    requires s in d.known ==> InSequence(d, s)
    ensures InSequence(Apply(d, Subscribe(u)), s)
  {
    if s != u {
      QuietInSequence(d, Apply(d, Subscribe(u)), s);
    }
  }

  lemma ShutInSequence(d: DemuxState, s: Subscriber)
    requires Enabled(d, Shut) && s in d.known && InSequence(d, s)
    ensures InSequence(Apply(d, Shut), s)
  {
    assert Seen(Apply(d, Shut), s.kind) == Seen(d, s.kind);
  }

  /** Steps that touch neither the dispatch nor any history beyond unsubscribing. */
  lemma PlainInSequence(d: DemuxState, a: Step, s: Subscriber)
    requires Enabled(d, a) && s in d.known && InSequence(d, s)
    requires a.Enter? || a.Poll? || a.Look? || a.Take? || a.ReadError? || a.GiveUp? || a.Exit? || a.Unsubscribe?
    ensures InSequence(Apply(d, a), s)
  {
    QuietInSequence(d, Apply(d, a), s);
  }

  lemma StepInSequence(d: DemuxState, a: Step, s: Subscriber)
    requires Registered(d) && Enabled(d, a) && s in Apply(d, a).known
    requires s in d.known ==> InSequence(d, s)
    ensures InSequence(Apply(d, a), s)
  {
    if a.Subscribe? {
      SubscribeInSequence(d, a.s, s);
    } else if a.Finish? {
      FinishQuiet(d);
      QuietInSequence(d, Apply(d, Finish), s);
    } else {
      OtherInSequence(d, a, s);
    }
  }

  lemma OtherInSequence(d: DemuxState, a: Step, s: Subscriber)
    requires Registered(d) && Enabled(d, a) && !a.Subscribe? && !a.Finish? && s in Apply(d, a).known
    requires s in d.known ==> InSequence(d, s)
    ensures InSequence(Apply(d, a), s)
  {
    match a
    case Unlock => UnlockInSequence(d, s);
    case Lock => LockInSequence(d, s);
    case Call => CallInSequence(d, s);
    case Shut => ShutInSequence(d, s);
    case _ => PlainInSequence(d, a, s);
  }

  lemma StepKeeps(d: DemuxState, a: Step)
    requires Inv(d) && Enabled(d, a)
    ensures Inv(Apply(d, a))
  {
    StepFramed(d, a);
    StepGated(d, a);
    StepFlowing(d, a);
    StepRegistered(d, a);
    forall s | s in Apply(d, a).known
      ensures InSequence(Apply(d, a), s)
    {
      StepInSequence(d, a, s);
    }
  }

  lemma {:induction false} RunKeeps(steps: seq<Step>)
    requires Legal(steps)
    ensures Inv(Run(steps))
  {
    if steps != [] {
      RunKeeps(steps[..|steps| - 1]);
      StepKeeps(Run(steps[..|steps| - 1]), steps[|steps| - 1]);
    } else {
      assert EncodeAll([]) + [] == [];
    }
  }

  // ---------------------------------------------------------------------------------------------
  // Reachable states

  /** A reachable state is in every set that holds the initial state and is closed under steps. */
  ghost predicate Reachable(d: DemuxState)
  {
    forall states: iset<DemuxState> | Closed(states) :: d in states
  }

  ghost predicate Closed(states: iset<DemuxState>)
  {
    Init() in states && forall d, a | d in states && Enabled(d, a) :: Apply(d, a) in states
  }

  lemma ReachableStep(d: DemuxState, a: Step)
    requires Reachable(d) && Enabled(d, a)
    ensures Reachable(Apply(d, a))
  {
  }

  ghost predicate EndOfRun(d: DemuxState)
  {
    exists steps :: Legal(steps) && Run(steps) == d
  }

  ghost function Ends(): iset<DemuxState>
  {
    iset d | EndOfRun(d)
  }

  lemma EndsClosed()
    ensures Closed(Ends())
  {
    assert Legal([]) && EndOfRun(Init());
    forall r, a | r in Ends() && Enabled(r, a)
      ensures Apply(r, a) in Ends()
    {
      var steps :| Legal(steps) && Run(steps) == r;
      RunAppend(steps, a);
      assert EndOfRun(Apply(r, a));
    }
  }

  lemma {:induction false} RunReachable(steps: seq<Step>)
    requires Legal(steps)
    ensures Reachable(Run(steps))
  {
    if steps != [] {
      RunReachable(steps[..|steps| - 1]);
      ReachableStep(Run(steps[..|steps| - 1]), steps[|steps| - 1]);
    }
  }

  /** The reachable states are the ends of the legal runs. */
  lemma ReachableByRun(d: DemuxState)
    ensures Reachable(d) <==> EndOfRun(d)
  {
    EndsClosed();
    assert Reachable(d) ==> d in Ends();
    if EndOfRun(d) {
      var steps :| Legal(steps) && Run(steps) == d;
      RunReachable(steps);
    }
  }

  lemma ReachableInv(d: DemuxState)
    requires Reachable(d)
    ensures Inv(d)
  {
    ReachableByRun(d);
    var steps :| Legal(steps) && Run(steps) == d;
    RunKeeps(steps);
  }

  // ---------------------------------------------------------------------------------------------
  // Over every run

  /**
   * Whenever the receive loop is between two packets without an error, it has read whole frames
   * only, and they are the packets it has received.
   */
  lemma FrameAlignment(steps: seq<Step>)
    requires Legal(steps)
    ensures Aligned(Run(steps)) ==>
              Run(steps).consumed == EncodeAll(Run(steps).received) && Decode(Run(steps).consumed) == Run(steps).received
  {
    RunKeeps(steps);
    var d := Run(steps);
    if Aligned(d) {
      NoneLeft(EncodeAll(d.received));
      DecodeWhole(d.received);
    }
  }

  predicate Aligned(d: DemuxState)
  {
    d.phase.Polling? || (d.phase.Idle? && !d.err) || d.phase.Holding? || d.phase.Dispatching?
  }

  /** How many reads from the transport there are among the steps. */
  function Reads(steps: seq<Step>): nat
  {
    if steps == [] then 0 else Reads(steps[..|steps| - 1]) + (if steps[|steps| - 1].Take? then 1 else 0)
  }

  /**
   * What is left to happen once the error flag is set in d: the read that had already been decided
   * on, or the packet whose last check had already passed.
   */
  ghost predicate WoundDown(d: DemuxState, d': DemuxState, n: nat)
  {
    && d'.err
    && (d'.phase.Fetching? || d'.phase.Whole? ==> d'.phase == d.phase && n == 0)
    && (d'.phase == d.phase && (d.phase.Fetching? || d.phase.Whole?) ==>
          d'.consumed == d.consumed && d'.got == d.got && d'.received == d.received)
    && d.consumed <= d'.consumed
    && |d'.consumed| <= |d.consumed| + (if d.phase.Fetching? then Want(d.got) else 0)
    && n <= (if d.phase.Fetching? then 1 else 0)
    && (n == 0 ==> d'.consumed == d.consumed)
    && (d'.received == d.received || (d.phase.Whole? && d'.received == d.received + WholePacket(d.got)))
  }

  function WholePacket(got: seq<Byte>): seq<Packet>
  {
    match ParseFrame(got)
    case Complete(p, _) => [p]
    case _ => []
  }

  lemma WoundDownFinish(d: DemuxState, d': DemuxState, n: nat)
    requires WoundDown(d, d', n) && Enabled(d', Finish)
    ensures WoundDown(d, Apply(d', Finish), n)
  {
  }

  lemma WoundDownStep(d: DemuxState, d': DemuxState, n: nat, a: Step)
    requires WoundDown(d, d', n) && Enabled(d', a)
    ensures WoundDown(d, Apply(d', a), n + (if a.Take? then 1 else 0))
  {
    if a.Finish? {
      WoundDownFinish(d, d', n);
    }
  }

  /**
   * Whoever sets the error flag, and whenever: after that at most one more read takes bytes, and only
   * if the receive thread had looked at the flag before; no packet is received any more except one
   * whose bytes were all there when the flag was last found clear. So a frame given up is never resumed.
   */
  lemma {:induction false} NothingMore(steps: seq<Step>, more: seq<Step>)
    requires Legal(steps + more) && Legal(steps) && Run(steps).err
    ensures WoundDown(Run(steps), Run(steps + more), Reads(more))
    decreases |more|
  {
    if more == [] {
      assert steps + more == steps;
    } else {
      var front := more[..|more| - 1];
      LastOf(steps, more);
      NothingMore(steps, front);
      WoundDownStep(Run(steps), Run(steps + front), Reads(front), more[|more| - 1]);
    }
  }

  ghost predicate StillReads(steps: seq<Step>)
    requires Legal(steps)
  {
    exists more :: Legal(steps + more) && Run(steps + more).consumed != Run(steps).consumed
  }

  ghost predicate StillReceives(steps: seq<Step>)
    requires Legal(steps)
  {
    exists more :: Legal(steps + more) && Run(steps + more).received != Run(steps).received
  }

  lemma FetchingWants(steps: seq<Step>)
    requires Legal(steps) && Run(steps).phase.Fetching?
    ensures Want(Run(steps).got) > 0
  {
    RunKeeps(steps);
  }

  /**
   * The flag can be set after readBytes has looked at it. Once it is set, bytes are still read in some
   * continuation if and only if that look has been taken and the read has not.
   */
  lemma ReadAfterShutIff(steps: seq<Step>)
    requires Legal(steps) && Run(steps).err
    ensures StillReads(steps) <==> Run(steps).phase.Fetching?
  {
    if Run(steps).phase.Fetching? {
      FetchingWants(steps);
      RunAppend(steps, Take([0]));
      assert Run(steps + [Take([0])]).consumed == Run(steps).consumed + [0];
    } else {
      forall more | Legal(steps + more)
        ensures Run(steps + more).consumed == Run(steps).consumed
      {
        NothingMore(steps, more);
      }
    }
  }

  /** Such a state: the destructor has set the flag between the look and the read. */
  lemma ReadAfterShut() returns (steps: seq<Step>)
    ensures Legal(steps) && Run(steps).err && StillReads(steps)
  {
    RunAppend([], Poll(true));
    RunAppend([Poll(true)], Look);
    RunAppend([Poll(true)] + [Look], Shut);
    steps := [Poll(true)] + [Look] + [Shut];
    ReadAfterShutIff(steps);
  }

  /** And a packet is still received if and only if all its bytes were there at the last look, and it is a valid one. */
  lemma ReceivedAfterShutIff(steps: seq<Step>)
    requires Legal(steps) && Run(steps).err
    ensures StillReceives(steps) <==>
              Run(steps).phase.Whole? && exists p :: WholePacket(Run(steps).got) == [p] && p.kind != INVALID_PACKET
  {
    var d := Run(steps);
    if d.phase.Whole? && Apply(d, Finish).received != d.received {
      RunAppend(steps, Finish);
    } else {
      forall more | Legal(steps + more)
        ensures Run(steps + more).received == d.received
      {
        NoneReceived(steps, more);
      }
    }
    if d.phase.Whole? {
      FinishReceives(d);
    }
  }

  lemma FinishReceives(d: DemuxState)
    requires Enabled(d, Finish)
    ensures Apply(d, Finish).received != d.received <==>
              exists p :: WholePacket(d.got) == [p] && p.kind != INVALID_PACKET
  {
    var r := ParseFrame(d.got);
    if r.Complete? {
      assert WholePacket(d.got) == [r.packet];
      if r.packet.kind != INVALID_PACKET {
        ArrivedData(d, r.packet);
      }
    }
  }

  ghost predicate Unreceiving(d: DemuxState, d': DemuxState)
  {
    && d'.err && d'.received == d.received
    && (d'.phase.Whole? ==> d'.got == d.got && Enabled(d', Finish) && Apply(d', Finish).received == d'.received)
  }

  lemma {:induction false} NoneReceived(steps: seq<Step>, more: seq<Step>)
    requires Legal(steps) && Legal(steps + more) && Run(steps).err
    requires Run(steps).phase.Whole? ==> Apply(Run(steps), Finish).received == Run(steps).received
    ensures Unreceiving(Run(steps), Run(steps + more))
    decreases |more|
  {
    if more == [] {
      assert steps + more == steps;
    } else {
      LastOf(steps, more);
      NoneReceived(steps, more[..|more| - 1]);
      UnreceivingStep(Run(steps), Run(steps + more[..|more| - 1]), more[|more| - 1]);
    }
  }

  lemma SameFinish(d: DemuxState, e: DemuxState)
    requires Enabled(d, Finish) && Enabled(e, Finish) && d.got == e.got
    ensures Apply(d, Finish).received == d.received <==> Apply(e, Finish).received == e.received
  {
    FinishReceives(d);
    FinishReceives(e);
  }

  lemma UnreceivingStep(d: DemuxState, d': DemuxState, a: Step)
    requires Unreceiving(d, d') && Enabled(d', a)
    ensures Unreceiving(d, Apply(d', a))
  {
    var e := Apply(d', a);
    if a.Finish? {
      FinishQuietly(d');
    } else if e.phase.Whole? {
      assert d'.phase.Whole? && e.got == d'.got;
      SameFinish(d', e);
    }
  }

  lemma FinishQuietly(d: DemuxState)
    requires Enabled(d, Finish) && d.err
    ensures Apply(d, Finish).err && !Apply(d, Finish).phase.Whole?
  {
  }

  /** The steps of the receive thread, as opposed to those of other threads. */
  predicate Own(a: Step)
  {
    !a.Subscribe? && !a.Unsubscribe? && !a.Shut?
  }

  function Stage(phase: Phase): nat
  {
    match phase
    case Exited => 0
    case Aborted => 0
    case Idle => 1
    case Reading => 2
    case Polling => 3
    case Fetching => 3
    case Dispatching(_, _) => 4
    case Holding(_) => 5
    case Whole => 6
  }

  predicate Nearer(a: Phase, b: Phase)
  {
    Stage(a) < Stage(b) || (a.Dispatching? && b.Dispatching? && |a.todo| < |b.todo|)
  }

  predicate WindsDown(d: DemuxState, a: Step)
    requires Enabled(d, a)
  {
    var d' := Apply(d, a);
    d'.err && if Own(a) then Nearer(d'.phase, d.phase) else d'.phase == d.phase
  }

  /**
   * With the error flag set, every step of the receive thread brings its end nearer, whatever other
   * threads do in between, and it always has one: so the destructor's join returns.
   */
  lemma JoinReturns(d: DemuxState) returns (next: Step)
    requires Inv(d) && d.err
    ensures forall a :: Enabled(d, a) ==> WindsDown(d, a)
    ensures !d.phase.Exited? && !d.phase.Aborted? ==> Enabled(d, next) && Own(next)
  {
    forall a | Enabled(d, a)
      ensures WindsDown(d, a)
    {
      StepNearer(d, a);
    }
    match d.phase
    case Idle => next := Exit;
    case Polling => next := Poll(false);
    case Reading => next := GiveUp;
    case Fetching => next := ReadError;
    case Whole => next := Finish;
    case Holding(_) => next := Lock;
    case Dispatching(p, todo) =>
      next := if todo == [] then Unlock else Call;
      if todo != [] {
        NextCalled(d);
      }
    case _ => next := Shut;
  }

  lemma StepNearer(d: DemuxState, a: Step)
    requires d.err && Enabled(d, a)
    ensures WindsDown(d, a)
  {
  }

  lemma SilentStep(d: DemuxState, a: Step, s: Subscriber)
    requires Registered(d) && Enabled(d, a) && s in d.known && !d.known[s].live
    ensures s in Apply(d, a).known && Apply(d, a).known[s] == d.known[s]
  {
    match a
    case Call => NextCalled(d);
    case Finish => FinishQuiet(d);
    case _ =>
  }

  /** After unsubscribe has returned, the callback of that subscriber never runs again. */
  lemma {:induction false} Quiescence(steps: seq<Step>, more: seq<Step>, s: Subscriber)
    requires Legal(steps + more) && Legal(steps) && s in Run(steps).known && !Run(steps).known[s].live
    ensures s in Run(steps + more).known && Run(steps + more).known[s] == Run(steps).known[s]
    decreases |more|
  {
    if more == [] {
      assert steps + more == steps;
    } else {
      var front := more[..|more| - 1];
      LastOf(steps, more);
      Quiescence(steps, front, s);
      RunKeeps(steps + front);
      SilentStep(Run(steps + front), more[|more| - 1], s);
    }
  }

  /** Once a greeting was rejected, no callback has run or will run, and the error flag is set. */
  lemma RejectedSilence(steps: seq<Step>, more: seq<Step>)
    requires Legal(steps + more) && Legal(steps) && Run(steps).rejected
    ensures Run(steps + more).err
    ensures forall s :: s in Run(steps + more).known ==> Run(steps + more).known[s].got == []
  {
    RejectedStays(steps, more);
    RunKeeps(steps + more);
  }

  /** What the first readyForReading of the run said: the one receiveHelloMessage waits in. */
  function FirstPoll(steps: seq<Step>): Option<bool>
  {
    if steps == [] then None
    else
      var before, last := FirstPoll(steps[..|steps| - 1]), steps[|steps| - 1];
      if before == None && last.Poll? then Some(last.ready) else before
  }

  ghost predicate FirstIsOther(d: DemuxState)
  {
    d.received != [] && !IsHello(d.received[0])
  }

  /** How far the greeting has come, given what the first poll said. */
  ghost predicate GreetingAt(d: DemuxState, first: Option<bool>)
  {
    match first
    case None => d.greeting && d.phase.Polling? && d.received == [] && !d.rejected
    case Some(false) => !d.greeting && !d.rejected
    case Some(true) =>
      && (d.greeting ==> !d.rejected && (d.phase.Aborted? || (d.received == [] && !d.phase.Polling?)))
      && (!d.greeting ==>
            && (d.rejected <==> FirstIsOther(d))
            && (d.received == [] ==> d.err && (d.phase.Idle? || d.phase.Exited?)))
  }

  lemma FirstPollStep(d: DemuxState, ready: bool)
    requires GreetingAt(d, None) && Enabled(d, Poll(ready))
    ensures GreetingAt(Apply(d, Poll(ready)), Some(ready))
  {
  }

  lemma GreetingQuiet(d: DemuxState, first: Option<bool>, a: Step)
    requires Framed(d) && Gated(d) && GreetingAt(d, first) && Enabled(d, a) && !a.Finish?
    requires !(first == None && a.Poll?)
    ensures GreetingAt(Apply(d, a), first)
  {
  }

  lemma GreetingArrived(d: DemuxState, first: Option<bool>, p: Packet)
    requires Gated(d) && GreetingAt(d, first) && d.phase.Whole?
    ensures GreetingAt(Arrived(d, p), first)
  {
    var all := d.received + [p];
    assert d.received != [] ==> all[0] == d.received[0];
  }

  lemma GreetingFinish(d: DemuxState, first: Option<bool>)
    requires Framed(d) && Gated(d) && GreetingAt(d, first) && Enabled(d, Finish)
    ensures GreetingAt(Apply(d, Finish), first)
  {
    var p := FinishCases(d);
    if Apply(d, Finish) != d.(phase := Aborted) {
      GreetingArrived(d, first, p);
    }
  }

  lemma {:induction false} RunGreeting(steps: seq<Step>)
    requires Legal(steps)
    ensures GreetingAt(Run(steps), FirstPoll(steps))
  {
    if steps != [] {
      var front, a := steps[..|steps| - 1], steps[|steps| - 1];
      RunGreeting(front);
      RunKeeps(front);
      if a.Finish? {
        GreetingFinish(Run(front), FirstPoll(front));
      } else if FirstPoll(front) == None && a.Poll? {
        FirstPollStep(Run(front), a.ready);
      } else {
        GreetingQuiet(Run(front), FirstPoll(front), a);
      }
    }
  }

  /**
   * When the gate closes: in a run that has received a first packet other than Hello, and has not
   * died of it, exactly if the first poll of the run found something to read in time.
   */
  lemma RejectedIff(steps: seq<Step>)
    requires Legal(steps)
    ensures Run(steps).rejected ==> FirstIsOther(Run(steps))
    ensures FirstIsOther(Run(steps)) && !Run(steps).phase.Aborted? ==>
              (Run(steps).rejected <==> FirstPoll(steps) == Some(true))
  {
    RunGreeting(steps);
    RunKeeps(steps);
  }

  lemma RejectedStep(d: DemuxState, a: Step)
    requires Framed(d) && d.rejected && Enabled(d, a)
    ensures Apply(d, a).rejected
  {
    if a.Finish? {
      var p := FinishCases(d);
    }
  }

  lemma {:induction false} RejectedStays(steps: seq<Step>, more: seq<Step>)
    requires Legal(steps + more) && Legal(steps) && Run(steps).rejected
    ensures Run(steps + more).rejected
    decreases |more|
  {
    if more == [] {
      assert steps + more == steps;
    } else {
      var front := more[..|more| - 1];
      LastOf(steps, more);
      RejectedStays(steps, front);
      RunKeeps(steps + front);
      RejectedStep(Run(steps + front), more[|more| - 1]);
    }
  }

  /**
   * The callbacks of a subscriber: a gapless stretch of what was received under its type; between two
   * packets, for one that is still subscribed, all of it from its registration on.
   */
  lemma CallbacksInSequence(steps: seq<Step>, s: Subscriber)
    requires Legal(steps) && s in Run(steps).known
    ensures Delivered(Run(steps), s)
  {
    RunKeeps(steps);
    DeliveredNow(Run(steps), s);
  }

  ghost predicate Delivered(d: DemuxState, s: Subscriber)
    requires s in d.known
  {
    var r, all := d.known[s], OfType(d.received, s.kind);
    && IsStretch(r, all)
    && (r.live && s.kind != CONTROL_PACKET && BetweenPackets(d) ==> r.got == all[r.start..])
  }

  predicate BetweenPackets(d: DemuxState)
  {
    !d.phase.Holding? && !d.phase.Dispatching? && !d.rejected
  }

  lemma DeliveredNow(d: DemuxState, s: Subscriber)
    requires Gated(d) && Flowing(d) && s in d.known && InSequence(d, s)
    ensures Delivered(d, s)
  {
    StretchOfReceived(d, s);
    SeenReceived(d, s.kind);
  }

  lemma StretchOfReceived(d: DemuxState, s: Subscriber)
    requires Gated(d) && Flowing(d) && s in d.known && InSequence(d, s)
    ensures IsStretch(d.known[s], OfType(d.received, s.kind))
  {
    SeenReceived(d, s.kind);
  }

  ghost predicate IsStretch(r: History, all: seq<Packet>)
  {
    r.start + |r.got| <= |all| && r.got == all[r.start..r.start + |r.got|]
  }

  lemma SeenReceived(d: DemuxState, t: PacketType)
    requires Gated(d) && Flowing(d)
    ensures Seen(d, t) <= OfType(d.received, t)
    ensures BetweenPackets(d) && t != CONTROL_PACKET ==> Seen(d, t) == OfType(d.received, t)
  {
    if t != CONTROL_PACKET && !d.rejected {
      assert OfType(d.received, t) == OfType(d.dispatched, t) + OfType(InHand(d), t);
      if InHand(d) != [] {
        OfTypeOne(d.phase.packet, t);
      }
    }
  }
}
