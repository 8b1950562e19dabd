// What every run of the sending side keeps.

module MuxSafety {
  import opened Packets
  import opened Codec
  import opened MuxProtocol

  // ---------------------------------------------------------------------------------------------
  // Invariants

  /** Counters and queues count the same packets, modulo 2^32. */
  ghost predicate Counted(s: MuxState)
  {
    && Total(s.queues) + |s.popped| == |s.posted|
    && s.numPosted == |s.posted| % U32
    && s.numSent == |s.popped| % U32
  }

  /** Every queue is first in, first out. */
  ghost predicate Queued(s: MuxState)
  {
    forall t :: OfType(s.posted, t) == OfType(s.popped, t) + Queue(s.queues, t)
  }

  ghost predicate ThreadOk(s: MuxState)
  {
    && (s.sender.Waiting? && !s.sender.notified ==> s.numPosted == s.numSent && !s.err)
    && (s.sender.Passing? && !s.err ==> NonEmpty(s.queues) <= s.sender.todo)
    && (s.sender.Serving? && !s.err ==> NonEmpty(s.queues) <= s.sender.todo + {s.sender.current})
    && (s.sender.Sending? ==>
          && !s.err
          && NonEmpty(s.queues) <= s.sender.todo + {s.sender.current}
          && Queue(s.queues, s.sender.current) != []
          && s.sender.tx.packet == s.queues[s.sender.current][0]
          && s.sender.tx.packet.kind != INVALID_PACKET
          && TxValid(s.sender.tx))
  }

  function NonEmpty(queues: map<PacketType, seq<Packet>>): set<PacketType>
  {
    set t | t in queues && queues[t] != []
  }

  /** The bytes of the frame in transmission, or of the one that failed. */
  ghost function Current(s: MuxState): seq<Byte>
  {
    if s.sender.Sending? && CutValid(s.sender.tx.packet, s.sender.tx.cut)
      then Fragments(s.sender.tx.packet, s.sender.tx.cut)
    else if s.wreck.Some? && CutValid(s.wreck.value.packet, s.wreck.value.cut)
      then Fragments(s.wreck.value.packet, s.wreck.value.cut)
    else []
  }

  /** The packets whose frame went out whole. */
  ghost function Whole(s: MuxState): seq<Packet>
  {
    if s.wreck.Some? && s.popped != [] then s.popped[..|s.popped| - 1] else s.popped
  }

  ghost predicate OnWire(s: MuxState)
  {
    && s.wire == EncodeAll(Whole(s)) + Current(s)
    && (s.wreck.Some? ==>
          && s.err
          && s.popped != []
          && TxValid(s.wreck.value) && s.wreck.value.at == 3 && !s.wreck.value.ok
          && s.wreck.value.packet == s.popped[|s.popped| - 1])
  }

  ghost predicate Inv(s: MuxState)
  {
    Counted(s) && Queued(s) && ThreadOk(s) && OnWire(s)
  }

  // ---------------------------------------------------------------------------------------------
  // Preservation

  lemma PostCounted(s: MuxState, p: Packet)
    requires Counted(s)
    ensures Counted(PostTo(s, p))
  {
    TotalUpdate(s.queues, p.kind, Queue(s.queues, p.kind) + [p]);
  }

  lemma PostQueued(s: MuxState, p: Packet)
    requires Queued(s)
    ensures Queued(PostTo(s, p))
  {
    var s' := PostTo(s, p);
    forall t
      ensures OfType(s'.posted, t) == OfType(s'.popped, t) + Queue(s'.queues, t)
    {
      assert OfType(s.posted, t) == OfType(s.popped, t) + Queue(s.queues, t);
      OfTypeAppend(s.posted, p, t);
    }
  }

  lemma QueuedKinds(s: MuxState, t: PacketType)
    requires Queued(s) && Queue(s.queues, t) != []
    ensures s.queues[t][0].kind == t
  {
    OfTypeMembers(s.posted, t);
    assert OfType(s.posted, t)[|OfType(s.popped, t)|] == s.queues[t][0];
    assert s.queues[t][0] in OfType(s.posted, t);
  }

  lemma FinishCounted(s: MuxState)
    requires Counted(s) && Enabled(s, FinishPacket)
    ensures Counted(Apply(s, FinishPacket))
  {
    var t := s.sender.current;
    TotalUpdate(s.queues, t, s.queues[t][1..]);
    assert |Queue(s.queues, t)| == |s.queues[t][1..]| + 1;
  }

  lemma FinishQueued(s: MuxState)
    requires Queued(s) && Enabled(s, FinishPacket)
    ensures Queued(Apply(s, FinishPacket))
  {
    var u, popped, queues := s.sender.current, s.popped, s.queues;
    var p := queues[u][0];
    QueuedKinds(s, u);
    forall t
      ensures OfType(s.posted, t) == OfType(popped + [p], t) + Queue(queues[u := queues[u][1..]], t)
    {
      assert OfType(s.posted, t) == OfType(popped, t) + Queue(queues, t);
      OfTypeAppend(popped, p, t);
      if t == u {
        PopFront(OfType(popped, t), queues[u]);
      }
    }
  }

  lemma PopFront(a: seq<Packet>, q: seq<Packet>)
    requires q != []
    ensures a + q == a + [q[0]] + q[1..]
  {
  }

  lemma FinishWire(s: MuxState)
    requires ThreadOk(s) && OnWire(s) && Enabled(s, FinishPacket)
    ensures OnWire(Apply(s, FinishPacket))
  {
    var s' := Apply(s, FinishPacket);
    var tx := s.sender.tx;
    assert s.wreck.None?;
    assert s'.popped[..|s.popped|] == s.popped;
    if tx.ok {
      SentWhole(tx);
      EncodeAllAppend(s.popped, tx.packet);
      assert s'.wire == EncodeAll(s'.popped) + [];
    }
  }

  lemma WriteWire(s: MuxState, n: int)
    requires ThreadOk(s) && OnWire(s) && Enabled(s, Write(n))
    ensures OnWire(Apply(s, Write(n))) && TxValid(Apply(s, Write(n)).sender.tx)
  {
    var tx := s.sender.tx;
    OnWriteValid(tx, n);
    OnWriteEmits(tx, n);
    Assoc(EncodeAll(Whole(s)), Fragments(tx.packet, tx.cut), Taken(tx, n));
  }

  lemma StepCounted(s: MuxState, a: Step)
    requires Counted(s) && Queued(s) && Enabled(s, a)
    ensures Counted(Apply(s, a)) && Queued(Apply(s, a))
  {
    match a
    case Greet =>
      PostCounted(s, HELLO_PACKET);
      PostQueued(s, HELLO_PACKET);
    case Wake(timedOut) =>
      if timedOut {
        PostCounted(s.(sender := LoopHead), HEART_BEAT_PACKET);
        PostQueued(s.(sender := LoopHead), HEART_BEAT_PACKET);
      }
    case Post(p) =>
      PostCounted(s, p);
      PostQueued(s, p);
    case FinishPacket =>
      FinishCounted(s);
      FinishQueued(s);
    case _ =>
  }

  lemma StepThread(s: MuxState, a: Step)
    requires ThreadOk(s) && OnWire(s) && Enabled(s, a)
    ensures ThreadOk(Apply(s, a))
  {
    if a.Write? {
      WriteWire(s, a.n);
    }
  }

  lemma BeginWire(s: MuxState)
    requires ThreadOk(s) && OnWire(s) && Enabled(s, BeginPacket)
    ensures OnWire(Apply(s, BeginPacket))
  {
    var s' := Apply(s, BeginPacket);
    assert s.wreck.None?;
    if s'.sender.Sending? {
      assert Fragments(s'.sender.tx.packet, [0, 0, 0]) == [];
    }
  }

  lemma IdleWire(s: MuxState, s': MuxState)
    requires OnWire(s) && !s.sender.Sending? && !s'.sender.Sending?
    requires s'.wire == s.wire && s'.popped == s.popped && s'.wreck == s.wreck && (s.err ==> s'.err)
    ensures OnWire(s')
  {
    assert Whole(s') == Whole(s) && Current(s') == Current(s);
  }

  lemma StepWire(s: MuxState, a: Step)
    requires ThreadOk(s) && OnWire(s) && Enabled(s, a)
    ensures OnWire(Apply(s, a))
  {
    match a
    case Write(n) => WriteWire(s, n);
    case FinishPacket => FinishWire(s);
    case BeginPacket => BeginWire(s);
    case _ => IdleWire(s, Apply(s, a));
  }

  lemma StepKeeps(s: MuxState, a: Step)
    requires Inv(s) && Enabled(s, a)
    ensures Inv(Apply(s, a))
  {
    StepCounted(s, a);
    StepThread(s, a);
    StepWire(s, a);
  }

  lemma {:induction false} RunKeeps(steps: seq<Step>)
    requires Legal(steps)
    ensures Inv(Run(steps))
  {
    if steps != [] {
      RunKeeps(steps[..|steps| - 1]);
      StepKeeps(Run(steps[..|steps| - 1]), steps[|steps| - 1]);
    } else {
      assert EncodeAll([]) + [] == [];
    }
  }

  /** A reachable state is in every set that holds the initial state and is closed under steps. */
  ghost predicate Reachable(s: MuxState)
  {
    forall states: iset<MuxState> | Closed(states) :: s in states
  }

  ghost predicate Closed(states: iset<MuxState>)
  {
    Init() in states && forall s, a | s in states && Enabled(s, a) :: Apply(s, a) in states
  }

  lemma ReachableStep(s: MuxState, a: Step)
    requires Reachable(s) && Enabled(s, a)
    ensures Reachable(Apply(s, a))
  {
  }

  lemma {:induction false} RunReachable(steps: seq<Step>)
    requires Legal(steps)
    ensures Reachable(Run(steps))
  {
    if steps != [] {
      RunReachable(steps[..|steps| - 1]);
      ReachableStep(Run(steps[..|steps| - 1]), steps[|steps| - 1]);
    }
  }

  ghost function Ends(): iset<MuxState>
  {
    iset s | EndOfRun(s)
  }

  ghost predicate EndOfRun(s: MuxState)
  {
    exists steps :: Legal(steps) && Run(steps) == s
  }

  /** The reachable states are the ends of the legal runs. */
  lemma ReachableByRun(s: MuxState)
    ensures Reachable(s) <==> EndOfRun(s)
  {
    EndsClosed();
    assert Reachable(s) ==> s in Ends();
    if EndOfRun(s) {
      var steps :| Legal(steps) && Run(steps) == s;
      RunReachable(steps);
    }
  }

  lemma EndsClosed()
    ensures Closed(Ends())
  {
    assert Legal([]) && EndOfRun(Init());
    forall r, a | r in Ends() && Enabled(r, a)
      ensures Apply(r, a) in Ends()
    {
      var steps :| Legal(steps) && Run(steps) == r;
      RunAppend(steps, a);
      assert EndOfRun(Apply(r, a));
    }
  }

  lemma ReachableInv(s: MuxState)
    requires Reachable(s)
    ensures Inv(s)
  {
    ReachableByRun(s);
    var steps :| Legal(steps) && Run(steps) == s;
    RunKeeps(steps);
  }

  // ---------------------------------------------------------------------------------------------
  // Over every run

  /**
   * The counters differ by the number of queued packets modulo 2^32, so the send loop's test
   * m_numPosted == m_numSent means "nothing queued" as long as fewer than 2^32 packets are.
   */
  lemma CounterConservation(steps: seq<Step>)
    requires Legal(steps)
    ensures var s := Run(steps);
            && (s.numPosted - s.numSent) % U32 == Total(s.queues) % U32
            && (s.numPosted == s.numSent <==> Total(s.queues) % U32 == 0)
            && (Total(s.queues) < U32 ==> (s.numPosted == s.numSent <==> NonEmpty(s.queues) == {}))
  {
    RunCounted(steps);
    ModSum(Total(Run(steps).queues), |Run(steps).popped|, Run(steps).numPosted, Run(steps).numSent);
    TotalEmpty(Run(steps).queues);
  }

  lemma RunCounted(steps: seq<Step>)
    requires Legal(steps)
    ensures Counted(Run(steps))
  {
    RunKeeps(steps);
  }

  lemma TotalEmpty(queues: map<PacketType, seq<Packet>>)
    ensures Total(queues) == 0 <==> NonEmpty(queues) == {}
  {
    TotalZero(queues);
    if Total(queues) != 0 {
      var t :| t in queues && queues[t] != [];
      assert t in NonEmpty(queues);
    } else {
      assert NonEmpty(queues) == {};
    }
  }

  lemma ModSum(queued: nat, popped: nat, numPosted: int, numSent: int)
    requires numPosted == (queued + popped) % U32 && numSent == popped % U32
    ensures (numPosted - numSent) % U32 == queued % U32
    ensures numPosted == numSent <==> queued % U32 == 0
    ensures queued < U32 ==> (numPosted == numSent <==> queued == 0)
  {
  }

  /** The send loop waits exactly when the number of queued packets is a multiple of 2^32. */
  lemma WaitsIff(steps: seq<Step>)
    requires Legal(steps) && Run(steps).sender.LoopHead? && !Run(steps).err
    ensures Enabled(Run(steps), Sleep) <==> Total(Run(steps).queues) % 0x1_0000_0000 == 0
    ensures Enabled(Run(steps), StartPass) <==> Total(Run(steps).queues) % 0x1_0000_0000 != 0
  {
    CounterConservation(steps);
  }

  /** A sender blocked in wait_for without a pending notification has nothing to do. */
  lemma NoLostWakeup(steps: seq<Step>)
    requires Legal(steps) && Run(steps).sender == Waiting(false)
    ensures !Run(steps).err
    ensures Total(Run(steps).queues) % U32 == 0
    ensures Total(Run(steps).queues) < U32 ==> NonEmpty(Run(steps).queues) == {}
  {
    RunKeeps(steps);
    CounterConservation(steps);
  }

  /** The bound is sharp: with exactly 2^32 packets queued the counters agree and the sender sleeps. */
  lemma FullBacklogSleeps() returns (steps: seq<Step>)
    ensures Legal(steps) && Run(steps).sender == Waiting(false)
    ensures Total(Run(steps).queues) == U32
  {
    var flood := Flood(U32 - 1);
    RunKeeps(flood);
    RunAppend(flood, Acquire);
    RunAppend(flood + [Acquire], Sleep);
    steps := flood + [Acquire] + [Sleep];
    RunKeeps(steps);
  }

  lemma Flood(n: nat) returns (steps: seq<Step>)
    ensures Legal(steps)
    ensures var s := Run(steps);
            s.sender == Contending && !s.err && |s.posted| == n + 1 && s.popped == [] && s.numSent == 0
    decreases n
  {
    if n == 0 {
      RunAppend([], Greet);
      steps := [] + [Greet];
    } else {
      var fewer := Flood(n - 1);
      RunAppend(fewer, Post(HELLO_PACKET));
      steps := fewer + [Post(HELLO_PACKET)];
    }
  }

  lemma LatchStep(s: MuxState, a: Step)
    requires ThreadOk(s) && s.err && Enabled(s, a)
    ensures var s' := Apply(s, a); s'.err && s'.popped == s.popped && s'.wire == s.wire
  {
  }

  /**
   * Although sendPacket overwrites the error flag, once set it stays set, whatever the threads do
   * afterwards: no packet is popped and no byte is written from then on.
   */
  lemma {:induction false} ErrorLatch(steps: seq<Step>, more: seq<Step>)
    requires Legal(steps + more) && Legal(steps) && Run(steps).err
    ensures Run(steps + more).err
    ensures Run(steps + more).popped == Run(steps).popped
    ensures Run(steps + more).wire == Run(steps).wire
    decreases |more|
  {
    if more == [] {
      assert steps + more == steps;
    } else {
      var front := more[..|more| - 1];
      LastOf(steps, more);
      ErrorLatch(steps, front);
      RunKeeps(steps + front);
      LatchStep(Run(steps + front), more[|more| - 1]);
    }
  }

  /** One pass over the map ends with the error flag set or with every queue empty. */
  lemma PassDrains(steps: seq<Step>)
    requires Legal(steps) && Enabled(Run(steps), EndPass)
    ensures Run(steps).err || NonEmpty(Run(steps).queues) == {}
  {
    RunKeeps(steps);
  }

  /** Packets leave in the order they were posted under each type; the rest is still queued. */
  lemma PopOrder(steps: seq<Step>, t: PacketType)
    requires Legal(steps)
    ensures var s := Run(steps);
            OfType(s.popped, t) <= OfType(s.posted, t) == OfType(s.popped, t) + Queue(s.queues, t)
  {
    RunKeeps(steps);
  }

  /** Whatever the transport does, the wire holds whole frames and then at most one damaged one. */
  lemma WireShape(steps: seq<Step>) returns (p: Packet, cut: seq<nat>)
    requires Legal(steps)
    ensures CutValid(p, cut)
    ensures var s := Run(steps);
            && s.wire == EncodeAll(Whole(s)) + Fragments(p, cut)
            && (s.sender.Sending? ==> Whole(s) == s.popped && p == s.sender.tx.packet)
            && (s.wreck.Some? ==> s.popped == Whole(s) + [p])
            && (s.wreck.None? && !s.sender.Sending? ==> Whole(s) == s.popped && Fragments(p, cut) == [])
  {
    RunKeeps(steps);
    p, cut := LastFrame(Run(steps));
  }

  lemma LastFrame(s: MuxState) returns (p: Packet, cut: seq<nat>)
    requires ThreadOk(s) && OnWire(s)
    ensures CutValid(p, cut) && Fragments(p, cut) == Current(s)
    ensures s.sender.Sending? ==> Whole(s) == s.popped && p == s.sender.tx.packet
    ensures s.wreck.Some? ==> s.popped == Whole(s) + [p]
    ensures CleanNow(s) && (s.sender.Sending? || s.wreck.Some?) ==> Clean(p, cut)
  {
    if s.sender.Sending? {
      p, cut := s.sender.tx.packet, s.sender.tx.cut;
    } else if s.wreck.Some? {
      p, cut := s.wreck.value.packet, s.wreck.value.cut;
    } else {
      p, cut := HELLO_PACKET, [0, 0, 0];
    }
  }

  // ---------------------------------------------------------------------------------------------
  // With a sticky transport

  ghost predicate CleanNow(s: MuxState)
  {
    && (s.sender.Sending? && TxValid(s.sender.tx) ==> Clean(s.sender.tx.packet, s.sender.tx.cut))
    && (s.wreck.Some? && TxValid(s.wreck.value) ==> Clean(s.wreck.value.packet, s.wreck.value.cut))
  }

  lemma GentleWriteClean(tx: Tx, n: int)
    requires TxValid(tx) && Clean(tx.packet, tx.cut) && tx.at < 3
    requires -1 <= n <= |Field(tx.packet, tx.at)| - tx.cut[tx.at]
    requires !tx.ok ==> n <= 0
    ensures TxValid(OnWrite(tx, n)) && Clean(tx.packet, OnWrite(tx, n).cut)
  {
    OnWriteValid(tx, n);
    var d := OnWrite(tx, n).cut;
    if n <= 0 {
      assert d == tx.cut;
    } else {
      forall i, j | 0 <= i < j < 3 && d[i] < |Field(tx.packet, i)|
        ensures d[j] == 0
      {
        assert i >= tx.at;
      }
    }
  }

  lemma {:induction false} StickyClean(steps: seq<Step>)
    requires Legal(steps) && Sticky(steps)
    ensures CleanNow(Run(steps))
  {
    if steps != [] {
      var s, a := Run(steps[..|steps| - 1]), steps[|steps| - 1];
      StickyClean(steps[..|steps| - 1]);
      RunKeeps(steps[..|steps| - 1]);
      CleanStep(s, a);
    }
  }

  lemma CleanStep(s: MuxState, a: Step)
    requires ThreadOk(s) && OnWire(s) && CleanNow(s) && Enabled(s, a) && Gentle(s, a)
    ensures CleanNow(Apply(s, a))
  {
    if a.Write? {
      GentleWriteClean(s.sender.tx, a.n);
    }
  }

  /** Never in the course of the run has a frame got bytes after a field that was cut short. */
  ghost predicate AlwaysClean(steps: seq<Step>)
    requires Legal(steps)
  {
    forall front :: front <= steps && Legal(front) ==> CleanNow(Run(front))
  }

  /** A step that is not gentle leaves a frame with bytes after a cut. */
  lemma RudeStep(s: MuxState, a: Step)
    requires ThreadOk(s) && OnWire(s) && Enabled(s, a) && !Gentle(s, a)
    ensures !CleanNow(Apply(s, a))
  {
    var tx := s.sender.tx;
    WriteWire(s, a.n);
    var d := OnWrite(tx, a.n).cut;
    var i :| 0 <= i < 3 && i < tx.at && tx.cut[i] != |Field(tx.packet, i)|;
    assert d[i] < |Field(tx.packet, i)| && d[tx.at] > 0;
  }

  /** Exactly the runs in which no frame gets bytes after a field was cut short have a sticky transport. */
  lemma {:induction false} StickyIff(steps: seq<Step>)
    requires Legal(steps)
    ensures Sticky(steps) <==> AlwaysClean(steps)
  {
    if steps == [] {
      forall front | front <= steps && Legal(front)
        ensures CleanNow(Run(front))
      {
        assert front == [];
      }
    } else {
      var most, a := steps[..|steps| - 1], steps[|steps| - 1];
      StickyIff(most);
      RunKeeps(most);
      assert AlwaysClean(steps) ==> AlwaysClean(most) && CleanNow(Run(steps));
      if Sticky(most) && !Gentle(Run(most), a) {
        RudeStep(Run(most), a);
      }
      if Sticky(steps) {
        StickyClean(steps);
        forall front | front <= steps && Legal(front)
          ensures CleanNow(Run(front))
        {
          if front != steps {
            assert front <= most;
          }
        }
      }
    }
  }

  /** A run in which no write has failed so far is sticky. */
  lemma {:induction false} UnfailedSticky(steps: seq<Step>)
    requires Legal(steps) && !Run(steps).err && (Run(steps).sender.Sending? ==> Run(steps).sender.tx.ok)
    ensures Sticky(steps)
  {
    if steps != [] {
      var front := steps[..|steps| - 1];
      RunKeeps(front);
      FailureStays(Run(front), steps[|steps| - 1]);
      UnfailedSticky(front);
    }
  }

  lemma FailureStays(s: MuxState, a: Step)
    requires ThreadOk(s) && Enabled(s, a) && !Apply(s, a).err
    requires Apply(s, a).sender.Sending? ==> Apply(s, a).sender.tx.ok
    ensures !s.err && (s.sender.Sending? ==> s.sender.tx.ok)
  {
  }

  /** The packets sendPacket was called on, in order. */
  function Started(s: MuxState): seq<Packet>
  {
    if s.sender.Sending? then s.popped + [s.sender.tx.packet] else s.popped
  }

  /** Then the wire is at all times a prefix of the frames of those packets. */
  lemma StickyWire(steps: seq<Step>)
    requires Legal(steps) && Sticky(steps)
    ensures Run(steps).wire <= EncodeAll(Started(Run(steps)))
  {
    RunKeeps(steps);
    StickyClean(steps);
    CleanWire(Run(steps));
  }

  lemma CleanWire(s: MuxState)
    requires ThreadOk(s) && OnWire(s) && CleanNow(s)
    ensures s.wire <= EncodeAll(Started(s))
  {
    var p, cut := LastFrame(s);
    if s.sender.Sending? || s.wreck.Some? {
      CleanIsPrefix(p, cut);
      EncodeAllAppend(Whole(s), p);
      assert Started(s) == Whole(s) + [p];
    }
  }

  /** What was started is a prefix, type by type, of what was posted. */
  lemma StartedInOrder(s: MuxState, t: PacketType)
    requires Queued(s) && ThreadOk(s)
    ensures OfType(Started(s), t) <= OfType(s.posted, t)
  {
    assert OfType(s.posted, t) == OfType(s.popped, t) + Queue(s.queues, t);
    if s.sender.Sending? {
      OfTypeAppend(s.popped, s.sender.tx.packet, t);
      QueuedKinds(s, s.sender.current);
    }
  }

  lemma StartedPosted(s: MuxState, p: Packet)
    requires Queued(s) && ThreadOk(s) && p in Started(s)
    ensures p in s.posted
  {
    StartedInOrder(s, p.kind);
    OfTypeMembers(Started(s), p.kind);
    OfTypeMembers(s.posted, p.kind);
    assert p in OfType(Started(s), p.kind);
  }

  /** No packet of the invalid type is ever sent: the thread dies of the assertion first. */
  lemma {:induction false} StartedValid(steps: seq<Step>)
    requires Legal(steps)
    ensures forall p :: p in Started(Run(steps)) ==> p.kind != INVALID_PACKET
  {
    if steps != [] {
      var front := steps[..|steps| - 1];
      StartedValid(front);
      RunKeeps(front);
      StartedStep(Run(front), steps[|steps| - 1]);
    }
  }

  lemma StartedStep(s: MuxState, a: Step)
    requires ThreadOk(s) && Enabled(s, a)
    ensures forall p :: p in Started(Apply(s, a)) ==> p in Started(s) || p.kind != INVALID_PACKET
  {
  }
}
