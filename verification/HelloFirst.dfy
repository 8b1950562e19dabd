// Which packet a PacketMuxer sends first. src/PacketDemuxer.cpp:224-227 takes it for granted that it is
// Hello; but the map of queues has no order, and other threads may post before the send thread does.

module HelloFirst {
  import opened Packets
  import opened Codec
  import opened MuxProtocol
  import opened MuxSafety
  import opened MuxRuns

  /** The first packet sent, if any, is one of hellos. */
  ghost predicate FirstIn(popped: seq<Packet>, hellos: iset<Packet>)
  {
    popped != [] ==> popped[0] in hellos
  }

  /** It is in every continuation of the run. */
  ghost predicate AlwaysFirst(steps: seq<Step>, hellos: iset<Packet>)
  {
    forall more :: Legal(steps + more) ==> FirstIn(Run(steps + more).popped, hellos)
  }

  ghost predicate ControlOnly(hellos: iset<Packet>)
  {
    forall p :: p in hellos ==> p.kind == CONTROL_PACKET
  }

  /** Every packet that can be sent first is one of hellos. */
  ghost predicate AllFronts(queues: map<PacketType, seq<Packet>>, hellos: iset<Packet>)
  {
    forall t :: t in NonEmpty(queues) && t != INVALID_PACKET ==> queues[t][0] in hellos
  }

  // ---------------------------------------------------------------------------------------------
  // Sufficient

  ghost predicate OnlyHellos(s: MuxState, hellos: iset<Packet>)
  {
    !LockFree(s) && s.numPosted != s.numSent && AllFronts(s.queues, hellos)
  }

  /** The queue being served has one of them in front. */
  ghost predicate AtHello(s: MuxState, hellos: iset<Packet>)
  {
    && (s.sender.Serving? || s.sender.Sending?)
    && Queue(s.queues, s.sender.current) != []
    && s.queues[s.sender.current][0] in hellos
  }

  ghost predicate Leads(s: MuxState, hellos: iset<Packet>)
  {
    && FirstIn(s.popped, hellos)
    && (s.popped == [] ==> s.err || OnlyHellos(s, hellos) || AtHello(s, hellos))
  }

  lemma SendsHello(s: MuxState, hellos: iset<Packet>)
    requires Queued(s) && ThreadOk(s) && s.sender.Sending?
    requires OnlyHellos(s, hellos) || AtHello(s, hellos)
    ensures s.queues[s.sender.current][0] in hellos
  {
    QueuedKinds(s, s.sender.current);
    assert s.sender.current in NonEmpty(s.queues);
  }

  lemma OnlyHellosStep(s: MuxState, a: Step, hellos: iset<Packet>)
    requires OnlyHellos(s, hellos) && !s.err && Enabled(s, a) && !a.FinishPacket?
    ensures OnlyHellos(Apply(s, a), hellos) && Apply(s, a).popped == s.popped
  {
  }

  lemma AtHelloStep(s: MuxState, a: Step, hellos: iset<Packet>)
    requires AtHello(s, hellos) && ControlOnly(hellos) && !s.err && Enabled(s, a) && !a.FinishPacket?
    ensures AtHello(Apply(s, a), hellos) && Apply(s, a).popped == s.popped
  {
  }

  lemma FirstKept(s: MuxState, a: Step)
    requires s.popped != [] && Enabled(s, a)
    ensures Apply(s, a).popped != [] && Apply(s, a).popped[0] == s.popped[0]
  {
  }

  lemma LeadsStep(s: MuxState, a: Step, hellos: iset<Packet>)
    requires Queued(s) && ThreadOk(s) && ControlOnly(hellos) && Leads(s, hellos) && Enabled(s, a)
    ensures Leads(Apply(s, a), hellos)
  {
    if s.popped != [] {
      FirstKept(s, a);
    } else if s.err {
      LatchStep(s, a);
    } else if a.FinishPacket? {
      SendsHello(s, hellos);
    } else if OnlyHellos(s, hellos) {
      OnlyHellosStep(s, a, hellos);
    } else {
      AtHelloStep(s, a, hellos);
    }
  }

  lemma {:induction false} LeadsRun(steps: seq<Step>, more: seq<Step>, hellos: iset<Packet>)
    requires Legal(steps) && Legal(steps + more) && ControlOnly(hellos) && Leads(Run(steps), hellos)
    ensures Leads(Run(steps + more), hellos)
    decreases |more|
  {
    if more == [] {
      assert steps + more == steps;
    } else {
      var front := more[..|more| - 1];
      LastOf(steps, more);
      LeadsRun(steps, front, hellos);
      RunKeeps(steps + front);
      LeadsStep(Run(steps + front), more[|more| - 1], hellos);
    }
  }

  /** The same of the packet in transmission. */
  lemma StartedFirst(s: MuxState, hellos: iset<Packet>)
    requires Queued(s) && ThreadOk(s) && Leads(s, hellos)
    ensures FirstIn(Started(s), hellos)
  {
    if s.sender.Sending? && s.popped == [] {
      SendsHello(s, hellos);
    }
  }

  lemma LeadsAlways(steps: seq<Step>, hellos: iset<Packet>)
    requires Legal(steps) && ControlOnly(hellos) && Leads(Run(steps), hellos)
    ensures AlwaysFirst(steps, hellos)
  {
    forall more | Legal(steps + more)
      ensures FirstIn(Run(steps + more).popped, hellos)
    {
      LeadsRun(steps, more, hellos);
    }
  }

  // ---------------------------------------------------------------------------------------------
  // Necessary

  const NEWCOMER: Packet := Packet(2, [])

  /** The first of its type that was posted, or the newcomer. */
  ghost predicate FromOutset(p: Packet, posted: seq<Packet>)
  {
    p == NEWCOMER || (OfType(posted, p.kind) != [] && p == OfType(posted, p.kind)[0])
  }

  /** Nothing has been sent, and the queue of t can be visited next, with a packet not among hellos. */
  ghost predicate BadQueue(s: MuxState, t: PacketType, hellos: iset<Packet>)
  {
    && s.sender.Passing? && t in s.sender.todo && !s.err
    && s.popped == [] && s.wire == []
    && Queue(s.queues, t) != [] && s.queues[t][0].kind != INVALID_PACKET && s.queues[t][0] !in hellos
  }

  /** From the head of the loop there is a way to a queue whose front packet is not among hellos. */
  lemma ToBadQueue(steps: seq<Step>, hellos: iset<Packet>) returns (more: seq<Step>, t: PacketType)
    requires Legal(steps) && ControlOnly(hellos)
    requires var s := Run(steps); s.sender.LoopHead? && !s.err && s.popped == []
    requires Run(steps).numPosted == Run(steps).numSent || !AllFronts(Run(steps).queues, hellos)
    ensures Legal(steps + more) && BadQueue(Run(steps + more), t, hellos)
    ensures FromOutset(Run(steps + more).queues[t][0], Run(steps).posted)
    ensures Run(steps + more).posted <= Run(steps).posted + [NEWCOMER]
  {
    var s := Run(steps);
    RunKeeps(steps);
    NothingWritten(s);
    assert steps + [] == steps;
    if s.numPosted != s.numSent {
      t :| t in NonEmpty(s.queues) && t != INVALID_PACKET && s.queues[t][0] !in hellos;
      FrontPosted(s, t);
      Then(steps, [], StartPass);
      more := [] + [StartPass];
    } else {
      t := WorstQueue(s, hellos);
      WorstAfter(s, t, hellos);
      Then(steps, [], Sleep);
      Then(steps, [] + [Sleep], Post(NEWCOMER));
      Then(steps, [] + [Sleep] + [Post(NEWCOMER)], Wake(false));
      more := [] + [Sleep] + [Post(NEWCOMER)] + [Wake(false)];
    }
  }

  lemma NothingWritten(s: MuxState)
    requires OnWire(s) && s.popped == [] && !s.sender.Sending?
    ensures s.wire == []
  {
  }

  lemma FrontPosted(s: MuxState, t: PacketType)
    requires Queued(s) && Queue(s.queues, t) != [] && s.popped == []
    ensures FromOutset(s.queues[t][0], s.posted) && s.queues[t][0].kind == t
  {
    QueuedKinds(s, t);
    assert OfType(s.posted, t) == OfType([], t) + Queue(s.queues, t);
  }

  /** A queue with a front packet not among hellos, or else that of the newcomer, which is empty. */
  lemma WorstQueue(s: MuxState, hellos: iset<Packet>) returns (t: PacketType)
    requires Queued(s) && ControlOnly(hellos)
    ensures t != INVALID_PACKET
    ensures Queue(s.queues, t) != [] ==> s.queues[t][0] !in hellos
    ensures Queue(s.queues, t) == [] ==> t == NEWCOMER.kind
  {
    if t' :| t' in NonEmpty(s.queues) && t' != INVALID_PACKET && s.queues[t'][0] !in hellos {
      t := t';
    } else {
      t := NEWCOMER.kind;
      if Queue(s.queues, t) != [] {
        QueuedKinds(s, t);
      }
    }
  }

  lemma WorstAfter(s: MuxState, t: PacketType, hellos: iset<Packet>)
    requires Queued(s) && s.popped == [] && ControlOnly(hellos) && t != INVALID_PACKET
    requires Queue(s.queues, t) != [] ==> s.queues[t][0] !in hellos
    requires Queue(s.queues, t) == [] ==> t == NEWCOMER.kind
    ensures var queues := PostTo(s, NEWCOMER).queues;
            && Queue(queues, t) != [] && queues[t][0] !in hellos && queues[t][0].kind != INVALID_PACKET
            && FromOutset(queues[t][0], s.posted)
  {
    if Queue(s.queues, t) != [] {
      FrontPosted(s, t);
    }
  }

  /** Then that packet can be sent first. */
  lemma SendsOther(steps: seq<Step>, hellos: iset<Packet>) returns (more: seq<Step>, p: Packet)
    requires Legal(steps) && ControlOnly(hellos)
    requires var s := Run(steps); s.sender.LoopHead? && !s.err && s.popped == []
    requires Run(steps).numPosted == Run(steps).numSent || !AllFronts(Run(steps).queues, hellos)
    ensures Legal(steps + more) && p !in hellos && p.kind != INVALID_PACKET
    ensures FromOutset(p, Run(steps).posted)
    ensures Run(steps + more).popped == [p] && Run(steps + more).wire == Encode(p)
    ensures !Run(steps + more).err && Run(steps + more).sender.Serving?
    ensures Run(steps + more).posted <= Run(steps).posted + [NEWCOMER]
  {
    var t;
    more, t := ToBadQueue(steps, hellos);
    p := Run(steps + more).queues[t][0];
    Then(steps, more, Visit(t));
    more := ServesFront(steps, more + [Visit(t)]);
    assert [] + Encode(p) == Encode(p);
  }

  // ---------------------------------------------------------------------------------------------

  /** What a look at the queues could tell just before the send loop first takes the lock. */
  ghost predicate HellosAhead(s: MuxState, hellos: iset<Packet>)
  {
    s.err || (s.numPosted != s.numSent && AllFronts(s.queues, hellos))
  }

  /** Nothing is sent before the send loop first takes the lock. */
  lemma {:induction false} NothingSent(steps: seq<Step>)
    requires Legal(steps) && (Run(steps).sender.Unstarted? || Run(steps).sender.Contending?)
    ensures Run(steps).popped == []
  {
    if steps != [] {
      NothingSent(steps[..|steps| - 1]);
    }
  }

  /**
   * The first packet sent is one of hellos in every continuation if and only if the send loop finds
   * nothing else at the front of a queue when it first takes the lock, and goes on without waiting.
   */
  lemma FirstSentIff(before: seq<Step>, hellos: iset<Packet>)
    requires Legal(before) && Enabled(Run(before), Acquire) && ControlOnly(hellos)
    ensures Legal(before + [Acquire])
    ensures AlwaysFirst(before + [Acquire], hellos) <==> HellosAhead(Run(before), hellos)
  {
    RunAppend(before, Acquire);
    NothingSent(before);
    if HellosAhead(Run(before), hellos) {
      LeadsAlways(before + [Acquire], hellos);
    } else {
      var more, p := SendsOther(before + [Acquire], hellos);
      assert !FirstIn(Run(before + [Acquire] + more).popped, hellos);
    }
  }

  /**
   * "The first packet sent will always be Hello": if and only if, when the send loop first takes the
   * lock, Hello is at the front of the control queue and the queues of all other valid types are
   * empty (and the counters differ, so that it does not wait), or the transport is down.
   */
  lemma HelloFirstIff(before: seq<Step>)
    requires Legal(before) && Enabled(Run(before), Acquire)
    ensures Legal(before + [Acquire])
    ensures var s := Run(before);
            AlwaysFirst(before + [Acquire], iset{HELLO_PACKET}) <==>
              s.err || (
                && NonEmpty(s.queues) - {INVALID_PACKET} == {CONTROL_PACKET}
                && s.queues[CONTROL_PACKET][0] == HELLO_PACKET
                && s.numPosted != s.numSent)
  {
    FirstSentIff(before, iset{HELLO_PACKET});
    RunKeeps(before);
    NothingSent(before);
    HelloIsPosted(before);
    OnlyHelloFronts(Run(before));
  }

  lemma {:induction false} HelloIsPosted(steps: seq<Step>)
    requires Legal(steps) && !Run(steps).sender.Unstarted?
    ensures HELLO_PACKET in Run(steps).posted
  {
    if steps != [] && !Run(steps[..|steps| - 1]).sender.Unstarted? {
      HelloIsPosted(steps[..|steps| - 1]);
    }
  }

  lemma HelloIsQueued(s: MuxState)
    requires Queued(s) && s.popped == [] && HELLO_PACKET in s.posted
    ensures Queue(s.queues, CONTROL_PACKET) == OfType(s.posted, CONTROL_PACKET) != []
    ensures CONTROL_PACKET in NonEmpty(s.queues)
  {
    assert OfType(s.posted, CONTROL_PACKET) == OfType([], CONTROL_PACKET) + Queue(s.queues, CONTROL_PACKET);
    OfTypeMembers(s.posted, CONTROL_PACKET);
    assert HELLO_PACKET in OfType(s.posted, CONTROL_PACKET);
  }

  lemma OnlyHelloFronts(s: MuxState)
    requires Queued(s) && s.popped == [] && HELLO_PACKET in s.posted
    ensures AllFronts(s.queues, iset{HELLO_PACKET}) <==>
              && NonEmpty(s.queues) - {INVALID_PACKET} == {CONTROL_PACKET}
              && s.queues[CONTROL_PACKET][0] == HELLO_PACKET
  {
    HelloIsQueued(s);
    if AllFronts(s.queues, iset{HELLO_PACKET}) {
      forall t
        ensures t in NonEmpty(s.queues) && t != INVALID_PACKET <==> t == CONTROL_PACKET
      {
        if t in NonEmpty(s.queues) && t != INVALID_PACKET {
          QueuedKinds(s, t);
          assert s.queues[t][0] in iset{HELLO_PACKET};
        }
      }
      assert NonEmpty(s.queues) - {INVALID_PACKET} == {CONTROL_PACKET};
    } else {
      var t :| t in NonEmpty(s.queues) && t != INVALID_PACKET && s.queues[t][0] !in iset{HELLO_PACKET};
      assert t in NonEmpty(s.queues) - {INVALID_PACKET};
    }
  }

  /**
   * If nothing has been sent when a pass reaches the control queue, Hello is sent first from there on
   * if and only if nobody posted a control packet before it, or the transport is down.
   */
  lemma HelloVisitedFirst(before: seq<Step>)
    requires Legal(before) && Enabled(Run(before), Visit(CONTROL_PACKET)) && Run(before).popped == []
    ensures Legal(before + [Visit(CONTROL_PACKET)]) && OfType(Run(before).posted, CONTROL_PACKET) != []
    ensures AlwaysFirst(before + [Visit(CONTROL_PACKET)], iset{HELLO_PACKET}) <==>
              Run(before).err || OfType(Run(before).posted, CONTROL_PACKET)[0] == HELLO_PACKET
  {
    var s, visiting := Run(before), before + [Visit(CONTROL_PACKET)];
    RunKeeps(before);
    RunAppend(before, Visit(CONTROL_PACKET));
    HelloIsPosted(before);
    HelloIsQueued(s);
    QueuedKinds(s, CONTROL_PACKET);
    if s.err || s.queues[CONTROL_PACKET][0] == HELLO_PACKET {
      assert s.err || AtHello(Run(visiting), iset{HELLO_PACKET});
      LeadsAlways(visiting, iset{HELLO_PACKET});
    } else {
      assert visiting + [] == visiting;
      var more := ServesFront(visiting, []);
      assert !FirstIn(Run(visiting + more).popped, iset{HELLO_PACKET});
    }
  }
}
