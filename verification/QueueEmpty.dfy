// Whether sendAll leaves its queue empty, as the comment at src/PacketMuxer.cpp:96-98 says it always does.

module QueueEmpty {
  import opened Packets
  import opened MuxProtocol
  import opened MuxSafety
  import opened MuxRuns

  ghost predicate Leaveless(more: seq<Step>)
  {
    forall i :: 0 <= i < |more| ==> !more[i].Leave?
  }

  /** Whenever the call of sendAll on t that begins after these steps returns, the queue is empty. */
  ghost predicate AlwaysEmptied(before: seq<Step>, t: PacketType)
  {
    forall more :: Legal(before + [Visit(t)] + more) && Leaveless(more) ==> EmptyIfLeft(Run(before + [Visit(t)] + more), t)
  }

  ghost predicate EmptyIfLeft(s: MuxState, t: PacketType)
  {
    Enabled(s, Leave) ==> Queue(Apply(s, Leave).queues, t) == []
  }

  // ---------------------------------------------------------------------------------------------
  // Sufficient

  /** During the call: if it can return now or after one more packet, the queue is empty then. */
  ghost predicate WillEmpty(s: MuxState, t: PacketType)
  {
    s.sender.Crashed? || (
      && (s.sender.Serving? || s.sender.Sending?) && s.sender.current == t
      && (Queue(s.queues, t) == [] || (!s.err && (|Queue(s.queues, t)| == 1 || t == INVALID_PACKET))))
  }

  lemma WillEmptyStep(s: MuxState, a: Step, t: PacketType)
    requires Queued(s) && ThreadOk(s) && WillEmpty(s, t) && Enabled(s, a) && !a.Leave?
    ensures WillEmpty(Apply(s, a), t)
  {
    if Queue(s.queues, t) != [] {
      QueuedKinds(s, t);
    }
  }

  lemma {:induction false} WillEmptyRun(steps: seq<Step>, more: seq<Step>, t: PacketType)
    requires Legal(steps) && Legal(steps + more) && Leaveless(more) && WillEmpty(Run(steps), t)
    ensures WillEmpty(Run(steps + more), t)
    decreases |more|
  {
    if more == [] {
      assert steps + more == steps;
    } else {
      var front := more[..|more| - 1];
      LastOf(steps, more);
      WillEmptyRun(steps, front, t);
      RunKeeps(steps + front);
      WillEmptyStep(Run(steps + front), more[|more| - 1], t);
    }
  }

  // ---------------------------------------------------------------------------------------------
  // Necessary

  function Failed(p: Packet, at: nat): Tx
  {
    Tx(p, false, at, [0, 0, 0])
  }

  lemma FailingWrites(p: Packet)
    ensures OnWrite(Begin(p), -1) == Failed(p, 1)
    ensures OnWrite(Failed(p, 1), -1) == Failed(p, if p.data == [] then 3 else 2)
    ensures OnWrite(Failed(p, 2), -1) == Failed(p, 3)
  {
  }

  /** Every field of the packet fails. */
  lemma FailsWhole(steps: seq<Step>, more: seq<Step>, p: Packet) returns (more': seq<Step>)
    requires Legal(steps + more) && Leaveless(more)
    requires Run(steps + more).sender.Sending? && Run(steps + more).sender.tx == Begin(p)
    ensures Legal(steps + more') && Leaveless(more')
    ensures var s, s' := Run(steps + more), Run(steps + more');
            s'.sender == s.sender.(tx := Failed(p, 3)) && s'.queues == s.queues
  {
    FailingWrites(p);
    more' := Fails(steps, more);
    more' := Fails(steps, more');
    if p.data != [] {
      more' := Fails(steps, more');
    }
  }

  lemma Fails(steps: seq<Step>, more: seq<Step>) returns (more': seq<Step>)
    requires Legal(steps + more) && Leaveless(more) && Enabled(Run(steps + more), Write(-1))
    ensures Legal(steps + more') && Leaveless(more')
    ensures var s, s' := Run(steps + more), Run(steps + more');
            s'.sender == s.sender.(tx := OnWrite(s.sender.tx, -1)) && s'.queues == s.queues
  {
    Then(steps, more, Write(-1));
    more' := more + [Write(-1)];
  }

  /** The transport fails on the first of at least two packets. */
  lemma FailsOnFirst(steps: seq<Step>, t: PacketType) returns (more: seq<Step>)
    requires Legal(steps) && t != INVALID_PACKET
    requires var s := Run(steps);
             s.sender.Serving? && s.sender.current == t && !s.err && |Queue(s.queues, t)| >= 2
    ensures Legal(steps + more) && Leaveless(more) && !EmptyIfLeft(Run(steps + more), t)
  {
    var s := Run(steps);
    RunKeeps(steps);
    QueuedKinds(s, t);
    assert steps + [] == steps;
    Then(steps, [], BeginPacket);
    more := FailsWhole(steps, [] + [BeginPacket], s.queues[t][0]);
    FinishFailed(Run(steps + more), t);
    Then(steps, more, FinishPacket);
    more := more + [FinishPacket];
  }

  lemma FinishFailed(s: MuxState, t: PacketType)
    requires s.sender.Sending? && s.sender.current == t && s.sender.tx.at == 3 && !s.sender.tx.ok
    requires |Queue(s.queues, t)| >= 2
    ensures Enabled(s, FinishPacket) && !EmptyIfLeft(Apply(s, FinishPacket), t)
  {
  }

  // ---------------------------------------------------------------------------------------------

  /**
   * Whatever the transport does, sendAll leaves the queue empty whenever it returns if and only if it
   * was empty before, or the flag was clear and there was one packet only (or packets of the invalid
   * type, with which it does not return). With two, a failure on the first leaves the second.
   */
  lemma QueueEmptiedIff(before: seq<Step>, t: PacketType)
    requires Legal(before) && Enabled(Run(before), Visit(t))
    ensures Legal(before + [Visit(t)])
    ensures var s := Run(before);
            AlwaysEmptied(before, t) <==>
              Queue(s.queues, t) == [] || (!s.err && (|Queue(s.queues, t)| == 1 || t == INVALID_PACKET))
  {
    var s, during := Run(before), before + [Visit(t)];
    RunAppend(before, Visit(t));
    if WillEmpty(Run(during), t) {
      forall more | Legal(during + more) && Leaveless(more)
        ensures EmptyIfLeft(Run(during + more), t)
      {
        WillEmptyRun(during, more, t);
      }
    } else if s.err {
      assert during + [] == during;
      assert !EmptyIfLeft(Run(during + []), t);
    } else {
      var more := FailsOnFirst(during, t);
      assert !EmptyIfLeft(Run(during + more), t);
    }
  }

  /** Such a call: the first pass, with a control packet behind Hello. */
  lemma QueueLeft(p: Packet) returns (before: seq<Step>, more: seq<Step>)
    requires p.kind == CONTROL_PACKET
    ensures Legal(before + [Visit(CONTROL_PACKET)] + more) && Leaveless(more)
    ensures var s := Run(before + [Visit(CONTROL_PACKET)] + more);
            Enabled(s, Leave) && Queue(Apply(s, Leave).queues, CONTROL_PACKET) != []
  {
    before := FirstPass(p);
    RunAppend(before, Visit(CONTROL_PACKET));
    assert Run(before).queues[CONTROL_PACKET] == [HELLO_PACKET, p];
    more := FailsOnFirst(before + [Visit(CONTROL_PACKET)], CONTROL_PACKET);
  }
}
