// Particular runs of the receiving side: how a frame is received, and where a promise ends.

module DemuxRuns {
  import opened Packets
  import opened Codec
  import opened DemuxProtocol
  import opened DemuxSafety

  lemma Then(steps: seq<Step>, more: seq<Step>, a: Step)
    requires Legal(steps + more) && Enabled(Run(steps + more), a)
    ensures Legal(steps + (more + [a])) && Run(steps + (more + [a])) == Apply(Run(steps + more), a)
  {
    assert steps + (more + [a]) == (steps + more) + [a];
    RunAppend(steps + more, a);
  }

  /** Nobody subscribes or is called during these steps. */
  ghost predicate Silent(more: seq<Step>)
  {
    forall i :: 0 <= i < |more| ==> !more[i].Subscribe? && !more[i].Unsubscribe? && !more[i].Lock? && !more[i].Call?
  }

  /** One field, read in one piece. */
  lemma ReadsField(steps: seq<Step>, more: seq<Step>, f: seq<Byte>) returns (more': seq<Step>)
    requires Legal(steps + more) && f != []
    requires var d := Run(steps + more); d.phase.Reading? && !d.err && Want(d.got) == |f|
    ensures var d := Run(steps + more);
            && Legal(steps + more')
            && Run(steps + more') == d.(consumed := d.consumed + f, got := d.got + f)
            && (Silent(more) ==> Silent(more'))
  {
    Then(steps, more, Look);
    Then(steps, more + [Look], Take(f));
    more' := more + [Look] + [Take(f)];
  }

  lemma FieldsAreFrame(p: Packet)
    ensures [] + Field(p, 0) + Field(p, 1) + Field(p, 2) == Encode(p)
    ensures p.data == [] ==> [] + Field(p, 0) + Field(p, 1) == Encode(p)
  {
  }

  lemma HeaderWants(p: Packet)
    requires |p.data| < INT_LIMIT
    ensures Want([]) == 4 && Want([] + Field(p, 0)) == 4
    ensures Want([] + Field(p, 0) + Field(p, 1)) == |p.data|
    ensures Want(Encode(p)) == 0
  {
    Be32Inverse(|p.data|);
    assert ([] + Field(p, 0) + Field(p, 1))[4..8] == Field(p, 1);
    assert Encode(p)[4..8] == Field(p, 1);
  }

  /** The state in which receivePacket has the whole frame of p. */
  function Got(d: DemuxState, p: Packet): DemuxState
  {
    d.(phase := Whole, consumed := d.consumed + Encode(p), got := Encode(p))
  }

  /** The frame of any packet that fits can be received whenever the receive thread polls. */
  lemma Receives(steps: seq<Step>, p: Packet) returns (more: seq<Step>)
    requires Legal(steps) && |p.data| < 0x8000_0000 && p.kind != INVALID_PACKET
    requires var d := Run(steps); d.phase.Polling? && !d.err && d.got == []
    ensures Legal(steps + more) && Run(steps + more) == Arrived(Got(Run(steps), p), p) && Silent(more)
  {
    more := ReadsFrame(steps, p);
    HeaderWants(p);
    more := ThenWhole(steps, more);
    FinishesAs(Run(steps + more), p);
    Then(steps, more, Finish);
    more := more + [Finish];
  }

  lemma ThenWhole(steps: seq<Step>, more: seq<Step>) returns (more': seq<Step>)
    requires Legal(steps + more)
    requires var d := Run(steps + more); d.phase.Reading? && !d.err && Want(d.got) == 0
    ensures Legal(steps + more') && Run(steps + more') == Run(steps + more).(phase := Whole)
    ensures Silent(more) ==> Silent(more')
  {
    Then(steps, more, Look);
    more' := more + [Look];
  }

  lemma ReadsFrame(steps: seq<Step>, p: Packet) returns (more: seq<Step>)
    requires Legal(steps) && |p.data| < INT_LIMIT
    requires var d := Run(steps); d.phase.Polling? && !d.err && d.got == []
    ensures Legal(steps + more) && Silent(more)
    ensures Run(steps + more) == Got(Run(steps), p).(phase := Reading)
  {
    var d := Run(steps);
    HeaderWants(p);
    FieldsAreFrame(p);
    assert steps + [] == steps;
    Then(steps, [], Poll(true));
    more := ReadsField(steps, [] + [Poll(true)], Field(p, 0));
    more := ReadsField(steps, more, Field(p, 1));
    if p.data != [] {
      more := ReadsField(steps, more, Field(p, 2));
    }
    ThreeFields(d.consumed, Field(p, 0), Field(p, 1), p.data);
  }

  lemma ThreeFields(c: seq<Byte>, x: seq<Byte>, y: seq<Byte>, z: seq<Byte>)
    ensures c + x + y + z == c + (x + y + z)
    ensures z == [] ==> c + x + y == c + (x + y + z)
  {
  }

  lemma FinishesAs(d: DemuxState, p: Packet)
    requires d.phase.Whole? && d.got == Encode(p) && |p.data| < INT_LIMIT && p.kind != INVALID_PACKET
    ensures Apply(d, Finish) == Arrived(d, p)
  {
    FrameRoundTrip(p, []);
    NoneLeft(Encode(p));
  }

  /** A subscriber, Hello and a packet for the subscriber, up to its dispatch. */
  lemma BothReceived(s: Subscriber, p: Packet) returns (more: seq<Step>)
    requires |p.data| < INT_LIMIT && p.kind != INVALID_PACKET && p.kind != CONTROL_PACKET && s.kind == p.kind
    ensures Legal([Subscribe(s)] + more) && Silent(more)
    ensures var d := Run([Subscribe(s)] + more);
            && d.phase == Holding(p) && d.consumed == Encode(HELLO_PACKET) + Encode(p)
            && Slots(d.subs, p.kind) == [s] && s in d.known && d.known[s].live
  {
    var hello := HelloReceived(s);
    more := ReceivesNext([Subscribe(s)], hello, p);
  }

  /** Once the greeting is over, a packet that is not a control packet is received and held for dispatch. */
  lemma ReceivesNext(steps: seq<Step>, more: seq<Step>, p: Packet) returns (more': seq<Step>)
    requires Legal(steps + more) && |p.data| < INT_LIMIT && p.kind != INVALID_PACKET && p.kind != CONTROL_PACKET
    requires var d := Run(steps + more); d.phase.Idle? && !d.greeting && !d.err && d.got == []
    ensures Legal(steps + more') && (Silent(more) ==> Silent(more'))
    ensures var d, d' := Run(steps + more), Run(steps + more');
            && d'.phase == Holding(p) && d'.consumed == d.consumed + Encode(p)
            && d'.subs == d.subs && d'.known == d.known
  {
    Then(steps, more, Enter);
    var entered := more + [Enter];
    var rest := ReceivesHeld(steps + entered, p);
    more' := entered + rest;
    Joined(steps, entered, rest);
  }

  lemma Joined(steps: seq<Step>, a: seq<Step>, b: seq<Step>)
    ensures steps + (a + b) == steps + a + b
    ensures Silent(a) && Silent(b) ==> Silent(a + b)
  {
  }

  lemma ReceivesHeld(steps: seq<Step>, p: Packet) returns (more: seq<Step>)
    requires Legal(steps) && |p.data| < INT_LIMIT && p.kind != INVALID_PACKET && p.kind != CONTROL_PACKET
    requires var d := Run(steps); d.phase.Polling? && !d.greeting && !d.err && d.got == []
    ensures Legal(steps + more) && Silent(more)
    ensures var d, d' := Run(steps), Run(steps + more);
            && d'.phase == Holding(p) && d'.consumed == d.consumed + Encode(p)
            && d'.subs == d.subs && d'.known == d.known
  {
    more := Receives(steps, p);
    HoldsIt(Run(steps), p);
  }

  lemma HoldsIt(d: DemuxState, p: Packet)
    requires !d.greeting && p.kind != CONTROL_PACKET
    ensures var d' := Arrived(Got(d, p), p);
            && d'.phase == Holding(p) && d'.consumed == d.consumed + Encode(p)
            && d'.subs == d.subs && d'.known == d.known
  {
  }

  lemma HelloReceived(s: Subscriber) returns (more: seq<Step>)
    ensures Legal([Subscribe(s)] + more) && Silent(more)
    ensures var d := Run([Subscribe(s)] + more);
            && d.phase.Idle? && !d.greeting && !d.err && d.got == [] && d.consumed == Encode(HELLO_PACKET)
            && Slots(d.subs, s.kind) == [s] && s in d.known && d.known[s].live
  {
    RunAppend([], Subscribe(s));
    assert [] + [Subscribe(s)] == [Subscribe(s)];
    more := Receives([Subscribe(s)], HELLO_PACKET);
    assert [] + Encode(HELLO_PACKET) == Encode(HELLO_PACKET);
  }

  lemma {:induction false} FirstPollStays(steps: seq<Step>, more: seq<Step>)
    requires FirstPoll(steps).Some?
    ensures FirstPoll(steps + more) == FirstPoll(steps)
    decreases |more|
  {
    if more == [] {
      assert steps + more == steps;
    } else {
      assert (steps + more)[..|steps + more| - 1] == steps + more[..|more| - 1];
      FirstPollStays(steps, more[..|more| - 1]);
    }
  }

  /** After a greeting that timed out, a first packet that is not Hello reaches its subscriber. */
  lemma HelloSkipped(p: Packet) returns (steps: seq<Step>, s: Subscriber)
    requires |p.data| < INT_LIMIT && p.kind != INVALID_PACKET && p.kind != CONTROL_PACKET
    ensures Legal(steps) && FirstPoll(steps) == Some(false) && FirstIsOther(Run(steps))
    ensures s in Run(steps).known && Run(steps).known[s].got == [p]
  {
    s := Subscriber(0, p.kind);
    var start := Registering(s);
    var more := Receives(start, p);
    FirstPollStays(start, more);
    var d := Run(start + more);
    assert d.phase == Holding(p) && Slots(d.subs, p.kind) == [s];
    RunAppend(start + more, Lock);
    RunAppend(start + more + [Lock], Call);
    steps := start + more + [Lock] + [Call];
    assert steps == start + (more + [Lock] + [Call]);
    FirstPollStays(start, more + [Lock] + [Call]);
  }

  lemma Registering(s: Subscriber) returns (steps: seq<Step>)
    ensures Legal(steps) && FirstPoll(steps) == Some(false)
    ensures Run(steps) == Apply(Init().(phase := Polling, greeting := false), Subscribe(s))
  {
    RunAppend([], Poll(false));
    var one := [] + [Poll(false)];
    RunAppend(one, Enter);
    var two := one + [Enter];
    RunAppend(two, Subscribe(s));
    steps := two + [Subscribe(s)];
    assert steps == [Poll(false)] + [Enter, Subscribe(s)];
    assert [Poll(false)][..0] == [];
    FirstPollStays([Poll(false)], [Enter, Subscribe(s)]);
  }
}
