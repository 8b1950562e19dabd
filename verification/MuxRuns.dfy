// Particular runs of the sending side: how a packet is sent, and where a promise ends.

module MuxRuns {
  import opened Packets
  import opened Codec
  import opened MuxProtocol
  import opened MuxSafety

  lemma Then(steps: seq<Step>, more: seq<Step>, a: Step)
    requires Legal(steps + more) && Enabled(Run(steps + more), a)
    ensures Legal(steps + (more + [a])) && Run(steps + (more + [a])) == Apply(Run(steps + more), a)
  {
    assert steps + (more + [a]) == (steps + more) + [a];
    RunAppend(steps + more, a);
  }

  /** These steps post nothing. */
  ghost predicate NoPost(more: seq<Step>)
  {
    forall i :: 0 <= i < |more| ==> !more[i].Post?
  }

  /** A packet of which two fields have gone out whole. */
  lemma TwoFields(p: Packet)
    ensures OnWrite(Begin(p), 4) == Tx(p, true, 1, [4, 0, 0])
    ensures OnWrite(Tx(p, true, 1, [4, 0, 0]), 4) == Tx(p, true, if p.data == [] then 3 else 2, [4, 4, 0])
    ensures Taken(Begin(p), 4) == Field(p, 0) && Taken(Tx(p, true, 1, [4, 0, 0]), 4) == Field(p, 1)
  {
  }

  lemma ThirdField(p: Packet)
    requires p.data != []
    ensures OnWrite(Tx(p, true, 2, [4, 4, 0]), |p.data|) == Tx(p, true, 3, [4, 4, |p.data|])
    ensures Taken(Tx(p, true, 2, [4, 4, 0]), |p.data|) == p.data
  {
  }

  /** A queue whose front packet has been sent. */
  function Served(s: MuxState): MuxState
    requires s.sender.Serving? && Queue(s.queues, s.sender.current) != []
  {
    var t := s.sender.current;
    var q := s.queues[t];
    s.(wire := s.wire + Encode(q[0]),
       queues := s.queues[t := q[1..]],
       numSent := (s.numSent + 1) % U32,
       popped := s.popped + [q[0]])
  }

  lemma ThreeFields(w: seq<Byte>, p: Packet)
    ensures w + Field(p, 0) + Field(p, 1) + p.data == w + Encode(p)
    ensures p.data == [] ==> w + Field(p, 0) + Field(p, 1) == w + Encode(p)
  {
  }

  /** Any valid packet at the front of the queue being served can be sent whole. */
  lemma ServesFront(steps: seq<Step>, more: seq<Step>) returns (more': seq<Step>)
    requires Legal(steps + more)
    requires var s := Run(steps + more);
             && s.sender.Serving? && !s.err && Queue(s.queues, s.sender.current) != []
             && s.queues[s.sender.current][0].kind != INVALID_PACKET
    ensures Legal(steps + more') && Run(steps + more') == Served(Run(steps + more))
    ensures NoPost(more) ==> NoPost(more')
  {
    var s := Run(steps + more);
    var p := s.queues[s.sender.current][0];
    more' := ThenBegin(steps, more);
    TwoFields(p);
    more' := ThenWrite(steps, more', 4);
    more' := ThenWrite(steps, more', 4);
    if p.data != [] {
      ThirdField(p);
      more' := ThenWrite(steps, more', |p.data|);
    }
    ThreeFields(s.wire, p);
    more' := ThenFinish(s, steps, more', p);
  }

  lemma ThenBegin(steps: seq<Step>, more: seq<Step>) returns (more': seq<Step>)
    requires Legal(steps + more)
    requires var s := Run(steps + more);
             && s.sender.Serving? && !s.err && Queue(s.queues, s.sender.current) != []
             && s.queues[s.sender.current][0].kind != INVALID_PACKET
    ensures Legal(steps + more') && (NoPost(more) ==> NoPost(more'))
    ensures var s := Run(steps + more);
            Run(steps + more') == s.(sender := Sending(s.sender.todo, s.sender.current, Begin(s.queues[s.sender.current][0])))
  {
    Then(steps, more, BeginPacket);
    more' := more + [BeginPacket];
  }

  lemma ThenWrite(steps: seq<Step>, more: seq<Step>, n: int) returns (more': seq<Step>)
    requires Legal(steps + more) && Enabled(Run(steps + more), Write(n))
    ensures Legal(steps + more') && (NoPost(more) ==> NoPost(more'))
    ensures var s := Run(steps + more);
            Run(steps + more') == s.(wire := s.wire + Taken(s.sender.tx, n), sender := s.sender.(tx := OnWrite(s.sender.tx, n)))
  {
    Then(steps, more, Write(n));
    more' := more + [Write(n)];
  }

  lemma ThenFinish(s: MuxState, steps: seq<Step>, more: seq<Step>, p: Packet) returns (more': seq<Step>)
    requires s.sender.Serving? && !s.err && Queue(s.queues, s.sender.current) != []
    requires p == s.queues[s.sender.current][0]
    requires Legal(steps + more)
    requires Run(steps + more) == s.(wire := s.wire + Encode(p),
      sender := Sending(s.sender.todo, s.sender.current, Tx(p, true, 3, [4, 4, |p.data|])))
    ensures Legal(steps + more') && Run(steps + more') == Served(s)
    ensures NoPost(more) ==> NoPost(more')
  {
    FinishState(s, Run(steps + more), p);
    Then(steps, more, FinishPacket);
    more' := more + [FinishPacket];
  }

  lemma FinishState(s: MuxState, m: MuxState, p: Packet)
    requires s.sender.Serving? && !s.err && Queue(s.queues, s.sender.current) != []
    requires p == s.queues[s.sender.current][0]
    requires m == s.(wire := s.wire + Encode(p),
      sender := Sending(s.sender.todo, s.sender.current, Tx(p, true, 3, [4, 4, |p.data|])))
    ensures Enabled(m, FinishPacket) && Apply(m, FinishPacket) == Served(s)
  {
    var m' := Apply(m, FinishPacket);
    assert m'.sender == s.sender && m'.err == s.err && m'.popped == s.popped + [p];
  }

  /** A packet posted before anything else and Hello, both sent whole. */
  lemma BothSent(p: Packet) returns (more: seq<Step>)
    requires p.kind != INVALID_PACKET && p.kind != CONTROL_PACKET
    ensures Legal([Post(p)] + more) && NoPost(more)
    ensures var s := Run([Post(p)] + more);
            s.wire == Encode(HELLO_PACKET) + Encode(p) && !s.err && s.sender.Serving?
  {
    more := ToFirstPass(p);
    Then([Post(p)], more, Visit(CONTROL_PACKET));
    more := ServesFront([Post(p)], more + [Visit(CONTROL_PACKET)]);
    more := SecondSent([Post(p)], more, p);
  }

  lemma ToFirstPass(p: Packet) returns (more: seq<Step>)
    requires p.kind != CONTROL_PACKET
    ensures Legal([Post(p)] + more) && NoPost(more)
    ensures var s := Run([Post(p)] + more);
            && s.sender == Passing({p.kind, CONTROL_PACKET}) && !s.err && s.wire == [] && s.popped == []
            && Queue(s.queues, p.kind) == [p] && Queue(s.queues, CONTROL_PACKET) == [HELLO_PACKET]
  {
    var first := [Post(p)];
    RunAppend([], Post(p));
    assert [] + [Post(p)] == first && first + [] == first;
    Then(first, [], Greet);
    Then(first, [] + [Greet], Acquire);
    Then(first, [] + [Greet] + [Acquire], StartPass);
    more := [] + [Greet] + [Acquire] + [StartPass];
  }

  lemma SecondSent(steps: seq<Step>, more: seq<Step>, p: Packet) returns (more': seq<Step>)
    requires p.kind != INVALID_PACKET && Legal(steps + more) && NoPost(more)
    requires var s := Run(steps + more);
             && s.sender == Serving({p.kind}, CONTROL_PACKET) && !s.err && s.wire == [] + Encode(HELLO_PACKET)
             && Queue(s.queues, CONTROL_PACKET) == [] && Queue(s.queues, p.kind) == [p]
    ensures Legal(steps + more') && NoPost(more')
    ensures var s := Run(steps + more');
            s.wire == Encode(HELLO_PACKET) + Encode(p) && !s.err && s.sender.Serving?
  {
    Then(steps, more, Leave);
    Then(steps, more + [Leave], Visit(p.kind));
    more' := ServesFront(steps, more + [Leave] + [Visit(p.kind)]);
    assert [] + Encode(HELLO_PACKET) == Encode(HELLO_PACKET);
  }

  /** Two packets queued before the send loop first takes the lock, and its first pass. */
  lemma FirstPass(p: Packet) returns (steps: seq<Step>)
    ensures Legal(steps)
    ensures var s := Run(steps);
            && s.posted == [HELLO_PACKET, p] && s.popped == [] && s.wire == [] && !s.err
            && s.queues == PostTo(PostTo(Init(), HELLO_PACKET), p).queues
            && s.sender == Passing(s.queues.Keys) && s.wreck == None && s.numSent == 0
  {
    steps := Queued2(p);
    RunAppend(steps, Acquire);
    RunAppend(steps + [Acquire], StartPass);
    steps := steps + [Acquire] + [StartPass];
  }

  lemma Queued2(p: Packet) returns (steps: seq<Step>)
    ensures Legal(steps) && Run(steps) == PostTo(PostTo(Init(), HELLO_PACKET).(sender := Contending), p)
  {
    RunAppend([], Greet);
    RunAppend([] + [Greet], Post(p));
    steps := [] + [Greet] + [Post(p)];
  }

  lemma NextWrite(steps: seq<Step>, n: int) returns (steps': seq<Step>)
    requires Legal(steps) && Enabled(Run(steps), Write(n))
    ensures Legal(steps')
    ensures var s := Run(steps);
            Run(steps') == s.(wire := s.wire + Taken(s.sender.tx, n), sender := s.sender.(tx := OnWrite(s.sender.tx, n)))
  {
    RunAppend(steps, Write(n));
    steps' := steps + [Write(n)];
  }

  // ---------------------------------------------------------------------------------------------
  // A packet nobody posted

  // The payload and size of the real packet, read as a frame, are the forged one.
  const REAL: Packet := Packet(2, [0, 0, 0, 8, 1, 2, 3, 4, 5, 6, 7, 8])
  const FORGED: Packet := Packet(12, [1, 2, 3, 4, 5, 6, 7, 8])

  lemma SmallHeaders()
    ensures Be32(12) == [0, 0, 0, 12] && Be32(8) == [0, 0, 0, 8]
  {
  }

  lemma DamagedFrame()
    ensures CutValid(REAL, [0, 4, 12]) && Fragments(REAL, [0, 4, 12]) == Encode(FORGED)
  {
    SmallHeaders();
    assert Field(REAL, 0)[..0] == [];
    assert Field(REAL, 1)[..4] == [0, 0, 0, 12];
    assert Field(REAL, 2)[..12] == REAL.data;
    assert Encode(FORGED) == [0, 0, 0, 12] + [0, 0, 0, 8] + FORGED.data;
  }

  lemma TypeFieldFails()
    ensures OnWrite(Begin(REAL), -1) == Tx(REAL, false, 1, [0, 0, 0])
    ensures OnWrite(Tx(REAL, false, 1, [0, 0, 0]), 4) == Tx(REAL, false, 2, [0, 4, 0])
    ensures OnWrite(Tx(REAL, false, 2, [0, 4, 0]), 12) == Tx(REAL, false, 3, [0, 4, 12])
    ensures Taken(Begin(REAL), -1) + Taken(Tx(REAL, false, 1, [0, 0, 0]), 4) + Taken(Tx(REAL, false, 2, [0, 4, 0]), 12)
            == Fragments(REAL, [0, 4, 12])
  {
  }

  /**
   * Without stickiness the wire can hold a frame of a packet nobody posted: the type field fails, the
   * size field and the payload still go out, and they read as a frame of their own.
   */
  lemma DamageForges() returns (steps: seq<Step>)
    ensures Legal(steps)
    ensures Run(steps).posted == [HELLO_PACKET, REAL]
    ensures Run(steps).wire == Encode(HELLO_PACKET) + Encode(FORGED)
  {
    steps := FirstPass(REAL);
    RunAppend(steps, Visit(CONTROL_PACKET));
    steps := steps + [Visit(CONTROL_PACKET)];
    assert steps + [] == steps;
    var more := ServesFront(steps, []);
    steps := steps + more;
    RunAppend(steps, Leave);
    steps := steps + [Leave];
    RunAppend(steps, Visit(REAL.kind));
    steps := steps + [Visit(REAL.kind)];
    assert Run(steps).queues[REAL.kind] == [REAL];
    RunAppend(steps, BeginPacket);
    steps := FailsType(steps + [BeginPacket]);
    DamagedFrame();
    assert [] + Encode(HELLO_PACKET) == Encode(HELLO_PACKET);
  }

  lemma FailsType(steps: seq<Step>) returns (steps': seq<Step>)
    requires Legal(steps) && Run(steps).sender.Sending? && Run(steps).sender.tx == Begin(REAL)
    ensures Legal(steps') && Run(steps').posted == Run(steps).posted
    ensures Run(steps').wire == Run(steps).wire + Fragments(REAL, [0, 4, 12])
  {
    TypeFieldFails();
    steps' := NextWrite(steps, -1);
    steps' := NextWrite(steps', 4);
    steps' := NextWrite(steps', 12);
  }
}
