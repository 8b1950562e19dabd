// The sending side as a state machine: any number of posting threads, the destructor and the send
// thread of src/PacketMuxer.cpp, interleaved at mutex sections and at single transport writes.

module MuxProtocol {
  import opened Packets
  import opened Codec

  // ---------------------------------------------------------------------------------------------
  // One sendPacket call, one transport write at a time

  /**
   * A packet in transmission: ok is the local of sendPacket, at the field being written (3 when all
   * three writeBytes calls are over), cut[i] the number of bytes of field i the transport took.
   */
  datatype Tx = Tx(packet: Packet, ok: bool, at: nat, cut: seq<nat>)

  function Begin(p: Packet): Tx
  {
    Tx(p, true, 0, [0, 0, 0])
  }

  // writeBytes makes no call for an empty payload.
  function NextField(p: Packet, at: nat): nat
  {
    if at == 1 && p.data == [] then 3 else at + 1
  }

  ghost predicate TxValid(tx: Tx)
  {
    && tx.at <= 3
    && CutValid(tx.packet, tx.cut)
    && (tx.at < 3 ==> tx.cut[tx.at] < |Field(tx.packet, tx.at)|)
    && (forall i :: tx.at < i < 3 ==> tx.cut[i] == 0)
    && (tx.ok <==> forall i :: 0 <= i < 3 && i < tx.at ==> tx.cut[i] == |Field(tx.packet, i)|)
  }

  ghost predicate CutValid(p: Packet, cut: seq<nat>)
  {
    |cut| == 3 && forall i :: 0 <= i < 3 ==> cut[i] <= |Field(p, i)|
  }

  /** The transport returned n: an error, or the number of bytes it took (possibly none). */
  function OnWrite(tx: Tx, n: int): Tx
    requires tx.at < 3 && |tx.cut| == 3
    requires -1 <= n <= |Field(tx.packet, tx.at)| - tx.cut[tx.at]
  {
    if n < 0 then
      tx.(ok := false, at := NextField(tx.packet, tx.at))
    else
      var c := tx.cut[tx.at] + n;
      tx.(cut := tx.cut[tx.at := c],
          at := if c == |Field(tx.packet, tx.at)| then NextField(tx.packet, tx.at) else tx.at)
  }

  /** The bytes write call n takes. */
  function Taken(tx: Tx, n: int): seq<Byte>
    requires tx.at < 3 && |tx.cut| == 3
    requires -1 <= n <= |Field(tx.packet, tx.at)| - tx.cut[tx.at]
  {
    if n < 0 then [] else Field(tx.packet, tx.at)[tx.cut[tx.at]..tx.cut[tx.at] + n]
  }

  /** The bytes of one frame on the wire: a prefix of the type, of the size and of the payload. */
  function Fragments(p: Packet, cut: seq<nat>): seq<Byte>
    requires |cut| == 3 && forall i :: 0 <= i < 3 ==> cut[i] <= |Field(p, i)|
  {
    Field(p, 0)[..cut[0]] + Field(p, 1)[..cut[1]] + Field(p, 2)[..cut[2]]
  }

  lemma OnWriteValid(tx: Tx, n: int)
    requires TxValid(tx) && tx.at < 3
    requires -1 <= n <= |Field(tx.packet, tx.at)| - tx.cut[tx.at]
    ensures TxValid(OnWrite(tx, n))
  {
    var u := OnWrite(tx, n);
    assert |Field(tx.packet, 2)| == |tx.packet.data|;
    if n < 0 {
      assert u.cut[tx.at] < |Field(u.packet, tx.at)| && tx.at < u.at;
    } else {
      assert forall i :: 0 <= i < 3 && i != tx.at ==> u.cut[i] == tx.cut[i];
      assert forall i :: 0 <= i < tx.at ==> u.cut[i] == tx.cut[i];
    }
  }

  lemma OnWriteEmits(tx: Tx, n: int)
    requires TxValid(tx) && tx.at < 3
    requires -1 <= n <= |Field(tx.packet, tx.at)| - tx.cut[tx.at]
    requires CutValid(tx.packet, OnWrite(tx, n).cut)
    ensures Fragments(tx.packet, OnWrite(tx, n).cut) == Fragments(tx.packet, tx.cut) + Taken(tx, n)
  {
    if n >= 0 {
      var p, c, d := tx.packet, tx.cut, OnWrite(tx, n).cut;
      JoinLonger(Field(p, 0), Field(p, 1), Field(p, 2), c, tx.at, n);
    }
  }

  lemma JoinLonger(f: seq<Byte>, g: seq<Byte>, h: seq<Byte>, c: seq<nat>, at: nat, n: nat)
    requires |c| == 3 && at < 3 && c[0] <= |f| && c[1] <= |g| && c[2] <= |h|
    requires forall i :: at < i < 3 ==> c[i] == 0
    requires c[at] + n <= |[f, g, h][at]|
    ensures var d := c[at := c[at] + n];
            f[..d[0]] + g[..d[1]] + h[..d[2]]
            == f[..c[0]] + g[..c[1]] + h[..c[2]] + [f, g, h][at][c[at]..c[at] + n]
  {
    var part := [f, g, h][at];
    assert part[..c[at] + n] == part[..c[at]] + part[c[at]..c[at] + n];
  }

  lemma SentWhole(tx: Tx)
    requires TxValid(tx) && tx.at == 3 && tx.ok
    ensures Fragments(tx.packet, tx.cut) == Encode(tx.packet)
  {
    assert forall i :: 0 <= i < 3 ==> tx.cut[i] == |Field(tx.packet, i)|;
  }

  /** Nothing was taken after a field that was cut short. */
  ghost predicate Clean(p: Packet, cut: seq<nat>)
    requires CutValid(p, cut)
  {
    forall i, j :: 0 <= i < j < 3 && cut[i] < |Field(p, i)| ==> cut[j] == 0
  }

  lemma CleanIsPrefix(p: Packet, cut: seq<nat>)
    requires CutValid(p, cut) && Clean(p, cut)
    ensures Fragments(p, cut) <= Encode(p)
  {
  }

  /**
   * For a given pattern of accepted bytes the frame on the wire is a prefix of the real frame for
   * every packet of that size exactly when nothing was accepted after a field was cut short. As
   * sendPacket goes on to the next field after a failed one (ok &= ...), that is up to the transport.
   */
  lemma PrefixIffClean(p: Packet, cut: seq<nat>)
    requires CutValid(p, cut)
    ensures Clean(p, cut) <==>
            forall q: Packet :: |q.data| == |p.data| ==> CutValid(q, cut) && Fragments(q, cut) <= Encode(q)
  {
    if Clean(p, cut) {
      forall q: Packet | |q.data| == |p.data|
        ensures CutValid(q, cut) && Fragments(q, cut) <= Encode(q)
      {
        assert forall i :: 0 <= i < 3 ==> |Field(q, i)| == |Field(p, i)|;
        CleanIsPrefix(q, cut);
      }
    } else {
      var q := Spoiler(p, cut);
      assert |q.data| == |p.data|;
    }
  }

  /** A packet of the same size whose damaged frame is visibly not a prefix. */
  lemma Spoiler(p: Packet, cut: seq<nat>) returns (q: Packet)
    requires CutValid(p, cut) && !Clean(p, cut)
    ensures |q.data| == |p.data| && CutValid(q, cut) && !(Fragments(q, cut) <= Encode(q))
  {
    if cut[0] < 4 {
      q := TypeSpoiler(p, cut);
    } else {
      q := SizeSpoiler(p, cut);
    }
  }

  function OtherThan(b: Byte): (c: Byte)
    ensures c != b
  {
    if b == 0 then 1 else 0
  }

  /** The type was cut short and something follows: the byte that takes its place. */
  lemma TypeSpoiler(p: Packet, cut: seq<nat>) returns (q: Packet)
    requires CutValid(p, cut) && !Clean(p, cut) && cut[0] < 4
    ensures |q.data| == |p.data| && CutValid(q, cut) && !(Fragments(q, cut) <= Encode(q))
  {
    var next := if cut[1] > 0 then Field(p, 1)[0] else 0;
    var other := OtherThan(next);
    var header := [other, other, other, other];
    FromBe32Inverse(header);
    q := Packet(FromBe32(header), seq(|p.data|, i => 0));
    assert Field(q, 0) == header && Field(q, 1) == Field(p, 1);
    assert Fragments(q, cut)[cut[0]] == next;
    assert Encode(q)[cut[0]] == other;
  }

  /** The size was cut short and a byte of the payload takes its place. */
  lemma SizeSpoiler(p: Packet, cut: seq<nat>) returns (q: Packet)
    requires CutValid(p, cut) && !Clean(p, cut) && cut[0] == 4
    ensures |q.data| == |p.data| && CutValid(q, cut) && !(Fragments(q, cut) <= Encode(q))
  {
    var next := Field(p, 1)[cut[1]];
    q := Packet(p.kind, seq(|p.data|, i => OtherThan(next)));
    assert Field(q, 1) == Field(p, 1);
    assert Fragments(q, cut)[4 + cut[1]] == OtherThan(next);
    assert Encode(q)[4 + cut[1]] == next;
  }

  // ---------------------------------------------------------------------------------------------
  // The state machine

  /** Where the send thread is. It holds the tx lock from LoopHead through Sending. */
  datatype Sender =
    | Unstarted
    | Contending
    | LoopHead
    | Waiting(notified: bool)
    | Passing(todo: set<PacketType>)
    | Serving(todo: set<PacketType>, current: PacketType)
    | Sending(todo: set<PacketType>, current: PacketType, tx: Tx)
    | Exited
    | Crashed   // failed assertion

  datatype MuxState = MuxState(
    queues: map<PacketType, seq<Packet>>,
    numPosted: int,
    numSent: int,
    err: bool,
    sender: Sender,
    wire: seq<Byte>,
    // history
    posted: seq<Packet>,
    popped: seq<Packet>,
    wreck: Option<Tx>)

  datatype Step =
    | Greet                     // sendControlMessage(Hello), before the lock is taken
    | Acquire                   // the send loop takes the lock
    | Sleep                     // counters equal: wait_for releases the lock
    | Wake(timedOut: bool)      // wait_for returns: notified, timed out or spuriously
    | StartPass                 // counters differ: no wait
    | Visit(next: PacketType)   // the map iteration reaches a queue; any order
    | BeginPacket               // sendPacket on the front of the queue
    | Write(n: int)             // one call to the transport
    | FinishPacket              // the error flag is assigned, the packet popped and counted
    | Leave                     // sendAll returns
    | EndPass
    | Exit
    | Post(packet: Packet)      // emplacePacket by any thread
    | Close                     // the locked part of the destructor

  function Init(): MuxState
  {
    MuxState(map[], 0, 0, false, Unstarted, [], [], [], None)
  }

  predicate LockFree(s: MuxState)
  {
    s.sender.Unstarted? || s.sender.Contending? || s.sender.Waiting? || s.sender.Exited?
  }

  function Queue(queues: map<PacketType, seq<Packet>>, t: PacketType): seq<Packet>
  {
    if t in queues then queues[t] else []
  }

  // The send thread is the only one that ever waits on the condition variable.
  function Notified(sender: Sender): Sender
  {
    if sender.Waiting? then Waiting(true) else sender
  }

  function PostTo(s: MuxState, p: Packet): MuxState
  {
    s.(queues := s.queues[p.kind := Queue(s.queues, p.kind) + [p]],
       numPosted := (s.numPosted + 1) % U32,
       sender := Notified(s.sender),
       posted := s.posted + [p])
  }

  predicate Enabled(s: MuxState, a: Step)
  {
    match a
    case Greet => s.sender.Unstarted?
    case Acquire => s.sender.Contending?
    case Sleep => s.sender.LoopHead? && !s.err && s.numPosted == s.numSent
    case Wake(_) => s.sender.Waiting?
    case StartPass => s.sender.LoopHead? && !s.err && s.numPosted != s.numSent
    case Visit(t) => s.sender.Passing? && t in s.sender.todo
    case BeginPacket => s.sender.Serving? && !s.err && Queue(s.queues, s.sender.current) != []
    case Write(n) =>
      && s.sender.Sending?
      && var tx := s.sender.tx;
         tx.at < 3 && |tx.cut| == 3 && -1 <= n <= |Field(tx.packet, tx.at)| - tx.cut[tx.at]
    case FinishPacket =>
      s.sender.Sending? && s.sender.tx.at == 3 && Queue(s.queues, s.sender.current) != []
    case Leave => s.sender.Serving? && (s.err || Queue(s.queues, s.sender.current) == [])
    case EndPass => s.sender.Passing? && s.sender.todo == {}
    case Exit => s.sender.LoopHead? && s.err
    case Post(_) => LockFree(s)
    case Close => LockFree(s)
  }

  function Apply(s: MuxState, a: Step): MuxState
    requires Enabled(s, a)
  {
    match a
    case Greet => PostTo(s, HELLO_PACKET).(sender := Contending)
    case Acquire => s.(sender := LoopHead)
    case Sleep => s.(sender := Waiting(false))
    case Wake(timedOut) =>
      var woken := s.(sender := LoopHead);
      var s' := if timedOut then PostTo(woken, HEART_BEAT_PACKET) else woken;
      s'.(sender := Passing(s'.queues.Keys))
    case StartPass => s.(sender := Passing(s.queues.Keys))
    case Visit(t) => s.(sender := Serving(s.sender.todo - {t}, t))
    case BeginPacket =>
      var p := s.queues[s.sender.current][0];
      // sendPacket asserts that no packet has the invalid type
      s.(sender := if p.kind == INVALID_PACKET then Crashed else Sending(s.sender.todo, s.sender.current, Begin(p)))
    case Write(n) =>
      s.(wire := s.wire + Taken(s.sender.tx, n), sender := s.sender.(tx := OnWrite(s.sender.tx, n)))
    case FinishPacket =>
      var t, tx := s.sender.current, s.sender.tx;
      s.(err := !tx.ok,
         queues := s.queues[t := s.queues[t][1..]],
         numSent := (s.numSent + 1) % U32,
         popped := s.popped + [s.queues[t][0]],
         wreck := if tx.ok then s.wreck else Some(tx),
         sender := Serving(s.sender.todo, t))
    case Leave => s.(sender := Passing(s.sender.todo))
    case EndPass => s.(sender := LoopHead)
    case Exit => s.(sender := Exited)
    case Post(p) => PostTo(s, p)
    case Close => s.(err := true, sender := Notified(s.sender))
  }

  /** A run: every step is enabled in the state the earlier ones lead to. */
  predicate Legal(steps: seq<Step>)
    decreases |steps|, 0
  {
    steps == [] ||
    (Legal(steps[..|steps| - 1]) && Enabled(Run(steps[..|steps| - 1]), steps[|steps| - 1]))
  }

  function Run(steps: seq<Step>): MuxState
    requires Legal(steps)
    decreases |steps|, 1
  {
    if steps == [] then Init() else Apply(Run(steps[..|steps| - 1]), steps[|steps| - 1])
  }

  /** The transport is sticky in this run: once a write of a frame failed it takes no more of that frame. */
  predicate Sticky(steps: seq<Step>)
    requires Legal(steps)
  {
    steps == [] ||
    (Sticky(steps[..|steps| - 1]) && Gentle(Run(steps[..|steps| - 1]), steps[|steps| - 1]))
  }

  predicate Gentle(s: MuxState, a: Step)
  {
    a.Write? && s.sender.Sending? && !s.sender.tx.ok ==> a.n <= 0
  }

  lemma RunAppend(steps: seq<Step>, a: Step)
    requires Legal(steps) && Enabled(Run(steps), a)
    ensures Legal(steps + [a]) && Run(steps + [a]) == Apply(Run(steps), a)
  {
    assert (steps + [a])[..|steps|] == steps;
  }

  /** The last step of a continuation. */
  lemma LastOf(steps: seq<Step>, more: seq<Step>)
    requires Legal(steps + more) && more != []
    ensures var front, a := more[..|more| - 1], more[|more| - 1];
            && Legal(steps + front) && Enabled(Run(steps + front), a)
            && Run(steps + more) == Apply(Run(steps + front), a)
  {
    assert (steps + more)[..|steps + more| - 1] == steps + more[..|more| - 1];
  }

  // ---------------------------------------------------------------------------------------------
  // Sums over the queue map

  ghost function Total(queues: map<PacketType, seq<Packet>>): nat
    decreases |queues|
  {
    if queues == map[] then 0
    else
      var t :| t in queues;
      |queues[t]| + Total(queues - {t})
  }

  lemma {:induction false} TotalRemove(queues: map<PacketType, seq<Packet>>, t: PacketType)
    requires t in queues
    ensures Total(queues) == |queues[t]| + Total(queues - {t})
    decreases |queues|
  {
    var u :| u in queues && Total(queues) == |queues[u]| + Total(queues - {u});
    if u != t {
      TotalRemove(queues - {u}, t);
      TotalRemove(queues - {t}, u);
      assert queues - {u} - {t} == queues - {t} - {u};
    }
  }

  lemma TotalUpdate(queues: map<PacketType, seq<Packet>>, t: PacketType, q: seq<Packet>)
    ensures Total(queues[t := q]) == Total(queues) - |Queue(queues, t)| + |q|
  {
    TotalRemove(queues[t := q], t);
    if t in queues {
      TotalRemove(queues, t);
      assert queues[t := q] - {t} == queues - {t};
    } else {
      assert queues[t := q] - {t} == queues;
    }
  }

  lemma {:induction false} TotalZero(queues: map<PacketType, seq<Packet>>)
    ensures Total(queues) == 0 <==> forall t :: t in queues ==> queues[t] == []
    decreases |queues|
  {
    if queues != map[] {
      var t :| t in queues && Total(queues) == |queues[t]| + Total(queues - {t});
      TotalZero(queues - {t});
      assert forall u :: u in queues ==> u == t || (u in queues - {t} && (queues - {t})[u] == queues[u]);
    }
  }
}
