// The handshake of Sync over the real channels: two muxers and two demuxers, one pair in each direction,
// with all their threads. Every run of the whole is a run of the handshake over two plain counters.

module SyncOverComms {
  import opened Packets
  import opened Codec
  import Mux = MuxProtocol
  import MuxSafety
  import Demux = DemuxProtocol
  import DemuxSafety
  import Pipeline
  import Sync

  // The agreed ready type; any application type would do.
  const READY: PacketType := 2

  // ---------------------------------------------------------------------------------------------
  // One direction

  /** Steps over a transport whose failures are sticky, with payloads whose size fits its field. */
  predicate Orderly(s: Pipeline.State, a: Pipeline.Step)
  {
    && Pipeline.Enabled(s, a)
    && (a.Tx? ==> Mux.Gentle(s.tx, a.m) && (a.m.Post? ==> |a.m.packet.data| < U32))
  }

  /** Only the two functions post ready messages and subscribe to them. */
  predicate Foreign(a: Pipeline.Step)
  {
    match a
    case Tx(Post(p)) => p.kind != READY
    case Rx(Subscribe(s)) => s.kind != READY
    case Rx(Unsubscribe(s)) => s.kind != READY
    case _ => true
  }

  /** Reachable by such steps: in every set that holds the initial state and is closed under them. */
  ghost predicate Sound(s: Pipeline.State)
  {
    forall states: iset<Pipeline.State> | Closed(states) :: s in states
  }

  ghost predicate Closed(states: iset<Pipeline.State>)
  {
    Start() in states && forall s, a | s in states && Orderly(s, a) :: Pipeline.Apply(s, a) in states
  }

  function Start(): Pipeline.State
  {
    Pipeline.State(Mux.Init(), Demux.Init())
  }

  ghost function Connecteds(): iset<Pipeline.State>
  {
    iset s: Pipeline.State | Pipeline.Connected(s.tx, s.rx)
  }

  /** A ready message reaches its subscriber. */
  predicate Delivers(s: Pipeline.State, a: Pipeline.Step)
  {
    a == Pipeline.Rx(Demux.Call) && s.rx.phase.Dispatching? && s.rx.phase.packet.kind == READY
  }

  /** A ready message finds nobody subscribed. */
  predicate Drops(s: Pipeline.State, a: Pipeline.Step)
  {
    && a == Pipeline.Rx(Demux.Lock) && s.rx.phase.Holding? && s.rx.phase.packet.kind == READY
    && Demux.Slots(s.rx.subs, READY) == []
  }

  function Posted(s: Pipeline.State): nat
  {
    |OfType(s.tx.posted, READY)|
  }

  /** How many ready messages have been delivered or dropped. */
  function Done(d: Demux.DemuxState): nat
  {
    |OfType(d.dispatched, READY)|
    + (if d.phase.Dispatching? && d.phase.packet.kind == READY && d.phase.todo == [] then 1 else 0)
  }

  function InFlight(s: Pipeline.State): nat
  {
    if Done(s.rx) <= Posted(s) then Posted(s) - Done(s.rx) else 0
  }

  predicate Subscribed(d: Demux.DemuxState, listening: bool)
  {
    |Demux.Slots(d.subs, READY)| == if listening then 1 else 0
  }

  lemma BelowAppend(posted: seq<Packet>, p: Packet)
    requires AllBelow(posted, U32) && |p.data| < U32
    ensures AllBelow(posted + [p], U32)
  {
  }

  lemma PostsSmall(s: Mux.MuxState, a: Mux.Step)
    requires Mux.Enabled(s, a) && AllBelow(s.posted, U32) && (a.Post? ==> |a.packet.data| < U32)
    ensures AllBelow(Mux.Apply(s, a).posted, U32)
  {
    match a
    case Greet => BelowAppend(s.posted, HELLO_PACKET);
    case Wake(_) => BelowAppend(s.posted, HEART_BEAT_PACKET);
    case Post(p) => BelowAppend(s.posted, p);
    case _ =>
  }

  lemma SoundStep(s: Pipeline.State, a: Pipeline.Step)
    requires Sound(s) && Orderly(s, a)
    ensures Sound(Pipeline.Apply(s, a))
  {
  }

  lemma SoundConnected(s: Pipeline.State)
    requires Sound(s)
    ensures Pipeline.Connected(s.tx, s.rx)
  {
    StartConnected();
    forall r, a | r in Connecteds() && Orderly(r, a)
      ensures Pipeline.Apply(r, a) in Connecteds()
    {
      ConnectedsStep(r, a);
    }
    assert Closed(Connecteds());
  }

  lemma StartConnected()
    ensures Start() in Connecteds()
  {
    MuxSafety.RunKeeps([]);
    DemuxSafety.RunKeeps([]);
  }

  lemma ConnectedsStep(s: Pipeline.State, a: Pipeline.Step)
    requires s in Connecteds() && Orderly(s, a)
    ensures Pipeline.Apply(s, a) in Connecteds()
  {
    ConnectedStep(s, a);
  }

  lemma ConnectedStep(s: Pipeline.State, a: Pipeline.Step)
    requires Pipeline.Connected(s.tx, s.rx) && Orderly(s, a)
    ensures var s' := Pipeline.Apply(s, a); Pipeline.Connected(s'.tx, s'.rx)
  {
    match a
    case Tx(m) =>
      MuxSafety.StepKeeps(s.tx, m);
      MuxSafety.CleanStep(s.tx, m);
      PostsSmall(s.tx, m);
      Pipeline.TxKeepsStream(s.tx, m, s.rx.consumed);
    case Rx(d) =>
      DemuxSafety.StepKeeps(s.rx, d);
      Pipeline.RxKeepsStream(s.rx, d, s.tx.wire);
  }

  /** The ready messages whose dispatch has begun are some of those posted. */
  lemma DoneAtMost(s: Pipeline.State)
    requires Sound(s)
    ensures |DemuxSafety.Seen(s.rx, READY)| <= Posted(s) && Done(s.rx) <= Posted(s)
  {
    SoundConnected(s);
    Pipeline.ReceivedStarted(s.tx, s.rx);
    DemuxSafety.SeenReceived(s.rx, READY);
    OfTypePrefix(s.rx.received, MuxSafety.Started(s.tx), READY);
    MuxSafety.StartedInOrder(s.tx, READY);
  }

  lemma ForeignPosts(s: Mux.MuxState, a: Mux.Step)
    requires Mux.Enabled(s, a) && (a.Post? ==> a.packet.kind != READY)
    ensures OfType(Mux.Apply(s, a).posted, READY) == OfType(s.posted, READY)
  {
    match a
    case Greet => OfTypeAppend(s.posted, HELLO_PACKET, READY);
    case Wake(_) => OfTypeAppend(s.posted, HEART_BEAT_PACKET, READY);
    case Post(p) => OfTypeAppend(s.posted, p, READY);
    case _ =>
  }

  ghost predicate SameReady(d: Demux.DemuxState, d': Demux.DemuxState)
  {
    Done(d') == Done(d) && |Demux.Slots(d'.subs, READY)| == |Demux.Slots(d.subs, READY)|
  }

  lemma ForeignFinish(d: Demux.DemuxState)
    requires Demux.Enabled(d, Demux.Finish)
    ensures SameReady(d, Demux.Apply(d, Demux.Finish))
  {
    DemuxSafety.FinishQuiet(d);
  }

  lemma ForeignUnlock(d: Demux.DemuxState)
    requires Demux.Enabled(d, Demux.Unlock)
    ensures SameReady(d, Demux.Apply(d, Demux.Unlock))
  {
    OfTypeAppend(d.dispatched, d.phase.packet, READY);
  }

  /** Whatever else the receiving side does leaves the ready messages alone. */
  lemma ForeignReceives(s: Pipeline.State, d: Demux.Step)
    requires Pipeline.Enabled(s, Pipeline.Rx(d)) && Foreign(Pipeline.Rx(d))
    requires !Delivers(s, Pipeline.Rx(d)) && !Drops(s, Pipeline.Rx(d))
    ensures SameReady(s.rx, Demux.Apply(s.rx, d))
  {
    match d
    case Finish => ForeignFinish(s.rx);
    case Unlock => ForeignUnlock(s.rx);
    case _ =>
  }

  lemma ForeignStep(s: Pipeline.State, a: Pipeline.Step)
    requires Orderly(s, a) && Foreign(a) && !Delivers(s, a) && !Drops(s, a)
    ensures InFlight(Pipeline.Apply(s, a)) == InFlight(s)
    ensures |Demux.Slots(Pipeline.Apply(s, a).rx.subs, READY)| == |Demux.Slots(s.rx.subs, READY)|
  {
    match a
    case Tx(m) => ForeignPosts(s.tx, m);
    case Rx(d) => ForeignReceives(s, d);
  }

  /** A call takes one message from the channel, and somebody is subscribed. */
  lemma DeliversOne(s: Pipeline.State, a: Pipeline.Step, listening: bool)
    requires Sound(s) && Orderly(s, a) && Delivers(s, a) && Subscribed(s.rx, listening)
    ensures listening && InFlight(s) > 0 && InFlight(Pipeline.Apply(s, a)) == InFlight(s) - 1
    ensures Subscribed(Pipeline.Apply(s, a).rx, listening)
  {
    DoneAtMost(s);
    OneToCall(s, listening);
  }

  lemma OneToCall(s: Pipeline.State, listening: bool)
    requires Sound(s) && Delivers(s, Pipeline.Rx(Demux.Call)) && s.rx.phase.todo != [] && Subscribed(s.rx, listening)
    ensures listening && |s.rx.phase.todo| == 1
  {
    SoundConnected(s);
    OneInTail(s.rx);
  }

  lemma OneInTail(d: Demux.DemuxState)
    requires DemuxSafety.Registered(d) && d.phase.Dispatching?
    ensures |d.phase.todo| <= |Demux.Slots(d.subs, d.phase.packet.kind)|
  {
  }

  lemma DropsOne(s: Pipeline.State, a: Pipeline.Step, listening: bool)
    requires Sound(s) && Orderly(s, a) && Drops(s, a) && Subscribed(s.rx, listening)
    ensures !listening && InFlight(s) > 0 && InFlight(Pipeline.Apply(s, a)) == InFlight(s) - 1
    ensures Subscribed(Pipeline.Apply(s, a).rx, listening)
  {
    SoundStep(s, a);
    DoneAtMost(Pipeline.Apply(s, a));
  }

  lemma PostsOne(s: Pipeline.State, data: seq<Byte>)
    requires Sound(s) && Orderly(s, Pipeline.Tx(Mux.Post(Packet(READY, data))))
    ensures var s' := Pipeline.Apply(s, Pipeline.Tx(Mux.Post(Packet(READY, data))));
            InFlight(s') == InFlight(s) + 1 && s'.rx == s.rx
  {
    DoneAtMost(s);
    OfTypeAppend(s.tx.posted, Packet(READY, data), READY);
  }

  lemma SubscribesOne(s: Pipeline.State, u: Demux.Subscriber)
    requires Demux.Enabled(s.rx, Demux.Subscribe(u)) && u.kind == READY && Subscribed(s.rx, false)
    ensures var s' := Pipeline.Apply(s, Pipeline.Rx(Demux.Subscribe(u)));
            Subscribed(s'.rx, true) && InFlight(s') == InFlight(s)
  {
  }

  lemma UnsubscribesOne(s: Pipeline.State, u: Demux.Subscriber)
    requires Sound(s) && Demux.Enabled(s.rx, Demux.Unsubscribe(u)) && u.kind == READY && Subscribed(s.rx, true)
    ensures var s' := Pipeline.Apply(s, Pipeline.Rx(Demux.Unsubscribe(u)));
            Subscribed(s'.rx, false) && InFlight(s') == InFlight(s)
  {
    RegisteredInQueue(s, u);
    WithoutOnly(Demux.Slots(s.rx.subs, READY), u);
  }

  lemma RegisteredInQueue(s: Pipeline.State, u: Demux.Subscriber)
    requires Sound(s) && Demux.Enabled(s.rx, Demux.Unsubscribe(u))
    ensures u in Demux.Slots(s.rx.subs, u.kind)
  {
    SoundConnected(s);
  }

  lemma WithoutOnly(q: seq<Demux.Subscriber>, u: Demux.Subscriber)
    requires |q| == 1 && u in q
    ensures Demux.Without(q, u) == []
  {
    assert q == [] + [u];
    assert q[..0] == [];
  }

  // ---------------------------------------------------------------------------------------------
  // Both directions and the two functions

  datatype World = World(
    up: Pipeline.State,     // client to server
    down: Pipeline.State,   // server to client
    server: Sync.ServerPc,
    client: Sync.ClientPc,
    clientReady: bool,
    serverReady: bool,
    dropped: nat)           // history: ready messages that reached the server without a subscription

  datatype Step =
    | Up(a: Pipeline.Step)
    | Down(a: Pipeline.Step)
    | ServerSubscribe(s: Demux.Subscriber) | ServerLook | ServerPost(data: seq<Byte>) | ServerUnsubscribe(s: Demux.Subscriber)
    | ClientSubscribe(s: Demux.Subscriber) | ClientLook | ClientPost(data: seq<Byte>) | ClientUnsubscribe(s: Demux.Subscriber)

  function Init(): World
  {
    World(Start(), Start(), Sync.ServerStart, Sync.ClientStart, false, false, 0)
  }

  predicate CanSubscribe(s: Pipeline.State, u: Demux.Subscriber)
  {
    u.kind == READY && Demux.Enabled(s.rx, Demux.Subscribe(u))
  }

  predicate CanUnsubscribe(s: Pipeline.State, u: Demux.Subscriber)
  {
    u.kind == READY && Demux.Enabled(s.rx, Demux.Unsubscribe(u))
  }

  function Ready(data: seq<Byte>): Pipeline.Step
  {
    Pipeline.Tx(Mux.Post(Packet(READY, data)))
  }

  predicate Enabled(w: World, a: Step)
  {
    match a
    case Up(b) => Orderly(w.up, b) && Foreign(b)
    case Down(b) => Orderly(w.down, b) && Foreign(b)
    case ServerSubscribe(u) => w.server.ServerStart? && CanSubscribe(w.up, u)
    case ServerLook => w.server.ServerTest?
    case ServerPost(data) => w.server.ServerSend? && Orderly(w.down, Ready(data))
    case ServerUnsubscribe(u) => w.server.ServerLeave? && CanUnsubscribe(w.up, u)
    case ClientSubscribe(u) => w.client.ClientStart? && CanSubscribe(w.down, u)
    case ClientLook => w.client.ClientTest?
    case ClientPost(data) => w.client.ClientAck? && Orderly(w.up, Ready(data))
    case ClientUnsubscribe(u) => w.client.ClientLeave? && CanUnsubscribe(w.down, u)
  }

  // The callbacks only set the flags.
  function Apply(w: World, a: Step): World
    requires Enabled(w, a)
  {
    match a
    case Up(b) =>
      w.(up := Pipeline.Apply(w.up, b),
         clientReady := w.clientReady || Delivers(w.up, b),
         dropped := if Drops(w.up, b) then w.dropped + 1 else w.dropped)
    case Down(b) => w.(down := Pipeline.Apply(w.down, b), serverReady := w.serverReady || Delivers(w.down, b))
    case ServerSubscribe(u) => w.(up := Pipeline.Apply(w.up, Pipeline.Rx(Demux.Subscribe(u))), server := Sync.ServerTest)
    case ServerLook => w.(server := if w.clientReady then Sync.ServerLeave else Sync.ServerSend)
    case ServerPost(data) => w.(down := Pipeline.Apply(w.down, Ready(data)), server := Sync.ServerTest)
    case ServerUnsubscribe(u) => w.(up := Pipeline.Apply(w.up, Pipeline.Rx(Demux.Unsubscribe(u))), server := Sync.ServerDone)
    case ClientSubscribe(u) => w.(down := Pipeline.Apply(w.down, Pipeline.Rx(Demux.Subscribe(u))), client := Sync.ClientTest)
    case ClientLook => w.(client := if w.serverReady then Sync.ClientAck else Sync.ClientTest)
    case ClientPost(data) => w.(up := Pipeline.Apply(w.up, Ready(data)), client := Sync.ClientLeave)
    case ClientUnsubscribe(u) => w.(down := Pipeline.Apply(w.down, Pipeline.Rx(Demux.Unsubscribe(u))), client := Sync.ClientDone)
  }

  predicate Legal(steps: seq<Step>)
    decreases |steps|, 0
  {
    steps == [] ||
    (Legal(steps[..|steps| - 1]) && Enabled(Run(steps[..|steps| - 1]), steps[|steps| - 1]))
  }

  function Run(steps: seq<Step>): World
    requires Legal(steps)
    decreases |steps|, 1
  {
    if steps == [] then Init() else Apply(Run(steps[..|steps| - 1]), steps[|steps| - 1])
  }

  // ---------------------------------------------------------------------------------------------
  // Refinement

  /** The state of the handshake over two counters. */
  function Abstract(w: World): Sync.State
  {
    Sync.State(w.server, w.client, w.clientReady, w.serverReady, InFlight(w.down), InFlight(w.up), w.dropped)
  }

  ghost predicate Inv(w: World)
  {
    && Sound(w.up) && Sound(w.down)
    && Subscribed(w.up.rx, Sync.ServerListens(Abstract(w)))
    && Subscribed(w.down.rx, Sync.ClientListens(Abstract(w)))
  }

  lemma InitInv()
    ensures Inv(Init()) && Abstract(Init()) == Sync.Init(0, 0)
  {
  }

  /** What a step of the whole is in terms of the handshake: one of its steps, or nothing. */
  ghost predicate Mirrors(w: World, a: Step, b: Option<Sync.Step>)
    requires Enabled(w, a)
  {
    match b
    case Some(c) => Sync.Enabled(Abstract(w), c) && Abstract(Apply(w, a)) == Sync.Apply(Abstract(w), c)
    case None => Abstract(Apply(w, a)) == Abstract(w)
  }

  lemma UpMirrors(w: World, a: Pipeline.Step) returns (b: Option<Sync.Step>)
    requires Inv(w) && Enabled(w, Up(a))
    ensures Mirrors(w, Up(a), b) && Inv(Apply(w, Up(a)))
  {
    var listening := Sync.ServerListens(Abstract(w));
    SoundStep(w.up, a);
    if Delivers(w.up, a) {
      DeliversOne(w.up, a, listening);
      b := Some(Sync.ServerReceive);
    } else if Drops(w.up, a) {
      DropsOne(w.up, a, listening);
      b := Some(Sync.ServerReceive);
    } else {
      ForeignStep(w.up, a);
      b := None;
    }
  }

  lemma DownMirrors(w: World, a: Pipeline.Step) returns (b: Option<Sync.Step>)
    requires Inv(w) && Enabled(w, Down(a))
    ensures Mirrors(w, Down(a), b) && Inv(Apply(w, Down(a)))
  {
    var listening := Sync.ClientListens(Abstract(w));
    SoundStep(w.down, a);
    if Delivers(w.down, a) {
      DeliversOne(w.down, a, listening);
      b := Some(Sync.ClientReceive);
    } else if Drops(w.down, a) {
      DropsOne(w.down, a, listening);
      b := Some(Sync.ClientReceive);
    } else {
      ForeignStep(w.down, a);
      b := None;
    }
  }

  lemma ServerMirrors(w: World, a: Step) returns (b: Option<Sync.Step>)
    requires Inv(w) && Enabled(w, a)
    requires a.ServerSubscribe? || a.ServerLook? || a.ServerPost? || a.ServerUnsubscribe?
    ensures Mirrors(w, a, b) && Inv(Apply(w, a))
  {
    match a
    case ServerSubscribe(u) =>
      SoundStep(w.up, Pipeline.Rx(Demux.Subscribe(u)));
      SubscribesOne(w.up, u);
      b := Some(Sync.ServerSubscribe);
    case ServerLook => b := Some(Sync.ServerLook);
    case ServerPost(data) =>
      SoundStep(w.down, Ready(data));
      PostsOne(w.down, data);
      b := Some(Sync.ServerPost);
    case ServerUnsubscribe(u) =>
      SoundStep(w.up, Pipeline.Rx(Demux.Unsubscribe(u)));
      UnsubscribesOne(w.up, u);
      b := Some(Sync.ServerUnsubscribe);
  }

  lemma ClientMirrors(w: World, a: Step) returns (b: Option<Sync.Step>)
    requires Inv(w) && Enabled(w, a)
    requires a.ClientSubscribe? || a.ClientLook? || a.ClientPost? || a.ClientUnsubscribe?
    ensures Mirrors(w, a, b) && Inv(Apply(w, a))
  {
    match a
    case ClientSubscribe(u) =>
      SoundStep(w.down, Pipeline.Rx(Demux.Subscribe(u)));
      SubscribesOne(w.down, u);
      b := Some(Sync.ClientSubscribe);
    case ClientLook => b := Some(Sync.ClientLook);
    case ClientPost(data) =>
      SoundStep(w.up, Ready(data));
      PostsOne(w.up, data);
      b := Some(Sync.ClientPost);
    case ClientUnsubscribe(u) =>
      SoundStep(w.down, Pipeline.Rx(Demux.Unsubscribe(u)));
      UnsubscribesOne(w.down, u);
      b := Some(Sync.ClientUnsubscribe);
  }

  lemma StepMirrors(w: World, a: Step) returns (b: Option<Sync.Step>)
    requires Inv(w) && Enabled(w, a)
    ensures Mirrors(w, a, b) && Inv(Apply(w, a))
  {
    match a
    case Up(p) => b := UpMirrors(w, p);
    case Down(p) => b := DownMirrors(w, p);
    case ServerSubscribe(_) => b := ServerMirrors(w, a);
    case ServerLook => b := ServerMirrors(w, a);
    case ServerPost(_) => b := ServerMirrors(w, a);
    case ServerUnsubscribe(_) => b := ServerMirrors(w, a);
    case _ => b := ClientMirrors(w, a);
  }

  lemma SyncAppend(ss: seq<Sync.Step>, b: Sync.Step)
    requires Sync.Legal(Sync.Init(0, 0), ss) && Sync.Enabled(Sync.Run(Sync.Init(0, 0), ss), b)
    ensures Sync.Legal(Sync.Init(0, 0), ss + [b])
    ensures Sync.Run(Sync.Init(0, 0), ss + [b]) == Sync.Apply(Sync.Run(Sync.Init(0, 0), ss), b)
  {
    Sync.RunConcat(Sync.Init(0, 0), ss, [b]);
  }

  /**
   * Every run of the two functions over their muxers and demuxers, with heart beats, other packets,
   * fragmentation, failures and destructors, is a run of the handshake over two plain counters.
   */
  lemma {:induction false} Refinement(steps: seq<Step>) returns (ss: seq<Sync.Step>)
    requires Legal(steps)
    ensures Inv(Run(steps))
    ensures Sync.Legal(Sync.Init(0, 0), ss) && Sync.Run(Sync.Init(0, 0), ss) == Abstract(Run(steps))
  {
    if steps == [] {
      InitInv();
      ss := [];
    } else {
      var front, a := steps[..|steps| - 1], steps[|steps| - 1];
      ss := Refinement(front);
      var b := StepMirrors(Run(front), a);
      if b.Some? {
        SyncAppend(ss, b.value);
        ss := ss + [b.value];
      }
    }
  }

  /**
   * So the acknowledgement, which is sent once, is never dropped: as long as it is anywhere between
   * the client's muxer and the server's callback, the server's subscription is registered.
   */
  lemma AckNotLost(steps: seq<Step>)
    requires Legal(steps)
    ensures var w := Run(steps);
            && w.dropped == 0 && InFlight(w.up) <= 1
            && (InFlight(w.up) > 0 ==> Demux.Slots(w.up.rx.subs, READY) != [])
  {
    var ss := Refinement(steps);
    Sync.AckNotLost(ss);
  }

  /** And a server that has left its loop has been answered by a client that saw it ready. */
  lemma Causality(steps: seq<Step>)
    requires Legal(steps)
    ensures var w := Run(steps);
            w.server.ServerLeave? || w.server.ServerDone? ==>
              w.serverReady && (w.client.ClientLeave? || w.client.ClientDone?) && OfType(w.up.tx.posted, READY) != []
  {
    var ss := Refinement(steps);
    Sync.Causality(ss);
    AnswerPosted(steps);
  }

  lemma {:induction false} AnswerPosted(steps: seq<Step>)
    requires Legal(steps)
    ensures Run(steps).client.ClientLeave? || Run(steps).client.ClientDone? ==> Posted(Run(steps).up) > 0
  {
    if steps != [] {
      var front, a := steps[..|steps| - 1], steps[|steps| - 1];
      AnswerPosted(front);
      PostedStays(Run(front), a);
    }
  }

  lemma PostedStays(w: World, a: Step)
    requires Enabled(w, a)
    ensures Posted(Apply(w, a).up) >= Posted(w.up) + (if a.ClientPost? then 1 else 0)
  {
    match a
    case Up(Tx(m)) => ForeignPosts(w.up.tx, m);
    case ClientPost(data) => OfTypeAppend(w.up.tx.posted, Packet(READY, data), READY);
    case _ =>
  }
}
