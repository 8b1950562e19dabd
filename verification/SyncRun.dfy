// A run of the handshake over the real channels in which both functions return.

module SyncRun {
  import opened Packets
  import opened Codec
  import Mux = MuxProtocol
  import MuxSafety
  import MuxRuns
  import Demux = DemuxProtocol
  import DemuxRuns
  import Pipeline
  import Gate
  import Sync
  import opened SyncOverComms

  const MESSAGE: Packet := Packet(READY, [1])
  const LISTENER: Demux.Subscriber := Demux.Subscriber(0, READY)

  // Both directions alike.
  function Channel(w: World, toServer: bool): Pipeline.State
  {
    if toServer then w.up else w.down
  }

  function With(w: World, toServer: bool, s: Pipeline.State): World
  {
    if toServer then w.(up := s) else w.(down := s)
  }

  function On(toServer: bool, b: Pipeline.Step): Step
  {
    if toServer then Up(b) else Down(b)
  }

  lemma Append(steps: seq<Step>, a: Step)
    requires Legal(steps) && Enabled(Run(steps), a)
    ensures Legal(steps + [a]) && Run(steps + [a]) == Apply(Run(steps), a)
  {
    assert (steps + [a])[..|steps|] == steps;
  }

  lemma Quiet(steps: seq<Step>, toServer: bool, b: Pipeline.Step) returns (steps': seq<Step>)
    requires Legal(steps)
    requires var s := Channel(Run(steps), toServer); Orderly(s, b) && Foreign(b) && !Delivers(s, b) && !Drops(s, b)
    ensures Legal(steps')
    ensures Run(steps') == With(Run(steps), toServer, Pipeline.Apply(Channel(Run(steps), toServer), b))
  {
    Append(steps, On(toServer, b));
    steps' := steps + [On(toServer, b)];
  }

  lemma StickyLast(pre: seq<Mux.Step>, a: seq<Mux.Step>)
    requires Mux.Legal(pre + a) && a != [] && Mux.Sticky(pre + a)
    ensures var front := a[..|a| - 1];
            && Mux.Legal(pre + front) && Mux.Sticky(pre + front) && Mux.Enabled(Mux.Run(pre + front), a[|a| - 1])
            && Mux.Gentle(Mux.Run(pre + front), a[|a| - 1])
            && Mux.Run(pre + a) == Mux.Apply(Mux.Run(pre + front), a[|a| - 1])
  {
    assert (pre + a)[..|pre + a| - 1] == pre + a[..|a| - 1];
  }

  /** What a sender can do by itself it can do here. */
  lemma {:induction false} Sends(steps: seq<Step>, toServer: bool, pre: seq<Mux.Step>, a: seq<Mux.Step>) returns (steps': seq<Step>)
    requires Legal(steps) && Mux.Legal(pre) && Channel(Run(steps), toServer).tx == Mux.Run(pre)
    requires Mux.Legal(pre + a) && Mux.Sticky(pre + a) && MuxRuns.NoPost(a)
    ensures Legal(steps')
    ensures Run(steps') == With(Run(steps), toServer, Channel(Run(steps), toServer).(tx := Mux.Run(pre + a)))
    decreases |a|
  {
    if a == [] {
      assert pre + a == pre;
      steps' := steps;
    } else {
      var front, m := a[..|a| - 1], a[|a| - 1];
      StickyLast(pre, a);
      steps' := Sends(steps, toServer, pre, front);
      steps' := Quiet(steps', toServer, Pipeline.Tx(m));
    }
  }

  lemma SilentLast(pre: seq<Demux.Step>, b: seq<Demux.Step>)
    requires Demux.Legal(pre + b) && b != [] && DemuxRuns.Silent(b)
    ensures var front, d := b[..|b| - 1], b[|b| - 1];
            && Demux.Legal(pre + front) && DemuxRuns.Silent(front) && Demux.Enabled(Demux.Run(pre + front), d)
            && Demux.Run(pre + b) == Demux.Apply(Demux.Run(pre + front), d)
            && Foreign(Pipeline.Rx(d)) && !d.Lock? && !d.Call?
            && Demux.Run(pre + front).consumed <= Demux.Run(pre + b).consumed
            && (d.Take? ==> Demux.Run(pre + front).consumed + d.bytes <= Demux.Run(pre + b).consumed)
  {
    Demux.LastOf(pre, b);
    Gate.ReadsOn(Demux.Run(pre + b[..|b| - 1]), b[|b| - 1]);
  }

  lemma {:induction false} Reads(steps: seq<Step>, toServer: bool, pre: seq<Demux.Step>, b: seq<Demux.Step>) returns (steps': seq<Step>)
    requires Legal(steps) && Demux.Legal(pre) && Channel(Run(steps), toServer).rx == Demux.Run(pre)
    requires Demux.Legal(pre + b) && DemuxRuns.Silent(b)
    requires Demux.Run(pre + b).consumed <= Channel(Run(steps), toServer).tx.wire
    ensures Legal(steps')
    ensures Run(steps') == With(Run(steps), toServer, Channel(Run(steps), toServer).(rx := Demux.Run(pre + b)))
    decreases |b|
  {
    if b == [] {
      assert pre + b == pre;
      steps' := steps;
    } else {
      SilentLast(pre, b);
      steps' := Reads(steps, toServer, pre, b[..|b| - 1]);
      steps' := Quiet(steps', toServer, Pipeline.Rx(b[|b| - 1]));
    }
  }

  /** The flag that a delivery sets. */
  function Told(w: World, toServer: bool): World
  {
    if toServer then w.(clientReady := true) else w.(serverReady := true)
  }

  lemma Deliver(steps: seq<Step>, toServer: bool) returns (steps': seq<Step>)
    requires Legal(steps)
    requires var s := Channel(Run(steps), toServer); Demux.Enabled(s.rx, Demux.Call) && Delivers(s, Pipeline.Rx(Demux.Call))
    ensures Legal(steps')
    ensures var s := Channel(Run(steps), toServer);
            Run(steps') == Told(With(Run(steps), toServer, s.(rx := Demux.Apply(s.rx, Demux.Call))), toServer)
  {
    Append(steps, On(toServer, Pipeline.Rx(Demux.Call)));
    steps' := steps + [On(toServer, Pipeline.Rx(Demux.Call))];
  }

  /** Holding a message for the one listener. */
  predicate ForListener(d: Demux.DemuxState)
  {
    && d.phase == Demux.Holding(MESSAGE) && Demux.Slots(d.subs, READY) == [LISTENER]
    && LISTENER in d.known && d.known[LISTENER].live
  }

  lemma DispatchStates(d: Demux.DemuxState) returns (d1: Demux.DemuxState, d2: Demux.DemuxState, d3: Demux.DemuxState)
    requires ForListener(d)
    ensures Demux.Enabled(d, Demux.Lock) && d1 == Demux.Apply(d, Demux.Lock)
    ensures d1.phase == Demux.Dispatching(MESSAGE, [LISTENER])
    ensures Demux.Enabled(d1, Demux.Call) && d2 == Demux.Apply(d1, Demux.Call)
    ensures d2.phase == Demux.Dispatching(MESSAGE, [])
    ensures Demux.Enabled(d2, Demux.Unlock) && d3 == Demux.Apply(d2, Demux.Unlock)
    ensures Demux.Enabled(d3, Demux.Unsubscribe(LISTENER))
  {
    d1 := Demux.Apply(d, Demux.Lock);
    d2 := Demux.Apply(d1, Demux.Call);
    d3 := Demux.Apply(d2, Demux.Unlock);
  }

  /** A message held for dispatch reaches the one subscriber. */
  lemma Dispatches(steps: seq<Step>, toServer: bool) returns (steps': seq<Step>, s: Pipeline.State)
    requires Legal(steps) && ForListener(Channel(Run(steps), toServer).rx)
    ensures Legal(steps') && Run(steps') == Told(With(Run(steps), toServer, s), toServer)
    ensures CanUnsubscribe(s, LISTENER)
  {
    var tx := Channel(Run(steps), toServer).tx;
    var d1, d2, d3 := DispatchStates(Channel(Run(steps), toServer).rx);
    steps' := Quiet(steps, toServer, Pipeline.Rx(Demux.Lock));
    steps' := Deliver(steps', toServer);
    steps' := Quiet(steps', toServer, Pipeline.Rx(Demux.Unlock));
    s := Pipeline.State(tx, d3);
  }

  /** A ready message posted before anything else is sent, received and delivered. */
  lemma Carries(steps: seq<Step>, toServer: bool) returns (steps': seq<Step>, s: Pipeline.State)
    requires Legal(steps) && Mux.Legal([Mux.Post(MESSAGE)]) && Demux.Legal([Demux.Subscribe(LISTENER)])
    requires Channel(Run(steps), toServer) ==
               Pipeline.State(Mux.Run([Mux.Post(MESSAGE)]), Demux.Run([Demux.Subscribe(LISTENER)]))
    ensures Legal(steps') && Run(steps') == Told(With(Run(steps), toServer, s), toServer)
    ensures CanUnsubscribe(s, LISTENER)
  {
    var a := MuxRuns.BothSent(MESSAGE);
    var b := DemuxRuns.BothReceived(LISTENER, MESSAGE);
    MuxSafety.UnfailedSticky([Mux.Post(MESSAGE)] + a);
    steps' := Sends(steps, toServer, [Mux.Post(MESSAGE)], a);
    steps' := Reads(steps', toServer, [Demux.Subscribe(LISTENER)], b);
    steps', s := Dispatches(steps', toServer);
  }

  lemma Beginnings()
    ensures Mux.Legal([Mux.Post(MESSAGE)])
    ensures Mux.Run([Mux.Post(MESSAGE)]) == Mux.Apply(Mux.Init(), Mux.Post(MESSAGE))
    ensures Demux.Legal([Demux.Subscribe(LISTENER)])
    ensures Demux.Run([Demux.Subscribe(LISTENER)]) == Demux.Apply(Demux.Init(), Demux.Subscribe(LISTENER))
  {
    Mux.RunAppend([], Mux.Post(MESSAGE));
    Demux.RunAppend([], Demux.Subscribe(LISTENER));
    assert [] + [Mux.Post(MESSAGE)] == [Mux.Post(MESSAGE)];
    assert [] + [Demux.Subscribe(LISTENER)] == [Demux.Subscribe(LISTENER)];
  }

  lemma BothListen() returns (steps: seq<Step>)
    ensures Legal(steps)
    ensures var listening := Start().(rx := Demux.Apply(Demux.Init(), Demux.Subscribe(LISTENER)));
            Run(steps) == World(listening, listening, Sync.ServerTest, Sync.ClientTest, false, false, 0)
  {
    Append([], ServerSubscribe(LISTENER));
    steps := [] + [ServerSubscribe(LISTENER)];
    Append(steps, ClientSubscribe(LISTENER));
    steps := steps + [ClientSubscribe(LISTENER)];
  }

  lemma Subscribable()
    ensures Demux.Enabled(Demux.Init(), Demux.Subscribe(LISTENER))
  {
  }

  /** The server sends its first ready message. */
  lemma ServerSends(steps: seq<Step>) returns (steps': seq<Step>)
    requires Legal(steps) && Run(steps).server.ServerTest? && !Run(steps).clientReady && Run(steps).down.tx == Mux.Init()
    ensures Legal(steps')
    ensures Run(steps') == Run(steps).(down := Run(steps).down.(tx := Mux.Apply(Mux.Init(), Mux.Post(MESSAGE))))
  {
    Append(steps, ServerLook);
    steps' := steps + [ServerLook];
    Append(steps', ServerPost(MESSAGE.data));
    steps' := steps' + [ServerPost(MESSAGE.data)];
  }

  lemma ClientAnswers(steps: seq<Step>) returns (steps': seq<Step>)
    requires Legal(steps) && Run(steps).client.ClientTest? && Run(steps).serverReady && Run(steps).up.tx == Mux.Init()
    ensures Legal(steps')
    ensures Run(steps') ==
              Run(steps).(client := Sync.ClientLeave, up := Run(steps).up.(tx := Mux.Apply(Mux.Init(), Mux.Post(MESSAGE))))
  {
    Append(steps, ClientLook);
    steps' := steps + [ClientLook];
    Append(steps', ClientPost(MESSAGE.data));
    steps' := steps' + [ClientPost(MESSAGE.data)];
  }

  lemma BothLeave(steps: seq<Step>) returns (steps': seq<Step>)
    requires Legal(steps) && Run(steps).server.ServerTest? && Run(steps).clientReady && Run(steps).client.ClientLeave?
    requires CanUnsubscribe(Run(steps).up, LISTENER) && CanUnsubscribe(Run(steps).down, LISTENER)
    ensures Legal(steps') && Run(steps').server.ServerDone? && Run(steps').client.ClientDone?
  {
    Append(steps, ServerLook);
    steps' := steps + [ServerLook];
    Append(steps', ServerUnsubscribe(LISTENER));
    steps' := steps' + [ServerUnsubscribe(LISTENER)];
    Append(steps', ClientUnsubscribe(LISTENER));
    steps' := steps' + [ClientUnsubscribe(LISTENER)];
  }

  /** Both functions can return over muxers and demuxers. */
  lemma BothReturn() returns (steps: seq<Step>)
    ensures Legal(steps) && Run(steps).server.ServerDone? && Run(steps).client.ClientDone?
  {
    Beginnings();
    steps := BothListen();
    steps := ServerSends(steps);
    var down, up;
    steps, down := Carries(steps, false);
    steps := ClientAnswers(steps);
    steps, up := Carries(steps, true);
    steps := BothLeave(steps);
  }
}
