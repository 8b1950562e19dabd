// The two-party handshake of src/Sync.cpp as a state machine: syncWithClient on one side,
// syncWithServer on the other, over two reliable first-in-first-out channels that both carry only the
// ready message. A message that arrives while nobody is subscribed is dropped.

module Sync {
  /** syncWithClient: subscribe; while the flag is clear, send and sleep; unsubscribe. */
  datatype ServerPc = ServerStart | ServerTest | ServerSend | ServerLeave | ServerDone

  /** syncWithServer: subscribe; sleep while the flag is clear; send once; unsubscribe. */
  datatype ClientPc = ClientStart | ClientTest | ClientAck | ClientLeave | ClientDone

  datatype State = State(
    server: ServerPc,
    client: ClientPc,
    clientReady: bool,   // the server's flag
    serverReady: bool,   // the client's flag
    toClient: nat,       // ready messages in flight
    toServer: nat,
    dropped: nat)        // history: messages that reached a server without a subscription

  datatype Step =
    | ServerSubscribe | ServerLook | ServerPost | ServerUnsubscribe | ServerReceive
    | ClientSubscribe | ClientLook | ClientPost | ClientUnsubscribe | ClientReceive

  predicate ServerListens(s: State)
  {
    s.server.ServerTest? || s.server.ServerSend? || s.server.ServerLeave?
  }

  predicate ClientListens(s: State)
  {
    s.client.ClientTest? || s.client.ClientAck? || s.client.ClientLeave?
  }

  /** Some ready messages may still be under way from before. */
  function Init(staleToClient: nat, staleToServer: nat): State
  {
    State(ServerStart, ClientStart, false, false, staleToClient, staleToServer, 0)
  }

  predicate Enabled(s: State, a: Step)
  {
    match a
    case ServerSubscribe => s.server.ServerStart?
    case ServerLook => s.server.ServerTest?
    case ServerPost => s.server.ServerSend?
    case ServerUnsubscribe => s.server.ServerLeave?
    case ServerReceive => s.toServer > 0
    case ClientSubscribe => s.client.ClientStart?
    case ClientLook => s.client.ClientTest?
    case ClientPost => s.client.ClientAck?
    case ClientUnsubscribe => s.client.ClientLeave?
    case ClientReceive => s.toClient > 0
  }

  function Apply(s: State, a: Step): State
    requires Enabled(s, a)
  {
    match a
    case ServerSubscribe => s.(server := ServerTest)
    case ServerLook => s.(server := if s.clientReady then ServerLeave else ServerSend)
    case ServerPost => s.(server := ServerTest, toClient := s.toClient + 1)
    case ServerUnsubscribe => s.(server := ServerDone)
    case ServerReceive =>
      if ServerListens(s) then s.(toServer := s.toServer - 1, clientReady := true)
      else s.(toServer := s.toServer - 1, dropped := s.dropped + 1)
    case ClientSubscribe => s.(client := ClientTest)
    case ClientLook => s.(client := if s.serverReady then ClientAck else ClientTest)
    case ClientPost => s.(client := ClientLeave, toServer := s.toServer + 1)
    case ClientUnsubscribe => s.(client := ClientDone)
    case ClientReceive =>
      if ClientListens(s) then s.(toClient := s.toClient - 1, serverReady := true)
      else s.(toClient := s.toClient - 1)
  }

  predicate Legal(s: State, steps: seq<Step>)
    decreases |steps|
  {
    steps == [] || (Enabled(s, steps[0]) && Legal(Apply(s, steps[0]), steps[1..]))
  }

  function Run(s: State, steps: seq<Step>): State
    requires Legal(s, steps)
    decreases |steps|
  {
    if steps == [] then s else Run(Apply(s, steps[0]), steps[1..])
  }

  predicate Finished(s: State)
  {
    s.server.ServerDone? && s.client.ClientDone?
  }

  ghost predicate CanFinish(s: State)
  {
    exists more :: Legal(s, more) && Finished(Run(s, more))
  }

  lemma Cons(s: State, a: Step, rest: seq<Step>)
    requires Enabled(s, a) && Legal(Apply(s, a), rest)
    ensures Legal(s, [a] + rest) && Run(s, [a] + rest) == Run(Apply(s, a), rest)
  {
  }

  lemma {:induction false} RunConcat(s: State, a: seq<Step>, b: seq<Step>)
    requires Legal(s, a) && Legal(Run(s, a), b)
    ensures Legal(s, a + b) && Run(s, a + b) == Run(Run(s, a), b)
    decreases |a|
  {
    if a == [] {
      assert a + b == b;
    } else {
      assert (a + b)[1..] == a[1..] + b;
      RunConcat(Apply(s, a[0]), a[1..], b);
    }
  }

  // ---------------------------------------------------------------------------------------------
  // Without stale messages

  ghost predicate ClientAnswered(s: State)
  {
    s.client.ClientLeave? || s.client.ClientDone?
  }

  ghost predicate Inv(s: State)
  {
    && (s.server.ServerStart? ==> s.toClient == 0 && !s.serverReady)
    && (!s.serverReady ==> s.client.ClientStart? || s.client.ClientTest?)
    && (!ClientAnswered(s) ==> s.toServer == 0 && !s.clientReady)
    && (ClientAnswered(s) ==> s.toServer + (if s.clientReady then 1 else 0) == 1)
    && (s.clientReady <== s.server.ServerLeave? || s.server.ServerDone?)
    && s.dropped == 0
  }

  lemma {:induction false} RunKeeps(s: State, steps: seq<Step>)
    requires Inv(s) && Legal(s, steps)
    ensures Inv(Run(s, steps))
    decreases |steps|
  {
    if steps != [] {
      RunKeeps(Apply(s, steps[0]), steps[1..]);
    }
  }

  /** The single acknowledgement is never dropped: while it is in flight the server is listening. */
  lemma AckNotLost(steps: seq<Step>)
    requires Legal(Init(0, 0), steps)
    ensures var s := Run(Init(0, 0), steps);
            && s.dropped == 0 && s.toServer <= 1
            && (s.toServer > 0 ==> s.server.ServerTest? || s.server.ServerSend?)
  {
    RunKeeps(Init(0, 0), steps);
  }

  /**
   * If syncWithClient has left its loop, the client has seen a ready message of the server's and has
   * left its own loop, however many ready messages were sent, dropped or received twice.
   */
  lemma Causality(steps: seq<Step>)
    requires Legal(Init(0, 0), steps)
    ensures var s := Run(Init(0, 0), steps);
            s.server.ServerLeave? || s.server.ServerDone? ==> s.serverReady && ClientAnswered(s)
  {
    RunKeeps(Init(0, 0), steps);
  }

  /** From any state the invariant allows, both sides can still return. */
  lemma {:induction false} Finish(s: State) returns (more: seq<Step>)
    requires Inv(s)
    ensures Legal(s, more) && Finished(Run(s, more))
    decreases ClientRank(s.client), !s.serverReady, s.toClient == 0, s.toServer, ServerRank(s)
  {
    if Finished(s) {
      more := [];
    } else {
      var a := NextStep(s);
      RunKeeps(s, [a]);
      var rest := Finish(Apply(s, a));
      more := [a] + rest;
    }
  }

  function ClientRank(c: ClientPc): nat
  {
    match c
    case ClientStart => 4
    case ClientTest => 3
    case ClientAck => 2
    case ClientLeave => 1
    case ClientDone => 0
  }

  function ServerRank(s: State): nat
  {
    match s.server
    case ServerStart => 4
    case ServerTest => 2
    case ServerSend => if s.clientReady then 3 else 1
    case ServerLeave => 1
    case ServerDone => 0
  }

  /** A step that brings the two sides nearer to the end. */
  function NextStep(s: State): Step
  {
    if s.client.ClientStart? then ClientSubscribe
    else if s.server.ServerStart? then ServerSubscribe
    else if s.client.ClientTest? then
      if s.serverReady then ClientLook
      else if s.toClient > 0 then ClientReceive
      else if s.server.ServerTest? then ServerLook else ServerPost
    else if s.client.ClientAck? then ClientPost
    else if s.client.ClientLeave? then ClientUnsubscribe
    else if s.toServer > 0 then ServerReceive
    else if s.server.ServerSend? then ServerPost
    else if s.server.ServerTest? then ServerLook
    else ServerUnsubscribe
  }

  // ---------------------------------------------------------------------------------------------
  // With stale messages

  /** A server that will wait for ever: the client has answered already and its answer is gone. */
  ghost predicate ServerStuck(s: State)
  {
    ClientAnswered(s) && s.toServer == 0 && !s.clientReady && !s.server.ServerLeave? && !s.server.ServerDone?
  }

  /** A client that will wait for ever: the server has left and no ready message is under way. */
  ghost predicate ClientStuck(s: State)
  {
    && (s.server.ServerLeave? || s.server.ServerDone?)
    && s.toClient == 0 && !s.serverReady && (s.client.ClientStart? || s.client.ClientTest?)
  }

  lemma {:induction false} StuckForEver(s: State, steps: seq<Step>)
    requires (ServerStuck(s) || ClientStuck(s)) && Legal(s, steps)
    ensures !Finished(Run(s, steps))
    decreases |steps|
  {
    if steps != [] {
      StuckForEver(Apply(s, steps[0]), steps[1..]);
    }
  }

  /** Messages that reach a server before it subscribes are dropped. */
  lemma {:induction false} Drain(s: State) returns (steps: seq<Step>)
    requires s.server.ServerStart?
    ensures Legal(s, steps) && Run(s, steps) == s.(toServer := 0, dropped := s.dropped + s.toServer)
    decreases s.toServer
  {
    if s.toServer == 0 {
      steps := [];
    } else {
      var rest := Drain(Apply(s, ServerReceive));
      steps := [ServerReceive] + rest;
    }
  }

  /** One stale ready message is enough: the client answers it before the server listens. */
  lemma StaleReadyHangs(k: nat, j: nat) returns (steps: seq<Step>)
    requires k > 0
    ensures Legal(Init(k, j), steps) && ServerStuck(Run(Init(k, j), steps))
  {
    var s := Init(k, j);
    var s1 := Apply(s, ClientSubscribe);
    var s2 := Apply(s1, ClientReceive);
    var s3 := Apply(s2, ClientLook);
    var drain := Drain(Apply(s3, ClientPost));
    Cons(s3, ClientPost, drain);
    Cons(s2, ClientLook, [ClientPost] + drain);
    Cons(s1, ClientReceive, [ClientLook] + ([ClientPost] + drain));
    Cons(s, ClientSubscribe, [ClientReceive] + ([ClientLook] + ([ClientPost] + drain)));
    steps := [ClientSubscribe] + ([ClientReceive] + ([ClientLook] + ([ClientPost] + drain)));
  }

  /** So is one stale answer: the server leaves without ever having sent ready. */
  lemma StaleAnswerHangs(j: nat) returns (steps: seq<Step>)
    requires j > 0
    ensures Legal(Init(0, j), steps) && ClientStuck(Run(Init(0, j), steps))
  {
    var s := Init(0, j);
    var s1 := Apply(s, ServerSubscribe);
    var s2 := Apply(s1, ServerReceive);
    Cons(s2, ServerLook, []);
    Cons(s1, ServerReceive, [ServerLook] + []);
    Cons(s, ServerSubscribe, [ServerReceive] + ([ServerLook] + []));
    steps := [ServerSubscribe] + ([ServerReceive] + ([ServerLook] + []));
  }

  ghost predicate DeadlockFree(s: State)
  {
    forall steps :: Legal(s, steps) ==> CanFinish(Run(s, steps))
  }

  lemma FreshIsFree()
    ensures DeadlockFree(Init(0, 0))
  {
    var s := Init(0, 0);
    forall steps | Legal(s, steps)
      ensures CanFinish(Run(s, steps))
    {
      RunKeeps(s, steps);
      var more := Finish(Run(s, steps));
      assert Legal(Run(s, steps), more);
    }
  }

  lemma StuckCannotFinish(s: State)
    requires ServerStuck(s) || ClientStuck(s)
    ensures !CanFinish(s)
  {
    forall more | Legal(s, more)
      ensures !Finished(Run(s, more))
    {
      StuckForEver(s, more);
    }
  }

  /**
   * The handshake is free of deadlock, whatever the interleaving, exactly when no ready message from
   * before is under way in either direction.
   */
  lemma DeadlockFreeIff(k: nat, j: nat)
    ensures DeadlockFree(Init(k, j)) <==> k == 0 && j == 0
  {
    if k > 0 {
      var steps := StaleReadyHangs(k, j);
      StuckCannotFinish(Run(Init(k, j), steps));
    } else if j > 0 {
      var steps := StaleAnswerHangs(j);
      StuckCannotFinish(Run(Init(k, j), steps));
    } else {
      FreshIsFree();
    }
  }

  /** The server's loop sends as often as it pleases before an answer arrives. */
  lemma {:induction false} SendMany(s: State, n: nat) returns (steps: seq<Step>)
    requires s.server.ServerTest? && !s.clientReady
    ensures Legal(s, steps) && Run(s, steps) == s.(toClient := s.toClient + n)
    decreases n
  {
    if n == 0 {
      steps := [];
    } else {
      var looked := Apply(s, ServerLook);
      var rest := SendMany(Apply(looked, ServerPost), n - 1);
      Cons(looked, ServerPost, rest);
      Cons(s, ServerLook, [ServerPost] + rest);
      steps := [ServerLook] + ([ServerPost] + rest);
    }
  }

  /** Once a message is under way and the client has not started, eight steps end the handshake. */
  lemma QuickEnd(s: State) returns (steps: seq<Step>)
    requires s.server.ServerTest? && s.client.ClientStart? && s.toClient > 0 && s.toServer == 0
    ensures Legal(s, steps) && Finished(Run(s, steps)) && Run(s, steps).toClient == s.toClient - 1
  {
    var s1 := Apply(Apply(s, ClientSubscribe), ClientReceive);
    var s2 := Apply(Apply(s1, ClientLook), ClientPost);
    var s3 := Apply(Apply(s2, ClientUnsubscribe), ServerReceive);
    var s4 := Apply(s3, ServerLook);
    var end := [ServerUnsubscribe];
    Cons(s4, ServerUnsubscribe, []);
    Cons(s3, ServerLook, end);
    end := [ServerLook] + end;
    Cons(Apply(s2, ClientUnsubscribe), ServerReceive, end);
    end := [ServerReceive] + end;
    Cons(s2, ClientUnsubscribe, end);
    end := [ClientUnsubscribe] + end;
    Cons(Apply(s1, ClientLook), ClientPost, end);
    end := [ClientPost] + end;
    Cons(s1, ClientLook, end);
    end := [ClientLook] + end;
    Cons(Apply(s, ClientSubscribe), ClientReceive, end);
    end := [ClientReceive] + end;
    Cons(s, ClientSubscribe, end);
    steps := [ClientSubscribe] + end;
  }

  /**
   * A finished handshake can leave any number of ready messages under way, so a second one on the same
   * channels need not be free of deadlock.
   */
  lemma LeavesStale(k: nat) returns (steps: seq<Step>)
    ensures Legal(Init(0, 0), steps) && Finished(Run(Init(0, 0), steps))
    ensures Run(Init(0, 0), steps).toClient == k
  {
    var s := Init(0, 0);
    var many := SendMany(Apply(s, ServerSubscribe), k + 1);
    var sent := [ServerSubscribe] + many;
    Cons(s, ServerSubscribe, many);
    var end := QuickEnd(Run(s, sent));
    RunConcat(s, sent, end);
    steps := sent + end;
  }
}
