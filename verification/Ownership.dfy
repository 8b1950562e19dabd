// Who owns a subscriber: the handles of src/PacketSubscription.cpp in any number of threads, with the
// reference counts of their shared_ptrs, around the demuxer of DemuxProtocol. A handle's destructor looks
// at the count without a lock and then calls unsubscribe, so these are two steps; isSubscribed goes to
// the demuxer without looking at anything.

module Ownership {
  import opened Packets
  import Demux = DemuxProtocol
  import DemuxSafety
  import opened DemuxProtocol

  /** A PacketSubscription; Leaving: its destructor has seen a count above one. */
  datatype Handle = Empty | Holds(s: Subscriber) | Leaving(s: Subscriber)

  datatype State = State(
    demux: DemuxState,
    handles: map<nat, Handle>,
    counts: map<Subscriber, nat>,   // use_count
    destroyed: bool,                // the demuxer is gone
    failed: bool,                   // the assertion in unsubscribe fired
    dangling: bool)                 // a destroyed demuxer was called

  datatype Step =
    | Rx(a: Demux.Step)             // the receive thread, or the destructor's signalTransportError
    | Obtain(h: nat, s: Subscriber) // subscribe
    | MoveNew(h: nat, g: nat)       // construct h from g
    | MoveAssign(h: nat, g: nat)    // assign g to h
    | Drop(h: nat)                  // the destructor of h, up to its look at the count
    | Depart(h: nat)                // the call of unsubscribe it then makes, and the rest
    | Ask(h: nat)                   // isSubscribed; on a null handle it would dereference null
    | Release                       // the end of the demuxer's destructor, after the join

  function Init(): State
  {
    State(Demux.Init(), map[], map[], false, false, false)
  }

  function Sub(h: Handle): Option<Subscriber>
  {
    if h.Empty? then None else Some(h.s)
  }

  predicate Idle(s: State, h: nat)
  {
    h in s.handles && !s.handles[h].Leaving?
  }

  predicate Enabled(s: State, a: Step)
  {
    !s.failed && !s.dangling &&
    match a
    case Rx(d) => !s.destroyed && !d.Subscribe? && !d.Unsubscribe? && Demux.Enabled(s.demux, d)
    case Obtain(h, u) => !s.destroyed && h !in s.handles && Demux.Enabled(s.demux, Demux.Subscribe(u))
    case MoveNew(h, g) => h !in s.handles && Idle(s, g)
    case MoveAssign(h, g) => Idle(s, h) && Idle(s, g)
    case Drop(h) => Idle(s, h) && (s.handles[h].Holds? ==> s.handles[h].s in s.counts)
    case Depart(h) => h in s.handles && s.handles[h].Leaving? && Unlocked(s.demux)
    case Ask(h) => h in s.handles && s.handles[h].Holds?
    case Release => !s.destroyed && s.demux.phase.Exited?
  }

  function Decrement(n: nat): nat
  {
    if n == 0 then 0 else n - 1
  }

  predicate InQueue(d: DemuxState, u: Subscriber)
  {
    u in Slots(d.subs, u.kind)
  }

  // The element remove_if points at is erased, and then the handle goes.
  function Departed(s: State, h: nat, u: Subscriber): State
  {
    if s.destroyed then s.(dangling := true)
    else if InQueue(s.demux, u) && Demux.Enabled(s.demux, Demux.Unsubscribe(u)) && u in s.counts then
      s.(demux := Demux.Apply(s.demux, Demux.Unsubscribe(u)),
         handles := s.handles - {h},
         counts := s.counts[u := Decrement(Decrement(s.counts[u]))])
    else s.(failed := true)
  }

  function Apply(s: State, a: Step): State
    requires Enabled(s, a)
  {
    match a
    case Rx(d) => s.(demux := Demux.Apply(s.demux, d))
    case Obtain(h, u) =>
      s.(demux := Demux.Apply(s.demux, Demux.Subscribe(u)),
         handles := s.handles[h := Holds(u)],
         counts := s.counts[u := 2])
    case MoveNew(h, g) => s.(handles := s.handles[h := s.handles[g]][g := Empty])
    case MoveAssign(h, g) => s.(handles := s.handles[h := s.handles[g]][g := s.handles[h]])
    case Drop(h) =>
      if s.handles[h].Empty? then s.(handles := s.handles - {h})
      else
        var u := s.handles[h].s;
        if s.counts[u] > 1 then s.(handles := s.handles[h := Leaving(u)])
        else s.(handles := s.handles - {h}, counts := s.counts[u := Decrement(s.counts[u])])
    case Depart(h) => Departed(s, h, s.handles[h].s)
    case Ask(_) => s.(dangling := s.destroyed)
    case Release =>
      s.(destroyed := true,
         counts := map u | u in s.counts :: if InQueue(s.demux, u) then Decrement(s.counts[u]) else s.counts[u])
  }

  predicate Legal(steps: seq<Step>)
    decreases |steps|, 0
  {
    steps == [] ||
    (Legal(steps[..|steps| - 1]) && Enabled(Run(steps[..|steps| - 1]), steps[|steps| - 1]))
  }

  function Run(steps: seq<Step>): State
    requires Legal(steps)
    decreases |steps|, 1
  {
    if steps == [] then Init() else Apply(Run(steps[..|steps| - 1]), steps[|steps| - 1])
  }

  lemma RunAppend(steps: seq<Step>, a: Step)
    requires Legal(steps) && Enabled(Run(steps), a)
    ensures Legal(steps + [a]) && Run(steps + [a]) == Apply(Run(steps), a)
  {
    assert (steps + [a])[..|steps|] == steps;
  }

  // ---------------------------------------------------------------------------------------------
  // Invariants

  ghost predicate Held(s: State, u: Subscriber)
  {
    exists h :: h in s.handles && Sub(s.handles[h]) == Some(u)
  }

  predicate Queued(s: State, u: Subscriber)
  {
    !s.destroyed && u in s.demux.known && s.demux.known[u].live
  }

  /** No two handles hold the same subscriber. */
  ghost predicate Single(s: State)
  {
    forall h, g :: h in s.handles && g in s.handles && h != g && Sub(s.handles[h]).Some? ==>
      Sub(s.handles[h]) != Sub(s.handles[g])
  }

  /** The reference count is the number of owners: a handle and a queue slot at most. */
  ghost predicate Counted(s: State)
  {
    forall u :: u in s.demux.known ==>
      && u in s.counts
      && s.counts[u] == (if Held(s, u) then 1 else 0) + (if Queued(s, u) then 1 else 0)
  }

  ghost predicate Sound(s: State)
  {
    && (forall h :: h in s.handles && Sub(s.handles[h]).Some? ==> Sub(s.handles[h]).value in s.demux.known)
    && (forall h :: h in s.handles && s.handles[h].Leaving? && !s.destroyed ==> Queued(s, s.handles[h].s))
    && !s.failed
    && (s.dangling ==> s.destroyed)
  }

  ghost predicate Owners(s: State)
  {
    Single(s) && Counted(s) && Sound(s) && NoOrphans(s)
  }

  /** Whoever is queued has a handle, whose destructor will unsubscribe it. */
  ghost predicate NoOrphans(s: State)
  {
    forall u :: Queued(s, u) ==> Held(s, u)
  }

  ghost predicate Inv(s: State)
  {
    DemuxSafety.Inv(s.demux) && Owners(s)
  }

  /** What the demuxer keeps and ownership relies on. */
  ghost predicate QueuesLive(d: DemuxState)
  {
    forall u :: InQueue(d, u) <==> u in d.known && d.known[u].live
  }

  lemma QueueIsLive(d: DemuxState)
    requires DemuxSafety.Registered(d)
    ensures QueuesLive(d)
  {
    forall u
      ensures InQueue(d, u) <==> u in d.known && d.known[u].live
    {
      assert DemuxSafety.OwnQueue(Slots(d.subs, u.kind), u.kind);
    }
  }

  ghost predicate SameLives(d: DemuxState, d': DemuxState)
  {
    && (forall u :: u in d'.known <==> u in d.known)
    && (forall u :: u in d.known ==> d'.known[u].live == d.known[u].live)
  }

  /** Only subscribing and unsubscribing change whether a subscriber is registered. */
  lemma RxKnown(d: DemuxState, a: Demux.Step)
    requires Demux.Enabled(d, a) && !a.Subscribe? && !a.Unsubscribe?
    ensures SameLives(d, Demux.Apply(d, a))
  {
    if a.Finish? {
      DemuxSafety.FinishQuiet(d);
    }
  }

  lemma RxKeeps(s: State, a: Demux.Step)
    requires Owners(s) && Enabled(s, Rx(a))
    ensures Owners(Apply(s, Rx(a)))
  {
    RxKnown(s.demux, a);
    SameOwners(s, Apply(s, Rx(a)));
  }

  lemma SameOwners(s: State, s': State)
    requires Owners(s)
    requires s' == s.(demux := s'.demux)
    requires SameLives(s.demux, s'.demux)
    ensures Owners(s')
  {
    assert forall u :: Held(s', u) <==> Held(s, u);
  }

  lemma ObtainKeeps(s: State, h: nat, u: Subscriber)
    requires Owners(s) && Enabled(s, Obtain(h, u))
    ensures Owners(Apply(s, Obtain(h, u)))
  {
    var s' := Apply(s, Obtain(h, u));
    assert s'.handles[h] == Holds(u);
    assert Held(s', u);
    forall v | v != u
      ensures Held(s', v) <==> Held(s, v)
    {
      HeldKept(s, s', v, h);
    }
  }

  /** Changing one handle that does not concern v. */
  lemma HeldKept(s: State, s': State, v: Subscriber, h: nat)
    requires forall g :: g != h ==> (g in s'.handles <==> g in s.handles)
    requires forall g :: g != h && g in s.handles ==> s'.handles[g] == s.handles[g]
    requires h in s.handles ==> Sub(s.handles[h]) != Some(v)
    requires h in s'.handles ==> Sub(s'.handles[h]) != Some(v)
    ensures Held(s', v) <==> Held(s, v)
  {
    if Held(s, v) {
      var g :| g in s.handles && Sub(s.handles[g]) == Some(v);
      assert g in s'.handles && Sub(s'.handles[g]) == Some(v);
    }
    if Held(s', v) {
      var g :| g in s'.handles && Sub(s'.handles[g]) == Some(v);
      assert g in s.handles && Sub(s.handles[g]) == Some(v);
    }
  }

  lemma MoveNewKeeps(s: State, h: nat, g: nat)
    requires Owners(s) && Enabled(s, MoveNew(h, g))
    ensures Owners(Apply(s, MoveNew(h, g)))
  {
    MoveNewHeld(s, h, g);
    var s' := Apply(s, MoveNew(h, g));
    assert Single(s');
    assert Counted(s');
  }

  lemma MoveNewHeld(s: State, h: nat, g: nat)
    requires Enabled(s, MoveNew(h, g))
    ensures forall u :: Held(Apply(s, MoveNew(h, g)), u) <==> Held(s, u)
  {
    var s' := Apply(s, MoveNew(h, g));
    assert s'.handles[h] == s.handles[g];
    forall u
      ensures Held(s', u) <==> Held(s, u)
    {
      if Held(s, u) {
        var k :| k in s.handles && Sub(s.handles[k]) == Some(u);
        assert Sub(s'.handles[if k == g then h else k]) == Some(u);
      }
    }
  }

  lemma MoveAssignKeeps(s: State, h: nat, g: nat)
    requires Owners(s) && Enabled(s, MoveAssign(h, g))
    ensures Owners(Apply(s, MoveAssign(h, g)))
  {
    MoveAssignHeld(s, h, g);
    var s' := Apply(s, MoveAssign(h, g));
    assert Single(s');
    assert Counted(s');
  }

  lemma MoveAssignHeld(s: State, h: nat, g: nat)
    requires Enabled(s, MoveAssign(h, g))
    ensures forall u :: Held(Apply(s, MoveAssign(h, g)), u) <==> Held(s, u)
  {
    var s' := Apply(s, MoveAssign(h, g));
    assert s'.handles[h] == s.handles[g] && s'.handles[g] == s.handles[h];
    forall u
      ensures Held(s', u) <==> Held(s, u)
    {
      if Held(s, u) {
        var k :| k in s.handles && Sub(s.handles[k]) == Some(u);
        assert Sub(s'.handles[if k == g then h else if k == h then g else k]) == Some(u);
      }
    }
  }

  /** Exactly a queued subscriber has another owner than its handle. */
  lemma CountTells(s: State, h: nat)
    requires Counted(s) && Sound(s) && h in s.handles && s.handles[h].Holds?
    ensures var u := s.handles[h].s;
            && u in s.demux.known && u in s.counts && Held(s, u)
            && (s.counts[u] > 1 <==> Queued(s, u)) && s.counts[u] >= 1
  {
    assert Sub(s.handles[h]) == Some(s.handles[h].s);
  }

  /** When the handle of u goes, nobody holds u any more; all other subscribers keep theirs. */
  lemma DropHandle(s: State, s': State, h: nat)
    requires Single(s) && h in s.handles && s'.handles == s.handles - {h}
    ensures Sub(s.handles[h]).Some? ==> !Held(s', Sub(s.handles[h]).value)
    ensures forall v :: Some(v) != Sub(s.handles[h]) ==> (Held(s', v) <==> Held(s, v))
    ensures Single(s')
  {
    forall v | Some(v) != Sub(s.handles[h])
      ensures Held(s', v) <==> Held(s, v)
    {
      HeldKept(s, s', v, h);
    }
  }

  lemma DropKeeps(s: State, h: nat)
    requires Owners(s) && Enabled(s, Drop(h))
    ensures Owners(Apply(s, Drop(h)))
  {
    var s' := Apply(s, Drop(h));
    if s.handles[h].Holds? {
      CountTells(s, h);
      var u := s.handles[h].s;
      if s.counts[u] > 1 {
        assert Sub(s'.handles[h]) == Some(u);
        forall v
          ensures Held(s', v) <==> Held(s, v)
        {
          if v != u {
            HeldKept(s, s', v, h);
          }
        }
      } else {
        DropHandle(s, s', h);
      }
    } else {
      DropHandle(s, s', h);
    }
  }

  lemma DepartKeeps(s: State, h: nat)
    requires Owners(s) && QueuesLive(s.demux) && Enabled(s, Depart(h))
    ensures Owners(Apply(s, Depart(h)))
  {
    var u := s.handles[h].s;
    var s' := Apply(s, Depart(h));
    if !s.destroyed {
      DropHandle(s, s', h);
      assert Sub(s.handles[h]) == Some(u);
      assert Held(s, u);
    } else {
      SameOwners(s.(dangling := true), s');
    }
  }

  lemma ReleaseKeeps(s: State)
    requires Owners(s) && QueuesLive(s.demux) && Enabled(s, Release)
    ensures Owners(Apply(s, Release))
  {
    var s' := Apply(s, Release);
    forall u
      ensures Held(s', u) <==> Held(s, u)
    {
    }
  }

  lemma DemuxPart(s: State, a: Step) returns (d: Option<Demux.Step>)
    requires Enabled(s, a)
    ensures match d
            case Some(b) => Demux.Enabled(s.demux, b) && Apply(s, a).demux == Demux.Apply(s.demux, b)
            case None => Apply(s, a).demux == s.demux
  {
    d := None;
    match a
    case Rx(b) => d := Some(b);
    case Obtain(_, u) => d := Some(Demux.Subscribe(u));
    case Depart(h) =>
      if Apply(s, a).demux != s.demux {
        d := Some(Demux.Unsubscribe(s.handles[h].s));
      }
    case _ =>
  }

  lemma DemuxKeeps(s: State, a: Step)
    requires DemuxSafety.Inv(s.demux) && Enabled(s, a)
    ensures DemuxSafety.Inv(Apply(s, a).demux)
  {
    var d := DemuxPart(s, a);
    if d.Some? {
      DemuxSafety.StepKeeps(s.demux, d.value);
    }
  }

  lemma StepKeeps(s: State, a: Step)
    requires Inv(s) && Enabled(s, a)
    ensures Inv(Apply(s, a))
  {
    DemuxKeeps(s, a);
    QueueIsLive(s.demux);
    match a
    case Rx(d) => RxKeeps(s, d);
    case Obtain(h, u) => ObtainKeeps(s, h, u);
    case MoveNew(h, g) => MoveNewKeeps(s, h, g);
    case MoveAssign(h, g) => MoveAssignKeeps(s, h, g);
    case Drop(h) => DropKeeps(s, h);
    case Depart(h) => DepartKeeps(s, h);
    case Ask(_) => SameOwners(s.(dangling := s.destroyed), Apply(s, a));
    case Release => ReleaseKeeps(s);
  }

  lemma InitInv()
    ensures Inv(Init())
  {
    DemuxSafety.RunKeeps([]);
  }

  lemma {:induction false} RunKeeps(steps: seq<Step>)
    requires Legal(steps)
    ensures Inv(Run(steps))
  {
    if steps == [] {
      InitInv();
    } else {
      RunKeeps(steps[..|steps| - 1]);
      StepKeeps(Run(steps[..|steps| - 1]), steps[|steps| - 1]);
    }
  }

  // ---------------------------------------------------------------------------------------------
  // Over every run

  /**
   * Whatever is subscribed, moved, swapped and destroyed in whatever order: a subscriber has at most
   * one handle and one queue slot, the count says how many of them there are, nobody stays queued
   * without a handle, and the assertion in unsubscribe never fires.
   */
  lemma OwnersCounted(steps: seq<Step>)
    requires Legal(steps)
    ensures Single(Run(steps)) && Counted(Run(steps)) && !Run(steps).failed
    ensures forall u :: Queued(Run(steps), u) ==> Held(Run(steps), u)
    ensures forall t :: Ascending(Slots(Run(steps).demux.subs, t))
  {
    RunKeeps(steps);
    var d := Run(steps).demux;
    forall t
      ensures Ascending(Slots(d.subs, t))
    {
      assert DemuxSafety.OwnQueue(Slots(d.subs, t), t);
    }
  }

  /** The destructor of a handle: its subscriber is out of its queue, all others stay, and nothing owns it. */
  lemma DepartUnsubscribes(steps: seq<Step>, h: nat)
    requires Legal(steps) && Enabled(Run(steps), Depart(h)) && !Run(steps).destroyed
    ensures var s, s', u := Run(steps), Apply(Run(steps), Depart(h)), Run(steps).handles[h].s;
            && !InQueue(s'.demux, u) && (forall v :: v != u ==> (InQueue(s'.demux, v) <==> InQueue(s.demux, v)))
            && s'.handles == s.handles - {h} && u in s'.counts && s'.counts[u] == 0
  {
    RunKeeps(steps);
    StepKeeps(Run(steps), Depart(h));
    QueueIsLive(Run(steps).demux);
    DepartsOne(Run(steps), h);
  }

  lemma DepartsOne(s: State, h: nat)
    requires Owners(s) && QueuesLive(s.demux) && Enabled(s, Depart(h)) && !s.destroyed
    ensures var s', u := Apply(s, Depart(h)), s.handles[h].s;
            && !InQueue(s'.demux, u) && (forall v :: v != u ==> (InQueue(s'.demux, v) <==> InQueue(s.demux, v)))
            && s'.handles == s.handles - {h} && u in s'.counts && s'.counts[u] == 0
  {
    var u := s.handles[h].s;
    WithoutMembers(Slots(s.demux.subs, u.kind), u);
    assert Sub(s.handles[h]) == Some(u);
    assert Held(s, u);
  }

  /** What a handle's destructor finds: a count above one exactly if the subscriber is still queued. */
  lemma UseCountTells(steps: seq<Step>, h: nat)
    requires Legal(steps) && h in Run(steps).handles && Run(steps).handles[h].Holds?
    ensures var s, u := Run(steps), Run(steps).handles[h].s;
            u in s.counts && (s.counts[u] > 1 <==> !s.destroyed && InQueue(s.demux, u))
  {
    RunKeeps(steps);
    CountTells(Run(steps), h);
    QueueIsLive(Run(steps).demux);
  }

  /** The demuxer's part in a run is one of its own runs: all that holds of those holds here. */
  lemma {:induction false} DemuxSide(steps: seq<Step>) returns (ds: seq<Demux.Step>)
    requires Legal(steps)
    ensures Demux.Legal(ds) && Demux.Run(ds) == Run(steps).demux
  {
    if steps == [] {
      ds := [];
    } else {
      var front, a := steps[..|steps| - 1], steps[|steps| - 1];
      ds := DemuxSide(front);
      var d := DemuxPart(Run(front), a);
      if d.Some? {
        Demux.RunAppend(ds, d.value);
        ds := ds + [d.value];
      }
    }
  }

  // ---------------------------------------------------------------------------------------------
  // Calls of a destroyed demuxer

  ghost predicate SomeHolding(s: State)
  {
    exists h :: h in s.handles && !s.handles[h].Empty?
  }

  /** Some handle's destructor has looked at the count but not called yet. */
  ghost predicate SomeLeaving(s: State)
  {
    exists h :: h in s.handles && s.handles[h].Leaving?
  }

  /** Nobody can call the destroyed demuxer; or nobody but through isSubscribed. */
  ghost predicate Alone(s: State, asking: bool)
  {
    s.destroyed && !s.dangling && !(if asking then SomeHolding(s) else SomeLeaving(s))
  }

  lemma AloneStep(s: State, a: Step, asking: bool)
    requires Owners(s) && Alone(s, asking) && Enabled(s, a) && (a.Ask? ==> asking)
    ensures Alone(Apply(s, a), asking)
  {
    match a
    case Drop(h) => AloneDrop(s, h, asking);
    case MoveNew(h, g) => AloneMove(s, a, h, g, asking);
    case MoveAssign(h, g) => AloneMove(s, a, h, g, asking);
    case _ =>
  }

  lemma AloneDrop(s: State, h: nat, asking: bool)
    requires Owners(s) && Alone(s, asking) && Enabled(s, Drop(h))
    ensures Alone(Apply(s, Drop(h)), asking)
  {
    if s.handles[h].Holds? {
      CountTells(s, h);
    }
    var s' := Apply(s, Drop(h));
    assert forall k :: k in s'.handles ==> k in s.handles && s'.handles[k] == s.handles[k];
  }

  lemma AloneMove(s: State, a: Step, h: nat, g: nat, asking: bool)
    requires Alone(s, asking) && Enabled(s, a)
    requires a == MoveNew(h, g) || a == MoveAssign(h, g)
    ensures Alone(Apply(s, a), asking)
  {
    var s' := Apply(s, a);
    assert forall k :: k in s'.handles && k != h && k != g ==> k in s.handles && s'.handles[k] == s.handles[k];
  }

  ghost predicate NoAsk(more: seq<Step>)
  {
    forall i :: 0 <= i < |more| ==> !more[i].Ask?
  }

  lemma {:induction false} AloneRun(steps: seq<Step>, more: seq<Step>, asking: bool)
    requires Legal(steps) && Legal(steps + more) && Alone(Run(steps), asking) && (asking || NoAsk(more))
    ensures Alone(Run(steps + more), asking)
    decreases |more|
  {
    if more == [] {
      assert steps + more == steps;
    } else {
      var front := more[..|more| - 1];
      LastOf(steps, more);
      AloneRun(steps, front, asking);
      RunKeeps(steps + front);
      AloneStep(Run(steps + front), more[|more| - 1], asking);
    }
  }

  lemma LastOf(steps: seq<Step>, more: seq<Step>)
    requires Legal(steps + more) && more != []
    ensures var front, a := more[..|more| - 1], more[|more| - 1];
            && Legal(steps + front) && Enabled(Run(steps + front), a)
            && Run(steps + more) == Apply(Run(steps + front), a)
  {
    assert (steps + more)[..|steps + more| - 1] == steps + more[..|more| - 1];
  }

  /** In some continuation a destroyed demuxer is called. */
  ghost predicate CanDangle(steps: seq<Step>)
  {
    exists more :: Legal(steps + more) && Run(steps + more).dangling
  }

  /** By a handle's destructor, that is: not by isSubscribed. */
  ghost predicate DestructorCanDangle(steps: seq<Step>)
  {
    exists more :: Legal(steps + more) && NoAsk(more) && Run(steps + more).dangling
  }

  ghost predicate JustReleased(s: State)
  {
    s.destroyed && !s.failed && !s.dangling && Unlocked(s.demux)
  }

  lemma Departs(after: seq<Step>)
    requires Legal(after) && JustReleased(Run(after)) && SomeLeaving(Run(after))
    ensures DestructorCanDangle(after)
  {
    var h :| h in Run(after).handles && Run(after).handles[h].Leaving?;
    RunAppend(after, Depart(h));
    assert Legal(after + [Depart(h)]) && NoAsk([Depart(h)]) && Run(after + [Depart(h)]).dangling;
  }

  lemma Asks(after: seq<Step>)
    requires Legal(after) && JustReleased(Run(after)) && SomeHolding(Run(after)) && !SomeLeaving(Run(after))
    ensures CanDangle(after)
  {
    var h :| h in Run(after).handles && !Run(after).handles[h].Empty?;
    RunAppend(after, Ask(h));
    assert Legal(after + [Ask(h)]) && Run(after + [Ask(h)]).dangling;
  }

  lemma ReleaseLeaves(s: State)
    requires Enabled(s, Release)
    ensures var s' := Apply(s, Release);
            && JustReleased(s')
            && (SomeLeaving(s') <==> SomeLeaving(s)) && (SomeHolding(s') <==> SomeHolding(s))
  {
    assert Apply(s, Release).handles == s.handles;
  }

  /**
   * A destroyed demuxer is called in some continuation if and only if some handle still holds a
   * subscriber when the demuxer's destructor ends: isSubscribed on it will do.
   */
  lemma DanglingIff(steps: seq<Step>)
    requires Legal(steps) && Enabled(Run(steps), Release)
    ensures Legal(steps + [Release])
    ensures CanDangle(steps + [Release]) <==> SomeHolding(Run(steps))
  {
    var s, after := Run(steps), steps + [Release];
    RunAppend(steps, Release);
    ReleaseLeaves(s);
    if SomeLeaving(s) {
      Departs(after);
    } else if SomeHolding(s) {
      Asks(after);
    } else {
      forall more | Legal(after + more)
        ensures !Run(after + more).dangling
      {
        AloneRun(after, more, true);
      }
    }
  }

  /**
   * By the destructor of a handle, if and only if the two destructions overlap: when the demuxer's
   * ends, some handle's destructor has looked at the count but not yet called.
   */
  lemma DestructorDanglesIff(steps: seq<Step>)
    requires Legal(steps) && Enabled(Run(steps), Release)
    ensures Legal(steps + [Release])
    ensures DestructorCanDangle(steps + [Release]) <==> SomeLeaving(Run(steps))
  {
    var s, after := Run(steps), steps + [Release];
    RunAppend(steps, Release);
    ReleaseLeaves(s);
    if SomeLeaving(s) {
      Departs(after);
    } else {
      forall more | Legal(after + more) && NoAsk(more)
        ensures !Run(after + more).dangling
      {
        AloneRun(after, more, false);
      }
    }
  }

  /** Such an overlap: the handle's destructor looks at the count while the demuxer's is joining. */
  lemma Overlap() returns (steps: seq<Step>)
    ensures Legal(steps) && Enabled(Run(steps), Release) && SomeLeaving(Run(steps))
  {
    var u := Subscriber(0, 2);
    var d;
    steps, d := Subscribed(u);
    steps, d := Next(steps, d, Poll(false));
    steps, d := Next(steps, d, Shut);
    steps, d := Next(steps, d, Exit);
    steps := Drops(steps, 0, u);
    assert Run(steps).handles[0] == Leaving(u);
  }

  lemma Subscribed(u: Subscriber) returns (steps: seq<Step>, d: DemuxState)
    ensures Legal(steps) && Run(steps) == State(d, map[0 := Holds(u)], map[u := 2], false, false, false)
    ensures d.phase.Polling? && d.known.Keys == {u} && Slots(d.subs, u.kind) == [u]
  {
    RunAppend([], Obtain(0, u));
    steps := [] + [Obtain(0, u)];
    d := Demux.Apply(Demux.Init(), Demux.Subscribe(u));
  }

  lemma Next(steps: seq<Step>, d: DemuxState, a: Demux.Step) returns (steps': seq<Step>, d': DemuxState)
    requires Legal(steps) && Run(steps).demux == d && Demux.Enabled(d, a) && !a.Subscribe? && !a.Unsubscribe?
    requires !Run(steps).destroyed && !Run(steps).failed && !Run(steps).dangling
    ensures Legal(steps') && Run(steps') == Run(steps).(demux := d') && d' == Demux.Apply(d, a)
  {
    RunAppend(steps, Rx(a));
    steps', d' := steps + [Rx(a)], Demux.Apply(d, a);
  }

  /** Two handles are swapped, one of them moved on, and all but the other destroyed: its subscriber is unaffected. */
  lemma HandlesSwapped() returns (steps: seq<Step>, u: Subscriber, v: Subscriber)
    ensures Legal(steps) && u != v
    ensures Run(steps).handles == map[1 := Holds(u)]
    ensures !InQueue(Run(steps).demux, v) && InQueue(Run(steps).demux, u)
  {
    u, v := Subscriber(0, 2), Subscriber(1, 2);
    steps := TwoHandles(u, v);
    steps := Swaps(steps, u, v);
    steps := Destroys(steps, u, v);
    steps := DropsEmpty(steps, 0);
  }

  ghost predicate Running(s: State)
  {
    !s.destroyed && !s.failed && !s.dangling && Unlocked(s.demux)
  }

  lemma TwoHandles(u: Subscriber, v: Subscriber) returns (steps: seq<Step>)
    requires u.id < v.id && u.kind == v.kind
    ensures Legal(steps) && Run(steps).handles == map[0 := Holds(u), 1 := Holds(v)] && Running(Run(steps))
    ensures InQueue(Run(steps).demux, u) && InQueue(Run(steps).demux, v)
  {
    var d;
    steps, d := Subscribed(u);
    RunAppend(steps, Obtain(1, v));
    steps := steps + [Obtain(1, v)];
  }

  lemma Swaps(steps: seq<Step>, u: Subscriber, v: Subscriber) returns (steps': seq<Step>)
    requires Legal(steps) && Run(steps).handles == map[0 := Holds(u), 1 := Holds(v)] && Running(Run(steps))
    ensures Legal(steps') && Run(steps') == Run(steps).(handles := map[0 := Empty, 1 := Holds(u), 2 := Holds(v)])
  {
    RunAppend(steps, MoveAssign(0, 1));
    steps' := steps + [MoveAssign(0, 1)];
    assert Run(steps') == Run(steps).(handles := map[0 := Holds(v), 1 := Holds(u)]);
    RunAppend(steps', MoveNew(2, 0));
    steps' := steps' + [MoveNew(2, 0)];
  }

  lemma Destroys(steps: seq<Step>, u: Subscriber, v: Subscriber) returns (steps': seq<Step>)
    requires Legal(steps) && Run(steps).handles == map[0 := Empty, 1 := Holds(u), 2 := Holds(v)] && Running(Run(steps))
    requires u != v && InQueue(Run(steps).demux, u) && InQueue(Run(steps).demux, v)
    ensures Legal(steps') && Run(steps').handles == map[0 := Empty, 1 := Holds(u)] && Running(Run(steps'))
    ensures !InQueue(Run(steps').demux, v) && InQueue(Run(steps').demux, u)
  {
    steps' := Drops(steps, 2, v);
    steps' := DepartsNow(steps', 2, v);
  }

  lemma DepartsNow(steps: seq<Step>, h: nat, v: Subscriber) returns (steps': seq<Step>)
    requires Legal(steps) && h in Run(steps).handles && Run(steps).handles[h] == Leaving(v) && Running(Run(steps))
    ensures Legal(steps') && Run(steps').handles == Run(steps).handles - {h} && Running(Run(steps'))
    ensures !InQueue(Run(steps').demux, v)
    ensures forall u :: u != v ==> (InQueue(Run(steps').demux, u) <==> InQueue(Run(steps).demux, u))
  {
    DepartUnsubscribes(steps, h);
    RunAppend(steps, Depart(h));
    steps' := steps + [Depart(h)];
    StillRunning(Run(steps), h);
  }

  lemma StillRunning(s: State, h: nat)
    requires Running(s) && Enabled(s, Depart(h)) && Apply(s, Depart(h)).handles == s.handles - {h}
    ensures Running(Apply(s, Depart(h)))
  {
  }

  lemma DropsEmpty(steps: seq<Step>, h: nat) returns (steps': seq<Step>)
    requires Legal(steps) && h in Run(steps).handles && Run(steps).handles[h].Empty? && Running(Run(steps))
    ensures Legal(steps') && Run(steps') == Run(steps).(handles := Run(steps).handles - {h})
  {
    RunAppend(steps, Drop(h));
    steps' := steps + [Drop(h)];
  }

  lemma Drops(steps: seq<Step>, h: nat, v: Subscriber) returns (steps': seq<Step>)
    requires Legal(steps) && h in Run(steps).handles && Run(steps).handles[h] == Holds(v) && Running(Run(steps))
    requires InQueue(Run(steps).demux, v)
    ensures Legal(steps') && Run(steps') == Run(steps).(handles := Run(steps).handles[h := Leaving(v)])
  {
    UseCountTells(steps, h);
    RunAppend(steps, Drop(h));
    steps' := steps + [Drop(h)];
  }
}
