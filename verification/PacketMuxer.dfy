// src/PacketMuxer.cpp in its own form. Every atomic action of the code is also a step of the state
// machine MuxProtocol; Valid() says that the fields are those of the state reached by a legal run,
// so what is proved of all runs holds of the object.

module Muxer {
  import opened Packets
  import opened Codec
  import opened IdTables
  import opened MuxProtocol
  import opened MuxSafety

  /** AbstractWriter: takes any number of the bytes offered, or reports an error. */
  class Writer {
    var wire: seq<Byte>   // all bytes taken so far
    var patience: nat     // bounds how often it takes nothing before it takes something or fails
    ghost var errors: nat // how many writes have failed

    method Write(data: seq<Byte>) returns (n: int)
      requires data != []
      modifies this
      ensures -1 <= n <= |data|
      ensures wire == old(wire) + (if n < 0 then [] else data[..n])
      ensures errors == old(errors) + (if n < 0 then 1 else 0)
      ensures n == 0 ==> patience < old(patience)
    {
      n :| -1 <= n <= |data| && (n == 0 ==> 0 < patience);
      if n == 0 {
        patience := patience - 1;
      } else {
        patience := *;
      }
      if 0 <= n {
        wire := wire + data[..n];
      } else {
        errors := errors + 1;
      }
    }
  }

  /** The queued packets in the order the map iteration meets them. */
  function InOrder(order: seq<PacketType>, queues: map<PacketType, seq<Packet>>): seq<Packet>
  {
    if order == [] then []
    else InOrder(order[..|order| - 1], queues) + Queue(queues, order[|order| - 1])
  }

  lemma InRange(s: MuxState)
    requires Reachable(s)
    ensures 0 <= s.numPosted < U32 && 0 <= s.numSent < U32
  {
    ReachableInv(s);
  }

  predicate SameThread(a: Sender, b: Sender)
  {
    a == b || (a.Waiting? && b.Waiting?)
  }

  lemma LoopOutcome(s: MuxState)
    requires Reachable(s)
    ensures forall t :: OfType(s.posted, t) == OfType(s.popped, t) + Queue(s.queues, t)
    ensures s.wire == EncodeAll(Whole(s)) + Current(s)
  {
    ReachableInv(s);
  }

  lemma FrontKind(s: MuxState, t: PacketType)
    requires Reachable(s) && Queue(s.queues, t) != []
    ensures s.queues[t][0].kind == t
  {
    ReachableInv(s);
    QueuedKinds(s, t);
  }

  /** Other threads have posted packets, or destroyed the muxer, and nothing else. */
  ghost predicate OthersDid(s: MuxState, s': MuxState)
  {
    s.posted <= s'.posted && s'.popped == s.popped && s'.wire == s.wire
  }

  /** With all queues empty the counters are equal again. */
  lemma Drained(s: MuxState)
    requires Reachable(s)
    ensures NonEmpty(s.queues) == {} ==> s.numPosted == s.numSent
  {
    ReachableInv(s);
    TotalEmpty(s.queues);
  }

  /** Only the wire and the packet in transmission differ. */
  ghost predicate OnlyTx(s: MuxState, s': MuxState)
  {
    && s.sender.Sending? && s'.sender.Sending?
    && s'.sender.todo == s.sender.todo && s'.sender.current == s.sender.current
    && s'.queues == s.queues && s'.numPosted == s.numPosted && s'.numSent == s.numSent
    && s'.err == s.err && s'.posted == s.posted && s'.popped == s.popped && s'.wreck == s.wreck
  }

  lemma TakeMore(wire: seq<Byte>, buffer: seq<Byte>, done: nat, n: nat)
    requires done + n <= |buffer|
    ensures wire + buffer[..done] + buffer[done..done + n] == wire + buffer[..done + n]
    ensures buffer[done..][..n] == buffer[done..done + n]
  {
  }

  lemma Assoc4(a: seq<Byte>, b: seq<Byte>, c: seq<Byte>, d: seq<Byte>)
    ensures a + b + c + d == a + (b + c + d)
  {
  }

  /** writeBytes is about to be called for this field. */
  ghost predicate AtField(tx: Tx, field: nat, buffer: seq<Byte>)
  {
    && field < 3 && |tx.cut| == 3
    && buffer == Field(tx.packet, field)
    && tx.cut[field] == 0
    && tx.at == (if buffer == [] then 3 else field)
  }

  /** It has moved n bytes so far, without an error. */
  ghost function Partway(tx: Tx, field: nat, n: nat): Tx
    requires field < 3 && |tx.cut| == 3
  {
    tx.(cut := tx.cut[field := n],
        at := if n == |Field(tx.packet, field)| && n > 0 then NextField(tx.packet, field) else tx.at)
  }

  /** It has returned, having moved n bytes. */
  ghost function AfterField(tx: Tx, field: nat, n: nat): Tx
    requires field < 3 && |tx.cut| == 3
  {
    var size := |Field(tx.packet, field)|;
    tx.(ok := tx.ok && n == size,
        cut := tx.cut[field := n],
        at := if size == 0 then 3 else NextField(tx.packet, field))
  }

  lemma FieldStarts(tx: Tx, field: nat, buffer: seq<Byte>)
    requires AtField(tx, field, buffer)
    ensures Partway(tx, field, 0) == tx
  {
  }

  lemma FieldOver(tx: Tx, field: nat, buffer: seq<Byte>)
    requires AtField(tx, field, buffer)
    ensures Partway(tx, field, |buffer|) == AfterField(tx, field, |buffer|)
  {
  }

  lemma FirstField(p: Packet)
    ensures AtField(Begin(p), 0, Be32(p.kind))
  {
  }

  lemma SecondField(p: Packet, c0: nat)
    requires c0 <= 4
    ensures AtField(AfterField(Begin(p), 0, c0), 1, Be32(|p.data| % U32))
  {
  }

  lemma ThirdField(p: Packet, c0: nat, c1: nat)
    requires c0 <= 4 && c1 <= 4
    ensures AtField(AfterField(AfterField(Begin(p), 0, c0), 1, c1), 2, p.data)
  {
  }

  lemma AllFields(p: Packet, c0: nat, c1: nat, c2: nat)
    requires c0 <= 4 && c1 <= 4 && c2 <= |p.data|
    ensures var tx := AfterField(AfterField(AfterField(Begin(p), 0, c0), 1, c1), 2, c2);
            && tx.at == 3 && tx.packet == p && tx.cut == [c0, c1, c2] && CutValid(p, tx.cut)
            && (tx.ok <==> c0 == 4 && c1 == 4 && c2 == |p.data|)
  {
  }

  lemma PartwayStep(tx: Tx, field: nat, buffer: seq<Byte>, done: nat, n: int)
    requires AtField(tx, field, buffer) && done < |buffer| && -1 <= n <= |buffer| - done
    ensures var t := Partway(tx, field, done);
            && t.at == field && |t.cut| == 3 && t.packet == tx.packet && t.cut[field] == done
            && Taken(t, n) == (if n < 0 then [] else buffer[done..done + n])
            && OnWrite(t, n) == (if n < 0 then AfterField(tx, field, done) else Partway(tx, field, done + n))
  {
  }

  lemma InOrderAppend(order: seq<PacketType>, t: PacketType, queues: map<PacketType, seq<Packet>>)
    ensures InOrder(order + [t], queues) == InOrder(order, queues) + Queue(queues, t)
  {
    assert (order + [t])[..|order|] == order;
  }

  ghost predicate IsOrder(order: seq<PacketType>, keys: set<PacketType>)
  {
    && (forall i, j :: 0 <= i < j < |order| ==> order[i] != order[j])
    && (forall t :: t in order <==> t in keys)
  }

  /** The queues not in todo have been visited in this order, and sent; all of them, or up to a failure. */
  ghost predicate PassSoFar(order: seq<PacketType>, queues: map<PacketType, seq<Packet>>, todo: set<PacketType>,
                            base: seq<Packet>, popped: seq<Packet>, all: bool)
  {
    && IsOrder(order, queues.Keys - todo)
    && base <= popped <= base + InOrder(order, queues)
    && (all ==> popped == base + InOrder(order, queues))
  }

  lemma AllEmpty(queues: map<PacketType, seq<Packet>>)
    ensures (forall t :: t in queues ==> queues[t] == []) ==> NonEmpty(queues) == {}
  {
  }

  lemma OrderMore(order: seq<PacketType>, keys: set<PacketType>, t: PacketType)
    requires IsOrder(order, keys) && t !in keys
    ensures IsOrder(order + [t], keys + {t})
  {
  }

  lemma SentMore(base: seq<Packet>, sent: seq<Packet>, q: seq<Packet>, now: seq<Packet>, next: seq<Packet>)
    requires base <= now <= base + sent && now <= next <= now + q
    ensures next == now || now == base + sent ==> base <= next <= base + (sent + q)
    ensures now == base + sent && next == now + q ==> next == base + (sent + q)
  {
    assert base + (sent + q) == base + sent + q;
  }

  lemma PopAt(q: seq<Packet>, k: nat)
    requires k < |q|
    ensures q[k..][0] == q[k] && q[k..][1..] == q[k + 1..] && q[..k] + [q[k]] == q[..k + 1]
  {
  }

  lemma PassMore(order: seq<PacketType>, queues: map<PacketType, seq<Packet>>, todo: set<PacketType>, t: PacketType,
                 base: seq<Packet>, now: seq<Packet>, next: seq<Packet>)
    requires t in todo && todo <= queues.Keys && now <= next <= now + queues[t]
    requires PassSoFar(order, queues, todo, base, now, false)
    ensures next == now || now == base + InOrder(order, queues) ==>
              PassSoFar(order + [t], queues, todo - {t}, base, next, false)
    ensures now == base + InOrder(order, queues) && next == now + queues[t] ==>
              PassSoFar(order + [t], queues, todo - {t}, base, next, true)
  {
    InOrderAppend(order, t, queues);
    SentMore(base, InOrder(order, queues), queues[t], now, next);
    OrderMore(order, queues.Keys - todo, t);
    assert queues.Keys - (todo - {t}) == queues.Keys - todo + {t};
  }

  class PacketMuxer {
    const packetIds: IdManager
    const transport: Writer
    var numPosted: int
    var numSent: int
    var txQueues: map<PacketType, seq<Packet>>
    var transportError: bool
    var horizon: nat   // how many more waits before the destructor runs

    ghost const ids: seq<string>
    ghost const errorsBefore: nat
    ghost var closed: bool     // another thread has run the destructor
    ghost var waits: seq<bool> // whether each wait_for so far has timed out
    ghost var view: MuxState   // the state the atomic actions so far have led to

    ghost predicate Linked()
      reads this, transport
    {
      && Reachable(view)
      && view.queues == txQueues
      && view.numPosted == numPosted
      && view.numSent == numSent
      && view.wire == transport.wire
    }

    ghost predicate Valid()
      reads this, transport
    {
      Linked() && view.err == transportError
    }

    /** The error flag is set exactly if another thread has closed the muxer or a write has failed. */
    ghost predicate Accounted()
      reads this, transport
    {
      errorsBefore <= transport.errors && (transportError <==> closed || errorsBefore < transport.errors)
    }

    ghost predicate Named()
      reads this, packetIds
    {
      Distinct(Names(ids)) && packetIds.Holds(Names(ids))
    }

    constructor (transport: Writer, list: seq<string>)
      requires Distinct(Names(list)) && transport.wire == []
      ensures Valid() && Named() && Accounted() && view == Init() && this.transport == transport && ids == list
    {
      this.transport := transport;
      packetIds := new IdManager(list);
      ids, errorsBefore, closed, waits := list, transport.errors, false, [];
      numPosted, numSent := 0, 0;
      txQueues := map[];
      transportError := false;
      horizon := *;
      view := Init();
      new;
    }

    /** Record one atomic action. */
    ghost method Do(a: Step)
      requires Reachable(view) && Enabled(view, a)
      modifies this`view
      ensures view == Apply(old(view), a) && Reachable(view)
    {
      ReachableStep(view, a);
      view := Apply(view, a);
    }

    ghost method DoWrite(n: int)
      requires Reachable(view) && Enabled(view, MuxProtocol.Write(n))
      modifies this`view
      ensures Reachable(view)
      ensures OnlyTx(old(view), view)
      ensures view.sender.tx == OnWrite(old(view).sender.tx, n)
      ensures view.wire == old(view).wire + Taken(old(view).sender.tx, n)
    {
      Do(MuxProtocol.Write(n));
    }

    // -------------------------------------------------------------------------------------------
    // Posting

    method Enqueue(p: Packet)
      requires 0 <= numPosted < U32
      modifies this`txQueues, this`numPosted
      ensures txQueues == old(txQueues)[p.kind := Queue(old(txQueues), p.kind) + [p]]
      ensures numPosted == (old(numPosted) + 1) % U32
    {
      txQueues := txQueues[p.kind := (if p.kind in txQueues then txQueues[p.kind] else []) + [p]];
      numPosted := (numPosted + 1) % U32;
    }

    /** An unknown name throws before anything is touched; the reserved ones are accepted. */
    method EmplacePacket(name: string, data: seq<Byte>) returns (known: bool)
      requires Valid() && Named() && LockFree(view)
      modifies this`txQueues, this`numPosted, this`view
      ensures Valid()
      ensures known <==> name in Names(ids)
      ensures known ==> view == PostTo(old(view), Packet(packetIds.ToId(name).value, data))
      ensures !known ==> view == old(view)
    {
      InRange(view);
      var t := packetIds.ToId(name);
      if t == None {
        return false;
      }
      Enqueue(Packet(t.value, data));
      Do(Post(Packet(t.value, data)));
      return true;
    }

    /**
     * The locked part of the destructor; the join only waits for SendLoop to end. It is up to whoever
     * stands for the thread that calls it to note it in closed.
     */
    method Close()
      requires Valid() && LockFree(view)
      modifies this`transportError, this`view
      ensures Valid() && transportError
      ensures view == old(view).(err := true, sender := Notified(old(view.sender)))
    {
      transportError := true;
      Do(MuxProtocol.Close);
    }

    // -------------------------------------------------------------------------------------------
    // Sending

    /**
     * Writes one field of the packet in transmission. The bytes taken are a prefix of the buffer;
     * size is what remained, and only an error of the transport leaves anything.
     */
    method WriteBytes(buffer: seq<Byte>, ghost field: nat) returns (ok: bool, size: nat)
      requires Linked() && !transportError && view.sender.Sending?
      requires AtField(view.sender.tx, field, buffer)
      modifies this`view, transport
      ensures Linked()
      ensures size <= |buffer| && (ok <==> size == 0)
      ensures transport.errors == old(transport.errors) + (if ok then 0 else 1)
      ensures transport.wire == old(transport.wire) + buffer[..|buffer| - size]
      ensures OnlyTx(old(view), view)
      ensures view.sender.tx == AfterField(old(view).sender.tx, field, |buffer| - size)
    {
      size := |buffer|;
      ghost var tx := view.sender.tx;
      FieldStarts(tx, field, buffer);
      while size > 0
        invariant size <= |buffer| && transport.errors == old(transport.errors)
        invariant Linked()
        invariant transport.wire == old(transport.wire) + buffer[..|buffer| - size]
        invariant OnlyTx(old(view), view)
        invariant view.sender.tx == Partway(tx, field, |buffer| - size)
        decreases size, transport.patience
      {
        ghost var done := |buffer| - size;
        var n := WriteOnce(buffer, size, field, tx);
        if n < 0 || transportError {
          return false, size;
        }
        size := size - n;
        TakeMore(old(transport.wire), buffer, done, n);
      }
      FieldOver(tx, field, buffer);
      return true, size;
    }

    /** One call to the transport. */
    method WriteOnce(buffer: seq<Byte>, size: nat, ghost field: nat, ghost tx: Tx) returns (n: int)
      requires Linked() && view.sender.Sending? && 0 < size <= |buffer|
      requires AtField(tx, field, buffer) && view.sender.tx == Partway(tx, field, |buffer| - size)
      modifies this`view, transport
      ensures Linked() && OnlyTx(old(view), view) && -1 <= n <= size
      ensures transport.errors == old(transport.errors) + (if n < 0 then 1 else 0)
      ensures n == 0 ==> transport.patience < old(transport.patience)
      ensures var done := |buffer| - size;
              && transport.wire == old(transport.wire) + (if n < 0 then [] else buffer[done..done + n])
              && view.sender.tx == (if n < 0 then AfterField(tx, field, done) else Partway(tx, field, done + n))
    {
      ghost var done := |buffer| - size;
      n := transport.Write(buffer[|buffer| - size..]);
      PartwayStep(tx, field, buffer, done, n);
      DoWrite(n);
    }

    /**
     * The error flag is overwritten, not or-ed: it is set exactly when a field was cut short, which is
     * exactly when a write failed.
     */
    method SendPacket(packet: Packet)
      requires Valid() && !transportError && view.sender.Sending? && view.sender.tx == Begin(packet)
      modifies this`transportError, this`view, transport
      ensures Linked() && OnlyTx(old(view), view)
      ensures view.sender.tx.at == 3 && view.sender.tx.packet == packet && CutValid(packet, view.sender.tx.cut)
      ensures transportError == !view.sender.tx.ok
      ensures transport.errors >= old(transport.errors)
      ensures transportError <==> transport.errors > old(transport.errors)
      ensures transport.wire == old(transport.wire) + Fragments(packet, view.sender.tx.cut)
    {
      ghost var wire := transport.wire;
      FirstField(packet);
      var ok, size := WriteBytes(Be32(packet.kind), 0);
      ghost var c0 := 4 - size;
      SecondField(packet, c0);
      var more: bool;
      more, size := WriteBytes(Be32(|packet.data| % U32), 1);
      ghost var c1 := 4 - size;
      ThirdField(packet, c0, c1);
      ok := ok && more;
      more, size := WriteBytes(packet.data, 2);
      ok := ok && more;
      transportError := !ok;
      ghost var c2 := |packet.data| - size;
      AllFields(packet, c0, c1, c2);
      Assoc4(wire, Field(packet, 0)[..c0], Field(packet, 1)[..c1], Field(packet, 2)[..c2]);
    }

    /** Sends the front packet and pops it; the assertion in sendPacket may end the process. */
    method SendNext(t: PacketType) returns (alive: bool)
      requires Valid() && Accounted() && !transportError && view.sender.Serving? && view.sender.current == t && Queue(txQueues, t) != []
      modifies this`txQueues, this`numSent, this`transportError, this`view, transport
      ensures Valid() && Accounted() && view.posted == old(view).posted
      ensures alive <==> old(txQueues)[t][0].kind != INVALID_PACKET
      ensures alive ==>
                && view.sender == old(view).sender
                && view.popped == old(view).popped + [old(txQueues)[t][0]]
                && txQueues == old(txQueues)[t := old(txQueues)[t][1..]]
      ensures !alive ==>
                view.sender == Crashed && view.popped == old(view).popped && txQueues == old(txQueues)
    {
      Do(BeginPacket);
      if txQueues[t][0].kind == INVALID_PACKET {
        return false;
      }
      SendPacket(txQueues[t][0]);
      txQueues := txQueues[t := txQueues[t][1..]];
      numSent := (numSent + 1) % U32;
      Do(FinishPacket);
      return true;
    }

    /**
     * Sends the front packets of one queue until it is empty or the transport has failed. Only the
     * queue of the invalid type can end the process, by the assertion in sendPacket.
     */
    method SendAll(t: PacketType) returns (alive: bool)
      requires Valid() && Accounted() && t in txQueues && view.sender.Passing? && t in view.sender.todo
      modifies this`txQueues, this`numSent, this`transportError, this`view, transport
      ensures Valid() && Accounted() && view.posted == old(view).posted
      ensures view.sender == if alive then Passing(old(view).sender.todo - {t}) else Crashed
      ensures old(transportError) ==> alive && transportError && view.popped == old(view).popped
      ensures !alive ==> t == INVALID_PACKET && Queue(txQueues, t) != []
      ensures var q, k := old(txQueues)[t], |view.popped| - |old(view).popped|;
              && 0 <= k <= |q|
              && view.popped == old(view).popped + q[..k]
              && txQueues == old(txQueues)[t := q[k..]]
              && (transportError || !alive || k == |q|)
    {
      ghost var q, k := txQueues[t], 0;
      Do(Visit(t));
      while transportError == false && txQueues[t] != []
        invariant Valid() && Accounted() && view.sender == Serving(old(view).sender.todo - {t}, t)
        invariant view.posted == old(view).posted
        invariant old(transportError) ==> transportError && k == 0
        invariant 0 <= k <= |q|
        invariant view.popped == old(view).popped + q[..k]
        invariant txQueues == old(txQueues)[t := q[k..]]
        decreases |q| - k
      {
        PopAt(q, k);
        FrontKind(view, t);
        alive := SendNext(t);
        if !alive {
          return;
        }
        k := k + 1;
      }
      Do(Leave);
      alive := true;
    }

    /**
     * One pass over the map, in whatever order it iterates. It ends with the transport failed or
     * with every packet that was queued sent exactly once, queue by queue; unless the process dies.
     */
    method SendPass() returns (alive: bool, order: seq<PacketType>)
      requires Valid() && Accounted() && view.sender == Passing(txQueues.Keys)
      modifies this`txQueues, this`numSent, this`transportError, this`view, transport
      ensures Valid() && Accounted() && view.posted == old(view).posted && view.sender == if alive then LoopHead else Crashed
      ensures old(transportError) ==> alive && transportError && view.popped == old(view).popped
      ensures !alive ==> Queue(txQueues, INVALID_PACKET) != []
      ensures alive ==> IsOrder(order, old(txQueues.Keys))
      ensures alive ==> old(view).popped <= view.popped <= old(view).popped + InOrder(order, old(txQueues))
      ensures alive && !transportError ==>
                && view.popped == old(view).popped + InOrder(order, old(txQueues))
                && NonEmpty(txQueues) == {}
    {
      order := [];
      var todo := txQueues.Keys;
      ghost var queues, base := txQueues, view.popped;
      while todo != {}
        invariant Valid() && Accounted() && view.sender == Passing(todo) && view.posted == old(view).posted
        invariant old(transportError) ==> transportError && view.popped == base
        invariant todo <= txQueues.Keys == queues.Keys
        invariant forall t :: t in todo ==> txQueues[t] == queues[t]
        invariant !transportError ==> forall t :: t in queues.Keys - todo ==> txQueues[t] == []
        invariant PassSoFar(order, queues, todo, base, view.popped, !transportError)
        decreases todo
      {
        var t :| t in todo;
        ghost var now := view.popped;
        alive := SendAll(t);
        if !alive {
          return;
        }
        PassMore(order, queues, todo, t, base, now, view.popped);
        todo := todo - {t};
        order := order + [t];
      }
      Do(EndPass);
      AllEmpty(txQueues);
      alive := true;
    }

    // -------------------------------------------------------------------------------------------
    // The send thread

    /** Posts a control packet; the caller records the action it is part of. */
    method SendControlMessage(msg: Byte)
      requires Linked() && Named()
      modifies this`txQueues, this`numPosted
      ensures txQueues == old(txQueues)[CONTROL_PACKET :=
                            Queue(old(txQueues), CONTROL_PACKET) + [Packet(CONTROL_PACKET, [msg])]]
      ensures numPosted == (old(numPosted) + 1) % U32
    {
      InRange(view);
      var t := packetIds.ToId(CONTROL_STRING);
      assert Names(ids)[1] == CONTROL_STRING;
      Enqueue(Packet(t.value, [msg]));
    }

    /** Whatever other threads do while the lock is free: any number of posts, perhaps the destructor. */
    method OtherThreads()
      requires Valid() && Accounted() && LockFree(view)
      modifies this`txQueues, this`numPosted, this`transportError, this`closed, this`view
      ensures Valid() && Accounted() && SameThread(old(view).sender, view.sender)
      ensures OthersDid(old(view), view)
      ensures old(transportError) ==> transportError
    {
      var steps: nat := *;
      while steps > 0
        invariant Valid() && Accounted() && SameThread(old(view).sender, view.sender) && LockFree(view)
        invariant OthersDid(old(view), view)
        invariant old(transportError) ==> transportError
      {
        var p: Packet := *;
        var close: bool := *;
        if close {
          Close();
          closed := true;
        } else {
          InRange(view);
          Enqueue(p);
          Do(Post(p));
        }
        steps := steps - 1;
      }
    }

    /** wait_for: the lock is released meanwhile. When the horizon is reached the destructor has run. */
    method WaitFor() returns (timedOut: bool)
      requires Valid() && Accounted() && view.sender.Waiting?
      modifies this`txQueues, this`numPosted, this`transportError, this`closed, this`waits, this`view, this`horizon
      ensures waits == old(waits) + [timedOut]
      ensures Valid() && Accounted() && view.sender.Waiting?
      ensures OthersDid(old(view), view)
      ensures old(transportError) ==> transportError
      ensures transportError || horizon < old(horizon)
    {
      OtherThreads();
      if horizon == 0 {
        Close();
        closed := true;
      } else {
        horizon := horizon - 1;
      }
      timedOut := *;
      waits := waits + [timedOut];
    }

    /**
     * The head of the send loop: wait if there is nothing to send, with a heart beat on timeout. In
     * woken, the end of the wait, only other threads have acted.
     */
    method AwaitWork() returns (timedOut: bool, ghost woken: MuxState)
      requires Valid() && Accounted() && Named() && view.sender == LoopHead && !transportError
      modifies this`txQueues, this`numPosted, this`transportError, this`closed, this`waits, this`view, this`horizon
      ensures waits == old(waits) + (if old(numPosted == numSent) then [timedOut] else [])
      ensures Valid() && Accounted() && view.sender == Passing(txQueues.Keys)
      ensures OthersDid(old(view), woken)
      ensures old(numPosted != numSent) ==> woken == old(view) && !timedOut && horizon == old(horizon)
      ensures old(numPosted == numSent) ==> transportError || horizon < old(horizon)
      ensures view.posted == woken.posted + (if timedOut then [HEART_BEAT_PACKET] else [])
      ensures view.popped == woken.popped && view.wire == woken.wire
    {
      timedOut, woken := false, view;
      if numPosted == numSent {
        Do(Sleep);
        timedOut := WaitFor();
        woken := view;
        if timedOut {
          SendControlMessage(HEART_BEAT);
        }
        Do(Wake(timedOut));
      } else {
        Do(StartPass);
      }
    }

    /** What comes before the loop: Hello is posted and then, after whatever other threads post, the lock taken. */
    method SayHello()
      requires Valid() && Accounted() && Named() && view.sender == Unstarted
      modifies this`txQueues, this`numPosted, this`transportError, this`closed, this`view
      ensures Valid() && Accounted() && view.sender == LoopHead && old(view).posted + [HELLO_PACKET] <= view.posted
    {
      SendControlMessage(HELLO);
      Do(Greet);
      OtherThreads();
      Do(Acquire);
    }

    /**
     * The whole life of the send thread. When it ends, another thread has closed the muxer or a write has
     * failed; everything posted was
     * either sent, in order within its type, or is still queued; and the wire holds the frames of
     * the packets sent, the last one possibly damaged. Only a packet of the invalid type kills it.
     */
    method SendLoop() returns (alive: bool)
      requires Valid() && Accounted() && Named() && view.sender == Unstarted
      modifies this`txQueues, this`numPosted, this`numSent, this`transportError, this`closed, this`waits, this`view, this`horizon, transport
      ensures Valid() && Accounted() && (alive ==> (closed || errorsBefore < transport.errors) && view.sender == Exited)
      ensures !alive ==> view.sender == Crashed && Queue(txQueues, INVALID_PACKET) != []
      ensures old(view).posted + [HELLO_PACKET] <= view.posted
      ensures forall t :: OfType(view.posted, t) == OfType(view.popped, t) + Queue(txQueues, t)
      ensures transport.wire == EncodeAll(Whole(view)) + Current(view)
    {
      SayHello();
      alive := true;
      while alive && transportError == false
        invariant Valid() && Accounted() && Named() && view.sender == if alive then LoopHead else Crashed
        invariant old(view).posted + [HELLO_PACKET] <= view.posted
        invariant !alive ==> Queue(txQueues, INVALID_PACKET) != []
        decreases alive && !transportError, horizon, numPosted != numSent
      {
        var timedOut, woken := AwaitWork();
        var order;
        alive, order := SendPass();
        if alive {
          Drained(view);
        }
      }
      if alive {
        Do(Exit);
      }
      LoopOutcome(view);
    }
  }
}
