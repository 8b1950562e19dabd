// Packets and the constants both ends agree on: src/ComPacket.h, src/IdManager.h
// and src/ControlMessage.h.

module Packets {
  datatype Option<+T> = None | Some(value: T)

  predicate Distinct<T(==)>(s: seq<T>)
  {
    forall i, j :: 0 <= i < j < |s| ==> s[i] != s[j]
  }

  type Byte = x: int | 0 <= x < 0x100

  // One past the largest uint32_t, and one past the largest int.
  const U32: int := 0x1_0000_0000
  const INT_LIMIT: int := 0x8000_0000

  type PacketType = x: int | 0 <= x < 0x1_0000_0000

  const INVALID_PACKET: PacketType := 0
  const CONTROL_PACKET: PacketType := 1

  // ControlMessage, carried in the first payload byte of a control packet.
  const HEART_BEAT: Byte := 0
  const HELLO: Byte := 254

  /** The value of a ComPacket: its type id and its payload bytes. */
  datatype Packet = Packet(kind: PacketType, data: seq<Byte>)

  const HELLO_PACKET: Packet := Packet(CONTROL_PACKET, [HELLO])
  const HEART_BEAT_PACKET: Packet := Packet(CONTROL_PACKET, [HEART_BEAT])

  /** The packets of one type, in order. */
  function OfType(ps: seq<Packet>, t: PacketType): (r: seq<Packet>)
  {
    if ps == [] then []
    else
      var last := ps[|ps| - 1];
      OfType(ps[..|ps| - 1], t) + (if last.kind == t then [last] else [])
  }

  lemma OfTypeAppend(ps: seq<Packet>, p: Packet, t: PacketType)
    ensures OfType(ps + [p], t) == OfType(ps, t) + (if p.kind == t then [p] else [])
  {
    assert (ps + [p])[..|ps|] == ps;
  }

  lemma OfTypeOne(p: Packet, t: PacketType)
    ensures OfType([p], t) == if p.kind == t then [p] else []
  {
    assert [p][..0] == [];
  }

  lemma {:induction false} OfTypeConcat(a: seq<Packet>, b: seq<Packet>, t: PacketType)
    ensures OfType(a + b, t) == OfType(a, t) + OfType(b, t)
  {
    if b == [] {
      assert a + b == a;
    } else {
      var front := b[..|b| - 1];
      assert a + b == (a + front) + [b[|b| - 1]];
      OfTypeAppend(a + front, b[|b| - 1], t);
      OfTypeConcat(a, front, t);
    }
  }

  lemma {:induction false} OfTypeMembers(ps: seq<Packet>, t: PacketType)
    ensures forall p :: p in OfType(ps, t) <==> p in ps && p.kind == t
  {
    if ps != [] {
      var front, last := ps[..|ps| - 1], ps[|ps| - 1];
      assert ps == front + [last];
      OfTypeMembers(front, t);
    }
  }

  /** Filtering by type keeps prefixes. */
  lemma OfTypePrefix(a: seq<Packet>, b: seq<Packet>, t: PacketType)
    requires a <= b
    ensures OfType(a, t) <= OfType(b, t)
  {
    assert b == a + b[|a|..];
    OfTypeConcat(a, b[|a|..], t);
  }

  /** A ComPacket object. Every move is a swap, as in src/ComPacket.h:45-55. */
  class ComPacket {
    var kind: PacketType
    var data: seq<Byte>

    function Value(): Packet
      reads this
    {
      Packet(kind, data)
    }

    constructor ()
      ensures Value() == Packet(INVALID_PACKET, [])
    {
      kind, data := INVALID_PACKET, [];
    }

    constructor Of(p: Packet)
      ensures Value() == p
    {
      kind, data := p.kind, p.data;
    }

    constructor MoveFrom(p: ComPacket)
      modifies p
      ensures Value() == old(p.Value())
      ensures p.Value() == Packet(INVALID_PACKET, [])
    {
      kind, data := INVALID_PACKET, [];
      new;
      kind, p.kind := p.kind, kind;
      data, p.data := p.data, data;
    }

    method MoveAssign(p: ComPacket)
      modifies this, p
      ensures Value() == old(p.Value()) && p.Value() == old(Value())
    {
      var k, d := kind, data;
      kind, data := p.kind, p.data;
      p.kind, p.data := k, d;
    }
  }

  /** std::swap on two packets: one move construction and two move assignments. */
  method Swap(a: ComPacket, b: ComPacket)
    requires a != b
    modifies a, b
    ensures a.Value() == old(b.Value()) && b.Value() == old(a.Value())
  {
    var tmp := new ComPacket.MoveFrom(a);
    a.MoveAssign(b);
    b.MoveAssign(tmp);
  }
}
