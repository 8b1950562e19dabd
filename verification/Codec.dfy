// The frame format shared by PacketMuxer::sendPacket and PacketDemuxer::receivePacket:
// type (4 bytes, big endian), payload size (4 bytes, big endian), payload.

module Codec {
  import opened Packets

  function Be32(n: int): (b: seq<Byte>)
    requires 0 <= n < U32
    ensures |b| == 4
  {
    [n / 0x100 / 0x100 / 0x100, n / 0x100 / 0x100 % 0x100, n / 0x100 % 0x100, n % 0x100]
  }

  function FromBe32(b: seq<Byte>): (n: int)
    requires |b| == 4
    ensures 0 <= n < U32
  {
    ((b[0] as int * 0x100 + b[1]) * 0x100 + b[2]) * 0x100 + b[3]
  }

  /** The number that four bytes stand for in network byte order. */
  function Weigh(a: int, b: int, c: int, d: int): int
  {
    a * 0x100_0000 + b * 0x1_0000 + c * 0x100 + d
  }

  lemma BigEndian(n: int)
    requires 0 <= n < U32
    ensures var b := Be32(n); Weigh(b[0], b[1], b[2], b[3]) == n
  {
  }

  lemma FromBigEndian(b: seq<Byte>)
    requires |b| == 4
    ensures FromBe32(b) == Weigh(b[0], b[1], b[2], b[3])
  {
  }

  lemma Be32Inverse(n: int)
    requires 0 <= n < U32
    ensures FromBe32(Be32(n)) == n
  {
  }

  lemma FromBe32Inverse(b: seq<Byte>)
    requires |b| == 4
    ensures Be32(FromBe32(b)) == b
  {
    var n := FromBe32(b);
    assert n / 0x100 == (b[0] as int * 0x100 + b[1]) * 0x100 + b[2];
    assert n / 0x100 / 0x100 == b[0] as int * 0x100 + b[1];
    assert n / 0x100 / 0x100 / 0x100 == b[0];
  }

  /** The three byte strings sendPacket writes, one writeBytes call each. The size field is a uint32_t. */
  function Field(p: Packet, i: nat): (f: seq<Byte>)
    requires i < 3
    ensures i < 2 ==> |f| == 4
  {
    if i == 0 then Be32(p.kind) else if i == 1 then Be32(|p.data| % U32) else p.data
  }

  function Encode(p: Packet): (b: seq<Byte>)
    ensures |b| == 8 + |p.data|
  {
    Field(p, 0) + Field(p, 1) + Field(p, 2)
  }

  function EncodeAll(ps: seq<Packet>): seq<Byte>
  {
    if ps == [] then [] else EncodeAll(ps[..|ps| - 1]) + Encode(ps[|ps| - 1])
  }

  /** What receivePacket makes of the bytes s that follow the previous frame. */
  datatype Parse = Partial | Oversize | Complete(packet: Packet, length: nat)

  function ParseFrame(s: seq<Byte>): (r: Parse)
    ensures r.Complete? ==> 8 <= r.length <= |s|
  {
    if |s| < 8 then Partial
    else
      var size := FromBe32(s[4..8]);
      if size >= INT_LIMIT then Oversize
      else if |s| < 8 + size then Partial
      else Complete(Packet(FromBe32(s[..4]), s[8..8 + size]), 8 + size)
  }

  /** The frames wholly contained in s, read from the front. */
  function Decode(s: seq<Byte>): seq<Packet>
    decreases |s|
  {
    match ParseFrame(s)
    case Complete(p, n) => [p] + Decode(s[n..])
    case _ => []
  }

  predicate AllBelow(ps: seq<Packet>, limit: int)
  {
    forall i :: 0 <= i < |ps| ==> |ps[i].data| < limit
  }

  lemma HeaderOf(p: Packet, rest: seq<Byte>)
    ensures var s := Encode(p) + rest;
            && FromBe32(s[..4]) == p.kind
            && FromBe32(s[4..8]) == |p.data| % U32
            && s[8..8 + |p.data|] == p.data
            && s[8 + |p.data|..] == rest
  {
    var s := Encode(p) + rest;
    assert s[..4] == Field(p, 0);
    assert s[4..8] == Field(p, 1);
    Be32Inverse(p.kind);
    Be32Inverse(|p.data| % U32);
  }

  /**
   * The bytes of a frame: the type, the payload size modulo 2^32, both most significant byte first,
   * and the payload.
   */
  lemma FrameLayout(p: Packet)
    ensures var b := Encode(p);
            && |b| == 8 + |p.data|
            && Weigh(b[0], b[1], b[2], b[3]) == p.kind
            && Weigh(b[4], b[5], b[6], b[7]) == |p.data| % 0x1_0000_0000
            && b[8..] == p.data
  {
    BigEndian(p.kind);
    BigEndian(|p.data| % U32);
    assert Encode(p)[..4] == Field(p, 0) && Encode(p)[4..8] == Field(p, 1);
  }

  /** What is read off a stream: the same layout, nothing before all of it is there, no size from 2^31 on. */
  lemma ParsedLayout(s: seq<Byte>)
    ensures |s| < 8 ==> ParseFrame(s) == Partial
    ensures |s| >= 8 ==>
              var size := Weigh(s[4], s[5], s[6], s[7]);
              && (ParseFrame(s) == Oversize <==> size >= 0x8000_0000)
              && (ParseFrame(s).Complete? <==> size < 0x8000_0000 && |s| >= 8 + size)
    ensures ParseFrame(s).Complete? ==>
              var p := ParseFrame(s).packet;
              && p.kind == Weigh(s[0], s[1], s[2], s[3])
              && ParseFrame(s).length == 8 + |p.data|
              && |p.data| == Weigh(s[4], s[5], s[6], s[7])
              && p.data == s[8..8 + |p.data|]
  {
    if |s| >= 8 {
      FromBigEndian(s[..4]);
      FromBigEndian(s[4..8]);
      assert s[4..8][0] == s[4] && s[4..8][1] == s[5] && s[4..8][2] == s[6] && s[4..8][3] == s[7];
    }
  }

  /** The two messages of a PacketMuxer, byte by byte. */
  lemma ControlFrames()
    ensures Encode(HELLO_PACKET) == [0, 0, 0, 1, 0, 0, 0, 1, 254]
    ensures Encode(HEART_BEAT_PACKET) == [0, 0, 0, 1, 0, 0, 0, 1, 0]
  {
  }

  /** A frame reads back as the packet it was made from exactly when the payload fits in an int. */
  lemma FrameRoundTrip(p: Packet, rest: seq<Byte>)
    ensures ParseFrame(Encode(p) + rest) == Complete(p, |Encode(p)|) <==> |p.data| < 0x8000_0000
    ensures 0x8000_0000 <= |p.data| < 0x1_0000_0000 ==> ParseFrame(Encode(p) + rest) == Oversize
  {
    HeaderOf(p, rest);
    var r := ParseFrame(Encode(p) + rest);
    if |p.data| >= INT_LIMIT && r.Complete? {
      assert |r.packet.data| == |p.data| % U32 < INT_LIMIT;
    }
  }

  /** Conversely, a parsed frame is the encoding of what was parsed. */
  lemma ParsedIsEncoded(s: seq<Byte>)
    requires ParseFrame(s).Complete?
    ensures var r := ParseFrame(s);
            s[..r.length] == Encode(r.packet) && |r.packet.data| < INT_LIMIT
  {
    var r := ParseFrame(s);
    FromBe32Inverse(s[..4]);
    FromBe32Inverse(s[4..8]);
    assert Field(r.packet, 0) == s[..4] && Field(r.packet, 1) == s[4..8];
    assert s[..r.length] == s[..4] + s[4..8] + s[8..r.length];
  }

  lemma EncodeAllAppend(ps: seq<Packet>, p: Packet)
    ensures EncodeAll(ps + [p]) == EncodeAll(ps) + Encode(p)
  {
    assert (ps + [p])[..|ps|] == ps;
  }

  lemma {:induction false} EncodeAllCons(p: Packet, ps: seq<Packet>)
    ensures EncodeAll([p] + ps) == Encode(p) + EncodeAll(ps)
  {
    if ps == [] {
      EncodeAllAppend([], p);
      assert [p] + ps == [] + [p];
    } else {
      var front, last := ps[..|ps| - 1], ps[|ps| - 1];
      assert [p] + ps == ([p] + front) + [last];
      EncodeAllAppend([p] + front, last);
      EncodeAllCons(p, front);
      Assoc(Encode(p), EncodeAll(front), Encode(last));
    }
  }

  lemma Peel(ps: seq<Packet>)
    requires ps != []
    ensures EncodeAll(ps) == Encode(ps[0]) + EncodeAll(ps[1..])
  {
    assert ps == [ps[0]] + ps[1..];
    EncodeAllCons(ps[0], ps[1..]);
  }

  lemma Assoc(a: seq<Byte>, b: seq<Byte>, c: seq<Byte>)
    ensures (a + b) + c == a + (b + c)
  {
  }

  lemma TakePast(a: seq<Byte>, b: seq<Byte>, k: nat)
    requires |a| <= k <= |a + b|
    ensures (a + b)[..k] == a + b[..k - |a|]
  {
  }

  lemma PrefixCons(a: seq<Packet>, b: seq<Packet>)
    requires a != [] && b != [] && a[0] == b[0] && a[1..] <= b[1..]
    ensures a <= b
  {
    assert a == [a[0]] + a[1..];
    assert b == [b[0]] + b[1..];
  }

  lemma DecodeCons(p: Packet, rest: seq<Byte>)
    requires |p.data| < INT_LIMIT
    ensures Decode(Encode(p) + rest) == [p] + Decode(rest)
  {
    FrameRoundTrip(p, rest);
    assert (Encode(p) + rest)[|Encode(p)|..] == rest;
  }

  lemma {:induction false} DecodeWhole(ps: seq<Packet>)
    requires AllBelow(ps, INT_LIMIT)
    ensures Decode(EncodeAll(ps)) == ps
  {
    if ps != [] {
      Peel(ps);
      DecodeCons(ps[0], EncodeAll(ps[1..]));
      DecodeWhole(ps[1..]);
    }
  }

  /** A proper prefix of one frame holds no frame. */
  lemma DecodeShort(p: Packet, k: nat)
    requires |p.data| < INT_LIMIT && k < |Encode(p)|
    ensures Decode(Encode(p)[..k]) == []
  {
    var s, whole := Encode(p)[..k], Encode(p) + [];
    if k >= 8 {
      HeaderOf(p, []);
      assert s[4..8] == whole[4..8];
    }
    assert ParseFrame(s) == Partial;
  }

  /** ds are the packets of ps whose frames end within the first k bytes. */
  ghost predicate WhollyIn(ds: seq<Packet>, ps: seq<Packet>, k: nat) {
    && ds <= ps
    && |EncodeAll(ds)| <= k
    && (|ds| < |ps| ==> k < |EncodeAll(ps[..|ds| + 1])|)
  }

  lemma WhollyInCons(p: Packet, ds: seq<Packet>, ps: seq<Packet>, k: nat)
    requires WhollyIn(ds, ps, k)
    ensures WhollyIn([p] + ds, [p] + ps, k + |Encode(p)|)
  {
    EncodeAllCons(p, ds);
    if |ds| < |ps| {
      assert ([p] + ps)[..|ds| + 2] == [p] + ps[..|ds| + 1];
      EncodeAllCons(p, ps[..|ds| + 1]);
    }
  }

  lemma NoneWhollyIn(p: Packet, ps: seq<Packet>, k: nat)
    requires |p.data| < INT_LIMIT && k < |Encode(p)| && k <= |EncodeAll([p] + ps)|
    ensures WhollyIn(Decode(EncodeAll([p] + ps)[..k]), [p] + ps, k)
  {
    EncodeAllCons(p, ps);
    assert EncodeAll([p] + ps)[..k] == Encode(p)[..k];
    DecodeShort(p, k);
    assert ([p] + ps)[..1] == [] + [p];
    EncodeAllAppend([], p);
  }

  lemma OneMoreDecoded(p: Packet, e: seq<Byte>, k: nat)
    requires |p.data| < INT_LIMIT && |Encode(p)| <= k <= |Encode(p) + e|
    ensures Decode((Encode(p) + e)[..k]) == [p] + Decode(e[..k - |Encode(p)|])
  {
    TakePast(Encode(p), e, k);
    DecodeCons(p, e[..k - |Encode(p)|]);
  }

  /**
   * Decoding any prefix of an encoded packet list yields the packets whose frames lie wholly
   * inside that prefix, and no others.
   */
  lemma {:induction false} DecodePrefix(ps: seq<Packet>, k: nat)
    requires AllBelow(ps, INT_LIMIT)
    requires k <= |EncodeAll(ps)|
    ensures WhollyIn(Decode(EncodeAll(ps)[..k]), ps, k)
    decreases |ps|
  {
    if ps != [] {
      var p, rest := ps[0], ps[1..];
      assert ps == [p] + rest;
      Peel(ps);
      if k < |Encode(p)| {
        NoneWhollyIn(p, rest, k);
      } else {
        var ds := Decode(EncodeAll(rest)[..k - |Encode(p)|]);
        DecodePrefix(rest, k - |Encode(p)|);
        WhollyInCons(p, ds, rest, k - |Encode(p)|);
        OneMoreDecoded(p, EncodeAll(rest), k);
      }
    }
  }

  lemma SameSizes(p: Packet, s: seq<Byte>, q: Packet, r: seq<Byte>)
    requires |p.data| < INT_LIMIT && |q.data| < U32
    requires Encode(p) + s == Encode(q) + r
    ensures p.kind == q.kind && |p.data| == |q.data|
  {
    HeaderOf(p, s);
    HeaderOf(q, r);
  }

  lemma SameFrame(p: Packet, s: seq<Byte>, q: Packet, r: seq<Byte>)
    requires |p.data| == |q.data| && p.kind == q.kind
    requires Encode(p) + s == Encode(q) + r
    ensures p == q && s == r
  {
    HeaderOf(p, s);
    HeaderOf(q, r);
  }

  lemma SameHead(p: Packet, s: seq<Byte>, q: Packet, r: seq<Byte>)
    requires |p.data| < INT_LIMIT && |q.data| < U32
    requires Encode(p) + s <= Encode(q) + r
    ensures p == q && s <= r
  {
    var rest := (Encode(q) + r)[|Encode(p) + s|..];
    Assoc(Encode(p), s, rest);
    SameSizes(p, s + rest, q, r);
    SameFrame(p, s + rest, q, r);
  }

  /**
   * Unique decodability across two lists: if whole frames a, then x, were taken off a stream that
   * starts as the encoding of b, then a is a prefix of b. Only the size field of b has to be exact.
   */
  lemma {:induction false} FramesArePrefix(a: seq<Packet>, x: seq<Byte>, b: seq<Packet>)
    requires AllBelow(a, INT_LIMIT) && AllBelow(b, U32)
    requires EncodeAll(a) + x <= EncodeAll(b)
    ensures a <= b
    decreases |a|
  {
    if a != [] {
      Peel(a);
      Assoc(Encode(a[0]), EncodeAll(a[1..]), x);
      assert b != [];
      Peel(b);
      SameHead(a[0], EncodeAll(a[1..]) + x, b[0], EncodeAll(b[1..]));
      FramesArePrefix(a[1..], x, b[1..]);
      PrefixCons(a, b);
    }
  }

  /** Encoding is injective on packets the receiver can hold. */
  lemma EncodingInjective(a: seq<Packet>, b: seq<Packet>)
    requires AllBelow(a, INT_LIMIT) && AllBelow(b, INT_LIMIT)
    requires EncodeAll(a) == EncodeAll(b)
    ensures a == b
  {
    assert EncodeAll(a) + [] == EncodeAll(b) == EncodeAll(b) + [];
    FramesArePrefix(a, [], b);
    FramesArePrefix(b, [], a);
  }

  lemma {:induction false} EncodeAllConcat(a: seq<Packet>, b: seq<Packet>)
    ensures EncodeAll(a + b) == EncodeAll(a) + EncodeAll(b)
  {
    if b == [] {
      assert a + b == a;
    } else {
      var front, last := b[..|b| - 1], b[|b| - 1];
      assert a + b == (a + front) + [last];
      EncodeAllAppend(a + front, last);
      EncodeAllConcat(a, front);
      Assoc(EncodeAll(a), EncodeAll(front), Encode(last));
    }
  }

  /** A prefix with the same encoding is the whole list. */
  lemma SameEncoding(a: seq<Packet>, b: seq<Packet>)
    requires a <= b && EncodeAll(a) == EncodeAll(b)
    ensures a == b
  {
    assert b == a + b[|a|..];
    EncodeAllConcat(a, b[|a|..]);
    SomeBytes(b[|a|..]);
  }

  lemma SomeBytes(ps: seq<Packet>)
    ensures ps != [] ==> 8 <= |EncodeAll(ps)|
  {
    if ps != [] {
      Peel(ps);
    }
  }

  ghost predicate ReadsHeaderOf(x: seq<Byte>, q: Packet)
  {
    8 <= |x| && FromBe32(x[..4]) == q.kind && FromBe32(x[4..8]) == |q.data|
  }

  lemma SameHeader(x: seq<Byte>, q: Packet, tail: seq<Byte>)
    requires x <= Encode(q) + tail && 8 <= |x| && |q.data| < U32
    ensures ReadsHeaderOf(x, q)
  {
    HeaderOf(q, tail);
    var s := Encode(q) + tail;
    assert x[..4] == s[..4] && x[4..8] == s[4..8];
  }

  /** If the reader is |a| frames into the encoding of b, what it reads next are the frames after those. */
  lemma NextFrames(a: seq<Packet>, x: seq<Byte>, b: seq<Packet>)
    requires a <= b && EncodeAll(a) + x <= EncodeAll(b)
    ensures x <= EncodeAll(b[|a|..])
  {
    var rest := b[|a|..];
    assert b == a + rest;
    EncodeAllConcat(a, rest);
    DropCommon(EncodeAll(a), x, EncodeAll(rest));
  }

  lemma DropCommon(a: seq<Byte>, x: seq<Byte>, y: seq<Byte>)
    requires a + x <= a + y
    ensures x <= y
  {
    assert forall i :: 0 <= i < |x| ==> x[i] == (a + x)[|a| + i] == (a + y)[|a| + i] == y[i];
  }

  /**
   * The size field of a 2^32-byte payload is 0, so the receiver takes the payload for more frames:
   * any packet f can be made to appear that nobody posted.
   */
  lemma WrappedSizeForges(p: Packet, f: Packet)
    requires |p.data| == U32 && |f.data| < INT_LIMIT && Encode(f) <= p.data
    ensures [Packet(p.kind, []), f] <= Decode(Encode(p))
  {
    var head := Packet(p.kind, []);
    var rest := p.data[|Encode(f)|..];
    assert Encode(p) == Encode(head) + p.data;
    DecodeCons(head, p.data);
    assert p.data == Encode(f) + rest;
    DecodeCons(f, rest);
  }
}
