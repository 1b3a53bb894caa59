/** Minecraft's VarInt, strings, packets and handshake, as the activator writes
    and reads them (cmd/activator/minecraft.go). Readers take bytes off a stream
    that the rest of a connection is read from afterwards. */
module Minecraft {
  import opened Bytes
  import opened Text
  import Utf8

  type Contents = seq<Byte>

  const MAX_HANDSHAKE := 2048
  const STATUS := 1
  const LOGIN := 2
  const TRANSFER := 3

  // ---- 32-bit integers ----

  const TWO31 := 0x8000_0000
  const TWO32 := 0x1_0000_0000

  predicate Int32(v: int) { -TWO31 <= v < TWO31 }

  /** uint32(v) */
  function Unsigned(v: int): (u: nat)
    requires Int32(v)
    ensures u < TWO32
  {
    if v < 0 then v + TWO32 else v
  }

  /** int32(u) */
  function Signed(u: nat): (v: int)
    requires u < TWO32
    ensures Int32(v)
  {
    if u >= TWO31 then u - TWO32 else u
  }

  // ---- VarInt ----

  function VarBytes(u: nat): (b: Contents)
    ensures b != []
  {
    if u < 0x80 then [u as Byte] else [(u % 0x80 + 0x80) as Byte] + VarBytes(u / 0x80)
  }

  method AppendVarInt(b: Contents, v: int) returns (out: Contents)
    requires Int32(v)
    ensures out == b + VarBytes(Unsigned(v))
  {
    out := b;
    var u := Unsigned(v);
    while u >= 0x80
      invariant out + VarBytes(u) == b + VarBytes(Unsigned(v))
    {
      assert out + VarBytes(u) == out + [(u % 0x80 + 0x80) as Byte] + VarBytes(u / 0x80);
      out := out + [(u % 0x80 + 0x80) as Byte];
      u := u / 0x80;
    }
    out := out + [u as Byte];
  }

  datatype VarRead = Value(v: int, used: nat) | Short | TooLong

  /** The weight of the i-th group of seven bits. */
  function Weight(i: nat): (w: nat)
    ensures w > 0
  {
    if i == 0 then 1 else 0x80 * Weight(i - 1)
  }

  /** The value with the i-th group of seven bits put in: the groups do not
      overlap, and what does not fit 32 bits is lost. */
  function Put(value: nat, i: nat, c: Byte): (next: nat)
    ensures next < TWO32
  {
    (value + (c as nat % 0x80) * Weight(i)) % TWO32
  }

  /** A VarInt from its i-th byte on, with the value so far. */
  function ReadFrom(s: Contents, i: nat, value: nat): VarRead
    decreases 5 - i
  {
    if i >= 5 then TooLong
    else if s == [] then Short
    else
      var next := Put(value, i, s[0]);
      if s[0] < 0x80 then Value(Signed(next), i + 1) else ReadFrom(s[1..], i + 1, next)
  }

  function ReadVar(s: Contents): VarRead { ReadFrom(s, 0, 0) }

  lemma Weights()
    ensures Weight(0) == 1 && Weight(1) == 0x80 && Weight(2) == 0x4000 && Weight(3) == 0x20_0000
    ensures Weight(4) == 0x1000_0000 && Weight(5) == 0x8_0000_0000
  {
    assert Weight(1) == 0x80 * Weight(0);
    assert Weight(2) == 0x80 * Weight(1);
    assert Weight(3) == 0x80 * Weight(2);
    assert Weight(4) == 0x80 * Weight(3);
    assert Weight(5) == 0x80 * Weight(4);
  }

  /** The lowest seven bits of u and the rest, as groups of a value. */
  lemma Groups(u: nat, i: nat)
    requires i < 5
    ensures u * Weight(i) == (u % 0x80) * Weight(i) + (u / 0x80) * Weight(i + 1)
  {
    Weights();
    assert u == (u % 0x80) + 0x80 * (u / 0x80);
  }

  lemma {:induction false} VarLength(u: nat, k: nat)
    requires 0 < k && u < Weight(k)
    ensures |VarBytes(u)| <= k
    decreases k
  {
    assert Weight(1) == 0x80 * Weight(0) && Weight(k) == 0x80 * Weight(k - 1);
    if u >= 0x80 {
      assert u / 0x80 < Weight(k - 1);
      VarLength(u / 0x80, k - 1);
    }
  }

  lemma {:induction false} ReadsGroups(u: nat, tail: Contents, i: nat, value: nat)
    requires i < 5 && i + |VarBytes(u)| <= 5 && value + u * Weight(i) < TWO32
    ensures ReadFrom(VarBytes(u) + tail, i, value) == Value(Signed(value + u * Weight(i)), i + |VarBytes(u)|)
    decreases u
  {
    var s := VarBytes(u) + tail;
    Groups(u, i);
    assert (u / 0x80) * Weight(i + 1) >= 0;
    if u >= 0x80 {
      var rest := VarBytes(u / 0x80);
      assert s[1..] == rest + tail;
      assert (s[0] as nat) % 0x80 == u % 0x80;
      assert Put(value, i, s[0]) == value + (u % 0x80) * Weight(i);
      ReadsGroups(u / 0x80, tail, i + 1, Put(value, i, s[0]));
    } else {
      assert s[0] == u as Byte;
      assert u % 0x80 == u;
    }
  }

  /** Reading undoes appending for every 32-bit number, takes one to five bytes
      and leaves what comes after them. */
  lemma VarRoundTrip(v: int, tail: Contents)
    requires Int32(v)
    ensures var b := VarBytes(Unsigned(v));
      1 <= |b| <= 5 && ReadVar(b + tail) == Value(v, |b|) && (b + tail)[..|b|] == b && (b + tail)[|b|..] == tail
  {
    var u := Unsigned(v);
    Weights();
    VarLength(u, 5);
    assert u * Weight(0) == u;
    ReadsGroups(u, tail, 0, 0);
  }

  lemma {:induction false} ReadTakes(s: Contents, i: nat, value: nat)
    requires i <= 5
    ensures var r := ReadFrom(s, i, value);
      r.Value? ==> Int32(r.v) && i < r.used <= 5 && r.used - i <= |s|
    decreases 5 - i
  {
    if i < 5 && s != [] { ReadTakes(s[1..], i + 1, Put(value, i, s[0])); }
  }

  // ---- the stream ----

  class Stream {
    var rest: Contents

    constructor (bytes: Contents)
      ensures rest == bytes
    {
      rest := bytes;
    }

    method ReadByte() returns (c: Option<Byte>)
      modifies this
      ensures old(rest) == [] ==> c == None && rest == []
      ensures old(rest) != [] ==> c == Some(old(rest)[0]) && rest == old(rest)[1..]
    {
      if rest == [] {
        return None;
      }
      c := Some(rest[0]);
      rest := rest[1..];
    }

    /** io.ReadFull: all n bytes, or what there is and an error. */
    method ReadFull(n: nat) returns (b: Option<Contents>)
      modifies this
      ensures n <= |old(rest)| ==> b == Some(old(rest)[..n]) && rest == old(rest)[n..]
      ensures n > |old(rest)| ==> b == None && rest == []
    {
      if n > |rest| {
        rest := [];
        return None;
      }
      b := Some(rest[..n]);
      rest := rest[n..];
    }
  }

  method ReadVarInt(r: Stream) returns (read: VarRead, raw: Contents)
    modifies r
    ensures read == ReadVar(old(r.rest))
    ensures raw + r.rest == old(r.rest)
    ensures read.Value? ==> |raw| == read.used
  {
    hide Put;
    var value: nat := 0;
    raw := [];
    ghost var all := r.rest;
    for i := 0 to 5
      invariant raw + r.rest == all && |raw| == i
      invariant value < TWO32
      invariant ReadFrom(r.rest, i, value) == ReadVar(all)
    {
      ghost var before := r.rest;
      var c := r.ReadByte();
      if c.None? {
        return Short, raw;
      }
      assert before == [c.value] + r.rest;
      raw := raw + [c.value];
      value := Put(value, i, c.value);
      if c.value < 0x80 {
        return Value(Signed(value), i + 1), raw;
      }
    }
    return TooLong, raw;
  }

  // ---- strings and packets ----

  function VarInt(v: int): Contents
    requires Int32(v)
  {
    VarBytes(Unsigned(v))
  }

  /** appendString: the length in bytes, then the bytes. */
  function Counted(s: Contents): Contents
    requires |s| < TWO31
  {
    VarInt(|s|) + s
  }

  /** What readString finds at the front of s: the text and the bytes it took. */
  function ReadText(s: Contents, max: nat): Option<(Contents, nat)> {
    match ReadVar(s)
    case Value(n, used) =>
      if 0 <= n <= max && used <= |s| && n <= |s| - used && Utf8.Valid(s[used..used + n]) then Some((s[used..used + n], used + n))
      else None
    case _ => None
  }

  method ReadString(r: Stream, max: nat) returns (text: Option<Contents>)
    modifies r
    ensures var t := ReadText(old(r.rest), max);
      if t.Some? then t.value.1 <= |old(r.rest)| && text == Some(t.value.0) && r.rest == old(r.rest)[t.value.1..] else text == None
  {
    ghost var all := r.rest;
    var read, raw := ReadVarInt(r);
    if !read.Value? || read.v < 0 || read.v > max || read.v > |r.rest| {
      return None;
    }
    assert r.rest == all[read.used..] && all[read.used..][..read.v] == all[read.used..read.used + read.v];
    var b := r.ReadFull(read.v);
    if !Utf8.Valid(b.value) {
      return None;
    }
    assert r.rest == all[read.used + read.v..];
    return b;
  }

  lemma TextRoundTrip(s: Contents, max: nat, tail: Contents)
    requires Utf8.Valid(s) && |s| <= max && |s| < TWO31
    ensures ReadText(Counted(s) + tail, max) == Some((s, |Counted(s)|))
  {
    VarRoundTrip(|s|, s + tail);
    var k := |VarInt(|s|)|;
    assert Counted(s) + tail == VarInt(|s|) + (s + tail);
    assert (Counted(s) + tail)[k..k + |s|] == s;
  }

  /** writePacket */
  function Packet(id: int, body: Contents): Contents
    requires Int32(id) && |VarInt(id)| + |body| < TWO31
  {
    VarInt(|VarInt(id)| + |body|) + (VarInt(id) + body)
  }

  datatype Framed = Packed(payload: Contents, used: nat) | Refused

  /** A packet at the front of s whose first byte, its id, is admitted. */
  function Frame(s: Contents, max: nat, handshake: bool): Framed {
    match ReadVar(s)
    case Value(n, used) =>
      if 1 <= n <= max && used <= |s| && n <= |s| - used && (if handshake then s[used] == 0 else s[used] < 0x80) then
        Packed(s[used..used + n], used + n)
      else Refused
    case _ => Refused
  }

  /** readPacket and readHandshakePacket: the id is looked at before the rest is
      waited for. */
  method ReadPacket(r: Stream, max: nat, handshake: bool) returns (payload: Option<Contents>, raw: Contents)
    modifies r
    ensures var f := Frame(old(r.rest), max, handshake);
      if f.Packed? then payload == Some(f.payload) && raw + r.rest == old(r.rest) && |raw| == f.used else payload == None
  {
    ghost var all := r.rest;
    var read, length := ReadVarInt(r);
    raw := length;
    if !read.Value? || read.v < 1 || read.v > max {
      return None, raw;
    }
    assert all == length + r.rest;
    var first := r.ReadFull(1);
    if first.None? {
      return None, raw;
    }
    assert first.value[0] == all[read.used];
    if (handshake && first.value[0] != 0) || (!handshake && first.value[0] >= 0x80) {
      return None, raw;
    }
    var others := r.ReadFull(read.v - 1);
    if others.None? {
      return None, raw;
    }
    var whole := first.value + others.value;
    assert whole == all[read.used..read.used + read.v];
    raw := length + whole;
    assert raw + r.rest == all;
    return Some(whole), raw;
  }

  lemma PacketRoundTrip(id: int, body: Contents, max: nat, handshake: bool, tail: Contents)
    requires 0 <= id < 0x80 && (handshake ==> id == 0) && 1 + |body| <= max && 1 + |body| < TWO31
    ensures Frame(Packet(id, body) + tail, max, handshake) == Packed([id as Byte] + body, |Packet(id, body)|)
  {
    var data := VarInt(id) + body;
    assert VarInt(id) == [id as Byte];
    VarRoundTrip(|data|, data + tail);
    assert Packet(id, body) + tail == VarInt(|data|) + (data + tail);
    var k := |VarInt(|data|)|;
    assert (Packet(id, body) + tail)[k..k + |data|] == data;
  }

  // ---- the handshake ----

  datatype Handshake = Handshake(raw: Contents, protocol: int, address: Contents, port: nat, next: int)

  /** joining */
  predicate Joining(h: Handshake) { h.next == LOGIN || h.next == TRANSFER }

  predicate Sendable(h: Handshake) {
    && Int32(h.protocol) && Utf8.Valid(h.address) && |h.address| <= MAX_HANDSHAKE
    && h.port < 0x1_0000 && STATUS <= h.next <= TRANSFER
  }

  function BigEndian(port: nat): Contents
    requires port < 0x1_0000
  {
    [(port / 0x100) as Byte, (port % 0x100) as Byte]
  }

  function Body(h: Handshake): Contents
    requires Sendable(h)
  {
    VarInt(h.protocol) + (Counted(h.address) + (BigEndian(h.port) + VarInt(h.next)))
  }

  /** What a handshake's body says. */
  function Fields(raw: Contents, body: Contents): Option<Handshake> {
    match ReadVar(body)
    case Value(protocol, used) =>
      if used > |body| then None
      else
        var afterProtocol := body[used..];
        (match ReadText(afterProtocol, MAX_HANDSHAKE)
         case None => None
         case Some((address, length)) =>
           if length > |afterProtocol| || |afterProtocol| - length < 2 then None
           else Last(raw, protocol, address, afterProtocol[length..]))
    case _ => None
  }

  /** Its port and next state, which must end it. */
  function Last(raw: Contents, protocol: int, address: Contents, s: Contents): Option<Handshake>
    requires |s| >= 2
  {
    var port := s[0] as nat * 0x100 + s[1] as nat;
    match ReadVar(s[2..])
    case Value(next, used) =>
      if used == |s| - 2 && STATUS <= next <= TRANSFER then Some(Handshake(raw, protocol, address, port, next)) else None
    case _ => None
  }

  function HandshakeAt(s: Contents): Option<Handshake> {
    match Frame(s, MAX_HANDSHAKE, true)
    case Packed(payload, used) => if used <= |s| && payload != [] then Fields(s[..used], payload[1..]) else None
    case Refused => None
  }

  /** The part of readMCHandshake that reads the packet's body. */
  method ReadFields(raw: Contents, body: Contents) returns (h: Option<Handshake>)
    ensures h == Fields(raw, body)
  {
    hide ReadVar, ReadText;
    var br := new Stream(body);
    var protocol, praw := ReadVarInt(br);
    if !protocol.Value? {
      return None;
    }
    assert br.rest == body[protocol.used..];
    ghost var afterProtocol := br.rest;
    var address := ReadString(br, MAX_HANDSHAKE);
    if address.None? {
      return None;
    }
    ghost var s := br.rest;
    assert s == afterProtocol[ReadText(afterProtocol, MAX_HANDSHAKE).value.1..];
    var port := br.ReadFull(2);
    if port.None? {
      return None;
    }
    var number := port.value[0] as nat * 0x100 + port.value[1] as nat;
    var next, nraw := ReadVarInt(br);
    assert nraw + br.rest == s[2..];
    if !next.Value? || br.rest != [] || next.v < STATUS || next.v > TRANSFER {
      return None;
    }
    return Some(Handshake(raw, protocol.v, address.value, number, next.v));
  }

  /** readMCHandshake: whatever the bytes, a handshake that is taken is the one at
      the front of the stream, and raw is exactly what was taken off it. */
  method ReadMCHandshake(r: Stream) returns (h: Option<Handshake>)
    modifies r
    ensures h == HandshakeAt(old(r.rest))
    ensures h.Some? ==> h.value.raw + r.rest == old(r.rest)
  {
    hide Fields;
    ghost var all := r.rest;
    var payload, raw := ReadPacket(r, MAX_HANDSHAKE, true);
    if payload.None? {
      return None;
    }
    assert raw == all[..|raw|];
    FieldsKeepRaw(raw, payload.value[1..]);
    h := ReadFields(raw, payload.value[1..]);
  }

  lemma FieldsKeepRaw(raw: Contents, body: Contents)
    ensures Fields(raw, body).Some? ==> Fields(raw, body).value.raw == raw
  {
    hide ReadVar, ReadText;
  }

  lemma FieldsRoundTrip(h: Handshake, raw: Contents)
    requires Sendable(h)
    ensures Fields(raw, Body(h)) == Some(h.(raw := raw))
  {
    var last := BigEndian(h.port) + VarInt(h.next);
    var middle := Counted(h.address) + last;
    VarRoundTrip(h.protocol, middle);
    TextRoundTrip(h.address, MAX_HANDSHAKE, last);
    VarRoundTrip(h.next, []);
    assert VarInt(h.next) + [] == VarInt(h.next);
    assert middle[|Counted(h.address)|..] == last;
    assert last[2..] == VarInt(h.next);
    assert Last(raw, h.protocol, h.address, last) == Some(h.(raw := raw));
  }

  /** A handshake that fits is read back field for field, and raw is the packet,
      to be replayed to the server byte for byte; what follows is left. */
  lemma HandshakeRoundTrip(h: Handshake, tail: Contents)
    requires Sendable(h) && 1 + |Body(h)| <= MAX_HANDSHAKE
    ensures HandshakeAt(Packet(0, Body(h)) + tail) == Some(h.(raw := Packet(0, Body(h))))
  {
    var body := Body(h);
    assert VarInt(0) == [0];
    PacketRoundTrip(0, body, MAX_HANDSHAKE, true, tail);
    var raw := Packet(0, body);
    assert (raw + tail)[..|raw|] == raw;
    assert ([0 as Byte] + body)[1..] == body;
    FieldsRoundTrip(h, raw);
  }
}
