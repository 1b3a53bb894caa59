/** The bytes of a VarInt and of a handshake, laid out one after the other: what
    is read is exactly what stands in them. */
module MinecraftWire {
  import opened Bytes
  import opened Text
  import opened Minecraft
  import Utf8

  // ---- a VarInt's bytes ----

  /** Groups of seven bits, the lowest first. */
  function Sum(b: Contents): nat { if b == [] then 0 else b[0] as nat % 128 + 128 * Sum(b[1..]) }

  /** One to five bytes, all but the last with the high bit set, whose groups are
      the number but for what 32 bits do not hold. */
  predicate VarOf(b: Contents, v: int) {
    && 1 <= |b| <= 5 && (forall i | 0 <= i < |b| - 1 :: b[i] >= 0x80) && b[|b| - 1] < 0x80
    && -0x8000_0000 <= v < 0x8000_0000 && (Sum(b) - v) % 0x1_0000_0000 == 0
  }

  /** The first byte without the high bit is the k-th. */
  predicate EndsAt(s: Contents, k: nat) {
    1 <= k <= |s| && s[k - 1] < 0x80 && forall i | 0 <= i < k - 1 :: s[i] >= 0x80
  }

  lemma ModStep(a: nat, x: nat)
    ensures (a % TWO32 + x) % TWO32 == (a + x) % TWO32
  {}

  lemma GroupUp(c: nat, rest: nat, w: nat, value: nat)
    ensures value + (c + 128 * rest) * w == value + c * w + rest * (128 * w)
  {}

  /** One group put in, and the rest to come. */
  lemma PutThen(value: nat, i: nat, c: Byte, rest: nat)
    ensures (Put(value, i, c) + rest * Weight(i + 1)) % TWO32 == (value + (c as nat % 128 + 128 * rest) * Weight(i)) % TWO32
  {
    var d := c as nat % 128;
    assert Weight(i + 1) == 128 * Weight(i);
    GroupUp(d, rest, Weight(i), value);
    ModStep(value + d * Weight(i), rest * (128 * Weight(i)));
  }

  lemma SumStep(s: Contents, k: nat)
    requires 0 < k <= |s|
    ensures Sum(s[..k]) == s[0] as nat % 128 + 128 * Sum(s[1..][..k - 1])
  {
    assert s[..k][0] == s[0] && s[..k][1..] == s[1..][..k - 1];
  }

  lemma NoGroups()
    ensures Sum([]) == 0
  {}

  lemma {:induction false} ReadsTo(s: Contents, i: nat, value: nat, k: nat)
    requires EndsAt(s, k) && i + k <= 5 && value < TWO32
    ensures ReadFrom(s, i, value) == Value(Signed((value + Sum(s[..k]) * Weight(i)) % TWO32), i + k)
    decreases k
  {
    hide Sum, Weight, Put, Signed;
    var rest, next := Sum(s[1..][..k - 1]), Put(value, i, s[0]);
    SumStep(s, k);
    PutThen(value, i, s[0], rest);
    if k == 1 {
      assert s[1..][..0] == [];
      NoGroups();
    } else {
      ReadsTo(s[1..], i + 1, next, k - 1);
    }
  }

  lemma {:induction false} ReadsOn(s: Contents, i: nat, value: nat)
    requires i <= 5 && forall j | 0 <= j < |s| && j < 5 - i :: s[j] >= 0x80
    ensures !ReadFrom(s, i, value).Value?
    decreases 5 - i
  {
    if i < 5 && s != [] {
      forall j | 0 <= j < |s[1..]| && j < 5 - (i + 1) ensures s[1..][j] >= 0x80 { assert s[1..][j] == s[j + 1]; }
      ReadsOn(s[1..], i + 1, Put(value, i, s[0]));
    }
  }

  lemma {:induction false} FirstEnd(s: Contents, n: nat) returns (k: nat)
    requires exists j :: 0 <= j < |s| && j < n && s[j] < 0x80
    ensures EndsAt(s, k) && k <= n
    decreases |s|
  {
    if s[0] < 0x80 {
      k := 1;
    } else {
      var j :| 0 <= j < |s| && j < n && s[j] < 0x80;
      assert s[1..][j - 1] == s[j];
      k := FirstEnd(s[1..], n - 1);
      forall i | 0 <= i < k ensures s[i] >= 0x80 { if i > 0 { assert s[1..][i - 1] == s[i]; } }
      k := k + 1;
    }
  }

  lemma SignedIs(u: nat, v: int)
    ensures v == Signed(u % TWO32) <==> -0x8000_0000 <= v < 0x8000_0000 && (u - v) % 0x1_0000_0000 == 0
  {}

  lemma VarEnds(s: Contents, v: int, n: nat)
    requires n <= |s| && VarOf(s[..n], v)
    ensures EndsAt(s, n) && n <= 5
  {
    hide Sum;
    var b := s[..n];
    assert b[n - 1] == s[n - 1] && forall i | 0 <= i < n - 1 :: b[i] == s[i];
  }

  lemma OneEnd(s: Contents, k: nat, n: nat)
    requires EndsAt(s, k) && EndsAt(s, n)
    ensures k == n
  {}

  lemma EndIsVar(s: Contents, v: int, k: nat)
    requires EndsAt(s, k) && k <= 5
    ensures v == Signed(Sum(s[..k]) % TWO32) <==> VarOf(s[..k], v)
  {
    hide Sum, Signed;
    SignedIs(Sum(s[..k]), v);
    var b := s[..k];
    assert b[k - 1] == s[k - 1] && forall i | 0 <= i < k - 1 :: b[i] == s[i];
  }

  /** A VarInt is read exactly where one stands. */
  lemma VarIsRead(s: Contents, v: int, n: nat)
    ensures ReadVar(s) == Value(v, n) <==> n <= |s| && VarOf(s[..n], v)
  {
    hide ReadFrom, Signed, Sum, VarOf, EndsAt;
    if n <= |s| && VarOf(s[..n], v) {
      VarEnds(s, v, n);
      ReadsToEnd(s, n);
      EndIsVar(s, v, n);
    }
    if ReadVar(s) == Value(v, n) {
      ReadHasEnd(s);
      var k := FirstEnd(s, 5);
      ReadsToEnd(s, k);
      EndFits(s, k);
      EndIsVar(s, v, k);
    }
  }

  lemma ReadsToEnd(s: Contents, k: nat)
    requires EndsAt(s, k) && k <= 5
    ensures ReadVar(s) == Value(Signed(Sum(s[..k]) % TWO32), k)
  {
    hide ReadFrom, Signed, Sum;
    ReadsTo(s, 0, 0, k);
    assert Sum(s[..k]) * Weight(0) == Sum(s[..k]);
  }

  lemma EndFits(s: Contents, k: nat)
    requires EndsAt(s, k)
    ensures k <= |s|
  {}

  lemma ReadHasEnd(s: Contents)
    requires ReadVar(s).Value?
    ensures exists j :: 0 <= j < |s| && j < 5 && s[j] < 0x80
  {
    hide ReadFrom;
    if forall j | 0 <= j < |s| && j < 5 :: s[j] >= 0x80 { ReadsOn(s, 0, 0); }
  }

  /** What is appended for a number is one, as short as can be. */
  lemma AppendedIsOne(v: int)
    requires Int32(v)
    ensures VarOf(VarInt(v), v)
  {
    hide ReadVar, VarBytes, VarOf;
    VarRoundTrip(v, []);
    VarIsRead(VarInt(v) + [], v, |VarInt(v)|);
    assert (VarInt(v) + [])[..|VarInt(v)|] == VarInt(v);
  }

  /** A VarInt with bytes after it. */
  lemma VarThen(b: Contents, v: int, more: Contents)
    requires VarOf(b, v)
    ensures ReadVar(b + more) == Value(v, |b|) && (b + more)[|b|..] == more
  {
    hide ReadVar, VarOf;
    assert (b + more)[..|b|] == b;
    VarIsRead(b + more, v, |b|);
  }

  /** And the other way round: what was read stands first. */
  lemma VarWas(s: Contents, v: int, n: nat) returns (b: Contents)
    requires ReadVar(s) == Value(v, n)
    ensures |b| == n && VarOf(b, v) && n <= |s| && s == b + s[n..]
  {
    hide ReadVar, VarOf;
    VarIsRead(s, v, n);
    b := s[..n];
  }

  // ---- a handshake's bytes ----

  /** The end of a handshake: two bytes of the port, the high one first, and the
      next state. */
  predicate EndOf(s: Contents, port: nat, next: int, b0: Byte, b1: Byte, n: Contents) {
    s == [b0, b1] + n && VarOf(n, next) && port == 256 * (b0 as nat) + b1 as nat && 1 <= next <= 3
  }

  /** Its body: the protocol, the address with its length before it, the end. */
  ghost predicate BodyOf(s: Contents, h: Handshake, p: Contents, a: Contents, last: Contents) {
    && s == p + (a + (h.address + last)) && VarOf(p, h.protocol) && VarOf(a, |h.address|)
    && |h.address| <= 2048 && Utf8.Valid(h.address)
    && exists b0, b1, n :: EndOf(last, h.port, h.next, b0, b1, n)
  }

  /** Its bytes: the length of what follows, an id of zero, the body. */
  ghost predicate BytesOf(raw: Contents, h: Handshake, l: Contents, body: Contents) {
    && raw == l + ([0] + body) && VarOf(l, 1 + |body|) && 1 + |body| <= 2048
    && exists p, a, last :: BodyOf(body, h, p, a, last)
  }

  lemma EndIsRead(raw: Contents, h: Handshake, s: Contents)
    requires |s| >= 2 && h.raw == raw
    ensures Last(raw, h.protocol, h.address, s) == Some(h) <==> exists b0, b1, n :: EndOf(s, h.port, h.next, b0, b1, n)
  {
    hide ReadVar, VarOf;
    assert s == [s[0], s[1]] + s[2..];
    if Last(raw, h.protocol, h.address, s) == Some(h) {
      var n := VarWas(s[2..], h.next, |s| - 2);
      assert s[2..][|s| - 2..] == [] && n == s[2..];
      assert EndOf(s, h.port, h.next, s[0], s[1], n);
    }
    if exists b0, b1, n :: EndOf(s, h.port, h.next, b0, b1, n) {
      var b0, b1, n :| EndOf(s, h.port, h.next, b0, b1, n);
      assert s[2..] == n && n + [] == n;
      VarThen(n, h.next, []);
    }
  }

  lemma EndHasTwo(s: Contents, port: nat, next: int, b0: Byte, b1: Byte, n: Contents)
    requires EndOf(s, port, next, b0, b1, n)
    ensures |s| >= 2
  {
    hide VarOf;
  }

  lemma BodyIsRead(raw: Contents, h: Handshake, body: Contents)
    requires h.raw == raw
    ensures Fields(raw, body) == Some(h) <==> exists p, a, last :: BodyOf(body, h, p, a, last)
  {
    hide ReadVar, VarOf, Last, Utf8.Valid, EndOf, ReadText;
    if Fields(raw, body) == Some(h) { FieldsWere(raw, h, body); }
    if exists p, a, last :: BodyOf(body, h, p, a, last) {
      var p, a, last :| BodyOf(body, h, p, a, last);
      FieldsAre(raw, h, body, p, a, last);
    }
  }

  lemma LastSays(raw: Contents, protocol: int, address: Contents, s: Contents)
    requires |s| >= 2 && Last(raw, protocol, address, s).Some?
    ensures var h := Last(raw, protocol, address, s).value; h.raw == raw && h.protocol == protocol && h.address == address
  {
    hide ReadVar;
  }

  lemma FieldsWere(raw: Contents, h: Handshake, body: Contents)
    requires h.raw == raw && Fields(raw, body) == Some(h)
    ensures exists p, a, last :: BodyOf(body, h, p, a, last)
  {
    hide ReadVar, VarOf, Last, Utf8.Valid, EndOf, ReadText;
    var protocol, used := ReadVar(body).v, ReadVar(body).used;
    var p := VarWas(body, protocol, used);
    var rest := body[used..];
    var address, length := ReadText(rest, MAX_HANDSHAKE).value.0, ReadText(rest, MAX_HANDSHAKE).value.1;
    var a := TextWas(rest, address, length);
    var last := rest[length..];
    LastSays(raw, protocol, address, last);
    EndIsRead(raw, h, last);
    assert rest == a + (address + last);
    assert BodyOf(body, h, p, a, last);
  }

  lemma TextWas(s: Contents, text: Contents, length: nat) returns (a: Contents)
    requires ReadText(s, MAX_HANDSHAKE) == Some((text, length))
    ensures VarOf(a, |text|) && |text| <= 2048 && Utf8.Valid(text)
    ensures length <= |s| && s == a + (text + s[length..])
  {
    hide ReadVar, VarOf, Utf8.Valid;
    var n, used := ReadVar(s).v, ReadVar(s).used;
    a := VarWas(s, n, used);
    assert s[used..] == s[used..used + n] + s[used + n..];
  }

  lemma TextStands(s: Contents, a: Contents, text: Contents, more: Contents)
    requires s == a + (text + more)
    ensures |a| + |text| <= |s| && s[..|a|] == a && s[|a|..|a| + |text|] == text && s[|a| + |text|..] == more
  {}

  lemma LengthIs(s: Contents, a: Contents, n: int)
    requires |a| <= |s| && s[..|a|] == a && VarOf(a, n)
    ensures ReadVar(s) == Value(n, |a|)
  {
    hide ReadVar, VarOf;
    VarIsRead(s, n, |a|);
  }

  lemma ReadsText(s: Contents, text: Contents, used: nat)
    requires ReadVar(s) == Value(|text|, used) && used + |text| <= |s| && s[used..used + |text|] == text
    requires |text| <= 2048 && Utf8.Valid(text)
    ensures ReadText(s, MAX_HANDSHAKE) == Some((text, used + |text|))
  {
    hide ReadVar, Utf8.Valid;
  }

  lemma FieldsAre(raw: Contents, h: Handshake, body: Contents, p: Contents, a: Contents, last: Contents)
    requires h.raw == raw && BodyOf(body, h, p, a, last)
    ensures Fields(raw, body) == Some(h)
  {
    hide ReadVar, VarOf, Last, Utf8.Valid, EndOf, ReadText;
    var rest := a + (h.address + last);
    VarThen(p, h.protocol, rest);
    TextStands(rest, a, h.address, last);
    LengthIs(rest, a, |h.address|);
    ReadsText(rest, h.address, |a|);
    var b0, b1, n :| EndOf(last, h.port, h.next, b0, b1, n);
    EndHasTwo(last, h.port, h.next, b0, b1, n);
    EndIsRead(raw, h, last);
  }

  /** A handshake is taken exactly where its bytes stand at the front of the
      stream: with its length, the id zero, the protocol, the address, the port as
      256 times its first byte and its second, the next state, and nothing more. */
  lemma HandshakeIsItsBytes(s: Contents, h: Handshake)
    ensures HandshakeAt(s) == Some(h) <==> h.raw <= s && exists l, body :: BytesOf(h.raw, h, l, body)
  {
    hide ReadVar, VarOf, Fields, BodyOf;
    if HandshakeAt(s) == Some(h) { HandshakeWas(s, h); }
    if h.raw <= s && exists l, body :: BytesOf(h.raw, h, l, body) {
      var l, body :| BytesOf(h.raw, h, l, body);
      BodyIsRead(h.raw, h, body);
      var payload, more := [0 as Byte] + body, s[|h.raw|..];
      assert s == h.raw + more;
      assert s == l + (payload + more);
      VarThen(l, |payload|, payload + more);
      assert s[|l|..|l| + |payload|] == payload && s[|l|] == 0;
      assert s[..|l| + |payload|] == h.raw && payload[1..] == body;
    }
  }

  lemma HandshakeWas(s: Contents, h: Handshake)
    requires HandshakeAt(s) == Some(h)
    ensures h.raw <= s && exists l, body :: BytesOf(h.raw, h, l, body)
  {
    hide ReadVar, VarOf, Fields, BodyOf;
    var n, used := ReadVar(s).v, ReadVar(s).used;
    var l := VarWas(s, n, used);
    var payload := s[used..used + n];
    var body := payload[1..];
    var raw := s[..used + n];
    FieldsKeepRaw(raw, body);
    BodyIsRead(raw, h, body);
    assert raw == l + payload && payload == [0] + body;
    assert BytesOf(h.raw, h, l, body);
  }

  /** A packet is taken exactly where one stands: its length, which is admitted,
      and as many bytes, the first of them the id that is looked for. */
  lemma PacketIsItsBytes(s: Contents, max: nat, handshake: bool, payload: Contents, used: nat)
    ensures Frame(s, max, handshake) == Packed(payload, used) <==>
              && used <= |s| && 1 <= |payload| <= max && (if handshake then payload[0] == 0 else payload[0] < 0x80)
              && exists l :: VarOf(l, |payload|) && s[..used] == l + payload
  {
    hide ReadVar, VarOf;
    if Frame(s, max, handshake) == Packed(payload, used) {
      var n, at := ReadVar(s).v, ReadVar(s).used;
      var l := VarWas(s, n, at);
      assert s[..used] == l + payload;
    }
    if used <= |s| && 1 <= |payload| <= max && (if handshake then payload[0] == 0 else payload[0] < 0x80)
       && exists l :: VarOf(l, |payload|) && s[..used] == l + payload
    {
      var l :| VarOf(l, |payload|) && s[..used] == l + payload;
      var more := s[used..];
      assert s == s[..used] + more;
      assert s == l + (payload + more);
      VarThen(l, |payload|, payload + more);
      assert s[|l|] == payload[0] && s[|l|..|l| + |payload|] == payload;
    }
  }
}
