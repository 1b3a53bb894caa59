/** UTF-8 as section 4 of RFC 3629 defines it, and the questions Go's
    unicode/utf8 answers about bytes. */
module Utf8 {
  import opened Bytes

  type Contents = seq<Byte>

  const UTF_MAX := 4

  /** How many bytes a character has that begins with this one; 0 when none does. */
  function Width(b: Byte): (w: nat)
    ensures w <= UTF_MAX
  {
    if b < 0x80 then 1
    else if 0xC2 <= b <= 0xDF then 2
    else if 0xE0 <= b <= 0xEF then 3
    else if 0xF0 <= b <= 0xF4 then 4
    else 0
  }

  predicate Tail(b: Byte) { 0x80 <= b <= 0xBF }

  /** What the second byte of a character may be after the first. */
  predicate Second(lead: Byte, b: Byte) {
    Tail(b)
    && (lead == 0xE0 ==> b >= 0xA0) && (lead == 0xED ==> b <= 0x9F)
    && (lead == 0xF0 ==> b >= 0x90) && (lead == 0xF4 ==> b <= 0x8F)
  }

  /** The bytes of one character. */
  predicate Character(s: Contents) {
    && s != [] && |s| == Width(s[0])
    && (|s| > 1 ==> Second(s[0], s[1]))
    && (forall i | 2 <= i < |s| :: Tail(s[i]))
  }

  predicate Valid(s: Contents)
    decreases |s|
  {
    s == [] || (var w := Width(s[0]); 0 < w <= |s| && Character(s[..w]) && Valid(s[w..]))
  }

  /** utf8.RuneStart */
  predicate RuneStart(b: Byte) { !Tail(b) }

  /** utf8.FullRune: whether s begins with a whole character; what cannot become
      one counts as a whole character of one byte. */
  predicate FullRune(s: Contents) {
    s != []
    && (|s| >= Width(s[0]) || (|s| > 1 && !Second(s[0], s[1])) || (|s| > 2 && !Tail(s[2])))
  }

  lemma {:induction false} ValidJoins(a: Contents, b: Contents)
    requires Valid(a) && Valid(b)
    ensures Valid(a + b)
    decreases |a|
  {
    if a == [] {
      assert a + b == b;
    } else {
      var w := Width(a[0]);
      ValidJoins(a[w..], b);
      assert (a + b)[..w] == a[..w] && (a + b)[w..] == a[w..] + b;
    }
  }

  /** What follows a valid beginning of a valid text is valid. */
  lemma {:induction false} ValidRest(a: Contents, b: Contents)
    requires Valid(a) && Valid(a + b)
    ensures Valid(b)
    decreases |a|
  {
    if a == [] {
      assert a + b == b;
    } else {
      var w := Width(a[0]);
      assert (a + b)[w..] == a[w..] + b;
      ValidRest(a[w..], b);
    }
  }
}
