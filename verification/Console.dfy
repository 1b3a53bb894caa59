/** The console's log stream cut between characters
    (internal/console/console.go). */
module Console {
  import opened Bytes
  import opened Utf8

  const BLOCK := 4096

  /** Nothing but continuations after i. */
  predicate TailsAfter(b: Contents, i: nat)
    requires i < |b|
  {
    forall j | i < j < |b| :: !RuneStart(b[j])
  }

  /** Where a character begins that the end of b belongs to. */
  predicate LastStart(b: Contents, i: nat) {
    i < |b| && |b| - i <= UTF_MAX && RuneStart(b[i]) && TailsAfter(b, i)
  }

  /** wholeRunes cuts b at its last character when that is not finished, and
      nowhere else. */
  ghost predicate IsCut(b: Contents, cut: nat) {
    && cut <= |b|
    && (cut < |b| ==> LastStart(b, cut) && !FullRune(b[cut..]))
    && (cut == |b| ==> forall i: nat | LastStart(b, i) :: FullRune(b[i..]))
  }

  method WholeRunes(buf: array<Byte>, n: nat) returns (cut: nat)
    requires n <= buf.Length
    ensures cut <= n && IsCut(buf[..n], cut)
    ensures n - cut < UTF_MAX
  {
    ghost var b := buf[..n];
    var i := n - 1;
    while i >= 0 && i >= n - UTF_MAX
      invariant -1 <= i < n
      invariant forall j | i < j < n :: !RuneStart(b[j])
    {
      if RuneStart(buf[i]) {
        assert LastStart(b, i) && buf[i..n] == b[i..];
        assert forall k: nat | LastStart(b, k) :: k == i;
        if !FullRune(buf[i..n]) {
          return i;
        }
        break;
      }
      i := i - 1;
    }
    return n;
  }

  /** b ends in a whole character that begins at i, or in the beginning of one. */
  predicate EndsWhole(b: Contents, i: nat) { LastStart(b, i) && FullRune(b[i..]) }

  predicate EndsCut(b: Contents, i: nat) { LastStart(b, i) && !FullRune(b[i..]) }

  /** The unfinished beginning of a character. */
  lemma Unfinished(b: Contents, c: Contents)
    requires Character(c) && b != [] && b <= c && |b| < |c|
    ensures EndsCut(b, 0)
  {
    assert b[0..] == b && b[0] == c[0];
    forall j | 0 < j < |b| ensures !RuneStart(b[j]) { assert b[j] == c[j]; }
  }

  lemma Finished(c: Contents)
    requires Character(c)
    ensures EndsWhole(c, 0) && Valid(c)
  {
    assert c[0..] == c && c[..|c|] == c && c[|c|..] == [];
  }

  lemma EndShifts(b: Contents, w: nat, i: nat)
    requires w <= |b| && (EndsWhole(b[w..], i) || EndsCut(b[w..], i))
    ensures EndsWhole(b[w..], i) ==> EndsWhole(b, w + i)
    ensures EndsCut(b[w..], i) ==> EndsCut(b, w + i)
  {
    assert b[w + i..] == b[w..][i..];
    forall j | w + i < j < |b| ensures !RuneStart(b[j]) { assert b[j] == b[w..][j - w]; }
  }

  lemma FirstCharacter(s: Contents)
    requires Valid(s) && s != []
    ensures var w := Width(s[0]); 0 < w <= |s| && Character(s[..w]) && |s[..w]| == w && Valid(s[w..])
  {}

  /** The last character of a beginning of a valid text, finished or not. */
  lemma {:induction false} Boundary(b: Contents, t: Contents) returns (p: nat)
    requires Valid(b + t)
    ensures p <= |b| && Valid(b[..p])
    ensures p < |b| ==> EndsCut(b, p)
    ensures p == |b| && b != [] ==> exists i: nat :: EndsWhole(b, i)
    decreases |b|
  {
    hide Character, EndsCut, EndsWhole, Valid, Width;
    if b == [] {
      p := 0;
      assert b[..0] == [] && b + t == t;
      NothingIsValid();
    } else {
      FirstCharacter(b + t);
      var w := Width((b + t)[0]);
      var c := (b + t)[..w];
      if |b| < w {
        p := 0;
        assert b <= c && b[..0] == [];
        Unfinished(b, c);
        NothingIsValid();
      } else {
        var rest := b[w..];
        assert b[..w] == c && (b + t)[w..] == rest + t && b == c + rest;
        Finished(c);
        var q := Boundary(rest, t);
        p := w + q;
        assert b[..p] == c + rest[..q];
        ValidJoins(c, rest[..q]);
        if rest == [] {
          assert b == c;
        } else if q < |rest| {
          EndShifts(b, w, q);
        } else {
          var i: nat :| EndsWhole(rest, i);
          EndShifts(b, w, i);
        }
      }
    }
  }

  lemma NothingIsValid()
    ensures Valid([])
  {}

  /** There is one place where the last character can begin. */
  lemma OneEnd(b: Contents, i: nat, j: nat)
    requires (EndsWhole(b, i) || EndsCut(b, i)) && (EndsWhole(b, j) || EndsCut(b, j))
    ensures i == j && i < |b| && !(EndsWhole(b, i) && EndsCut(b, i))
  {}

  lemma CutMeans(b: Contents, cut: nat)
    requires IsCut(b, cut)
    ensures if cut < |b| then EndsCut(b, cut) else cut == |b| && forall i: nat :: !EndsCut(b, i)
  {}

  /** A beginning of a valid text is cut into whole characters. */
  lemma CutIsValid(b: Contents, t: Contents, cut: nat)
    requires Valid(b + t) && IsCut(b, cut)
    ensures cut <= |b| && Valid(b[..cut])
  {
    hide Valid, EndsCut, EndsWhole, IsCut;
    var p := Boundary(b, t);
    CutMeans(b, cut);
    if p < |b| {
      if cut < |b| { OneEnd(b, p, cut); }
    } else if b != [] {
      var i: nat :| EndsWhole(b, i);
      if cut < |b| { OneEnd(b, i, cut); }
    }
  }

  function Concat(blocks: seq<Contents>): Contents {
    if blocks == [] then [] else Concat(blocks[..|blocks| - 1]) + blocks[|blocks| - 1]
  }

  lemma ConcatMore(blocks: seq<Contents>, i: nat)
    requires i < |blocks|
    ensures Concat(blocks[..i + 1]) == Concat(blocks[..i]) + blocks[i]
  {
    assert blocks[..i + 1][..i] == blocks[..i];
  }

  /** A read of the stream into the buffer behind what is held. */
  method ReadInto(buf: array<Byte>, held: nat, block: Contents)
    requires held + |block| <= buf.Length
    modifies buf
    ensures buf[..held + |block|] == old(buf[..held]) + block
  {
    for j := 0 to |block|
      invariant buf[..held] == old(buf[..held])
      invariant buf[held..held + j] == block[..j]
    {
      buf[held + j] := block[j];
    }
    assert buf[..held + |block|] == buf[..held] + buf[held..held + |block|];
  }

  /** copy(buf, buf[cut:n]) */
  method MoveDown(buf: array<Byte>, cut: nat, n: nat)
    requires cut <= n <= buf.Length
    modifies buf
    ensures buf[..n - cut] == old(buf[cut..n])
  {
    for j := 0 to n - cut
      invariant forall k | 0 <= k < j :: buf[k] == old(buf[cut + k])
      invariant forall k | cut + j <= k < n :: buf[k] == old(buf[k])
    {
      buf[j] := buf[cut + j];
    }
  }

  /** What was handed on is behind what was read by an unfinished character at
      most, after each read. */
  predicate KeepsUp(out: seq<Contents>, blocks: seq<Contents>, k: nat)
    requires k <= |out| && k <= |blocks|
  {
    |Concat(out[..k])| <= |Concat(blocks[..k])| <= |Concat(out[..k])| + 3
  }

  /** forwardText over the reads of a stream, the last of which comes with its
      end or an error. out holds what is handed on after each read, nothing
      where it emits nothing. */
  method ForwardText(blocks: seq<Contents>, failed: bool) returns (out: seq<Contents>, ok: bool)
    requires blocks != [] && forall r | r in blocks :: |r| <= BLOCK
    ensures |out| == |blocks| && ok == !failed
    ensures Concat(out) == Concat(blocks)
    ensures forall k | 0 <= k <= |blocks| :: KeepsUp(out, blocks, k)
    ensures Valid(Concat(blocks)) ==> forall c | c in out :: Valid(c)
  {
    hide Concat, Valid, IsCut;
    var buf := new Byte[BLOCK + UTF_MAX](_ => 0);
    var held: nat := 0;
    out := [];
    NothingYet(blocks);
    for i := 0 to |blocks|
      invariant |out| == i
      invariant held < UTF_MAX && (i == |blocks| ==> held == 0)
      invariant Concat(out) + buf[..held] == Concat(blocks[..i])
      invariant forall k | 0 <= k <= i :: KeepsUp(out, blocks, k)
      invariant Valid(Concat(blocks)) ==> Valid(Concat(out)) && forall c | c in out :: Valid(c)
    {
      var n := held + |blocks[i]|;
      ghost var sent := Concat(out);
      ConcatMore(blocks, i);
      assert sent + (buf[..held] + blocks[i]) == Concat(blocks[..i + 1]);
      ReadInto(buf, held, blocks[i]);
      ghost var b := buf[..n];
      var cut: nat := n;
      if i < |blocks| - 1 {
        cut := WholeRunes(buf, n);
      }
      if Valid(Concat(blocks)) {
        CutOfStream(blocks, i, sent, b, cut);
      }
      ghost var next := out + [b[..cut]];
      HandsOn(blocks, out, i, b, cut);
      assert buf[..cut] == b[..cut] && buf[cut..n] == b[cut..];
      out := out + [buf[..cut]];
      held := n - cut;
      MoveDown(buf, cut, n);
    }
    ok := !failed;
    assert blocks[..|blocks|] == blocks;
    assert Concat(out) + [] == Concat(out);
  }

  lemma NothingYet(blocks: seq<Contents>)
    ensures Concat([]) == Concat(blocks[..0]) == [] && KeepsUp([], blocks, 0) && Valid([])
  {
    assert blocks[..0] == [];
  }

  /** One piece more is handed on. */
  lemma HandsOn(blocks: seq<Contents>, out: seq<Contents>, i: nat, b: Contents, cut: nat)
    requires i == |out| < |blocks| && cut <= |b| <= cut + 3
    requires Concat(out) + b == Concat(blocks[..i + 1])
    requires forall k | 0 <= k <= i :: KeepsUp(out, blocks, k)
    ensures var next := out + [b[..cut]];
      && Concat(next) == Concat(out) + b[..cut]
      && Concat(next) + b[cut..] == Concat(blocks[..i + 1])
      && forall k | 0 <= k <= i + 1 :: KeepsUp(next, blocks, k)
  {
    var next := out + [b[..cut]];
    assert next[..i] == out && next[..i + 1] == next;
    assert Concat(next) == Concat(out) + b[..cut];
    assert b == b[..cut] + b[cut..];
    assert Concat(next) + b[cut..] == Concat(out) + b;
    forall k | 0 <= k <= i + 1 ensures KeepsUp(next, blocks, k) {
      if k <= i { assert next[..k] == out[..k] && KeepsUp(out, blocks, k); }
    }
  }

  /** Each piece of a valid stream is whole characters, and so is all that was
      handed on. */
  lemma CutOfStream(blocks: seq<Contents>, i: nat, sent: Contents, b: Contents, cut: nat)
    requires i < |blocks| && Valid(Concat(blocks)) && Valid(sent) && sent + b == Concat(blocks[..i + 1])
    requires cut <= |b| && if i < |blocks| - 1 then IsCut(b, cut) else cut == |b|
    ensures Valid(b[..cut]) && Valid(sent + b[..cut])
  {
    hide Valid, IsCut, Concat;
    var t := RestOf(blocks, i + 1);
    assert sent + b + t == sent + (b + t);
    ValidRest(sent, b + t);
    if i == |blocks| - 1 {
      assert blocks[..i + 1] == blocks;
      ValidRest(sent, b);
      assert b[..cut] == b;
    } else {
      CutIsValid(b, t, cut);
    }
    ValidJoins(sent, b[..cut]);
  }

  lemma {:induction false} RestOf(blocks: seq<Contents>, i: nat) returns (t: Contents)
    requires i <= |blocks|
    ensures Concat(blocks) == Concat(blocks[..i]) + t
    decreases |blocks| - i
  {
    if i == |blocks| {
      assert blocks[..i] == blocks;
      t := [];
    } else {
      ConcatMore(blocks, i);
      var u := RestOf(blocks, i + 1);
      t := blocks[i] + u;
      assert Concat(blocks[..i]) + blocks[i] + u == Concat(blocks[..i]) + t;
    }
  }
}
