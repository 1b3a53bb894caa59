/** Lines, splitting, trimming and ordering of text, as the line-based config
    formats, the listing and the port names use them. Text is a sequence of
    Unicode scalar values. */
module Text {

  datatype Option<+T> = None | Some(value: T)

  function Max(a: nat, b: nat): nat { if a < b then b else a }

  predicate AllAre(values: seq<string>, v: string) { forall x | x in values :: x == v }

  /** What Go's unicode.IsSpace accepts. */
  predicate IsSpace(c: char) {
    || c in {'\t', '\n', '\U{000B}', '\U{000C}', '\r', ' ', '\U{0085}', '\U{00A0}', '\U{1680}'}
    || '\U{2000}' <= c <= '\U{200A}'
    || c in {'\U{2028}', '\U{2029}', '\U{202F}', '\U{205F}', '\U{3000}'}
  }

  function TrimLeft(s: string): string {
    if s != "" && IsSpace(s[0]) then TrimLeft(s[1..]) else s
  }

  function TrimRight(s: string): string {
    if s != "" && IsSpace(s[|s| - 1]) then TrimRight(s[..|s| - 1]) else s
  }

  function TrimSpace(s: string): string { TrimRight(TrimLeft(s)) }

  /** Neither end of s is a space. */
  predicate Trimmed(s: string) {
    s != "" ==> !IsSpace(s[0]) && !IsSpace(s[|s| - 1])
  }

  lemma {:induction false} TrimRightKeeps(s: string)
    ensures TrimRight(s) <= s
    ensures TrimRight(s) != "" ==> !IsSpace(TrimRight(s)[|TrimRight(s)| - 1])
    ensures s != "" && !IsSpace(s[0]) ==> TrimRight(s) != ""
  {
    if s != "" && IsSpace(s[|s| - 1]) { TrimRightKeeps(s[..|s| - 1]); }
  }

  lemma {:induction false} TrimLeftKeeps(s: string)
    ensures |TrimLeft(s)| <= |s| && TrimLeft(s) == s[|s| - |TrimLeft(s)|..]
    ensures TrimLeft(s) != "" ==> !IsSpace(TrimLeft(s)[0])
  {
    if s != "" && IsSpace(s[0]) { TrimLeftKeeps(s[1..]); }
  }

  /** Trimming leaves a trimmed piece of the text, whose first character is the
      text's own when that is no space. */
  lemma TrimSpaceTrims(s: string)
    ensures Trimmed(TrimSpace(s))
    ensures Trimmed(s) ==> TrimSpace(s) == s
    ensures s != "" && !IsSpace(s[0]) ==> TrimSpace(s) != "" && TrimSpace(s)[0] == s[0]
    ensures forall c | c in TrimSpace(s) :: c in s
  {
    TrimLeftKeeps(s);
    TrimRightKeeps(TrimLeft(s));
    var t := TrimLeft(s);
    var u := TrimRight(t);
    assert u != "" ==> u[0] == t[0];
    forall c | c in u ensures c in s { assert c in t; }
  }

  /** Nothing but blanks. */
  predicate Blank(s: string) { forall c | c in s :: IsSpace(c) }

  lemma {:induction false} TrimLeftOf(a: string, x: string)
    requires Blank(a) && (x == "" || !IsSpace(x[0]))
    ensures TrimLeft(a + x) == x
    decreases |a|
  {
    if a == "" {
      assert a + x == x;
    } else {
      assert a[0] in a && (a + x)[1..] == a[1..] + x;
      forall c | c in a[1..] ensures IsSpace(c) { assert c in a; }
      TrimLeftOf(a[1..], x);
    }
  }

  lemma {:induction false} TrimRightOf(x: string, b: string)
    requires Blank(b) && (x == "" || !IsSpace(x[|x| - 1]))
    ensures TrimRight(x + b) == x
    decreases |b|
  {
    if b == "" {
      assert x + b == x;
    } else {
      var c := b[..|b| - 1];
      assert b[|b| - 1] in b && (x + b)[..|x + b| - 1] == x + c;
      forall y | y in c ensures IsSpace(y) { assert y in b; }
      TrimRightOf(x, c);
    }
  }

  /** Trimming takes the blanks around a trimmed text. */
  lemma TrimOf(a: string, x: string, b: string)
    requires Blank(a) && Blank(b) && Trimmed(x)
    ensures TrimSpace(a + x + b) == x
  {
    hide TrimLeft, TrimRight, IsSpace;
    if x == "" {
      assert a + x + b == (a + b) + "";
      assert Blank(a + b);
      TrimLeftOf(a + b, "");
      assert "" + "" == "";
      TrimRightOf("", "");
    } else {
      assert a + x + b == a + (x + b);
      TrimLeftOf(a, x + b);
      TrimRightOf(x, b);
    }
  }

  lemma {:induction false} TrimLeftParts(s: string) returns (a: string)
    ensures Blank(a) && s == a + TrimLeft(s)
  {
    if s != "" && IsSpace(s[0]) {
      a := TrimLeftParts(s[1..]);
      a := [s[0]] + a;
    } else {
      a := "";
    }
  }

  lemma {:induction false} TrimRightParts(s: string) returns (b: string)
    ensures Blank(b) && s == TrimRight(s) + b
  {
    if s != "" && IsSpace(s[|s| - 1]) {
      b := TrimRightParts(s[..|s| - 1]);
      b := b + [s[|s| - 1]];
    } else {
      b := "";
    }
  }

  /** And what it takes is nothing but blanks. */
  lemma TrimParts(s: string) returns (a: string, b: string)
    ensures Blank(a) && Blank(b) && s == a + TrimSpace(s) + b && Trimmed(TrimSpace(s))
  {
    a := TrimLeftParts(s);
    b := TrimRightParts(TrimLeft(s));
    TrimSpaceTrims(s);
  }

  // ---- splitting and joining ----

  /** Where c first occurs in s, |s| when it does not. */
  function IndexOf(s: string, c: char): (i: nat)
    ensures i <= |s|
    ensures i < |s| ==> s[i] == c
    ensures forall k | 0 <= k < i :: s[k] != c
  {
    if s == "" || s[0] == c then 0 else IndexOf(s[1..], c) + 1
  }

  function Split(s: string, sep: char): (parts: seq<string>)
    ensures parts != []
    decreases |s|
  {
    var i := IndexOf(s, sep);
    if i == |s| then [s] else [s[..i]] + Split(s[i + 1..], sep)
  }

  function Join(parts: seq<string>, sep: char): string {
    if parts == [] then ""
    else if |parts| == 1 then parts[0]
    else parts[0] + [sep] + Join(parts[1..], sep)
  }

  lemma IndexOfAfter(a: string, c: char, b: string)
    requires c !in a
    ensures IndexOf(a + [c] + b, c) == |a| && IndexOf(a, c) == |a|
    ensures (a + [c] + b)[..|a|] == a && (a + [c] + b)[|a| + 1..] == b
  {
    var s := a + [c] + b;
    assert s[|a|] == c;
    forall k | 0 <= k < |a| ensures s[k] != c { assert a[k] in a; }
  }

  lemma SplitFirst(a: string, sep: char, b: string)
    requires sep !in a
    ensures Split(a + [sep] + b, sep) == [a] + Split(b, sep)
  {
    IndexOfAfter(a, sep, b);
  }

  lemma SplitOnly(a: string, sep: char)
    requires sep !in a
    ensures Split(a, sep) == [a]
  {
    IndexOfAfter(a, sep, "");
  }

  /** Splitting undoes joining, whatever the parts hold but the separator. */
  lemma {:induction false} SplitJoin(parts: seq<string>, sep: char)
    requires parts != []
    requires forall p | p in parts :: sep !in p
    ensures Split(Join(parts, sep), sep) == parts
  {
    hide IndexOf, Split;
    assert parts[0] in parts;
    if |parts| == 1 {
      SplitOnly(parts[0], sep);
    } else {
      forall p | p in parts[1..] ensures sep !in p { assert p in parts; }
      SplitJoin(parts[1..], sep);
      SplitFirst(parts[0], sep, Join(parts[1..], sep));
    }
  }

  /** Joining undoes splitting, and no part holds the separator. */
  lemma {:induction false} JoinSplit(s: string, sep: char)
    ensures Join(Split(s, sep), sep) == s
    ensures forall p | p in Split(s, sep) :: sep !in p
    ensures forall p, c | p in Split(s, sep) && c in p :: c in s
    decreases |s|
  {
    var i := IndexOf(s, sep);
    if i < |s| {
      var tail := Split(s[i + 1..], sep);
      JoinSplit(s[i + 1..], sep);
      assert Split(s, sep)[1..] == tail;
      assert s == s[..i] + [sep] + s[i + 1..];
      forall p, c | p in Split(s, sep) && c in p ensures c in s {
        if p != s[..i] { assert p in tail && c in s[i + 1..]; }
      }
      forall p | p in Split(s, sep) ensures sep !in p {
        if p != s[..i] { assert p in tail; }
      }
    }
  }

  // ---- the lines of a file ----

  /** s without any carriage return at its end. */
  function TrimReturns(s: string): (t: string)
    ensures t <= s
    ensures t != "" ==> t[|t| - 1] != '\r'
    ensures forall i | |t| <= i < |s| :: s[i] == '\r'
    ensures (s != "" ==> s[|s| - 1] != '\r') ==> t == s
  {
    if s != "" && s[|s| - 1] == '\r' then TrimReturns(s[..|s| - 1]) else s
  }

  /** A line a file can hold between two line breaks and read back unchanged. */
  predicate WholeLine(line: string) {
    '\n' !in line && (line != "" ==> line[|line| - 1] != '\r')
  }

  /** s without its last character when that is a line break. */
  function CutBreak(s: string): string {
    if s != "" && s[|s| - 1] == '\n' then s[..|s| - 1] else s
  }

  function Lines(s: string): seq<string> {
    if s == "" then [] else
      var parts := Split(CutBreak(s), '\n');
      seq(|parts|, i requires 0 <= i < |parts| => TrimReturns(parts[i]))
  }

  function Unlines(lines: seq<string>): string {
    if lines == [] then "" else Join(lines, '\n') + "\n"
  }

  lemma LinesAreWhole(s: string)
    ensures forall line | line in Lines(s) :: WholeLine(line)
  {
    if s != "" {
      var parts := Split(CutBreak(s), '\n');
      JoinSplit(CutBreak(s), '\n');
      forall line | line in Lines(s) ensures WholeLine(line) {
        var i :| 0 <= i < |parts| && line == TrimReturns(parts[i]);
        assert parts[i] in parts;
      }
    }
  }

  /** A file written from whole lines is read back as those lines. */
  lemma LinesOfUnlines(lines: seq<string>)
    requires forall line | line in lines :: WholeLine(line)
    ensures Lines(Unlines(lines)) == lines
  {
    if lines != [] {
      var s := Unlines(lines);
      assert CutBreak(s) == Join(lines, '\n');
      SplitJoin(lines, '\n');
      forall i | 0 <= i < |lines| ensures TrimReturns(lines[i]) == lines[i] {
        assert lines[i] in lines;
      }
    }
  }

  /** splitLines: the lines are cut, then each is rewritten in place without
      the carriage returns at its end. */
  method SplitLines(s: string) returns (lines: array<string>)
    ensures fresh(lines)
    ensures lines[..] == Lines(s)
  {
    if s == "" {
      lines := new string[0];
      return;
    }
    var parts := Split(CutBreak(s), '\n');
    lines := new string[|parts|](i requires 0 <= i < |parts| => parts[i]);
    for i := 0 to lines.Length
      invariant forall k | 0 <= k < i :: lines[k] == TrimReturns(parts[k])
      invariant forall k | i <= k < |parts| :: lines[k] == parts[k]
    {
      lines[i] := TrimReturns(lines[i]);
    }
  }

  /** oneLine: a line break in a value becomes a space. */
  function OneLine(s: string): (t: string)
    ensures |t| == |s| && '\n' !in t && '\r' !in t
    ensures forall i | 0 <= i < |s| :: t[i] == if s[i] == '\n' || s[i] == '\r' then ' ' else s[i]
  {
    seq(|s|, i requires 0 <= i < |s| => if s[i] == '\n' || s[i] == '\r' then ' ' else s[i])
  }

  // ---- order ----

  /** The order sort.Strings puts text in. */
  predicate Below(a: string, b: string) {
    if b == "" then false
    else if a == "" then true
    else a[0] < b[0] || (a[0] == b[0] && Below(a[1..], b[1..]))
  }

  lemma {:induction false} BelowIsTotal(a: string, b: string)
    ensures Below(a, b) || Below(b, a) || a == b
    ensures !(Below(a, b) && Below(b, a))
    ensures !Below(a, a)
    decreases |a|
  {
    if a != "" {
      BelowIsTotal(a[1..], a[1..]);
    }
    if a != "" && b != "" {
      BelowIsTotal(a[1..], b[1..]);
      if a[0] == b[0] && a[1..] == b[1..] {
        assert a == [a[0]] + a[1..] && b == [b[0]] + b[1..];
      }
    }
  }

  lemma {:induction false} BelowIsTransitive(a: string, b: string, c: string)
    requires Below(a, b) && Below(b, c)
    ensures Below(a, c)
  {
    if a != "" && a[0] == b[0] && b[0] == c[0] {
      BelowIsTransitive(a[1..], b[1..], c[1..]);
    }
  }

  /** A proper prefix sorts before the text it begins. */
  lemma {:induction false} PrefixIsBelow(a: string, b: string)
    requires a <= b && a != b
    ensures Below(a, b)
  {
    if a != "" {
      assert b[0] == a[0] && b == [b[0]] + b[1..] && a == [a[0]] + a[1..];
      PrefixIsBelow(a[1..], b[1..]);
    }
  }

  predicate Least(k: string, keys: set<string>) {
    k in keys && forall other | other in keys && other != k :: Below(k, other)
  }

  lemma {:induction false} LeastExists(keys: set<string>)
    requires keys != {}
    ensures exists k :: Least(k, keys)
    decreases |keys|
  {
    var k :| k in keys;
    var rest := keys - {k};
    if rest == {} {
      assert keys == {k};
      assert Least(k, keys);
    } else {
      LeastExists(rest);
      var m :| Least(m, rest);
      BelowIsTotal(k, m);
      if Below(m, k) {
        assert Least(m, keys);
      } else {
        forall other | other in keys && other != k ensures Below(k, other) {
          if other != m { BelowIsTransitive(k, m, other); }
        }
        assert Least(k, keys);
      }
    }
  }

  lemma LeastIsUnique(a: string, b: string, keys: set<string>)
    requires Least(a, keys) && Least(b, keys)
    ensures a == b
  {
    if a != b { BelowIsTotal(a, b); }
  }

  predicate StrictlySorted(ks: seq<string>) {
    forall i, j | 0 <= i < j < |ks| :: Below(ks[i], ks[j])
  }

  /** sortedKeys: the keys, each once, in order. */
  function Sorted(keys: set<string>): (ks: seq<string>)
    ensures forall k :: k in ks <==> k in keys
    ensures StrictlySorted(ks)
    decreases |keys|
  {
    if keys == {} then []
    else
      LeastExists(keys);
      assert forall a, b | Least(a, keys) && Least(b, keys) :: a == b by {
        forall a, b | Least(a, keys) && Least(b, keys) ensures a == b { LeastIsUnique(a, b, keys); }
      }
      var k :| Least(k, keys);
      [k] + Sorted(keys - {k})
  }

  /** There is one way to sort a set of keys. */
  lemma {:induction false} SortedIsUnique(ks: seq<string>, keys: set<string>)
    requires StrictlySorted(ks)
    requires forall k :: k in ks <==> k in keys
    ensures ks == Sorted(keys)
    decreases |ks|
  {
    if ks == [] {
      assert keys == {};
    } else {
      assert ks[0] in keys;
      assert Least(ks[0], keys);
      var k := Sorted(keys)[0];
      assert k in Sorted(keys);
      LeastIsUnique(k, ks[0], keys) by { assert Least(k, keys); }
      var rest := keys - {ks[0]};
      forall x ensures x in ks[1..] <==> x in rest {
        if x in ks[1..] {
          var i :| 0 < i < |ks| && x == ks[i];
          BelowIsTotal(ks[0], x);
        }
        if x in rest { assert x in ks; }
      }
      SortedIsUnique(ks[1..], rest);
    }
  }
}
