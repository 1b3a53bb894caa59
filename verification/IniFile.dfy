/** The INI patcher of internal/configfile: the file's lines are rewritten in
    place, then the keys it lacked are spliced in at the end of their section. */
module IniFile {
  import opened Text

  /** A key with its section, "" for a top-level key. */
  datatype IniKey = IniKey(section: string, key: string)

  // ---- keys as a template writes them ----

  /** How many brackets s leaves open. */
  function Depth(s: string): int {
    if s == "" then 0
    else
      var last := s[|s| - 1];
      Depth(s[..|s| - 1]) + (if last == '[' then 1 else if last == ']' then -1 else 0)
  }

  function WithoutBrackets(s: string): string {
    if s == "" then ""
    else
      var last := s[|s| - 1];
      WithoutBrackets(s[..|s| - 1]) + (if last == '[' || last == ']' then "" else [last])
  }

  /** i is the first dot of s outside square brackets. */
  predicate SectionDot(s: string, i: nat) {
    && i < |s| && s[i] == '.' && Depth(s[..i]) <= 0
    && forall j | 0 <= j < i :: !(s[j] == '.' && Depth(s[..j]) <= 0)
  }

  /** r is what s names: the section ends at the first dot outside brackets, and
      a key without such a dot is top-level. */
  ghost predicate Names(s: string, r: IniKey) {
    if exists i: nat :: SectionDot(s, i) then
      exists i: nat ::
        && SectionDot(s, i)
        && r == IniKey(TrimSpace(WithoutBrackets(s[..i])), TrimSpace(WithoutBrackets(s[i + 1..])))
    else
      r == IniKey("", TrimSpace(WithoutBrackets(s)))
  }

  function SectionDotFrom(s: string, i: nat): (r: nat)
    requires i <= |s|
    ensures i <= r <= |s|
    ensures r < |s| ==> s[r] == '.' && Depth(s[..r]) <= 0
    ensures forall j | i <= j < r :: !(s[j] == '.' && Depth(s[..j]) <= 0)
    decreases |s| - i
  {
    if i == |s| || (s[i] == '.' && Depth(s[..i]) <= 0) then i else SectionDotFrom(s, i + 1)
  }

  function KeyOf(s: string): IniKey {
    var i := SectionDotFrom(s, 0);
    if i < |s| then IniKey(TrimSpace(WithoutBrackets(s[..i])), TrimSpace(WithoutBrackets(s[i + 1..])))
    else IniKey("", TrimSpace(WithoutBrackets(s)))
  }

  lemma KeyOfMeaning(s: string)
    ensures Names(s, KeyOf(s))
  {
    var i := SectionDotFrom(s, 0);
    assert i < |s| ==> SectionDot(s, i);
  }

  /** parseINIKey: one pass over s with a builder and a depth counter. */
  method ParseIniKey(s: string) returns (r: IniKey)
    ensures r == KeyOf(s)
  {
    var section := None;
    var b := "";
    var depth := 0;
    ghost var dot := SectionDotFrom(s, 0);
    for i := 0 to |s|
      invariant depth == Depth(s[..i])
      invariant section.None? <==> i <= dot
      invariant i <= dot ==> b == WithoutBrackets(s[..i])
      invariant dot < i ==> section == Some(WithoutBrackets(s[..dot])) && b == WithoutBrackets(s[dot + 1..i])
    {
      assert s[..i + 1][..i] == s[..i];
      assert dot < i ==> s[dot + 1..i + 1][..i - dot - 1] == s[dot + 1..i];
      if s[i] == '[' {
        depth := depth + 1;
      } else if s[i] == ']' {
        depth := depth - 1;
      } else if s[i] == '.' && depth <= 0 && section.None? {
        section := Some(b);
        b := "";
      } else {
        b := b + [s[i]];
      }
    }
    assert s[..|s|] == s;
    assert dot < |s| ==> s[dot + 1..|s|] == s[dot + 1..];
    r := if section.None? then IniKey("", TrimSpace(b)) else IniKey(TrimSpace(section.value), TrimSpace(b));
  }

  /** A key some line of a file can hold. */
  predicate Holdable(k: IniKey) {
    && k.key != ""
    && '=' !in k.key && '\r' !in k.key && '\n' !in k.key
    && k.key[0] != '#' && k.key[0] != ';' && k.key[0] != '['
    && '\r' !in k.section && '\n' !in k.section
  }

  predicate Tidy(k: IniKey) { Trimmed(k.section) && Trimmed(k.key) }

  /** The keys of the first n raw keys that a line can hold, with their values;
      of raw keys naming the same key the last one stands. */
  function Accepted(raw: seq<string>, vals: map<string, string>): map<IniKey, string>
    requires forall k | k in raw :: k in vals
  {
    if raw == [] then map[]
    else
      var n := |raw| - 1;
      var k := KeyOf(raw[n]);
      assert raw[n] in raw;
      assert forall x | x in raw[..n] :: x in raw;
      if Holdable(k) then Accepted(raw[..n], vals)[k := OneLine(vals[raw[n]])]
      else Accepted(raw[..n], vals)
  }

  function Keys(vals: map<string, string>): map<IniKey, string> {
    Accepted(Sorted(vals.Keys), vals)
  }

  method IniKeys(vals: map<string, string>) returns (out: map<IniKey, string>)
    ensures out == Keys(vals)
  {
    hide KeyOf, Holdable, StrictlySorted;
    var raw := Sorted(vals.Keys);
    out := map[];
    for i := 0 to |raw|
      invariant out == Accepted(raw[..i], vals)
    {
      var k := ParseIniKey(raw[i]);
      assert raw[..i + 1][..i] == raw[..i];
      if Holdable(k) {
        out := out[k := OneLine(vals[raw[i]])];
      }
    }
    assert raw[..|raw|] == raw;
  }

  /** A set of keys with the values a render writes. */
  predicate Writable(keys: map<IniKey, string>) {
    forall k | k in keys :: Holdable(k) && Tidy(k) && '\n' !in keys[k] && '\r' !in keys[k]
  }

  lemma {:induction false} AcceptedIsWritable(raw: seq<string>, vals: map<string, string>)
    requires forall k | k in raw :: k in vals
    ensures Writable(Accepted(raw, vals))
  {
    if raw != [] {
      var n := |raw| - 1;
      var k := KeyOf(raw[n]);
      assert raw[n] in raw;
      forall x | x in raw[..n] ensures x in vals { assert x in raw; }
      AcceptedIsWritable(raw[..n], vals);
      var dot := SectionDotFrom(raw[n], 0);
      TrimSpaceTrims("");
      if dot < |raw[n]| {
        TrimSpaceTrims(WithoutBrackets(raw[n][..dot]));
        TrimSpaceTrims(WithoutBrackets(raw[n][dot + 1..]));
      } else {
        TrimSpaceTrims(WithoutBrackets(raw[n]));
      }
    }
  }

  lemma {:induction false} AcceptedKeys(raw: seq<string>, vals: map<string, string>, ik: IniKey)
    requires forall k | k in raw :: k in vals
    ensures ik in Accepted(raw, vals) <==> Holdable(ik) && exists k | k in raw :: KeyOf(k) == ik
  {
    hide KeyOf, Holdable;
    if raw != [] {
      var n := |raw| - 1;
      assert raw[n] in raw;
      forall x | x in raw[..n] ensures x in vals { assert x in raw; }
      AcceptedKeys(raw[..n], vals, ik);
      assert forall k :: k in raw <==> k in raw[..n] || k == raw[n];
    }
  }

  lemma {:induction false} AcceptedValue(raw: seq<string>, vals: map<string, string>, ik: IniKey) returns (k: string)
    requires forall k | k in raw :: k in vals
    requires StrictlySorted(raw) && ik in Accepted(raw, vals)
    ensures k in raw && KeyOf(k) == ik && Accepted(raw, vals)[ik] == OneLine(vals[k])
    ensures forall other | other in raw && KeyOf(other) == ik && other != k :: Below(other, k)
  {
    var n := |raw| - 1;
    k := raw[n];
    assert k in raw;
    assert forall other :: other in raw <==> other in raw[..n] || other == raw[n];
    if KeyOf(k) == ik {
      assert Holdable(ik) by { AcceptedKeys(raw, vals, ik); }
      forall other | other in raw && other != k ensures Below(other, k) {
        var i :| 0 <= i < n && raw[i] == other;
      }
    } else {
      k := AcceptedValue(raw[..n], vals, ik);
    }
  }

  /** iniKeys keeps exactly the keys some line can hold, each with the value,
      on one line, of the last raw key in order that names it. */
  lemma KeysMeaning(vals: map<string, string>, ik: IniKey)
    ensures ik in Keys(vals) <==> Holdable(ik) && exists k | k in vals :: KeyOf(k) == ik
    ensures ik in Keys(vals) ==>
              exists k | k in vals ::
                && KeyOf(k) == ik && Keys(vals)[ik] == OneLine(vals[k])
                && forall other | other in vals && KeyOf(other) == ik && other != k :: Below(other, k)
    ensures Writable(Keys(vals))
  {
    var raw := Sorted(vals.Keys);
    AcceptedKeys(raw, vals, ik);
    AcceptedIsWritable(raw, vals);
    if ik in Keys(vals) {
      var k := AcceptedValue(raw, vals, ik);
    }
  }

  // ---- lines as the scan reads them ----

  datatype Line = Header(name: string) | Plain | Assign(key: string, value: string)

  /** iniSection: a line that is a section header, and its name. */
  function SectionOf(line: string): Option<string> {
    var t := TrimSpace(line);
    if |t| >= 2 && t[0] == '[' && t[|t| - 1] == ']' then Some(TrimSpace(t[1..|t| - 1])) else None
  }

  function Read(line: string): Line {
    var t := TrimSpace(line);
    if SectionOf(line).Some? then Header(SectionOf(line).value)
    else if t == "" || t[0] == '#' || t[0] == ';' then Plain
    else
      var j := IndexOf(line, '=');
      if j == |line| then Plain else Assign(TrimSpace(line[..j]), line[j + 1..])
  }

  function Format(k: string, v: string): string { k + "=" + v }

  lemma FormattedReadsBack(k: IniKey, v: string)
    requires Holdable(k) && Tidy(k) && '\n' !in v && '\r' !in v
    ensures Read(Format(k.key, v)) == Assign(k.key, v)
    ensures WholeLine(Format(k.key, v))
  {
    var line := Format(k.key, v);
    assert k.key[0] in k.key;
    TrimSpaceTrims(line);
    TrimSpaceTrims(k.key);
    IndexOfAfter(k.key, '=', v);
    assert line == k.key + ['='] + v;
  }

  lemma HeaderReadsBack(s: string)
    requires Trimmed(s) && '\r' !in s && '\n' !in s
    ensures Read("[" + s + "]") == Header(s)
    ensures WholeLine("[" + s + "]")
  {
    var line := "[" + s + "]";
    TrimSpaceTrims(line);
    TrimSpaceTrims(s);
    assert line[1..|line| - 1] == s;
  }

  lemma BlankReadsPlain(line: string)
    requires TrimSpace(line) == ""
    ensures Read(line) == Plain
  {}

  /** A line with the section it lies in; a header lies in its own. */
  datatype Placed = Placed(section: string, line: string)

  function SectionAfter(line: string, section: string): string {
    var l := Read(line);
    if l.Header? then l.name else section
  }

  /** The section the end of the lines lies in, from a given one. */
  function EndSection(lines: seq<string>, section: string): string {
    if lines == [] then section else EndSection(lines[1..], SectionAfter(lines[0], section))
  }

  function Place(lines: seq<string>, section: string): seq<Placed> {
    if lines == [] then []
    else
      var sec := SectionAfter(lines[0], section);
      [Placed(sec, lines[0])] + Place(lines[1..], sec)
  }

  lemma {:induction false} PlaceConcat(a: seq<string>, b: seq<string>, section: string)
    ensures Place(a + b, section) == Place(a, section) + Place(b, EndSection(a, section))
    ensures EndSection(a + b, section) == EndSection(b, EndSection(a, section))
  {
    if a == [] {
      assert a + b == b;
    } else {
      assert (a + b)[1..] == a[1..] + b;
      PlaceConcat(a[1..], b, SectionAfter(a[0], section));
    }
  }

  /** The key a placed line assigns. */
  function Assigned(p: Placed): Option<IniKey> {
    match Read(p.line)
    case Assign(key, _) => Some(IniKey(p.section, key))
    case _ => None
  }

  /** What the scan reads for k: the value of each of its lines, in order. */
  function Values(ps: seq<Placed>, k: IniKey): seq<string> {
    if ps == [] then []
    else (if Assigned(ps[0]) == Some(k) then [Read(ps[0].line).value] else []) + Values(ps[1..], k)
  }

  predicate Managed(p: Placed, keys: map<IniKey, string>) {
    Assigned(p).Some? && Assigned(p).value in keys
  }

  /** The lines the render must leave alone, with the section they lie in. */
  function Unmanaged(ps: seq<Placed>, keys: map<IniKey, string>): seq<Placed> {
    if ps == [] then []
    else (if Managed(ps[0], keys) then [] else [ps[0]]) + Unmanaged(ps[1..], keys)
  }

  /** Every managed line already reads as the render writes it. */
  predicate Rendered(ps: seq<Placed>, keys: map<IniKey, string>) {
    forall p | p in ps && Managed(p, keys) :: p.line == Format(Assigned(p).value.key, keys[Assigned(p).value])
  }

  lemma {:induction false} ValuesConcat(a: seq<Placed>, b: seq<Placed>, k: IniKey)
    ensures Values(a + b, k) == Values(a, k) + Values(b, k)
  {
    hide Read;
    if a == [] {
      assert a + b == b;
    } else {
      assert (a + b)[1..] == a[1..] + b;
      ValuesConcat(a[1..], b, k);
    }
  }

  lemma {:induction false} UnmanagedConcat(a: seq<Placed>, b: seq<Placed>, keys: map<IniKey, string>)
    ensures Unmanaged(a + b, keys) == Unmanaged(a, keys) + Unmanaged(b, keys)
  {
    hide Managed;
    if a == [] {
      assert a + b == b;
    } else {
      assert (a + b)[1..] == a[1..] + b;
      UnmanagedConcat(a[1..], b, keys);
    }
  }

  lemma RenderedConcat(a: seq<Placed>, b: seq<Placed>, keys: map<IniKey, string>)
    ensures Rendered(a + b, keys) <==> Rendered(a, keys) && Rendered(b, keys)
  {
    hide Read, Format;
    var all := a + b;
    forall p ensures p in all <==> p in a || p in b {}
  }

  // ---- the first pass: lines rewritten in place ----

  function Rewritten(line: string, section: string, keys: map<IniKey, string>): string {
    match Read(line)
    case Assign(key, _) =>
      if IniKey(section, key) in keys then Format(key, keys[IniKey(section, key)]) else line
    case _ => line
  }

  function Rewrite(lines: seq<string>, section: string, keys: map<IniKey, string>): (r: seq<string>)
    ensures |r| == |lines|
  {
    if lines == [] then []
    else [Rewritten(lines[0], section, keys)] + Rewrite(lines[1..], SectionAfter(lines[0], section), keys)
  }

  /** The keys the lines assign. */
  function Present(lines: seq<string>, section: string): set<IniKey> {
    if lines == [] then {}
    else
      var here := Assigned(Placed(section, lines[0]));
      (if here.Some? then {here.value} else {}) + Present(lines[1..], SectionAfter(lines[0], section))
  }

  lemma {:induction false} RewriteConcat(a: seq<string>, b: seq<string>, section: string, keys: map<IniKey, string>)
    ensures Rewrite(a + b, section, keys) == Rewrite(a, section, keys) + Rewrite(b, EndSection(a, section), keys)
    ensures Present(a + b, section) == Present(a, section) + Present(b, EndSection(a, section))
  {
    hide SectionAfter, Rewritten, Assigned;
    if a == [] {
      assert a + b == b;
    } else {
      assert (a + b)[1..] == a[1..] + b;
      RewriteConcat(a[1..], b, SectionAfter(a[0], section), keys);
    }
  }

  /** What rewriting one line does, as the scan sees it. */
  lemma RewrittenLine(line: string, section: string, keys: map<IniKey, string>)
    requires Writable(keys)
    ensures var r := Rewritten(line, section, keys);
      && SectionAfter(r, section) == SectionAfter(line, section)
      && Assigned(Placed(section, r)) == Assigned(Placed(section, line))
      && (Managed(Placed(section, line), keys) ==>
            var k := Assigned(Placed(section, line)).value;
            Read(r).value == keys[k] && r == Format(k.key, keys[k]))
      && (!Managed(Placed(section, line), keys) ==> r == line)
      && (WholeLine(line) ==> WholeLine(r))
  {
    var here := Assigned(Placed(section, line));
    if here.Some? && here.value in keys {
      FormattedReadsBack(here.value, keys[here.value]);
    }
  }

  lemma {:induction false} RewriteEffect(lines: seq<string>, section: string, keys: map<IniKey, string>)
    requires Writable(keys)
    ensures EndSection(Rewrite(lines, section, keys), section) == EndSection(lines, section)
    ensures Unmanaged(Place(Rewrite(lines, section, keys), section), keys) == Unmanaged(Place(lines, section), keys)
    ensures Rendered(Place(Rewrite(lines, section, keys), section), keys)
    ensures (forall line | line in lines :: WholeLine(line)) ==>
              forall line | line in Rewrite(lines, section, keys) :: WholeLine(line)
  {
    if lines != [] {
      var sec := SectionAfter(lines[0], section);
      RewriteEffect(lines[1..], sec, keys);
      RewrittenLine(lines[0], section, keys);
      var before, after := Place(lines, section), Place(Rewrite(lines, section, keys), section);
      assert before[1..] == Place(lines[1..], sec);
      assert Rewrite(lines, section, keys)[1..] == Rewrite(lines[1..], sec, keys);
      assert after[1..] == Place(Rewrite(lines[1..], sec, keys), sec);
      assert Assigned(after[0]) == Assigned(before[0]);
      assert forall p | p in after :: p == after[0] || p in after[1..];
      assert forall line | line in lines[1..] :: line in lines;
    }
  }

  lemma {:induction false} RewriteValues(lines: seq<string>, section: string, keys: map<IniKey, string>, k: IniKey)
    requires Writable(keys)
    ensures ValuesPatched(Values(Place(lines, section), k), Values(Place(Rewrite(lines, section, keys), section), k), k, keys)
  {
    if lines != [] {
      var sec := SectionAfter(lines[0], section);
      RewriteValues(lines[1..], sec, keys, k);
      RewrittenLine(lines[0], section, keys);
      var before, after := Place(lines, section), Place(Rewrite(lines, section, keys), section);
      assert before[1..] == Place(lines[1..], sec);
      assert Rewrite(lines, section, keys)[1..] == Rewrite(lines[1..], sec, keys);
      assert after[1..] == Place(Rewrite(lines[1..], sec, keys), sec);
      assert Assigned(after[0]) == Assigned(before[0]);
    }
  }

  /** A key's values after the rewrite: its new value wherever it occurred, the
      values it had when the render does not manage it. */
  predicate ValuesPatched(before: seq<string>, after: seq<string>, k: IniKey, keys: map<IniKey, string>) {
    if k in keys then |after| == |before| && forall i | 0 <= i < |after| :: after[i] == keys[k]
    else after == before
  }

  lemma {:induction false} PresentIffValued(lines: seq<string>, section: string, k: IniKey)
    ensures k in Present(lines, section) <==> Values(Place(lines, section), k) != []
  {
    if lines != [] {
      var sec := SectionAfter(lines[0], section);
      PresentIffValued(lines[1..], sec, k);
      assert Place(lines, section)[1..] == Place(lines[1..], sec);
    }
  }

  // ---- the second pass: missing keys spliced into their sections ----

  function KeysIn(ks: set<IniKey>, section: string): set<string> {
    set k | k in ks && k.section == section :: k.key
  }

  /** The lines that write the named keys of a section. */
  function Block(names: seq<string>, section: string, keys: map<IniKey, string>): seq<string>
    requires forall n | n in names :: IniKey(section, n) in keys
  {
    seq(|names|, i requires 0 <= i < |names| => Format(names[i], keys[IniKey(section, names[i])]))
  }

  /** The lines still to write, by section: each section's keys in order. */
  function Pending(missing: set<IniKey>, keys: map<IniKey, string>): map<string, seq<string>>
    requires missing <= keys.Keys
  {
    map s | s in (set k | k in missing :: k.section) :: Block(Sorted(KeysIn(missing, s)), s, keys)
  }

  /** How much of out there is up to its last line with content. */
  function ContentEnd(out: seq<string>): (n: nat)
    ensures n <= |out|
    ensures n > 0 ==> TrimSpace(out[n - 1]) != ""
    ensures forall i | n <= i < |out| :: TrimSpace(out[i]) == ""
  {
    if out != [] && TrimSpace(out[|out| - 1]) == "" then ContentEnd(out[..|out| - 1]) else |out|
  }

  function Insert(out: seq<string>, add: seq<string>): seq<string> {
    out[..ContentEnd(out)] + add + out[ContentEnd(out)..]
  }

  datatype Weave = Weave(current: string, out: seq<string>, pending: map<string, seq<string>>)

  function Flush(w: Weave): Weave {
    if w.current in w.pending then
      w.(out := Insert(w.out, w.pending[w.current]), pending := w.pending - {w.current})
    else w
  }

  function Woven(lines: seq<string>, pending: map<string, seq<string>>): Weave {
    if lines == [] then Weave("", [], pending)
    else
      var n := |lines| - 1;
      var w := Woven(lines[..n], pending);
      var sec := SectionOf(lines[n]);
      var f := if sec.Some? then Flush(w).(current := sec.value) else w;
      f.(out := f.out + [lines[n]])
  }

  function NewSections(sections: seq<string>, pending: map<string, seq<string>>): seq<string>
    requires forall s | s in sections :: s in pending
  {
    if sections == [] then []
    else
      var n := |sections| - 1;
      assert sections[n] in sections;
      assert forall s | s in sections[..n] :: s in sections;
      NewSections(sections[..n], pending) + ["[" + sections[n] + "]"] + pending[sections[n]]
  }

  function Missing(lines: seq<string>, keys: map<IniKey, string>): set<IniKey> {
    keys.Keys - Present(lines, "")
  }

  function Patch(lines: seq<string>, keys: map<IniKey, string>): seq<string> {
    var w := Flush(Woven(Rewrite(lines, "", keys), Pending(Missing(lines, keys), keys)));
    w.out + NewSections(Sorted(w.pending.Keys), w.pending)
  }

  /** The file applyINI leaves. */
  function Render(cur: string, vals: map<string, string>): string {
    Unlines(Patch(Lines(cur), Keys(vals)))
  }

  // ---- the patcher as the program runs it ----

  predicate ByKey(ks: seq<IniKey>) {
    && (forall i, j | 0 <= i < j < |ks| :: ks[i] != ks[j])
    && (forall i, j | 0 <= i < j < |ks| :: !Below(ks[j].key, ks[i].key))
  }

  lemma {:induction false} SmallestKeyExists(ks: set<IniKey>)
    requires ks != {}
    ensures exists k | k in ks :: forall other | other in ks :: !Below(other.key, k.key)
    decreases |ks|
  {
    var k :| k in ks;
    var rest := ks - {k};
    if rest == {} {
      assert ks == {k};
      BelowIsTotal(k.key, k.key);
    } else {
      SmallestKeyExists(rest);
      var m :| m in rest && forall other | other in rest :: !Below(other.key, m.key);
      BelowIsTotal(k.key, m.key);
      BelowIsTotal(k.key, k.key);
      if Below(k.key, m.key) {
        forall other | other in ks ensures !Below(other.key, k.key) {
          if Below(other.key, k.key) { BelowIsTransitive(other.key, k.key, m.key); }
        }
      } else {
        assert forall other | other in ks :: !Below(other.key, m.key);
      }
    }
  }

  /** The keys not applied, out of a map in any order, then sorted by key alone:
      keys of two sections that are spelled alike come in any order. */
  method Unapplied(missing: set<IniKey>) returns (ks: seq<IniKey>)
    ensures ByKey(ks)
    ensures forall k :: k in ks <==> k in missing
  {
    ks := [];
    var rest := missing;
    while rest != {}
      invariant ByKey(ks)
      invariant forall k :: k in missing <==> k in ks || k in rest
      invariant forall k | k in ks :: k !in rest && forall r | r in rest :: !Below(r.key, k.key)
    {
      SmallestKeyExists(rest);
      var k :| k in rest && forall other | other in rest :: !Below(other.key, k.key);
      ks := ks + [k];
      rest := rest - {k};
    }
  }

  /** The keys of one section, in the order they come. */
  function NamesOf(ks: seq<IniKey>, section: string): seq<string> {
    if ks == [] then []
    else
      var n := |ks| - 1;
      NamesOf(ks[..n], section) + (if ks[n].section == section then [ks[n].key] else [])
  }

  lemma {:induction false} NamesOfMembers(ks: seq<IniKey>, section: string)
    ensures forall n :: n in NamesOf(ks, section) <==> IniKey(section, n) in ks
    ensures ByKey(ks) ==> StrictlySorted(NamesOf(ks, section))
  {
    if ks != [] {
      var n := |ks| - 1;
      var before := NamesOf(ks[..n], section);
      NamesOfMembers(ks[..n], section);
      if ByKey(ks) && ks[n].section == section {
        forall i | 0 <= i < |before| ensures Below(before[i], ks[n].key) {
          assert before[i] in before;
          assert IniKey(section, before[i]) in ks[..n];
          var j :| 0 <= j < n && ks[j] == IniKey(section, before[i]);
          BelowIsTotal(before[i], ks[n].key);
        }
      }
    }
  }

  /** pending holds the lines of the keys that come from section s. */
  predicate Gathered(pending: map<string, seq<string>>, ks: seq<IniKey>, keys: map<IniKey, string>, s: string)
    requires forall k | k in ks :: k in keys
  {
    var names := NamesOf(ks, s);
    NamesOfMembers(ks, s);
    && (s in pending <==> names != [])
    && (s in pending ==> pending[s] == Block(names, s, keys))
  }

  lemma GatherOne(pending: map<string, seq<string>>, ks: seq<IniKey>, k: IniKey, keys: map<IniKey, string>, s: string)
    requires forall x | x in ks :: x in keys
    requires k in keys
    requires Gathered(pending, ks, keys, s)
    ensures Gathered(pending[k.section := (if k.section in pending then pending[k.section] else []) + [Format(k.key, keys[k])]],
                     ks + [k], keys, s)
  {
    NamesOfMembers(ks, s);
    NamesOfMembers(ks + [k], s);
    assert (ks + [k])[..|ks|] == ks;
    assert k == IniKey(k.section, k.key);
  }

  /** Whatever the order of the map and of the ties, the lines gathered by
      section are the same. */
  method Gather(unapplied: seq<IniKey>, keys: map<IniKey, string>) returns (pending: map<string, seq<string>>)
    requires ByKey(unapplied) && forall k | k in unapplied :: k in keys
    ensures (set k | k in unapplied) <= keys.Keys
    ensures pending == Pending((set k | k in unapplied), keys)
  {
    pending := map[];
    ghost var missing := set k | k in unapplied;
    for i := 0 to |unapplied|
      invariant forall k | k in unapplied[..i] :: k in keys
      invariant forall s :: Gathered(pending, unapplied[..i], keys, s)
    {
      var k := unapplied[i];
      ghost var was, next := pending, unapplied[..i + 1];
      assert next == unapplied[..i] + [k];
      var sofar := if k.section in pending then pending[k.section] else [];
      pending := pending[k.section := sofar + [Format(k.key, keys[k])]];
      forall s ensures Gathered(pending, next, keys, s) {
        GatherOne(was, unapplied[..i], k, keys, s);
      }
    }
    assert unapplied[..|unapplied|] == unapplied;
    forall s ensures NamesOf(unapplied, s) == Sorted(KeysIn(missing, s)) {
      NamesOfMembers(unapplied, s);
      SortedIsUnique(NamesOf(unapplied, s), KeysIn(missing, s));
    }
    GatheredIsPending(pending, unapplied, keys);
  }

  lemma GatheredIsPending(pending: map<string, seq<string>>, ks: seq<IniKey>, keys: map<IniKey, string>)
    requires forall k | k in ks :: k in keys
    requires forall s :: Gathered(pending, ks, keys, s)
    requires forall s :: NamesOf(ks, s) == Sorted(KeysIn((set k | k in ks), s))
    ensures pending == Pending((set k | k in ks), keys)
  {
    var p := Pending((set k | k in ks), keys);
    forall s ensures s in pending <==> s in p
      ensures s in p ==> pending[s] == p[s]
    {
      assert Gathered(pending, ks, keys, s);
      NamesOfMembers(ks, s);
      if s in p {
        var k :| k in ks && k.section == s;
        assert k == IniKey(s, k.key);
      }
      if s in pending {
        assert IniKey(s, NamesOf(ks, s)[0]) in ks by { assert NamesOf(ks, s)[0] in NamesOf(ks, s); }
      }
    }
  }

  lemma RewriteStep(lines: seq<string>, i: nat, keys: map<IniKey, string>)
    requires i < |lines|
    ensures var sec := EndSection(lines[..i], "");
      && EndSection(lines[..i + 1], "") == SectionAfter(lines[i], sec)
      && Rewrite(lines[..i + 1], "", keys) == Rewrite(lines[..i], "", keys) + [Rewritten(lines[i], sec, keys)]
      && Present(lines[..i + 1], "") == Present(lines[..i], "") +
           (var here := Assigned(Placed(sec, lines[i])); if here.Some? then {here.value} else {})
  {
    var sec := EndSection(lines[..i], "");
    assert lines[..i + 1] == lines[..i] + [lines[i]];
    RewriteConcat(lines[..i], [lines[i]], "", keys);
    PlaceConcat(lines[..i], [lines[i]], "");
    assert [lines[i]][1..] == [];
    assert Rewrite([lines[i]], sec, keys) == [Rewritten(lines[i], sec, keys)];
    assert EndSection([lines[i]], sec) == SectionAfter(lines[i], sec);
  }

  /** The scan of applyINI: each line that assigns a managed key is rewritten
      where it stands. */
  method RewriteInPlace(lines: array<string>, keys: map<IniKey, string>) returns (applied: set<IniKey>)
    modifies lines
    ensures lines[..] == Rewrite(old(lines[..]), "", keys)
    ensures applied == keys.Keys * Present(old(lines[..]), "")
  {
    hide TrimSpace;
    ghost var was := lines[..];
    applied := {};
    var current := "";
    for i := 0 to lines.Length
      invariant current == EndSection(was[..i], "")
      invariant applied == keys.Keys * Present(was[..i], "")
      invariant forall k | 0 <= k < i :: lines[k] == Rewrite(was[..i], "", keys)[k]
      invariant forall k | i <= k < lines.Length :: lines[k] == was[k]
    {
      var line := lines[i];
      RewriteStep(was, i, keys);
      var sec := SectionOf(line);
      if sec.Some? {
        current := sec.value;
      } else {
        var t := TrimSpace(line);
        if t != "" && t[0] != '#' && t[0] != ';' {
          var j := IndexOf(line, '=');
          if j < |line| {
            var k := IniKey(current, TrimSpace(line[..j]));
            if k in keys {
              lines[i] := Format(k.key, keys[k]);
              applied := applied + {k};
            }
          }
        }
      }
    }
    assert was[..lines.Length] == was;
  }

  lemma WovenStep(lines: seq<string>, i: nat, pending: map<string, seq<string>>)
    requires i < |lines|
    ensures var w, sec := Woven(lines[..i], pending), SectionOf(lines[i]);
      var f := if sec.Some? then Flush(w).(current := sec.value) else w;
      Woven(lines[..i + 1], pending) == f.(out := f.out + [lines[i]])
  {
    assert lines[..i + 1][..i] == lines[..i];
  }

  /** The second loop of applyINI: the lines copied out, each section's missing
      keys flushed where it ends. */
  method Splice(lines: array<string>, pending0: map<string, seq<string>>)
    returns (out: seq<string>, pending: map<string, seq<string>>)
    ensures var w := Flush(Woven(lines[..], pending0)); out == w.out && pending == w.pending
  {
    var current := "";
    out, pending := [], pending0;
    ghost var all := lines[..];
    for i := 0 to lines.Length
      invariant Weave(current, out, pending) == Woven(all[..i], pending0)
    {
      WovenStep(all, i, pending0);
      var sec := SectionOf(lines[i]);
      if sec.Some? {
        out, pending := FlushInto(current, out, pending);
        current := sec.value;
      }
      out := out + [lines[i]];
    }
    assert all[..lines.Length] == all;
    out, pending := FlushInto(current, out, pending);
  }

  /** The last loop of applyINI: the sections the file lacks, in order. */
  method AddSections(body: seq<string>, pending: map<string, seq<string>>) returns (out: seq<string>)
    ensures out == body + NewSections(Sorted(pending.Keys), pending)
  {
    hide StrictlySorted;
    var secs := Sorted(pending.Keys);
    out := body;
    for i := 0 to |secs|
      invariant out == body + NewSections(secs[..i], pending)
    {
      assert secs[..i + 1][..i] == secs[..i];
      out := out + ["[" + secs[i] + "]"];
      out := out + pending[secs[i]];
    }
    assert secs[..|secs|] == secs;
  }

  /** applyINI, from the file's text to the text it writes. */
  method ApplyIni(cur: string, vals: map<string, string>) returns (data: string)
    ensures data == Render(cur, vals)
  {
    var keys := IniKeys(vals);
    var lines := SplitLines(cur);
    var applied := RewriteInPlace(lines, keys);
    assert keys.Keys - applied == Missing(Lines(cur), keys);
    var unapplied := Unapplied(keys.Keys - applied);
    assert (set k | k in unapplied) == Missing(Lines(cur), keys);
    var pending := Gather(unapplied, keys);
    var out, rest := Splice(lines, pending);
    out := AddSections(out, rest);
    data := Unlines(out);
  }

  /** flush: the section's missing keys go after its last line with content,
      before its blank lines. */
  method FlushInto(current: string, out: seq<string>, pending: map<string, seq<string>>)
    returns (out': seq<string>, pending': map<string, seq<string>>)
    ensures Weave(current, out', pending') == Flush(Weave(current, out, pending))
  {
    if current !in pending {
      return out, pending;
    }
    var n := |out|;
    while n > 0 && TrimSpace(out[n - 1]) == ""
      invariant 0 <= n <= |out|
      invariant forall i | n <= i < |out| :: TrimSpace(out[i]) == ""
    {
      n := n - 1;
    }
    assert ContentEnd(out) == n;
    out' := out[..n] + pending[current] + out[n..];
    pending' := pending - {current};
  }
}
