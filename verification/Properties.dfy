/** The key=value patcher of internal/configfile, used for properties files and
    for files of an unknown kind. */
module Properties {
  import opened Text

  // ---- keys as a template writes them ----

  /** A key some line of a file can hold. */
  predicate Holdable(key: string) {
    && key != "" && '\r' !in key && '\n' !in key && '=' !in key
    && key[0] != '#' && key[0] != '!' && key[0] != ';'
  }

  function Accepted(raw: seq<string>, vals: map<string, string>): map<string, string>
    requires forall k | k in raw :: k in vals
  {
    if raw == [] then map[]
    else
      var n := |raw| - 1;
      assert raw[n] in raw;
      assert forall x | x in raw[..n] :: x in raw;
      var key := TrimSpace(raw[n]);
      if Holdable(key) then Accepted(raw[..n], vals)[key := OneLine(vals[raw[n]])] else Accepted(raw[..n], vals)
  }

  function Keys(vals: map<string, string>): map<string, string> {
    Accepted(Sorted(vals.Keys), vals)
  }

  /** lineKeys: trimmed keys a line can hold, each with its value on one line. */
  method LineKeys(vals: map<string, string>) returns (out: map<string, string>)
    ensures out == Keys(vals)
  {
    hide Holdable, TrimSpace, StrictlySorted;
    var raw := Sorted(vals.Keys);
    out := map[];
    for i := 0 to |raw|
      invariant out == Accepted(raw[..i], vals)
    {
      assert raw[..i + 1][..i] == raw[..i];
      var key := TrimSpace(raw[i]);
      if Holdable(key) {
        out := out[key := OneLine(vals[raw[i]])];
      }
    }
    assert raw[..|raw|] == raw;
  }

  predicate Writable(keys: map<string, string>) {
    forall k | k in keys :: Holdable(k) && Trimmed(k) && '\n' !in keys[k] && '\r' !in keys[k]
  }

  lemma {:induction false} AcceptedIsWritable(raw: seq<string>, vals: map<string, string>)
    requires forall k | k in raw :: k in vals
    ensures Writable(Accepted(raw, vals))
  {
    if raw != [] {
      var n := |raw| - 1;
      assert raw[n] in raw;
      forall x | x in raw[..n] ensures x in vals { assert x in raw; }
      AcceptedIsWritable(raw[..n], vals);
      TrimSpaceTrims(raw[n]);
    }
  }

  /** The raw key whose value stands for a key: the last in order that trims to it. */
  lemma {:induction false} AcceptedValue(raw: seq<string>, vals: map<string, string>, key: string) returns (k: string)
    requires forall x | x in raw :: x in vals
    requires StrictlySorted(raw) && key in Accepted(raw, vals)
    ensures k in raw && TrimSpace(k) == key && Accepted(raw, vals)[key] == OneLine(vals[k])
    ensures forall other | other in raw && TrimSpace(other) == key && other != k :: Below(other, k)
  {
    hide TrimSpace, Holdable;
    var n := |raw| - 1;
    k := raw[n];
    assert k in raw;
    assert forall other :: other in raw <==> other in raw[..n] || other == raw[n];
    if TrimSpace(k) == key && Holdable(key) {
      forall other | other in raw && other != k ensures Below(other, k) {
        var i :| 0 <= i < n && raw[i] == other;
      }
    } else {
      k := AcceptedValue(raw[..n], vals, key);
      assert Holdable(key) by { AcceptedIsHoldable(raw[..n], vals, key); }
    }
  }

  lemma AcceptedIsHoldable(raw: seq<string>, vals: map<string, string>, key: string)
    requires forall x | x in raw :: x in vals
    requires key in Accepted(raw, vals)
    ensures Holdable(key)
  {
    AcceptedIsWritable(raw, vals);
  }

  lemma {:induction false} AcceptedKeys(raw: seq<string>, vals: map<string, string>, key: string)
    requires forall x | x in raw :: x in vals
    ensures key in Accepted(raw, vals) <==> Holdable(key) && exists k | k in raw :: TrimSpace(k) == key
  {
    hide TrimSpace, Holdable;
    if raw != [] {
      var n := |raw| - 1;
      assert raw[n] in raw;
      forall x | x in raw[..n] ensures x in vals { assert x in raw; }
      AcceptedKeys(raw[..n], vals, key);
      assert forall k :: k in raw <==> k in raw[..n] || k == raw[n];
    }
  }

  /** lineKeys keeps exactly the keys some line can hold, each with the value,
      on one line, of the last raw key in order that trims to it. */
  lemma KeysMeaning(vals: map<string, string>, key: string)
    ensures key in Keys(vals) <==> Holdable(key) && exists k | k in vals :: TrimSpace(k) == key
    ensures key in Keys(vals) ==>
              exists k | k in vals ::
                && TrimSpace(k) == key && Keys(vals)[key] == OneLine(vals[k])
                && forall other | other in vals && TrimSpace(other) == key && other != k :: Below(other, k)
    ensures Writable(Keys(vals))
  {
    hide TrimSpace, Holdable;
    var raw := Sorted(vals.Keys);
    AcceptedKeys(raw, vals, key);
    AcceptedIsWritable(raw, vals);
    if key in Keys(vals) {
      var k := AcceptedValue(raw, vals, key);
    }
  }

  // ---- lines as the scan reads them ----

  datatype Line = Plain | Assign(key: string, value: string)

  function Read(line: string): Line {
    var t := TrimSpace(line);
    if t == "" || t[0] == '#' || t[0] == '!' || t[0] == ';' then Plain
    else
      var j := IndexOf(line, '=');
      if j == |line| then Plain else Assign(TrimSpace(line[..j]), line[j + 1..])
  }

  function Format(k: string, v: string): string { k + "=" + v }

  lemma FormattedReadsBack(k: string, v: string)
    requires Holdable(k) && Trimmed(k) && '\n' !in v && '\r' !in v
    ensures Read(Format(k, v)) == Assign(k, v)
    ensures WholeLine(Format(k, v))
  {
    var line := Format(k, v);
    TrimSpaceTrims(line);
    TrimSpaceTrims(k);
    IndexOfAfter(k, '=', v);
    assert line == k + ['='] + v;
  }

  predicate Managed(line: string, keys: map<string, string>) {
    Read(line).Assign? && Read(line).key in keys
  }

  /** What the scan reads for k: the value of each of its lines, in order. */
  function Values(lines: seq<string>, k: string): seq<string> {
    if lines == [] then []
    else
      var l := Read(lines[0]);
      (if l.Assign? && l.key == k then [l.value] else []) + Values(lines[1..], k)
  }

  /** The lines the render must leave alone. */
  function Unmanaged(lines: seq<string>, keys: map<string, string>): seq<string> {
    if lines == [] then []
    else (if Managed(lines[0], keys) then [] else [lines[0]]) + Unmanaged(lines[1..], keys)
  }

  lemma {:induction false} ValuesConcat(a: seq<string>, b: seq<string>, k: string)
    ensures Values(a + b, k) == Values(a, k) + Values(b, k)
  {
    hide Read;
    if a == [] {
      assert a + b == b;
    } else {
      assert (a + b)[1..] == a[1..] + b;
      ValuesConcat(a[1..], b, k);
    }
  }

  lemma {:induction false} UnmanagedConcat(a: seq<string>, b: seq<string>, keys: map<string, string>)
    ensures Unmanaged(a + b, keys) == Unmanaged(a, keys) + Unmanaged(b, keys)
  {
    hide Managed;
    if a == [] {
      assert a + b == b;
    } else {
      assert (a + b)[1..] == a[1..] + b;
      UnmanagedConcat(a[1..], b, keys);
    }
  }

  // ---- the patcher ----

  function Rewritten(line: string, keys: map<string, string>): string {
    if Managed(line, keys) then Format(Read(line).key, keys[Read(line).key]) else line
  }

  function Rewrite(lines: seq<string>, keys: map<string, string>): (r: seq<string>)
  {
    seq(|lines|, i requires 0 <= i < |lines| => Rewritten(lines[i], keys))
  }

  function Present(lines: seq<string>): set<string> {
    set line | line in lines && Read(line).Assign? :: Read(line).key
  }

  function Appended(ks: seq<string>, keys: map<string, string>): seq<string>
    requires forall k | k in ks :: k in keys
  {
    seq(|ks|, i requires 0 <= i < |ks| => Format(ks[i], keys[ks[i]]))
  }

  function Patch(lines: seq<string>, keys: map<string, string>): seq<string> {
    Rewrite(lines, keys) + Appended(Sorted(keys.Keys - Present(lines)), keys)
  }

  /** The file applyLineKV leaves. */
  function Render(cur: string, vals: map<string, string>): string {
    Unlines(Patch(Lines(cur), Keys(vals)))
  }

  /** The scan of applyLineKV, rewriting lines where they stand. */
  method RewriteInPlace(lines: array<string>, keys: map<string, string>) returns (applied: set<string>)
    modifies lines
    ensures lines[..] == Rewrite(old(lines[..]), keys)
    ensures applied == keys.Keys * Present(old(lines[..]))
  {
    hide TrimSpace;
    applied := {};
    for i := 0 to lines.Length
      invariant forall k | 0 <= k < i :: lines[k] == Rewritten(old(lines[k]), keys)
      invariant forall k | i <= k < lines.Length :: lines[k] == old(lines[k])
      invariant applied == set j | 0 <= j < i && Managed(old(lines[j]), keys) :: Read(old(lines[j])).key
    {
      var line := lines[i];
      var t := TrimSpace(line);
      if t == "" || t[0] == '#' || t[0] == '!' || t[0] == ';' {
        continue;
      }
      var j := IndexOf(line, '=');
      if j == |line| {
        continue;
      }
      var key := TrimSpace(line[..j]);
      if key in keys {
        lines[i] := Format(key, keys[key]);
        applied := applied + {key};
      }
    }
    assert forall k | 0 <= k < lines.Length :: old(lines[..])[k] == old(lines[k]);
  }

  /** applyLineKV, from the file's text to the text it writes. */
  method ApplyLineKV(cur: string, vals: map<string, string>) returns (data: string)
    ensures data == Render(cur, vals)
  {
    hide StrictlySorted, Read;
    var keys := LineKeys(vals);
    var lines := SplitLines(cur);
    var applied := RewriteInPlace(lines, keys);
    var out := lines[..];
    assert keys.Keys - applied == keys.Keys - Present(Lines(cur));
    var rest := Sorted(keys.Keys - applied);
    ghost var body := out;
    for i := 0 to |rest|
      invariant out == body + Appended(rest, keys)[..i]
    {
      assert rest[i] in rest;
      out := out + [Format(rest[i], keys[rest[i]])];
    }
    assert Appended(rest, keys)[..|rest|] == Appended(rest, keys);
    data := Unlines(out);
  }

  // ---- what a render means ----

  lemma {:induction false} RewriteEffect(lines: seq<string>, keys: map<string, string>, k: string)
    requires Writable(keys)
    ensures Unmanaged(Rewrite(lines, keys), keys) == Unmanaged(lines, keys)
    ensures var before, after := Values(lines, k), Values(Rewrite(lines, keys), k);
      if k in keys then AllAre(after, keys[k]) && |after| == |before| else after == before
  {
    hide TrimSpace, Holdable;
    if lines != [] {
      RewriteEffect(lines[1..], keys, k);
      var r := Rewrite(lines, keys);
      assert r == [Rewritten(lines[0], keys)] + Rewrite(lines[1..], keys);
      assert r[1..] == Rewrite(lines[1..], keys);
      if Managed(lines[0], keys) {
        FormattedReadsBack(Read(lines[0]).key, keys[Read(lines[0]).key]);
      }
    }
  }

  lemma {:induction false} AppendedEffect(ks: seq<string>, keys: map<string, string>, k: string)
    requires Writable(keys) && StrictlySorted(ks) && forall x | x in ks :: x in keys
    ensures Unmanaged(Appended(ks, keys), keys) == []
    ensures Values(Appended(ks, keys), k) == if k in ks then [keys[k]] else []
  {
    hide Read, Below, Writable;
    if ks != [] {
      var head, rest := Format(ks[0], keys[ks[0]]), ks[1..];
      assert forall x | x in rest :: x in ks;
      AppendedEffect(rest, keys, k);
      assert Appended(ks, keys) == [head] + Appended(rest, keys);
      assert Read(head) == Assign(ks[0], keys[ks[0]]) by { FormattedAgain(ks[0], keys); }
      assert ks[0] !in rest by { if ks[0] in rest { BelowIsTotal(ks[0], ks[0]); } }
    }
  }

  lemma FormattedAgain(k: string, keys: map<string, string>)
    requires Writable(keys) && k in keys
    ensures Read(Format(k, keys[k])) == Assign(k, keys[k])
  {
    FormattedReadsBack(k, keys[k]);
  }

  lemma {:induction false} PresentIffValued(lines: seq<string>, k: string)
    ensures k in Present(lines) <==> Values(lines, k) != []
  {
    hide Read;
    if lines != [] {
      PresentIffValued(lines[1..], k);
      assert forall line :: line in lines <==> line == lines[0] || line in lines[1..];
    }
  }

  lemma PatchEffect(lines: seq<string>, keys: map<string, string>, k: string)
    requires Writable(keys)
    ensures Unmanaged(Patch(lines, keys), keys) == Unmanaged(lines, keys)
    ensures var before, after := Values(lines, k), Values(Patch(lines, keys), k);
      if k in keys then AllAre(after, keys[k]) && |after| == Max(1, |before|) else after == before
  {
    hide StrictlySorted, Rewrite, Appended, Values, Unmanaged, Writable, Read;
    var rest := Sorted(keys.Keys - Present(lines));
    RewriteEffect(lines, keys, k);
    AppendedEffect(rest, keys, k);
    PresentIffValued(lines, k);
    ValuesConcat(Rewrite(lines, keys), Appended(rest, keys), k);
    UnmanagedConcat(Rewrite(lines, keys), Appended(rest, keys), keys);
  }

  lemma PatchIsWhole(lines: seq<string>, keys: map<string, string>)
    requires Writable(keys) && forall line | line in lines :: WholeLine(line)
    ensures forall line | line in Patch(lines, keys) :: WholeLine(line)
  {
    hide Read, TrimSpace, WholeLine, Holdable, StrictlySorted;
    var rest := Sorted(keys.Keys - Present(lines));
    forall line | line in Patch(lines, keys) ensures WholeLine(line) {
      if line in Appended(rest, keys) {
        var i :| 0 <= i < |rest| && line == Format(rest[i], keys[rest[i]]);
        FormattedReadsBack(rest[i], keys[rest[i]]);
      } else {
        var i :| 0 <= i < |lines| && line == Rewritten(lines[i], keys);
        assert lines[i] in lines;
        if Managed(lines[i], keys) { FormattedReadsBack(Read(lines[i]).key, keys[Read(lines[i]).key]); }
      }
    }
  }

  /** Patching a properties file is exactly an override: read by the same scan,
      the written file gives every accepted key its value wherever the key
      occurred, or at one new line, gives every other key what it had, and keeps
      the other lines as they were, in order. */
  lemma RenderOverrides(cur: string, vals: map<string, string>, k: string)
    ensures var before, after, keys := Lines(cur), Lines(Render(cur, vals)), Keys(vals);
      && Unmanaged(after, keys) == Unmanaged(before, keys)
      && (k in keys ==> AllAre(Values(after, k), keys[k]) && |Values(after, k)| == Max(1, |Values(before, k)|))
      && (k !in keys ==> Values(after, k) == Values(before, k))
  {
    hide Patch, WholeLine, Writable, Values, Unmanaged, Accepted;
    LinesAreWhole(cur);
    AcceptedIsWritable(Sorted(vals.Keys), vals);
    PatchEffect(Lines(cur), Keys(vals), k);
    PatchIsWhole(Lines(cur), Keys(vals));
    LinesOfUnlines(Patch(Lines(cur), Keys(vals)));
  }

  lemma PatchTwice(lines: seq<string>, keys: map<string, string>)
    requires Writable(keys)
    ensures Patch(Patch(lines, keys), keys) == Patch(lines, keys)
  {
    hide Read, TrimSpace, Holdable, StrictlySorted, Below;
    var after := Patch(lines, keys);
    var rest := Sorted(keys.Keys - Present(lines));
    forall i | 0 <= i < |after| ensures Rewritten(after[i], keys) == after[i] {
      if i < |lines| {
        if Managed(lines[i], keys) { FormattedReadsBack(Read(lines[i]).key, keys[Read(lines[i]).key]); }
      } else {
        FormattedReadsBack(rest[i - |lines|], keys[rest[i - |lines|]]) by { assert rest[i - |lines|] in rest; }
      }
    }
    assert Rewrite(after, keys) == after;
    forall k | k in keys ensures k in Present(after) {
      PatchEffect(lines, keys, k);
      PresentIffValued(after, k);
    }
    assert Sorted(keys.Keys - Present(after)) == [] by { assert keys.Keys - Present(after) == {}; }
  }

  /** Rendering again with the same values leaves a properties file byte for
      byte as it is, whatever it held to begin with. */
  lemma RenderTwice(cur: string, vals: map<string, string>)
    ensures Render(Render(cur, vals), vals) == Render(cur, vals)
  {
    hide Patch, WholeLine, Writable, Accepted;
    LinesAreWhole(cur);
    AcceptedIsWritable(Sorted(vals.Keys), vals);
    PatchIsWhole(Lines(cur), Keys(vals));
    LinesOfUnlines(Patch(Lines(cur), Keys(vals)));
    PatchTwice(Lines(cur), Keys(vals));
  }
}
