/** What patching an INI file means: it is exactly an override of what the same
    scan reads from the file, and doing it twice changes nothing more. */
module IniOverride {
  import opened Text
  import opened IniFile

  /** The sections the scan has come to: the top level, and every header's. */
  function Seen(lines: seq<string>): set<string> {
    if lines == [] then {""}
    else
      var n := |lines| - 1;
      Seen(lines[..n]) + (if SectionOf(lines[n]).Some? then {SectionOf(lines[n]).value} else {})
  }

  /** The headers of sections a render adds, as placed lines. */
  function Headers(sections: seq<string>): seq<Placed> {
    seq(|sections|, i requires 0 <= i < |sections| => Placed(sections[i], "[" + sections[i] + "]"))
  }

  predicate AllWhole(lines: seq<string>) { forall line | line in lines :: WholeLine(line) }

  // ---- pieces the second pass puts in ----

  predicate BlockOf(names: seq<string>, section: string, keys: map<IniKey, string>) {
    StrictlySorted(names) && forall n | n in names :: IniKey(section, n) in keys
  }

  function BlockValues(names: seq<string>, section: string, keys: map<IniKey, string>, k: IniKey): seq<string>
    requires BlockOf(names, section, keys)
  {
    if k.section == section && k.key in names then [keys[k]] else []
  }

  lemma {:induction false} BlockEffect(names: seq<string>, section: string, keys: map<IniKey, string>)
    requires Writable(keys) && BlockOf(names, section, keys)
    ensures var block := Block(names, section, keys);
      && EndSection(block, section) == section
      && Unmanaged(Place(block, section), keys) == []
      && Rendered(Place(block, section), keys)
      && AllWhole(block)
  {
    if names != [] {
      var ik := IniKey(section, names[0]);
      BlockCons(names, section, keys);
      BlockEffect(names[1..], section, keys);
      var block := Block(names, section, keys);
      RenderedConcat([Placed(section, block[0])], Place(block[1..], section), keys);
    }
  }

  lemma BlockCons(names: seq<string>, section: string, keys: map<IniKey, string>)
    requires Writable(keys) && BlockOf(names, section, keys) && names != []
    ensures BlockOf(names[1..], section, keys)
    ensures var block, ik := Block(names, section, keys), IniKey(section, names[0]);
      && block == [Format(names[0], keys[ik])] + Block(names[1..], section, keys)
      && WholeLine(block[0])
      && Read(block[0]) == Assign(names[0], keys[ik])
      && Place(block, section) == [Placed(section, block[0])] + Place(block[1..], section)
  {
    assert names[0] in names;
    FormattedReadsBack(IniKey(section, names[0]), keys[IniKey(section, names[0])]);
    assert forall n | n in names[1..] :: n in names;
  }

  lemma {:induction false} BlockEffectOn(names: seq<string>, section: string, keys: map<IniKey, string>, k: IniKey)
    requires Writable(keys) && BlockOf(names, section, keys)
    ensures Values(Place(Block(names, section, keys), section), k) == BlockValues(names, section, keys, k)
  {
    if names != [] {
      BlockCons(names, section, keys);
      BlockEffectOn(names[1..], section, keys, k);
      var block := Block(names, section, keys);
      ValuesConcat([Placed(section, block[0])], Place(block[1..], section), k);
      if names[0] in names[1..] { BelowIsTotal(names[0], names[0]); }
    }
  }

  lemma {:induction false} BlanksEffect(blanks: seq<string>, section: string)
    requires forall line | line in blanks :: TrimSpace(line) == ""
    ensures EndSection(blanks, section) == section
    ensures forall k :: Values(Place(blanks, section), k) == []
  {
    if blanks != [] {
      BlankReadsPlain(blanks[0]);
      BlanksEffect(blanks[1..], section);
      assert Place(blanks, section)[1..] == Place(blanks[1..], section);
    }
  }

  /** Where a block goes: between the content of the last section and its blanks. */
  lemma InsertPlaces(out: seq<string>, block: seq<string>, section: string) returns (a: seq<Placed>, blanks: seq<Placed>)
    requires section == EndSection(out, "") == EndSection(block, section)
    ensures EndSection(Insert(out, block), "") == section
    ensures Place(out, "") == a + blanks
    ensures Place(Insert(out, block), "") == a + (Place(block, section) + blanks)
    ensures forall k :: Values(blanks, k) == []
  {
    hide Read, Values;
    var n := ContentEnd(out);
    var content, tail := out[..n], out[n..];
    assert out == content + tail && Insert(out, block) == content + (block + tail);
    BlanksEffect(tail, EndSection(content, ""));
    PlaceConcat(content, tail, "");
    PlaceConcat(content, block + tail, "");
    PlaceConcat(block, tail, section);
    a, blanks := Place(content, ""), Place(tail, section);
  }

  lemma InsertMembers(out: seq<string>, block: seq<string>)
    ensures forall line | line in Insert(out, block) :: line in out || line in block
  {}

  /** Splicing a block in before the blank lines of the last section. */
  lemma InsertEffect(out: seq<string>, names: seq<string>, section: string, keys: map<IniKey, string>)
    requires Writable(keys) && BlockOf(names, section, keys)
    requires section == EndSection(out, "") && Rendered(Place(out, ""), keys) && AllWhole(out)
    ensures var r := Insert(out, Block(names, section, keys));
      && EndSection(r, "") == section
      && Unmanaged(Place(r, ""), keys) == Unmanaged(Place(out, ""), keys)
      && Rendered(Place(r, ""), keys)
      && AllWhole(r)
  {
    hide Rendered, Unmanaged, WholeLine, Insert, StrictlySorted, Writable, Values;
    var block := Block(names, section, keys);
    BlockEffect(names, section, keys);
    InsertMembers(out, block);
    var a, blanks := InsertPlaces(out, block, section);
    var placed := Place(block, section);
    UnmanagedConcat(a, blanks, keys);
    UnmanagedConcat(placed, blanks, keys);
    UnmanagedConcat(a, placed + blanks, keys);
    RenderedConcat(a, blanks, keys);
    RenderedConcat(placed, blanks, keys);
    RenderedConcat(a, placed + blanks, keys);
  }

  lemma InsertEffectOn(out: seq<string>, names: seq<string>, section: string, keys: map<IniKey, string>, k: IniKey)
    requires Writable(keys) && BlockOf(names, section, keys)
    requires section == EndSection(out, "")
    ensures Values(Place(Insert(out, Block(names, section, keys)), ""), k) ==
            Values(Place(out, ""), k) + BlockValues(names, section, keys, k)
  {
    hide Insert, StrictlySorted, Writable, BlockValues, Place, EndSection, Values;
    var block, mine := Block(names, section, keys), BlockValues(names, section, keys, k);
    assert EndSection(block, section) == section by { BlockEffect(names, section, keys); }
    assert Values(Place(block, section), k) == mine by { BlockEffectOn(names, section, keys, k); }
    var a, blanks := InsertPlaces(out, block, section);
    ValuesConcat(a, blanks, k);
    ValuesConcat(Place(block, section), blanks, k);
    ValuesConcat(a, Place(block, section) + blanks, k);
    assert mine + [] == mine && Values(a, k) + [] == Values(a, k);
  }

  // ---- the second pass ----

  /** What the weave has done after some lines: it is in their section, the
      lines it must leave alone are the ones there were, and it has flushed the
      sections that ended. */
  ghost predicate Sound(w: Weave, lines: seq<string>, missing: set<IniKey>, keys: map<IniKey, string>)
    requires missing <= keys.Keys
  {
    var pending := Pending(missing, keys);
    && w.current == EndSection(w.out, "") == EndSection(lines, "")
    && Unmanaged(Place(w.out, ""), keys) == Unmanaged(Place(lines, ""), keys)
    && Rendered(Place(w.out, ""), keys)
    && AllWhole(w.out)
    && (forall s | s in w.pending :: s in pending && w.pending[s] == pending[s])
    && w.pending.Keys - {w.current} == pending.Keys - Seen(lines)
    && w.current in Seen(lines)
  }

  /** Nothing but the missing keys of the sections flushed so far is read in
      addition to what the lines say. */
  ghost predicate SoundOn(w: Weave, lines: seq<string>, missing: set<IniKey>, keys: map<IniKey, string>, k: IniKey)
    requires missing <= keys.Keys
  {
    Values(Place(w.out, ""), k) ==
      if k in missing && k.section !in w.pending then [keys[k]] else Values(Place(lines, ""), k)
  }

  lemma PendingBlock(missing: set<IniKey>, keys: map<IniKey, string>, s: string)
    requires missing <= keys.Keys && s in Pending(missing, keys)
    ensures var names := Sorted(KeysIn(missing, s));
      && BlockOf(names, s, keys)
      && Pending(missing, keys)[s] == Block(names, s, keys)
      && forall n :: n in names <==> IniKey(s, n) in missing
  {
    hide StrictlySorted;
    forall n ensures n in KeysIn(missing, s) <==> IniKey(s, n) in missing {
      if n in KeysIn(missing, s) {
        var k :| k in missing && k.section == s && k.key == n;
        assert k == IniKey(s, n);
      }
    }
  }

  lemma FlushIsSound(w: Weave, lines: seq<string>, missing: set<IniKey>, keys: map<IniKey, string>)
    requires Writable(keys) && missing <= keys.Keys && Sound(w, lines, missing, keys)
    ensures Sound(Flush(w), lines, missing, keys)
    ensures Flush(w).current == w.current && w.current !in Flush(w).pending
  {
    hide Writable, Rendered, Unmanaged, Insert, Seen, EndSection, Place, Pending, AllWhole;
    if w.current in w.pending {
      PendingBlock(missing, keys, w.current);
      InsertEffect(w.out, Sorted(KeysIn(missing, w.current)), w.current, keys);
    }
  }

  lemma FlushIsSoundOn(w: Weave, lines: seq<string>, missing: set<IniKey>, keys: map<IniKey, string>, k: IniKey)
    requires Writable(keys) && missing <= keys.Keys && Sound(w, lines, missing, keys)
    requires SoundOn(w, lines, missing, keys, k)
    requires k in missing ==> Values(Place(lines, ""), k) == []
    ensures SoundOn(Flush(w), lines, missing, keys, k)
  {
    hide Writable, Rendered, Unmanaged, Insert, Seen, EndSection, Place, Pending, AllWhole, Values;
    if w.current in w.pending {
      PendingBlock(missing, keys, w.current);
      InsertEffectOn(w.out, Sorted(KeysIn(missing, w.current)), w.current, keys, k);
      assert k == IniKey(k.section, k.key);
    }
  }

  lemma AppendLine(lines: seq<string>, line: string, keys: map<IniKey, string>)
    ensures var p := Placed(SectionAfter(line, EndSection(lines, "")), line);
      && Place(lines + [line], "") == Place(lines, "") + [p]
      && EndSection(lines + [line], "") == p.section
      && Unmanaged(Place(lines + [line], ""), keys) == Unmanaged(Place(lines, ""), keys) + Unmanaged([p], keys)
      && (Rendered(Place(lines + [line], ""), keys) <==> Rendered(Place(lines, ""), keys) && Rendered([p], keys))
  {
    hide Rendered, Unmanaged, SectionAfter;
    var sec := EndSection(lines, "");
    PlaceConcat(lines, [line], "");
    assert [line][1..] == [];
    assert Place([line], sec) == [Placed(SectionAfter(line, sec), line)];
    assert EndSection([line], sec) == SectionAfter(line, sec);
    UnmanagedConcat(Place(lines, ""), [Placed(SectionAfter(line, sec), line)], keys);
    RenderedConcat(Place(lines, ""), [Placed(SectionAfter(line, sec), line)], keys);
  }

  lemma {:induction false} WovenIsSound(lines: seq<string>, missing: set<IniKey>, keys: map<IniKey, string>)
    requires Writable(keys) && missing <= keys.Keys
    requires Rendered(Place(lines, ""), keys) && AllWhole(lines)
    ensures Sound(Woven(lines, Pending(missing, keys)), lines, missing, keys)
  {
    hide Writable, Rendered, Unmanaged, Flush, EndSection, Place, Pending, WholeLine, Read;
    if lines == [] {
      NothingPlaced(missing, keys);
    } else {
      var n := |lines| - 1;
      var before, line := lines[..n], lines[n];
      assert lines == before + [line];
      AppendLine(before, line, keys);
      WovenIsSound(before, missing, keys);
      var w := Woven(before, Pending(missing, keys));
      FlushIsSound(w, before, missing, keys);
      var f := if SectionOf(line).Some? then Flush(w) else w;
      AppendLine(f.out, line, keys);
      SectionAfterHeader(line, w.current);
      var r := Woven(lines, Pending(missing, keys));
      if SectionOf(line).Some? {
        var left := f.pending.Keys;
        assert left - {w.current} == left;
        assert left - {r.current} == (Pending(missing, keys).Keys - Seen(before)) - {r.current};
      }
    }
  }

  lemma SectionAfterHeader(line: string, section: string)
    ensures SectionAfter(line, section) == if SectionOf(line).Some? then SectionOf(line).value else section
  {}

  lemma NothingPlaced(missing: set<IniKey>, keys: map<IniKey, string>)
    requires missing <= keys.Keys
    ensures Sound(Weave("", [], Pending(missing, keys)), [], missing, keys)
  {
    hide Pending;
    var none: seq<string> := [];
    assert Place(none, "") == [];
  }

  lemma {:induction false} WovenIsSoundOn(lines: seq<string>, missing: set<IniKey>, keys: map<IniKey, string>, k: IniKey)
    requires Writable(keys) && missing <= keys.Keys
    requires Rendered(Place(lines, ""), keys) && AllWhole(lines)
    requires k in missing ==> Values(Place(lines, ""), k) == []
    ensures SoundOn(Woven(lines, Pending(missing, keys)), lines, missing, keys, k)
  {
    hide Writable, Rendered, Unmanaged, Flush, EndSection, WholeLine, Read;
    if lines != [] {
      var n := |lines| - 1;
      var before, line := lines[..n], lines[n];
      assert lines == before + [line];
      AppendLine(before, line, keys);
      var p := Placed(SectionAfter(line, EndSection(before, "")), line);
      ValuesConcat(Place(before, ""), [p], k);
      WovenIsSoundOn(before, missing, keys, k);
      WovenIsSound(before, missing, keys);
      var w := Woven(before, Pending(missing, keys));
      FlushIsSound(w, before, missing, keys);
      FlushIsSoundOn(w, before, missing, keys, k);
      var f := if SectionOf(line).Some? then Flush(w) else w;
      AppendLine(f.out, line, keys);
      ValuesConcat(Place(f.out, ""), [p], k);
      SectionAfterHeader(line, w.current);
    }
  }

  // ---- the sections the file lacked ----

  predicate Additions(secs: seq<string>, missing: set<IniKey>, keys: map<IniKey, string>) {
    missing <= keys.Keys && Writable(keys) && StrictlySorted(secs) && forall s | s in secs :: s in Pending(missing, keys)
  }

  /** The names of a section's missing keys, in order. */
  function Wanted(missing: set<IniKey>, s: string): seq<string> { Sorted(KeysIn(missing, s)) }

  lemma LastAdditionNames(secs: seq<string>, missing: set<IniKey>, keys: map<IniKey, string>)
    requires Additions(secs, missing, keys) && secs != []
    ensures Additions(secs[..|secs| - 1], missing, keys)
    ensures var s, pending := secs[|secs| - 1], Pending(missing, keys);
      && s in pending && (forall x | x in secs :: x in pending)
      && BlockOf(Wanted(missing, s), s, keys) && pending[s] == Block(Wanted(missing, s), s, keys)
      && (forall n :: n in Wanted(missing, s) <==> IniKey(s, n) in missing)
      && Read("[" + s + "]") == Header(s) && WholeLine("[" + s + "]")
  {
    hide Read, WholeLine;
    var n := |secs| - 1;
    var s := secs[n];
    assert s in secs;
    assert forall x | x in secs[..n] :: x in secs;
    PendingBlock(missing, keys, s);
    var ik :| ik in missing && ik.section == s;
    assert Trimmed(s) && '\r' !in s && '\n' !in s by { assert Holdable(ik) && Tidy(ik); }
    HeaderReadsBack(s);
  }

  /** The last of the added sections: its header, then its keys. */
  lemma LastAddition(secs: seq<string>, from: string, missing: set<IniKey>, keys: map<IniKey, string>)
    returns (head: seq<string>, header: seq<string>, block: seq<string>)
    requires Additions(secs, missing, keys) && secs != []
    ensures var s := secs[|secs| - 1];
      && head == NewSections(secs[..|secs| - 1], Pending(missing, keys))
      && header == ["[" + s + "]"] && block == Pending(missing, keys)[s]
      && NewSections(secs, Pending(missing, keys)) == (head + header) + block
      && Place((head + header) + block, from) == (Place(head, from) + [Placed(s, header[0])]) + Place(block, s)
  {
    hide Read, WholeLine, Place, EndSection, StrictlySorted, Pending, Block, BlockOf, Wanted, Writable;
    LastAdditionNames(secs, missing, keys);
    var s := secs[|secs| - 1];
    head, header, block := NewSections(secs[..|secs| - 1], Pending(missing, keys)), ["[" + s + "]"], Pending(missing, keys)[s];
    HeaderSection(header[0], s);
    AppendLineFrom(head, header[0], from);
    PlaceConcat(head + header, block, from);
  }

  lemma HeaderSection(line: string, s: string)
    requires Read(line) == Header(s)
    ensures forall from :: SectionAfter(line, from) == s
  {}

  lemma AppendLineFrom(lines: seq<string>, line: string, from: string)
    ensures var sec := SectionAfter(line, EndSection(lines, from));
      && Place(lines + [line], from) == Place(lines, from) + [Placed(sec, line)]
      && EndSection(lines + [line], from) == sec
  {
    hide SectionAfter;
    var sec := EndSection(lines, from);
    PlaceConcat(lines, [line], from);
    assert [line][1..] == [];
    assert Place([line], sec) == [Placed(SectionAfter(line, sec), line)];
    assert EndSection([line], sec) == SectionAfter(line, sec);
  }

  lemma {:induction false} NewSectionsEffect(secs: seq<string>, from: string, missing: set<IniKey>, keys: map<IniKey, string>)
    requires Additions(secs, missing, keys)
    ensures Unmanaged(Place(NewSections(secs, Pending(missing, keys)), from), keys) == Headers(secs)
  {
    hide Pending, StrictlySorted, Block, Place, NewSections, BlockOf, Writable, Unmanaged;
    if secs == [] {
      NoAdditions(from, missing, keys);
      assert Headers([]) == [];
    } else {
      var n := |secs| - 1;
      var s := secs[n];
      LastAdditionNames(secs, missing, keys);
      var head, header, block := LastAddition(secs, from, missing, keys);
      NewSectionsEffect(secs[..n], from, missing, keys);
      var h, before, after := [Placed(s, header[0])], Place(head, from), Place(block, s);
      assert Unmanaged(after, keys) == [] by { BlockEffect(Wanted(missing, s), s, keys); }
      UnmanagedConcat(before, h, keys);
      UnmanagedConcat(before + h, after, keys);
      HeaderUnmanaged(h[0], keys);
      assert Headers(secs) == Headers(secs[..n]) + h;
    }
  }

  lemma HeaderUnmanaged(p: Placed, keys: map<IniKey, string>)
    requires Read(p.line).Header?
    ensures Unmanaged([p], keys) == [p] && Rendered([p], keys) && forall k :: Values([p], k) == []
  {
    assert [p][1..] == [];
  }

  lemma NoAdditions(from: string, missing: set<IniKey>, keys: map<IniKey, string>)
    requires missing <= keys.Keys
    ensures NewSections([], Pending(missing, keys)) == []
    ensures var none := Place(NewSections([], Pending(missing, keys)), from);
      none == [] && Unmanaged(none, keys) == [] && Rendered(none, keys) && forall k :: Values(none, k) == []
  {}

  lemma {:induction false} NewSectionsRendered(secs: seq<string>, from: string, missing: set<IniKey>, keys: map<IniKey, string>)
    requires Additions(secs, missing, keys)
    ensures Rendered(Place(NewSections(secs, Pending(missing, keys)), from), keys)
    ensures AllWhole(NewSections(secs, Pending(missing, keys)))
  {
    hide Pending, StrictlySorted, Block, Place, WholeLine, BlockOf, Writable, Rendered;
    if secs == [] {
      NoAdditions(from, missing, keys);
    } else {
      var n := |secs| - 1;
      var s := secs[n];
      LastAdditionNames(secs, missing, keys);
      var head, header, block := LastAddition(secs, from, missing, keys);
      NewSectionsRendered(secs[..n], from, missing, keys);
      BlockEffect(Wanted(missing, s), s, keys);
      var h := Placed(s, header[0]);
      HeaderUnmanaged(h, keys);
      RenderedConcat(Place(head, from), [h], keys);
      RenderedConcat(Place(head, from) + [h], Place(block, s), keys);
    }
  }

  lemma {:induction false} NewSectionsEffectOn(secs: seq<string>, from: string, missing: set<IniKey>, keys: map<IniKey, string>, k: IniKey)
    requires Additions(secs, missing, keys)
    ensures Values(Place(NewSections(secs, Pending(missing, keys)), from), k) ==
            if k in missing && k.section in secs then [keys[k]] else []
  {
    hide Pending, Block, Place, Writable, BlockOf, Values, NewSections;
    if secs == [] {
      NoAdditions(from, missing, keys);
    } else {
      var n := |secs| - 1;
      var s := secs[n];
      LastAdditionNames(secs, missing, keys);
      var head, header, block := LastAddition(secs, from, missing, keys);
      NewSectionsEffectOn(secs[..n], from, missing, keys, k);
      BlockEffectOn(Wanted(missing, s), s, keys, k);
      var h := Placed(s, header[0]);
      HeaderUnmanaged(h, keys);
      ValuesConcat(Place(head, from), [h], k);
      ValuesConcat(Place(head, from) + [h], Place(block, s), k);
      assert k == IniKey(k.section, k.key);
      if s in secs[..n] { BelowIsTotal(s, s); }
    }
  }

  // ---- the override ----

  /** after is before with exactly the managed keys overridden: a managed key
      reads as its new value at each of its occurrences, or at one new line when
      it had none; any other key reads as it did; and the other lines are the
      ones there were, in their order and their section, with the headers of
      the new sections at the end. */
  ghost predicate Overrides(before: seq<Placed>, after: seq<Placed>, keys: map<IniKey, string>, newSections: seq<string>) {
    && (forall k | k in keys ::
          AllAre(Values(after, k), keys[k]) && |Values(after, k)| == Max(1, |Values(before, k)|))
    && (forall k | k !in keys :: Values(after, k) == Values(before, k))
    && Unmanaged(after, keys) == Unmanaged(before, keys) + Headers(newSections)
  }

  function SectionsAdded(lines: seq<string>, keys: map<IniKey, string>): seq<string> {
    Sorted((set k | k in Missing(lines, keys) :: k.section) - Seen(lines))
  }

  lemma {:induction false} SeenByRewrite(lines: seq<string>, keys: map<IniKey, string>)
    requires Writable(keys)
    ensures Seen(Rewrite(lines, "", keys)) == Seen(lines)
  {
    if lines != [] {
      var n := |lines| - 1;
      RewriteStep(lines, n, keys);
      assert lines[..n + 1] == lines;
      SeenByRewrite(lines[..n], keys);
      var r := Rewrite(lines, "", keys);
      assert r[..n] == Rewrite(lines[..n], "", keys);
      RewrittenLine(lines[n], EndSection(lines[..n], ""), keys);
      assert SectionOf(r[n]) == SectionOf(lines[n]) by {
        var here := Assigned(Placed(EndSection(lines[..n], ""), lines[n]));
        if here.Some? && here.value in keys { FormattedReadsBack(here.value, keys[here.value]); }
      }
    }
  }

  /** The second pass, up to the sections it adds. */
  lemma PatchShape(lines: seq<string>, keys: map<IniKey, string>) returns (w: Weave, secs: seq<string>)
    requires Writable(keys) && AllWhole(lines)
    ensures var missing := Missing(lines, keys);
      && w == Flush(Woven(Rewrite(lines, "", keys), Pending(missing, keys)))
      && Sound(w, Rewrite(lines, "", keys), missing, keys) && w.current !in w.pending
      && secs == SectionsAdded(lines, keys) == Sorted(w.pending.Keys)
      && Additions(secs, missing, keys)
      && Place(Patch(lines, keys), "") ==
           Place(w.out, "") + Place(NewSections(secs, Pending(missing, keys)), w.current)
      && forall line | line in Patch(lines, keys) :: line in w.out || line in NewSections(secs, Pending(missing, keys))
  {
    hide Writable, Rendered, Unmanaged, Rewrite, Woven, Flush, StrictlySorted, WholeLine, EndSection, Place, Read;
    var missing, r := Missing(lines, keys), Rewrite(lines, "", keys);
    RewriteEffect(lines, "", keys);
    WovenIsSound(r, missing, keys);
    var w0 := Woven(r, Pending(missing, keys));
    FlushIsSound(w0, r, missing, keys);
    w := Flush(w0);
    SeenByRewrite(lines, keys);
    assert w.pending.Keys - {w.current} == w.pending.Keys;
    assert Pending(missing, keys).Keys == (set k | k in missing :: k.section);
    assert w.pending.Keys == (set k | k in missing :: k.section) - Seen(lines);
    secs := Sorted(w.pending.Keys);
    SamePending(secs, w.pending, Pending(missing, keys));
    PlaceConcat(w.out, NewSections(secs, w.pending), "");
  }

  lemma PatchValues(lines: seq<string>, keys: map<IniKey, string>, k: IniKey)
    requires Writable(keys) && AllWhole(lines)
    ensures var before, after := Values(Place(lines, ""), k), Values(Place(Patch(lines, keys), ""), k);
      if k in keys then AllAre(after, keys[k]) && |after| == Max(1, |before|) else after == before
  {
    hide Writable, Rendered, Unmanaged, Rewrite, Woven, Flush, StrictlySorted, WholeLine, Values, Place, Pending, Patch;
    var missing, r := Missing(lines, keys), Rewrite(lines, "", keys);
    RewriteEffect(lines, "", keys);
    assert ValuesPatched(Values(Place(lines, ""), k), Values(Place(r, ""), k), k, keys) by {
      RewriteValues(lines, "", keys, k);
    }
    PresentIffValued(lines, "", k);
    var w, secs := PatchShape(lines, keys);
    var add := Place(NewSections(secs, Pending(missing, keys)), w.current);
    assert SoundOn(w, r, missing, keys, k) by {
      WovenIsSound(r, missing, keys);
      WovenIsSoundOn(r, missing, keys, k);
      FlushIsSoundOn(Woven(r, Pending(missing, keys)), r, missing, keys, k);
    }
    assert Values(add, k) == if k in missing && k.section in secs then [keys[k]] else [] by {
      NewSectionsEffectOn(secs, w.current, missing, keys, k);
    }
    ValuesConcat(Place(w.out, ""), add, k);
    MissingSection(missing, keys, k);
  }

  lemma MissingSection(missing: set<IniKey>, keys: map<IniKey, string>, k: IniKey)
    requires missing <= keys.Keys
    ensures k in missing ==> k.section in Pending(missing, keys)
  {}

  lemma PatchOverrides(lines: seq<string>, keys: map<IniKey, string>)
    requires Writable(keys) && AllWhole(lines)
    ensures Overrides(Place(lines, ""), Place(Patch(lines, keys), ""), keys, SectionsAdded(lines, keys))
    ensures Rendered(Place(Patch(lines, keys), ""), keys) && AllWhole(Patch(lines, keys))
  {
    hide Writable, Rendered, Unmanaged, Rewrite, Woven, Flush, StrictlySorted, WholeLine, Values, Place, Pending, Patch;
    var missing := Missing(lines, keys);
    forall k ensures var before, after := Values(Place(lines, ""), k), Values(Place(Patch(lines, keys), ""), k);
      if k in keys then AllAre(after, keys[k]) && |after| == Max(1, |before|) else after == before
    {
      PatchValues(lines, keys, k);
    }
    RewriteEffect(lines, "", keys);
    var w, secs := PatchShape(lines, keys);
    NewSectionsEffect(secs, w.current, missing, keys);
    NewSectionsRendered(secs, w.current, missing, keys);
    var add := Place(NewSections(secs, Pending(missing, keys)), w.current);
    UnmanagedConcat(Place(w.out, ""), add, keys);
    RenderedConcat(Place(w.out, ""), add, keys);
  }

  lemma {:induction false} SamePending(secs: seq<string>, a: map<string, seq<string>>, b: map<string, seq<string>>)
    requires forall s | s in secs :: s in a && s in b && a[s] == b[s]
    ensures NewSections(secs, a) == NewSections(secs, b)
  {
    if secs != [] {
      var n := |secs| - 1;
      assert secs[n] in secs;
      forall s | s in secs[..n] ensures s in a && s in b && a[s] == b[s] { assert s in secs; }
      SamePending(secs[..n], a, b);
    }
  }

  /** Patching an INI file is exactly an override, for any file and any values:
      read by the same scan, the written file says what the old one said but
      for the accepted keys. */
  lemma RenderOverrides(cur: string, vals: map<string, string>)
    ensures Overrides(Place(Lines(cur), ""), Place(Lines(Render(cur, vals)), ""), Keys(vals),
                      SectionsAdded(Lines(cur), Keys(vals)))
  {
    LinesAreWhole(cur);
    AcceptedIsWritable(Sorted(vals.Keys), vals);
    PatchOverrides(Lines(cur), Keys(vals));
    LinesOfUnlines(Patch(Lines(cur), Keys(vals)));
  }

  // ---- a second pass ----

  lemma {:induction false} RewriteOfRendered(lines: seq<string>, section: string, keys: map<IniKey, string>)
    requires Rendered(Place(lines, section), keys)
    ensures Rewrite(lines, section, keys) == lines
  {
    if lines != [] {
      var sec := SectionAfter(lines[0], section);
      var ps := Place(lines, section);
      assert ps[0] in ps && ps[0] == Placed(sec, lines[0]);
      assert ps[1..] == Place(lines[1..], sec);
      assert forall p | p in ps[1..] :: p in ps;
      RewriteOfRendered(lines[1..], sec, keys);
    }
  }

  lemma {:induction false} WovenWithNothing(lines: seq<string>)
    ensures Woven(lines, map[]).out == lines && Woven(lines, map[]).pending == map[]
  {
    hide SectionOf;
    if lines != [] { WovenWithNothing(lines[..|lines| - 1]); }
  }

  lemma PatchOfRendered(lines: seq<string>, keys: map<IniKey, string>)
    requires Rendered(Place(lines, ""), keys)
    requires forall k | k in keys :: Values(Place(lines, ""), k) != []
    ensures Patch(lines, keys) == lines
  {
    RewriteOfRendered(lines, "", keys);
    forall k | k in keys ensures k in Present(lines, "") { PresentIffValued(lines, "", k); }
    assert Missing(lines, keys) == {};
    assert Pending({}, keys) == map[];
    WovenWithNothing(lines);
    var none: map<string, seq<string>> := map[];
    assert Sorted(none.Keys) == [];
  }

  /** Rendering again with the same values leaves an INI file byte for byte as
      it is, whatever it held to begin with. */
  lemma RenderTwice(cur: string, vals: map<string, string>)
    ensures Render(Render(cur, vals), vals) == Render(cur, vals)
  {
    var keys, lines := Keys(vals), Lines(cur);
    LinesAreWhole(cur);
    AcceptedIsWritable(Sorted(vals.Keys), vals);
    PatchOverrides(lines, keys);
    var after := Patch(lines, keys);
    LinesOfUnlines(after);
    forall k | k in keys ensures Values(Place(after, ""), k) != [] {
      assert |Values(Place(after, ""), k)| == Max(1, |Values(Place(lines, ""), k)|);
    }
    PatchOfRendered(after, keys);
  }
}
