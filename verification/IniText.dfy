/** What the INI patcher does to a file, told on the file's text: which lines are
    headers, which assign a key, under which header a line stands, and where each
    line of the written file comes from. */
module IniText {
  import opened Text
  import opened IniFile
  import opened IniOverride

  // ---- a line, character by character ----

  /** Blanks, [, a name with blanks around it, ], blanks. */
  ghost predicate Titled(line: string, name: string) {
    Trimmed(name) && exists a, b, c, d :: TitledWith(line, name, a, b, c, d)
  }

  predicate TitledWith(line: string, name: string, a: string, b: string, c: string, d: string) {
    Blank(a) && Blank(b) && Blank(c) && Blank(d) && line == a + ("[" + b + name + c + "]") + d
  }

  ghost predicate IsTitle(line: string) { exists name :: Titled(line, name) }

  /** Blanks, a key with blanks after it, =, a value; not a header and not a
      comment. */
  ghost predicate Sets(line: string, key: string, value: string) {
    && Trimmed(key) && '=' !in key && !IsTitle(line)
    && (key != "" ==> key[0] != '#' && key[0] != ';')
    && exists a, b :: SetsWith(line, key, value, a, b)
  }

  predicate SetsWith(line: string, key: string, value: string, a: string, b: string) {
    Blank(a) && Blank(b) && line == a + key + b + "=" + value
  }

  lemma BracketsAreNoBlanks()
    ensures !IsSpace('[') && !IsSpace(']') && !IsSpace('=') && !IsSpace('#') && !IsSpace(';')
  {}

  /** What is read as a header is one. */
  lemma TitledReads(line: string, name: string)
    ensures Titled(line, name) <==> SectionOf(line) == Some(name)
  {
    hide IsSpace, TrimSpace, Blank;
    BracketsAreNoBlanks();
    if Titled(line, name) {
      var a, b, c, d :| TitledWith(line, name, a, b, c, d);
      var t := "[" + b + name + c + "]";
      assert t[0] == '[' && t[|t| - 1] == ']';
      TrimOf(a, t, d);
      assert t[1..|t| - 1] == b + name + c;
      TrimOf(b, name, c);
    }
    if SectionOf(line) == Some(name) {
      var t := TrimSpace(line);
      var a, d := TrimParts(line);
      var b, c := TrimParts(t[1..|t| - 1]);
      assert t == "[" + b + name + c + "]" by { assert t == [t[0]] + t[1..|t| - 1] + [t[|t| - 1]]; }
      assert TitledWith(line, name, a, b, c, d);
    }
  }

  lemma TitleReads(line: string)
    ensures IsTitle(line) <==> SectionOf(line).Some?
  {
    hide SectionOf, Titled;
    if SectionOf(line).Some? { TitledReads(line, SectionOf(line).value); }
    if IsTitle(line) {
      var name :| Titled(line, name);
      TitledReads(line, name);
    }
  }

  lemma NoEqualsIn(s: string)
    requires Blank(s)
    ensures '=' !in s
  {
    BracketsAreNoBlanks();
  }

  /** What is read as an assignment is one: the key without the blanks around it,
      the value as it stands. */
  lemma SetsReads(line: string, key: string, value: string)
    ensures Sets(line, key, value) <==> Read(line) == Assign(key, value)
  {
    hide IsSpace, TrimSpace, Blank, SectionOf, IsTitle, IndexOf;
    TitleReads(line);
    if Sets(line, key, value) {
      var a, b :| SetsWith(line, key, value, a, b);
      NoEqualsIn(a);
      NoEqualsIn(b);
      assert line == (a + key + b) + ['='] + value;
      IndexOfAfter(a + key + b, '=', value);
      TrimOf(a, key, b);
      SetsIsNoComment(line, key, value, a, b);
    }
    if Read(line) == Assign(key, value) {
      ReadsSets(line, key, value);
    }
  }

  lemma SetsIsNoComment(line: string, key: string, value: string, a: string, b: string)
    requires SetsWith(line, key, value, a, b) && Trimmed(key)
    requires key != "" ==> key[0] != '#' && key[0] != ';'
    ensures TrimSpace(line) != "" && TrimSpace(line)[0] != '#' && TrimSpace(line)[0] != ';'
  {
    hide IsSpace, TrimLeft, TrimRight, Blank;
    BracketsAreNoBlanks();
    var rest := if key == "" then "=" + value else key + b + "=" + value;
    if key == "" {
      assert line == (a + b) + rest;
      assert Blank(a + b) by { BlankTwice(a, b); }
      TrimLeftOf(a + b, rest);
    } else {
      assert line == a + rest;
      TrimLeftOf(a, rest);
    }
    TrimRightKeeps(rest);
  }

  lemma BlankTwice(a: string, b: string)
    requires Blank(a) && Blank(b)
    ensures Blank(a + b)
  {}

  lemma ReadsSets(line: string, key: string, value: string)
    requires Read(line) == Assign(key, value)
    ensures Sets(line, key, value)
  {
    hide IsSpace, TrimSpace, SectionOf, IsTitle, IndexOf;
    TitleReads(line);
    var j := IndexOf(line, '=');
    var a, b := TrimParts(line[..j]);
    TrimSpaceTrims(line[..j]);
    assert line == line[..j] + "=" + line[j + 1..];
    assert '=' !in line[..j];
    assert SetsWith(line, key, value, a, b);
    if key != "" { KeyBegins(line, key, value, a, b); }
  }

  /** A key's first character is the line's first that is not blank. */
  lemma KeyBegins(line: string, key: string, value: string, a: string, b: string)
    requires SetsWith(line, key, value, a, b) && Trimmed(key) && key != ""
    ensures TrimSpace(line) != "" && TrimSpace(line)[0] == key[0]
  {
    hide IsSpace, TrimLeft, TrimRight, Blank;
    var rest := key + b + "=" + value;
    assert line == a + rest;
    TrimLeftOf(a, rest);
    TrimRightKeeps(rest);
  }

  // ---- the header a line stands under ----

  /** The last header above the line, or no header at all. */
  ghost predicate Under(lines: seq<string>, i: nat, section: string)
    requires i <= |lines|
  {
    || (section == "" && forall j | 0 <= j < i :: !IsTitle(lines[j]))
    || exists j | 0 <= j < i :: Titled(lines[j], section) && forall m | j < m < i :: !IsTitle(lines[m])
  }

  lemma EndSectionStep(lines: seq<string>, i: nat)
    requires i < |lines|
    ensures EndSection(lines[..i + 1], "") == SectionAfter(lines[i], EndSection(lines[..i], ""))
  {
    assert lines[..i + 1] == lines[..i] + [lines[i]];
    AppendLineFrom(lines[..i], lines[i], "");
  }

  lemma {:induction false} UnderIsEndSection(lines: seq<string>, i: nat, section: string)
    requires i <= |lines|
    ensures Under(lines, i, section) <==> EndSection(lines[..i], "") == section
    decreases i
  {
    hide Titled, IsTitle, SectionAfter, EndSection;
    if i == 0 {
      NoLinesNoSection(lines[..0]);
    } else {
      var line := lines[i - 1];
      UnderIsEndSection(lines, i - 1, section);
      EndSectionStep(lines, i - 1);
      SectionAfterHeader(line, EndSection(lines[..i - 1], ""));
      TitleReads(line);
      TitledReads(line, section);
      UnderStep(lines, i - 1, section);
    }
  }

  lemma NoLinesNoSection(lines: seq<string>)
    requires lines == []
    ensures EndSection(lines, "") == ""
  {}

  lemma UnderStep(lines: seq<string>, i: nat, section: string)
    requires i < |lines|
    ensures Under(lines, i + 1, section) <==> if IsTitle(lines[i]) then Titled(lines[i], section) else Under(lines, i, section)
  {
    hide Titled;
    if Titled(lines[i], section) { assert IsTitle(lines[i]); }
  }

  lemma {:induction false} PlaceAt(lines: seq<string>, section: string, j: nat)
    requires j < |lines|
    ensures |Place(lines, section)| == |lines|
    ensures Place(lines, section)[j] == Placed(SectionAfter(lines[j], EndSection(lines[..j], section)), lines[j])
    decreases |lines|
  {
    hide SectionAfter;
    PlaceLength(lines, section);
    var sec := SectionAfter(lines[0], section);
    if j > 0 {
      PlaceAt(lines[1..], sec, j - 1);
      assert lines[1..][..j - 1] == lines[..j][1..];
    }
  }

  lemma {:induction false} PlaceLength(lines: seq<string>, section: string)
    ensures |Place(lines, section)| == |lines|
    decreases |lines|
  {
    if lines != [] { PlaceLength(lines[1..], SectionAfter(lines[0], section)); }
  }

  // ---- where each line comes from ----

  type Origin = seq<Option<nat>>

  function Kept(o: Origin): seq<nat> {
    if o == [] then [] else (if o[0].Some? then [o[0].value] else []) + Kept(o[1..])
  }

  function Upto(n: nat): seq<nat> { seq(n, i => i) }

  lemma {:induction false} KeptConcat(a: Origin, b: Origin)
    ensures Kept(a + b) == Kept(a) + Kept(b)
    decreases |a|
  {
    if a == [] {
      assert a + b == b;
    } else {
      assert (a + b)[1..] == a[1..] + b;
      KeptConcat(a[1..], b);
    }
  }

  function Nones(n: nat): (o: Origin)
    ensures |o| == n && forall i | 0 <= i < n :: o[i] == None
  {
    seq(n, i => None)
  }

  lemma {:induction false} NonesKeepNone(o: Origin)
    requires forall j | 0 <= j < |o| :: o[j].None?
    ensures Kept(o) == []
    decreases |o|
  {
    if o != [] { NonesKeepNone(o[1..]); }
  }

  /** A line for a key the file did not set, in its section. */
  predicate AddedKey(p: Placed, missing: set<IniKey>, keys: map<IniKey, string>)
    requires missing <= keys.Keys
  {
    exists ik | ik in missing :: p == Placed(ik.section, Format(ik.key, keys[ik]))
  }

  /** It stands right after a line with content. */
  predicate Steady(ps: seq<Placed>, j: nat)
    requires j < |ps|
  {
    j > 0 ==> TrimSpace(ps[j - 1].line) != ""
  }

  /** After it come blank lines, added lines, and then another section. */
  predicate Closes(ps: seq<Placed>, origin: Origin, j: nat)
    requires |origin| == |ps|
  {
    forall m | j < m < |ps| && origin[m].Some? && TrimSpace(ps[m].line) != "" ::
      exists h | j < h <= m :: SectionOf(ps[h].line).Some?
  }

  predicate AddedWell(ps: seq<Placed>, origin: Origin, j: nat, missing: set<IniKey>, keys: map<IniKey, string>)
    requires |origin| == |ps| && j < |ps| && missing <= keys.Keys
  {
    AddedKey(ps[j], missing, keys) && Steady(ps, j) && Closes(ps, origin, j)
  }

  predicate FromOld(before: seq<Placed>, p: Placed, o: Option<nat>) {
    o.Some? ==> o.value < |before| && p == before[o.value]
  }

  ghost predicate Traced(before: seq<Placed>, ps: seq<Placed>, origin: Origin, missing: set<IniKey>, keys: map<IniKey, string>)
    requires missing <= keys.Keys
  {
    && |origin| == |ps| && Kept(origin) == Upto(|before|)
    && (forall j | 0 <= j < |ps| :: FromOld(before, ps[j], origin[j]))
    && (forall j | 0 <= j < |ps| && origin[j].None? :: AddedWell(ps, origin, j, missing, keys))
  }

  /** Every added line has a header below it. */
  predicate Headed(ps: seq<Placed>, origin: Origin)
    requires |origin| == |ps|
  {
    forall j | 0 <= j < |ps| && origin[j].None? :: exists h | j < h < |ps| :: SectionOf(ps[h].line).Some?
  }

  lemma UptoMore(n: nat)
    ensures Upto(n) + [n] == Upto(n + 1)
  {}

  lemma TracedAppend(before: seq<Placed>, ps: seq<Placed>, origin: Origin, p: Placed, missing: set<IniKey>, keys: map<IniKey, string>)
    requires missing <= keys.Keys && Traced(before, ps, origin, missing, keys)
    requires Headed(ps, origin) || SectionOf(p.line).Some?
    ensures var o := origin + [Some(|before|)];
      Traced(before + [p], ps + [p], o, missing, keys) && Headed(ps + [p], o)
  {
    hide TrimSpace, SectionOf, AddedKey, Kept, Upto;
    var o, qs := origin + [Some(|before|)], ps + [p];
    KeptConcat(origin, [Some(|before|)]);
    KeptOne(|before|);
    UptoMore(|before|);
    forall j | 0 <= j < |qs| ensures FromOld(before + [p], qs[j], o[j]) {
      if j < |ps| { assert FromOld(before, ps[j], origin[j]); }
    }
    forall j | 0 <= j < |qs| && o[j].None?
      ensures AddedWell(qs, o, j, missing, keys)
      ensures exists h | j < h < |qs| :: SectionOf(qs[h].line).Some?
    {
      assert AddedWell(ps, origin, j, missing, keys);
      AppendHeads(ps, origin, p, j);
      AppendCloses(ps, origin, p, j, |before|);
    }
  }

  lemma KeptOne(n: nat)
    ensures Kept([Some(n)]) == [n]
  {
    assert [Some(n)][1..] == [];
  }

  lemma AppendHeads(ps: seq<Placed>, origin: Origin, p: Placed, j: nat)
    requires |origin| == |ps| && j < |ps| && origin[j].None?
    requires Headed(ps, origin) || SectionOf(p.line).Some?
    ensures exists h | j < h < |ps| + 1 :: SectionOf((ps + [p])[h].line).Some?
  {
    hide SectionOf;
    if SectionOf(p.line).Some? {
      assert (ps + [p])[|ps|] == p;
    } else {
      var h :| j < h < |ps| && SectionOf(ps[h].line).Some?;
      assert (ps + [p])[h] == ps[h];
    }
  }

  lemma AppendCloses(ps: seq<Placed>, origin: Origin, p: Placed, j: nat, n: nat)
    requires |origin| == |ps| && j < |ps| && Closes(ps, origin, j)
    requires exists h | j < h < |ps| + 1 :: SectionOf((ps + [p])[h].line).Some?
    ensures Closes(ps + [p], origin + [Some(n)], j)
  {
    hide SectionOf, TrimSpace;
    var qs, o := ps + [p], origin + [Some(n)];
    forall m | j < m < |qs| && o[m].Some? && TrimSpace(qs[m].line) != "" ensures exists h | j < h <= m :: SectionOf(qs[h].line).Some? {
      if m < |ps| {
        assert qs[m] == ps[m] && o[m] == origin[m];
        var h :| j < h <= m && SectionOf(ps[h].line).Some?;
        assert qs[h] == ps[h];
      } else {
        var h :| j < h < |qs| && SectionOf(qs[h].line).Some?;
      }
    }
  }

  predicate AllBlank(ps: seq<Placed>) { forall p | p in ps :: TrimSpace(p.line) == "" }

  predicate AllAdded(ps: seq<Placed>, missing: set<IniKey>, keys: map<IniKey, string>)
    requires missing <= keys.Keys
  {
    forall p | p in ps :: AddedKey(p, missing, keys) && TrimSpace(p.line) != ""
  }

  /** Added lines go in before the blank lines at the end. */
  lemma TracedInsert(before: seq<Placed>, a: seq<Placed>, block: seq<Placed>, blanks: seq<Placed>, origin: Origin,
                     missing: set<IniKey>, keys: map<IniKey, string>) returns (o: Origin)
    requires missing <= keys.Keys && Traced(before, a + blanks, origin, missing, keys)
    requires AllBlank(blanks) && AllAdded(block, missing, keys) && (a != [] ==> TrimSpace(a[|a| - 1].line) != "")
    requires forall j | 0 <= j < |origin| && origin[j].None? :: TrimSpace((a + blanks)[j].line) != ""
    ensures Traced(before, a + (block + blanks), o, missing, keys)
    ensures forall j | 0 <= j < |o| && o[j].None? :: TrimSpace((a + (block + blanks))[j].line) != ""
  {
    hide TrimSpace, SectionOf, AddedKey, Kept, Upto;
    var n, b := |a|, |block|;
    var ps, qs := a + blanks, a + (block + blanks);
    o := origin[..n] + (Nones(b) + origin[n..]);
    KeptConcat(origin[..n], origin[n..]);
    assert origin == origin[..n] + origin[n..];
    KeptConcat(origin[..n], Nones(b) + origin[n..]);
    KeptConcat(Nones(b), origin[n..]);
    NonesKeepNone(Nones(b));
    assert Kept(o) == Kept(origin);
    forall j | 0 <= j < |qs|
      ensures FromOld(before, qs[j], o[j])
      ensures o[j].None? ==> TrimSpace(qs[j].line) != "" && AddedWell(qs, o, j, missing, keys)
    {
      InsertedLine(before, a, block, blanks, origin, o, missing, keys, j);
    }
  }

  lemma InsertedLine(before: seq<Placed>, a: seq<Placed>, block: seq<Placed>, blanks: seq<Placed>, origin: Origin, o: Origin,
                     missing: set<IniKey>, keys: map<IniKey, string>, j: nat)
    requires missing <= keys.Keys && |origin| == |a + blanks|
    requires forall i | 0 <= i < |origin| :: FromOld(before, (a + blanks)[i], origin[i])
    requires forall i | 0 <= i < |origin| && origin[i].None? :: AddedWell(a + blanks, origin, i, missing, keys)
    requires AllBlank(blanks) && AllAdded(block, missing, keys) && (a != [] ==> TrimSpace(a[|a| - 1].line) != "")
    requires forall i | 0 <= i < |origin| && origin[i].None? :: TrimSpace((a + blanks)[i].line) != ""
    requires o == origin[..|a|] + (Nones(|block|) + origin[|a|..]) && j < |a + (block + blanks)|
    ensures var qs := a + (block + blanks);
      && |o| == |qs| && FromOld(before, qs[j], o[j])
      && (o[j].None? ==> TrimSpace(qs[j].line) != "" && AddedWell(qs, o, j, missing, keys))
  {
    hide TrimSpace, SectionOf, AddedKey;
    var n, b := |a|, |block|;
    var ps, qs := a + blanks, a + (block + blanks);
    if j < n {
      assert qs[j] == ps[j] && o[j] == origin[j];
      if o[j].None? {
        assert AddedWell(ps, origin, j, missing, keys);
        assert j > 0 ==> qs[j - 1] == ps[j - 1];
        InsertCloses(a, block, blanks, origin, o, j);
      }
    } else if j < n + b {
      assert qs[j] == block[j - n] && block[j - n] in block;
      assert j > n ==> qs[j - 1] == block[j - n - 1] && block[j - n - 1] in block;
      BlockCloses(a, block, blanks, origin, o, j);
    } else {
      assert qs[j] == ps[j - b] && o[j] == origin[j - b];
      assert qs[j] == blanks[j - n - b] && blanks[j - n - b] in blanks;
    }
  }

  lemma InsertCloses(a: seq<Placed>, block: seq<Placed>, blanks: seq<Placed>, origin: Origin, o: Origin, j: nat)
    requires |origin| == |a + blanks| && j < |a| && Closes(a + blanks, origin, j)
    requires o == origin[..|a|] + (Nones(|block|) + origin[|a|..]) && AllBlank(blanks)
    ensures Closes(a + (block + blanks), o, j)
  {
    hide TrimSpace, SectionOf;
    var n, b := |a|, |block|;
    var ps, qs := a + blanks, a + (block + blanks);
    TailIsBlank(a, block, blanks);
    forall m | j < m < |qs| && o[m].Some? && TrimSpace(qs[m].line) != "" ensures exists h | j < h <= m :: SectionOf(qs[h].line).Some? {
      assert m < n + b;
      assert m < n;
      assert qs[m] == ps[m] && o[m] == origin[m];
      var h :| j < h <= m && SectionOf(ps[h].line).Some?;
      assert qs[h] == ps[h];
    }
  }

  lemma TailIsBlank(a: seq<Placed>, block: seq<Placed>, blanks: seq<Placed>)
    requires AllBlank(blanks)
    ensures forall m | |a| + |block| <= m < |a + (block + blanks)| :: TrimSpace((a + (block + blanks))[m].line) == ""
  {
    hide TrimSpace;
    var qs := a + (block + blanks);
    forall m | |a| + |block| <= m < |qs| ensures TrimSpace(qs[m].line) == "" {
      assert qs[m] == blanks[m - |a| - |block|] && blanks[m - |a| - |block|] in blanks;
    }
  }

  lemma BlockCloses(a: seq<Placed>, block: seq<Placed>, blanks: seq<Placed>, origin: Origin, o: Origin, j: nat)
    requires |origin| == |a + blanks| && |a| <= j < |a| + |block|
    requires o == origin[..|a|] + (Nones(|block|) + origin[|a|..]) && AllBlank(blanks)
    ensures Closes(a + (block + blanks), o, j)
  {
    hide TrimSpace, SectionOf;
    var n, b := |a|, |block|;
    var qs := a + (block + blanks);
    TailIsBlank(a, block, blanks);
    forall m | j < m < |qs| && o[m].Some? ensures TrimSpace(qs[m].line) == "" { assert m >= n + b; }
  }

  // ---- the second pass, line by line ----

  lemma AddedIsContent(p: Placed, missing: set<IniKey>, keys: map<IniKey, string>)
    requires missing <= keys.Keys && Writable(keys) && AddedKey(p, missing, keys)
    ensures TrimSpace(p.line) != "" && SectionOf(p.line).None?
  {
    hide TrimSpace, IsSpace;
    var ik :| ik in missing && p == Placed(ik.section, Format(ik.key, keys[ik]));
    FormattedReadsBack(ik, keys[ik]);
  }

  lemma {:induction false} BlockIsAdded(names: seq<string>, section: string, missing: set<IniKey>, keys: map<IniKey, string>)
    requires Writable(keys) && BlockOf(names, section, keys) && missing <= keys.Keys
    requires forall n | n in names :: IniKey(section, n) in missing
    ensures AllAdded(Place(Block(names, section, keys), section), missing, keys)
    decreases |names|
  {
    hide TrimSpace, StrictlySorted, Writable, Block, Read, WholeLine, SectionOf;
    if names == [] {
      NothingInBlock(section, missing, keys);
    } else {
      BlockCons(names, section, keys);
      forall n | n in names[1..] ensures IniKey(section, n) in missing { assert n in names; }
      BlockIsAdded(names[1..], section, missing, keys);
      var block := Block(names, section, keys);
      var p := Placed(section, block[0]);
      assert names[0] in names;
      var ik := IniKey(section, names[0]);
      assert p == Placed(ik.section, Format(ik.key, keys[ik]));
      AddedIsContent(p, missing, keys);
      assert block[1..] == Block(names[1..], section, keys);
    }
  }

  lemma NothingInBlock(section: string, missing: set<IniKey>, keys: map<IniKey, string>)
    requires missing <= keys.Keys
    ensures AllAdded(Place(Block([], section, keys), section), missing, keys)
  {
    assert Block([], section, keys) == [];
  }

  lemma BlanksPlaced(lines: seq<string>, section: string)
    requires forall line | line in lines :: TrimSpace(line) == ""
    ensures AllBlank(Place(lines, section))
  {
    hide TrimSpace, SectionAfter, Place, EndSection;
    var ps := Place(lines, section);
    PlaceLength(lines, section);
    forall p | p in ps ensures TrimSpace(p.line) == "" {
      var j :| 0 <= j < |ps| && ps[j] == p;
      PlaceAt(lines, section, j);
      assert lines[j] in lines;
    }
  }

  /** A flush, told on the lines: content, the block, and the blanks. */
  lemma FlushPlaces(out: seq<string>, block: seq<string>, section: string) returns (a: seq<Placed>, blanks: seq<Placed>)
    requires section == EndSection(out, "") == EndSection(block, section)
    ensures Place(out, "") == a + blanks && Place(Insert(out, block), "") == a + (Place(block, section) + blanks)
    ensures AllBlank(blanks) && (a != [] ==> TrimSpace(a[|a| - 1].line) != "")
  {
    hide TrimSpace, SectionAfter, Place, EndSection, AllBlank;
    var n := ContentEnd(out);
    var content, tail := out[..n], out[n..];
    assert out == content + tail && Insert(out, block) == content + (block + tail);
    BlanksEffect(tail, EndSection(content, ""));
    PlaceConcat(content, tail, "");
    PlaceConcat(content, block + tail, "");
    PlaceConcat(block, tail, section);
    a, blanks := Place(content, ""), Place(tail, section);
    BlanksPlaced(tail, section);
    PlaceLength(content, "");
    if n > 0 { PlaceAt(content, "", n - 1); }
  }

  lemma NonesAreContent(before: seq<Placed>, ps: seq<Placed>, origin: Origin, missing: set<IniKey>, keys: map<IniKey, string>)
    requires Writable(keys) && missing <= keys.Keys && Traced(before, ps, origin, missing, keys)
    ensures forall j | 0 <= j < |origin| && origin[j].None? :: TrimSpace(ps[j].line) != ""
  {
    hide TrimSpace, SectionOf, AddedKey, Writable, Kept, Upto;
    forall j | 0 <= j < |origin| && origin[j].None? ensures TrimSpace(ps[j].line) != "" {
      assert AddedWell(ps, origin, j, missing, keys);
      AddedIsContent(ps[j], missing, keys);
    }
  }

  lemma FlushTraced(w: Weave, lines: seq<string>, missing: set<IniKey>, keys: map<IniKey, string>, origin: Origin) returns (o: Origin)
    requires Writable(keys) && missing <= keys.Keys && IniOverride.Sound(w, lines, missing, keys)
    requires Traced(Place(lines, ""), Place(w.out, ""), origin, missing, keys)
    ensures Traced(Place(lines, ""), Place(Flush(w).out, ""), o, missing, keys)
  {
    hide Writable, Rendered, Unmanaged, Insert, Seen, EndSection, Place, Pending, AllWhole, Traced, AllAdded, AllBlank, Block,
         TrimSpace;
    o := origin;
    if w.current in w.pending {
      PendingBlock(missing, keys, w.current);
      var names := Sorted(KeysIn(missing, w.current));
      var block := Block(names, w.current, keys);
      BlockEffect(names, w.current, keys);
      BlockIsAdded(names, w.current, missing, keys);
      var a, blanks := FlushPlaces(w.out, block, w.current);
      NonesAreContent(Place(lines, ""), Place(w.out, ""), origin, missing, keys);
      assert |origin| == |a + blanks| by { TracedLength(Place(lines, ""), a + blanks, origin, missing, keys); }
      o := TracedInsert(Place(lines, ""), a, Place(block, w.current), blanks, origin, missing, keys);
    }
  }

  lemma TracedLength(before: seq<Placed>, ps: seq<Placed>, origin: Origin, missing: set<IniKey>, keys: map<IniKey, string>)
    requires missing <= keys.Keys && Traced(before, ps, origin, missing, keys)
    ensures |origin| == |ps|
  {
    hide AddedWell, FromOld, Kept;
  }

  lemma {:induction false} WovenTraced(lines: seq<string>, missing: set<IniKey>, keys: map<IniKey, string>) returns (o: Origin)
    requires Writable(keys) && missing <= keys.Keys
    requires Rendered(Place(lines, ""), keys) && AllWhole(lines)
    ensures var ps := Place(Woven(lines, Pending(missing, keys)).out, "");
      |o| == |ps| && Traced(Place(lines, ""), ps, o, missing, keys) && Headed(ps, o)
    decreases |lines|
  {
    hide Writable, Rendered, Unmanaged, Flush, EndSection, Place, Pending, WholeLine, Read, Traced, Headed;
    if lines == [] {
      o := [];
      NothingTraced(missing, keys);
    } else {
      var n := |lines| - 1;
      var before, line := lines[..n], lines[n];
      assert lines == before + [line];
      AppendLine(before, line, keys);
      o := WovenTraced(before, missing, keys);
      WovenIsSound(before, missing, keys);
      var w := Woven(before, Pending(missing, keys));
      FlushIsSound(w, before, missing, keys);
      if SectionOf(line).Some? { o := FlushTraced(w, before, missing, keys, o); }
      var f := if SectionOf(line).Some? then Flush(w) else w;
      AppendLine(f.out, line, keys);
      TracedLength(Place(before, ""), Place(f.out, ""), o, missing, keys);
      var p := Placed(SectionAfter(line, EndSection(before, "")), line);
      TracedAppend(Place(before, ""), Place(f.out, ""), o, p, missing, keys);
      o := o + [Some(|Place(before, "")|)];
    }
  }

  lemma NothingTraced(missing: set<IniKey>, keys: map<IniKey, string>)
    requires missing <= keys.Keys
    ensures var out := Woven([], Pending(missing, keys)).out;
      Place(out, "") == [] && Traced(Place([], ""), Place(out, ""), [], missing, keys) && Headed(Place(out, ""), [])
  {
    hide Pending;
    assert Upto(0) == [];
  }

  // ---- the sections that were not there ----

  /** The header of a section the file lacked, for a key that it is to hold. */
  predicate AddedHeader(p: Placed, secs: seq<string>, missing: set<IniKey>) {
    p.section in secs && p.line == "[" + p.section + "]" && exists ik | ik in missing :: ik.section == p.section
  }

  predicate NewLine(ps: seq<Placed>, j: nat, secs: seq<string>, missing: set<IniKey>, keys: map<IniKey, string>)
    requires j < |ps| && missing <= keys.Keys
  {
    && TrimSpace(ps[j].line) != ""
    && (AddedHeader(ps[j], secs, missing) || (j > 0 && AddedKey(ps[j], missing, keys)))
  }

  predicate AllNew(ps: seq<Placed>, secs: seq<string>, missing: set<IniKey>, keys: map<IniKey, string>)
    requires missing <= keys.Keys
  {
    forall j | 0 <= j < |ps| :: NewLine(ps, j, secs, missing, keys)
  }

  lemma {:induction false} NewSectionsPlaced(secs: seq<string>, from: string, missing: set<IniKey>, keys: map<IniKey, string>)
    requires Additions(secs, missing, keys)
    ensures AllNew(Place(NewSections(secs, Pending(missing, keys)), from), secs, missing, keys)
    decreases |secs|
  {
    hide Pending, StrictlySorted, Block, Place, WholeLine, BlockOf, Writable, AllNew, AllAdded, TrimSpace;
    if secs == [] {
      NoAdditions(from, missing, keys);
      assert AllNew([], secs, missing, keys) by { NoneNew(secs, missing, keys); }
    } else {
      var n := |secs| - 1;
      var s := secs[n];
      LastAdditionNames(secs, missing, keys);
      var head, header, block := LastAddition(secs, from, missing, keys);
      NewSectionsPlaced(secs[..n], from, missing, keys);
      BlockIsAdded(Wanted(missing, s), s, missing, keys);
      var h := Placed(s, header[0]);
      assert AddedHeader(h, secs, missing) && TrimSpace(h.line) != "" by {
        SectionWanted(missing, keys, s);
        HeaderIsContent(h.line, s);
        assert s in secs;
      }
      NewMore(Place(head, from), h, Place(block, s), secs, missing, keys);
    }
  }

  lemma SectionWanted(missing: set<IniKey>, keys: map<IniKey, string>, s: string)
    requires missing <= keys.Keys && s in Pending(missing, keys)
    ensures exists ik | ik in missing :: ik.section == s
  {}

  lemma HeaderIsContent(line: string, s: string)
    requires Read(line) == Header(s)
    ensures TrimSpace(line) != "" && SectionOf(line).Some?
  {
    hide TrimSpace;
  }

  lemma NoneNew(secs: seq<string>, missing: set<IniKey>, keys: map<IniKey, string>)
    requires missing <= keys.Keys
    ensures AllNew([], secs, missing, keys)
  {}

  lemma NewMore(head: seq<Placed>, h: Placed, block: seq<Placed>, secs: seq<string>, missing: set<IniKey>, keys: map<IniKey, string>)
    requires missing <= keys.Keys && secs != [] && AllNew(head, secs[..|secs| - 1], missing, keys)
    requires AddedHeader(h, secs, missing) && TrimSpace(h.line) != "" && AllAdded(block, missing, keys)
    ensures AllNew((head + [h]) + block, secs, missing, keys)
  {
    hide TrimSpace, AddedKey;
    var ps := (head + [h]) + block;
    forall j | 0 <= j < |ps| ensures NewLine(ps, j, secs, missing, keys) {
      if j < |head| {
        assert NewLine(head, j, secs[..|secs| - 1], missing, keys) && ps[j] == head[j];
      } else if j > |head| {
        assert ps[j] == block[j - |head| - 1] && block[j - |head| - 1] in block;
      }
    }
  }

  // ---- the whole patch, line by line ----

  ghost predicate AddedLast(ps: seq<Placed>, origin: Origin, j: nat, secs: seq<string>, missing: set<IniKey>)
    requires |origin| == |ps| && j < |ps|
  {
    AddedHeader(ps[j], secs, missing) && forall m | j < m < |ps| :: origin[m].None?
  }

  ghost predicate Patched(before: seq<Placed>, ps: seq<Placed>, origin: Origin, secs: seq<string>,
                          missing: set<IniKey>, keys: map<IniKey, string>)
    requires missing <= keys.Keys
  {
    && |origin| == |ps| && Kept(origin) == Upto(|before|)
    && (forall j | 0 <= j < |ps| :: FromOld(before, ps[j], origin[j]))
    && (forall j | 0 <= j < |ps| && origin[j].None? ::
          AddedWell(ps, origin, j, missing, keys) || AddedLast(ps, origin, j, secs, missing))
  }

  lemma TracedThenNew(before: seq<Placed>, ps: seq<Placed>, origin: Origin, more: seq<Placed>, secs: seq<string>,
                      missing: set<IniKey>, keys: map<IniKey, string>) returns (o: Origin)
    requires missing <= keys.Keys && Traced(before, ps, origin, missing, keys) && AllNew(more, secs, missing, keys)
    ensures Patched(before, ps + more, o, secs, missing, keys)
  {
    hide TrimSpace, SectionOf, AddedKey, AddedHeader, Kept, Upto;
    o := origin + Nones(|more|);
    KeptConcat(origin, Nones(|more|));
    NonesKeepNone(Nones(|more|));
    var qs := ps + more;
    forall j | 0 <= j < |qs|
      ensures FromOld(before, qs[j], o[j])
      ensures o[j].None? ==> AddedWell(qs, o, j, missing, keys) || AddedLast(qs, o, j, secs, missing)
    {
      if j < |ps| {
        assert FromOld(before, ps[j], origin[j]) && qs[j] == ps[j] && o[j] == origin[j];
        if o[j].None? {
          assert AddedWell(ps, origin, j, missing, keys);
          assert j > 0 ==> qs[j - 1] == ps[j - 1];
          NewCloses(ps, origin, more, j);
        }
      } else {
        assert NewLine(more, j - |ps|, secs, missing, keys) && qs[j] == more[j - |ps|];
        if j > |ps| { assert NewLine(more, j - |ps| - 1, secs, missing, keys) && qs[j - 1] == more[j - |ps| - 1]; }
      }
    }
  }

  lemma NewCloses(ps: seq<Placed>, origin: Origin, more: seq<Placed>, j: nat)
    requires |origin| == |ps| && j < |ps| && Closes(ps, origin, j)
    ensures Closes(ps + more, origin + Nones(|more|), j)
  {
    hide TrimSpace, SectionOf;
    var qs, o := ps + more, origin + Nones(|more|);
    forall m | j < m < |qs| && o[m].Some? && TrimSpace(qs[m].line) != "" ensures exists h | j < h <= m :: SectionOf(qs[h].line).Some? {
      assert m < |ps| && qs[m] == ps[m] && o[m] == origin[m];
      var h :| j < h <= m && SectionOf(ps[h].line).Some?;
      assert qs[h] == ps[h];
    }
  }

  lemma PatchIsPatched(lines: seq<string>, keys: map<IniKey, string>) returns (o: Origin)
    requires Writable(keys) && AllWhole(lines)
    ensures Patched(Place(Rewrite(lines, "", keys), ""), Place(Patch(lines, keys), ""), o,
                    SectionsAdded(lines, keys), Missing(lines, keys), keys)
  {
    hide Writable, Rendered, Unmanaged, Rewrite, Woven, Flush, StrictlySorted, WholeLine, Place, Pending, Patch, Traced,
         Patched, AllNew, Missing;
    var missing, r := Missing(lines, keys), Rewrite(lines, "", keys);
    MissingIsAccepted(lines, keys);
    RewriteEffect(lines, "", keys);
    o := WovenTraced(r, missing, keys);
    WovenIsSound(r, missing, keys);
    var w0 := Woven(r, Pending(missing, keys));
    o := FlushTraced(w0, r, missing, keys, o);
    var w, secs := PatchShape(lines, keys);
    NewSectionsPlaced(secs, w.current, missing, keys);
    var more := Place(NewSections(secs, Pending(missing, keys)), w.current);
    o := TracedThenNew(Place(r, ""), Place(w.out, ""), o, more, secs, missing, keys);
  }

  lemma MissingIsAccepted(lines: seq<string>, keys: map<IniKey, string>)
    ensures Missing(lines, keys) <= keys.Keys
  {}

  // ---- told on the text ----

  /** Line i assigns the key, under the header of its section. */
  ghost predicate SetsAt(lines: seq<string>, i: nat, ik: IniKey)
    requires i < |lines|
  {
    Under(lines, i, ik.section) && exists value :: Sets(lines[i], ik.key, value)
  }

  ghost predicate SetNowhere(lines: seq<string>, ik: IniKey) {
    forall i | 0 <= i < |lines| :: !SetsAt(lines, i, ik)
  }

  lemma SetsAtReads(lines: seq<string>, i: nat, ik: IniKey)
    requires i < |lines|
    ensures |Place(lines, "")| == |lines| && Place(lines, "")[i].line == lines[i]
    ensures SetsAt(lines, i, ik) <==> Assigned(Place(lines, "")[i]) == Some(ik)
    ensures !IsTitle(lines[i]) ==> forall s :: Under(lines, i, s) <==> Place(lines, "")[i].section == s
  {
    hide SectionOf, Titled, Sets, Read, Place, EndSection, Under, IsTitle;
    PlaceAt(lines, "", i);
    var here := EndSection(lines[..i], "");
    TitleReads(lines[i]);
    SectionAfterHeader(lines[i], here);
    forall s ensures Under(lines, i, s) <==> here == s { UnderIsEndSection(lines, i, s); }
    forall value ensures Sets(lines[i], ik.key, value) <==> Read(lines[i]) == Assign(ik.key, value) {
      SetsReads(lines[i], ik.key, value);
    }
    AssignsNoHeader(lines[i]);
  }

  lemma AssignsNoHeader(line: string)
    ensures Read(line).Assign? ==> SectionOf(line).None?
  {
    hide TrimSpace;
  }

  lemma BlankIsTrimmed(line: string)
    ensures Blank(line) <==> TrimSpace(line) == ""
  {
    hide IsSpace, TrimSpace;
    if Blank(line) {
      assert line == line + "" + "";
      TrimOf(line, "", "");
    } else {
      var a, b := TrimParts(line);
      assert TrimSpace(line) == "" ==> line == a + b;
    }
  }

  /** A line of the old file: rewritten when it assigned an accepted key, as it
      was when not, and under the header it was under. */
  ghost predicate OldLine(before: seq<string>, i: nat, after: seq<string>, j: nat, keys: map<IniKey, string>)
    requires i < |before| && j < |after|
  {
    && (forall ik | ik in keys && SetsAt(before, i, ik) :: after[j] == ik.key + "=" + keys[ik])
    && ((forall ik | ik in keys :: !SetsAt(before, i, ik)) ==> after[j] == before[i])
    && (!IsTitle(before[i]) ==> forall s :: Under(after, j, s) <==> Under(before, i, s))
  }

  /** A new line for an accepted key that no line assigned: in its section, right
      after the section's last line with content. */
  ghost predicate NewKey(before: seq<string>, after: seq<string>, origin: Origin, j: nat, ik: IniKey, keys: map<IniKey, string>)
    requires |origin| == |after| && j < |after|
  {
    && ik in keys && SetNowhere(before, ik)
    && after[j] == ik.key + "=" + keys[ik] && Under(after, j, ik.section)
    && (j > 0 ==> !Blank(after[j - 1]))
    && forall m | j < m < |after| && origin[m].Some? && !Blank(after[m]) :: exists h | j < h <= m :: IsTitle(after[h])
  }

  /** The header of a section the file lacked, below all of the old file. */
  ghost predicate NewHeader(before: seq<string>, after: seq<string>, origin: Origin, j: nat, ik: IniKey, keys: map<IniKey, string>)
    requires |origin| == |after| && j < |after|
  {
    && ik in keys && SetNowhere(before, ik) && ik.section != ""
    && (forall i | 0 <= i < |before| :: !Titled(before[i], ik.section))
    && after[j] == "[" + ik.section + "]"
    && forall m | j < m < |after| :: origin[m].None?
  }

  /** Where every line of the new file comes from, and that every line of the old
      one is there, in order. */
  ghost predicate PatchedText(before: seq<string>, after: seq<string>, origin: Origin, keys: map<IniKey, string>) {
    && |origin| == |after| && Kept(origin) == Upto(|before|)
    && forall j | 0 <= j < |after| ::
         match origin[j]
         case Some(i) => i < |before| && OldLine(before, i, after, j, keys)
         case None => exists ik :: NewKey(before, after, origin, j, ik, keys) || NewHeader(before, after, origin, j, ik, keys)
  }

  lemma OldLineText(lines: seq<string>, after: seq<string>, keys: map<IniKey, string>, i: nat, j: nat)
    requires Writable(keys) && i < |lines| && j < |after|
    requires |Place(after, "")| == |after| && |Place(Rewrite(lines, "", keys), "")| == |lines|
    requires Place(after, "")[j] == Place(Rewrite(lines, "", keys), "")[i]
    ensures OldLine(lines, i, after, j, keys)
  {
    hide SectionOf, Titled, Read, Place, EndSection, Under, IsTitle, Rewrite, Writable, Sets, SetsAt, Rewritten;
    var here := EndSection(lines[..i], "");
    RewrittenAt(lines, "", keys, i);
    PlaceAt(Rewrite(lines, "", keys), "", i);
    SetsAtReads(after, j, IniKey("", ""));
    RewrittenLineAt(lines[i], here, keys);
    forall ik ensures SetsAt(lines, i, ik) <==> Assigned(Placed(SectionAfter(lines[i], here), lines[i])) == Some(ik) {
      SetsAtReads(lines, i, ik);
      PlaceAt(lines, "", i);
    }
    TitleReads(lines[i]);
    TitleReads(after[j]);
    SetsAtReads(lines, i, IniKey("", ""));
    PlaceAt(lines, "", i);
  }

  /** One line rewritten, with the section it is read in. */
  lemma RewrittenLineAt(line: string, here: string, keys: map<IniKey, string>)
    requires Writable(keys)
    ensures var r, at := Rewritten(line, here, keys), Assigned(Placed(SectionAfter(line, here), line));
      && (at.Some? && at.value in keys ==> r == at.value.key + "=" + keys[at.value])
      && (!(at.Some? && at.value in keys) ==> r == line)
      && SectionAfter(r, here) == SectionAfter(line, here)
      && SectionOf(r).Some? == SectionOf(line).Some?
  {
    hide SectionOf, Writable;
    RewrittenLine(line, here, keys);
    SectionAfterHeader(line, here);
    AssignsNoHeader(line);
    AssignsNoHeader(Rewritten(line, here, keys));
  }

  lemma {:induction false} RewrittenAt(lines: seq<string>, section: string, keys: map<IniKey, string>, i: nat)
    requires Writable(keys) && i < |lines|
    ensures Rewrite(lines, section, keys)[i] == Rewritten(lines[i], EndSection(lines[..i], section), keys)
    ensures EndSection(Rewrite(lines, section, keys)[..i], section) == EndSection(lines[..i], section)
    decreases i
  {
    hide SectionAfter, Rewritten, Writable;
    var sec := SectionAfter(lines[0], section);
    if i > 0 {
      RewrittenAt(lines[1..], sec, keys, i - 1);
      RewrittenLine(lines[0], section, keys);
      assert lines[1..][..i - 1] == lines[..i][1..];
      var r := Rewrite(lines, section, keys);
      assert r[1..] == Rewrite(lines[1..], sec, keys) && r[..i][1..] == r[1..][..i - 1];
    }
  }

  lemma {:induction false} PresentIsSet(lines: seq<string>, section: string, ik: IniKey)
    ensures ik in Present(lines, section) <==> exists p :: p in Place(lines, section) && Assigned(p) == Some(ik)
    decreases |lines|
  {
    hide Read, SectionOf;
    if lines != [] {
      var sec := SectionAfter(lines[0], section);
      PresentIsSet(lines[1..], sec, ik);
      var ps := Place(lines, section);
      assert ps == [Placed(sec, lines[0])] + Place(lines[1..], sec);
      AssignedHere(lines[0], section);
      if ik in Present(lines, section) {
        if ik in Present(lines[1..], sec) {
          var p :| p in Place(lines[1..], sec) && Assigned(p) == Some(ik);
          assert p in ps;
        } else {
          assert ps[0] in ps;
        }
      }
    }
  }

  /** A line that assigns is no header, so it is read in the section above it. */
  lemma AssignedHere(line: string, section: string)
    ensures Assigned(Placed(SectionAfter(line, section), line)) == Assigned(Placed(section, line))
  {
    hide SectionOf, TrimSpace;
  }

  lemma MissingIsNowhere(lines: seq<string>, keys: map<IniKey, string>, ik: IniKey)
    requires ik in keys
    ensures ik in Missing(lines, keys) <==> SetNowhere(lines, ik)
  {
    hide Read, SectionOf, Place, SetsAt, Present, Assigned;
    var ps := Place(lines, "");
    PresentIsSet(lines, "", ik);
    PlaceLength(lines, "");
    forall i | 0 <= i < |lines| ensures SetsAt(lines, i, ik) <==> Assigned(ps[i]) == Some(ik) { SetsAtReads(lines, i, ik); }
    if !SetNowhere(lines, ik) {
      var i :| 0 <= i < |lines| && SetsAt(lines, i, ik);
      assert ps[i] in ps;
    }
    if exists p :: p in ps && Assigned(p) == Some(ik) {
      var p :| p in ps && Assigned(p) == Some(ik);
      var i :| 0 <= i < |ps| && ps[i] == p;
      assert SetsAt(lines, i, ik);
    }
  }

  lemma NewKeyText(lines: seq<string>, after: seq<string>, origin: Origin, keys: map<IniKey, string>, j: nat)
    requires Writable(keys) && |origin| == |after| == |Place(after, "")| && j < |after| && Missing(lines, keys) <= keys.Keys
    requires AddedWell(Place(after, ""), origin, j, Missing(lines, keys), keys)
    ensures exists ik :: NewKey(lines, after, origin, j, ik, keys)
  {
    hide SectionOf, Titled, Read, Place, Under, IsTitle, Writable, SetNowhere, Missing, TrimSpace, Blank, SetsAt;
    var ps, missing := Place(after, ""), Missing(lines, keys);
    AddedIsContent(ps[j], missing, keys);
    var ik :| ik in missing && ps[j] == Placed(ik.section, Format(ik.key, keys[ik]));
    MissingIsNowhere(lines, keys, ik);
    SetsAtReads(after, j, ik);
    TitleReads(after[j]);
    forall m | 0 <= m < |after|
      ensures ps[m].line == after[m] && (Blank(after[m]) <==> TrimSpace(after[m]) == "")
      ensures IsTitle(after[m]) <==> SectionOf(after[m]).Some?
    {
      SetsAtReads(after, m, ik);
      BlankIsTrimmed(after[m]);
      TitleReads(after[m]);
    }
    forall m | j < m < |after| && origin[m].Some? && !Blank(after[m]) ensures exists h | j < h <= m :: IsTitle(after[h]) {
      var h :| j < h <= m && SectionOf(ps[h].line).Some?;
      assert IsTitle(after[h]);
    }
    assert NewKey(lines, after, origin, j, ik, keys);
  }

  lemma {:induction false} SeenIsTitled(lines: seq<string>, s: string)
    ensures s in Seen(lines) <==> s == "" || exists i | 0 <= i < |lines| :: Titled(lines[i], s)
    decreases |lines|
  {
    hide Titled, SectionOf;
    if lines != [] {
      var n := |lines| - 1;
      SeenIsTitled(lines[..n], s);
      TitledReads(lines[n], s);
      if exists i | 0 <= i < |lines| :: Titled(lines[i], s) {
        var i :| 0 <= i < |lines| && Titled(lines[i], s);
        if i < n { assert lines[..n][i] == lines[i]; }
      }
      if exists i | 0 <= i < n :: Titled(lines[..n][i], s) {
        var i :| 0 <= i < n && Titled(lines[..n][i], s);
        assert Titled(lines[i], s);
      }
    }
  }

  lemma NewHeaderText(lines: seq<string>, after: seq<string>, origin: Origin, keys: map<IniKey, string>, j: nat)
    requires |origin| == |after| == |Place(after, "")| && j < |after|
    requires AddedLast(Place(after, ""), origin, j, SectionsAdded(lines, keys), Missing(lines, keys))
    ensures exists ik :: NewHeader(lines, after, origin, j, ik, keys)
  {
    hide SectionOf, Titled, Read, Place, Under, IsTitle, SetNowhere, Missing, TrimSpace, Seen, StrictlySorted;
    var p, missing := Place(after, "")[j], Missing(lines, keys);
    MissingIsAccepted(lines, keys);
    var ik :| ik in missing && ik.section == p.section;
    MissingIsNowhere(lines, keys, ik);
    SetsAtReads(after, j, ik);
    assert p.section in (set k | k in missing :: k.section) - Seen(lines);
    SeenIsTitled(lines, p.section);
    assert NewHeader(lines, after, origin, j, ik, keys);
  }

  /** The patched lines, told on the text. */
  lemma PatchText(lines: seq<string>, keys: map<IniKey, string>) returns (origin: Origin)
    requires Writable(keys) && AllWhole(lines)
    ensures PatchedText(lines, Patch(lines, keys), origin, keys)
  {
    hide SectionOf, Titled, Read, Place, Under, IsTitle, Missing, TrimSpace, Seen, StrictlySorted, Writable, AllWhole, Kept, Upto,
         Rewrite, Patch, AddedWell, AddedLast, OldLine, NewKey, NewHeader, SectionsAdded;
    var after, missing, r := Patch(lines, keys), Missing(lines, keys), Rewrite(lines, "", keys);
    MissingIsAccepted(lines, keys);
    origin := PatchIsPatched(lines, keys);
    PlaceLength(after, "");
    PlaceLength(r, "");
    forall j | 0 <= j < |after|
      ensures origin[j].Some? ==> origin[j].value < |lines| && OldLine(lines, origin[j].value, after, j, keys)
      ensures origin[j].None? ==>
                exists ik :: NewKey(lines, after, origin, j, ik, keys) || NewHeader(lines, after, origin, j, ik, keys)
    {
      assert FromOld(Place(r, ""), Place(after, "")[j], origin[j]);
      if origin[j].Some? {
        OldLineText(lines, after, keys, origin[j].value, j);
      } else {
        LineIsNew(lines, after, origin, keys, j);
      }
    }
  }

  lemma LineIsNew(lines: seq<string>, after: seq<string>, origin: Origin, keys: map<IniKey, string>, j: nat)
    requires Writable(keys) && |origin| == |after| == |Place(after, "")| && j < |after| && Missing(lines, keys) <= keys.Keys
    requires AddedWell(Place(after, ""), origin, j, Missing(lines, keys), keys)
             || AddedLast(Place(after, ""), origin, j, SectionsAdded(lines, keys), Missing(lines, keys))
    ensures exists ik :: NewKey(lines, after, origin, j, ik, keys) || NewHeader(lines, after, origin, j, ik, keys)
  {
    hide Place, Missing, Writable, AddedWell, AddedLast, NewKey, NewHeader, SectionsAdded;
    if AddedWell(Place(after, ""), origin, j, Missing(lines, keys), keys) {
      NewKeyText(lines, after, origin, keys, j);
      var ik :| NewKey(lines, after, origin, j, ik, keys);
    } else {
      NewHeaderText(lines, after, origin, keys, j);
      var ik :| NewHeader(lines, after, origin, j, ik, keys);
    }
  }

  /** Every line that assigns the key says the new value, and one does. */
  ghost predicate SaysSo(after: seq<string>, ik: IniKey, value: string) {
    && (exists j | 0 <= j < |after| :: SetsAt(after, j, ik))
    && forall j | 0 <= j < |after| && SetsAt(after, j, ik) :: after[j] == ik.key + "=" + value
  }

  lemma PatchSaysSo(lines: seq<string>, keys: map<IniKey, string>, ik: IniKey)
    requires Writable(keys) && AllWhole(lines) && ik in keys
    ensures SaysSo(Patch(lines, keys), ik, keys[ik])
  {
    hide Place, Writable, AllWhole, Patch, SetsAt, Read, Unmanaged, SectionsAdded, Headers, Missing;
    var after := Patch(lines, keys);
    var ps := Place(after, "");
    PatchOverrides(lines, keys);
    PlaceLength(after, "");
    forall j | 0 <= j < |after|
      ensures ps[j].line == after[j] && (SetsAt(after, j, ik) <==> Assigned(ps[j]) == Some(ik))
    {
      SetsAtReads(after, j, ik);
    }
    forall j | 0 <= j < |after| && SetsAt(after, j, ik) ensures after[j] == ik.key + "=" + keys[ik] {
      assert ps[j] in ps && Managed(ps[j], keys);
    }
    assert Values(ps, ik) != [];
    var j := ValuedSomewhere(ps, ik);
    assert SetsAt(after, j, ik);
  }

  lemma {:induction false} ValuedSomewhere(ps: seq<Placed>, ik: IniKey) returns (j: nat)
    requires Values(ps, ik) != []
    ensures j < |ps| && Assigned(ps[j]) == Some(ik)
    decreases |ps|
  {
    hide Read, Assigned;
    if Assigned(ps[0]) == Some(ik) {
      j := 0;
    } else {
      j := ValuedSomewhere(ps[1..], ik);
      j := j + 1;
    }
  }

  /** What the patcher writes, told on the text alone. Every line of the old file
      is there, in order and under its header: a line of blanks, a key, blanks, =
      and a value, under the header of an accepted key's section, is that key with
      its new value; any other line, a comment above all, is as it was. The lines
      besides are new ones: for each accepted key no line assigned, in its section
      after the last line with content, or below a header of its own at the end.
      And every accepted key is assigned, and assigned nothing else. */
  lemma RenderedText(cur: string, vals: map<string, string>)
    ensures exists after, origin ::
      && Render(cur, vals) == Unlines(after)
      && PatchedText(Lines(cur), after, origin, Keys(vals))
      && forall ik | ik in Keys(vals) :: SaysSo(after, ik, Keys(vals)[ik])
  {
    hide Patch, AllWhole, PatchedText, SaysSo, WholeLine, Writable;
    var lines, keys := Lines(cur), Keys(vals);
    LinesAreWhole(cur);
    assert AllWhole(lines) by { WholeIsAllWhole(lines); }
    AcceptedIsWritable(Sorted(vals.Keys), vals);
    var origin := PatchText(lines, keys);
    forall ik | ik in keys ensures SaysSo(Patch(lines, keys), ik, keys[ik]) { PatchSaysSo(lines, keys, ik); }
  }

  lemma WholeIsAllWhole(lines: seq<string>)
    requires forall line | line in lines :: WholeLine(line)
    ensures AllWhole(lines)
  {
    hide WholeLine;
  }

  /** A comment is neither a header nor an assignment, whatever is in it. */
  lemma CommentsSayNothing(a: string, text: string, key: string, value: string)
    requires Blank(a) && text != "" && (text[0] == '#' || text[0] == ';')
    ensures !IsTitle(a + text) && !Sets(a + text, key, value)
  {
    hide IsSpace, TrimLeft, TrimRight, Blank, Titled;
    BracketsAreNoBlanks();
    var line := a + text;
    TrimLeftOf(a, text);
    TrimRightKeeps(text);
    TitleReads(line);
    SetsReads(line, key, value);
  }

  // ---- keys as they are written ----

  predicate NoBrackets(s: string) { '[' !in s && ']' !in s }

  lemma {:induction false} DepthOf(s: string)
    requires NoBrackets(s)
    ensures Depth(s) == 0 && WithoutBrackets(s) == s
    decreases |s|
  {
    if s != "" {
      var t := s[..|s| - 1];
      assert s[|s| - 1] in s;
      forall c | c in t ensures c in s {}
      DepthOf(t);
      assert s == t + [s[|s| - 1]];
    }
  }

  lemma {:induction false} BracketsConcat(a: string, b: string)
    ensures Depth(a + b) == Depth(a) + Depth(b) && WithoutBrackets(a + b) == WithoutBrackets(a) + WithoutBrackets(b)
    decreases |b|
  {
    if b == "" {
      assert a + b == a;
    } else {
      assert (a + b)[..|a + b| - 1] == a + b[..|b| - 1];
      BracketsConcat(a, b[..|b| - 1]);
    }
  }

  lemma BracketedOf(s: string)
    requires NoBrackets(s)
    ensures Depth("[" + s) == 1 && Depth("[" + s + "]") == 0 && WithoutBrackets("[" + s + "]") == s
  {
    DepthOf(s);
    assert "["[..0] == "" && "]"[..0] == "";
    BracketsConcat("[", s);
    BracketsConcat("[" + s, "]");
  }

  /** section.key, [section.with.dots].key and key, spaces around each part
      allowed: the ways a key is written that say what they look like. */
  lemma WrittenKeys(s: string, k: string)
    requires NoBrackets(s) && NoBrackets(k)
    ensures '.' !in s ==> KeyOf(s + "." + k) == IniKey(TrimSpace(s), TrimSpace(k))
    ensures KeyOf("[" + s + "]." + k) == IniKey(TrimSpace(s), TrimSpace(k))
    ensures '.' !in k ==> KeyOf(k) == IniKey("", TrimSpace(k))
  {
    hide TrimSpace;
    if '.' !in s { DottedKey(s, k); }
    BracketedKey(s, k);
    if '.' !in k { TopKey(k); }
  }

  lemma TopKey(k: string)
    requires NoBrackets(k) && '.' !in k
    ensures KeyOf(k) == IniKey("", TrimSpace(k))
  {
    hide TrimSpace;
    DepthOf(k);
    assert forall j | 0 <= j < |k| :: k[j] in k;
  }

  lemma DottedKey(s: string, k: string)
    requires NoBrackets(s) && NoBrackets(k) && '.' !in s
    ensures KeyOf(s + "." + k) == IniKey(TrimSpace(s), TrimSpace(k))
  {
    hide TrimSpace, Depth, WithoutBrackets;
    var x := s + "." + k;
    DepthOf(s);
    DepthOf(k);
    assert x[..|s|] == s && x[|s| + 1..] == k && x[|s|] == '.';
    forall j | 0 <= j < |s| ensures x[j] != '.' { assert x[j] == s[j] && s[j] in s; }
  }

  lemma BracketedKey(s: string, k: string)
    requires NoBrackets(s) && NoBrackets(k)
    ensures KeyOf("[" + s + "]." + k) == IniKey(TrimSpace(s), TrimSpace(k))
  {
    hide TrimSpace, Depth, WithoutBrackets;
    var head, n := "[" + s + "]", |s| + 2;
    var x := "[" + s + "]." + k;
    BracketedOf(s);
    DepthOf(k);
    assert x == head + "." + k;
    assert x[..n] == head && x[n + 1..] == k && x[n] == '.';
    forall j | 0 <= j < n && x[j] == '.' ensures Depth(x[..j]) > 0 {
      assert 1 <= j <= |s|;
      assert x[..j] == "[" + s[..j - 1];
      InBrackets(s, j - 1);
    }
  }

  lemma InBrackets(s: string, j: nat)
    requires NoBrackets(s) && j <= |s|
    ensures Depth("[" + s[..j]) == 1
  {
    forall c | c in s[..j] ensures c in s {}
    BracketedOf(s[..j]);
  }
}
