/** What the properties patcher does to a file, told on the file's text. */
module PropertiesText {
  import opened Text
  import opened Properties
  import IniText

  /** Blanks, a key with blanks after it, =, a value; not a comment. */
  ghost predicate Sets(line: string, key: string, value: string) {
    && Trimmed(key) && '=' !in key
    && (key != "" ==> key[0] != '#' && key[0] != '!' && key[0] != ';')
    && exists a, b :: IniText.SetsWith(line, key, value, a, b)
  }

  lemma MarksAreNoBlanks()
    ensures !IsSpace('=') && !IsSpace('#') && !IsSpace('!') && !IsSpace(';')
  {}

  /** What is read as an assignment is one: the key without the blanks around it,
      the value as it stands. */
  lemma SetsReads(line: string, key: string, value: string)
    ensures Sets(line, key, value) <==> Read(line) == Assign(key, value)
  {
    hide IsSpace, TrimSpace, Blank, IndexOf, IniText.SetsWith;
    if Sets(line, key, value) {
      var a, b :| IniText.SetsWith(line, key, value, a, b);
      SetsAsRead(line, key, value, a, b);
    }
    if Read(line) == Assign(key, value) { ReadsSets(line, key, value); }
  }

  lemma SetsAsRead(line: string, key: string, value: string, a: string, b: string)
    requires IniText.SetsWith(line, key, value, a, b) && Trimmed(key) && '=' !in key
    requires key != "" ==> key[0] != '#' && key[0] != '!' && key[0] != ';'
    ensures Read(line) == Assign(key, value)
  {
    hide IsSpace, TrimSpace, Blank, IndexOf;
    IniText.NoEqualsIn(a);
    IniText.NoEqualsIn(b);
    assert line == (a + key + b) + ['='] + value;
    IndexOfAfter(a + key + b, '=', value);
    TrimOf(a, key, b);
    if key != "" { IniText.KeyBegins(line, key, value, a, b); } else { EqualsBegins(line, value, a, b); }
  }

  lemma EqualsBegins(line: string, value: string, a: string, b: string)
    requires IniText.SetsWith(line, "", value, a, b)
    ensures TrimSpace(line) != "" && TrimSpace(line)[0] == '='
  {
    hide IsSpace, TrimLeft, TrimRight, Blank;
    MarksAreNoBlanks();
    var rest := "=" + value;
    assert line == (a + b) + rest;
    IniText.BlankTwice(a, b);
    TrimLeftOf(a + b, rest);
    TrimRightKeeps(rest);
  }

  lemma ReadsSets(line: string, key: string, value: string)
    requires Read(line) == Assign(key, value)
    ensures Sets(line, key, value)
  {
    hide IsSpace, TrimSpace, IndexOf;
    var j := IndexOf(line, '=');
    var a, b := TrimParts(line[..j]);
    TrimSpaceTrims(line[..j]);
    assert line == line[..j] + "=" + line[j + 1..];
    assert '=' !in line[..j];
    assert IniText.SetsWith(line, key, value, a, b);
    if key != "" { IniText.KeyBegins(line, key, value, a, b); }
  }

  /** A comment assigns nothing, whatever is in it. */
  lemma CommentsSayNothing(a: string, text: string, key: string, value: string)
    requires Blank(a) && text != "" && (text[0] == '#' || text[0] == '!' || text[0] == ';')
    ensures !Sets(a + text, key, value)
  {
    hide IsSpace, TrimLeft, TrimRight, Blank;
    MarksAreNoBlanks();
    var line := a + text;
    TrimLeftOf(a, text);
    TrimRightKeeps(text);
    SetsReads(line, key, value);
  }

  ghost predicate SetsKey(line: string, key: string) { exists value :: Sets(line, key, value) }

  ghost predicate SetNowhere(lines: seq<string>, key: string) { forall line | line in lines :: !SetsKey(line, key) }

  lemma SetsKeyReads(line: string, key: string)
    ensures SetsKey(line, key) <==> Read(line).Assign? && Read(line).key == key
  {
    hide Sets, Read;
    if SetsKey(line, key) {
      var value :| Sets(line, key, value);
      SetsReads(line, key, value);
    }
    if Read(line).Assign? { SetsReads(line, Read(line).key, Read(line).value); }
  }

  /** The old lines in their places, an accepted key's with its new value, all
      others as they were; then, in order, a line for each accepted key that no
      line assigned. */
  ghost predicate PatchedText(before: seq<string>, after: seq<string>, added: seq<string>, keys: map<string, string>) {
    && |after| == |before| + |added|
    && (forall i | 0 <= i < |before| ::
          && (forall key | key in keys && SetsKey(before[i], key) :: after[i] == key + "=" + keys[key])
          && ((forall key | key in keys :: !SetsKey(before[i], key)) ==> after[i] == before[i]))
    && StrictlySorted(added) && (forall key :: key in added <==> key in keys && SetNowhere(before, key))
    && forall j | 0 <= j < |added| :: added[j] in keys && after[|before| + j] == added[j] + "=" + keys[added[j]]
  }

  lemma RewrittenText(line: string, keys: map<string, string>)
    ensures forall key | key in keys && SetsKey(line, key) :: Rewritten(line, keys) == key + "=" + keys[key]
    ensures (forall key | key in keys :: !SetsKey(line, key)) ==> Rewritten(line, keys) == line
  {
    hide Read, SetsKey;
    forall key ensures SetsKey(line, key) <==> Read(line).Assign? && Read(line).key == key { SetsKeyReads(line, key); }
  }

  lemma PresentIsSet(lines: seq<string>, key: string)
    ensures key !in Present(lines) <==> SetNowhere(lines, key)
  {
    hide Read, SetsKey;
    forall line ensures SetsKey(line, key) <==> Read(line).Assign? && Read(line).key == key { SetsKeyReads(line, key); }
  }

  lemma PatchText(lines: seq<string>, keys: map<string, string>)
    ensures PatchedText(lines, Patch(lines, keys), Sorted(keys.Keys - Present(lines)), keys)
  {
    hide Read, SetsKey, SetNowhere, Present, StrictlySorted, Rewritten;
    var added := Sorted(keys.Keys - Present(lines));
    var after := Patch(lines, keys);
    forall key ensures key in added <==> key in keys && SetNowhere(lines, key) { PresentIsSet(lines, key); }
    forall i | 0 <= i < |lines|
      ensures forall key | key in keys && SetsKey(lines[i], key) :: after[i] == key + "=" + keys[key]
      ensures (forall key | key in keys :: !SetsKey(lines[i], key)) ==> after[i] == lines[i]
    {
      RewrittenText(lines[i], keys);
      assert after[i] == Rewritten(lines[i], keys);
    }
    forall j | 0 <= j < |added| ensures added[j] in keys && after[|lines| + j] == added[j] + "=" + keys[added[j]] {
      assert added[j] in added;
      assert after[|lines| + j] == Appended(added, keys)[j];
    }
  }

  /** What the patcher writes, told on the text alone: the lines that assign an
      accepted key, whatever blanks stand around it, say its new value where they
      stand, every other line is as it was, and the accepted keys that no line
      assigned follow in order. */
  lemma RenderedText(cur: string, vals: map<string, string>)
    ensures exists after, added :: Render(cur, vals) == Unlines(after) && PatchedText(Lines(cur), after, added, Keys(vals))
  {
    hide Patch, PatchedText, Present;
    PatchText(Lines(cur), Keys(vals));
  }
}
