/** What an ignore list says, read off its text: comments, blank lines, names
    with or without slashes around them, names taken back. Names here hold no
    pattern characters; what is left out is then a matter of which names a path
    begins with or holds. */
module IgnoreText {
  import opened Text
  import opened Ignore

  // ---- a line, character by character ----

  predicate Only(s: string, c: char) { forall x | x in s :: x == c }

  /** A name that is itself a pattern and that trimming leaves alone. */
  predicate Plain(n: string) {
    && Literal(n) && n[0] != ' ' && n[|n| - 1] != ' ' && n[|n| - 1] != '\r' && '\n' !in n
  }

  datatype Said =
    | Quiet                                                        // a comment or a blank line
    | Root                                                         // slashes and nothing else
    | Names(back: bool, anchored: bool, names: seq<string>)

  /** A line with the blanks before its pattern, the slashes around the names, and
      the blanks and carriage ends after it. */
  predicate Written(line: string, said: Said, blanks: string, lead: string, tail: string, after: string, ends: string, back: bool) {
    && Only(blanks, ' ') && Only(lead, '/') && Only(tail, '/') && Only(after, ' ') && Only(ends, '\r')
    && match said
       case Quiet => line == blanks + ends || (line != "" && line[0] == '#' && '\n' !in line)
       case Root => (back || lead != "") && line == blanks + (if back then "!" else "") + lead + after + ends
       case Names(takesBack, anchored, names) =>
         && back == takesBack && names != [] && (forall n | n in names :: Plain(n))
         && (anchored <==> lead != "" || |names| > 1)
         && line == blanks + (if back then "!" else "") + lead + Join(names, '/') + tail + after + ends
         && (line != "" ==> line[0] != '#')
  }

  ghost predicate Says(line: string, said: Said) {
    exists blanks, lead, tail, after, ends, back :: Written(line, said, blanks, lead, tail, after, ends, back)
  }

  /** The names begin the path, or the one name is somewhere in it. */
  predicate Covers(said: Said, path: Path) {
    && said.Names?
    && if said.anchored then said.names <= path else |said.names| > 0 && said.names[0] in path
  }

  predicate TakesOut(said: Said) { said.Names? && !said.back }

  /** The last line that covers a path, or a directory it lies in, decides. */
  predicate LeftOut(says: seq<Said>, path: Path) {
    exists k, i | 0 < k <= |path| && 0 <= i < |says| ::
      && Covers(says[i], path[..k]) && TakesOut(says[i])
      && forall j | i < j < |says| :: !Covers(says[j], path[..k])
  }

  // ---- trimming ----

  lemma {:induction false} TrimsEnd(x: string, t: string, c: char)
    requires Only(t, c) && (x == "" || x[|x| - 1] != c)
    ensures TrimEnd(x + t, c) == x
    decreases |t|
  {
    if t == "" {
      assert x + t == x;
    } else {
      assert t[|t| - 1] in t;
      var u := t[..|t| - 1];
      forall y | y in u ensures y == c { assert y in t; }
      assert x + t == (x + u) + [c];
      assert (x + t)[..|x + t| - 1] == x + u;
      TrimsEnd(x, u, c);
    }
  }

  lemma {:induction false} TrimsStart(t: string, x: string, c: char)
    requires Only(t, c) && (x == "" || x[0] != c)
    ensures TrimStart(t + x, c) == x
    decreases |t|
  {
    if t == "" {
      assert t + x == x;
    } else {
      assert t[0] in t;
      assert Only(t[1..], c) by { forall y | y in t[1..] ensures y in t {} }
      assert (t + x)[1..] == t[1..] + x;
      TrimsStart(t[1..], x, c);
    }
  }

  lemma NothingTrims(c: char)
    ensures TrimEnd("", c) == "" && TrimStart("", c) == ""
  {}

  /** The pattern between its blanks and ends. */
  lemma TrimsLine(blanks: string, p: string, after: string, ends: string)
    requires Only(blanks, ' ') && Only(after, ' ') && Only(ends, '\r')
    requires p != "" && p[0] != ' ' && p[|p| - 1] != ' ' && p[|p| - 1] != '\r'
    requires (blanks + p)[0] != '#'
    ensures PatternOn(blanks + p + after + ends) == Some(p)
  {
    hide TrimEnd, TrimStart;
    var l := blanks + p + after;
    assert l[|l| - 1] != '\r' by {
      if after == "" { assert l == blanks + p; } else { assert after[|after| - 1] in after; }
    }
    TrimsEnd(l, ends, '\r');
    assert l[0] == (blanks + p)[0];
    assert l == blanks + (p + after);
    TrimsStart(blanks, p + after, ' ');
    TrimsEnd(p, after, ' ');
  }

  lemma BlankLine(blanks: string, ends: string)
    requires Only(blanks, ' ') && Only(ends, '\r')
    ensures PatternOn(blanks + ends) == None
  {
    hide TrimEnd, TrimStart;
    if blanks != "" { assert blanks[|blanks| - 1] in blanks && blanks[0] in blanks; }
    TrimsEnd(blanks, ends, '\r');
    assert blanks + "" == blanks;
    TrimsStart(blanks, "", ' ');
    NothingTrims(' ');
  }

  lemma Commented(line: string)
    requires line != "" && line[0] == '#'
    ensures PatternOn(line) == None
  {
    FirstStays(line);
  }

  lemma {:induction false} FirstStays(s: string)
    requires s != "" && s[0] == '#'
    ensures TrimEnd(s, '\r') != "" && TrimEnd(s, '\r')[0] == '#'
    decreases |s|
  {
    if s[|s| - 1] == '\r' { FirstStays(s[..|s| - 1]); }
  }

  // ---- the names of a line ----

  lemma PlainEnds(n: string)
    requires Plain(n)
    ensures n != "" && '/' !in n && '*' !in n && n[0] !in "/ !" && n[|n| - 1] != '/'
  {
    assert "*?[\\/!$"[4] == '/' && "*?[\\/!$"[5] == '!' && "*?[\\/!$"[0] == '*';
    assert n[0] in n && n[|n| - 1] in n;
  }

  lemma PlainLast(n: string)
    requires Plain(n)
    ensures n != "" && n[|n| - 1] != ' ' && n[|n| - 1] != '\r'
  {}

  /** Names joined begin and end with no slash and no blank. */
  lemma {:induction false} JoinEnds(names: seq<string>)
    requires names != [] && forall n | n in names :: Plain(n)
    ensures var j := Join(names, '/');
      j != "" && j[0] !in "/ !" && j[|j| - 1] !in "/ \r"
    decreases |names|
  {
    hide Plain;
    assert names[0] in names;
    PlainEnds(names[0]);
    PlainLast(names[0]);
    if |names| > 1 {
      forall n | n in names[1..] ensures n in names {}
      JoinEnds(names[1..]);
    }
  }

  lemma {:induction false} JoinHasSlash(names: seq<string>)
    requires names != [] && forall n | n in names :: Plain(n)
    ensures '/' in Join(names, '/') <==> |names| > 1
  {
    hide Plain;
    assert names[0] in names;
    PlainEnds(names[0]);
    if |names| > 1 {
      var j := Join(names, '/');
      assert j[|names[0]|] == '/';
    }
  }

  lemma NamesSplit(names: seq<string>)
    requires names != [] && forall n | n in names :: Plain(n)
    ensures Split(Join(names, '/'), '/') == names
  {
    hide Plain, Join, Split;
    forall n | n in names ensures '/' !in n { PlainEnds(n); }
    SplitJoin(names, '/');
  }

  /** The pattern of a line of names. */
  function Middle(back: bool, lead: string, names: seq<string>, tail: string): string {
    (if back then "!" else "") + (lead + Join(names, '/') + tail)
  }

  lemma MiddleIsTaken(back: bool, lead: string, names: seq<string>, tail: string)
    requires Only(lead, '/') && names != [] && forall n | n in names :: Plain(n)
    ensures var p := Middle(back, lead, names, tail);
      p != "" && Taken(p) == lead + Join(names, '/') + tail && (p[0] == '!' <==> back)
  {
    hide Join, Plain;
    JoinEnds(names);
    var j, p := Join(names, '/'), Middle(back, lead, names, tail);
    if lead != "" { assert lead[0] in lead; }
    var q := lead + j + tail;
    assert q[0] == if lead != "" then '/' else j[0];
    if back {
      assert p == "!" + q && p[1..] == q;
    } else {
      assert p == q;
    }
  }

  lemma MiddleIsRule(back: bool, lead: string, names: seq<string>, tail: string)
    requires Only(lead, '/') && Only(tail, '/') && names != [] && forall n | n in names :: Plain(n)
    ensures RuleOf(Middle(back, lead, names, tail)) == Some(Rule(back, lead != "" || |names| > 1, Join(names, '/')))
  {
    hide TrimEnd, TrimStart, Join, Plain, Middle, Taken;
    MiddleIsTaken(back, lead, names, tail);
    JoinEnds(names);
    JoinHasSlash(names);
    SlashesGo(lead, Join(names, '/'), tail);
  }

  lemma SlashesGo(lead: string, j: string, tail: string)
    requires Only(lead, '/') && Only(tail, '/') && j != "" && j[0] != '/' && j[|j| - 1] != '/'
    ensures var q := TrimEnd(lead + j + tail, '/');
      ('/' in q <==> lead != "" || '/' in j) && TrimStart(q, '/') == j
  {
    hide TrimEnd, TrimStart;
    TrimsEnd(lead + j, tail, '/');
    LeadHasSlash(lead, j);
    TrimsStart(lead, j, '/');
  }

  lemma LeadHasSlash(lead: string, j: string)
    requires Only(lead, '/')
    ensures '/' in lead + j <==> lead != "" || '/' in j
  {
    if lead != "" { assert (lead + j)[0] == lead[0] && lead[0] in lead; }
  }

  lemma RootHasNoRule(back: bool, lead: string)
    requires Only(lead, '/') && (back || lead != "")
    ensures RuleOf((if back then "!" else "") + lead) == None
  {
    hide TrimEnd, TrimStart;
    var p := (if back then "!" else "") + lead;
    if lead != "" { assert lead[0] in lead; }
    assert Taken(p) == lead by { if back { assert p[1..] == lead; } else { assert p == lead; } }
    assert "" + lead == lead;
    TrimsEnd("", lead, '/');
    NothingTrims('/');
  }

  function RuleSaid(said: Said): Option<Rule> {
    if said.Names? then Some(Rule(said.back, said.anchored, Join(said.names, '/'))) else None
  }

  lemma Regroups(a: string, b: string, c: string, d: string, e: string, f: string, g: string)
    ensures a + b + c + d + e + f + g == a + (b + (c + d + e)) + f + g
  {}

  /** A line holds a pattern unless it is quiet, and its rule is what it says. */
  lemma LineRule(line: string, said: Said)
    requires Says(line, said)
    ensures RuleOn(line) == RuleSaid(said)
    ensures PatternOn(line).None? <==> said.Quiet?
    ensures PatternOn(line).Some? ==>
              (forall x | x in Taken(PatternOn(line).value) :: x == '/' || (said.Names? && x in Join(said.names, '/')))
  {
    hide PatternOn, RuleOf, Join, Plain;
    var blanks, lead, tail, after, ends, back :| Written(line, said, blanks, lead, tail, after, ends, back);
    match said
    case Quiet =>
      if line == blanks + ends { BlankLine(blanks, ends); } else { Commented(line); }
    case Root =>
      var p := (if back then "!" else "") + lead;
      if lead != "" { assert lead[0] in lead && lead[|lead| - 1] in lead; }
      assert (blanks + p)[0] != '#' by { if blanks != "" { assert blanks[0] in blanks; } }
      assert line == blanks + p + after + ends;
      TrimsLine(blanks, p, after, ends);
      RootHasNoRule(back, lead);
      assert Taken(p) == lead by { if back { assert p[1..] == lead; } else { assert p == lead; } }
    case Names(_, anchored, names) =>
      var p := Middle(back, lead, names, tail);
      Regroups(blanks, if back then "!" else "", lead, Join(names, '/'), tail, after, ends);
      assert line == blanks + p + after + ends;
      MiddleStands(back, lead, names, tail);
      assert (blanks + p)[0] == line[0];
      TrimsLine(blanks, p, after, ends);
      MiddleIsRule(back, lead, names, tail);
      MiddleIsTaken(back, lead, names, tail);
  }

  lemma MiddleStands(back: bool, lead: string, names: seq<string>, tail: string)
    requires Only(lead, '/') && Only(tail, '/') && names != [] && forall n | n in names :: Plain(n)
    ensures var p := Middle(back, lead, names, tail); p != "" && p[0] != ' ' && p[|p| - 1] != ' ' && p[|p| - 1] != '\r'
  {
    hide Join, Plain;
    JoinEnds(names);
    var j, p := Join(names, '/'), Middle(back, lead, names, tail);
    if lead != "" { assert lead[0] in lead; }
    assert (lead + j + tail)[0] == if lead != "" then '/' else j[0];
    if tail != "" { assert tail[|tail| - 1] in tail; }
    assert p[|p| - 1] == if tail != "" then '/' else j[|j| - 1];
  }

  // ---- what the names match ----

  lemma {:induction false} NamesMatch(names: seq<string>, path: Path)
    requires forall n | n in names :: Plain(n)
    ensures MatchComps(names, LIST, path) <==> names <= path
    decreases |names|
  {
    hide Plain, NameMatches;
    if names != [] {
      assert names[0] in names;
      PlainEnds(names[0]);
      assert names[0] != "**" by { assert "**"[0] == '*'; }
      forall n | n in names[1..] ensures n in names {}
      if path != [] {
        NamesMatch(names[1..], path[1..]);
        PlainMatches(names[0], path[0]);
        assert names == [names[0]] + names[1..] && path == [path[0]] + path[1..];
      }
    }
  }

  lemma PlainMatches(n: string, name: string)
    requires Plain(n)
    ensures NameMatches(n, LIST, name) <==> n == name
  {
    LiteralMatches(n, LIST, name);
  }

  lemma RuleCovers(said: Said, path: Path)
    requires said.Names? && said.names != [] && (forall n | n in said.names :: Plain(n))
    requires !said.anchored ==> |said.names| == 1
    ensures RuleMatches(RuleSaid(said).value, path) <==> Covers(said, path)
  {
    hide Plain, Join, Split, MatchComps;
    var names := said.names;
    NamesSplit(names);
    if said.anchored {
      NamesMatch(names, path);
    } else {
      forall k | 0 <= k <= |path| ensures MatchComps(names, LIST, path[k..]) <==> k < |path| && path[k] == names[0] {
        NamesMatch(names, path[k..]);
        assert names == [names[0]];
      }
    }
  }

  lemma SaidIsPlain(line: string, said: Said)
    requires Says(line, said) && said.Names?
    ensures said.names != [] && (forall n | n in said.names :: Plain(n)) && (!said.anchored ==> |said.names| == 1)
  {
    hide Plain, Join;
    var blanks, lead, tail, after, ends, back :| Written(line, said, blanks, lead, tail, after, ends, back);
  }

  // ---- whole lists ----

  ghost predicate AllSay(lines: seq<string>, says: seq<Said>) {
    |lines| == |says| && forall i | 0 <= i < |lines| :: Says(lines[i], says[i])
  }

  /** The last line that covers the path takes it out. */
  predicate Decides(says: seq<Said>, path: Path) {
    exists i | 0 <= i < |says| :: Covers(says[i], path) && TakesOut(says[i]) && forall j | i < j < |says| :: !Covers(says[j], path)
  }

  lemma {:induction false} RulesDecide(lines: seq<string>, says: seq<Said>, path: Path)
    requires AllSay(lines, says)
    ensures Verdict(Rules(lines), path) <==> Decides(says, path)
    decreases |lines|
  {
    hide Says, RuleOn, RuleMatches, Covers;
    if lines != [] {
      var n := |lines| - 1;
      RulesDecide(lines[..n], says[..n], path);
      LineRule(lines[n], says[n]);
      LastDecides(says, path);
      if says[n].Names? {
        SaidIsPlain(lines[n], says[n]);
        RuleCovers(says[n], path);
        var rules := Rules(lines);
        assert rules[..|rules| - 1] == Rules(lines[..n]);
      } else {
        CoversNot(says[n], path);
      }
    }
  }

  lemma CoversNot(said: Said, path: Path)
    requires !said.Names?
    ensures !Covers(said, path)
  {}

  lemma LastDecides(says: seq<Said>, path: Path)
    requires says != []
    ensures var n := |says| - 1;
      Decides(says, path) <==> if Covers(says[n], path) then TakesOut(says[n]) else Decides(says[..n], path)
  {
    hide Covers;
    var n := |says| - 1;
    if Covers(says[n], path) && TakesOut(says[n]) { assert Decides(says, path); }
    if !Covers(says[n], path) && Decides(says[..n], path) {
      var i :| 0 <= i < n && Covers(says[..n][i], path) && TakesOut(says[..n][i]) && forall j | i < j < n :: !Covers(says[..n][j], path);
      forall j | i < j < |says| ensures !Covers(says[j], path) { if j < n { assert says[..n][j] == says[j]; } }
      assert Covers(says[i], path);
    }
    if !Covers(says[n], path) && Decides(says, path) {
      var i :| 0 <= i < |says| && Covers(says[i], path) && TakesOut(says[i]) && forall j | i < j < |says| :: !Covers(says[j], path);
      assert says[..n][i] == says[i];
      forall j | i < j < n ensures !Covers(says[..n][j], path) { assert says[..n][j] == says[j]; }
    }
  }

  /** How many lines hold a pattern. */
  function Count(says: seq<Said>): nat {
    if says == [] then 0 else Count(says[..|says| - 1]) + if says[|says| - 1].Quiet? then 0 else 1
  }

  lemma {:induction false} NoStars(p: string)
    requires '*' !in p && '\\' !in p
    ensures Stars(p) == 0
    decreases |p|
  {
    if p != "" {
      assert p[0] in p;
      NoStars(p[1..]);
    }
  }

  lemma {:induction false} JoinHolds(names: seq<string>, c: char)
    requires (forall n | n in names :: c !in n) && c != '/'
    ensures c !in Join(names, '/')
    decreases |names|
  {
    if names != [] {
      assert names[0] in names;
      if |names| > 1 {
        forall n | n in names[1..] ensures n in names {}
        JoinHolds(names[1..], c);
      }
    }
  }

  lemma PlainHolds(names: seq<string>, c: char)
    requires (forall n | n in names :: Plain(n)) && c in "*?[\\!$"
    ensures c !in Join(names, '/')
  {
    forall n | n in names ensures c !in n { assert c in "*?[\\/!$"; }
    JoinHolds(names, c);
  }

  lemma {:induction false} RewritesNothing(s: string)
    requires '[' !in s && '\\' !in s
    ensures Rewrite(Out, s) == s
    decreases |s|
  {
    if s != "" {
      assert s[0] in s;
      RewritesNothing(s[1..]);
      assert s == [s[0]] + s[1..];
    }
  }

  lemma {:induction false} ParsesPlain(s: string)
    requires '[' !in s && '\\' !in s
    ensures Parse(s, GO).Some?
    decreases |s|
  {
    if s != "" {
      assert s[0] in s;
      ParsesPlain(s[1..]);
    }
  }

  lemma {:induction false} DoublesNothing(s: string)
    requires '$' !in s
    ensures Double(s) == s
    decreases |s|
  {
    if s != "" {
      assert s[0] in s;
      DoublesNothing(s[1..]);
      assert s == [s[0]] + s[1..];
    }
  }

  lemma {:induction false} RootHolds(root: Path, c: char)
    requires (forall n | n in root :: c !in n) && c != '/'
    ensures c !in RootText(root)
    decreases |root|
  {
    if root != [] {
      assert root[0] in root;
      RootHolds(root[1..], c);
    }
  }

  /** The line of the exclude file for names: the root, any directories when the
      name is not anchored, the names, an exclamation mark when they are taken
      back. */
  function PrintedNames(root: Path, said: Said): string
    requires said.Names?
  {
    (if said.back then "!" else "") + (RootText(root) + "/" + ((if said.anchored then "" else "**/") + Join(said.names, '/')))
  }

  lemma NamesPrint(root: Path, said: Said)
    requires (forall c | c in root :: Literal(c)) && said.Names? && forall n | n in said.names :: Plain(n)
    ensures WellFormed(PatternText(root, RuleSaid(said).value)) && Printed(root, RuleSaid(said).value) == PrintedNames(root, said)
  {
    hide Rewrite, Double, Parse, Split, Join, RootText, Plain, Literal;
    var rule := RuleSaid(said).value;
    var q := Spread(rule);
    assert '[' !in q && '\\' !in q && '$' !in q by { SpreadHolds(said); }
    RewritesNothing(q);
    var p := PatternText(root, rule);
    assert p == RootText(root) + "/" + q;
    RootPlain(root);
    assert '[' !in p && '\\' !in p && '$' !in p;
    assert forall part | part in Split(p, '/') :: Parse(part, GO).Some? by {
      JoinSplit(p, '/');
      forall part | part in Split(p, '/') ensures Parse(part, GO).Some? { ParsesPlain(part); }
    }
    DoublesNothing((if rule.takesBack then "!" else "") + p);
  }

  lemma SpreadHolds(said: Said)
    requires said.Names? && forall n | n in said.names :: Plain(n)
    ensures var q := Spread(RuleSaid(said).value); '[' !in q && '\\' !in q && '$' !in q
  {
    hide Join, Plain;
    assert "*?[\\!$"[2] == '[' && "*?[\\!$"[3] == '\\' && "*?[\\!$"[5] == '$';
    PlainHolds(said.names, '[');
    PlainHolds(said.names, '\\');
    PlainHolds(said.names, '$');
  }

  lemma RootPlain(root: Path)
    requires forall c | c in root :: Literal(c)
    ensures '[' !in RootText(root) && '\\' !in RootText(root) && '$' !in RootText(root)
  {
    hide RootText;
    assert "*?[\\/!$"[2] == '[' && "*?[\\/!$"[3] == '\\' && "*?[\\/!$"[6] == '$';
    RootHolds(root, '[');
    RootHolds(root, '\\');
    RootHolds(root, '$');
  }

  lemma LineTranslates(root: Path, line: string, said: Said)
    requires (forall c | c in root :: Literal(c)) && Says(line, said) && !said.Quiet?
    ensures PatternOn(line).Some?
    ensures Translate(root, PatternOn(line).value) == if said.Names? then Line(PrintedNames(root, said)) else Nothing
  {
    hide PatternOn, RuleOf, Join, Plain, Literal, WellFormed, PatternText, Printed, PrintedNames, Says, Stars;
    LineRule(line, said);
    var p := PatternOn(line).value;
    if said.Names? {
      SaidIsPlain(line, said);
      assert "*?[\\!$"[0] == '*' && "*?[\\!$"[3] == '\\';
      PlainHolds(said.names, '*');
      PlainHolds(said.names, '\\');
      NoStars(Taken(p));
      NamesPrint(root, said);
    } else {
      NoStars(Taken(p));
    }
  }

  lemma {:induction false} ListCompiles(root: Path, lines: seq<string>, says: seq<Said>)
    requires (forall c | c in root :: Literal(c)) && AllSay(lines, says)
    ensures Compile(root, lines).Good? <==> Count(says) <= 256
    ensures Compile(root, lines).Good? ==> Compile(root, lines).n == Count(says)
    ensures Compile(root, lines).Bad? ==> Compile(root, lines).error == TooManyPatterns
    decreases |lines|
  {
    hide Says, PatternOn, Translate, Literal, PrintedNames;
    if lines != [] {
      var n := |lines| - 1;
      ListCompiles(root, lines[..n], says[..n]);
      LineRule(lines[n], says[n]);
      if !says[n].Quiet? { LineTranslates(root, lines[n], says[n]); }
    }
  }

  lemma LinesAreLines(lines: seq<string>, says: seq<Said>)
    requires AllSay(lines, says) && lines != []
    ensures Split(Join(lines, '\n'), '\n') == lines
  {
    hide Says, Split, Join;
    forall line | line in lines ensures '\n' !in line {
      var i :| 0 <= i < |lines| && lines[i] == line;
      IsALine(line, says[i]);
    }
    SplitJoin(lines, '\n');
  }

  lemma IsALine(line: string, said: Said)
    requires Says(line, said)
    ensures '\n' !in line
  {
    hide Join;
    var blanks, lead, tail, after, ends, back :| Written(line, said, blanks, lead, tail, after, ends, back);
    if said.Names? { JoinHolds(said.names, '\n'); }
  }

  /** What the exclude file of a list leaves out. */
  predicate LeavesOut(root: Path, list: string, path: Path) {
    && Excludes(root, list).Ok?
    && ResticLeavesOut(ReadLines(Split(Excludes(root, list).out, '\n')), path)
  }

  predicate ProperRoot(root: Path) { forall c | c in root :: Literal(c) && '\n' !in c }

  /** A list of names is taken unless it is too long or has too many lines; and
      what it leaves out, under the root alone, is what its last line about a path
      or a directory above it says. */
  lemma ListsMean(root: Path, lines: seq<string>, says: seq<Said>, path: Path)
    requires ProperRoot(root) && lines != [] && AllSay(lines, says)
    ensures var list := Join(lines, '\n');
      && (Excludes(root, list).Ok? <==> ByteLength(list) <= 32768 && Count(says) <= 256)
      && (Excludes(root, list).Ok? ==> (LeavesOut(root, list, path) <==> root < path && LeftOut(says, path[|root|..])))
  {
    hide Compile, Rules, ReadLines, Verdict, ResticVerdict, Says, Split, Join, Literal, Covers, ByteLength;
    var list := Join(lines, '\n');
    LinesAreLines(lines, says);
    ListCompiles(root, lines, says);
    if Excludes(root, list).Ok? {
      ExcludesWhatTheListDoes(root, list, path);
      if root < path {
        var inside := path[|root|..];
        forall k | 0 < k <= |inside| ensures Verdict(Rules(lines), inside[..k]) <==> Decides(says, inside[..k]) {
          RulesDecide(lines, says, inside[..k]);
        }
        SameOut(lines, says, inside);
      }
    }
  }

  lemma SameOut(lines: seq<string>, says: seq<Said>, path: Path)
    requires forall k | 0 < k <= |path| :: Verdict(Rules(lines), path[..k]) <==> Decides(says, path[..k])
    ensures ListLeavesOut(Rules(lines), path) <==> LeftOut(says, path)
  {
    hide Rules, Verdict, Covers;
    if ListLeavesOut(Rules(lines), path) {
      var k :| 0 < k <= |path| && Verdict(Rules(lines), path[..k]);
      assert Decides(says, path[..k]);
    }
    if LeftOut(says, path) {
      var k, i :| 0 < k <= |path| && 0 <= i < |says| && Covers(says[i], path[..k]) && TakesOut(says[i])
        && forall j | i < j < |says| :: !Covers(says[j], path[..k]);
      assert Decides(says, path[..k]);
    }
  }

  // ---- the exclude file, line by line ----

  /** A line for each line of names, in order. */
  function PrintedSaid(root: Path, says: seq<Said>): seq<string> {
    if says == [] then []
    else
      PrintedSaid(root, says[..|says| - 1])
      + if says[|says| - 1].Names? then [PrintedNames(root, says[|says| - 1])] else []
  }

  lemma {:induction false} ListPrints(root: Path, lines: seq<string>, says: seq<Said>)
    requires (forall c | c in root :: Literal(c)) && AllSay(lines, says) && Compile(root, lines).Good?
    ensures Compile(root, lines).out == PrintedSaid(root, says)
    decreases |lines|
  {
    hide Says, PatternOn, Translate, Literal, PrintedNames;
    if lines != [] {
      var n := |lines| - 1;
      ListPrints(root, lines[..n], says[..n]);
      LineRule(lines[n], says[n]);
      if !says[n].Quiet? { LineTranslates(root, lines[n], says[n]); }
    }
  }

  /** The exclude file itself: each line of names stands in it under the root. */
  lemma FileOfNames(root: Path, lines: seq<string>, says: seq<Said>)
    requires ProperRoot(root) && lines != [] && AllSay(lines, says)
    requires ByteLength(Join(lines, '\n')) <= 32768 && Count(says) <= 256
    ensures Excludes(root, Join(lines, '\n')) == Ok(Join(PrintedSaid(root, says), '\n'))
  {
    hide Compile, Says, Split, Join, Literal, ByteLength, PrintedSaid;
    LinesAreLines(lines, says);
    ListCompiles(root, lines, says);
    ListPrints(root, lines, says);
  }

  // ---- one name ----

  lemma SaysNames(blanks: string, back: bool, lead: string, names: seq<string>, tail: string, after: string, ends: string)
    requires Only(blanks, ' ') && Only(lead, '/') && Only(tail, '/') && Only(after, ' ') && Only(ends, '\r')
    requires names != [] && forall n | n in names :: Plain(n)
    requires var line := blanks + (if back then "!" else "") + lead + Join(names, '/') + tail + after + ends;
      line != "" ==> line[0] != '#'
    ensures var line := blanks + (if back then "!" else "") + lead + Join(names, '/') + tail + after + ends;
      Says(line, Names(back, lead != "" || |names| > 1, names))
  {
    hide Plain, Join;
    var line := blanks + (if back then "!" else "") + lead + Join(names, '/') + tail + after + ends;
    assert Written(line, Names(back, lead != "" || |names| > 1, names), blanks, lead, tail, after, ends, back);
  }

  lemma OneLine(root: Path, line: string, said: Said, path: Path)
    requires ProperRoot(root) && Says(line, said) && ByteLength(line) <= 32768
    ensures Excludes(root, line).Ok?
    ensures LeavesOut(root, line, path) <==> root < path && LeftOut([said], path[|root|..])
    ensures said.Names? ==> Excludes(root, line) == Ok(PrintedNames(root, said))
  {
    hide Says, LeavesOut, LeftOut, Excludes, ByteLength, ProperRoot, PrintedNames;
    assert Join([line], '\n') == line;
    assert Count([said]) <= 1 by { assert Count([said][..0]) == 0; }
    ListsMean(root, [line], [said], path);
    FileOfNames(root, [line], [said]);
    assert PrintedSaid(root, [said]) == (if said.Names? then [PrintedNames(root, said)] else []) by {
      assert PrintedSaid(root, [said][..0]) == [];
    }
  }

  lemma {:induction false} LeftOutByOne(said: Said, path: Path)
    requires TakesOut(said) && said.names != []
    ensures LeftOut([said], path) <==> if said.anchored then said.names <= path else said.names[0] in path
  {
    if said.anchored {
      if said.names <= path {
        assert path[..|said.names|] == said.names;
        assert Covers([said][0], path[..|said.names|]);
      }
    } else if said.names[0] in path {
      assert path[..|path|] == path;
      assert Covers([said][0], path[..|path|]);
    }
  }

  /** A name after a slash is left out at the top of the server's files alone, with
      all that is in it; without a slash, wherever it is; a slash after it changes
      nothing; names with a slash between them are met from the top. */
  lemma NamesLeaveOut(root: Path, c: string, d: string, path: Path)
    requires ProperRoot(root) && Plain(c) && Plain(d) && c[0] != '#'
    requires ByteLength("/" + c) <= 32768 && ByteLength(c) <= 32768
    requires ByteLength(c + "/") <= 32768 && ByteLength(c + "/" + d) <= 32768
    ensures LeavesOut(root, "/" + c, path) <==> root + [c] <= path
    ensures LeavesOut(root, c, path) <==> root < path && c in path[|root|..]
    ensures LeavesOut(root, c + "/", path) <==> LeavesOut(root, c, path)
    ensures LeavesOut(root, c + "/" + d, path) <==> root + [c, d] <= path
    ensures Excludes(root, "/" + c) == Ok(RootText(root) + "/" + c)
    ensures Excludes(root, c) == Excludes(root, c + "/") == Ok(RootText(root) + "/**/" + c)
    ensures Excludes(root, c + "/" + d) == Ok(RootText(root) + "/" + c + "/" + d)
  {
    hide LeavesOut, LeftOut, Excludes, ByteLength, ProperRoot, Says, RootText;
    TopName(root, c, path);
    assert c + "" == c;
    AnyName(root, c, "", path);
    AnyName(root, c, "/", path);
    TwoNames(root, c, d, path);
  }

  lemma TopName(root: Path, c: string, path: Path)
    requires ProperRoot(root) && Plain(c) && ByteLength("/" + c) <= 32768
    ensures LeavesOut(root, "/" + c, path) <==> root + [c] <= path
    ensures Excludes(root, "/" + c) == Ok(RootText(root) + "/" + c)
  {
    hide LeavesOut, LeftOut, Excludes, ByteLength, ProperRoot, Says, RootText, Plain;
    SaysNames("", false, "/", [c], "", "", "");
    var said := Names(false, true, [c]);
    assert "" + "" + "/" + Join([c], '/') + "" + "" + "" == "/" + c;
    OneLine(root, "/" + c, said, path);
    assert PrintedNames(root, said) == RootText(root) + "/" + c by {
      assert PrintedNames(root, said) == "" + (RootText(root) + "/" + ("" + c));
    }
    if root < path { LeftOutByOne(said, path[|root|..]); }
    Beneath(root, [c], path);
  }

  /** A path begins with the root and more when, past the root, it begins with
      that. */
  lemma Beneath(root: Path, names: seq<string>, path: Path)
    requires names != []
    ensures root + names <= path <==> root < path && names <= path[|root|..]
  {
    if root < path && names <= path[|root|..] {
      assert path == root + path[|root|..];
      assert path == (root + names) + path[|root|..][|names|..];
    }
    if root + names <= path { assert path == root + (names + path[|root| + |names|..]); }
  }

  lemma AnyName(root: Path, c: string, tail: string, path: Path)
    requires ProperRoot(root) && Plain(c) && c[0] != '#' && Only(tail, '/') && ByteLength(c + tail) <= 32768
    ensures LeavesOut(root, c + tail, path) <==> root < path && c in path[|root|..]
    ensures Excludes(root, c + tail) == Ok(RootText(root) + "/**/" + c)
  {
    hide LeavesOut, LeftOut, Excludes, ByteLength, ProperRoot, Says, RootText;
    assert "" + "" + "" + Join([c], '/') + tail + "" + "" == c + tail;
    assert (c + tail)[0] == c[0];
    SaysNames("", false, "", [c], tail, "", "");
    var said := Names(false, false, [c]);
    OneLine(root, c + tail, said, path);
    assert PrintedNames(root, said) == RootText(root) + "/**/" + c by {
      assert PrintedNames(root, said) == "" + (RootText(root) + "/" + ("**/" + c));
    }
    if root < path { LeftOutByOne(said, path[|root|..]); }
  }

  lemma TwoNames(root: Path, c: string, d: string, path: Path)
    requires ProperRoot(root) && Plain(c) && Plain(d) && c[0] != '#' && ByteLength(c + "/" + d) <= 32768
    ensures LeavesOut(root, c + "/" + d, path) <==> root + [c, d] <= path
    ensures Excludes(root, c + "/" + d) == Ok(RootText(root) + "/" + c + "/" + d)
  {
    hide LeavesOut, LeftOut, Excludes, ByteLength, ProperRoot, Says, RootText, Plain, Join, PrintedNames;
    var said := Names(false, true, [c, d]);
    TwoSay(c, d);
    OneLine(root, c + "/" + d, said, path);
    TwoPrint(root, c, d);
    if root < path { LeftOutByOne(said, path[|root|..]); }
    Beneath(root, [c, d], path);
  }

  lemma TwoSay(c: string, d: string)
    requires Plain(c) && Plain(d) && c[0] != '#'
    ensures Says(c + "/" + d, Names(false, true, [c, d]))
  {
    hide Says;
    var line := c + "/" + d;
    assert Join([c, d], '/') == line by { assert [c, d][1..] == [d]; }
    assert "" + "" + "" + line + "" + "" + "" == line;
    assert line[0] == c[0];
    SaysNames("", false, "", [c, d], "", "", "");
  }

  lemma TwoPrint(root: Path, c: string, d: string)
    ensures PrintedNames(root, Names(false, true, [c, d])) == RootText(root) + "/" + c + "/" + d
  {
    hide RootText;
    assert Join([c, d], '/') == c + "/" + d by { assert [c, d][1..] == [d]; }
    assert PrintedNames(root, Names(false, true, [c, d])) == "" + (RootText(root) + "/" + ("" + (c + "/" + d)));
  }

  /** A comment leaves out nothing, and nor does the root itself. */
  lemma CommentsLeaveOutNothing(root: Path, text: string, path: Path)
    requires ProperRoot(root) && '\n' !in text && ByteLength("#" + text) <= 32768
    ensures Excludes(root, "#" + text) == Ok("") && !LeavesOut(root, "#" + text, path)
    ensures Excludes(root, "/") == Ok("") && !LeavesOut(root, "/", path)
  {
    hide LeavesOut, Excludes, ByteLength, ProperRoot;
    var line := "#" + text;
    assert Written(line, Quiet, "", "", "", "", "", false);
    OneLine(root, line, Quiet, path);
    NoLines(root, line, Quiet);
    assert Written("/", Said.Root, "", "/", "", "", "", false);
    Short();
    OneLine(root, "/", Said.Root, path);
    NoLines(root, "/", Said.Root);
  }

  lemma Short()
    ensures ByteLength("/") <= 32768
  {
    assert "/"[..0] == "";
  }

  lemma NoLines(root: Path, line: string, said: Said)
    requires ProperRoot(root) && Says(line, said) && !said.Names? && ByteLength(line) <= 32768
    ensures Excludes(root, line) == Ok("")
  {
    hide Says, Excludes, ByteLength, ProperRoot;
    assert Join([line], '\n') == line;
    assert Count([said]) <= 1 by { assert Count([said][..0]) == 0; }
    FileOfNames(root, [line], [said]);
    assert PrintedSaid(root, [said]) == [] by { assert PrintedSaid(root, [said][..0]) == []; }
  }

  /** A name left out everywhere and taken back at the top is there alone; taken
      back everywhere, it is left out nowhere. */
  lemma TakenBack(root: Path, c: string, path: Path)
    requires ProperRoot(root) && Plain(c) && c[0] != '#'
    requires ByteLength(c + "\n!" + c) <= 32768 && ByteLength(c + "\n!/" + c) <= 32768
    ensures !LeavesOut(root, c + "\n!" + c, path)
    ensures root < path ==>
              (LeavesOut(root, c + "\n!/" + c, path) <==> path[|root|] != c && c in path[|root|..])
  {
    hide LeavesOut, LeftOut, Excludes, ByteLength, ProperRoot, Says;
    assert c + "\n" + ("!" + "" + c) == c + "\n!" + c;
    TwoLines(root, c, "", path);
    assert c + "\n" + ("!" + "/" + c) == c + "\n!/" + c;
    TwoLines(root, c, "/", path);
    if root < path {
      BackEverywhere(c, path[|root|..]);
      BackAtTop(c, path[|root|..]);
    }
  }

  lemma TwoLines(root: Path, c: string, lead: string, path: Path)
    requires ProperRoot(root) && Plain(c) && c[0] != '#' && Only(lead, '/') && ByteLength(c + "\n" + ("!" + lead + c)) <= 32768
    ensures LeavesOut(root, c + "\n" + ("!" + lead + c), path) <==>
              root < path && LeftOut([Names(false, false, [c]), Names(true, lead != "", [c])], path[|root|..])
  {
    hide LeavesOut, LeftOut, Excludes, ByteLength, ProperRoot, Says, Plain, Join, Count;
    var lines, says := [c, "!" + lead + c], [Names(false, false, [c]), Names(true, lead != "", [c])];
    BothSay(c, lead);
    JoinTwo(c, "!" + lead + c);
    CountTwo(says);
    ListsMean(root, lines, says, path);
  }

  lemma BothSay(c: string, lead: string)
    requires Plain(c) && c[0] != '#' && Only(lead, '/')
    ensures Says(c, Names(false, false, [c])) && Says("!" + lead + c, Names(true, lead != "", [c]))
  {
    hide Says;
    assert "" + "" + "" + Join([c], '/') + "" + "" + "" == c;
    SaysNames("", false, "", [c], "", "", "");
    assert "" + "!" + lead + Join([c], '/') + "" + "" + "" == "!" + lead + c;
    SaysNames("", true, lead, [c], "", "", "");
  }

  lemma JoinTwo(a: string, b: string)
    ensures Join([a, b], '\n') == a + "\n" + b
  {
    assert [a, b][1..] == [b];
  }

  lemma CountTwo(says: seq<Said>)
    requires |says| == 2
    ensures Count(says) <= 2
  {
    assert Count(says[..1][..0]) == 0;
  }

  lemma BackEverywhere(c: string, path: Path)
    ensures !LeftOut([Names(false, false, [c]), Names(true, false, [c])], path)
  {
    var says := [Names(false, false, [c]), Names(true, false, [c])];
    assert TakesOut(says[0]) && !TakesOut(says[1]);
    forall k | 0 < k <= |path| ensures Covers(says[0], path[..k]) ==> Covers(says[1], path[..k]) {}
  }

  lemma BackAtTop(c: string, path: Path)
    requires path != []
    ensures LeftOut([Names(false, false, [c]), Names(true, true, [c])], path) <==> path[0] != c && c in path
  {
    var says := [Names(false, false, [c]), Names(true, true, [c])];
    forall k | 0 < k <= |path| ensures Covers(says[1], path[..k]) <==> path[0] == c { assert [c] <= path[..k] <==> path[..k][0] == c; }
    assert TakesOut(says[0]) && !TakesOut(says[1]);
    if path[0] != c && c in path {
      assert path[..|path|] == path;
      assert Covers(says[0], path[..|path|]);
      assert LeftOut(says, path);
    }
    if LeftOut(says, path) {
      var k, i :| 0 < k <= |path| && 0 <= i < |says| && Covers(says[i], path[..k]) && TakesOut(says[i])
        && forall j | i < j < |says| :: !Covers(says[j], path[..k]);
      assert i == 0 && !Covers(says[1], path[..k]);
      assert c in path[..k];
    }
  }

  /** The length of plain text in bytes is its length. */
  lemma {:induction false} BytesOfPlainText(s: string)
    requires forall c | c in s :: c < '\U{0080}'
    ensures ByteLength(s) == |s|
    decreases |s|
  {
    if s != "" {
      var u := s[..|s| - 1];
      assert s[|s| - 1] in s;
      forall c | c in u ensures c < '\U{0080}' { assert c in s; }
      BytesOfPlainText(u);
    }
  }

  // ---- wildcards ----

  /** The backslashes right before a place. */
  function Backslashes(p: string, i: nat): nat
    requires i <= |p|
  {
    if i > 0 && p[i - 1] == '\\' then Backslashes(p, i - 1) + 1 else 0
  }

  /** The stars before a place that stand after an even number of them. */
  function StarsBefore(p: string, n: nat): nat
    requires n <= |p|
  {
    if n == 0 then 0
    else StarsBefore(p, n - 1) + if p[n - 1] == '*' && Backslashes(p, n - 1) % 2 == 0 then 1 else 0
  }

  /** Past a character, or past an escaped one, it is as if the text began there. */
  lemma {:induction false} BackslashesLater(p: string, n: nat, i: nat)
    requires n + i <= |p| && ((n == 1 && p[0] != '\\') || (n == 2 && p[0] == '\\'))
    ensures Backslashes(p, n + i) % 2 == Backslashes(p[n..], i) % 2
    decreases i
  {
    if i > 0 {
      BackslashesLater(p, n, i - 1);
      assert p[n..][i - 1] == p[n + i - 1];
    } else if n == 2 {
      assert Backslashes(p, 1) == 1;
    }
  }

  lemma {:induction false} StarsLater(p: string, n: nat, i: nat)
    requires n + i <= |p| && ((n == 1 && p[0] != '\\') || (n == 2 && p[0] == '\\'))
    ensures StarsBefore(p, n + i) == StarsBefore(p, n) + StarsBefore(p[n..], i)
    decreases i
  {
    if i > 0 {
      StarsLater(p, n, i - 1);
      BackslashesLater(p, n, i - 1);
      assert p[n..][i - 1] == p[n + i - 1];
    }
  }

  /** What is counted is the stars no backslash escapes: those after an even number
      of backslashes. */
  lemma {:induction false} StarsAreUnescaped(p: string)
    ensures Stars(p) == StarsBefore(p, |p|)
    decreases |p|
  {
    if p == "" {
    } else if p[0] != '\\' {
      StarsAreUnescaped(p[1..]);
      StarsLater(p, 1, |p| - 1);
      assert StarsBefore(p, 0) == 0;
    } else if |p| == 1 {
      assert StarsBefore(p, 0) == 0;
    } else {
      StarsAreUnescaped(p[2..]);
      StarsLater(p, 2, |p| - 2);
      assert Backslashes(p, 1) == 1 && StarsBefore(p, 1) == 0;
    }
  }

  /** A pattern with more than sixteen of them is refused, whatever else is in the
      list before it, unless the list was refused already. */
  lemma TooManyStars(root: Path, lines: seq<string>, i: nat)
    requires i < |lines| && PatternOn(lines[i]).Some? && var p := Taken(PatternOn(lines[i]).value); StarsBefore(p, |p|) > 16
    ensures Compile(root, lines).Bad?
  {
    hide PatternOn;
    var p := PatternOn(lines[i]).value;
    StarsAreUnescaped(Taken(p));
    assert lines[..i + 1][..i] == lines[..i];
    assert Compile(root, lines[..i + 1]).Bad?;
    CompileStops(root, lines, i + 1);
  }
}
