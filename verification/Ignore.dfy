/** Ignore lists and the restic patterns they become (internal/backup/ignore.go):
    a list read by its documented rules leaves out the same paths as the patterns
    do. Patterns and names are matched component by component. */
module Ignore {
  import opened Text

  type Path = seq<string>

  // ---- a component's pattern ----

  /** What a pattern is made of: any run of characters, any one, one of a set, a
      character itself. */
  datatype Token = Star | Any | Set(negated: bool, ranges: seq<(char, char)>) | Char(c: char)

  /** A character of a set, escaped or not; it needs something after it. */
  function SetChar(s: string): (r: Option<(char, string)>)
    ensures r.Some? ==> |r.value.1| < |s|
  {
    if s == "" || s[0] == '-' || s[0] == ']' then None
    else if s[0] == '\\' then if |s| < 3 then None else Some((s[1], s[2..]))
    else if |s| < 2 then None else Some((s[0], s[1..]))
  }

  /** The ranges of a set up to its bracket, and what comes after. */
  function Ranges(s: string, some: bool): (r: Option<(seq<(char, char)>, string)>)
    ensures r.Some? ==> |r.value.1| < |s|
    decreases |s|
  {
    if s != "" && s[0] == ']' && some then Some(([], s[1..]))
    else
      match SetChar(s)
      case None => None
      case Some((lo, afterLo)) =>
        if afterLo[0] == '-' then
          match SetChar(afterLo[1..])
          case None => None
          case Some((hi, rest)) =>
            (match Ranges(rest, true)
             case None => None
             case Some((more, after)) => Some(([(lo, hi)] + more, after)))
        else
          match Ranges(afterLo, true)
          case None => None
          case Some((more, after)) => Some(([(lo, lo)] + more, after))
  }

  /** A pattern read, with the characters that negate a set: ^ for Go and restic,
      ! or ^ for a list; None when it is malformed. */
  function Parse(s: string, negations: set<char>): Option<seq<Token>>
    decreases |s|
  {
    if s == "" then Some([])
    else if s[0] == '[' then
      var negated := |s| > 1 && s[1] in negations;
      match Ranges(if negated then s[2..] else s[1..], false)
      case None => None
      case Some((ranges, rest)) => Prepend(Set(negated, ranges), Parse(rest, negations))
    else if s[0] == '\\' then if |s| < 2 then None else Prepend(Char(s[1]), Parse(s[2..], negations))
    else Prepend(if s[0] == '*' then Star else if s[0] == '?' then Any else Char(s[0]), Parse(s[1..], negations))
  }

  function Prepend(t: Token, rest: Option<seq<Token>>): Option<seq<Token>> {
    if rest.None? then None else Some([t] + rest.value)
  }

  predicate InRanges(ranges: seq<(char, char)>, c: char) { exists r | r in ranges :: r.0 <= c <= r.1 }

  predicate Takes(t: Token, c: char) {
    match t
    case Char(d) => c == d
    case Set(negated, ranges) => InRanges(ranges, c) != negated
    case _ => true
  }

  /** Whether a name is what the tokens say, from its first character to its last. */
  predicate Matches(tokens: seq<Token>, name: string)
    decreases |tokens| + |name|
  {
    if tokens == [] then name == ""
    else if tokens[0].Star? then Matches(tokens[1..], name) || (name != "" && Matches(tokens, name[1..]))
    else name != "" && Takes(tokens[0], name[0]) && Matches(tokens[1..], name[1..])
  }

  // ---- bracketNegation ----

  /** Where the scan is: outside a set, at the start of one, inside one, or past
      a backslash. */
  datatype Scan = Out | Open | In | OutEscape | InEscape

  function Next(at: Scan, c: char): Scan {
    match at
    case Out => if c == '\\' then OutEscape else if c == '[' then Open else Out
    case OutEscape => Out
    case InEscape => In
    case _ => if c == '\\' then InEscape else if c == ']' then Out else In
  }

  /** What the scan writes for a character, and where it is then. */
  function Rewrite(at: Scan, s: string): (t: string)
    ensures |t| == |s|
    decreases |s|
  {
    if s == "" then ""
    else if at == Open && s[0] == '!' then "^" + Rewrite(In, s[1..])
    else [s[0]] + Rewrite(Next(at, s[0]), s[1..])
  }

  function End(at: Scan, s: string): Scan
    decreases |s|
  {
    if s == "" then at else End(Next(at, s[0]), s[1..])
  }

  lemma RewriteStep(at: Scan, p: string, i: nat)
    requires i <= |p|
    ensures i == |p| ==> Rewrite(at, p[i..]) == ""
    ensures i < |p| ==>
      Rewrite(at, p[i..]) ==
        if at == Open && p[i] == '!' then ['^'] + Rewrite(In, p[i + 1..]) else [p[i]] + Rewrite(Next(at, p[i]), p[i + 1..])
  {
    if i < |p| { assert p[i..][1..] == p[i + 1..]; }
  }

  function Inside(inside: bool): Scan { if inside then In else Out }

  lemma EscapeStep(inside: bool, p: string, i: nat)
    requires i + 1 < |p| && p[i] == '\\'
    ensures Rewrite(Inside(inside), p[i..]) == [p[i], p[i + 1]] + Rewrite(Inside(inside), p[i + 2..])
  {
    hide Rewrite;
    RewriteStep(Inside(inside), p, i);
    RewriteStep(if inside then InEscape else OutEscape, p, i + 1);
  }

  lemma OpenStep(p: string, i: nat)
    requires i < |p| && p[i] == '['
    ensures Rewrite(Out, p[i..]) ==
      if i + 1 < |p| && p[i + 1] == '!' then ['[', '^'] + Rewrite(In, p[i + 2..]) else ['['] + Rewrite(In, p[i + 1..])
  {
    hide Rewrite;
    RewriteStep(Out, p, i);
    RewriteStep(Open, p, i + 1);
    RewriteStep(In, p, i + 1);
  }

  lemma PlainStep(inside: bool, p: string, i: nat)
    requires i < |p| && (p[i] == '\\' ==> i + 1 == |p|) && (p[i] == '[' ==> inside)
    ensures Rewrite(Inside(inside), p[i..]) == [p[i]] + Rewrite(Inside(inside && p[i] != ']'), p[i + 1..])
  {
    hide Rewrite;
    RewriteStep(Inside(inside), p, i);
    RewriteStep(Next(Inside(inside), p[i]), p, i + 1);
    RewriteStep(Inside(inside), p, i + 1);
  }

  lemma Joined(b: string, e: string, rest: string)
    ensures b + e + rest == b + (e + rest)
  {}

  method BracketNegation(p: string) returns (b: string)
    ensures b == Rewrite(Out, p)
  {
    hide Rewrite;
    b := "";
    var inside := false;
    var i: nat := 0;
    assert p[0..] == p;
    while i < |p|
      invariant i <= |p|
      invariant b + Rewrite(Inside(inside), p[i..]) == Rewrite(Out, p)
    {
      var c := p[i];
      if c == '\\' && i + 1 < |p| {
        EscapeStep(inside, p, i);
        Joined(b, [c, p[i + 1]], Rewrite(Inside(inside), p[i + 2..]));
        b := b + [c, p[i + 1]];
        i := i + 2;
        continue;
      }
      if c == '[' && !inside {
        OpenStep(p, i);
        inside := true;
        if i + 1 < |p| && p[i + 1] == '!' {
          Joined(b, ['[', '^'], Rewrite(In, p[i + 2..]));
          b := b + [c, '^'];
          i := i + 2;
        } else {
          Joined(b, ['['], Rewrite(In, p[i + 1..]));
          b := b + [c];
          i := i + 1;
        }
        continue;
      }
      PlainStep(inside, p, i);
      Joined(b, [c], Rewrite(Inside(inside && c != ']'), p[i + 1..]));
      if c == ']' && inside {
        inside := false;
      }
      b := b + [c];
      i := i + 1;
    }
    RewriteStep(Inside(inside), p, |p|);
  }

  // ---- wildcards ----

  /** The stars of a pattern that no backslash escapes. */
  function Stars(p: string): nat
    decreases |p|
  {
    if p == "" then 0
    else if p[0] == '\\' then if |p| < 2 then 0 else Stars(p[2..])
    else (if p[0] == '*' then 1 else 0) + Stars(p[1..])
  }

  method Wildcards(p: string) returns (n: nat)
    ensures n == Stars(p)
  {
    n := 0;
    var i := 0;
    while i < |p|
      invariant 0 <= i <= |p| + 1
      invariant n + (if i <= |p| then Stars(p[i..]) else 0) == Stars(p)
      decreases |p| - i
    {
      assert p[i..][0] == p[i] && p[i..][1..] == p[i + 1..];
      if p[i] == '\\' {
        if i + 2 <= |p| { assert p[i..][2..] == p[i + 2..]; }
        i := i + 1;
      } else if p[i] == '*' {
        n := n + 1;
      }
      i := i + 1;
    }
  }

  // ---- the rewriting means the same ----

  const GO := {'^'}
  const LIST := {'!', '^'}

  /** A set's character is no bracket; the scan reads it as the set does. */
  lemma SetCharRewritten(s: string)
    ensures SetChar(s).None? <==> SetChar(Rewrite(In, s)).None?
    ensures SetChar(s).Some? ==>
      var (c, rest) := SetChar(s).value;
      && SetChar(Rewrite(In, s)) == Some((c, Rewrite(In, rest))) && End(In, s) == End(In, rest)
      && rest != "" && Rewrite(In, rest) != "" && Rewrite(In, rest)[0] == rest[0]
  {
    if |s| > 1 {
      assert s[1..][1..] == s[2..];
      assert s[1..][0] == s[1];
      var t := Rewrite(In, s);
      assert t == [s[0]] + Rewrite(Next(In, s[0]), s[1..]);
      if s[0] == '\\' {
        assert t[2..] == Rewrite(In, s[2..]);
      } else if s[0] != ']' {
        assert t[1..] == Rewrite(In, s[1..]);
      }
    }
  }

  lemma DashRewritten(s: string)
    requires s != "" && s[0] == '-'
    ensures Rewrite(In, s)[1..] == Rewrite(In, s[1..]) && End(In, s) == End(In, s[1..])
  {}

  lemma {:induction false} RangesRewritten(s: string, some: bool)
    ensures Ranges(s, some).None? <==> Ranges(Rewrite(In, s), some).None?
    ensures Ranges(s, some).Some? ==>
      var (ranges, rest) := Ranges(s, some).value;
      Ranges(Rewrite(In, s), some) == Some((ranges, Rewrite(Out, rest))) && End(In, s) == End(Out, rest)
    decreases |s|
  {
    hide SetChar, Rewrite, End;
    if s != "" && s[0] == ']' && some {
      SetCloses(s);
    } else {
      FirstRewritten(s);
      SetCharRewritten(s);
      if SetChar(s).Some? {
        var (lo, afterLo) := SetChar(s).value;
        if afterLo[0] == '-' {
          DashRewritten(afterLo);
          SetCharRewritten(afterLo[1..]);
          if SetChar(afterLo[1..]).Some? { RangesRewritten(SetChar(afterLo[1..]).value.1, true); }
        } else {
          RangesRewritten(afterLo, true);
        }
      }
    }
  }

  lemma FirstRewritten(s: string)
    ensures |Rewrite(In, s)| == |s| && (s != "" ==> Rewrite(In, s)[0] == s[0])
  {}

  lemma SetCloses(s: string)
    requires s != "" && s[0] == ']'
    ensures Rewrite(In, s)[0] == ']' && Rewrite(In, s)[1..] == Rewrite(Out, s[1..]) && End(In, s) == End(Out, s[1..])
  {}

  /** The beginning of a set, rewritten: ! becomes ^, and the rest is inside. */
  lemma SetOpens(s: string)
    requires s != "" && s[0] == '['
    ensures var negated, t := |s| > 1 && s[1] in LIST, Rewrite(Out, s);
      && t[0] == '[' && (|t| > 1 && t[1] in GO <==> negated)
      && (if negated then t[2..] else t[1..]) == Rewrite(In, if negated then s[2..] else s[1..])
      && (|s| > 1 ==> End(Out, s) == End(In, if negated then s[2..] else s[1..]))
  {
    var t := Rewrite(Out, s);
    assert t == ['['] + Rewrite(Open, s[1..]);
    FirstRewritten(s[1..]);
    if |s| > 1 {
      assert s[1..][0] == s[1] && s[1..][1..] == s[2..];
      if s[1] == '!' {
        assert t[2..] == Rewrite(In, s[2..]);
      } else {
        assert Rewrite(Open, s[1..]) == Rewrite(In, s[1..]);
        if s[1] == '^' { assert t[2..] == Rewrite(In, s[2..]); }
      }
    }
  }

  /** A list's pattern means to Go, rewritten, what it means to the list; and one
      that is well formed ends outside any set. */
  lemma {:induction false} ParseRewritten(s: string)
    ensures Parse(Rewrite(Out, s), GO) == Parse(s, LIST)
    ensures Parse(s, LIST).Some? ==> End(Out, s) == Out
    decreases |s|
  {
    hide Rewrite, End, Ranges;
    if s == "" {
      OutEnds(s);
    } else if s[0] == '[' {
      var negated := |s| > 1 && s[1] in LIST;
      var body := if negated then s[2..] else s[1..];
      SetOpens(s);
      RangesRewritten(body, false);
      if Ranges(body, false).Some? { ParseRewritten(Ranges(body, false).value.1); }
    } else {
      OutEnds(s);
      if s[0] == '\\' {
        if |s| > 1 { ParseRewritten(s[2..]); }
      } else {
        ParseRewritten(s[1..]);
      }
    }
  }

  /** Outside sets the scan writes what it reads. */
  lemma OutEnds(s: string)
    ensures s == "" ==> Rewrite(Out, s) == "" && End(Out, s) == Out
    ensures s != "" ==> Rewrite(Out, s) != "" && Rewrite(Out, s)[0] == s[0]
    ensures s != "" && s[0] != '[' && s[0] != '\\' ==>
      Rewrite(Out, s)[1..] == Rewrite(Out, s[1..]) && End(Out, s) == End(Out, s[1..])
    ensures |s| > 1 && s[0] == '\\' ==>
      |Rewrite(Out, s)| > 1 && Rewrite(Out, s)[1] == s[1]
      && Rewrite(Out, s)[2..] == Rewrite(Out, s[2..]) && End(Out, s) == End(Out, s[2..])
    ensures |Rewrite(Out, s)| == |s|
  {
    if |s| > 1 && s[0] == '\\' {
      assert s[1..][0] == s[1] && s[1..][1..] == s[2..];
      assert Rewrite(Out, s) == [s[0]] + ([s[1]] + Rewrite(Out, s[2..]));
    }
  }

  // ---- paths ----

  predicate NameMatches(c: string, negations: set<char>, name: string) {
    Parse(c, negations).Some? && Matches(Parse(c, negations).value, name)
  }

  /** Whether components, from the first, take a path or a directory it lies in:
      ** stands for any number of directories, and last for all inside one. */
  predicate MatchComps(comps: seq<string>, negations: set<char>, path: Path)
    decreases |comps| + |path|
  {
    if comps == [] then true
    else if comps[0] == "**" then
      if |comps| == 1 then path != []
      else MatchComps(comps[1..], negations, path) || (path != [] && MatchComps(comps, negations, path[1..]))
    else path != [] && NameMatches(comps[0], negations, path[0]) && MatchComps(comps[1..], negations, path[1..])
  }

  /** ** before components matches at any depth. */
  lemma {:induction false} AnyDepth(comps: seq<string>, negations: set<char>, path: Path)
    requires comps != []
    ensures MatchComps(["**"] + comps, negations, path) <==> exists k | 0 <= k <= |path| :: MatchComps(comps, negations, path[k..])
    decreases |path|
  {
    var all := ["**"] + comps;
    assert all[1..] == comps && path[0..] == path;
    if path != [] {
      AnyDepth(comps, negations, path[1..]);
      forall k | 0 <= k <= |path[1..]| ensures path[1..][k..] == path[k + 1..] {}
      if exists k | 0 <= k <= |path| :: MatchComps(comps, negations, path[k..]) {
        var k :| 0 <= k <= |path| && MatchComps(comps, negations, path[k..]);
        if k > 0 { assert path[1..][k - 1..] == path[k..]; }
      }
    }
  }

  lemma {:induction false} NothingMatchesNothing(comps: seq<string>, negations: set<char>)
    requires comps != []
    ensures !MatchComps(comps, negations, [])
    decreases |comps|
  {
    if |comps| > 1 { NothingMatchesNothing(comps[1..], negations); }
  }

  /** A name without anything a pattern reads. */
  predicate Literal(c: string) { c != "" && forall x | x in c :: x !in "*?[\\/!$" }

  lemma {:induction false} LiteralMatches(c: string, negations: set<char>, name: string)
    requires forall x | x in c :: x !in "*?[\\/!$"
    ensures NameMatches(c, negations, name) <==> c == name
    decreases |c|
  {
    if c != "" {
      assert c[0] in c;
      forall x | x in c[1..] ensures x in c {}
      LiteralMatches(c[1..], negations, if name == "" then "" else name[1..]);
      assert c == [c[0]] + c[1..];
      if name != "" { assert name == [name[0]] + name[1..]; }
    }
  }

  /** Under a root, components match what they match; outside it they match
      nothing. */
  lemma {:induction false} UnderRoot(root: Path, comps: seq<string>, path: Path)
    requires comps != [] && forall c | c in root :: Literal(c)
    ensures MatchComps(root + comps, GO, path) <==> root < path && MatchComps(comps, GO, path[|root|..])
    decreases |root|
  {
    if root == [] {
      assert root + comps == comps && path[0..] == path;
      if path == [] { NothingMatchesNothing(comps, GO); }
    } else {
      assert root[0] in root;
      assert (root + comps)[1..] == root[1..] + comps;
      assert root[0] != "**" by { assert "**"[0] == '*' && '*' in "**"; }
      if path != [] {
        LiteralMatches(root[0], GO, path[0]);
        UnderRoot(root[1..], comps, path[1..]);
        assert root == [root[0]] + root[1..] && path == [path[0]] + path[1..];
        assert root < path <==> root[0] == path[0] && root[1..] < path[1..];
        if root < path { assert path[1..][|root[1..]|..] == path[|root|..]; }
      }
    }
  }

  // ---- the rules of a list ----

  datatype Rule = Rule(takesBack: bool, anchored: bool, pattern: string)

  function TrimEnd(s: string, c: char): (t: string)
    ensures t <= s
  {
    if s != "" && s[|s| - 1] == c then TrimEnd(s[..|s| - 1], c) else s
  }

  function TrimStart(s: string, c: char): (t: string)
    ensures t == "" || t[0] != c
    ensures forall x | x in t :: x in s
  {
    if s != "" && s[0] == c then TrimStart(s[1..], c) else s
  }

  /** The pattern on a line; a blank line or a comment has none. */
  function PatternOn(line: string): Option<string> {
    var l := TrimEnd(line, '\r');
    if l != "" && l[0] == '#' then None
    else
      var p := TrimEnd(TrimStart(l, ' '), ' ');
      if p == "" then None else Some(p)
  }

  function Taken(p: string): string { if p != "" && p[0] == '!' then p[1..] else p }

  /** What a pattern says: ! takes back; a slash before the end anchors it; / alone
      names the root, which nothing leaves out. */
  function RuleOf(p: string): Option<Rule> {
    var q := TrimEnd(Taken(p), '/');
    var r := TrimStart(q, '/');
    if r == "" then None else Some(Rule(p != "" && p[0] == '!', '/' in q, r))
  }

  function RuleOn(line: string): Option<Rule> {
    match PatternOn(line)
    case None => None
    case Some(p) => RuleOf(p)
  }

  function Rules(lines: seq<string>): seq<Rule> {
    if lines == [] then []
    else
      var before := Rules(lines[..|lines| - 1]);
      match RuleOn(lines[|lines| - 1])
      case None => before
      case Some(rule) => before + [rule]
  }

  /** A rule matches a path at the root, or at any depth when it is not anchored. */
  predicate RuleMatches(rule: Rule, path: Path) {
    var comps := Split(rule.pattern, '/');
    if rule.anchored then MatchComps(comps, LIST, path)
    else exists k | 0 <= k <= |path| :: MatchComps(comps, LIST, path[k..])
  }

  /** The last rule that matches decides. */
  predicate Verdict(rules: seq<Rule>, path: Path) {
    if rules == [] then false
    else
      var last := rules[|rules| - 1];
      if RuleMatches(last, path) then !last.takesBack else Verdict(rules[..|rules| - 1], path)
  }

  /** A path is left out when it or a directory it lies in is. */
  predicate ListLeavesOut(rules: seq<Rule>, path: Path) {
    exists k | 0 < k <= |path| :: Verdict(rules, path[..k])
  }

  // ---- restic's exclude file ----

  /** One line read: whether it takes back, and its components from the root. */
  datatype Pattern = Pattern(takesBack: bool, comps: seq<string>)

  /** $$ is a dollar sign; any other $ would be a variable. */
  function Expand(s: string): Option<string>
    decreases |s|
  {
    if s == "" then Some("")
    else if s[0] != '$' then (var t := Expand(s[1..]); if t.None? then None else Some([s[0]] + t.value))
    else if |s| < 2 || s[1] != '$' then None
    else (var t := Expand(s[2..]); if t.None? then None else Some("$" + t.value))
  }

  function ReadLine(line: string): Option<Pattern> {
    match Expand(line)
    case None => None
    case Some(s) => if Taken(s) == "" then None else Some(Pattern(s[0] == '!', Split(Taken(s), '/')[1..]))
  }

  function ReadLines(lines: seq<string>): seq<Pattern> {
    if lines == [] then []
    else
      var before := ReadLines(lines[..|lines| - 1]);
      match ReadLine(lines[|lines| - 1])
      case None => before
      case Some(p) => before + [p]
  }

  predicate ResticVerdict(patterns: seq<Pattern>, path: Path) {
    if patterns == [] then false
    else
      var last := patterns[|patterns| - 1];
      if MatchComps(last.comps, GO, path) then !last.takesBack else ResticVerdict(patterns[..|patterns| - 1], path)
  }

  predicate ResticLeavesOut(patterns: seq<Pattern>, path: Path) {
    exists k | 0 < k <= |path| :: ResticVerdict(patterns, path[..k])
  }

  // ---- ResticExcludes ----

  datatype Error = TooLarge | TooManyPatterns | TooManyWildcards | BadPattern

  datatype Result = Ok(out: string) | Err(error: Error)

  const MAX_BYTES := 32 * 1024
  const MAX_PATTERNS := 256
  const MAX_WILDCARDS := 16

  /** The bytes of a text in UTF-8. */
  function ByteLength(s: string): nat {
    if s == "" then 0
    else
      var c := s[|s| - 1];
      ByteLength(s[..|s| - 1])
      + if c < '\U{0080}' then 1 else if c < '\U{0800}' then 2 else if c < '\U{10000}' then 3 else 4
  }

  /** checkPattern */
  predicate WellFormed(p: string) {
    forall part | part in Split(p, '/') :: part == "" || part == "**" || Parse(part, GO).Some?
  }

  function RootText(root: Path): string {
    if root == [] then "" else "/" + root[0] + RootText(root[1..])
  }

  function Double(s: string): string {
    if s == "" then "" else (if s[0] == '$' then "$$" else [s[0]]) + Double(s[1..])
  }

  /** The pattern a rule becomes, before it takes back and its dollars double. */
  function PatternText(root: Path, rule: Rule): string {
    RootText(root) + "/" + Rewrite(Out, Spread(rule))
  }

  function Spread(rule: Rule): string { (if rule.anchored then "" else "**/") + rule.pattern }

  function Printed(root: Path, rule: Rule): string {
    Double((if rule.takesBack then "!" else "") + PatternText(root, rule))
  }

  /** What becomes of one pattern. */
  datatype Translation = Nothing | Line(text: string) | Wrong(error: Error)

  function Translate(root: Path, p: string): Translation {
    if Stars(Taken(p)) > MAX_WILDCARDS then Wrong(TooManyWildcards)
    else
      match RuleOf(p)
      case None => Nothing
      case Some(rule) => if WellFormed(PatternText(root, rule)) then Line(Printed(root, rule)) else Wrong(BadPattern)
  }

  datatype Compiled = Good(n: nat, out: seq<string>) | Bad(error: Error)

  /** What the lines become, one after the other. */
  function Compile(root: Path, lines: seq<string>): Compiled {
    if lines == [] then Good(0, [])
    else
      match Compile(root, lines[..|lines| - 1])
      case Bad(error) => Bad(error)
      case Good(n, out) =>
        var p := PatternOn(lines[|lines| - 1]);
        if p.None? then Good(n, out)
        else if n + 1 > MAX_PATTERNS then Bad(TooManyPatterns)
        else
          match Translate(root, p.value)
          case Wrong(error) => Bad(error)
          case Nothing => Good(n + 1, out)
          case Line(text) => Good(n + 1, out + [text])
  }

  function Excludes(root: Path, list: string): Result {
    if ByteLength(list) > MAX_BYTES then Err(TooLarge)
    else
      match Compile(root, Split(list, '\n'))
      case Bad(error) => Err(error)
      case Good(_, out) => Ok(Join(out, '\n'))
  }

  lemma {:induction false} CompileStops(root: Path, lines: seq<string>, i: nat)
    requires i <= |lines| && Compile(root, lines[..i]).Bad?
    ensures Compile(root, lines) == Compile(root, lines[..i])
    decreases |lines| - i
  {
    if i == |lines| {
      assert lines[..i] == lines;
    } else {
      assert lines[..i + 1][..i] == lines[..i];
      CompileStops(root, lines, i + 1);
    }
  }

  /** The part of the loop that turns a pattern into a line. */
  method TranslatePattern(p: string, root: Path) returns (t: Translation)
    requires p != ""
    ensures t == Translate(root, p)
  {
    hide Rewrite, Stars, WellFormed, Double, TrimEnd, TrimStart, RootText;
    var neg := p[0] == '!';
    var q := if neg then p[1..] else p;
    var stars := Wildcards(q);
    if stars > MAX_WILDCARDS {
      return Wrong(TooManyWildcards);
    }
    q := TrimEnd(q, '/');
    var anchored := '/' in q;
    q := TrimStart(q, '/');
    if q == "" {
      return Nothing;
    }
    ghost var rule := Rule(neg, anchored, q);
    assert RuleOf(p) == Some(rule);
    if !anchored {
      q := "**/" + q;
    }
    assert Spread(rule) == q by { if anchored { assert "" + q == q; } }
    q := BracketNegation(q);
    q := RootText(root) + "/" + q;
    if !WellFormed(q) {
      return Wrong(BadPattern);
    }
    if neg {
      q := "!" + q;
    }
    assert Double(q) == Printed(root, rule) by { if !neg { assert "" + PatternText(root, rule) == q; } }
    return Line(Double(q));
  }

  method ResticExcludes(list: string, root: Path) returns (r: Result)
    ensures r == Excludes(root, list)
  {
    hide TrimEnd, TrimStart, Split, ByteLength, Translate;
    if ByteLength(list) > MAX_BYTES {
      return Err(TooLarge);
    }
    var lines := Split(list, '\n');
    var out: seq<string> := [];
    var n: nat := 0;
    for i := 0 to |lines|
      invariant Compile(root, lines[..i]) == Good(n, out)
    {
      assert lines[..i + 1][..i] == lines[..i] && lines[..i + 1][i] == lines[i];
      var line := TrimEnd(lines[i], '\r');
      if line != "" && line[0] == '#' {
        continue;
      }
      var p := TrimEnd(TrimStart(line, ' '), ' ');
      if p == "" {
        continue;
      }
      n := n + 1;
      if n > MAX_PATTERNS {
        CompileStops(root, lines, i + 1);
        return Err(TooManyPatterns);
      }
      var t := TranslatePattern(p, root);
      match t
      case Nothing =>
      case Line(text) => out := out + [text];
      case Wrong(error) =>
        CompileStops(root, lines, i + 1);
        return Err(error);
    }
    assert lines[..|lines|] == lines;
    return Ok(Join(out, '\n'));
  }

  // ---- the patterns leave out what the list does ----

  lemma {:induction false} ExpandDouble(s: string)
    ensures Expand(Double(s)) == Some(s)
    decreases |s|
  {
    if s != "" {
      ExpandDouble(s[1..]);
      var t := Double(s);
      assert s == [s[0]] + s[1..];
      if s[0] == '$' { assert t[2..] == Double(s[1..]); } else { assert t[1..] == Double(s[1..]); }
    }
  }

  /** A text under a root, without the slash that begins it. */
  function Under(root: Path, x: string): string {
    if root == [] then x else root[0] + ['/'] + Under(root[1..], x)
  }

  lemma Regroup(a: string, b: string, c: string, d: string, e: string)
    ensures a + b + c + d + e == a + (b + (c + d + e))
  {}

  lemma {:induction false} RootIsUnder(root: Path, x: string)
    ensures RootText(root) + "/" + x == "" + ['/'] + Under(root, x)
    decreases |root|
  {
    if root != [] {
      var r := RootText(root[1..]);
      RootIsUnder(root[1..], x);
      assert RootText(root) == "/" + root[0] + r;
      Regroup("/", root[0], r, "/", x);
      assert r + "/" + x == ['/'] + Under(root[1..], x);
      Joined(root[0], ['/'], Under(root[1..], x));
    }
  }

  lemma {:induction false} UnderSplits(root: Path, x: string)
    requires forall c | c in root :: Literal(c)
    ensures Split(Under(root, x), '/') == root + Split(x, '/')
    decreases |root|
  {
    hide Split;
    if root != [] {
      assert root[0] in root;
      NoSlash(root[0]);
      UnderSplits(root[1..], x);
      SplitFirst(root[0], '/', Under(root[1..], x));
      assert root + Split(x, '/') == [root[0]] + (root[1..] + Split(x, '/'));
    }
  }

  lemma NoSlash(c: string)
    requires Literal(c)
    ensures '/' !in c
  {
    assert "*?[\\/!$"[4] == '/';
  }

  lemma RootSplits(root: Path, x: string)
    requires forall c | c in root :: Literal(c)
    ensures Split(RootText(root) + "/" + x, '/') == [""] + (root + Split(x, '/'))
  {
    hide Split;
    RootIsUnder(root, x);
    UnderSplits(root, x);
    SplitFirst("", '/', Under(root, x));
  }

  lemma {:induction false} RewriteJoins(at: Scan, a: string, b: string)
    ensures Rewrite(at, a + b) == Rewrite(at, a) + Rewrite(End(at, a), b)
    decreases |a|
  {
    if a == "" {
      assert a + b == b;
    } else {
      assert (a + b)[1..] == a[1..] + b;
      RewriteJoins(Next(at, a[0]), a[1..], b);
    }
  }

  /** The scan changes no character but a ! into ^. */
  lemma {:induction false} RewriteKeeps(at: Scan, s: string)
    ensures forall i | 0 <= i < |s| :: Rewrite(at, s)[i] == s[i] || (s[i] == '!' && Rewrite(at, s)[i] == '^')
    decreases |s|
  {
    if s != "" {
      RewriteKeeps(Next(at, s[0]), s[1..]);
      assert Rewrite(at, s)[1..] == Rewrite(Next(at, s[0]), s[1..]);
      forall i | 0 <= i < |s| ensures Rewrite(at, s)[i] == s[i] || (s[i] == '!' && Rewrite(at, s)[i] == '^') {
        if i > 0 { assert Rewrite(at, s)[i] == Rewrite(at, s)[1..][i - 1] && s[i] == s[1..][i - 1]; }
      }
    }
  }

  function Rewritten(comps: seq<string>): (r: seq<string>)
    ensures |r| == |comps|
  {
    seq(|comps|, i requires 0 <= i < |comps| => Rewrite(Out, comps[i]))
  }

  predicate PartOk(part: string) { part == "" || part == "**" || Parse(part, GO).Some? }

  lemma {:induction false} StarsOnly(s: string)
    requires Rewrite(Out, s) == "" || Rewrite(Out, s) == "**"
    ensures s == Rewrite(Out, s)
  {
    RewriteKeeps(Out, s);
    if s != "" { assert s[0] == '*' && s[1] == '*'; }
  }

  /** A part that is taken ends outside any set. */
  lemma PartEnds(a: string)
    requires PartOk(Rewrite(Out, a))
    ensures End(Out, a) == Out
  {
    ParseRewritten(a);
    if Rewrite(Out, a) == "" || Rewrite(Out, a) == "**" {
      StarsOnly(a);
      assert End(Out, "**") == Out by { assert "**"[1..] == "*" && "*"[1..] == ""; }
    }
  }

  /** The first component, rewritten by itself. */
  lemma {:induction false} FirstPart(q: string, i: nat)
    requires i == IndexOf(q, '/') < |q|
    ensures var a, rest := q[..i], q[i + 1..];
      Split(Rewrite(Out, q), '/') == [Rewrite(Out, a)] + Split(Rewrite(Next(End(Out, a), '/'), rest), '/')
  {
    hide Split, Rewrite, End, IndexOf;
    var a, rest := q[..i], q[i + 1..];
    var t, r := Rewrite(Out, a), Rewrite(Next(End(Out, a), '/'), rest);
    assert q == a + (['/'] + rest);
    assert Rewrite(Out, q) == t + ['/'] + r by {
      RewriteJoins(Out, a, ['/'] + rest);
      SlashStays(End(Out, a), rest);
      Joined(t, ['/'], r);
    }
    assert '/' !in t by {
      RewriteKeeps(Out, a);
      assert forall k | 0 <= k < |a| :: a[k] == q[k] && a[k] != '/';
    }
    SplitFirst(t, '/', r);
  }

  lemma {:induction false} OnlyPart(q: string)
    requires IndexOf(q, '/') == |q|
    ensures Split(Rewrite(Out, q), '/') == [Rewrite(Out, q)]
  {
    RewriteKeeps(Out, q);
    assert forall k | 0 <= k < |q| :: Rewrite(Out, q)[k] != '/';
  }

  lemma {:induction false} SplitUnfolds(q: string, i: nat)
    requires i == IndexOf(q, '/')
    ensures Split(q, '/') == if i == |q| then [q] else [q[..i]] + Split(q[i + 1..], '/')
  {
    hide IndexOf;
  }

  lemma RewrittenMore(a: string, comps: seq<string>)
    ensures Rewritten([a]) == [Rewrite(Out, a)] && Rewritten([a] + comps) == [Rewrite(Out, a)] + Rewritten(comps)
  {
    hide Rewrite;
  }

  /** A pattern that is taken is rewritten component by component. */
  lemma {:induction false} SplitsRewritten(q: string)
    requires forall part | part in Split(Rewrite(Out, q), '/') :: PartOk(part)
    ensures Split(Rewrite(Out, q), '/') == Rewritten(Split(q, '/'))
    decreases |q|
  {
    hide Rewrite, End, PartOk, Split, Rewritten, IndexOf;
    var i := IndexOf(q, '/');
    SplitUnfolds(q, i);
    if i == |q| {
      OnlyPart(q);
      RewrittenMore(q, []);
    } else {
      var a, rest := q[..i], q[i + 1..];
      FirstPart(q, i);
      var parts := Split(Rewrite(Out, q), '/');
      assert parts[0] == Rewrite(Out, a) && parts[0] in parts;
      PartEnds(a);
      assert Split(Rewrite(Out, rest), '/') == parts[1..];
      SplitsRewritten(rest);
      RewrittenMore(a, Split(rest, '/'));
    }
  }

  lemma SlashStays(at: Scan, rest: string)
    ensures Rewrite(at, ['/'] + rest) == ['/'] + Rewrite(Next(at, '/'), rest)
  {
    assert (['/'] + rest)[1..] == rest;
  }

  lemma {:induction false} MatchesRewritten(comps: seq<string>, path: Path)
    requires forall c | c in comps :: PartOk(Rewrite(Out, c))
    ensures MatchComps(Rewritten(comps), GO, path) <==> MatchComps(comps, LIST, path)
    decreases |comps| + |path|
  {
    hide Rewrite, Parse, Matches;
    if comps != [] {
      var r := Rewritten(comps);
      assert r[1..] == Rewritten(comps[1..]) && r[0] == Rewrite(Out, comps[0]);
      ParseRewritten(comps[0]);
      StarsStay(comps[0]);
      if comps[0] == "**" {
        MatchesRewritten(comps[1..], path);
        if path != [] { MatchesRewritten(comps, path[1..]); }
      } else if path != [] {
        MatchesRewritten(comps[1..], path[1..]);
      }
    }
  }

  lemma StarsStay(c: string)
    ensures Rewrite(Out, c) == "**" <==> c == "**"
  {
    RewriteKeeps(Out, c);
    assert c == "**" ==> Rewrite(Out, c) == "**";
    if Rewrite(Out, c) == "**" { StarsOnly(c); }
  }

  /** What restic reads where a rule was printed. */
  function Read(root: Path, rule: Rule): Pattern {
    Pattern(rule.takesBack, root + Split(Rewrite(Out, Spread(rule)), '/'))
  }

  lemma ReadsPrinted(root: Path, rule: Rule)
    requires forall c | c in root :: Literal(c)
    ensures ReadLine(Printed(root, rule)) == Some(Read(root, rule))
  {
    hide Split, Rewrite, Expand, Double, RootText, Literal;
    var x := Rewrite(Out, Spread(rule));
    var text := PatternText(root, rule);
    var line := (if rule.takesBack then "!" else "") + text;
    ExpandDouble(line);
    RootSplits(root, x);
    assert text != "" && text[0] == '/' by { RootIsUnder(root, x); }
    if rule.takesBack {
      assert line[1..] == text;
    } else {
      assert line == text;
    }
    assert Taken(line) == text;
  }

  /** A rule whose pattern was taken is read as a pattern that matches, under the
      root, what the rule does, and nothing elsewhere. */
  lemma RuleIsRead(root: Path, rule: Rule, path: Path)
    requires (forall c | c in root :: Literal(c)) && WellFormed(PatternText(root, rule))
    ensures MatchComps(Read(root, rule).comps, GO, path) <==> root < path && RuleMatches(rule, path[|root|..])
  {
    hide Split, Rewrite, Parse, Literal, MatchComps;
    var q := Spread(rule);
    var parts := Split(Rewrite(Out, q), '/');
    RootSplits(root, Rewrite(Out, q));
    forall part | part in parts ensures PartOk(part) {
      assert part in [""] + (root + parts);
    }
    SplitsRewritten(q);
    UnderRoot(root, parts, path);
    if root < path {
      var inside := path[|root|..];
      RewrittenParts(q, parts);
      MatchesRewritten(Split(q, '/'), inside);
      SpreadMatches(rule, inside);
    }
  }

  lemma RewrittenParts(q: string, parts: seq<string>)
    requires parts == Rewritten(Split(q, '/')) && forall part | part in parts :: PartOk(part)
    ensures forall c | c in Split(q, '/') :: PartOk(Rewrite(Out, c))
  {
    hide Rewrite, Split, PartOk;
    var comps := Split(q, '/');
    forall c | c in comps ensures PartOk(Rewrite(Out, c)) {
      var i :| 0 <= i < |comps| && comps[i] == c;
      assert parts[i] in parts;
    }
  }

  lemma SpreadMatches(rule: Rule, path: Path)
    ensures MatchComps(Split(Spread(rule), '/'), LIST, path) <==> RuleMatches(rule, path)
  {
    hide Split, MatchComps;
    if rule.anchored {
      assert Spread(rule) == rule.pattern;
    } else {
      assert Spread(rule) == "**" + ['/'] + rule.pattern;
      SplitFirst("**", '/', rule.pattern);
      AnyDepth(Split(rule.pattern, '/'), LIST, path);
    }
  }

  /** The lines of a list that is taken are its rules, each taken. */
  lemma {:induction false} CompiledRules(root: Path, lines: seq<string>)
    requires Compile(root, lines).Good?
    ensures var rules, out := Rules(lines), Compile(root, lines).out;
      && |out| == |rules|
      && forall i | 0 <= i < |out| :: out[i] == Printed(root, rules[i]) && WellFormed(PatternText(root, rules[i]))
    decreases |lines|
  {
    hide Printed, PatternText, WellFormed, PatternOn, RuleOf;
    if lines != [] { CompiledRules(root, lines[..|lines| - 1]); }
  }

  lemma {:induction false} ReadsAll(root: Path, rules: seq<Rule>, out: seq<string>)
    requires (forall c | c in root :: Literal(c)) && |out| == |rules|
    requires forall i | 0 <= i < |out| :: out[i] == Printed(root, rules[i])
    ensures var patterns := ReadLines(out);
      |patterns| == |rules| && forall i | 0 <= i < |rules| :: patterns[i] == Read(root, rules[i])
    decreases |rules|
  {
    hide Printed, ReadLine, Read;
    if rules != [] {
      ReadsAll(root, rules[..|rules| - 1], out[..|out| - 1]);
      ReadsPrinted(root, rules[|rules| - 1]);
    }
  }

  lemma {:induction false} SameVerdict(root: Path, rules: seq<Rule>, patterns: seq<Pattern>, path: Path)
    requires (forall c | c in root :: Literal(c)) && |patterns| == |rules|
    requires forall i | 0 <= i < |rules| :: patterns[i] == Read(root, rules[i]) && WellFormed(PatternText(root, rules[i]))
    ensures ResticVerdict(patterns, path) <==> root < path && Verdict(rules, path[|root|..])
    decreases |rules|
  {
    hide MatchComps, RuleMatches, WellFormed, PatternText;
    if rules != [] {
      var n := |rules| - 1;
      RuleIsRead(root, rules[n], path);
      SameVerdict(root, rules[..n], patterns[..n], path);
    }
  }

  /** Every line of the exclude file is read back. */
  lemma LinesReadBack(root: Path, rules: seq<Rule>, out: seq<string>)
    requires |out| == |rules| && (forall i | 0 <= i < |out| :: out[i] == Printed(root, rules[i]))
    requires forall line | line in out :: '\n' !in line
    ensures ReadLines(Split(Join(out, '\n'), '\n')) == ReadLines(out)
  {
    if out == [] {
      assert Split("", '\n') == [""];
      assert [""][..0] == [];
      assert ReadLine("") == None;
    } else {
      SplitJoin(out, '\n');
    }
  }

  lemma {:induction false} DoubleKeepsLine(s: string)
    requires '\n' !in s
    ensures '\n' !in Double(s)
    decreases |s|
  {
    if s != "" {
      assert s[0] in s;
      forall c | c in s[1..] ensures c in s {}
      DoubleKeepsLine(s[1..]);
    }
  }

  lemma {:induction false} TrimKeepsLine(s: string, c: char)
    ensures forall x | x in TrimEnd(s, c) :: x in s
    decreases |s|
  {
    if s != "" && s[|s| - 1] == c { TrimKeepsLine(s[..|s| - 1], c); }
  }

  lemma {:induction false} RootKeepsLine(root: Path)
    requires forall c | c in root :: '\n' !in c
    ensures '\n' !in RootText(root)
    decreases |root|
  {
    if root != [] {
      assert root[0] in root;
      RootKeepsLine(root[1..]);
    }
  }

  lemma RuleKeepsLine(line: string)
    requires '\n' !in line && RuleOn(line).Some?
    ensures '\n' !in RuleOn(line).value.pattern
  {
    hide TrimEnd, TrimStart;
    var l := TrimEnd(line, '\r');
    TrimKeepsLine(line, '\r');
    TrimKeepsLine(TrimStart(l, ' '), ' ');
    var p := TrimEnd(TrimStart(l, ' '), ' ');
    assert '\n' !in Taken(p);
    TrimKeepsLine(Taken(p), '/');
  }

  lemma {:induction false} RulesKeepLines(lines: seq<string>)
    requires forall line | line in lines :: '\n' !in line
    ensures forall rule | rule in Rules(lines) :: '\n' !in rule.pattern
    decreases |lines|
  {
    hide RuleOn;
    if lines != [] {
      var last := lines[|lines| - 1];
      assert last in lines;
      RulesKeepLines(lines[..|lines| - 1]);
      if RuleOn(last).Some? { RuleKeepsLine(last); }
    }
  }

  lemma PrintedIsALine(root: Path, rule: Rule)
    requires '\n' !in rule.pattern && forall c | c in root :: '\n' !in c
    ensures '\n' !in Printed(root, rule)
  {
    hide Rewrite, RootText, Double;
    RootKeepsLine(root);
    var q := Spread(rule);
    RewriteKeeps(Out, q);
    assert '\n' !in q;
    assert forall k | 0 <= k < |q| :: q[k] in q;
    assert forall k | 0 <= k < |q| :: Rewrite(Out, q)[k] != '\n';
    DoubleKeepsLine((if rule.takesBack then "!" else "") + PatternText(root, rule));
  }

  /** For every list that is taken, the exclude file leaves out under the root
      what the list leaves out, path by path, and nothing that is not under it. */
  lemma ExcludesWhatTheListDoes(root: Path, list: string, path: Path)
    requires Excludes(root, list).Ok? && forall c | c in root :: Literal(c) && '\n' !in c
    ensures var patterns := ReadLines(Split(Excludes(root, list).out, '\n'));
      ResticLeavesOut(patterns, path) <==> root < path && ListLeavesOut(Rules(Split(list, '\n')), path[|root|..])
  {
    hide Compile, Printed, Rules, ReadLines, Verdict, ResticVerdict, WellFormed, PatternText, Read, Literal, Split;
    var lines := Split(list, '\n');
    var rules, out := Rules(lines), Compile(root, lines).out;
    CompiledRules(root, lines);
    JoinSplit(list, '\n');
    RulesKeepLines(lines);
    forall line | line in out ensures '\n' !in line {
      var i :| 0 <= i < |out| && out[i] == line;
      assert rules[i] in rules;
      PrintedIsALine(root, rules[i]);
    }
    LinesReadBack(root, rules, out);
    ReadsAll(root, rules, out);
    SameLeftOut(root, rules, ReadLines(out), path);
  }

  lemma SameLeftOut(root: Path, rules: seq<Rule>, patterns: seq<Pattern>, path: Path)
    requires (forall c | c in root :: Literal(c)) && |patterns| == |rules|
    requires forall i | 0 <= i < |rules| :: patterns[i] == Read(root, rules[i]) && WellFormed(PatternText(root, rules[i]))
    ensures ResticLeavesOut(patterns, path) <==> root < path && ListLeavesOut(rules, path[|root|..])
  {
    hide Verdict, ResticVerdict, WellFormed, PatternText, Read, Literal;
    var n := |root|;
    if ResticLeavesOut(patterns, path) {
      var k :| 0 < k <= |path| && ResticVerdict(patterns, path[..k]);
      SameVerdict(root, rules, patterns, path[..k]);
      assert path[..k][n..] == path[n..][..k - n];
    }
    if root < path && ListLeavesOut(rules, path[n..]) {
      var k :| 0 < k <= |path[n..]| && Verdict(rules, path[n..][..k]);
      assert path[..n + k][n..] == path[n..][..k];
      SameVerdict(root, rules, patterns, path[..n + k]);
    }
  }
}
