/** Exactly when symlink normalisation (internal/fileops/resolve.go) keeps the
    meaning of every name: when each link leads where its letters lead. */
module ResolveExact {
  import opened Text
  import opened Resolve

  /** Where a walk ends, through however many links. */
  ghost predicate Ends(v: Volume, deref: bool, w: Where, x: Where) {
    !x.Walking? && exists n: nat :: After(v, deref, w, n) == x
  }

  ghost predicate SameEnds(v: Volume, deref: bool, w: Where, u: Where) {
    forall x :: Ends(v, deref, w, x) <==> Ends(v, deref, u, x)
  }

  /** A link leads where its letters lead: its target walked from the link, and
      its target cleaned letter by letter and walked from the root, end alike;
      with no cleaned form in the volume, the walk leaves the volume too. */
  ghost predicate Faithful(v: Volume, p: Path)
    requires p in v.tree && v.tree[p].Link? && p != []
  {
    var dir, link := p[..|p| - 1], v.tree[p];
    match Lexical(v, dir, link)
    case None => Ends(v, true, Followed(v, dir, link, []), Escaped)
    case Some(letters) => SameEnds(v, true, Followed(v, dir, link, []), Walking([], letters))
  }

  /** What is promised of an answer. */
  ghost predicate Right(v: Volume, name: Path, deref: bool, r: Result) {
    match r
    case Ok(same) =>
      && AllPlain(same) && Normal(v, same, deref)
      && exists x :: Ends(v, deref, Walking([], name), x) && Ends(v, deref, Walking([], same), x)
    case Escapes => Ends(v, deref, Walking([], name), Escaped)
    case NotADirectory => Ends(v, deref, Walking([], name), Blocked)
    case TooMany => true
  }

  // ---- ends ----

  lemma LeadsEnds(v: Volume, deref: bool, w: Where, x: Where, k: nat)
    requires Leads(v, deref, w, x, k) && !x.Walking?
    ensures Ends(v, deref, w, x)
  {}

  /** Two ends of one walk are the same. */
  lemma OneEnd(v: Volume, deref: bool, w: Where, x: Where, y: Where)
    requires Ends(v, deref, w, x) && Ends(v, deref, w, y)
    ensures x == y
  {
    var m: nat :| After(v, deref, w, m) == x;
    var n: nat :| After(v, deref, w, n) == y;
    if m <= n {
      AfterAfter(v, deref, w, m, n - m);
      EndStays(v, deref, x, n - m);
    } else {
      AfterAfter(v, deref, w, n, m - n);
      EndStays(v, deref, y, m - n);
    }
  }

  /** A walk ends as it does from any point on its way. */
  lemma EndsFrom(v: Volume, deref: bool, w: Where, m: nat)
    ensures SameEnds(v, deref, w, After(v, deref, w, m))
  {
    hide Ends, After;
    forall x | Ends(v, deref, w, x) ensures Ends(v, deref, After(v, deref, w, m), x) { EndsLater(v, deref, w, m, x); }
    forall x | Ends(v, deref, After(v, deref, w, m), x) ensures Ends(v, deref, w, x) { EndsEarlier(v, deref, w, m, x); }
  }

  lemma EndsLater(v: Volume, deref: bool, w: Where, m: nat, x: Where)
    requires Ends(v, deref, w, x)
    ensures Ends(v, deref, After(v, deref, w, m), x)
  {
    hide Step, Follows;
    var n: nat :| After(v, deref, w, n) == x;
    if m <= n {
      AfterAfter(v, deref, w, m, n - m);
      assert After(v, deref, After(v, deref, w, m), n - m) == x;
    } else {
      AfterAfter(v, deref, w, n, m - n);
      EndStays(v, deref, x, m - n);
      assert After(v, deref, x, 0) == x;
    }
  }

  lemma EndsEarlier(v: Volume, deref: bool, w: Where, m: nat, x: Where)
    requires Ends(v, deref, After(v, deref, w, m), x)
    ensures Ends(v, deref, w, x)
  {
    hide Step, Follows;
    var n: nat :| After(v, deref, After(v, deref, w, m), n) == x;
    AfterAfter(v, deref, w, m, n);
    assert After(v, deref, w, m + n) == x;
  }

  lemma LeadsSame(v: Volume, deref: bool, w: Where, u: Where, k: nat)
    requires Leads(v, deref, w, u, k)
    ensures SameEnds(v, deref, w, u)
  {
    var n: nat :| After(v, deref, w, n) == u && Links(v, deref, w, n) == k;
    EndsFrom(v, deref, w, n);
  }

  // ---- more components behind a walk ----

  /** Where a walk stands with more plain components behind it. */
  function Onward(v: Volume, w: Where, rest: Path): Where {
    match w
    case Walking(dir, r) => Walking(dir, r + rest)
    case Reached(p) =>
      if rest == [] then w
      else if p in v.tree && v.tree[p].Dir? then Walking(p, rest) else Blocked
    case Absent(dir, r) => Absent(dir, r + rest)
    case _ => w
  }

  predicate Grounded(v: Volume, w: Where) {
    match w
    case Walking(dir, _) => dir in v.tree && v.tree[dir].Dir?
    case Reached(p) => p in v.tree
    case _ => true
  }

  lemma StepIsGrounded(v: Volume, deref: bool, w: Where)
    requires WellFormed(v) && Grounded(v, w)
    ensures Grounded(v, Step(v, deref, w))
  {}

  lemma {:induction false} AfterIsGrounded(v: Volume, deref: bool, w: Where, n: nat)
    requires WellFormed(v) && Grounded(v, w)
    ensures Grounded(v, After(v, deref, w, n))
    decreases n
  {
    hide WellFormed, Grounded, Step;
    if n > 0 {
      StepIsGrounded(v, deref, w);
      AfterIsGrounded(v, deref, Step(v, deref, w), n - 1);
    }
  }

  lemma {:induction false} SolidOnward(r: Path, rest: Path)
    requires AllPlain(rest)
    ensures Solid(r + rest) == Solid(r) + rest
    decreases |r|
  {
    if r == [] {
      assert r + rest == rest;
      SolidPlain(rest);
    } else {
      assert (r + rest)[1..] == r[1..] + rest && (r + rest)[0] == r[0];
      SolidOnward(r[1..], rest);
      if r[0] != "" && r[0] != "." { assert [r[0]] + (Solid(r[1..]) + rest) == ([r[0]] + Solid(r[1..])) + rest; }
    }
  }

  lemma {:induction false} SolidPlain(rest: Path)
    requires AllPlain(rest)
    ensures Solid(rest) == rest
  {
    if rest != [] { SolidPlain(rest[1..]); }
  }

  /** A step with more components behind is the step, with them behind. */
  lemma StepOnward(v: Volume, deref: bool, w: Where, rest: Path)
    requires WellFormed(v) && Grounded(v, w) && AllPlain(rest) && (deref || rest != []) && w.Walking? && w.rest != []
    ensures Step(v, deref, Onward(v, w, rest)) == Onward(v, Step(v, true, w), rest)
  {
    hide WellFormed;
    var c, r := w.rest[0], w.rest[1..];
    assert (w.rest + rest)[0] == c && (w.rest + rest)[1..] == r + rest;
    SolidOnward(w.rest, rest);
    if Plain(c) && w.dir + [c] in v.tree && v.tree[w.dir + [c]].Link? {
      var link := v.tree[w.dir + [c]];
      FollowedOnward(v, w.dir, link, r, rest);
    }
  }

  lemma FollowedOnward(v: Volume, dir: Path, link: Node, r: Path, rest: Path)
    requires link.Link?
    ensures Onward(v, Followed(v, dir, link, r), rest) == Followed(v, dir, link, r + rest)
  {
    assert link.target + (r + rest) == link.target + r + rest;
    if link.absolute && Enter(v.root, [], link.target).Some? {
      var t := Enter(v.root, [], link.target).value;
      assert t + (r + rest) == t + r + rest;
    }
  }

  /** As long as the walk goes on, so does the one with more behind. */
  lemma {:induction false} WalksOnward(v: Volume, deref: bool, w: Where, rest: Path, n: nat)
    requires WellFormed(v) && Grounded(v, w) && AllPlain(rest) && (deref || rest != [])
    requires After(v, true, w, n).Walking?
    ensures After(v, deref, Onward(v, w, rest), n) == Onward(v, After(v, true, w, n), rest)
    decreases n
  {
    hide WellFormed, Onward, Step, Grounded;
    if n > 0 {
      StillWalking(v, w, n);
      StepOnward(v, deref, w, rest);
      StepIsGrounded(v, true, w);
      WalksOnward(v, deref, Step(v, true, w), rest, n - 1);
    }
  }

  lemma StillWalking(v: Volume, w: Where, n: nat)
    requires n > 0 && After(v, true, w, n).Walking?
    ensures w.Walking? && w.rest != []
  {
    if !w.Walking? {
      EndStays(v, true, w, n);
    } else if w.rest == [] {
      EndStays(v, true, Step(v, true, w), n - 1);
    }
  }

  /** When the walk ends, the one with more behind comes to the same place. */
  lemma {:induction false} EndsOnward(v: Volume, deref: bool, w: Where, rest: Path, n: nat)
    requires WellFormed(v) && Grounded(v, w) && AllPlain(rest) && (deref || rest != [])
    requires !After(v, true, w, n).Walking?
    ensures exists m: nat :: After(v, deref, Onward(v, w, rest), m) == Onward(v, After(v, true, w, n), rest)
    decreases n
  {
    hide WellFormed, Onward, Step, Grounded;
    var u := Onward(v, w, rest);
    if n == 0 || !w.Walking? {
      if !w.Walking? { EndStays(v, true, w, n); }
      assert After(v, deref, u, 0) == u;
    } else if w.rest == [] {
      DirectoryOnward(v, deref, w, rest);
      EndStays(v, true, Step(v, true, w), n - 1);
      assert After(v, deref, u, 0) == u && After(v, deref, u, 1) == Step(v, deref, u) by { OneStep(v, deref, u); }
    } else {
      StepOnward(v, deref, w, rest);
      StepIsGrounded(v, true, w);
      EndsOnward(v, deref, Step(v, true, w), rest, n - 1);
      var m: nat :| After(v, deref, Step(v, deref, u), m) == Onward(v, After(v, true, w, n), rest);
      assert After(v, deref, u, m + 1) == After(v, deref, Step(v, deref, u), m);
    }
  }

  lemma OneStep(v: Volume, deref: bool, u: Where)
    ensures After(v, deref, u, 0) == u && After(v, deref, u, 1) == Step(v, deref, u)
  {
    hide Step;
    assert After(v, deref, Step(v, deref, u), 0) == Step(v, deref, u);
  }

  lemma DirectoryOnward(v: Volume, deref: bool, w: Where, rest: Path)
    requires w.Walking? && w.rest == [] && Grounded(v, w)
    ensures !Step(v, true, w).Walking?
    ensures var u, x := Onward(v, w, rest), Onward(v, Step(v, true, w), rest);
      x == if rest == [] then Step(v, deref, u) else u
  {
    assert [] + rest == rest;
  }

  /** Walks that end alike still do with the same components behind them. */
  lemma SameOnward(v: Volume, deref: bool, w: Where, u: Where, rest: Path)
    requires WellFormed(v) && Grounded(v, w) && Grounded(v, u) && AllPlain(rest) && (deref || rest != [])
    requires SameEnds(v, true, w, u)
    ensures SameEnds(v, deref, Onward(v, w, rest), Onward(v, u, rest))
  {
    hide WellFormed, Grounded, Onward, SameEnds, Ends;
    forall x ensures Ends(v, deref, Onward(v, w, rest), x) <==> Ends(v, deref, Onward(v, u, rest), x) {
      if Ends(v, deref, Onward(v, w, rest), x) { EndsThere(v, deref, w, u, rest, x); }
      if Ends(v, deref, Onward(v, u, rest), x) { SameIsMutual(v, w, u); EndsThere(v, deref, u, w, rest, x); }
    }
    SameFrom(v, deref, Onward(v, w, rest), Onward(v, u, rest));
  }

  lemma SameFrom(v: Volume, deref: bool, w: Where, u: Where)
    requires forall x :: Ends(v, deref, w, x) <==> Ends(v, deref, u, x)
    ensures SameEnds(v, deref, w, u)
  {}

  lemma SameIsMutual(v: Volume, w: Where, u: Where)
    requires SameEnds(v, true, w, u)
    ensures SameEnds(v, true, u, w)
  {}

  lemma EndsThere(v: Volume, deref: bool, w: Where, u: Where, rest: Path, x: Where)
    requires WellFormed(v) && Grounded(v, w) && Grounded(v, u) && AllPlain(rest) && (deref || rest != [])
    requires SameEnds(v, true, w, u) && Ends(v, deref, Onward(v, w, rest), x)
    ensures Ends(v, deref, Onward(v, u, rest), x)
  {
    hide WellFormed, Grounded, Onward;
    var n := HasEnded(v, deref, w, rest, x);
    var y := After(v, true, w, n);
    assert Ends(v, true, w, y);
    assert Ends(v, true, u, y);
    var m: nat :| After(v, true, u, m) == y;
    EndsOnward(v, deref, w, rest, n);
    EndsOnward(v, deref, u, rest, m);
    var k: nat :| After(v, deref, Onward(v, w, rest), k) == Onward(v, y, rest);
    var l: nat :| After(v, deref, Onward(v, u, rest), l) == Onward(v, y, rest);
    EndsFrom(v, deref, Onward(v, w, rest), k);
    EndsFrom(v, deref, Onward(v, u, rest), l);
  }

  /** A walk that never ends does not with more behind it. */
  lemma HasEnded(v: Volume, deref: bool, w: Where, rest: Path, x: Where) returns (n: nat)
    requires WellFormed(v) && Grounded(v, w) && AllPlain(rest) && (deref || rest != [])
    requires Ends(v, deref, Onward(v, w, rest), x)
    ensures !After(v, true, w, n).Walking?
  {
    hide WellFormed, Grounded;
    n :| After(v, deref, Onward(v, w, rest), n) == x;
    if After(v, true, w, n).Walking? { WalksOnward(v, deref, w, rest, n); }
  }

  // ---- a link against its letters ----

  lemma {:induction false} CleanOntoIsPlain(base: Path, raw: Path)
    requires AllPlain(base) && CleanOnto(base, raw).Some?
    ensures AllPlain(CleanOnto(base, raw).value)
    decreases |raw|
  {
    if raw != [] {
      if raw[0] == "" || raw[0] == "." {
        CleanOntoIsPlain(base, raw[1..]);
      } else if raw[0] == ".." {
        CleanOntoIsPlain(base[..|base| - 1], raw[1..]);
      } else {
        CleanOntoIsPlain(base + [raw[0]], raw[1..]);
      }
    }
  }

  lemma LettersArePlain(v: Volume, dir: Path, link: Node)
    requires AllPlain(dir) && link.Link? && Lexical(v, dir, link).Some?
    ensures AllPlain(Lexical(v, dir, link).value)
  {
    if link.absolute { RelativeIsPlain(v.root, link.target); } else { CleanOntoIsPlain(dir, link.target); }
  }

  /** The walk of a name comes to its first link, and through it. */
  lemma ComesToLink(v: Volume, name: Path, deref: bool, k: nat)
    requires AllPlain(name) && AtLink(v, name, deref, k)
    ensures SameEnds(v, deref, Walking([], name), Followed(v, name[..k], v.tree[name[..k + 1]], name[k + 1..]))
  {
    hide Leads, SameEnds;
    var w := Walking(name[..k], name[k..]);
    WalksDown(v, deref, name, k);
    assert name[..k] + [name[k]] == name[..k + 1] && name[k..][1..] == name[k + 1..];
    LeadsByOne(v, deref, w);
    LeadsOn(v, deref, Walking([], name), w, Step(v, deref, w), 0, 1);
    LeadsSame(v, deref, Walking([], name), Step(v, deref, w), 1);
  }

  lemma FollowedIsGrounded(v: Volume, dir: Path, link: Node, rest: Path)
    requires WellFormed(v) && link.Link? && dir in v.tree && v.tree[dir].Dir?
    ensures Grounded(v, Followed(v, dir, link, rest))
  {}

  /** Through a faithful link a name means what the name with the link's letters
      means. */
  lemma LettersMeanTheSame(v: Volume, name: Path, deref: bool, k: nat)
    requires WellFormed(v) && AllPlain(name) && AtLink(v, name, deref, k) && Faithful(v, name[..k + 1])
    ensures var target := Lexical(v, name[..k], v.tree[name[..k + 1]]);
      if target.None? then Ends(v, deref, Walking([], name), Escaped)
      else
        && AllPlain(target.value + name[k + 1..])
        && SameEnds(v, deref, Walking([], name), Walking([], target.value + name[k + 1..]))
  {
    hide WellFormed, Ends, Lexical;
    var dir, link, rest := name[..k], v.tree[name[..k + 1]], name[k + 1..];
    assert name[..k + 1][..k] == dir;
    assert dir in v.tree && v.tree[dir].Dir?;
    ComesToLink(v, name, deref, k);
    FollowedOnward(v, dir, link, [], rest);
    assert [] + rest == rest;
    FollowedIsGrounded(v, dir, link, []);
    var target := Lexical(v, dir, link);
    if target.None? {
      EscapesOnward(v, deref, Followed(v, dir, link, []), rest);
    } else {
      LettersArePlain(v, dir, link);
      assert Grounded(v, Walking([], target.value)) by { RootIsReal(v, name); assert name[..0] == []; }
      SameOnward(v, deref, Followed(v, dir, link, []), Walking([], target.value), rest);
    }
  }

  lemma EscapesOnward(v: Volume, deref: bool, w: Where, rest: Path)
    requires WellFormed(v) && Grounded(v, w) && AllPlain(rest) && (deref || rest != []) && Ends(v, true, w, Escaped)
    ensures Ends(v, deref, Onward(v, w, rest), Escaped)
  {
    hide WellFormed, Grounded;
    var n: nat :| After(v, true, w, n) == Escaped;
    EndsOnward(v, deref, w, rest, n);
  }

  // ---- passes ----

  /** What a scan replaces, it replaces with more behind it. */
  lemma {:induction false} ScanOnward(v: Volume, name: Path, rest: Path, deref: bool, i: nat)
    requires i <= |name| && (deref || rest != []) && Scan(v, name, true, i).Replaced?
    ensures Scan(v, name + rest, deref, i) == Replaced(Scan(v, name, true, i).name + rest)
    decreases |name| - i
  {
    hide Lexical;
    var all, probe := name + rest, name[..i + 1];
    assert all[..i + 1] == probe && all[..i] == name[..i];
    if v.tree[probe].Link? {
      var target := Lexical(v, name[..i], v.tree[probe]).value;
      assert all[i + 1..] == name[i + 1..] + rest;
      assert target + (name[i + 1..] + rest) == target + name[i + 1..] + rest;
    } else {
      ScanOnward(v, name, rest, deref, i + 1);
    }
  }

  /** A name with too many links has too many with more behind it. */
  lemma {:induction false} TooManyOnward(v: Volume, name: Path, rest: Path, deref: bool, n: nat)
    requires (deref || rest != []) && Passes(v, name, true, n) == TooMany
    ensures Passes(v, name + rest, deref, n) == TooMany
    decreases n
  {
    hide Scan;
    if n > 0 {
      var found := Scan(v, name, true, 0);
      assert found.Replaced? by { RefusesTruly(v, name, 0); }
      ScanOnward(v, name, rest, deref, 0);
      TooManyOnward(v, found.name, rest, deref, n - 1);
    }
  }

  lemma {:induction false} RefusesTruly(v: Volume, name: Path, i: nat)
    requires i <= |name|
    ensures Scan(v, name, true, i) != Refused(TooMany)
    decreases |name| - i
  {
    hide Lexical;
    if i < |name| && name[..i + 1] in v.tree && !v.tree[name[..i + 1]].Link? { RefusesTruly(v, name, i + 1); }
  }

  /** More passes do not change an answer. */
  lemma {:induction false} MorePasses(v: Volume, name: Path, deref: bool, m: nat, n: nat)
    requires m <= n && Passes(v, name, deref, m) != TooMany
    ensures Passes(v, name, deref, n) == Passes(v, name, deref, m)
    decreases m
  {
    hide Scan;
    if m > 0 && Scan(v, name, deref, 0).Replaced? {
      MorePasses(v, Scan(v, name, deref, 0).name, deref, m - 1, n - 1);
    }
  }

  /** The scan of a link's own path finds it. */
  lemma {:induction false} ScanOfLink(v: Volume, p: Path, i: nat)
    requires i < |p| && Real(v, p, |p| - 1) && p in v.tree && v.tree[p].Link?
    ensures Scan(v, p, true, i) ==
      match Lexical(v, p[..|p| - 1], v.tree[p])
      case None => Refused(Escapes)
      case Some(letters) => Replaced(letters)
    decreases |p| - i
  {
    hide Lexical;
    if i < |p| - 1 {
      assert p[..i + 1] in v.tree;
      ScanOfLink(v, p, i + 1);
    } else {
      assert p[..|p|] == p && p[|p|..] == [];
      if Lexical(v, p[..|p| - 1], v.tree[p]).Some? {
        var letters := Lexical(v, p[..|p| - 1], v.tree[p]).value;
        assert letters + [] == letters;
      }
    }
  }

  lemma LinkIsAtLink(v: Volume, p: Path)
    requires WellFormed(v) && p in v.tree && v.tree[p].Link?
    ensures p != [] && AllPlain(p) && AtLink(v, p, true, |p| - 1) && Real(v, p, |p| - 1)
  {
    var dir := p[..|p| - 1];
    AncestorsAreReal(v, dir);
    forall k | 0 <= k <= |p| - 1 ensures p[..k] in v.tree && v.tree[p[..k]].Dir? {
      assert p[..k] == dir[..k];
    }
    assert p[..|p|] == p;
  }

  /** The links that can be answered at all. */
  ghost predicate FaithfulLinks(v: Volume)
    requires WellFormed(v)
  {
    forall p | p in v.tree && v.tree[p].Link? && Passes(v, p, true, PASSES) != TooMany :: Faithful(v, p)
  }

  /** A name that is answered has a first link that is answered. */
  lemma FirstLinkAnswered(v: Volume, name: Path, deref: bool, k: nat, n: nat)
    requires WellFormed(v) && AllPlain(name) && AtLink(v, name, deref, k) && 0 < n <= PASSES
    requires Scan(v, name, deref, 0) == Scan(v, name, deref, k) && Passes(v, name, deref, n) != TooMany
    ensures Passes(v, name[..k + 1], true, PASSES) != TooMany
  {
    hide WellFormed, Lexical;
    var p, rest := name[..k + 1], name[k + 1..];
    assert p[..|p| - 1] == name[..k];
    forall j | 0 <= j <= |p| - 1 ensures p[..j] in v.tree && v.tree[p[..j]].Dir? { assert p[..j] == name[..j]; }
    ScanOfLink(v, p, 0);
    match Lexical(v, name[..k], v.tree[p])
    case None =>
    case Some(letters) =>
      assert Scan(v, name, deref, 0) == Replaced(letters + rest);
      assert Scan(v, p, true, 0) == Replaced(letters);
      if Passes(v, letters, true, n - 1) == TooMany { TooManyOnward(v, letters, rest, deref, n - 1); }
      MorePasses(v, letters, true, n - 1, PASSES - 1);
  }

  lemma RightOnward(v: Volume, name: Path, next: Path, deref: bool, r: Result)
    requires SameEnds(v, deref, Walking([], name), Walking([], next)) && Right(v, next, deref, r)
    ensures Right(v, name, deref, r)
  {
    hide Ends, Normal, AllPlain;
  }

  lemma {:induction false} AnswersRight(v: Volume, name: Path, deref: bool, n: nat)
    requires WellFormed(v) && FaithfulLinks(v) && AllPlain(name) && n <= PASSES
    ensures Right(v, name, deref, Passes(v, name, deref, n))
    decreases n
  {
    hide WellFormed, Scan, Leads, Ends, Normal, SameEnds, Faithful;
    if n > 0 && Passes(v, name, deref, n) != TooMany {
      var start, found := Walking([], name), Scan(v, name, deref, 0);
      RootIsReal(v, name);
      ScanFinds(v, name, deref, 0);
      if k: nat :| AtLink(v, name, deref, k) && found == Scan(v, name, deref, k) {
        FirstLinkAnswered(v, name, deref, k, n);
        LettersMeanTheSame(v, name, deref, k);
        ScanAtLink(v, name, deref, k);
        match found
        case Refused(error) =>
        case Replaced(next) =>
          AnswersRight(v, next, deref, n - 1);
          RightOnward(v, name, next, deref, Passes(v, next, deref, n - 1));
      } else if found.Clear? {
        var x: Where :| !x.Walking? && Leads(v, deref, start, x, 0);
        LeadsEnds(v, deref, start, x, 0);
        ScannedIsNormal(v, name, deref);
      } else {
        LeadsEnds(v, deref, start, Blocked, 0);
      }
    }
  }

  lemma ScanAtLink(v: Volume, name: Path, deref: bool, k: nat)
    requires AtLink(v, name, deref, k)
    ensures Scan(v, name, deref, k) ==
      match Lexical(v, name[..k], v.tree[name[..k + 1]])
      case None => Refused(Escapes)
      case Some(letters) => Replaced(letters + name[k + 1..])
  {
    hide Lexical;
  }

  /** Answers about a link and about its letters that are both right say that the
      link is faithful. */
  lemma RightMeansFaithful(v: Volume, p: Path)
    requires WellFormed(v) && p in v.tree && v.tree[p].Link? && Passes(v, p, true, PASSES) != TooMany
    requires forall name | AllPlain(name) :: Right(v, name, true, Passes(v, name, true, PASSES))
    ensures Faithful(v, p)
  {
    hide WellFormed, Lexical, Scan, Ends, SameEnds, Right;
    LinkIsAtLink(v, p);
    var dir, link := p[..|p| - 1], v.tree[p];
    assert p[..|p|] == p && p[|p|..] == [];
    ComesToLink(v, p, true, |p| - 1);
    ScanOfLink(v, p, 0);
    assert Right(v, p, true, Passes(v, p, true, PASSES));
    match Lexical(v, dir, link)
    case None => EscapedToo(v, p, Followed(v, dir, link, []));
    case Some(letters) =>
      assert AllPlain(dir);
      LettersArePlain(v, dir, link);
      MorePasses(v, letters, true, PASSES - 1, PASSES);
      assert Right(v, letters, true, Passes(v, letters, true, PASSES));
      SameAnswer(v, p, letters, Passes(v, p, true, PASSES));
      SameThrough(v, Walking([], p), Followed(v, dir, link, []), Walking([], letters));
  }

  lemma EscapedToo(v: Volume, p: Path, w: Where)
    requires Right(v, p, true, Escapes) && SameEnds(v, true, Walking([], p), w)
    ensures Ends(v, true, w, Escaped)
  {
    hide Ends;
  }

  lemma SameThrough(v: Volume, a: Where, b: Where, c: Where)
    requires SameEnds(v, true, a, b) && SameEnds(v, true, a, c)
    ensures SameEnds(v, true, b, c)
  {
    hide Ends;
  }

  /** Names rightly given the same answer end alike. */
  lemma SameAnswer(v: Volume, a: Path, b: Path, r: Result)
    requires Right(v, a, true, r) && Right(v, b, true, r) && r != TooMany
    ensures SameEnds(v, true, Walking([], a), Walking([], b))
  {
    hide Ends, Normal, AllPlain;
    var x := CommonEnd(v, a, b, r);
    forall y ensures Ends(v, true, Walking([], a), y) <==> Ends(v, true, Walking([], b), y) {
      if Ends(v, true, Walking([], a), y) { OneEnd(v, true, Walking([], a), x, y); }
      if Ends(v, true, Walking([], b), y) { OneEnd(v, true, Walking([], b), x, y); }
    }
  }

  lemma CommonEnd(v: Volume, a: Path, b: Path, r: Result) returns (x: Where)
    requires Right(v, a, true, r) && Right(v, b, true, r) && r != TooMany
    ensures Ends(v, true, Walking([], a), x) && Ends(v, true, Walking([], b), x)
  {
    hide Ends, Normal, AllPlain;
    match r
    case Escapes => x := Escaped;
    case NotADirectory => x := Blocked;
    case Ok(same) =>
      x :| Ends(v, true, Walking([], a), x) && Ends(v, true, Walking([], same), x);
      var y :| Ends(v, true, Walking([], b), y) && Ends(v, true, Walking([], same), y);
      OneEnd(v, true, Walking([], same), x, y);
  }

  ghost predicate AllRight(v: Volume) {
    forall name, deref | AllPlain(name) :: Right(v, name, deref, Passes(v, name, deref, PASSES))
  }

  /** Resolve answers every name rightly exactly when every link that it can
      answer leads where its letters lead. */
  lemma RightExactlyWhenFaithful(v: Volume)
    requires WellFormed(v)
    ensures AllRight(v) <==> FaithfulLinks(v)
  {
    if FaithfulLinks(v) {
      FaithfulIsRight(v);
    }
    if AllRight(v) {
      RightIsFaithful(v);
    }
  }

  lemma FaithfulIsRight(v: Volume)
    requires WellFormed(v) && FaithfulLinks(v)
    ensures AllRight(v)
  {
    hide Right, Passes, Faithful, AllPlain, WellFormed, FaithfulLinks;
    forall name, deref | AllPlain(name) ensures Right(v, name, deref, Passes(v, name, deref, PASSES)) {
      AnswersRight(v, name, deref, PASSES);
    }
  }

  lemma RightIsFaithful(v: Volume)
    requires WellFormed(v) && AllRight(v)
    ensures FaithfulLinks(v)
  {
    hide Right, Passes, Faithful, AllPlain;
    forall p | p in v.tree && v.tree[p].Link? && Passes(v, p, true, PASSES) != TooMany ensures Faithful(v, p) {
      RightMeansFaithful(v, p);
    }
  }

  /** Links of leading dot-dots and then plain names are faithful. */
  lemma TameIsFaithful(v: Volume)
    requires WellFormed(v) && Tame(v)
    ensures FaithfulLinks(v)
  {
    hide Leads, SameEnds, Ends;
    forall p | p in v.tree && v.tree[p].Link? && Passes(v, p, true, PASSES) != TooMany ensures Faithful(v, p) {
      LinkIsAtLink(v, p);
      var dir, link := p[..|p| - 1], v.tree[p];
      var meet := LinkMeetsLetters(v, true, dir, link, []);
      var w := Followed(v, dir, link, []);
      if Lexical(v, dir, link).None? {
        LeadsEnds(v, true, w, Escaped, 0);
      } else {
        var letters := Lexical(v, dir, link).value;
        assert letters + [] == letters;
        LeadsSame(v, true, w, meet, 0);
        LeadsSame(v, true, Walking([], letters), meet, 0);
        SameAtMeeting(v, w, meet, Walking([], letters));
      }
    }
  }

  lemma SameAtMeeting(v: Volume, a: Where, b: Where, c: Where)
    requires SameEnds(v, true, a, b) && SameEnds(v, true, c, b)
    ensures SameEnds(v, true, a, c)
  {
    hide Ends;
  }
}
