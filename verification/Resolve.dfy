/** Symlink normalisation of the file helper (internal/fileops/resolve.go),
    against what a path means to the kernel: component by component, through
    links, from the root of the volume. */
module Resolve {
  import opened Text

  type Path = seq<string>

  /** A link's target is the text between slashes, as the link holds it. */
  datatype Node = Dir | File | Link(absolute: bool, target: Path)

  /** A volume: where it is mounted, and its entries by their real paths. */
  datatype Volume = Volume(root: Path, tree: map<Path, Node>)

  predicate Plain(c: string) { c != "" && c != "." && c != ".." }

  predicate AllPlain(p: Path) { forall i | 0 <= i < |p| :: Plain(p[i]) }

  predicate WellFormed(v: Volume) {
    && AllPlain(v.root)
    && [] in v.tree && v.tree[[]].Dir?
    && (forall p | p in v.tree :: AllPlain(p))
    && forall p | p in v.tree && p != [] :: p[..|p| - 1] in v.tree && v.tree[p[..|p| - 1]].Dir?
  }

  // ---- paths as filepath.Clean, Rel and Join see them ----

  /** A path joined to a directory and cleaned, letter by letter; None when it
      climbs out of the volume. */
  function CleanOnto(base: Path, raw: Path): Option<Path>
    decreases |raw|
  {
    if raw == [] then Some(base)
    else if raw[0] == "" || raw[0] == "." then CleanOnto(base, raw[1..])
    else if raw[0] == ".." then if base == [] then None else CleanOnto(base[..|base| - 1], raw[1..])
    else CleanOnto(base + [raw[0]], raw[1..])
  }

  /** An absolute path cleaned: there is nothing above the top. */
  function CleanAbsolute(base: Path, raw: Path): Path
    decreases |raw|
  {
    if raw == [] then base
    else if raw[0] == "" || raw[0] == "." then CleanAbsolute(base, raw[1..])
    else if raw[0] == ".." then CleanAbsolute(if base == [] then [] else base[..|base| - 1], raw[1..])
    else CleanAbsolute(base + [raw[0]], raw[1..])
  }

  /** filepath.Rel against the root, when what it gives is local. */
  function Relative(root: Path, raw: Path): Option<Path> {
    var p := CleanAbsolute([], raw);
    if root <= p then Some(p[|root|..]) else None
  }

  lemma {:induction false} CleanIsPlain(base: Path, raw: Path)
    requires AllPlain(base)
    ensures AllPlain(CleanAbsolute(base, raw))
    decreases |raw|
  {
    if raw != [] {
      if raw[0] == "" || raw[0] == "." {
        CleanIsPlain(base, raw[1..]);
      } else if raw[0] == ".." {
        CleanIsPlain(if base == [] then [] else base[..|base| - 1], raw[1..]);
      } else {
        CleanIsPlain(base + [raw[0]], raw[1..]);
      }
    }
  }

  /** The names the helper hands to Resolve are clean and relative. */
  lemma RelativeIsPlain(root: Path, raw: Path)
    requires Relative(root, raw).Some?
    ensures AllPlain(Relative(root, raw).value)
  {
    CleanIsPlain([], raw);
  }

  // ---- Resolve ----

  datatype Result = Ok(name: Path) | Escapes | NotADirectory | TooMany

  const PASSES := 40

  /** Where a link found in dir leads, by its letters. */
  function Lexical(v: Volume, dir: Path, link: Node): Option<Path>
    requires link.Link?
  {
    if link.absolute then Relative(v.root, link.target) else CleanOnto(dir, link.target)
  }

  datatype Found = Clear | Replaced(name: Path) | Refused(error: Result)

  /** The scan of a name from its i-th component on, those before it being no
      links. */
  function Scan(v: Volume, name: Path, deref: bool, i: nat): Found
    requires i <= |name|
    decreases |name| - i
  {
    if i == |name| || (!deref && i == |name| - 1) then Clear
    else
      var probe := name[..i + 1];
      if probe !in v.tree then
        if name[..i] in v.tree && v.tree[name[..i]].File? then Refused(NotADirectory) else Clear
      else if !v.tree[probe].Link? then Scan(v, name, deref, i + 1)
      else
        match Lexical(v, name[..i], v.tree[probe])
        case None => Refused(Escapes)
        case Some(target) => Replaced(target + name[i + 1..])
  }

  function Passes(v: Volume, name: Path, deref: bool, passes: nat): Result
    decreases passes
  {
    if passes == 0 then TooMany
    else
      match Scan(v, name, deref, 0)
      case Clear => Ok(name)
      case Refused(error) => error
      case Replaced(next) => Passes(v, next, deref, passes - 1)
  }

  method ResolveName(v: Volume, start: Path, deref: bool) returns (r: Result)
    ensures r == Passes(v, start, deref, PASSES)
  {
    var name := start;
    for pass := 0 to PASSES
      invariant Passes(v, name, deref, PASSES - pass) == Passes(v, start, deref, PASSES)
    {
      var parts := name;
      var replaced := false;
      for i := 0 to |parts|
        invariant !replaced && name == parts
        invariant Scan(v, parts, deref, i) == Scan(v, parts, deref, 0)
      {
        if !deref && i == |parts| - 1 {
          break;
        }
        var probe := parts[..i + 1];
        if probe !in v.tree {
          if parts[..i] in v.tree && v.tree[parts[..i]].File? {
            return NotADirectory;
          }
          return Ok(name);
        }
        if !v.tree[probe].Link? {
          continue;
        }
        var target := Lexical(v, parts[..i], v.tree[probe]);
        if target.None? {
          return Escapes;
        }
        name := target.value + parts[i + 1..];
        replaced := true;
        break;
      }
      if !replaced {
        return Ok(name);
      }
    }
    return TooMany;
  }

  // ---- what a path means ----

  /** A walk stands in a real directory with components to go, or has ended. */
  datatype Where =
    | Walking(dir: Path, rest: Path)
    | Reached(at: Path)
    | Absent(dir: Path, rest: Path)
    | Blocked
    | Escaped

  /** An absolute target read from the top of the host to the volume's mount, of
      whose surroundings only the way there is known: what is left of it to walk
      in the volume, if it comes there. */
  function Enter(root: Path, at: Path, raw: Path): Option<Path>
    requires at <= root
    decreases |raw|
  {
    if at == root && (raw == [] || Plain(raw[0])) then Some(raw)
    else if raw == [] then None
    else if raw[0] == "" || raw[0] == "." then Enter(root, at, raw[1..])
    else if raw[0] == ".." then Enter(root, if at == [] then [] else at[..|at| - 1], raw[1..])
    else if |at| < |root| && raw[0] == root[|at|] then Enter(root, at + [raw[0]], raw[1..])
    else None
  }

  /** A link's target taken from where the link is, an absolute one from the
      mount of the volume. A walk that leaves the volume has escaped. */
  function Followed(v: Volume, dir: Path, link: Node, rest: Path): Where
    requires link.Link?
  {
    if !link.absolute then Walking(dir, link.target + rest)
    else
      match Enter(v.root, [], link.target)
      case None => Escaped
      case Some(target) => Walking([], target + rest)
  }

  /** The components that name something. */
  function Solid(rest: Path): Path {
    if rest == [] then []
    else if rest[0] == "" || rest[0] == "." then Solid(rest[1..])
    else [rest[0]] + Solid(rest[1..])
  }

  /** Whether the next step goes through a link. */
  predicate Follows(v: Volume, deref: bool, w: Where) {
    && w.Walking? && w.rest != [] && Plain(w.rest[0])
    && w.dir + [w.rest[0]] in v.tree && v.tree[w.dir + [w.rest[0]]].Link?
    && (deref || |w.rest| > 1)
  }

  function Step(v: Volume, deref: bool, w: Where): Where {
    if !w.Walking? then w
    else if w.rest == [] then Reached(w.dir)
    else
      var c, rest := w.rest[0], w.rest[1..];
      if c == "" || c == "." then Walking(w.dir, rest)
      else if c == ".." then if w.dir == [] then Escaped else Walking(w.dir[..|w.dir| - 1], rest)
      else
        var p := w.dir + [c];
        if p !in v.tree then Absent(w.dir, Solid(w.rest))
        else
          match v.tree[p]
          case File => if rest == [] then Reached(p) else Blocked
          case Dir => Walking(p, rest)
          case Link(_, _) => if Follows(v, deref, w) then Followed(v, w.dir, v.tree[p], rest) else Reached(p)
  }

  /** Where a walk is after n steps. */
  function After(v: Volume, deref: bool, w: Where, n: nat): Where
    decreases n
  {
    if n == 0 then w else After(v, deref, Step(v, deref, w), n - 1)
  }

  /** How many links it went through in them. */
  function Links(v: Volume, deref: bool, w: Where, n: nat): nat
    decreases n
  {
    if n == 0 then 0 else (if Follows(v, deref, w) then 1 else 0) + Links(v, deref, Step(v, deref, w), n - 1)
  }

  /** The walk from w is at x after going through so many links. */
  ghost predicate Leads(v: Volume, deref: bool, w: Where, x: Where, links: nat) {
    exists n: nat :: After(v, deref, w, n) == x && Links(v, deref, w, n) == links
  }

  ghost predicate Denotes(v: Volume, deref: bool, name: Path, x: Where, links: nat) {
    !x.Walking? && Leads(v, deref, Walking([], name), x, links)
  }

  lemma {:induction false} AfterAfter(v: Volume, deref: bool, w: Where, m: nat, n: nat)
    ensures After(v, deref, w, m + n) == After(v, deref, After(v, deref, w, m), n)
    ensures Links(v, deref, w, m + n) == Links(v, deref, w, m) + Links(v, deref, After(v, deref, w, m), n)
    decreases m
  {
    if m > 0 { AfterAfter(v, deref, Step(v, deref, w), m - 1, n); }
  }

  lemma LeadsOn(v: Volume, deref: bool, w: Where, x: Where, y: Where, k: nat, l: nat)
    requires Leads(v, deref, w, x, k) && Leads(v, deref, x, y, l)
    ensures Leads(v, deref, w, y, k + l)
  {
    var m: nat :| After(v, deref, w, m) == x && Links(v, deref, w, m) == k;
    var n: nat :| After(v, deref, x, n) == y && Links(v, deref, x, n) == l;
    AfterAfter(v, deref, w, m, n);
    assert After(v, deref, w, m + n) == y;
  }

  lemma LeadsByOne(v: Volume, deref: bool, w: Where)
    ensures Leads(v, deref, w, Step(v, deref, w), if Follows(v, deref, w) then 1 else 0)
  {
    assert After(v, deref, w, 1) == Step(v, deref, w) && Links(v, deref, w, 1) == if Follows(v, deref, w) then 1 else 0 by {
      assert After(v, deref, Step(v, deref, w), 0) == Step(v, deref, w);
      assert Links(v, deref, Step(v, deref, w), 0) == 0;
    }
  }

  lemma LeadsToItself(v: Volume, deref: bool, w: Where)
    ensures Leads(v, deref, w, w, 0)
  {
    assert After(v, deref, w, 0) == w && Links(v, deref, w, 0) == 0;
  }

  lemma {:induction false} EndStays(v: Volume, deref: bool, x: Where, n: nat)
    requires !x.Walking?
    ensures After(v, deref, x, n) == x && Links(v, deref, x, n) == 0
  {
    if n > 0 { EndStays(v, deref, x, n - 1); }
  }

  /** A walk has one end at most, and a prefix of a walk went through fewer
      links. */
  lemma EndIsUnique(v: Volume, deref: bool, w: Where, x: Where, k: nat, y: Where, l: nat)
    requires Leads(v, deref, w, x, k) && !x.Walking? && Leads(v, deref, w, y, l)
    ensures l <= k
    ensures !y.Walking? ==> x == y && k == l
  {
    var m: nat :| After(v, deref, w, m) == x && Links(v, deref, w, m) == k;
    var n: nat :| After(v, deref, w, n) == y && Links(v, deref, w, n) == l;
    if m <= n {
      AfterAfter(v, deref, w, m, n - m);
      EndStays(v, deref, x, n - m);
    } else {
      AfterAfter(v, deref, w, n, m - n);
      if !y.Walking? { EndStays(v, deref, y, m - n); }
    }
  }

  // ---- the links a name's letters can be trusted with ----

  function Ups(n: nat): (p: Path)
    ensures |p| == n && forall i | 0 <= i < n :: p[i] == ".."
  {
    seq(n, i => "..")
  }

  /** A target of leading dot-dots, then plain names; an absolute one has none. */
  ghost predicate TamePath(absolute: bool, target: Path) {
    exists ups: nat :: ups <= |target| && (absolute ==> ups == 0) && target[..ups] == Ups(ups) && AllPlain(target[ups..])
  }

  ghost predicate Tame(v: Volume) {
    forall p | p in v.tree && v.tree[p].Link? :: TamePath(v.tree[p].absolute, v.tree[p].target)
  }

  /** Every component up to i is a real directory. */
  predicate Real(v: Volume, name: Path, i: nat)
    requires i <= |name|
  {
    forall k | 0 <= k <= i :: name[..k] in v.tree && v.tree[name[..k]].Dir?
  }

  lemma {:induction false} AncestorsAreReal(v: Volume, dir: Path)
    requires WellFormed(v) && dir in v.tree && v.tree[dir].Dir?
    ensures Real(v, dir, |dir|)
  {
    if dir == [] {
      assert dir[..0] == [];
    } else {
      var up := dir[..|dir| - 1];
      AncestorsAreReal(v, up);
      forall k | 0 <= k <= |dir| ensures dir[..k] in v.tree && v.tree[dir[..k]].Dir? {
        if k == |dir| { assert dir[..k] == dir; } else { assert dir[..k] == up[..k]; }
      }
    }
  }

  /** Through real directories a walk goes down without a link. */
  lemma {:induction false} WalksDown(v: Volume, deref: bool, name: Path, i: nat)
    requires i <= |name| && AllPlain(name) && Real(v, name, i)
    ensures Leads(v, deref, Walking([], name), Walking(name[..i], name[i..]), 0)
    decreases i
  {
    if i == 0 {
      assert name[..0] == [] && name[0..] == name;
      LeadsToItself(v, deref, Walking([], name));
    } else {
      var w := Walking(name[..i - 1], name[i - 1..]);
      WalksDown(v, deref, name, i - 1);
      assert name[..i - 1] + [name[i - 1]] == name[..i];
      assert name[i - 1..][1..] == name[i..];
      LeadsByOne(v, deref, w);
      LeadsOn(v, deref, Walking([], name), w, Walking(name[..i], name[i..]), 0, 0);
    }
  }

  /** Leading dot-dots take a walk up as they take a path's letters off, in a
      directory that is real. */
  lemma {:induction false} WalksUp(v: Volume, deref: bool, dir: Path, ups: nat, rest: Path)
    requires WellFormed(v) && dir in v.tree && v.tree[dir].Dir?
    ensures ups <= |dir| ==>
      Leads(v, deref, Walking(dir, Ups(ups) + rest), Walking(dir[..|dir| - ups], rest), 0)
    ensures ups <= |dir| ==> dir[..|dir| - ups] in v.tree && v.tree[dir[..|dir| - ups]].Dir?
    ensures ups > |dir| ==> Leads(v, deref, Walking(dir, Ups(ups) + rest), Escaped, 0)
    decreases ups
  {
    var w := Walking(dir, Ups(ups) + rest);
    if ups == 0 {
      assert Ups(0) + rest == rest && dir[..|dir|] == dir;
      LeadsToItself(v, deref, w);
    } else {
      assert (Ups(ups) + rest)[0] == "..";
      assert (Ups(ups) + rest)[1..] == Ups(ups - 1) + rest;
      LeadsByOne(v, deref, w);
      if dir != [] {
        var up := dir[..|dir| - 1];
        WalksUp(v, deref, up, ups - 1, rest);
        var next := Walking(up, Ups(ups - 1) + rest);
        if ups <= |dir| {
          assert up[..|up| - (ups - 1)] == dir[..|dir| - ups];
          LeadsOn(v, deref, w, next, Walking(dir[..|dir| - ups], rest), 0, 0);
        } else {
          LeadsOn(v, deref, w, next, Escaped, 0, 0);
        }
      }
    }
  }

  lemma {:induction false} CleansPlain(base: Path, raw: Path)
    requires AllPlain(raw)
    ensures CleanOnto(base, raw) == Some(base + raw) && CleanAbsolute(base, raw) == base + raw
    decreases |raw|
  {
    if raw == [] {
      assert base + raw == base;
    } else {
      CleansPlain(base + [raw[0]], raw[1..]);
      assert base + [raw[0]] + raw[1..] == base + raw;
    }
  }

  lemma {:induction false} CleansUps(base: Path, ups: nat, plain: Path)
    requires AllPlain(plain)
    ensures CleanOnto(base, Ups(ups) + plain) == if ups <= |base| then Some(base[..|base| - ups] + plain) else None
    decreases ups
  {
    var raw := Ups(ups) + plain;
    if ups == 0 {
      assert raw == plain && base[..|base|] == base;
      CleansPlain(base, plain);
    } else {
      assert raw[0] == ".." && raw[1..] == Ups(ups - 1) + plain;
      if base != [] {
        CleansUps(base[..|base| - 1], ups - 1, plain);
        if ups <= |base| { assert base[..|base| - 1][..|base| - ups] == base[..|base| - ups]; }
      }
    }
  }

  lemma {:induction false} EntersPlain(root: Path, at: Path, raw: Path)
    requires at <= root && AllPlain(raw)
    ensures Enter(root, at, raw) == if root[|at|..] <= raw then Some(raw[|root| - |at|..]) else None
    decreases |raw|
  {
    if at != root && raw != [] && raw[0] == root[|at|] {
      EntersPlain(root, at + [raw[0]], raw[1..]);
      assert root[|at|..] == [raw[0]] + root[|at| + 1..];
    }
  }

  // ---- a pass of Resolve against a step of the walk ----

  /** From the real directory that dot-dots lead to, a walk of the rest is that
      of its whole letters from the root. */
  lemma MeetsBelow(v: Volume, deref: bool, up: Path, rest: Path)
    requires WellFormed(v) && AllPlain(up) && AllPlain(rest) && up in v.tree && v.tree[up].Dir?
    ensures Leads(v, deref, Walking([], up + rest), Walking(up, rest), 0)
  {
    hide Leads, WellFormed;
    var next := up + rest;
    AncestorsAreReal(v, up);
    assert next[..|up|] == up && next[|up|..] == rest;
    assert Real(v, next, |up|) by {
      forall k | 0 <= k <= |up| ensures next[..k] == up[..k] {}
    }
    WalksDown(v, deref, next, |up|);
  }

  lemma RelativeMeets(v: Volume, deref: bool, dir: Path, ups: nat, plain: Path, rest: Path) returns (meet: Where)
    requires WellFormed(v) && AllPlain(dir) && AllPlain(rest) && dir in v.tree && v.tree[dir].Dir? && AllPlain(plain)
    ensures var far, target := Walking(dir, Ups(ups) + plain + rest), CleanOnto(dir, Ups(ups) + plain);
      if target.None? then Leads(v, deref, far, Escaped, 0)
      else
        && AllPlain(target.value)
        && Leads(v, deref, far, meet, 0)
        && Leads(v, deref, Walking([], target.value + rest), meet, 0)
  {
    hide Leads, WellFormed, CleanOnto;
    CleansUps(dir, ups, plain);
    WalksUp(v, deref, dir, ups, plain + rest);
    assert Ups(ups) + plain + rest == Ups(ups) + (plain + rest);
    meet := Escaped;
    if ups <= |dir| {
      var up := dir[..|dir| - ups];
      meet := Walking(up, plain + rest);
      MeetsBelow(v, deref, up, plain + rest);
      assert up + plain + rest == up + (plain + rest);
    }
  }

  /** Going through a tame link, the walk meets the walk of the name that has the
      link's letters in its place; both climb out of the volume or neither. */
  lemma LinkMeetsLetters(v: Volume, deref: bool, dir: Path, link: Node, rest: Path) returns (meet: Where)
    requires WellFormed(v) && AllPlain(dir) && AllPlain(rest) && dir in v.tree && v.tree[dir].Dir?
    requires link.Link? && TamePath(link.absolute, link.target)
    ensures var target := Lexical(v, dir, link);
      if target.None? then Leads(v, deref, Followed(v, dir, link, rest), Escaped, 0)
      else
        && AllPlain(target.value)
        && Leads(v, deref, Followed(v, dir, link, rest), meet, 0)
        && Leads(v, deref, Walking([], target.value + rest), meet, 0)
  {
    hide Leads, CleanOnto, CleanAbsolute;
    var ups: nat :| ups <= |link.target| && (link.absolute ==> ups == 0) && link.target[..ups] == Ups(ups)
                    && AllPlain(link.target[ups..]);
    var plain := link.target[ups..];
    assert link.target == Ups(ups) + plain;
    if link.absolute {
      meet := Followed(v, dir, link, rest);
      LeadsToItself(v, deref, meet);
      assert link.target == plain;
      CleansPlain([], plain);
      EntersPlain(v.root, [], plain);
      assert [] + plain == plain && v.root[0..] == v.root;
    } else {
      meet := RelativeMeets(v, deref, dir, ups, plain, rest);
    }
  }

  /** The walk's end beyond a real directory that a pass has scanned. */
  lemma LastStep(v: Volume, deref: bool, dir: Path, c: string) returns (x: Where)
    requires Plain(c) && !Follows(v, deref, Walking(dir, [c]))
    ensures !x.Walking? && Leads(v, deref, Walking(dir, [c]), x, 0)
  {
    var w := Walking(dir, [c]);
    LeadsByOne(v, deref, w);
    x := Step(v, deref, w);
    if x.Walking? {
      LeadsByOne(v, deref, x);
      LeadsOn(v, deref, w, x, Step(v, deref, x), 0, 0);
      x := Step(v, deref, x);
    }
  }

  ghost predicate ClearlyEnds(v: Volume, deref: bool, w: Where) {
    exists x: Where :: !x.Walking? && Leads(v, deref, w, x, 0)
  }

  ghost predicate Meets(v: Volume, deref: bool, w: Where, next: Path) {
    AllPlain(next) && exists meet :: Leads(v, deref, w, meet, 1) && Leads(v, deref, Walking([], next), meet, 0)
  }

  /** The end an error speaks of. */
  function EndOf(error: Result): Where { if error.Escapes? then Escaped else Blocked }

  ghost predicate EndsAs(v: Volume, deref: bool, w: Where, error: Result) {
    && (error.Escapes? || error.NotADirectory?)
    && (Leads(v, deref, w, EndOf(error), 0) || Leads(v, deref, w, EndOf(error), 1))
  }

  ghost predicate Agrees(v: Volume, deref: bool, w: Where, found: Found) {
    match found
    case Clear => ClearlyEnds(v, deref, w)
    case Replaced(next) => Meets(v, deref, w, next)
    case Refused(error) => EndsAs(v, deref, w, error)
  }

  /** Behind real directories the name has a link that is to be followed. */
  predicate AtLink(v: Volume, name: Path, deref: bool, k: nat) {
    && k < |name| && Real(v, name, k) && (deref || k < |name| - 1)
    && name[..k + 1] in v.tree && v.tree[name[..k + 1]].Link?
  }

  /** A scan that ends without a link ends as the walk does; else it is at the
      walk's first link. */
  ghost predicate Finds(v: Volume, name: Path, deref: bool, found: Found) {
    || (found.Clear? && ClearlyEnds(v, deref, Walking([], name)))
    || (found == Refused(NotADirectory) && Leads(v, deref, Walking([], name), Blocked, 0))
    || exists k: nat :: AtLink(v, name, deref, k) && found == Scan(v, name, deref, k)
  }

  /** A scan that meets a file before the last component. */
  lemma ScanMeetsFile(v: Volume, name: Path, deref: bool, i: nat)
    requires WellFormed(v) && AllPlain(name) && i < |name| && Real(v, name, i)
    requires name[..i + 1] in v.tree && v.tree[name[..i + 1]].File?
    ensures Finds(v, name, deref, Scan(v, name, deref, i + 1))
  {
    hide WellFormed, Leads;
    var w := Walking(name[..i], name[i..]);
    assert name[..i] + [name[i]] == name[..i + 1];
    LeadsByOne(v, deref, w);
    WalksDown(v, deref, name, i);
    LeadsOn(v, deref, Walking([], name), w, Step(v, deref, w), 0, 0);
    if i + 2 <= |name| {
      assert name[..i + 2][..i + 1] == name[..i + 1];
      NothingBeneathFiles(v, name, i + 1);
    }
  }

  lemma NothingBeneathFiles(v: Volume, name: Path, i: nat)
    requires WellFormed(v) && i < |name| && name[..i] in v.tree && v.tree[name[..i]].File?
    ensures name[..i + 1] !in v.tree
  {
    assert name[..i + 1][..i] == name[..i];
  }

  lemma {:induction false} ScanFinds(v: Volume, name: Path, deref: bool, i: nat)
    requires WellFormed(v) && AllPlain(name) && i <= |name| && Real(v, name, i)
    ensures Finds(v, name, deref, Scan(v, name, deref, i))
    decreases |name| - i
  {
    hide WellFormed, Leads;
    var start, w := Walking([], name), Walking(name[..i], name[i..]);
    WalksDown(v, deref, name, i);
    if i == |name| {
      LeadsByOne(v, deref, w);
      LeadsOn(v, deref, start, w, Reached(name[..i]), 0, 0);
    } else {
      var probe := name[..i + 1];
      assert name[..i] + [name[i]] == probe && name[..i] in v.tree;
      if !deref && i == |name| - 1 {
        assert name[i..] == [name[i]];
        var x := LastStep(v, deref, name[..i], name[i]);
        LeadsOn(v, deref, start, w, x, 0, 0);
      } else if probe !in v.tree {
        LeadsByOne(v, deref, w);
        LeadsOn(v, deref, start, w, Step(v, deref, w), 0, 0);
      } else if v.tree[probe].Link? {
        assert AtLink(v, name, deref, i);
      } else if v.tree[probe].File? {
        ScanMeetsFile(v, name, deref, i);
      } else {
        ScanFinds(v, name, deref, i + 1);
      }
    }
  }

  lemma ScanMeetsLink(v: Volume, name: Path, deref: bool, i: nat)
    requires WellFormed(v) && Tame(v) && AllPlain(name) && i < |name| && Real(v, name, i)
    requires (deref || i < |name| - 1) && name[..i + 1] in v.tree && v.tree[name[..i + 1]].Link?
    ensures Agrees(v, deref, Walking(name[..i], name[i..]), Scan(v, name, deref, i))
  {
    hide Leads, Lexical, WellFormed;
    var w, link := Walking(name[..i], name[i..]), v.tree[name[..i + 1]];
    var far := Followed(v, name[..i], link, name[i + 1..]);
    assert Leads(v, deref, w, far, 1) by {
      assert name[..i] + [name[i]] == name[..i + 1];
      assert name[i..][1..] == name[i + 1..];
      assert Follows(v, deref, w);
      LeadsByOne(v, deref, w);
    }
    assert name[..i] in v.tree;
    var meet := LinkMeetsLetters(v, deref, name[..i], link, name[i + 1..]);
    var target := Lexical(v, name[..i], link);
    if target.None? {
      LeadsOn(v, deref, w, far, Escaped, 1, 0);
    } else {
      LeadsOn(v, deref, w, far, meet, 1, 0);
      assert Meets(v, deref, w, target.value + name[i + 1..]);
    }
  }

  /** One pass agrees with the walk. */
  lemma ScanAgrees(v: Volume, name: Path, deref: bool)
    requires WellFormed(v) && Tame(v) && AllPlain(name)
    ensures Agrees(v, deref, Walking([], name), Scan(v, name, deref, 0))
  {
    hide Tame, WellFormed, Leads, Scan;
    var found := Scan(v, name, deref, 0);
    RootIsReal(v, name);
    ScanFinds(v, name, deref, 0);
    if k: nat :| AtLink(v, name, deref, k) && found == Scan(v, name, deref, k) {
      ScanMeetsLink(v, name, deref, k);
      WalksDown(v, deref, name, k);
      AgreesBefore(v, deref, Walking([], name), Walking(name[..k], name[k..]), found);
    }
  }

  lemma AgreesBefore(v: Volume, deref: bool, w: Where, x: Where, found: Found)
    requires Leads(v, deref, w, x, 0) && Agrees(v, deref, x, found)
    ensures Agrees(v, deref, w, found)
  {
    match found
    case Clear =>
      var y: Where :| !y.Walking? && Leads(v, deref, x, y, 0);
      LeadsOn(v, deref, w, x, y, 0, 0);
    case Replaced(next) =>
      var meet :| Leads(v, deref, x, meet, 1) && Leads(v, deref, Walking([], next), meet, 0);
      LeadsOn(v, deref, w, x, meet, 0, 1);
    case Refused(error) =>
      LeadsOn(v, deref, w, x, EndOf(error), 0, if Leads(v, deref, x, EndOf(error), 0) then 0 else 1);
  }

  // ---- what Resolve returns ----

  /** No component before the first missing one is a link, the last excepted
      when it is not to be followed. */
  predicate Normal(v: Volume, name: Path, deref: bool) {
    forall k | 0 < k <= |name| && (deref || k < |name|) && name[..k] in v.tree :: !v.tree[name[..k]].Link?
  }

  lemma {:induction false} AncestorsAreThere(v: Volume, name: Path, i: nat, k: nat)
    requires WellFormed(v) && i <= k <= |name| && name[..k] in v.tree
    ensures name[..i] in v.tree
    decreases k
  {
    if i < k {
      assert name[..k][..k - 1] == name[..k - 1];
      AncestorsAreThere(v, name, i, k - 1);
    }
  }

  lemma {:induction false} ClearIsNormal(v: Volume, name: Path, deref: bool, i: nat, k: nat)
    requires WellFormed(v) && i < k <= |name| && Scan(v, name, deref, i) == Clear
    requires (deref || k < |name|) && name[..k] in v.tree
    ensures !v.tree[name[..k]].Link?
    decreases k - i
  {
    hide WellFormed;
    AncestorsAreThere(v, name, i + 1, k);
    if i + 1 < k { ClearIsNormal(v, name, deref, i + 1, k); }
  }

  /** What each answer says of the walk. */
  ghost predicate Answers(v: Volume, name: Path, deref: bool, passes: nat, r: Result) {
    match r
    case Ok(same) =>
      && AllPlain(same) && Normal(v, same, deref)
      && exists x, k: nat :: k < passes && Denotes(v, deref, name, x, k) && Denotes(v, deref, same, x, 0)
    case Escapes => exists k: nat :: k <= passes && Denotes(v, deref, name, Escaped, k)
    case NotADirectory => exists k: nat :: k <= passes && Denotes(v, deref, name, Blocked, k)
    case TooMany => exists x :: Leads(v, deref, Walking([], name), x, passes)
  }

  lemma AnswersBefore(v: Volume, name: Path, next: Path, deref: bool, passes: nat, r: Result)
    requires Meets(v, deref, Walking([], name), next) && passes > 0 && Answers(v, next, deref, passes - 1, r)
    ensures Answers(v, name, deref, passes, r)
  {
    hide Normal, AllPlain, Leads;
    var start := Walking([], name);
    var meet :| Leads(v, deref, start, meet, 1) && Leads(v, deref, Walking([], next), meet, 0);
    match r
    case Ok(same) =>
      var x, k: nat :| k < passes - 1 && Denotes(v, deref, next, x, k) && Denotes(v, deref, same, x, 0);
      MeetsTheSame(v, deref, start, next, meet, x, k);
      assert Denotes(v, deref, name, x, k + 1);
    case Escapes =>
      var k: nat :| k <= passes - 1 && Denotes(v, deref, next, Escaped, k);
      MeetsTheSame(v, deref, start, next, meet, Escaped, k);
      assert Denotes(v, deref, name, Escaped, k + 1);
    case NotADirectory =>
      var k: nat :| k <= passes - 1 && Denotes(v, deref, next, Blocked, k);
      MeetsTheSame(v, deref, start, next, meet, Blocked, k);
      assert Denotes(v, deref, name, Blocked, k + 1);
    case TooMany =>
      var x :| Leads(v, deref, Walking([], next), x, passes - 1);
      if passes == 1 {
        assert Leads(v, deref, start, meet, passes);
      } else {
        MeetsOnTheWay(v, deref, Walking([], next), meet, x, passes - 1);
        LeadsOn(v, deref, start, meet, x, 1, passes - 1);
      }
  }

  lemma MeetsTheSame(v: Volume, deref: bool, start: Where, next: Path, meet: Where, x: Where, k: nat)
    requires Leads(v, deref, start, meet, 1) && Leads(v, deref, Walking([], next), meet, 0)
    requires Denotes(v, deref, next, x, k)
    ensures Leads(v, deref, start, x, k + 1)
  {
    EndsAfterMeeting(v, deref, Walking([], next), meet, x, k);
    LeadsOn(v, deref, start, meet, x, 1, k);
  }

  /** A walk that passes a point without a link goes on from there as before. */
  lemma EndsAfterMeeting(v: Volume, deref: bool, w: Where, meet: Where, x: Where, k: nat)
    requires Leads(v, deref, w, meet, 0) && Leads(v, deref, w, x, k) && !x.Walking?
    ensures Leads(v, deref, meet, x, k)
  {
    var m: nat :| After(v, deref, w, m) == meet && Links(v, deref, w, m) == 0;
    var n: nat :| After(v, deref, w, n) == x && Links(v, deref, w, n) == k;
    if m <= n {
      AfterAfter(v, deref, w, m, n - m);
      assert After(v, deref, meet, n - m) == x;
    } else {
      AfterAfter(v, deref, w, n, m - n);
      EndStays(v, deref, x, m - n);
      LeadsToItself(v, deref, meet);
    }
  }

  lemma MeetsOnTheWay(v: Volume, deref: bool, w: Where, meet: Where, x: Where, k: nat)
    requires Leads(v, deref, w, meet, 0) && Leads(v, deref, w, x, k) && k > 0
    ensures Leads(v, deref, meet, x, k)
  {
    var m: nat :| After(v, deref, w, m) == meet && Links(v, deref, w, m) == 0;
    var n: nat :| After(v, deref, w, n) == x && Links(v, deref, w, n) == k;
    if m <= n {
      AfterAfter(v, deref, w, m, n - m);
      assert After(v, deref, meet, n - m) == x;
    } else {
      AfterAfter(v, deref, w, n, m - n);
    }
  }

  lemma {:induction false} PassesAnswer(v: Volume, name: Path, deref: bool, passes: nat)
    requires WellFormed(v) && Tame(v) && AllPlain(name)
    ensures Answers(v, name, deref, passes, Passes(v, name, deref, passes))
    decreases passes
  {
    hide WellFormed, Tame, Normal, Leads;
    var start := Walking([], name);
    if passes == 0 {
      LeadsToItself(v, deref, start);
      assert Leads(v, deref, start, start, passes);
    } else {
      ScanAgrees(v, name, deref);
      match Scan(v, name, deref, 0)
      case Clear =>
        var x: Where :| !x.Walking? && Leads(v, deref, start, x, 0);
        assert Normal(v, name, deref) by { ScannedIsNormal(v, name, deref); }
        assert Denotes(v, deref, name, x, 0);
      case Refused(error) =>
        assert Denotes(v, deref, name, EndOf(error), 0) || Denotes(v, deref, name, EndOf(error), 1);
      case Replaced(next) =>
        PassesAnswer(v, next, deref, passes - 1);
        AnswersBefore(v, name, next, deref, passes, Passes(v, next, deref, passes - 1));
    }
  }

  lemma RootIsReal(v: Volume, name: Path)
    requires WellFormed(v)
    ensures Real(v, name, 0)
  {
    assert name[..0] == [];
  }

  lemma ScannedIsNormal(v: Volume, name: Path, deref: bool)
    requires WellFormed(v) && Scan(v, name, deref, 0) == Clear
    ensures Normal(v, name, deref)
  {
    hide WellFormed, Scan;
    forall k | 0 < k <= |name| && (deref || k < |name|) && name[..k] in v.tree ensures !v.tree[name[..k]].Link? {
      ClearIsNormal(v, name, deref, 0, k);
    }
  }

  /** On an unchanged volume whose links are tame, Resolve gives a plain name
      that denotes what the name denotes, a node or the place of a missing one,
      and has no link on the way there; or it says rightly that the walk leaves
      the volume, that it runs into a file, or that it goes through forty links.
      A name is refused for its many links only when its walk has as many. */
  lemma ResolveKeepsMeaning(v: Volume, name: Path, deref: bool)
    requires WellFormed(v) && Tame(v) && AllPlain(name)
    ensures Answers(v, name, deref, PASSES, Passes(v, name, deref, PASSES))
    ensures forall x, k: nat | k < PASSES && Denotes(v, deref, name, x, k) :: Passes(v, name, deref, PASSES) != TooMany
  {
    PassesAnswer(v, name, deref, PASSES);
    if Passes(v, name, deref, PASSES) == TooMany {
      var y :| Leads(v, deref, Walking([], name), y, PASSES);
      forall x, k: nat | k < PASSES && Denotes(v, deref, name, x, k) ensures false {
        EndIsUnique(v, deref, Walking([], name), x, k, y, PASSES);
      }
    }
  }

  // ---- targets that are not tame ----

  const TO_E := Link(false, ["d", "e"])
  const TWISTED_LINK := Link(false, ["b", "..", "c"])

  /** b leads to d/e, and l to b/../c: to d/c, not to c. */
  const TWISTED := Volume(["data"], map[[] := Dir, ["d"] := Dir, ["d", "e"] := Dir, ["d", "c"] := File, ["c"] := File,
                                        ["b"] := TO_E, ["l"] := TWISTED_LINK])

  lemma TwistedLinks()
    ensures Leads(TWISTED, true, Walking([], ["l"]), Walking([], ["d", "e", "..", "c"]), 2)
  {
    var v := TWISTED;
    var w0, w1, w2 := Walking([], ["l"]), Walking([], ["b", "..", "c"]), Walking([], ["d", "e", "..", "c"]);
    assert [] + ["l"] == ["l"] && ["b", "..", "c"] + [] == ["b", "..", "c"];
    LeadsByOne(v, true, w0);
    assert [] + ["b"] == ["b"] && ["d", "e"] + ["..", "c"] == ["d", "e", "..", "c"] && ["b", "..", "c"][1..] == ["..", "c"];
    LeadsByOne(v, true, w1);
    LeadsOn(v, true, w0, w1, w2, 1, 1);
  }

  lemma TwistedWalk()
    ensures Leads(TWISTED, true, Walking([], ["d", "e", "..", "c"]), Walking(["d"], ["c"]), 0)
  {
    hide Leads;
    var v := TWISTED;
    var w2, w3, w4 := Walking([], ["d", "e", "..", "c"]), Walking(["d"], ["e", "..", "c"]), Walking(["d", "e"], ["..", "c"]);
    assert [] + ["d"] == ["d"] && ["d", "e", "..", "c"][1..] == ["e", "..", "c"];
    LeadsByOne(v, true, w2);
    assert ["d"] + ["e"] == ["d", "e"] && ["e", "..", "c"][1..] == ["..", "c"];
    LeadsByOne(v, true, w3);
    LeadsOn(v, true, w2, w3, w4, 0, 0);
    assert ["d", "e"][..1] == ["d"] && ["..", "c"][1..] == ["c"];
    LeadsByOne(v, true, w4);
    LeadsOn(v, true, w2, w4, Walking(["d"], ["c"]), 0, 0);
  }

  lemma TwistedEnds()
    ensures Leads(TWISTED, true, Walking(["d"], ["c"]), Reached(["d", "c"]), 0)
    ensures Leads(TWISTED, true, Walking([], ["c"]), Reached(["c"]), 0)
  {
    hide Leads;
    assert ["d"] + ["c"] == ["d", "c"] && [] + ["c"] == ["c"] && ["c"][1..] == [];
    LeadsByOne(TWISTED, true, Walking(["d"], ["c"]));
    LeadsByOne(TWISTED, true, Walking([], ["c"]));
  }

  lemma TwistedPasses()
    ensures Passes(TWISTED, ["l"], true, PASSES) == Ok(["c"])
  {
    var v := TWISTED;
    assert ["l"][..1] == ["l"] && ["l"][..0] == [] && ["l"][1..] == [] && ["c"] + [] == ["c"];
    assert CleanOnto([], ["b", "..", "c"]) == Some(["c"]) by {
      assert ["b", "..", "c"][1..] == ["..", "c"] && ["..", "c"][1..] == ["c"] && ["c"][1..] == [];
      assert [] + ["b"] == ["b"] && ["b"][..0] == [] && [] + ["c"] == ["c"];
      assert CleanOnto(["c"], []) == Some(["c"]);
      assert CleanOnto([], ["c"]) == Some(["c"]);
      assert CleanOnto(["b"], ["..", "c"]) == Some(["c"]);
    }
    assert Scan(v, ["l"], true, 0) == Replaced(["c"]);
    assert ["c"][..1] == ["c"];
    assert Scan(v, ["c"], true, 1) == Clear;
    assert Scan(v, ["c"], true, 0) == Clear;
    assert Passes(v, ["c"], true, PASSES - 1) == Ok(["c"]);
  }

  lemma TwistedIsWellFormed()
    ensures WellFormed(TWISTED)
  {
    assert ["d"][..0] == ["c"][..0] == ["b"][..0] == ["l"][..0] == [];
    assert ["d", "e"][..1] == ["d", "c"][..1] == ["d"];
  }

  /** A target that goes down a link and up again is read by its letters: Resolve
      answers with another file than the one the path denotes. */
  lemma LettersMislead()
    ensures WellFormed(TWISTED)
    ensures Passes(TWISTED, ["l"], true, PASSES) == Ok(["c"])
    ensures Denotes(TWISTED, true, ["l"], Reached(["d", "c"]), 2)
    ensures Denotes(TWISTED, true, ["c"], Reached(["c"]), 0)
  {
    hide WellFormed, Leads, Passes;
    TwistedIsWellFormed();
    TwistedEnds();
    TwistedPasses();
    TwistedLinks();
    TwistedWalk();
    LeadsOn(TWISTED, true, Walking([], ["l"]), Walking([], ["d", "e", "..", "c"]), Walking(["d"], ["c"]), 2, 0);
    LeadsOn(TWISTED, true, Walking([], ["l"]), Walking(["d"], ["c"]), Reached(["d", "c"]), 2, 0);
  }
}
