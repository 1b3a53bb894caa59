/** The hardlinks of an unpacked archive (internal/fileops/archive.go, finish and
    prepareLink): a worklist filtered in its own backing array until it is empty
    or a pass over it links nothing, over a tree of directories, files and
    symlinks. */
module Hardlinks {
  import opened Text

  type Path = seq<string>

  /** A regular file by its inode; a symlink's target is the text between
      slashes. */
  datatype Node = Dir | Regular(inode: nat) | Symlink(absolute: bool, target: Path)

  type Tree = map<Path, Node>

  /** Names are clean and taken from the root. */
  datatype Link = Link(name: Path, target: Path)

  datatype Result = Done | MissingOrCyclic | NotFound | NotDirectory | Escapes | TooManyLinks | NotRegular | Itself | NotRemovable

  // ---- the file system under os.Root ----

  /** Where the last component of a path is, its parents being directories. */
  datatype Spot = Spot(tree: Tree, at: Path) | Fail(tree: Tree, error: Result)

  /** A path followed through directories and symlinks, as many as the library
      allows; missing directories are made on the way if they are to be. */
  function Walk(limit: nat, tree: Tree, dir: Path, rest: Path, make: bool): Spot
    decreases limit, |rest|
  {
    if rest == [] then Spot(tree, dir)
    else
      var c, more := rest[0], rest[1..];
      if c == "" || c == "." then Walk(limit, tree, dir, more, make)
      else if c == ".." then
        if dir == [] then Fail(tree, Escapes) else Walk(limit, tree, dir[..|dir| - 1], more, make)
      else
        var p := dir + [c];
        if more == [] then Spot(tree, p)
        else if p !in tree then
          if make then Walk(limit, tree[p := Dir], p, more, make) else Fail(tree, NotFound)
        else
          match tree[p]
          case Dir => Walk(limit, tree, p, more, make)
          case Regular(_) => Fail(tree, NotDirectory)
          case Symlink(absolute, target) =>
            if absolute then Fail(tree, Escapes)
            else if limit == 0 then Fail(tree, TooManyLinks)
            else Walk(limit - 1, tree, dir, target + more, make)
  }

  predicate Empty(tree: Tree, p: Path) { forall q | q in tree :: !(p < q) }

  // ---- one link ----

  datatype Linked = Made(tree: Tree) | Waits | Err(tree: Tree, result: Result)

  /** Root.Link, which follows the target's path again. */
  function Placed(limit: nat, tree: Tree, target: Path, at: Path): Linked {
    match Walk(limit, tree, [], target, false)
    case Fail(_, error) => Err(tree, error)
    case Spot(_, t) => if t !in tree then Err(tree, NotFound) else Made(tree[at := tree[t]])
  }

  /** prepareLink and Root.Link: the directories above the name are made, a leaf
      in the way is removed, a directory only when it is empty. */
  function Prepared(limit: nat, tree: Tree, link: Link): Linked {
    match Walk(limit, tree, [], link.name, true)
    case Fail(more, error) => Err(more, error)
    case Spot(more, at) =>
      if at == [] || (at in more && more[at].Dir? && !Empty(more, at)) then Err(more, NotRemovable)
      else Placed(limit, more - {at}, link.target, at)
  }

  function LinkOne(limit: nat, tree: Tree, link: Link): Linked {
    match Walk(limit, tree, [], link.target, false)
    case Fail(_, error) => if error.NotFound? then Waits else Err(tree, error)
    case Spot(_, t) =>
      if t !in tree then Waits
      else if !tree[t].Regular? then Err(tree, NotRegular)
      else if link.name == link.target then Err(tree, Itself)
      else Prepared(limit, tree, link)
  }

  // ---- a pass ----

  datatype Pass = Pass(tree: Tree, pending: seq<Link>, progress: bool) | Failed(tree: Tree, result: Result)

  function Passed(limit: nat, tree: Tree, links: seq<Link>): Pass {
    if links == [] then Pass(tree, [], false)
    else
      match Passed(limit, tree, links[..|links| - 1])
      case Failed(t, result) => Failed(t, result)
      case Pass(t, pending, progress) =>
        var link := links[|links| - 1];
        match LinkOne(limit, t, link)
        case Waits => Pass(t, pending + [link], progress)
        case Err(u, result) => Failed(u, result)
        case Made(u) => Pass(u, pending, true)
  }

  lemma PassedNone(limit: nat, tree: Tree)
    ensures Passed(limit, tree, []) == Pass(tree, [], false)
  {}

  /** One link more of the list. */
  lemma PassedOne(limit: nat, tree: Tree, links: seq<Link>, i: nat)
    requires i < |links| && Passed(limit, tree, links[..i]).Pass?
    ensures var p, link := Passed(limit, tree, links[..i]), links[i];
      Passed(limit, tree, links[..i + 1]) ==
        match LinkOne(limit, p.tree, link)
        case Waits => p.(pending := p.pending + [link])
        case Err(u, result) => Failed(u, result)
        case Made(u) => Pass(u, p.pending, true)
  {
    assert links[..i + 1][..i] == links[..i] && links[..i + 1][i] == links[i];
  }

  lemma {:induction false} PassedOn(limit: nat, tree: Tree, links: seq<Link>, i: nat)
    requires i <= |links| && Passed(limit, tree, links[..i]).Failed?
    ensures Passed(limit, tree, links) == Passed(limit, tree, links[..i])
    decreases |links| - i
  {
    if i == |links| {
      assert links[..i] == links;
    } else {
      assert links[..i + 1][..i] == links[..i];
      PassedOn(limit, tree, links, i + 1);
    }
  }

  lemma {:induction false} PassShortens(limit: nat, tree: Tree, links: seq<Link>)
    ensures var p := Passed(limit, tree, links);
      p.Pass? ==> |p.pending| <= |links| && (|p.pending| == |links| <==> !p.progress)
    decreases |links|
  {
    hide LinkOne;
    if links != [] { PassShortens(limit, tree, links[..|links| - 1]); }
  }

  /** finish, up to the directories' metadata. */
  function Finished(limit: nat, tree: Tree, links: seq<Link>): (Tree, Result)
    decreases |links|
  {
    if links == [] then (tree, Done)
    else
      match Passed(limit, tree, links)
      case Failed(t, result) => (t, result)
      case Pass(t, pending, progress) =>
        PassShortens(limit, tree, links);
        if !progress then (t, MissingOrCyclic) else Finished(limit, t, pending)
  }

  /** The archive's extractor, with its links. */
  class Extractor {
    const limit: nat
    var tree: Tree
    const links: array<Link>

    constructor (limit: nat, tree: Tree, recorded: seq<Link>)
      ensures this.limit == limit && this.tree == tree && links[..] == recorded
    {
      this.limit, this.tree := limit, tree;
      links := new Link[|recorded|](i requires 0 <= i < |recorded| => recorded[i]);
      new;
      assert links[..] == recorded;
    }

    /** One pass over the first n links; those left pending are kept at the front
        of the array, over what was read already. */
    method FilterLinks(n: nat) returns (kept: nat, progress: bool, error: Option<Result>)
      requires n <= links.Length
      modifies this, links
      ensures kept <= n
      ensures match Passed(limit, old(tree), old(links[..n]))
        case Pass(t, pending, p) => error == None && tree == t && links[..kept] == pending && progress == p
        case Failed(t, result) => error == Some(result) && tree == t
    {
      hide LinkOne, Passed;
      ghost var all, before := links[..n], tree;
      kept, progress := 0, false;
      PassedNone(limit, before);
      for i := 0 to n
        invariant kept <= i
        invariant links[i..n] == all[i..]
        invariant Passed(limit, before, all[..i]) == Pass(tree, links[..kept], progress)
      {
        var link := links[i];
        assert link == all[i] by { assert links[i..n][0] == all[i..][0]; }
        PassedOne(limit, before, all, i);
        assert links[i + 1..n] == all[i + 1..] by { assert links[i..n][1..] == all[i..][1..]; }
        match LinkOne(limit, tree, link)
        case Waits =>
          ghost var rest := links[i + 1..n];
          links[kept] := link;
          kept := kept + 1;
          assert links[..kept] == links[..kept - 1] + [link] && links[i + 1..n] == rest;
        case Err(left, r) =>
          PassedOn(limit, before, all, i + 1);
          tree := left;
          return kept, progress, Some(r);
        case Made(linked) =>
          tree := linked;
          progress := true;
      }
      assert all[..n] == all;
      error := None;
    }

    method Finish() returns (result: Result)
      modifies this, links
      ensures (tree, result) == Finished(limit, old(tree), old(links[..]))
    {
      hide Passed;
      var n: nat := links.Length;
      assert links[..n] == links[..];
      while n != 0
        invariant n <= links.Length
        invariant Finished(limit, tree, links[..n]) == Finished(limit, old(tree), old(links[..]))
        decreases n
      {
        PassShortens(limit, tree, links[..n]);
        var kept, progress, error := FilterLinks(n);
        if error.Some? {
          return error.value;
        }
        if !progress {
          return MissingOrCyclic;
        }
        n := kept;
      }
      return Done;
    }
  }

  // ---- trees and ways ----

  predicate Plain(c: string) { c != "" && c != "." && c != ".." }

  predicate AllPlain(p: Path) { forall i | 0 <= i < |p| :: Plain(p[i]) }

  predicate WellFormed(tree: Tree) {
    && [] in tree && tree[[]].Dir?
    && (forall p | p in tree :: AllPlain(p))
    && forall p | p in tree && p != [] :: p[..|p| - 1] in tree && tree[p[..|p| - 1]].Dir?
  }

  /** Nothing above the path is a symlink. */
  predicate Direct(tree: Tree, p: Path) {
    AllPlain(p) && forall k | 0 <= k < |p| && p[..k] in tree :: !tree[p[..k]].Symlink?
  }

  /** What there is above the path is directories. */
  predicate FreeWay(tree: Tree, p: Path) { forall k | 0 <= k < |p| && p[..k] in tree :: tree[p[..k]].Dir? }

  predicate Way(tree: Tree, p: Path) { forall k | 0 <= k < |p| :: p[..k] in tree && tree[p[..k]].Dir? }

  lemma {:induction false} WayAbove(tree: Tree, p: Path)
    requires WellFormed(tree) && p in tree
    ensures Way(tree, p)
    decreases |p|
  {
    if p != [] {
      var up := p[..|p| - 1];
      WayAbove(tree, up);
      forall k | 0 <= k < |p| ensures p[..k] in tree && tree[p[..k]].Dir? {
        if k < |up| { assert p[..k] == up[..k]; } else { assert p[..k] == up; }
      }
    }
  }

  lemma BeneathIsInside(p: Path, q: Path)
    requires p < q
    ensures |p| < |q| && q[..|p|] == p
  {}

  /** A walk without making anything, past real directories. */
  lemma {:induction false} WalkFinds(limit: nat, tree: Tree, p: Path, i: nat)
    requires Direct(tree, p) && i <= |p| && (forall k | 0 <= k <= i && k < |p| :: p[..k] in tree && tree[p[..k]].Dir?)
    ensures match Walk(limit, tree, p[..i], p[i..], false)
      case Spot(t, at) => t == tree && at == p && Way(tree, p)
      case Fail(_, error) => !Way(tree, p) && (error.NotFound? || (error.NotDirectory? && !FreeWay(tree, p)))
    decreases |p| - i
  {
    if i == |p| {
      assert p[..i] == p;
    } else {
      assert p[i..][1..] == p[i + 1..] && p[..i] + [p[i]] == p[..i + 1];
      if i == |p| - 1 {
        assert p[..i + 1] == p;
      } else if p[..i + 1] in tree && tree[p[..i + 1]].Dir? {
        WalkFinds(limit, tree, p, i + 1);
      }
    }
  }

  /** The tree with the directories above the path. */
  predicate WithWay(tree: Tree, more: Tree, p: Path) {
    && (forall q | q in tree :: q in more && more[q] == tree[q])
    && Way(more, p)
    && (forall q | q in more && q !in tree :: q < p && more[q].Dir?)
  }

  lemma {:induction false} WalkMakes(limit: nat, tree: Tree, p: Path, i: nat)
    requires Direct(tree, p) && i <= |p| && (forall k | 0 <= k <= i && k < |p| :: p[..k] in tree && tree[p[..k]].Dir?)
    ensures match Walk(limit, tree, p[..i], p[i..], true)
      case Spot(more, at) => at == p && WithWay(tree, more, p)
      case Fail(_, error) => error.NotDirectory? && !FreeWay(tree, p)
    decreases |p| - i
  {
    if i == |p| {
      assert p[..i] == p;
    } else {
      assert p[i..][1..] == p[i + 1..] && p[..i] + [p[i]] == p[..i + 1];
      if i == |p| - 1 {
        assert p[..i + 1] == p;
      } else {
        var probe := p[..i + 1];
        if probe !in tree {
          var t := tree[probe := Dir];
          assert probe < p;
          WalkMakes(limit, t, p, i + 1);
        } else if tree[probe].Dir? {
          WalkMakes(limit, tree, p, i + 1);
        }
      }
    }
  }

  // ---- what one link makes ----

  /** The tree a link is made in: the target's file at the name, directories above
      it, all else as before; no directory with something in it went. */
  predicate Makes(tree: Tree, made: Tree, l: Link) {
    && l.target in tree && tree[l.target].Regular? && l.name != l.target && l.name != []
    && (l.name in tree && tree[l.name].Dir? ==> Empty(tree, l.name))
    && (forall q | q in tree && q != l.name :: q in made && made[q] == tree[q])
    && l.name in made && made[l.name] == tree[l.target]
    && Way(made, l.name)
    && (forall q | q in made && q !in tree && q != l.name :: q < l.name && made[q].Dir?)
  }

  /** Nothing is in the link's way. */
  predicate Fits(tree: Tree, l: Link) {
    && l.name != [] && l.name != l.target && FreeWay(tree, l.name)
    && (l.name in tree && tree[l.name].Dir? ==> Empty(tree, l.name))
  }

  lemma PreparedMakes(limit: nat, tree: Tree, l: Link)
    requires WellFormed(tree) && Direct(tree, l.name) && Direct(tree, l.target)
    requires l.target in tree && tree[l.target].Regular? && l.name != l.target
    ensures match Prepared(limit, tree, l)
      case Made(made) => Makes(tree, made, l)
      case Waits => false
      case Err(_, result) => result != Done && !Fits(tree, l)
  {
    hide Walk, WellFormed;
    RootIsThere(tree, l.name);
    WalkMakes(limit, tree, l.name, 0);
    assert l.name[..0] == [] && l.name[0..] == l.name;
    match Walk(limit, tree, [], l.name, true)
    case Fail(_, _) =>
    case Spot(more, at) =>
      SameEmpty(tree, more, l.name);
      if at != [] && !(at in more && more[at].Dir? && !Empty(more, at)) {
        PlacedMakes(limit, tree, more, l);
      }
  }

  lemma RootIsThere(tree: Tree, p: Path)
    requires WellFormed(tree)
    ensures forall k | 0 <= k <= 0 && k < |p| :: p[..k] in tree && tree[p[..k]].Dir?
  {
    assert p[..0] == [];
  }

  /** Directories made above a path put nothing beneath it. */
  lemma SameEmpty(tree: Tree, more: Tree, p: Path)
    requires WithWay(tree, more, p)
    ensures p in more && more[p].Dir? && !Empty(more, p) ==> p in tree && tree[p].Dir? && !Empty(tree, p)
    ensures p in tree && tree[p].Dir? && Empty(tree, p) ==> Empty(more, p)
  {}

  lemma PlacedMakes(limit: nat, tree: Tree, more: Tree, l: Link)
    requires WellFormed(tree) && Direct(tree, l.target) && WithWay(tree, more, l.name)
    requires l.target in tree && tree[l.target].Regular? && l.name != l.target && l.name != []
    requires l.name in more && more[l.name].Dir? ==> Empty(more, l.name)
    ensures Placed(limit, more - {l.name}, l.target, l.name).Made?
    ensures Makes(tree, Placed(limit, more - {l.name}, l.target, l.name).tree, l)
  {
    hide Walk;
    var t := more - {l.name};
    WayAbove(tree, l.target);
    assert l.target in more;
    assert |l.name| < |l.target| && l.target[..|l.name|] != l.name ==> !(l.name < l.target);
    forall k | 0 <= k < |l.target| ensures l.target[..k] in t && t[l.target[..k]].Dir? {
      assert l.target[..k] in tree && l.target[..k] < l.target;
    }
    assert Direct(t, l.target);
    WalkFinds(limit, t, l.target, 0);
    assert l.target[..0] == [] && l.target[0..] == l.target;
    PlacedTree(tree, more, l);
  }

  lemma PlacedTree(tree: Tree, more: Tree, l: Link)
    requires WithWay(tree, more, l.name) && l.target in tree && tree[l.target].Regular? && l.name != l.target && l.name != []
    requires l.name in more && more[l.name].Dir? ==> Empty(more, l.name)
    ensures Makes(tree, (more - {l.name})[l.name := (more - {l.name})[l.target]], l)
  {
    var made := (more - {l.name})[l.name := (more - {l.name})[l.target]];
    forall k | 0 <= k < |l.name| ensures l.name[..k] in made && made[l.name[..k]].Dir? {
      assert l.name[..k] in more && l.name[..k] != l.name;
    }
    if l.name in tree && tree[l.name].Dir? {
      forall q | q in tree ensures !(l.name < q) { assert q in more; }
    }
  }

  /** What becomes of one link on a tree without symlinks on its ways. */
  lemma LinksOne(limit: nat, tree: Tree, l: Link)
    requires WellFormed(tree) && Direct(tree, l.name) && Direct(tree, l.target)
    ensures match LinkOne(limit, tree, l)
      case Waits => l.target !in tree
      case Made(made) => Makes(tree, made, l)
      case Err(_, result) => result != Done
    ensures l.target !in tree && FreeWay(tree, l.target) ==> LinkOne(limit, tree, l).Waits?
    ensures l.target in tree && tree[l.target].Regular? && Fits(tree, l) ==> LinkOne(limit, tree, l).Made?
  {
    hide Walk, Prepared, Makes, Fits;
    RootIsThere(tree, l.target);
    WalkFinds(limit, tree, l.target, 0);
    assert l.target[..0] == [] && l.target[0..] == l.target;
    if l.target in tree {
      WayAbove(tree, l.target);
      if tree[l.target].Regular? && l.name != l.target { PreparedMakes(limit, tree, l); }
      if l.name == l.target { assert !Fits(tree, l) by { NotItself(tree, l); } }
    }
  }

  lemma NotItself(tree: Tree, l: Link)
    requires l.name == l.target
    ensures !Fits(tree, l)
  {}

  // ---- what every link keeps ----

  /** Nothing goes; what is no directory stays none, a directory with something
      in it stays one, and no symlink comes. */
  predicate Keeps(tree: Tree, later: Tree) {
    && (forall q | q in tree :: q in later && (!tree[q].Dir? ==> !later[q].Dir?))
    && (forall q, r | q in tree && r in tree && q < r && tree[q].Dir? :: later[q].Dir?)
    && (forall q | q in later && later[q].Symlink? :: q in tree && tree[q].Symlink?)
  }

  lemma MakesKeeps(tree: Tree, made: Tree, l: Link)
    requires Makes(tree, made, l)
    ensures Keeps(tree, made)
  {}

  lemma KeepsOn(a: Tree, b: Tree, c: Tree)
    requires Keeps(a, b) && Keeps(b, c)
    ensures Keeps(a, c)
  {}

  lemma KeepsDirect(tree: Tree, later: Tree, p: Path)
    requires Direct(tree, p) && Keeps(tree, later)
    ensures Direct(later, p)
  {}

  lemma MakesWellFormed(tree: Tree, made: Tree, l: Link)
    requires WellFormed(tree) && AllPlain(l.name) && Makes(tree, made, l)
    ensures WellFormed(made)
  {
    forall p | p in made && p != [] ensures AllPlain(p) && p[..|p| - 1] in made && made[p[..|p| - 1]].Dir? {
      var up := p[..|p| - 1];
      assert up < p;
      if p in tree {
        assert up in tree && tree[up].Dir?;
      } else if p != l.name {
        BeneathIsInside(p, l.name);
        assert up == l.name[..|p| - 1];
      }
    }
  }

  /** The link is made: its name is no directory, and all above it are. */
  predicate Settled(tree: Tree, l: Link) {
    l.name != l.target && l.name != [] && l.name in tree && !tree[l.name].Dir? && Way(tree, l.name)
  }

  lemma MakesSettled(tree: Tree, made: Tree, l: Link)
    requires Makes(tree, made, l)
    ensures Settled(made, l)
  {}

  lemma SettledStays(tree: Tree, later: Tree, l: Link)
    requires Settled(tree, l) && Keeps(tree, later)
    ensures Settled(later, l)
  {
    forall k | 0 <= k < |l.name| ensures l.name[..k] in later && later[l.name[..k]].Dir? {
      assert l.name[..k] in tree && l.name[..k] < l.name;
    }
  }

  // ---- which links can be made ----

  function Regulars(tree: Tree): set<Path> { set p | p in tree && tree[p].Regular? }

  predicate Closed(names: set<Path>, links: seq<Link>) {
    forall l | l in links && l.target in names :: l.name in names
  }

  /** The file is there or is made from what is there through the links: it is in
      every set that holds the files and is closed under the links, in whatever
      order they come. */
  ghost predicate Reachable(present: set<Path>, links: seq<Link>, name: Path) {
    forall names: set<Path> | present <= names && Closed(names, links) :: name in names
  }

  ghost predicate AllReachable(present: set<Path>, links: seq<Link>) {
    forall l | l in links :: Reachable(present, links, l.target)
  }

  /** A tree whose targets are regular files where they are there, and whose
      symlinks are above none of the names and targets. */
  predicate Plainly(tree: Tree, links: seq<Link>) {
    && WellFormed(tree)
    && forall l | l in links ::
         Direct(tree, l.name) && Direct(tree, l.target) && (l.target in tree ==> tree[l.target].Regular?)
  }

  /** No link is its own; no name is above another, beneath a file, or that of a
      directory with something in it. */
  predicate Fitting(tree: Tree, links: seq<Link>) {
    && (forall l | l in links :: Fits(tree, l))
    && (forall l, m | l in links && m in links :: !(l.name < m.name))
  }

  // ---- success needs all of that ----

  predicate AllDirect(tree: Tree, links: seq<Link>) {
    WellFormed(tree) && forall l | l in links :: Direct(tree, l.name) && Direct(tree, l.target)
  }

  /** It makes no file but those the links lead to. */
  ghost predicate Within(tree: Tree, links: seq<Link>, made: Tree) {
    forall names: set<Path> | Regulars(tree) <= names && Closed(names, links) :: Regulars(made) <= names
  }

  lemma WithinMore(tree: Tree, rest: seq<Link>, link: Link, made: Tree, later: Tree)
    requires Within(tree, rest, made) && Makes(made, later, link)
    ensures Within(tree, rest + [link], later)
  {
    var links := rest + [link];
    assert link in links && (forall l | l in rest :: l in links);
    forall names: set<Path> | Regulars(tree) <= names && Closed(names, links) ensures Regulars(later) <= names {
      assert Closed(names, rest);
      assert link.target in Regulars(made);
      forall q | q in Regulars(later) ensures q in names {
        if q != link.name { assert q in Regulars(made); }
      }
    }
  }

  lemma WithinSame(tree: Tree, rest: seq<Link>, link: Link, made: Tree)
    requires Within(tree, rest, made)
    ensures Within(tree, rest + [link], made)
  {
    assert forall l | l in rest :: l in rest + [link];
    forall names: set<Path> | Regulars(tree) <= names && Closed(names, rest + [link]) ensures Regulars(made) <= names {
      assert Closed(names, rest);
    }
  }

  /** A pass that does not fail: nothing is lost from the list, and every link that
      is no longer pending is made. */
  predicate Kept(tree: Tree, links: seq<Link>, p: Pass)
    requires p.Pass?
  {
    && WellFormed(p.tree) && Keeps(tree, p.tree)
    && (forall l | l in p.pending :: l in links)
    && (forall l | l in links :: l in p.pending || (Settled(p.tree, l) && l.target in p.tree))
    && (!p.progress ==> p.tree == tree && p.pending == links && forall l | l in links :: l.target !in tree)
  }

  lemma {:induction false} PassKeeps(limit: nat, tree: Tree, links: seq<Link>)
    requires AllDirect(tree, links) && Passed(limit, tree, links).Pass?
    ensures var p := Passed(limit, tree, links); Kept(tree, links, p) && Within(tree, links, p.tree)
    decreases |links|
  {
    hide LinkOne, WellFormed, Direct, Settled, Makes, Keeps, Within, Kept;
    if links == [] {
      NothingKept(tree);
      WithinItself(tree);
    } else {
      var rest, link := links[..|links| - 1], links[|links| - 1];
      assert links == rest + [link] && forall l | l in rest :: l in links;
      PassKeeps(limit, tree, rest);
      var p := Passed(limit, tree, rest);
      KeptDirect(tree, rest, p, link);
      LinksOne(limit, p.tree, link);
      match LinkOne(limit, p.tree, link)
      case Waits =>
        WithinSame(tree, rest, link, p.tree);
        KeptWaiting(tree, rest, link, p);
      case Err(_, _) =>
      case Made(made) =>
        DirectIsPlain(tree, link.name);
        KeptOn(tree, rest, link, p, made);
        WithinMore(tree, rest, link, p.tree, made);
    }
  }

  lemma NothingKept(tree: Tree)
    requires WellFormed(tree)
    ensures Kept(tree, [], Pass(tree, [], false))
  {
    hide WellFormed;
  }

  lemma KeptDirect(tree: Tree, rest: seq<Link>, p: Pass, l: Link)
    requires p.Pass? && Kept(tree, rest, p) && Direct(tree, l.name) && Direct(tree, l.target)
    ensures WellFormed(p.tree) && Direct(p.tree, l.name) && Direct(p.tree, l.target)
  {
    hide WellFormed, Direct, Keeps;
    KeepsDirect(tree, p.tree, l.name);
    KeepsDirect(tree, p.tree, l.target);
  }

  lemma KeptWaiting(tree: Tree, rest: seq<Link>, link: Link, p: Pass)
    requires p.Pass? && Kept(tree, rest, p) && link.target !in p.tree
    ensures Kept(tree, rest + [link], p.(pending := p.pending + [link]))
  {
    hide WellFormed, Settled, Keeps;
  }

  lemma KeptOn(tree: Tree, rest: seq<Link>, link: Link, p: Pass, made: Tree)
    requires p.Pass? && Kept(tree, rest, p) && Makes(p.tree, made, link) && AllPlain(link.name)
    ensures Kept(tree, rest + [link], Pass(made, p.pending, true))
  {
    hide WellFormed, Settled, Makes, Keeps, AllPlain;
    MakesWellFormed(p.tree, made, link);
    MakesKeeps(p.tree, made, link);
    KeepsOn(tree, p.tree, made);
    MakesSettled(p.tree, made, link);
    TargetStays(p.tree, made, link);
    KeysStay(p.tree, made);
    forall l | l in rest + [link] ensures l in p.pending || (Settled(made, l) && l.target in made) {
      if l in rest && l !in p.pending { SettledStays(p.tree, made, l); }
    }
  }

  lemma KeepsItself(tree: Tree)
    ensures Keeps(tree, tree)
  {}

  lemma WithinItself(tree: Tree)
    ensures Within(tree, [], tree)
  {}

  lemma DirectIsPlain(tree: Tree, p: Path)
    requires Direct(tree, p)
    ensures AllPlain(p)
  {}

  lemma TargetStays(tree: Tree, made: Tree, l: Link)
    requires Makes(tree, made, l)
    ensures l.target in made
  {}

  lemma KeysStay(tree: Tree, later: Tree)
    requires Keeps(tree, later)
    ensures tree.Keys <= later.Keys
  {}

  lemma StaysDirect(tree: Tree, later: Tree, links: seq<Link>, pending: seq<Link>)
    requires AllDirect(tree, links) && WellFormed(later) && Keeps(tree, later) && forall l | l in pending :: l in links
    ensures AllDirect(later, pending)
  {
    hide WellFormed, Direct, Keeps;
    forall l | l in pending ensures Direct(later, l.name) && Direct(later, l.target) {
      KeepsDirect(tree, later, l.name);
      KeepsDirect(tree, later, l.target);
    }
  }

  lemma {:induction false} PassFailsTruly(limit: nat, tree: Tree, links: seq<Link>)
    requires AllDirect(tree, links)
    ensures Passed(limit, tree, links).Failed? ==> Passed(limit, tree, links).result != Done
    decreases |links|
  {
    hide LinkOne, WellFormed, Direct, Keeps;
    if links != [] {
      var rest, link := links[..|links| - 1], links[|links| - 1];
      assert links == rest + [link] && forall l | l in rest :: l in links;
      PassFailsTruly(limit, tree, rest);
      if Passed(limit, tree, rest).Pass? {
        PassKeeps(limit, tree, rest);
        var p := Passed(limit, tree, rest);
        KeepsDirect(tree, p.tree, link.name);
        KeepsDirect(tree, p.tree, link.target);
        LinksOne(limit, p.tree, link);
      }
    }
  }

  /** When it is done, every link is made in the end, from files that the links
      lead to. */
  lemma {:induction false} DoneMeansMade(limit: nat, tree: Tree, links: seq<Link>)
    requires AllDirect(tree, links) && Finished(limit, tree, links).1 == Done
    ensures var end := Finished(limit, tree, links).0;
      && WellFormed(end) && Keeps(tree, end) && (forall l | l in links :: Settled(end, l))
    ensures AllReachable(Regulars(tree), links)
    decreases |links|
  {
    hide Passed, WellFormed, Settled, Keeps, Within, Reachable;
    if links == [] {
      KeepsItself(tree);
      assert WellFormed(tree);
    } else {
      PassFailsTruly(limit, tree, links);
      var p := Passed(limit, tree, links);
      PassKeeps(limit, tree, links);
      PassShortens(limit, tree, links);
      StaysDirect(tree, p.tree, links, p.pending);
      DoneMeansMade(limit, p.tree, p.pending);
      var end := Finished(limit, p.tree, p.pending).0;
      KeepsOn(tree, p.tree, end);
      forall l | l in links ensures Settled(end, l) {
        if l !in p.pending { SettledStays(p.tree, end, l); }
      }
      forall l | l in links ensures Reachable(Regulars(tree), links, l.target) {
        ReachedFrom(limit, tree, links, l);
      }
    }
  }

  /** A set closed under all the links holds what a pass made, and is closed under
      those left. */
  lemma ReachedFrom(limit: nat, tree: Tree, links: seq<Link>, l: Link)
    requires AllDirect(tree, links) && Passed(limit, tree, links).Pass? && l in links
    requires var p := Passed(limit, tree, links); l in p.pending ==> Reachable(Regulars(p.tree), p.pending, l.target)
    ensures Reachable(Regulars(tree), links, l.target)
  {
    hide Passed, LinkOne, WellFormed, Direct, Settled, Keeps;
    var p := Passed(limit, tree, links);
    PassKeeps(limit, tree, links);
    if l !in p.pending { MadeFromFiles(limit, tree, links, l); }
    forall names: set<Path> | Regulars(tree) <= names && Closed(names, links) ensures l.target in names {
      assert Regulars(p.tree) <= names;
      assert Closed(names, p.pending);
    }
  }

  /** A link that was made was made from a regular file, which is still one. */
  lemma {:induction false} MadeFromFiles(limit: nat, tree: Tree, links: seq<Link>, l: Link)
    requires AllDirect(tree, links) && Passed(limit, tree, links).Pass? && l in links && l !in Passed(limit, tree, links).pending
    ensures var t := Passed(limit, tree, links).tree; l.target in Regulars(t) && l.name in Regulars(t)
    decreases |links|
  {
    hide LinkOne, WellFormed, Direct, Settled, Keeps, Within;
    var rest, link := links[..|links| - 1], links[|links| - 1];
    assert links == rest + [link] && forall l | l in rest :: l in links;
    PassKeeps(limit, tree, rest);
    var p := Passed(limit, tree, rest);
    KeepsDirect(tree, p.tree, link.name);
    KeepsDirect(tree, p.tree, link.target);
    LinksOne(limit, p.tree, link);
    if l in rest && l !in p.pending { MadeFromFiles(limit, tree, rest, l); }
  }

  lemma SettledFits(tree: Tree, end: Tree, links: seq<Link>)
    requires WellFormed(tree) && WellFormed(end) && Keeps(tree, end) && forall l | l in links :: Settled(end, l)
    ensures Fitting(tree, links)
  {
    hide WellFormed;
    forall l | l in links ensures Fits(tree, l) {
      forall k | 0 <= k < |l.name| && l.name[..k] in tree ensures tree[l.name[..k]].Dir? {}
      if l.name in tree && tree[l.name].Dir? {
        forall q | q in tree ensures !(l.name < q) {}
      }
    }
    forall l, m | l in links && m in links ensures !(l.name < m.name) {
      assert |l.name| < |m.name| && m.name[..|l.name|] != l.name ==> !(l.name < m.name);
    }
  }

  // ---- and that is enough ----

  predicate NameOf(links: seq<Link>, x: Path) { exists l :: l in links && l.name == x }

  /** What a link in the list may rely on while the others are made. */
  predicate Ready(tree: Tree, links: seq<Link>) {
    && Plainly(tree, links) && Fitting(tree, links)
    && forall l | l in links :: l.target in tree || NameOf(links, l.target)
  }

  lemma ReachableIsNamed(tree: Tree, links: seq<Link>)
    requires Plainly(tree, links) && Fitting(tree, links) && AllReachable(Regulars(tree), links)
    ensures Ready(tree, links)
  {
    forall l | l in links ensures l.target in tree || NameOf(links, l.target) {
      var names := Regulars(tree) + set m | m in links :: m.name;
      assert Closed(names, links);
      assert Reachable(Regulars(tree), links, l.target);
    }
  }

  lemma TargetsWay(tree: Tree, links: seq<Link>, l: Link)
    requires Ready(tree, links) && l in links
    ensures FreeWay(tree, l.target)
  {
    if l.target in tree {
      WayAbove(tree, l.target);
    } else {
      var m :| m in links && m.name == l.target;
      assert Fits(tree, m);
    }
  }

  /** Making one link leaves the others theirs. */
  lemma MakesReady(tree: Tree, made: Tree, links: seq<Link>, l: Link)
    requires Ready(tree, links) && l in links && Makes(tree, made, l)
    ensures Ready(made, links)
  {
    hide Empty, FreeWay, Direct, NameOf, Keeps, WellFormed;
    DirectIsPlain(tree, l.name);
    MakesWellFormed(tree, made, l);
    MakesKeeps(tree, made, l);
    KeysStay(tree, made);
    forall m | m in links
      ensures Fits(made, m) && Direct(made, m.name) && Direct(made, m.target) && (m.target in made ==> made[m.target].Regular?)
    {
      KeepsDirect(tree, made, m.name);
      KeepsDirect(tree, made, m.target);
      assert Fits(tree, m);
      StillFits(tree, made, l, m);
      if m.target in made { StillRegular(tree, made, links, l, m); }
    }
  }

  lemma StillFits(tree: Tree, made: Tree, l: Link, m: Link)
    requires Makes(tree, made, l) && Fits(tree, m) && !(l.name < m.name) && !(m.name < l.name)
    ensures Fits(made, m)
  {
    forall k | 0 <= k < |m.name| && m.name[..k] in made ensures made[m.name[..k]].Dir? {
      var q := m.name[..k];
      assert q < m.name;
    }
    if m.name in made && made[m.name].Dir? {
      assert m.name in tree;
      forall q | q in made ensures !(m.name < q) {}
    }
  }

  lemma StillRegular(tree: Tree, made: Tree, links: seq<Link>, l: Link, m: Link)
    requires Ready(tree, links) && l in links && m in links && Makes(tree, made, l) && m.target in made
    ensures made[m.target].Regular?
  {
    hide WellFormed, Direct, Fits;
    if m.target !in tree {
      var n :| n in links && n.name == m.target;
      assert !(n.name < l.name);
    }
  }

  lemma {:induction false} ReadyPasses(limit: nat, tree: Tree, links: seq<Link>, all: seq<Link>)
    requires Ready(tree, all) && forall l | l in links :: l in all
    ensures var p := Passed(limit, tree, links); p.Pass? && Ready(p.tree, all)
    decreases |links|
  {
    hide LinkOne, Ready, Makes;
    if links != [] {
      var rest, link := links[..|links| - 1], links[|links| - 1];
      assert links == rest + [link] && forall l | l in rest :: l in links;
      ReadyPasses(limit, tree, rest, all);
      var t := Passed(limit, tree, rest).tree;
      ReadyLinks(limit, t, all, link);
      if LinkOne(limit, t, link).Made? { MakesReady(t, LinkOne(limit, t, link).tree, all, link); }
    }
  }

  lemma ReadyLinks(limit: nat, tree: Tree, links: seq<Link>, l: Link)
    requires Ready(tree, links) && l in links
    ensures LinkOne(limit, tree, l).Waits? || (LinkOne(limit, tree, l).Made? && Makes(tree, LinkOne(limit, tree, l).tree, l))
  {
    hide LinkOne, Makes, Direct, WellFormed, FreeWay, Fits, NameOf;
    LinksOne(limit, tree, l);
    TargetsWay(tree, links, l);
  }

  lemma ReadyIsDirect(tree: Tree, links: seq<Link>, all: seq<Link>)
    requires Ready(tree, all) && forall l | l in links :: l in all
    ensures AllDirect(tree, links)
  {}

  /** A pass changes nothing about what can be reached. */
  lemma PassReaches(limit: nat, tree: Tree, links: seq<Link>, name: Path)
    requires AllDirect(tree, links) && Passed(limit, tree, links).Pass? && Reachable(Regulars(tree), links, name)
    requires Regulars(tree) <= Regulars(Passed(limit, tree, links).tree)
    ensures var p := Passed(limit, tree, links); Reachable(Regulars(p.tree), p.pending, name)
  {
    hide Passed, LinkOne, WellFormed, Direct, Settled, Keeps;
    var p := Passed(limit, tree, links);
    forall names: set<Path> | Regulars(p.tree) <= names && Closed(names, p.pending) ensures name in names {
      forall l | l in links && l.target in names ensures l.name in names {
        if l !in p.pending { MadeFromFiles(limit, tree, links, l); }
      }
      assert Closed(names, links);
    }
  }

  lemma {:induction false} RegularsStay(limit: nat, tree: Tree, links: seq<Link>)
    requires AllDirect(tree, links) && Passed(limit, tree, links).Pass?
    ensures Regulars(tree) <= Regulars(Passed(limit, tree, links).tree)
    decreases |links|
  {
    hide LinkOne, WellFormed, Direct, Settled, Keeps, Within;
    if links != [] {
      var rest, link := links[..|links| - 1], links[|links| - 1];
      assert links == rest + [link] && forall l | l in rest :: l in links;
      RegularsStay(limit, tree, rest);
      PassKeeps(limit, tree, rest);
      var p := Passed(limit, tree, rest);
      KeepsDirect(tree, p.tree, link.name);
      KeepsDirect(tree, p.tree, link.target);
      LinksOne(limit, p.tree, link);
    }
  }

  lemma {:induction false} ReadyFinishes(limit: nat, tree: Tree, links: seq<Link>, all: seq<Link>)
    requires Ready(tree, all) && (forall l | l in links :: l in all) && AllReachable(Regulars(tree), links)
    ensures Finished(limit, tree, links).1 == Done
    decreases |links|
  {
    hide Passed, Ready, Reachable, Keeps, WellFormed, Direct, Settled;
    if links != [] {
      var p := Passed(limit, tree, links);
      ReadyPasses(limit, tree, links, all);
      ReadyIsDirect(tree, links, all);
      PassKeeps(limit, tree, links);
      PassShortens(limit, tree, links);
      RegularsStay(limit, tree, links);
      forall l | l in p.pending ensures Reachable(Regulars(p.tree), p.pending, l.target) {
        PassReaches(limit, tree, links, l.target);
      }
      if p.progress {
        ReadyFinishes(limit, p.tree, p.pending, all);
      } else {
        NothingReached(tree, links);
      }
    }
  }

  lemma NothingReached(tree: Tree, links: seq<Link>)
    requires links != [] && forall l | l in links :: l.target !in tree
    ensures !Reachable(Regulars(tree), links, links[0].target)
  {
    assert Closed(Regulars(tree), links);
    assert links[0] in links;
  }

  /** On a tree whose targets are regular where they are there, with no symlink
      above names and targets, all links are made exactly when nothing is in any
      link's way, the links' own names included, and every target can be reached
      from the files through the links, whatever their order. */
  lemma FinishesExactly(limit: nat, tree: Tree, links: seq<Link>)
    requires Plainly(tree, links)
    ensures Finished(limit, tree, links).1 == Done <==> Fitting(tree, links) && AllReachable(Regulars(tree), links)
  {
    hide Finished, Reachable, Fitting, WellFormed, Direct, Settled, Keeps;
    if Finished(limit, tree, links).1 == Done {
      DoneMeansMade(limit, tree, links);
      SettledFits(tree, Finished(limit, tree, links).0, links);
    }
    if Fitting(tree, links) && AllReachable(Regulars(tree), links) {
      ReachableIsNamed(tree, links);
      ReadyFinishes(limit, tree, links, links);
    }
  }

  // ---- what the links are in the end ----

  predicate Unique(links: seq<Link>) {
    forall i, j | 0 <= i < j < |links| :: links[i].name != links[j].name
  }

  /** Every name is made by one link, and none was there before. */
  predicate Fresh(tree: Tree, links: seq<Link>) {
    Unique(links) && forall l | l in links :: l.name !in tree
  }

  predicate Extends(tree: Tree, more: Tree) {
    forall x | x in tree :: x in more && more[x] == tree[x]
  }

  /** The link is the same file as its target. */
  predicate SameFile(tree: Tree, l: Link) {
    l.name in tree && l.target in tree && tree[l.name].Regular? && tree[l.name] == tree[l.target]
  }

  predicate Exact(tree: Tree, links: seq<Link>, made: Tree, pending: seq<Link>) {
    && Extends(tree, made) && Fresh(made, pending)
    && (forall l | l in pending :: l in links)
    && (forall l | l in links :: l in pending || SameFile(made, l))
    && (forall x | x in made && x !in tree && !made[x].Dir? :: NameOf(links, x))
  }

  lemma MoreNames(rest: seq<Link>, link: Link)
    ensures forall x | NameOf(rest, x) :: NameOf(rest + [link], x)
    ensures NameOf(rest + [link], link.name)
  {
    forall x | NameOf(rest, x) ensures NameOf(rest + [link], x) {
      var l :| l in rest && l.name == x;
      assert l in rest + [link];
    }
    assert link in rest + [link];
  }

  /** One link more, left pending. */
  lemma ExactPending(tree: Tree, rest: seq<Link>, link: Link, made: Tree, pending: seq<Link>)
    requires Exact(tree, rest, made, pending) && link.name !in made && !NameOf(rest, link.name)
    ensures Exact(tree, rest + [link], made, pending + [link])
  {
    hide NameOf, SameFile;
    MoreNames(rest, link);
    forall l | l in pending ensures l.name != link.name { NamedIn(rest, l); }
    assert Unique(pending + [link]) by {
      forall i, j | 0 <= i < j < |pending + [link]| ensures (pending + [link])[i].name != (pending + [link])[j].name {
        assert (pending + [link])[i] == pending[i];
        if j == |pending| { assert pending[i] in pending; }
      }
    }
  }

  lemma NamedIn(links: seq<Link>, l: Link)
    requires l in links
    ensures NameOf(links, l.name)
  {}

  /** One link more, made. */
  lemma ExactMade(tree: Tree, rest: seq<Link>, link: Link, made: Tree, pending: seq<Link>, later: Tree)
    requires Exact(tree, rest, made, pending) && link.name !in made && !NameOf(rest, link.name) && Makes(made, later, link)
    requires forall l | l in pending :: !(l.name < link.name)
    ensures Exact(tree, rest + [link], later, pending)
  {
    hide NameOf;
    MoreNames(rest, link);
    var links := rest + [link];
    forall l | l in pending ensures l.name !in later { NamedIn(rest, l); }
    forall l | l in links ensures l in pending || SameFile(later, l) {
      if l != link { assert l in rest; }
    }
  }

  lemma NewName(rest: seq<Link>, link: Link)
    requires Unique(rest + [link])
    ensures !NameOf(rest, link.name) && Unique(rest)
  {
    var links := rest + [link];
    forall l | l in rest ensures l.name != link.name {
      var i :| 0 <= i < |rest| && rest[i] == l;
      assert links[i] == l && links[|rest|] == link;
    }
    forall i, j | 0 <= i < j < |rest| ensures rest[i].name != rest[j].name {
      assert links[i] == rest[i] && links[j] == rest[j];
    }
  }

  /** A fresh name is made by its own link alone. */
  lemma NotYetMade(tree: Tree, rest: seq<Link>, link: Link, made: Tree, pending: seq<Link>, all: seq<Link>)
    requires Exact(tree, rest, made, pending) && link.name !in tree && !NameOf(rest, link.name)
    requires Ready(tree, all) && Ready(made, all) && link in all && MadeAbove(tree, made, all)
    ensures link.name !in made
  {
    assert !exists m :: m in all && link.name < m.name;
  }

  /** Directories that came are above names. */
  predicate MadeAbove(tree: Tree, made: Tree, all: seq<Link>) {
    forall x | x in made && x !in tree && made[x].Dir? :: exists m :: m in all && x < m.name
  }

  lemma AboveOn(tree: Tree, made: Tree, later: Tree, all: seq<Link>, l: Link)
    requires MadeAbove(tree, made, all) && Makes(made, later, l) && l in all
    ensures MadeAbove(tree, later, all)
  {
    forall x | x in later && x !in tree && later[x].Dir? ensures exists m :: m in all && x < m.name {
      if x in made { assert made[x] == later[x]; } else { assert x < l.name; }
    }
  }

  lemma {:induction false} PassIsExact(limit: nat, tree: Tree, links: seq<Link>, all: seq<Link>)
    requires Ready(tree, all) && (forall l | l in links :: l in all) && Fresh(tree, links)
    ensures var p := Passed(limit, tree, links);
      p.Pass? && Exact(tree, links, p.tree, p.pending) && MadeAbove(tree, p.tree, all)
    decreases |links|
  {
    hide LinkOne, Ready, Makes, Exact, MadeAbove, NameOf;
    if links == [] {
      assert Exact(tree, [], tree, []) && MadeAbove(tree, tree, all) by { NothingYet(tree, all); }
    } else {
      var rest, link := links[..|links| - 1], links[|links| - 1];
      assert links == rest + [link] && link in links && forall l | l in rest :: l in links;
      NewName(rest, link);
      PassIsExact(limit, tree, rest, all);
      ReadyPasses(limit, tree, rest, all);
      var p := Passed(limit, tree, rest);
      NotYetMade(tree, rest, link, p.tree, p.pending, all);
      ReadyLinks(limit, p.tree, all, link);
      match LinkOne(limit, p.tree, link)
      case Waits => ExactPending(tree, rest, link, p.tree, p.pending);
      case Err(_, _) =>
      case Made(made) =>
        NoneAbove(p.tree, all, rest, p.pending, link, tree);
        ExactMade(tree, rest, link, p.tree, p.pending, made);
        AboveOn(tree, p.tree, made, all, link);
    }
  }

  lemma NothingYet(tree: Tree, all: seq<Link>)
    ensures Exact(tree, [], tree, []) && MadeAbove(tree, tree, all)
  {}

  lemma NoneAbove(made: Tree, all: seq<Link>, rest: seq<Link>, pending: seq<Link>, link: Link, tree: Tree)
    requires Ready(made, all) && link in all && (forall l | l in rest :: l in all) && Exact(tree, rest, made, pending)
    ensures forall l | l in pending :: !(l.name < link.name)
  {}

  /** When every name is new, each link ends up the same file as its target,
      whatever the order of the links, and what was there stays. */
  lemma {:induction false} LinksAreTheirTargets(limit: nat, tree: Tree, links: seq<Link>)
    requires Plainly(tree, links) && Fresh(tree, links) && Finished(limit, tree, links).1 == Done
    ensures var end := Finished(limit, tree, links).0; Extends(tree, end) && forall l | l in links :: SameFile(end, l)
  {
    hide Finished, Reachable, Fitting, WellFormed, Direct, Ready;
    FinishesExactly(limit, tree, links);
    ReachableIsNamed(tree, links);
    EndIsExact(limit, tree, links, links);
  }

  lemma {:induction false} EndIsExact(limit: nat, tree: Tree, links: seq<Link>, all: seq<Link>)
    requires Ready(tree, all) && (forall l | l in links :: l in all) && Fresh(tree, links) && Finished(limit, tree, links).1 == Done
    ensures var end := Finished(limit, tree, links).0; Extends(tree, end) && forall l | l in links :: SameFile(end, l)
    decreases |links|
  {
    hide Passed, Ready, MadeAbove;
    if links != [] {
      var p := Passed(limit, tree, links);
      PassIsExact(limit, tree, links, all);
      ReadyPasses(limit, tree, links, all);
      PassShortens(limit, tree, links);
      EndIsExact(limit, p.tree, p.pending, all);
    }
  }

  // ---- names above names, and symlinks ----

  const X_FILE: Tree := map[[] := Dir, ["x"] := Regular(0)]
  const INSIDE := [Link(["a"], ["x"]), Link(["a", "b"], ["x"])]
  const AROUND := [Link(["a", "b"], ["x"]), Link(["a"], ["x"])]

  /** All targets are there, and yet not both links can be made, in neither
      order: one's name is above the other's. */
  lemma NamesAboveNames(limit: nat)
    ensures Plainly(X_FILE, INSIDE) && AllReachable(Regulars(X_FILE), INSIDE) && Finished(limit, X_FILE, INSIDE).1 != Done
    ensures Plainly(X_FILE, AROUND) && AllReachable(Regulars(X_FILE), AROUND) && Finished(limit, X_FILE, AROUND).1 != Done
  {
    hide Finished, Plainly, Fitting, AllReachable;
    assert INSIDE[0] in INSIDE && INSIDE[1] in INSIDE && AROUND[0] in AROUND && AROUND[1] in AROUND;
    OneAboveOther(INSIDE);
    OneAboveOther(AROUND);
    FinishesExactly(limit, X_FILE, INSIDE);
    FinishesExactly(limit, X_FILE, AROUND);
  }

  lemma OneAboveOther(links: seq<Link>)
    requires |links| == 2 && INSIDE[0] in links && INSIDE[1] in links && forall l | l in links :: l in INSIDE
    ensures Plainly(X_FILE, links) && AllReachable(Regulars(X_FILE), links) && !Fitting(X_FILE, links)
  {
    var x := X_FILE;
    assert ["x"][..0] == [];
    forall p: Path | p in {["x"], ["a"], ["a", "b"]} ensures Direct(x, p) {
      forall k | 0 <= k < |p| && p[..k] in x ensures !x[p[..k]].Symlink? {}
    }
    assert ["x"] in Regulars(x);
    assert INSIDE[0].name < INSIDE[1].name;
  }

  const WITH_SYMLINK: Tree := map[[] := Dir, ["x"] := Regular(0), ["d"] := Dir, ["l"] := Symlink(false, ["d"])]
  const FIRST := Link(["d", "a"], ["x"])
  const SECOND := Link(["y"], ["l", "a"])

  /** Through a symlink a target can be met under a name that no link has. */
  lemma ThroughSymlink()
    ensures Finished(1, WITH_SYMLINK, [FIRST, SECOND]).1 == Done
    ensures !AllReachable(Regulars(WITH_SYMLINK), [FIRST, SECOND])
  {
    hide Finished, Passed, LinkOne;
    var t0 := WITH_SYMLINK;
    var t1 := t0[["d", "a"] := Regular(0)];
    var t2 := t1[["y"] := Regular(0)];
    assert LinkOne(1, t0, FIRST) == Made(t1) by { FirstIsMade(); }
    assert LinkOne(1, t1, SECOND) == Made(t2) by { SecondIsMade(); }
    var links := [FIRST, SECOND];
    assert links[..1] == [FIRST] && links[..0] == [] && links[..2] == links;
    PassedNone(1, t0);
    PassedOne(1, t0, links, 0);
    PassedOne(1, t0, links, 1);
    FinishesAtOnce(1, t0, links);
    assert SECOND in links;
    assert !Reachable(Regulars(t0), links, ["l", "a"]) by { NotNamed(); }
  }

  lemma FinishesAtOnce(limit: nat, tree: Tree, links: seq<Link>)
    requires links != []
    requires var p := Passed(limit, tree, links); p.Pass? && p.pending == [] && p.progress
    ensures Finished(limit, tree, links).1 == Done
  {}

  lemma NotNamed()
    ensures !Reachable(Regulars(WITH_SYMLINK), [FIRST, SECOND], ["l", "a"])
  {
    var names: set<Path> := {["x"], ["d", "a"]};
    assert Regulars(WITH_SYMLINK) <= names;
    assert Closed(names, [FIRST, SECOND]);
    assert ["l", "a"] !in names;
  }

  lemma FirstIsMade()
    ensures LinkOne(1, WITH_SYMLINK, FIRST) == Made(WITH_SYMLINK[["d", "a"] := Regular(0)])
  {
    var t := WITH_SYMLINK;
    assert Walk(1, t, [], ["x"], false) == Spot(t, ["x"]) by { assert ["x"][1..] == [] && [] + ["x"] == ["x"]; }
    assert Walk(1, t, [], ["d", "a"], true) == Spot(t, ["d", "a"]) by { DownTo(t, 1, "d", "a", true); }
    assert t - {["d", "a"]} == t;
  }

  lemma DownTo(t: Tree, limit: nat, c: string, e: string, make: bool)
    requires Plain(c) && Plain(e) && [c] in t && t[[c]].Dir?
    ensures Walk(limit, t, [], [c, e], make) == Spot(t, [c, e])
  {
    assert [c, e][1..] == [e] && [] + [c] == [c] && [c] + [e] == [c, e] && [e][1..] == [];
    assert Walk(limit, t, [c], [e], make) == Spot(t, [c, e]);
  }

  lemma SecondIsMade()
    ensures var t := WITH_SYMLINK[["d", "a"] := Regular(0)]; LinkOne(1, t, SECOND) == Made(t[["y"] := Regular(0)])
  {
    var t := WITH_SYMLINK[["d", "a"] := Regular(0)];
    assert Walk(1, t, [], ["l", "a"], false) == Spot(t, ["d", "a"]) by {
      assert ["l", "a"][1..] == ["a"] && [] + ["l"] == ["l"] && ["d"] + ["a"] == ["d", "a"];
      DownTo(t, 0, "d", "a", false);
    }
    assert Walk(1, t, [], ["y"], true) == Spot(t, ["y"]) by { assert ["y"][1..] == [] && [] + ["y"] == ["y"]; }
    assert t - {["y"]} == t;
  }
}
