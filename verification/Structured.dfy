/** Nested documents of the config patcher (internal/configfile/configfile.go,
    applyStructured and setNested): values set at dotted paths, in sorted order
    of the keys. */
module Structured {
  import opened Text

  datatype Node<V> = Leaf(value: V) | Obj(fields: map<string, Node<V>>)

  type Doc<V> = map<string, Node<V>>
  type Path = seq<string>

  /** setNested: objects on the way are entered, anything else on the way is
      replaced by one. */
  function SetNested<V>(m: Doc<V>, path: Path, value: V): Doc<V>
    requires path != []
    decreases |path|
  {
    if |path| == 1 then m[path[0] := Leaf(value)]
    else
      var next := if path[0] in m && m[path[0]].Obj? then m[path[0]].fields else map[];
      m[path[0] := Obj(SetNested(next, path[1..], value))]
  }

  /** What a document has at a path. */
  datatype Kind<V> = Nothing | Scalar(value: V) | Object

  function At<V>(m: Doc<V>, path: Path): Kind<V>
    decreases |path|
  {
    if path == [] then Object
    else if path[0] !in m then Nothing
    else
      match m[path[0]]
      case Leaf(value) => if |path| == 1 then Scalar(value) else Nothing
      case Obj(fields) => At(fields, path[1..])
  }

  /** p lies on the way to q. */
  predicate Above(p: Path, q: Path) { |p| < |q| && p <= q }

  /** After a value is set at p: the value there, nothing beneath it, objects
      above it, all else as before. */
  lemma {:induction false} AtAfterSet<V>(m: Doc<V>, p: Path, value: V, q: Path)
    requires p != []
    ensures At(SetNested(m, p, value), q) ==
      if q == p then Scalar(value)
      else if Above(q, p) then Object
      else if Above(p, q) then Nothing
      else At(m, q)
    decreases |p|
  {
    if q != [] && q[0] == p[0] && |p| > 1 {
      var next := if p[0] in m && m[p[0]].Obj? then m[p[0]].fields else map[];
      AtAfterSet(next, p[1..], value, q[1..]);
      assert p == [p[0]] + p[1..] && q == [q[0]] + q[1..];
      assert p <= q <==> p[1..] <= q[1..];
      assert q <= p <==> q[1..] <= p[1..];
    } else if q != [] && q[0] == p[0] {
      assert p == [p[0]] && (|q| == 1 ==> q == p);
    }
  }

  // ---- documents that read the same are the same ----

  lemma {:induction false} SameNode<V>(a: Node<V>, b: Node<V>, at: string)
    requires forall q: Path :: At(map[at := a], [at] + q) == At(map[at := b], [at] + q)
    ensures a == b
    decreases a
  {
    assert At(map[at := a], [at] + []) == At(map[at := b], [at] + []);
    assert [at] + [] == [at];
    ReadsNode(a, at);
    ReadsNode(b, at);
    if a.Obj? {
      var m, n := a.fields, b.fields;
      forall k: string ensures k in m <==> k in n {
        ReadsInside(a, at, [k]);
        ReadsInside(b, at, [k]);
        assert At(map[at := a], [at] + [k]) == At(map[at := b], [at] + [k]);
      }
      forall k | k in m ensures m[k] == n[k] {
        forall q: Path ensures At(map[k := m[k]], [k] + q) == At(map[k := n[k]], [k] + q) {
          ReadsInside(a, at, [k] + q);
          ReadsInside(b, at, [k] + q);
          assert At(map[at := a], [at] + ([k] + q)) == At(map[at := b], [at] + ([k] + q));
          OneField(m, k, q);
          OneField(n, k, q);
        }
        SameNode(m[k], n[k], k);
      }
      assert m.Keys == n.Keys;
    }
  }

  lemma ReadsNode<V>(a: Node<V>, at: string)
    ensures At(map[at := a], [at]) == if a.Leaf? then Scalar(a.value) else Object
  {
    assert [at][1..] == [];
    if a.Obj? { assert At(a.fields, []) == Object; }
  }

  lemma ReadsInside<V>(a: Node<V>, at: string, q: Path)
    requires a.Obj?
    ensures At(map[at := a], [at] + q) == At(a.fields, q)
  {
    assert ([at] + q)[1..] == q;
  }

  lemma OneField<V>(m: Doc<V>, k: string, q: Path)
    requires k in m
    ensures At(m, [k] + q) == At(map[k := m[k]], [k] + q)
  {}

  lemma SameDoc<V>(a: Doc<V>, b: Doc<V>)
    requires forall q: Path :: At(a, q) == At(b, q)
    ensures a == b
  {
    forall q: Path ensures At(map["" := Obj(a)], [""] + q) == At(map["" := Obj(b)], [""] + q) {
      ReadsInside(Obj(a), "", q);
      ReadsInside(Obj(b), "", q);
    }
    SameNode(Obj(a), Obj(b), "");
  }

  // ---- all the keys ----

  function SetAll<V>(m: Doc<V>, paths: seq<Path>, vals: map<Path, V>): Doc<V>
    requires forall p | p in paths :: p in vals && p != []
  {
    if paths == [] then m
    else
      var last := paths[|paths| - 1];
      SetNested(SetAll(m, paths[..|paths| - 1], vals), last, vals[last])
  }

  /** A path comes after every path above it, and once. */
  predicate TopDown(paths: seq<Path>) {
    forall i, j | 0 <= i < j < |paths| :: paths[i] != paths[j] && !Above(paths[j], paths[i])
  }

  /** What a document has at a path once the keys are set: an object above a key;
      the value at a key with none beneath it; nothing else beneath a key; and
      elsewhere what it had. */
  function Patched<V>(m: Doc<V>, paths: set<Path>, vals: map<Path, V>, q: Path): Kind<V>
    requires forall p | p in paths :: p in vals
  {
    if exists p | p in paths :: Above(q, p) then Object
    else if q in paths then Scalar(vals[q])
    else if exists p | p in paths :: Above(p, q) then Nothing
    else At(m, q)
  }

  function PathSet(paths: seq<Path>): set<Path> { set p | p in paths }

  lemma {:induction false} AtAfterAll<V>(m: Doc<V>, paths: seq<Path>, vals: map<Path, V>, q: Path)
    requires TopDown(paths) && forall p | p in paths :: p in vals && p != []
    ensures At(SetAll(m, paths, vals), q) == Patched(m, PathSet(paths), vals, q)
    decreases |paths|
  {
    if paths != [] {
      var rest, last := paths[..|paths| - 1], paths[|paths| - 1];
      AtAfterAll(m, rest, vals, q);
      AtAfterSet(SetAll(m, rest, vals), last, vals[last], q);
      assert PathSet(paths) == PathSet(rest) + {last};
      forall p | p in rest ensures p != last && !Above(last, p) {
        var i :| 0 <= i < |rest| && rest[i] == p;
        assert paths[i] == p;
      }
    }
  }

  /** Setting the same keys again changes nothing. */
  lemma SetAllTwice<V>(m: Doc<V>, paths: seq<Path>, vals: map<Path, V>)
    requires TopDown(paths) && forall p | p in paths :: p in vals && p != []
    ensures SetAll(SetAll(m, paths, vals), paths, vals) == SetAll(m, paths, vals)
  {
    var once := SetAll(m, paths, vals);
    forall q: Path ensures At(SetAll(once, paths, vals), q) == At(once, q) {
      AtAfterAll(once, paths, vals, q);
      AtAfterAll(m, paths, vals, q);
    }
    SameDoc(SetAll(once, paths, vals), once);
  }

  // ---- dotted keys in sorted order ----

  function PathOf(key: string): (p: Path)
    ensures p != []
  {
    Split(key, '.')
  }

  function PathsOf(keys: seq<string>): (paths: seq<Path>)
    ensures |paths| == |keys| && forall i | 0 <= i < |keys| :: paths[i] == PathOf(keys[i])
  {
    seq(|keys|, i requires 0 <= i < |keys| => PathOf(keys[i]))
  }

  function ValuesOf<V>(vals: map<string, V>): (m: map<Path, V>)
    ensures forall k | k in vals :: PathOf(k) in m && m[PathOf(k)] == vals[k]
    ensures forall p | p in m :: exists k :: k in vals && p == PathOf(k)
  {
    SplitIsUnique(vals.Keys);
    map k | k in vals :: PathOf(k) := vals[k]
  }

  lemma SplitIsUnique(keys: set<string>)
    ensures forall a, b | a in keys && b in keys && PathOf(a) == PathOf(b) :: a == b
  {
    forall a, b | a in keys && b in keys && PathOf(a) == PathOf(b) ensures a == b {
      JoinSplit(a, '.');
      JoinSplit(b, '.');
    }
  }

  lemma {:induction false} JoinIsPrefix(p: Path, q: Path)
    requires p != [] && p <= q
    ensures Join(p, '.') <= Join(q, '.')
    decreases |p|
  {
    if |p| == 1 {
      assert p[0] == q[0];
    } else {
      assert p[1..] <= q[1..] by { assert q[..|p|] == p; assert q[1..][..|p| - 1] == p[1..]; }
      JoinIsPrefix(p[1..], q[1..]);
    }
  }

  /** A key sorts before the keys beneath it. */
  lemma AboveIsBelow(a: string, b: string)
    requires Above(PathOf(a), PathOf(b))
    ensures Below(a, b)
  {
    JoinSplit(a, '.');
    JoinSplit(b, '.');
    JoinIsPrefix(PathOf(a), PathOf(b));
    PrefixIsBelow(a, b);
  }

  lemma SortedIsTopDown(keys: seq<string>)
    requires StrictlySorted(keys)
    ensures TopDown(PathsOf(keys))
  {
    var paths := PathsOf(keys);
    forall i, j | 0 <= i < j < |paths| ensures paths[i] != paths[j] && !Above(paths[j], paths[i]) {
      BelowIsTotal(keys[i], keys[j]);
      SplitIsUnique({keys[i], keys[j]});
      if Above(paths[j], paths[i]) { AboveIsBelow(keys[j], keys[i]); }
    }
  }

  /** The document applyStructured marshals. */
  function Render<V>(doc: Doc<V>, vals: map<string, V>): Doc<V> {
    var keys := Sorted(vals.Keys);
    assert forall p | p in PathsOf(keys) :: exists k :: k in vals && p == PathOf(k);
    SetAll(doc, PathsOf(keys), ValuesOf(vals))
  }

  lemma SetsOneMore<V>(doc: Doc<V>, paths: seq<Path>, values: map<Path, V>, i: nat)
    requires i < |paths| && forall p | p in paths :: p in values && p != []
    ensures paths[i] in values && paths[i] != []
    ensures forall p | p in paths[..i] :: p in values && p != []
    ensures forall p | p in paths[..i + 1] :: p in values && p != []
    ensures SetAll(doc, paths[..i + 1], values) == SetNested(SetAll(doc, paths[..i], values), paths[i], values[paths[i]])
  {
    assert paths[i] in paths;
    assert paths[..i + 1][..i] == paths[..i] && paths[..i + 1][i] == paths[i];
  }

  lemma KeysHaveValues<V>(keys: seq<string>, vals: map<string, V>)
    requires forall k | k in keys :: k in vals
    ensures forall p | p in PathsOf(keys) :: p in ValuesOf(vals) && p != []
  {
    forall p | p in PathsOf(keys) ensures p in ValuesOf(vals) && p != [] {
      var i :| 0 <= i < |keys| && PathsOf(keys)[i] == p;
      assert keys[i] in keys;
    }
  }

  lemma NoKeys<V>(doc: Doc<V>, values: map<Path, V>)
    ensures SetAll(doc, [], values) == doc
  {}

  /** A key goes on below this path; a key ends above it. */
  predicate KeyBeneath<V>(vals: map<string, V>, q: Path) { exists k | k in vals :: Above(q, PathOf(k)) }

  predicate KeyAbove<V>(vals: map<string, V>, q: Path) { exists k | k in vals :: Above(PathOf(k), q) }

  /** Whatever the document and the keys: above a key there is an object; a key
      with no longer one beneath it reads back its value; beneath a key there is
      nothing but what another key put there; and a path that has nothing to do
      with the keys reads as before. */
  lemma RenderPatches<V>(doc: Doc<V>, vals: map<string, V>, q: Path)
    ensures KeyBeneath(vals, q) ==> At(Render(doc, vals), q) == Object
    ensures !KeyBeneath(vals, q) ==> forall k | k in vals && PathOf(k) == q :: At(Render(doc, vals), q) == Scalar(vals[k])
    ensures !KeyBeneath(vals, q) && (forall k | k in vals :: PathOf(k) != q) && KeyAbove(vals, q) ==> At(Render(doc, vals), q) == Nothing
    ensures !KeyBeneath(vals, q) && (forall k | k in vals :: PathOf(k) != q) && !KeyAbove(vals, q) ==>
              At(Render(doc, vals), q) == At(doc, q)
  {
    hide SetAll, At, Above, TopDown, PathOf, StrictlySorted, SetNested, PathSet, KeyBeneath, KeyAbove;
    var keys := Sorted(vals.Keys);
    var paths := PathsOf(keys);
    SortedIsTopDown(keys);
    assert forall p | p in paths :: exists k :: k in vals && p == PathOf(k);
    AtAfterAll(doc, paths, ValuesOf(vals), q);
    PathsAreKeys(vals, keys);
    KeysAsPaths(vals, PathSet(paths), q);
  }

  lemma PathsAreKeys<V>(vals: map<string, V>, keys: seq<string>)
    requires forall k :: k in keys <==> k in vals
    ensures PathSet(PathsOf(keys)) == set k | k in vals :: PathOf(k)
  {
    hide PathOf;
    forall k | k in vals ensures PathOf(k) in PathSet(PathsOf(keys)) { KeyHasPath(vals, keys, k); }
    forall p | p in PathSet(PathsOf(keys)) ensures exists k :: k in vals && p == PathOf(k) {
      var i :| 0 <= i < |keys| && PathsOf(keys)[i] == p;
      assert keys[i] in keys;
    }
  }

  lemma KeysAsPaths<V>(vals: map<string, V>, paths: set<Path>, q: Path)
    requires paths == set k | k in vals :: PathOf(k)
    ensures KeyBeneath(vals, q) <==> exists p | p in paths :: Above(q, p)
    ensures KeyAbove(vals, q) <==> exists p | p in paths :: Above(p, q)
    ensures q in paths <==> exists k :: k in vals && PathOf(k) == q
  {
    hide PathOf, Above;
    forall k | k in vals ensures PathOf(k) in paths {}
  }

  lemma KeyHasPath<V>(vals: map<string, V>, keys: seq<string>, k: string)
    requires k in keys
    ensures PathOf(k) in PathSet(PathsOf(keys))
  {
    var i :| 0 <= i < |keys| && keys[i] == k;
    assert PathsOf(keys)[i] == PathOf(k);
  }

  /** A second start with the same values leaves the document as it is. */
  lemma RenderTwice<V>(doc: Doc<V>, vals: map<string, V>)
    ensures Render(Render(doc, vals), vals) == Render(doc, vals)
  {
    var keys := Sorted(vals.Keys);
    SortedIsTopDown(keys);
    assert forall p | p in PathsOf(keys) :: exists k :: k in vals && p == PathOf(k);
    SetAllTwice(doc, PathsOf(keys), ValuesOf(vals));
  }
}
