/** Dotted keys and the documents they patch, told on the text of the keys. */
module StructuredText {
  import opened Text
  import opened Structured

  /** Names a dotted key can be made of. */
  predicate Dotless(q: Path) { q != [] && forall name | name in q :: '.' !in name }

  lemma {:induction false} JoinConcat(a: Path, b: Path)
    requires a != [] && b != []
    ensures Join(a + b, '.') == Join(a, '.') + "." + Join(b, '.')
    decreases |a|
  {
    if |a| == 1 {
      assert (a + b)[1..] == b;
    } else {
      assert (a + b)[1..] == a[1..] + b;
      JoinConcat(a[1..], b);
      assert a[0] + "." + (Join(a[1..], '.') + "." + Join(b, '.')) == (a[0] + "." + Join(a[1..], '.')) + "." + Join(b, '.');
    }
  }

  lemma {:induction false} SplitConcat(q: Path, rest: string)
    requires Dotless(q)
    ensures Split(Join(q, '.') + "." + rest, '.') == q + Split(rest, '.')
    decreases |q|
  {
    hide Split;
    assert q[0] in q;
    if |q| == 1 {
      SplitFirst(q[0], '.', rest);
      assert q == [q[0]];
    } else {
      forall name | name in q[1..] ensures '.' !in name { assert name in q; }
      SplitConcat(q[1..], rest);
      var more := Join(q[1..], '.') + "." + rest;
      assert Join(q, '.') + "." + rest == q[0] + "." + more;
      SplitFirst(q[0], '.', more);
      assert q + Split(rest, '.') == [q[0]] + (q[1..] + Split(rest, '.'));
    }
  }

  /** A key's path is its names; no other key has that path. */
  lemma KeyOfNames(q: Path, key: string)
    requires Dotless(q)
    ensures PathOf(key) == q <==> key == Join(q, '.')
  {
    hide Split, Join;
    SplitJoin(q, '.');
    JoinSplit(key, '.');
  }

  /** A key goes on below a path when its text goes on after a dot. */
  lemma GoesOnBelow(q: Path, key: string)
    requires Dotless(q)
    ensures Above(q, PathOf(key)) <==> Join(q, '.') + "." <= key
  {
    hide Split, Join;
    var head, p := Join(q, '.') + ".", PathOf(key);
    if Above(q, p) {
      JoinSplit(key, '.');
      var more := p[|q|..];
      assert p == q + more;
      JoinConcat(q, more);
    }
    if head <= key {
      var rest := key[|head|..];
      assert key == head + rest;
      SplitConcat(q, rest);
    }
  }

  /** A key ends above a path when it is the first of its names, joined. */
  lemma EndsAbove(q: Path, key: string)
    requires Dotless(q)
    ensures Above(PathOf(key), q) <==> exists n | 0 < n < |q| :: key == Join(q[..n], '.')
  {
    hide Split, Join;
    JoinSplit(key, '.');
    if Above(PathOf(key), q) { assert PathOf(key) == q[..|PathOf(key)|]; }
    forall n | 0 < n < |q| && key == Join(q[..n], '.') ensures Above(PathOf(key), q) {
      forall name | name in q[..n] ensures '.' !in name { assert name in q; }
      SplitJoin(q[..n], '.');
    }
  }

  /** What a patched document holds under names: an object if some key's text goes
      on after these; the value of the key these make; nothing if a key is made of
      the first of these; and else what it held. */
  lemma PatchedUnder<V>(doc: Doc<V>, vals: map<string, V>, q: Path)
    requires Dotless(q)
    ensures var key := Join(q, '.');
      At(Render(doc, vals), q) ==
        if exists k | k in vals :: key + "." <= k then Object
        else if key in vals then Scalar(vals[key])
        else if exists k, n | k in vals && 0 < n < |q| :: k == Join(q[..n], '.') then Nothing
        else At(doc, q)
  {
    hide Render, Split, Join, Above, PathOf, At;
    RenderPatches(doc, vals, q);
    var key := Join(q, '.');
    forall k ensures PathOf(k) == q <==> k == key { KeyOfNames(q, k); }
    forall k ensures Above(q, PathOf(k)) <==> key + "." <= k { GoesOnBelow(q, k); }
    forall k ensures Above(PathOf(k), q) <==> exists n | 0 < n < |q| :: k == Join(q[..n], '.') { EndsAbove(q, k); }
    assert KeyBeneath(vals, q) <==> exists k | k in vals :: key + "." <= k;
    assert KeyAbove(vals, q) <==> exists k, n | k in vals && 0 < n < |q| :: k == Join(q[..n], '.');
  }
}
