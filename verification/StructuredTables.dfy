/** Nested documents as the config patcher holds them: tables that lead to other
    tables, changed in place (internal/configfile/configfile.go, setNested and the
    key loop of applyStructured). */
module StructuredTables {
  import opened Text
  import opened Structured

  datatype Entry<V> = Held(value: V) | Sub(table: Table<V>)

  /** A table, and all the tables it leads to: a tree, none shared. */
  class Table<V> {
    var fields: map<string, Entry<V>>
    ghost var repr: set<Table<V>>

    ghost predicate Valid()
      reads this, repr
      decreases repr
    {
      && this in repr
      && (forall k | k in fields && fields[k].Sub? ::
            var t := fields[k].table; t in repr && t.repr < repr && this !in t.repr && t.Valid())
      && (forall k, l | k in fields && l in fields && k != l && fields[k].Sub? && fields[l].Sub? ::
            fields[k].table.repr !! fields[l].table.repr)
    }

    /** The document the tables hold. */
    ghost function Document(): Doc<V>
      requires Valid()
      reads this, repr
      decreases repr
    {
      map k | k in fields ::
        match fields[k]
        case Held(v) => Leaf(v)
        case Sub(t) => assert t.Valid(); Obj(t.Document())
    }

    constructor ()
      ensures Valid() && fresh(repr) && fields == map[] && repr == {this} && Document() == map[]
    {
      fields := map[];
      repr := {this};
    }

    /** The value at a key of this table. */
    method SetHere(key: string, value: V)
      requires Valid()
      modifies this`fields
      ensures Valid() && Document() == old(Document())[key := Leaf(value)]
    {
      ghost var before := Document();
      fields := fields[key := Held(value)];
      forall k | k in fields && fields[k].Sub? ensures fields[k].table.Valid() {}
      assert Document() == before[key := Leaf(value)];
    }

    /** A table below, with all it owns. */
    ghost predicate Below(t: Table<V>)
      reads this, t, t.repr
    {
      this !in t.repr && t in t.repr && t.Valid()
    }

    /** What this table leads to is in order, if not all of it in repr yet. */
    ghost predicate Loose(key: string, next: Table<V>)
      requires key in fields && fields[key] == Sub(next)
      reads this, repr, next, next.repr
    {
      && this in repr && Below(next)
      && (forall k | k in fields && fields[k].Sub? && k != key ::
            var t := fields[k].table; t in repr && t.repr <= repr && Below(t) && t.repr !! next.repr)
      && (forall k, l | k in fields && l in fields && k != l && k != key && l != key && fields[k].Sub? && fields[l].Sub? ::
            fields[k].table.repr !! fields[l].table.repr)
    }

    /** What the tables hold but at one key. */
    ghost predicate Others(key: string, m: Doc<V>)
      requires key in fields && fields[key].Sub? && Loose(key, fields[key].table)
      reads this, repr, fields[key].table, fields[key].table.repr
    {
      && m.Keys + {key} == fields.Keys
      && forall k | k in fields && k != key ::
           m[k] == match fields[k] case Held(v) => Leaf(v) case Sub(t) => Obj(t.Document())
    }

    ghost method Adopt(key: string, next: Table<V>, m: Doc<V>)
      requires key in fields && fields[key] == Sub(next) && Loose(key, next) && Others(key, m)
      modifies this`repr
      ensures repr == old(repr) + next.repr && Valid()
      ensures Document() == m[key := Obj(old(next.Document()))]
    {
      repr := repr + next.repr;
    }

    /** The table at a key, put there in the place of anything else. */
    method Enter(key: string) returns (next: Table<V>)
      requires Valid()
      modifies this
      ensures Valid() && fresh(repr - old(repr)) && old(repr) <= repr
      ensures key in fields && fields[key] == Sub(next)
      ensures Document() == var m := old(Document()); m[key := if key in m && m[key].Obj? then m[key] else Obj(map[])]
    {
      ghost var before := Document();
      if key in fields && fields[key].Sub? {
        next := fields[key].table;
        assert Document() == before[key := before[key]];
      } else {
        next := NewBelow(key);
        assert Document() == before[key := Obj(map[])];
      }
    }

    /** The table put there is of no other's. */
    method PutNew(key: string, next: Table<V>)
      requires Valid() && (key in fields ==> fields[key].Held?)
      requires next.Valid() && next.repr == {next} && next !in repr && next.fields == map[]
      modifies this
      ensures Valid() && repr == old(repr) + {next} && fields == old(fields)[key := Sub(next)]
      ensures Document() == old(Document())[key := Obj(map[])]
    {
      ghost var before := Document();
      assert next.Document() == map[];
      fields := fields[key := Sub(next)];
      assert Loose(key, next) by {
        forall k | k in fields && fields[k].Sub? && k != key ensures Below(fields[k].table) && fields[k].table.repr !! next.repr {
          assert old(fields[k].table.Valid());
        }
      }
      assert Others(key, before);
      Adopt(key, next, before);
    }

    /** An empty table in the place of what is no table. */
    method NewBelow(key: string) returns (next: Table<V>)
      requires Valid() && (key in fields ==> fields[key].Held?)
      modifies this
      ensures Valid() && fresh(repr - old(repr)) && old(repr) <= repr
      ensures key in fields && fields[key] == Sub(next)
      ensures Document() == old(Document())[key := Obj(map[])]
    {
      hide Valid, Document;
      next := new Table<V>();
      PutNew(key, next);
    }

    /** setNested */
    method SetPath(path: Path, value: V)
      requires Valid() && path != []
      modifies repr
      ensures Valid() && fresh(repr - old(repr))
      ensures Document() == SetNested(old(Document()), path, value)
      decreases |path|, 0
    {
      ghost var m := Document();
      var key := path[0];
      if |path| == 1 {
        SetHere(key, value);
        return;
      }
      var next := Enter(key);
      ghost var entered := Document();
      assert entered[key] == Obj(next.Document());
      ghost var below := SetNested(next.Document(), path[1..], value);
      SetBelow(key, next, path[1..], value);
      assert entered[key := Obj(below)] == m[key := Obj(below)];
    }

    method SetBelow(key: string, next: Table<V>, path: Path, value: V)
      requires Valid() && path != [] && key in fields && fields[key] == Sub(next)
      modifies repr
      ensures Valid() && fresh(repr - old(repr))
      ensures Document() == old(Document())[key := Obj(SetNested(old(next.Document()), path, value))]
      decreases |path|, 1
    {
      ghost var before := Document();
      next.SetPath(path, value);
      forall k | k in fields && fields[k].Sub? && k != key
        ensures Below(fields[k].table) && fields[k].table.repr !! next.repr
        ensures fields[k].table.Document() == old(fields[k].table.Document())
      {
        assert old(fields[k].table.Valid()) && old(fields[k].table.repr) !! old(next.repr);
      }
      Adopt(key, next, before);
    }

    /** The loop of applyStructured over the keys, values coerced: the document is
        changed in place. */
    method ApplyKeys(vals: map<string, V>)
      requires Valid()
      modifies repr
      ensures Valid() && fresh(repr - old(repr))
      ensures Document() == Render(old(Document()), vals)
    {
      hide Valid, Document, SetAll, SetNested, StrictlySorted;
      var keys := Sorted(vals.Keys);
      ghost var paths, values, doc := PathsOf(keys), ValuesOf(vals), Document();
      KeysHaveValues(keys, vals);
      NoKeys(doc, values);
      for i := 0 to |keys|
        invariant Valid() && fresh(repr - old(repr))
        invariant forall p | p in paths[..i] :: p in values && p != []
        invariant Document() == SetAll(doc, paths[..i], values)
      {
        SetsOneMore(doc, paths, values, i);
        assert keys[i] in keys;
        SetPath(PathOf(keys[i]), vals[keys[i]]);
      }
      assert paths[..|keys|] == paths;
    }
  }
}
