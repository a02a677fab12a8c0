/** Flattening and inflating are inverse, and exactly when. */
module RoundTrips {
  import opened Basics
  import opened Paths
  import opened Flattening

  predicate LeadingDot(s: string) {
    |s| > 0 && s[0] == '.'
  }

  /** No name is a proper path prefix of another. */
  ghost predicate PrefixFree<V>(m: map<string, V>) {
    forall p, q :: p in m && q in m && p != q ==> !(Split(p) <= Split(q))
  }

  ghost predicate NoLeadingDots<V>(m: map<string, V>) {
    forall p :: p in m ==> !LeadingDot(p)
  }

  /** What a mapping must look like to survive: only an empty top-level key must not hold a mapping. */
  ghost predicate Restorable<V>(t: Mapping<V>) {
    DotFreeKeys(t) && NoEmptyPart(t) && ("" in t ==> t[""].Leaf?)
  }

  // ---------- Leaves ----------

  lemma {:induction false} LeavesArePrefixFree<V>(t: Mapping<V>, path: seq<string>, more: seq<string>)
    requires LeafAt(t, path).Some? && LeafAt(t, path + more).Some?
    ensures more == []
    decreases |path|
  {
    assert (path + more)[1..] == path[1..] + more;
    if t[path[0]].Node? {
      LeavesArePrefixFree(t[path[0]].children, path[1..], more);
    }
  }

  lemma LeafBelow<V>(t: Mapping<V>, key: string) returns (path: seq<string>)
    requires NoEmptyPart(t) && key in t && t[key].Node?
    ensures LeafAt(t, path).Some? && [key] <= path
  {
    var rest := HasLeaf(t[key].children);
    path := [key] + rest;
    assert path[1..] == rest;
  }

  /** Storing a leaf adds exactly that leaf, if no leaf is above it and nothing is below it. */
  lemma {:induction false} PutAddsLeaf<V>(t: Mapping<V>, parts: seq<string>, v: V)
    requires |parts| >= 1 && NoEmptyPart(t)
    requires forall path :: LeafAt(t, path).Some? ==> !(path <= parts) && !(parts <= path)
    ensures var r := Put(t, parts, v);
            r.Some? && NoEmptyPart(r.value)
            && forall path :: LeafAt(r.value, path) == if path == parts then Some(v) else LeafAt(t, path)
    decreases |parts|
  {
    var key := parts[0];
    if |parts| == 1 {
      assert parts == [key];
      if key in t && t[key].Node? {
        var path := LeafBelow(t, key);
        assert false;
      }
      forall path ensures LeafAt(t[key := Leaf(v)], path) == if path == parts then Some(v) else LeafAt(t, path) {
        if |path| >= 1 && path[0] == key {
          assert |path| == 1 ==> path == parts;
        }
      }
    } else {
      assert [key] <= parts;
      assert key in t && t[key].Leaf? ==> LeafAt(t, [key]).Some?;
      var child := Child(t, key).value;
      forall path | LeafAt(child, path).Some? ensures !(path <= parts[1..]) && !(parts[1..] <= path) {
        assert ([key] + path)[1..] == path;
        assert LeafAt(t, [key] + path).Some?;
        assert path <= parts[1..] ==> [key] + path <= parts;
        assert parts[1..] <= path ==> parts <= [key] + path;
      }
      PutAddsLeaf(child, parts[1..], v);
      var below := Put(child, parts[1..], v).value;
      assert below != map[] by {
        assert LeafAt(below, parts[1..]) == Some(v);
      }
      forall path
        ensures LeafAt(t[key := Node(below)], path) == if path == parts then Some(v) else LeafAt(t, path)
      {
        if |path| >= 1 && path[0] == key {
          assert path == parts <==> path[1..] == parts[1..] by {
            assert path == [key] + path[1..] && parts == [key] + parts[1..];
          }
          assert key in t ==> LeafAt(t, path) == LeafAt(child, path[1..]);
          assert key !in t ==> LeafAt(child, path[1..]) == None;
        }
      }
    }
  }

  /** Whatever is stored where, keys stay free of dots, parts stay non-empty, and no other leaf appears. */
  lemma {:induction false} PutStaysSound<V>(t: Mapping<V>, parts: seq<string>, v: V)
    requires |parts| >= 1 && AllDotFree(parts) && DotFreeKeys(t) && NoEmptyPart(t)
    requires Put(t, parts, v).Some?
    ensures var r := Put(t, parts, v).value;
            DotFreeKeys(r) && NoEmptyPart(r) && LeafAt(r, parts) == Some(v) && r != map[]
            && forall path :: LeafAt(r, path).Some? ==> path == parts || LeafAt(t, path) == LeafAt(r, path)
    decreases |parts|
  {
    var key := parts[0];
    var r := Put(t, parts, v).value;
    assert key in r;
    if |parts| == 1 {
      forall path | LeafAt(r, path).Some? ensures path == parts || LeafAt(t, path) == LeafAt(r, path) {
        if path[0] == key {
          assert path == parts;
        }
      }
    } else {
      var child := Child(t, key).value;
      PutStaysSound(child, parts[1..], v);
      var below := Put(child, parts[1..], v).value;
      forall path | LeafAt(r, path).Some? ensures path == parts || LeafAt(t, path) == LeafAt(r, path) {
        if path[0] == key {
          assert path == [key] + path[1..] && parts == [key] + parts[1..];
          assert LeafAt(below, path[1..]).Some?;
        }
      }
    }
  }

  // ---------- Inflating ----------

  /** The value a leaf path has in flat settings. */
  function At<V>(m: map<string, V>, path: seq<string>): Option<V> {
    if |path| >= 1 && AllDotFree(path) && Join(path) in m then Some(m[Join(path)]) else None
  }

  /** What inflation yields in any order, of any settings. */
  lemma {:induction false} InflateSound<V>(m: map<string, V>, order: seq<string>)
    requires Elements(order) <= m.Keys && InflateIn(m, order).Some?
    ensures var r := InflateIn(m, order).value;
            DotFreeKeys(r) && NoEmptyPart(r)
            && forall path :: LeafAt(r, path).Some? ==> LeafAt(r, path) == At(m, path)
    decreases |order|
  {
    if |order| > 0 {
      var last := order[|order| - 1];
      var front := order[..|order| - 1];
      assert last in Elements(order) && Elements(front) <= m.Keys;
      InflateSound(m, front);
      JoinSplit(last);
      PutStaysSound(InflateIn(m, front).value, Split(last), m[last]);
      SplitJoin(Split(last));
    }
  }

  /** Prefix-free settings inflate, in any order, to a mapping of exactly their leaves. */
  lemma {:induction false} InflateHoldsExactly<V>(m: map<string, V>, order: seq<string>)
    requires PrefixFree(m) && Distinct(order) && Elements(order) <= m.Keys
    ensures var r := InflateIn(m, order);
            r.Some? && NoEmptyPart(r.value)
            && forall path :: LeafAt(r.value, path) ==
                 if |path| >= 1 && AllDotFree(path) && Join(path) in order then At(m, path) else None
    decreases |order|
  {
    if |order| > 0 {
      var last := order[|order| - 1];
      var front := order[..|order| - 1];
      assert last in Elements(order) && Elements(front) <= m.Keys;
      assert order == front + [last];
      InflateHoldsExactly(m, front);
      var t := InflateIn(m, front).value;
      forall path | LeafAt(t, path).Some? ensures !(path <= Split(last)) && !(Split(last) <= path) {
        SplitJoin(path);
        assert Join(path) in front && Join(path) != last;
        assert Join(path) in m.Keys by {
          assert Join(path) in Elements(front);
        }
      }
      PutAddsLeaf(t, Split(last), m[last]);
      forall path
        ensures LeafAt(InflateIn(m, order).value, path) ==
                if |path| >= 1 && AllDotFree(path) && Join(path) in order then At(m, path) else None
      {
        JoinSplit(last);
        if |path| >= 1 && AllDotFree(path) {
          SplitJoin(path);
        }
      }
    }
  }

  // ---------- Names ----------

  lemma {:induction false} RenderFrom(prefix: string, path: seq<string>)
    requires prefix != ""
    ensures Render(prefix, path) == Join([prefix] + path)
    decreases |path|
  {
    if |path| > 0 {
      RenderFrom(prefix + "." + path[0], path[1..]);
      assert ([prefix] + path)[1..] == path;
      if |path| > 1 {
        assert ([prefix + "." + path[0]] + path[1..])[1..] == path[1..];
      }
    }
  }

  /** From the top a leaf is named by its joined path, unless the path runs through an empty top-level key. */
  lemma RenderJoins(path: seq<string>)
    requires |path| >= 1 && (path[0] == "" ==> |path| == 1)
    ensures Render("", path) == Join(path)
  {
    if path[0] != "" {
      RenderFrom(path[0], path[1..]);
      assert [path[0]] + path[1..] == path;
    } else {
      assert Render("", path[1..]) == "";
    }
  }

  lemma {:induction false} RenderHasNoLeadingDot(prefix: string, path: seq<string>)
    requires !LeadingDot(prefix) && AllDotFree(path)
    ensures !LeadingDot(Render(prefix, path))
    decreases |path|
  {
    if |path| > 0 {
      assert DotFree(path[0]);
      RenderHasNoLeadingDot(Extended(prefix, path[0]), path[1..]);
    }
  }

  lemma LeafNamesJoin<V>(t: Mapping<V>, path: seq<string>)
    requires Restorable(t) && LeafAt(t, path).Some?
    ensures |path| >= 1 && AllDotFree(path) && Render("", path) == Join(path) && !LeadingDot(Join(path))
  {
    LeafPathDotFree(t, path);
    RenderJoins(path);
    RenderHasNoLeadingDot("", path);
  }

  lemma FlatHoldsLeaf<V(!new)>(t: Mapping<V>, m: map<string, V>, name: string)
    requires Restorable(t) && FlatOf(t, "", m) && name in m
    ensures LeafAt(t, Split(name)) == Some(m[name]) && !LeadingDot(name)
  {
    assert Named(t, "", name, m[name]);
    var path :| LeafAt(t, path) == Some(m[name]) && Render("", path) == name;
    LeafNamesJoin(t, path);
    SplitJoin(path);
  }

  lemma FlatHoldsExactly<V(!new)>(t: Mapping<V>, m: map<string, V>, path: seq<string>)
    requires Restorable(t) && FlatOf(t, "", m)
    ensures LeafAt(t, path) == At(m, path)
  {
    if LeafAt(t, path).Some? {
      LeafNamesJoin(t, path);
      FlatHoldsLeaf(t, m, Join(path));
      SplitJoin(path);
    } else if At(m, path).Some? {
      FlatHoldsLeaf(t, m, Join(path));
      SplitJoin(path);
    }
  }

  lemma NoLeafBelowAnother<V>(t: Mapping<V>, p: string, q: string)
    requires LeafAt(t, Split(p)).Some? && LeafAt(t, Split(q)).Some? && Split(p) <= Split(q)
    ensures p == q
  {
    JoinSplit(p);
    JoinSplit(q);
    hide Split, Join, LeafAt;
    var long, short := Split(q), Split(p);
    var more := long[|short|..];
    assert long == short + more;
    LeavesArePrefixFree(t, short, more);
    assert long == short;
  }

  /** The flat settings of a restorable mapping hold its leaves, and are prefix-free. */
  lemma FlatOfRestorable<V(!new)>(t: Mapping<V>, m: map<string, V>)
    requires Restorable(t) && FlatOf(t, "", m)
    ensures forall path :: LeafAt(t, path) == At(m, path)
    ensures PrefixFree(m) && NoLeadingDots(m)
  {
    hide FlatOf, Restorable;
    forall path ensures LeafAt(t, path) == At(m, path) {
      FlatHoldsExactly(t, m, path);
    }
    forall name | name in m ensures LeafAt(t, Split(name)).Some? && !LeadingDot(name) {
      FlatHoldsLeaf(t, m, name);
    }
    forall p, q | p in m && q in m && p != q ensures !(Split(p) <= Split(q)) {
      if Split(p) <= Split(q) {
        NoLeafBelowAnother(t, p, q);
      }
    }
  }

  // ---------- The two round trips ----------

  /** Inflating what was flattened gives the mapping back, in any order, exactly when it is restorable. */
  lemma InflateUndoesFlatten<V(!new)>(t: Mapping<V>, m: map<string, V>, order: seq<string>)
    requires FlatOf(t, "", m) && Enumerates(order, m.Keys)
    ensures InflateIn(m, order) == Some(t) <==> Restorable(t)
  {
    if Restorable(t) {
      FlatOfRestorable(t, m);
      InflateHoldsExactly(m, order);
      var r := InflateIn(m, order).value;
      forall path ensures LeafAt(r, path) == LeafAt(t, path) {
        if |path| >= 1 && AllDotFree(path) {
          assert Join(path) in order <==> Join(path) in Elements(order);
        }
      }
      SameLeavesSameMapping(r, t);
    }
    if InflateIn(m, order) == Some(t) {
      InflateSound(m, order);
      if "" in t && t[""].Node? {
        var rest := HasLeaf(t[""].children);
        var path := [""] + rest;
        assert path[1..] == rest;
        var name := Join(path);
        assert LeafAt(t, path) == At(m, path);
        assert name in m && LeadingDot(name);
        assert Named(t, "", name, m[name]);
        var origin :| LeafAt(t, origin) == Some(m[name]) && Render("", origin) == name;
        LeafPathDotFree(t, origin);
        RenderHasNoLeadingDot("", origin);
      }
    }
  }

  /**
   Flattening what was inflated gives the settings back, in any order, exactly when they are
   prefix-free and no name begins with a dot.
   */
  lemma FlattenUndoesInflate<V(!new)>(m: map<string, V>, order: seq<string>)
    requires Enumerates(order, m.Keys)
    ensures InflateIn(m, order).Some? && FlatOf(InflateIn(m, order).value, "", m)
            <==> PrefixFree(m) && NoLeadingDots(m)
  {
    if PrefixFree(m) && NoLeadingDots(m) {
      InflateHoldsExactly(m, order);
      InflatedIsRestorable(m, order);
      FlatOfItsLeaves(InflateIn(m, order).value, m, order);
    }
    if InflateIn(m, order).Some? && FlatOf(InflateIn(m, order).value, "", m) {
      var r := InflateIn(m, order).value;
      InflateSound(m, order);
      InflateUndoesFlatten(r, m, order);
      FlatOfRestorable(r, m);
    }
  }

  lemma InflatedIsRestorable<V(!new)>(m: map<string, V>, order: seq<string>)
    requires Enumerates(order, m.Keys) && NoLeadingDots(m) && InflateIn(m, order).Some?
    ensures Restorable(InflateIn(m, order).value)
  {
    var r := InflateIn(m, order).value;
    InflateSound(m, order);
    if "" in r && r[""].Node? {
      var rest := HasLeaf(r[""].children);
      var path := [""] + rest;
      assert path[1..] == rest;
      assert LeafAt(r, path) == At(m, path);
      assert LeadingDot(Join(path));
    }
  }

  lemma FlatOfItsLeaves<V(!new)>(r: Mapping<V>, m: map<string, V>, order: seq<string>)
    requires Enumerates(order, m.Keys) && Restorable(r)
    requires forall path :: LeafAt(r, path) ==
               if |path| >= 1 && AllDotFree(path) && Join(path) in order then At(m, path) else None
    ensures FlatOf(r, "", m)
  {
    forall path | LeafAt(r, path).Some? ensures Render("", path) in m {
      LeafNamesJoin(r, path);
    }
    forall name | name in m ensures Named(r, "", name, m[name]) {
      JoinSplit(name);
      assert name in Elements(order);
      LeafNamesJoin(r, Split(name));
    }
  }

  /** Flattening a restorable mapping leaves no choice: there is one result. */
  lemma FlatIsUnique<V(!new)>(t: Mapping<V>, m: map<string, V>, n: map<string, V>)
    requires Restorable(t) && FlatOf(t, "", m) && FlatOf(t, "", n)
    ensures m == n
  {
    FlatOfRestorable(t, m);
    FlatOfRestorable(t, n);
    forall name | name in m.Keys + n.Keys ensures name in m && name in n && m[name] == n[name] {
      JoinSplit(name);
      assert At(m, Split(name)) == At(n, Split(name));
    }
  }

  // ---------- Where they are not inverse ----------

  /** A setting and a longer one below it: one order raises, the other loses the longer one. */
  lemma ConflictDependsOnOrder<V>(v: V, w: V)
    ensures var m := map["a" := v, "a.b" := w];
            Elements(["a", "a.b"]) == m.Keys && InflateIn(m, ["a", "a.b"]) == None
            && Elements(["a.b", "a"]) == m.Keys && InflateIn(m, ["a.b", "a"]) == Some(map["a" := Leaf(v)])
  {
    var m := map["a" := v, "a.b" := w];
    SplitExample();
    TwoSteps(m, "a", "a.b");
    TwoSteps(m, "a.b", "a");
    assert ["a", "b"][1..] == ["b"];
    var below := map["b" := Leaf(w)];
    assert Put(map[], ["b"], w) == Some(below);
    assert Put(map[], ["a", "b"], w) == Some(map["a" := Node(below)]);
    assert map["a" := Node(below)]["a" := Leaf(v)] == map["a" := Leaf(v)];
  }

  lemma SplitExample()
    ensures Split("a") == ["a"] && Split("a.b") == ["a", "b"]
  {
    SplitJoin(["a"]);
    SplitJoin(["a", "b"]);
    assert Join(["a", "b"]) == "a" + "." + Join(["a", "b"][1..]) == "a.b";
  }

  lemma TwoSteps<V>(m: map<string, V>, first: string, second: string)
    requires first in m && second in m
    ensures Elements([first, second]) == {first, second}
    ensures InflateIn(m, [first, second]) ==
            var t := Put<V>(map[], Split(first), m[first]);
            if t.None? then None else Put(t.value, Split(second), m[second])
  {
    assert [first, second][..1] == [first] && [first][..0] == [];
    assert InflateIn(m, [first]) == Put<V>(map[], Split(first), m[first]);
  }
}
