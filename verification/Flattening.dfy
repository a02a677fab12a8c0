/**
 Flattening nested mappings into dotted settings and inflating them again. Both loops visit
 their dictionary in an arbitrary order, and the results hold for every order.
 */
module Flattening {
  import opened Basics
  import opened Paths

  // ---------- Flattening ----------

  function Extended(prefix: string, key: string): string {
    if prefix == "" then key else prefix + "." + key
  }

  /** The name a leaf gets, built up key by key. */
  function Render(prefix: string, path: seq<string>): string
    decreases |path|
  {
    if |path| == 0 then prefix else Render(Extended(prefix, path[0]), path[1..])
  }

  /** Names and values of `m` are those of the leaves of `t`; equal names leave room for a choice. */
  ghost predicate FlatOf<V(!new)>(t: Mapping<V>, prefix: string, m: map<string, V>) {
    && (forall path :: LeafAt(t, path).Some? ==> Render(prefix, path) in m)
    && (forall name :: name in m ==> Named(t, prefix, name, m[name]))
  }

  ghost predicate Named<V(!new)>(t: Mapping<V>, prefix: string, name: string, v: V) {
    exists path :: LeafAt(t, path) == Some(v) && Render(prefix, path) == name
  }

  function Part<V>(t: Mapping<V>, keys: set<string>): Mapping<V> {
    map k | k in t && k in keys :: t[k]
  }

  method Flatten<V(!new)>(t: Mapping<V>, prefix: string) returns (m: map<string, V>)
    ensures FlatOf(t, prefix, m)
    decreases Node(t)
  {
    hide FlatOf, Part;
    m := map[];
    var todo := t.Keys;
    ghost var done := {};
    FlatOfNothing(t, prefix);
    while todo != {}
      invariant todo + done == t.Keys && todo * done == {}
      invariant FlatOf(Part(t, done), prefix, m)
      decreases |todo|
    {
      var key :| key in todo;
      var path := Extended(prefix, key);
      var below: map<string, V>;
      match t[key] {
        case Leaf(v) => below := map[path := v];
        case Node(c) => below := Flatten(c, path);
      }
      FlatGrows(t, done, key, prefix, m, below);
      m := m + below;
      todo, done := todo - {key}, done + {key};
    }
    WholePart(t);
  }

  lemma FlatOfNothing<V(!new)>(t: Mapping<V>, prefix: string)
    ensures FlatOf(Part(t, {}), prefix, map[])
  {
  }

  lemma WholePart<V>(t: Mapping<V>)
    ensures Part(t, t.Keys) == t
  {
  }

  ghost predicate FlatBelow<V(!new)>(t: Tree<V>, path: string, below: map<string, V>) {
    match t
    case Leaf(v) => below == map[path := v]
    case Node(c) => FlatOf(c, path, below)
  }

  lemma FlatGrows<V(!new)>(t: Mapping<V>, done: set<string>, key: string, prefix: string,
                           m: map<string, V>, below: map<string, V>)
    requires key in t && key !in done
    requires FlatOf(Part(t, done), prefix, m)
    requires FlatBelow(t[key], Extended(prefix, key), below)
    ensures FlatOf(Part(t, done + {key}), prefix, m + below)
  {
    var more := Part(t, done + {key});
    forall path | LeafAt(more, path).Some? ensures Render(prefix, path) in m + below {
      if path[0] == key {
        if t[key].Node? {
          assert LeafAt(t[key].children, path[1..]).Some?;
        } else {
          assert path[1..] == [];
        }
      } else {
        assert LeafAt(Part(t, done), path).Some?;
      }
    }
    forall name | name in m + below ensures Named(more, prefix, name, (m + below)[name]) {
      if name in below {
        var rest: seq<string> := [];
        if t[key].Node? {
          assert Named(t[key].children, Extended(prefix, key), name, below[name]);
          rest :| LeafAt(t[key].children, rest) == Some(below[name]) && Render(Extended(prefix, key), rest) == name;
        }
        assert ([key] + rest)[1..] == rest;
        assert LeafAt(more, [key] + rest) == Some(below[name]) && Render(prefix, [key] + rest) == name;
      } else {
        assert Named(Part(t, done), prefix, name, m[name]);
        var path :| LeafAt(Part(t, done), path) == Some(m[name]) && Render(prefix, path) == name;
        assert LeafAt(more, path) == Some(m[name]);
      }
    }
  }

  // ---------- Inflating ----------

  /** The mapping under a key, created when missing; none when a leaf is in the way. */
  function Child<V>(t: Mapping<V>, key: string): Option<Mapping<V>> {
    if key !in t then Some(map[])
    else match t[key]
      case Leaf(_) => None
      case Node(c) => Some(c)
  }

  /** Stores a leaf at a path, replacing what was there; none stands for the raised error. */
  function Put<V>(t: Mapping<V>, parts: seq<string>, v: V): Option<Mapping<V>>
    requires |parts| >= 1
    decreases |parts|
  {
    if |parts| == 1 then Some(t[parts[0] := Leaf(v)])
    else
      var child := Child(t, parts[0]);
      if child.None? then None else
        var below := Put(child.value, parts[1..], v);
        if below.None? then None else Some(t[parts[0] := Node(below.value)])
  }

  ghost predicate Enumerates(order: seq<string>, names: set<string>) {
    Distinct(order) && Elements(order) == names
  }

  /** The settings stored one after the other in the given order. */
  function InflateIn<V>(m: map<string, V>, order: seq<string>): Option<Mapping<V>>
    requires Elements(order) <= m.Keys
    decreases |order|
  {
    if |order| == 0 then Some(map[])
    else
      var last := order[|order| - 1];
      assert last in Elements(order);
      var before := InflateIn(m, order[..|order| - 1]);
      if before.None? then None else Put(before.value, Split(last), m[last])
  }

  /** Some order of the settings, each taken once, inflates them to `r`. */
  ghost predicate InflatesTo<V>(m: map<string, V>, r: Option<Mapping<V>>) {
    exists order :: Enumerates(order, m.Keys) && InflateIn(m, order) == r
  }

  method Inflate<V>(m: map<string, V>) returns (r: Option<Mapping<V>>)
    ensures InflatesTo(m, r)
  {
    ghost var order: seq<string> := [];
    var t: Mapping<V> := map[];
    var todo := m.Keys;
    while todo != {}
      invariant todo <= m.Keys
      invariant Enumerates(order, m.Keys - todo)
      invariant InflateIn(m, order) == Some(t)
      decreases |todo|
    {
      var name :| name in todo;
      todo := todo - {name};
      assert (order + [name])[..|order|] == order;
      assert Elements(order + [name]) == Elements(order) + {name};
      order := order + [name];
      var next := Put(t, Split(name), m[name]);
      if next.None? {
        ghost var all := AnyOrder(order, m.Keys, todo);
        FailureStays(m, all, |m.Keys - todo|);
        return None;
      }
      t := next.value;
    }
    r := Some(t);
  }

  /** Any enumeration of some of the names extends to one of all of them. */
  lemma AnyOrder(order: seq<string>, names: set<string>, todo: set<string>) returns (all: seq<string>)
    requires todo <= names && Enumerates(order, names - todo)
    ensures Enumerates(all, names)
    ensures |order| == |names - todo| && |order| <= |all| && all[..|order|] == order
  {
    EnumerationLength(order);
    all := order;
    var left := todo;
    while left != {}
      invariant left <= todo && Enumerates(all, names - left)
      invariant |order| <= |all| && all[..|order|] == order
      decreases |left|
    {
      var name :| name in left;
      left := left - {name};
      assert Elements(all + [name]) == Elements(all) + {name};
      all := all + [name];
    }
  }

  lemma {:induction false} EnumerationLength(order: seq<string>)
    requires Distinct(order)
    ensures |Elements(order)| == |order|
  {
    if |order| > 0 {
      var n := |order| - 1;
      EnumerationLength(order[..n]);
      assert Elements(order) == Elements(order[..n]) + {order[n]};
    }
  }

  lemma {:induction false} FailureStays<V>(m: map<string, V>, order: seq<string>, n: nat)
    requires Elements(order) <= m.Keys && n <= |order|
    requires Elements(order[..n]) <= m.Keys && InflateIn(m, order[..n]).None?
    ensures InflateIn(m, order).None?
    decreases |order| - n
  {
    if n < |order| {
      assert order[..n + 1][..n] == order[..n];
      assert Elements(order[..n + 1]) <= m.Keys;
      FailureStays(m, order, n + 1);
    } else {
      assert order[..n] == order;
    }
  }
}
