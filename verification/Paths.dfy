/**
 Dotted paths, and the two functions between nested mappings and flat ones. Dictionaries are
 visited in an arbitrary order; a leaf is any value that is not a mapping.
 */
module Paths {
  import opened Basics

  datatype Tree<V> = Leaf(value: V) | Node(children: map<string, Tree<V>>)

  type Mapping<V> = map<string, Tree<V>>

  // ---------- Splitting and joining ----------

  predicate DotFree(s: string) {
    '.' !in s
  }

  predicate AllDotFree(parts: seq<string>) {
    forall i :: 0 <= i < |parts| ==> DotFree(parts[i])
  }

  function FirstDot(s: string): (i: nat)
    requires !DotFree(s)
    ensures i < |s| && s[i] == '.' && DotFree(s[..i])
  {
    if s[0] == '.' then 0 else
      var i := FirstDot(s[1..]) + 1;
      assert s[..i] == [s[0]] + s[1..][..i - 1];
      i
  }

  function Split(s: string): (parts: seq<string>)
    ensures |parts| >= 1
    decreases |s|
  {
    if DotFree(s) then [s]
    else [s[..FirstDot(s)]] + Split(s[FirstDot(s) + 1..])
  }

  function Join(parts: seq<string>): string
    requires |parts| >= 1
  {
    if |parts| == 1 then parts[0] else parts[0] + "." + Join(parts[1..])
  }

  lemma {:induction false} JoinSplit(s: string)
    ensures Join(Split(s)) == s && AllDotFree(Split(s))
    decreases |s|
  {
    if !DotFree(s) {
      var i := FirstDot(s);
      var rest := Split(s[i + 1..]);
      JoinSplit(s[i + 1..]);
      assert Split(s)[1..] == rest;
      assert s == s[..i] + "." + s[i + 1..];
    }
  }

  lemma FirstDotAfter(head: string, tail: string)
    requires DotFree(head)
    ensures !DotFree(head + "." + tail) && FirstDot(head + "." + tail) == |head|
  {
    var s := head + "." + tail;
    assert s[|head|] == '.';
    assert forall j :: 0 <= j < |head| ==> s[j] == head[j];
    assert forall j :: 0 <= j < FirstDot(s) ==> s[..FirstDot(s)][j] == s[j];
  }

  lemma {:induction false} SplitJoin(parts: seq<string>)
    requires |parts| >= 1 && AllDotFree(parts)
    ensures Split(Join(parts)) == parts
    decreases |parts|
  {
    if |parts| > 1 {
      var s := Join(parts);
      FirstDotAfter(parts[0], Join(parts[1..]));
      assert s[..|parts[0]|] == parts[0];
      assert s[|parts[0]| + 1..] == Join(parts[1..]);
      SplitJoin(parts[1..]);
    }
  }

  // ---------- What a mapping holds ----------

  /** The leaf at a path of keys, if there is one. */
  function LeafAt<V>(t: Mapping<V>, path: seq<string>): Option<V>
    decreases |path|
  {
    if |path| == 0 || path[0] !in t then None
    else match t[path[0]]
      case Leaf(v) => if |path| == 1 then Some(v) else None
      case Node(c) => LeafAt(c, path[1..])
  }

  /** Every key at every depth is free of dots. */
  ghost predicate DotFreeKeys<V>(t: Mapping<V>)
    decreases Node(t)
  {
    forall k :: k in t ==> DotFree(k) && (t[k].Node? ==> DotFreeKeys(t[k].children))
  }

  /** No sub-mapping at any depth is empty. */
  ghost predicate NoEmptyPart<V>(t: Mapping<V>)
    decreases Node(t)
  {
    forall k :: k in t && t[k].Node? ==> t[k].children != map[] && NoEmptyPart(t[k].children)
  }

  lemma {:induction false} HasLeaf<V>(t: Mapping<V>) returns (path: seq<string>)
    requires t != map[] && NoEmptyPart(t)
    ensures LeafAt(t, path).Some? && |path| >= 1
    decreases Node(t)
  {
    var k :| k in t;
    match t[k]
    case Leaf(_) =>
      path := [k];
    case Node(c) =>
      var rest := HasLeaf(c);
      path := [k] + rest;
      assert path[1..] == rest;
  }

  lemma {:induction false} LeafPathDotFree<V>(t: Mapping<V>, path: seq<string>)
    requires DotFreeKeys(t) && LeafAt(t, path).Some?
    ensures |path| >= 1 && AllDotFree(path)
    decreases |path|
  {
    if t[path[0]].Node? {
      LeafPathDotFree(t[path[0]].children, path[1..]);
      assert path == [path[0]] + path[1..];
    }
  }

  /** Mappings with no empty part and the same leaves are the same mapping. */
  lemma {:induction false} SameLeavesSameMapping<V>(a: Mapping<V>, b: Mapping<V>)
    requires NoEmptyPart(a) && NoEmptyPart(b)
    requires forall path :: LeafAt(a, path) == LeafAt(b, path)
    ensures a == b
    decreases Node(a)
  {
    forall k | k in a ensures k in b && a[k] == b[k] {
      SameAtKey(a, b, k);
      if a[k].Node? {
        forall path ensures LeafAt(a[k].children, path) == LeafAt(b[k].children, path) {
          assert ([k] + path)[1..] == path;
          assert LeafAt(a, [k] + path) == LeafAt(b, [k] + path);
          if |path| == 0 {
            assert LeafAt(a[k].children, path) == None;
          }
        }
        SameLeavesSameMapping(a[k].children, b[k].children);
      } else {
        assert LeafAt(a, [k]) == LeafAt(b, [k]);
      }
    }
    forall k | k in b ensures k in a {
      SameAtKey(b, a, k);
    }
  }

  /** A key of one of them is a key of the other, and of the same kind. */
  lemma SameAtKey<V>(a: Mapping<V>, b: Mapping<V>, k: string)
    requires NoEmptyPart(a) && NoEmptyPart(b) && k in a
    requires forall path :: LeafAt(a, path) == LeafAt(b, path)
    ensures k in b && (a[k].Leaf? <==> b[k].Leaf?)
  {
    if a[k].Leaf? {
      assert LeafAt(a, [k]) == LeafAt(b, [k]);
      assert b[k].Node? ==> LeafAt(b[k].children, [k][1..]) == None;
    } else {
      var rest := HasLeaf(a[k].children);
      assert ([k] + rest)[1..] == rest;
      assert LeafAt(a, [k] + rest) == LeafAt(b, [k] + rest);
    }
  }
}
