/** The retain tree as an object (rmqtt/src/broker/retain.rs): the nested nodes are owned by
    their parents and never shared, so the tree is one value that the methods reassign.  The
    walks over a node's children visit them in whatever order the hash map yields. */
module RetainIndex {
  import opened Wrappers
  import opened Topics
  import opened RetainTree
  import opened RetainMatch
  import opened Listings

  // ---------- matching ----------

  /** The walk of one node: lists what `path` selects below `t`, which sits at `sub`. */
  method WalkMatches<V(!new)>(t: Tree<V>, path: Topic, sub: Topic) returns (out: Listing<V>)
    requires IsFilter(path) && WildFree(t)
    ensures Lists(out, t, path, sub, t.branches.Keys)
    decreases t
  {
    out := [];
    if t.branches.Keys == {} || path == [] {
      if path == [] {
        if t.value.Some? {
          out := [(sub, t.value.value)];
        }
        WalkedEnd(out, t, sub);
      } else {
        SkipLists(t, path, sub, {});
      }
    } else if path[0] in t.branches {
      var k := path[0];
      var r := t.branches[k];
      var at := sub + [k];
      if |path| > 1 && path[1] == MultiWildcard {
        if r.value.Some? {
          out := [(at, r.value.value)];
        }
      }
      assert out == ParentHit(r, path, at);
      EmitsStep(path, k, [], sub == []);
      var below := WalkMatches(r, path[1..], at);
      ChildLists(below, t, path, sub, k);
      out := out + below;
      OnlyChildLists(out, t, path, sub, k);
    } else if path[0] == SingleWildcard {
      out := WalkChildren(t, path, sub);
    } else if path[0] == MultiWildcard {
      assert path == [MultiWildcard];
      out := WalkSubtree(t, path, sub);
    } else {
      SkipLists(t, path, sub, t.branches.Keys);
    }
  }

  /** '+': every child, one level further along the filter. */
  method WalkChildren<V(!new)>(t: Tree<V>, path: Topic, sub: Topic) returns (out: Listing<V>)
    requires IsFilter(path) && path != [] && path[0] == SingleWildcard && WildFree(t)
    ensures Lists(out, t, path, sub, t.branches.Keys)
    decreases t, 0
  {
    out := [];
    var todo := t.branches.Keys;
    ghost var done: set<Level> := {};
    SkipLists(t, path, sub, {});
    while todo != {}
      invariant todo <= t.branches.Keys && done == t.branches.Keys - todo
      invariant Lists(out, t, path, sub, done)
      decreases todo
    {
      var k :| k in todo;
      todo := todo - {k};
      var piece: Listing<V> := [];
      if sub == [] && k.Metadata? {
        SkipLists(t, path, sub, {k});
      } else {
        var c := t.branches[k];
        var at := sub + [k];
        if |path| > 1 && path[1] == MultiWildcard {
          if c.value.Some? {
            piece := [(at, c.value.value)];
          }
        }
        assert piece == ParentHit(c, path, at);
        EmitsStep(path, k, [], sub == []);
        var below := WalkMatches(c, path[1..], at);
        ChildLists(below, t, path, sub, k);
        piece := piece + below;
      }
      ListsAppend(out, piece, t, path, sub, done, {k});
      out := out + piece;
      done := done + {k};
    }
    assert done == t.branches.Keys;
  }

  /** '#': every child and everything below it, with the filter unchanged. */
  method WalkSubtree<V(!new)>(t: Tree<V>, path: Topic, sub: Topic) returns (out: Listing<V>)
    requires path == [MultiWildcard] && WildFree(t)
    ensures Lists(out, t, path, sub, t.branches.Keys)
    decreases t, 0
  {
    out := [];
    var todo := t.branches.Keys;
    ghost var done: set<Level> := {};
    SkipLists(t, path, sub, {});
    while todo != {}
      invariant todo <= t.branches.Keys && done == t.branches.Keys - todo
      invariant Lists(out, t, path, sub, done)
      decreases todo
    {
      var k :| k in todo;
      todo := todo - {k};
      var piece: Listing<V> := [];
      if sub == [] && k.Metadata? {
        SkipLists(t, path, sub, {k});
      } else {
        var c := t.branches[k];
        var at := sub + [k];
        if c.value.Some? {
          piece := [(at, c.value.value)];
        }
        assert piece == ParentHit(c, path, at);
        var below: Listing<V> := [];
        if c.branches.Keys == {} {
          SkipLists(c, path, at, {});
        } else {
          below := WalkMatches(c, path, at);
        }
        ChildLists(below, t, path, sub, k);
        piece := piece + below;
      }
      ListsAppend(out, piece, t, path, sub, done, {k});
      out := out + piece;
      done := done + {k};
    }
    assert done == t.branches.Keys;
  }

  lemma {:induction false} WalkedEnd<V(!new)>(out: Listing<V>, t: Tree<V>, sub: Topic)
    requires out == if t.value.Some? then [(sub, t.value.value)] else []
    ensures Lists(out, t, [], sub, t.branches.Keys)
  {
    forall p | Get(t, p).Some? && Emits([], p, sub == []) ensures p == [] {
      LevelsMatchStep([], p);
    }
    assert sub[|sub|..] == [] && sub + [] == sub;
    assert Emits([], [], sub == []);
    if t.value.Some? {
      assert out[0] == (sub, t.value.value);
    }
  }

  /** A literal level enters one child, so that child's list is the node's. */
  lemma {:induction false} OnlyChildLists<V(!new)>(
    out: Listing<V>, t: Tree<V>, path: Topic, sub: Topic, k: Level)
    requires IsFilter(path) && path != [] && path[0] == k && k in t.branches && !Wild(k)
    requires Lists(out, t, path, sub, {k})
    ensures Lists(out, t, path, sub, t.branches.Keys)
  {
  }

  // ---------- conditional removal ----------

  /** Values may disappear below the root, and only values `keep` rejects. */
  ghost predicate OnlyRejectedGone<V(!new)>(t: Tree<V>, t': Tree<V>, keep: V -> bool) {
    forall p :: GoneOrSame(Get(t, p), Get(t', p), keep)
  }

  ghost predicate GoneOrSame<V>(before: Option<V>, after: Option<V>, keep: V -> bool) {
    after == before || (before.Some? && !keep(before.value) && after.None?)
  }

  ghost predicate AllKept<V(!new)>(t: Tree<V>, keep: V -> bool) {
    forall p | Get(t, p).Some? :: keep(Get(t, p).value)
  }

  ghost predicate AllKeptBelow<V(!new)>(t: Tree<V>, keep: V -> bool) {
    forall k | k in t.branches :: AllKept(t.branches[k], keep)
  }

  /** Removal stops entering nodes once `limit` values are gone; the values of the children
      already being visited are still examined. */
  method RetainNode<V(!new)>(t: Tree<V>, keep: V -> bool, limit: nat, removeds: nat)
    returns (t': Tree<V>, r: nat)
    ensures t'.value == t.value && OnlyRejectedGone(t, t', keep)
    ensures |Stored(t)| - |Stored(t')| == r - removeds >= 0
    ensures r < limit ==> AllKeptBelow(t', keep)
    ensures Pruned(t) ==> Pruned(t')
    ensures removeds >= limit ==> t' == t
    decreases t, 0
  {
    t', r := t, removeds;
    if removeds >= limit {
      return;
    }
    var todo := t.branches.Keys;
    while todo != {}
      invariant RetainedSoFar(t, t', todo, keep)
      invariant |Stored(t)| - |Stored(t')| == r - removeds >= 0
      invariant r < limit ==> KeptSoFar(t', todo, keep)
      invariant Pruned(t) ==> Pruned(t')
      decreases todo
    {
      var k :| k in todo;
      var c, n := RetainChild(t'.branches[k], keep, limit, r);
      StoredWithChild(t', k, c);
      ChildRetained(t, t', todo, keep, k, c);
      if n < limit {
        ChildKept(t', todo, keep, k, c);
      }
      ChildPruned(t', k, c);
      t', r, todo := WithChild(t', k, c), n, todo - {k};
    }
    AllRetained(t, t', keep);
  }

  /** What the closure handed to the hash map's own `retain` does to one child. */
  method RetainChild<V(!new)>(t: Tree<V>, keep: V -> bool, limit: nat, removeds: nat)
    returns (t': Tree<V>, r: nat)
    ensures OnlyRejectedGone(t, t', keep)
    ensures |Stored(t)| - |Stored(t')| == r - removeds >= 0
    ensures r < limit ==> AllKept(t', keep)
    ensures Pruned(t) ==> Pruned(t')
    decreases t, 1
  {
    t', r := RetainNode(t, keep, limit, removeds);
    if t'.value.Some? && !keep(t'.value.value) {
      ValueDropped(t, t', keep);
      t' := t'.(value := None);
      r := r + 1;
    }
    if r < limit {
      KeptWithRoot(t', keep);
    }
  }

  ghost predicate RetainedSoFar<V(!new)>(t: Tree<V>, t': Tree<V>, todo: set<Level>, keep: V -> bool) {
    && t'.value == t.value
    && todo <= t'.branches.Keys <= t.branches.Keys
    && (forall k | k in todo :: t'.branches[k] == t.branches[k])
    && (forall k | k in t.branches && k !in todo :: OnlyRejectedGone(t.branches[k], Child(t', k), keep))
  }

  ghost predicate KeptSoFar<V(!new)>(t: Tree<V>, todo: set<Level>, keep: V -> bool) {
    forall k | k in t.branches && k !in todo :: AllKept(t.branches[k], keep)
  }

  lemma {:induction false} ChildRetained<V(!new)>(
    t: Tree<V>, t': Tree<V>, todo: set<Level>, keep: V -> bool, k: Level, c: Tree<V>)
    requires RetainedSoFar(t, t', todo, keep) && k in todo
    requires OnlyRejectedGone(t.branches[k], c, keep)
    ensures RetainedSoFar(t, WithChild(t', k, c), todo - {k}, keep)
  {
  }

  lemma {:induction false} ChildKept<V(!new)>(
    t: Tree<V>, todo: set<Level>, keep: V -> bool, k: Level, c: Tree<V>)
    requires KeptSoFar(t, todo, keep) && AllKept(c, keep)
    ensures KeptSoFar(WithChild(t, k, c), todo - {k}, keep)
  {
  }

  lemma {:induction false} ChildPruned<V>(t: Tree<V>, k: Level, c: Tree<V>)
    requires k in t.branches
    requires Pruned(t.branches[k]) ==> Pruned(c)
    ensures Pruned(t) ==> Pruned(WithChild(t, k, c))
  {
  }

  lemma {:induction false} AllRetained<V(!new)>(t: Tree<V>, t': Tree<V>, keep: V -> bool)
    requires RetainedSoFar(t, t', {}, keep)
    ensures OnlyRejectedGone(t, t', keep)
  {
  }

  lemma {:induction false} ValueDropped<V(!new)>(t: Tree<V>, c: Tree<V>, keep: V -> bool)
    requires OnlyRejectedGone(t, c, keep)
    requires c.value.Some? && !keep(c.value.value)
    ensures OnlyRejectedGone(t, c.(value := None), keep)
    ensures |Stored(c.(value := None))| == |Stored(c)| - 1
  {
  }

  lemma {:induction false} KeptWithRoot<V(!new)>(t: Tree<V>, keep: V -> bool)
    requires AllKeptBelow(t, keep)
    requires t.value.Some? ==> keep(t.value.value)
    ensures AllKept(t, keep)
  {
  }

  // ---------- size ----------

  method ValuesSize<V(!new)>(t: Tree<V>) returns (n: nat)
    ensures n == |Stored(t)|
    decreases t
  {
    hide Stored;
    n := 0;
    var todo := t.branches.Keys;
    ghost var rest := t;
    while todo != {}
      invariant todo == rest.branches.Keys && rest.value == t.value
      invariant forall k | k in todo :: k in t.branches && rest.branches[k] == t.branches[k]
      invariant n == |Stored(t)| - |Stored(rest)|
      decreases todo
    {
      var k :| k in todo;
      var len := ValuesSize(t.branches[k]);
      StoredSplitSize(rest, k);
      n, todo, rest := n + len, todo - {k}, Without(rest, k);
    }
    BranchlessSize(rest);
    if t.value.Some? {
      n := n + 1;
    }
  }

  lemma {:induction false} BranchlessSize<V>(t: Tree<V>)
    requires t.branches.Keys == {}
    ensures |Stored(t)| == if t.value.Some? then 1 else 0
  {
  }

  // ---------- the index ----------

  class Index<V(!new)> {
    var root: Tree<V>
    ghost var view: map<Topic, V>   // the flat map the tree stands for

    /** Nothing is stored at the empty topic or under a wildcard, and no branch is dead. */
    ghost predicate Valid()
      reads this
    {
      Represents(root, view)
    }

    constructor ()
      ensures Valid() && view == map[]
    {
      root := Tree(None, map[]);
      view := map[];
      new;
      ContentsAre(root, map[]);
    }

    method Insert(topic: Topic, v: V)
      requires Valid() && topic != [] && IsName(topic)
      modifies this
      ensures Valid() && view == old(view)[topic := v]
    {
      InsertRefinesUpdate(root, topic, v);
      InsertKeepsPruned(root, topic, v);
      root, view := Inserted(root, topic, v), view[topic := v];
    }

    method Remove(topic: Topic) returns (r: Option<V>)
      requires Valid()
      modifies this
      ensures Valid() && view == old(view) - {topic}
      ensures r == if topic in old(view) then Some(old(view)[topic]) else None
    {
      ContentsGet(root);
      RemoveRefinesDelete(root, topic);
      RemoveKeepsPruned(root, topic);
      GetRemoved(root, topic, []);
      r := Get(root, topic);
      root, view := Removed(root, topic), view - {topic};
    }

    /** Removes what `keep` rejects: everything of it unless the limit is met, and the result
        is exactly how many values are gone. */
    method Retain(limit: nat, keep: V -> bool) returns (n: nat)
      requires Valid()
      modifies this
      ensures Valid()
      ensures Thinned(old(view), view, keep)
      ensures n == |old(view)| - |view|
      ensures n < limit ==> view == Filtered(old(view), keep)
      ensures limit == 0 ==> n == 0
    {
      hide Contents, Stored, Get;
      var t, r := RetainNode(root, keep, limit, 0);
      RetainedContents(root, t, keep);
      if r < limit {
        KeptWithRoot(t, keep);
        KeptContents(root, t, keep);
      }
      root, view, n := t, Contents(t), r;
    }

    method Size() returns (n: nat)
      requires Valid()
      ensures n == |view|
    {
      hide Stored, Contents, Pruned;
      ContentsGet(root);
      n := ValuesSize(root);
      assert view.Keys == Stored(root);
    }

    /** Sections 4.7.1 and 4.7.2 of MQTT 5.0: each stored topic the filter matches, once. */
    method Matches(filter: Topic) returns (out: Listing<V>)
      requires Valid() && IsFilter(filter)
      ensures Enumerates(out, Matching(view, filter))
    {
      ContentsGet(root);
      PrunedNamesAreWildFree(root);
      out := WalkMatches(root, filter, []);
      RootListsMatches(out, root, filter);
    }
  }

  ghost predicate Represents<V(!new)>(t: Tree<V>, m: map<Topic, V>) {
    && Contents(t) == m
    && Pruned(t) && t.value.None?
    && forall p | p in m :: IsName(p)
  }

  function Filtered<K, V>(m: map<K, V>, keep: V -> bool): map<K, V> {
    map k | k in m && keep(m[k]) :: m[k]
  }

  /** `m'` is `m` less some entries that `keep` rejects. */
  ghost predicate Thinned<K(!new), V>(m: map<K, V>, m': map<K, V>, keep: V -> bool) {
    && (forall k | k in m' :: k in m && m'[k] == m[k])
    && (forall k | k in m && k !in m' :: !keep(m[k]))
  }

  lemma {:induction false} RetainedContents<V(!new)>(t: Tree<V>, t': Tree<V>, keep: V -> bool)
    requires OnlyRejectedGone(t, t', keep)
    ensures Thinned(Contents(t), Contents(t'), keep)
    ensures |Contents(t)| == |Stored(t)| && |Contents(t')| == |Stored(t')|
  {
    hide Contents, Stored, Get;
    ContentsGet(t);
    ContentsGet(t');
    forall p ensures GoneOrSame(Get(t, p), Get(t', p), keep) {
    }
  }

  lemma {:induction false} KeptContents<V(!new)>(t: Tree<V>, t': Tree<V>, keep: V -> bool)
    requires OnlyRejectedGone(t, t', keep) && AllKept(t', keep)
    ensures Contents(t') == Filtered(Contents(t), keep)
  {
    hide Contents, Stored, Get;
    ContentsGet(t);
    ContentsGet(t');
    RetainedContents(t, t', keep);
    forall p | p in Contents(t') ensures keep(Contents(t')[p]) {
      assert Get(t', p).Some?;
    }
  }
}
