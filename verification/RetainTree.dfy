/** The value of a retain tree (rmqtt/src/broker/retain.rs) and the flat map it stands for.

    `Tree` is what a heap node denotes; `Contents` is the abstract view: a finite map
    from topics to values.  The lemmas say that insertion and removal on the tree are
    update and deletion on that map, and that pruning leaves no dead branch. */
module RetainTree {
  import opened Wrappers
  import opened Topics

  datatype Tree<V> = Tree(value: Option<V>, branches: map<Level, Tree<V>>)

  predicate Bare<V>(t: Tree<V>) {
    t.value.None? && t.branches.Keys == {}
  }

  function Get<V>(t: Tree<V>, p: Topic): (r: Option<V>)
    decreases |p|
  {
    if p == [] then t.value
    else if p[0] in t.branches then Get(t.branches[p[0]], p[1..])
    else None
  }

  /** The topics that carry a value. */
  function Stored<V>(t: Tree<V>): set<Topic> {
    (if t.value.Some? then {[]} else {})
    + (set k, p | k in t.branches && p in Stored(t.branches[k]) :: [k] + p)
  }

  function Contents<V>(t: Tree<V>): map<Topic, V> {
    map p | p in Stored(t) && Get(t, p).Some? :: Get(t, p).value
  }

  /** Every node below the root carries a value or leads to one that does. */
  predicate Pruned<V>(t: Tree<V>) {
    forall k | k in t.branches :: !Bare(t.branches[k]) && Pruned(t.branches[k])
  }

  predicate WildFree<V>(t: Tree<V>) {
    forall k | k in t.branches :: !Wild(k) && WildFree(t.branches[k])
  }

  function Child<V>(t: Tree<V>, k: Level): (c: Tree<V>) {
    if k in t.branches then t.branches[k] else Tree(None, map[])
  }

  function Inserted<V>(t: Tree<V>, path: Topic, v: V): (r: Tree<V>)
    decreases |path|
  {
    if path == [] then t.(value := Some(v))
    else t.(branches := t.branches[path[0] := Inserted(Child(t, path[0]), path[1..], v)])
  }

  /** A child replaced, or dropped when nothing is left in it. */
  function WithChild<V>(t: Tree<V>, k: Level, c: Tree<V>): (r: Tree<V>) {
    if Bare(c) then Without(t, k) else t.(branches := t.branches[k := c])
  }

  function Without<V>(t: Tree<V>, k: Level): (r: Tree<V>) {
    t.(branches := t.branches - {k})
  }

  function Removed<V>(t: Tree<V>, path: Topic): (r: Tree<V>)
    decreases |path|
  {
    if path == [] then t.(value := None)
    else if path[0] in t.branches then WithChild(t, path[0], Removed(t.branches[path[0]], path[1..]))
    else t
  }

  // ---------- tree and flat map agree ----------

  lemma {:induction false} StoredIffGet<V>(t: Tree<V>, p: Topic)
    ensures p in Stored(t) <==> Get(t, p).Some?
    decreases |p|
  {
    if p != [] {
      if p[0] in t.branches {
        StoredIffGet(t.branches[p[0]], p[1..]);
        assert p == [p[0]] + p[1..];
        if p in Stored(t) {
          var k, q :| k in t.branches && q in Stored(t.branches[k]) && p == [k] + q;
          assert q == p[1..];
        }
      }
    }
  }

  lemma {:induction false} ContentsGet<V>(t: Tree<V>)
    ensures Contents(t).Keys == Stored(t)
    ensures forall p :: p in Contents(t) <==> Get(t, p).Some?
    ensures forall p | p in Contents(t) :: Get(t, p) == Some(Contents(t)[p])
  {
    forall p ensures p in Stored(t) <==> Get(t, p).Some? {
      StoredIffGet(t, p);
    }
  }

  lemma {:induction false} GetInserted<V>(t: Tree<V>, path: Topic, v: V, p: Topic)
    ensures Get(Inserted(t, path, v), p) == if p == path then Some(v) else Get(t, p)
    decreases |path|
  {
    if path != [] && p != [] && p[0] == path[0] {
      GetInserted(Child(t, path[0]), path[1..], v, p[1..]);
      assert path == [path[0]] + path[1..] && p == [p[0]] + p[1..];
    }
  }

  lemma {:induction false} GetRemoved<V>(t: Tree<V>, path: Topic, p: Topic)
    ensures Get(Removed(t, path), p) == if p == path then None else Get(t, p)
    decreases |path|
  {
    if path != [] && p != [] && p[0] == path[0] && p[0] in t.branches {
      GetRemoved(t.branches[path[0]], path[1..], p[1..]);
      assert path == [path[0]] + path[1..] && p == [p[0]] + p[1..];
    }
  }

  /** A map that answers every lookup as the tree does is its contents. */
  lemma {:induction false} ContentsAre<V>(t: Tree<V>, m: map<Topic, V>)
    requires forall p :: Get(t, p) == if p in m then Some(m[p]) else None
    ensures Contents(t) == m
  {
    ContentsGet(t);
  }

  lemma {:induction false} InsertRefinesUpdate<V>(t: Tree<V>, path: Topic, v: V)
    ensures Contents(Inserted(t, path, v)) == Contents(t)[path := v]
  {
    ContentsGet(t);
    forall p ensures Get(Inserted(t, path, v), p) == if p == path then Some(v) else Get(t, p) {
      GetInserted(t, path, v, p);
    }
    ContentsAre(Inserted(t, path, v), Contents(t)[path := v]);
  }

  lemma {:induction false} RemoveRefinesDelete<V>(t: Tree<V>, path: Topic)
    ensures Contents(Removed(t, path)) == Contents(t) - {path}
  {
    ContentsGet(t);
    forall p ensures Get(Removed(t, path), p) == if p == path then None else Get(t, p) {
      GetRemoved(t, path, p);
    }
    ContentsAre(Removed(t, path), Contents(t) - {path});
  }

  // ---------- pruning ----------

  lemma {:induction false} InsertKeepsPruned<V>(t: Tree<V>, path: Topic, v: V)
    requires Pruned(t)
    ensures Pruned(Inserted(t, path, v)) && !Bare(Inserted(t, path, v))
    decreases |path|
  {
    if path != [] {
      InsertKeepsPruned(Child(t, path[0]), path[1..], v);
      assert path[0] in Inserted(t, path, v).branches.Keys;
    }
  }

  lemma {:induction false} RemoveKeepsPruned<V>(t: Tree<V>, path: Topic)
    requires Pruned(t)
    ensures Pruned(Removed(t, path))
    decreases |path|
  {
    if path != [] && path[0] in t.branches {
      RemoveKeepsPruned(t.branches[path[0]], path[1..]);
    }
  }

  lemma {:induction false} GetBelow<V>(t: Tree<V>, k: Level, p: Topic)
    ensures Get(t, [k] + p) == if k in t.branches then Get(t.branches[k], p) else None
  {
  }

  /** In a pruned tree nothing but values keeps a branch alive. */
  lemma {:induction false} PrunedReachesValue<V>(t: Tree<V>) returns (p: Topic)
    requires Pruned(t) && !Bare(t)
    ensures Get(t, p).Some?
  {
    if t.value.Some? {
      p := [];
    } else {
      var k :| k in t.branches;
      var q := PrunedReachesValue(t.branches[k]);
      GetBelow(t, k, q);
      p := [k] + q;
    }
  }

  lemma {:induction false} PrunedNamesAreWildFree<V>(t: Tree<V>)
    requires Pruned(t)
    requires forall p | Get(t, p).Some? :: IsName(p)
    ensures WildFree(t)
  {
    hide Get;
    forall k | k in t.branches ensures !Wild(k) && WildFree(t.branches[k]) {
      var c := t.branches[k];
      var q := PrunedReachesValue(c);
      GetBelow(t, k, q);
      assert ([k] + q)[0] == k;
      forall p | Get(c, p).Some? ensures IsName(p) {
        var kp := [k] + p;
        GetBelow(t, k, p);
        assert forall i | 0 <= i < |p| :: p[i] == kp[i + 1];
      }
      PrunedNamesAreWildFree(c);
    }
  }

  // ---------- sizes ----------

  function Prefixed(k: Level, ps: set<Topic>): set<Topic> {
    set p | p in ps :: [k] + p
  }

  lemma {:induction false} PrefixedSize(k: Level, ps: set<Topic>)
    ensures |Prefixed(k, ps)| == |ps|
  {
    if ps != {} {
      var p :| p in ps;
      PrefixedSize(k, ps - {p});
      assert Prefixed(k, ps) == Prefixed(k, ps - {p}) + {[k] + p};
      forall q | q in ps - {p} ensures [k] + q != [k] + p {
        assert ([k] + q)[1..] == q && ([k] + p)[1..] == p;
      }
    }
  }

  lemma {:induction false} BareStoresNothing<V>(t: Tree<V>)
    requires Bare(t)
    ensures |Stored(t)| == 0
  {
  }

  lemma {:induction false} WithoutAfterWith<V>(t: Tree<V>, k: Level, c: Tree<V>)
    requires !Bare(c)
    ensures k in WithChild(t, k, c).branches && WithChild(t, k, c).branches[k] == c
    ensures Without(WithChild(t, k, c), k) == Without(t, k)
  {
  }

  /** Replacing one child moves the number of stored values by the child's difference. */
  lemma {:induction false} StoredWithChild<V>(t: Tree<V>, k: Level, c: Tree<V>)
    requires k in t.branches
    ensures |Stored(WithChild(t, k, c))| == |Stored(t)| - |Stored(t.branches[k])| + |Stored(c)|
  {
    StoredSplitSize(t, k);
    if Bare(c) {
      BareStoresNothing(c);
    } else {
      WithoutAfterWith(t, k, c);
      StoredSplitSize(WithChild(t, k, c), k);
    }
  }

  lemma {:induction false} StoredSplitSize<V>(t: Tree<V>, k: Level)
    requires k in t.branches
    ensures |Stored(t)| == |Stored(Without(t, k))| + |Stored(t.branches[k])|
  {
    StoredSplit(t, k);
    PrefixedSize(k, Stored(t.branches[k]));
  }

  lemma {:induction false} StoredSplit<V>(t: Tree<V>, k: Level)
    requires k in t.branches
    ensures Stored(t) == Stored(Without(t, k)) + Prefixed(k, Stored(t.branches[k]))
    ensures Stored(Without(t, k)) !! Prefixed(k, Stored(t.branches[k]))
  {
    var rest := Without(t, k);
    forall p | p in Stored(rest) && p != [] ensures p[0] != k && p in Stored(t) {
      var j, q :| j in rest.branches && q in Stored(rest.branches[j]) && p == [j] + q;
      assert j in t.branches && t.branches[j] == rest.branches[j];
    }
    forall p | p in Stored(t)
      ensures p in Stored(rest) || p in Prefixed(k, Stored(t.branches[k]))
    {
      if p != [] {
        var j, q :| j in t.branches && q in Stored(t.branches[j]) && p == [j] + q;
        if j != k {
          assert j in rest.branches && rest.branches[j] == t.branches[j];
        }
      }
    }
  }
}
