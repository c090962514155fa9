/** What a walk of the retain tree has to list, and how the lists of the children of a node
    combine into the list of the node (rmqtt/src/broker/retain.rs, `_matches`). */
module RetainMatch {
  import opened Wrappers
  import opened Topics
  import opened RetainTree
  import opened Listings

  type Listing<V> = seq<(Topic, V)>

  /** The relative topics a call of the walk on `path` is responsible for.  A node's own
      value under a remaining "#" belongs to the caller: '#' includes its parent. */
  predicate Emits(path: Topic, p: Topic, atRoot: bool) {
    && LevelsMatch(path, p)
    && !(path == [MultiWildcard] && p == [])
    && !(atRoot && HiddenFromWildcard(path, p))
  }

  predicate InScope(p: Topic, ks: set<Level>) {
    p == [] || p[0] in ks
  }

  /** `out` lists, each exactly once and with its value, the stored topics that `path`
      emits below the node `t` at `sub`, looking only into the children `ks`. */
  ghost predicate Lists<V(!new)>(out: Listing<V>, t: Tree<V>, path: Topic, sub: Topic, ks: set<Level>) {
    && (forall i | 0 <= i < |out| :: Sound(out[i], t, path, sub, ks))
    && (forall p | Get(t, p).Some? && InScope(p, ks) && Emits(path, p, sub == []) ::
          (sub + p, Get(t, p).value) in out)
    && (forall i, j | 0 <= i < j < |out| :: out[i].0 != out[j].0)
  }

  ghost predicate Sound<V>(e: (Topic, V), t: Tree<V>, path: Topic, sub: Topic, ks: set<Level>) {
    && sub <= e.0
    && var p := e.0[|sub|..];
    InScope(p, ks) && Emits(path, p, sub == []) && Get(t, p) == Some(e.1)
  }

  /** The rest of the filter a child is walked with: "#" never shrinks. */
  function Next(path: Topic): (r: Topic)
    requires path != []
  {
    if path == [MultiWildcard] then path else path[1..]
  }

  /** Whether the walk enters child `k`. */
  predicate Enters(path: Topic, k: Level, atRoot: bool)
    requires path != []
  {
    && (path == [MultiWildcard] || LevelMatches(path[0], k))
    && !(atRoot && Wild(path[0]) && k.Metadata?)
  }

  lemma {:induction false} EmitsStep(path: Topic, k: Level, p: Topic, atRoot: bool)
    requires IsFilter(path) && path != []
    ensures !Emits(path, [], atRoot)
    ensures IsFilter(Next(path))
    ensures Emits(path, [k] + p, atRoot)
       <==> Enters(path, k, atRoot) && (Emits(Next(path), p, false) || (p == [] && Next(path) == [MultiWildcard]))
  {
  }

  /** The walk skips exactly the children it has nothing to list in. */
  lemma {:induction false} SkipLists<V(!new)>(t: Tree<V>, path: Topic, sub: Topic, ks: set<Level>)
    requires IsFilter(path) && path != []
    requires forall k | k in ks && k in t.branches :: !Enters(path, k, sub == [])
    ensures Lists([], t, path, sub, ks)
  {
  }

  /** The value a parent lists on behalf of its child before walking into it. */
  function ParentHit<V>(c: Tree<V>, path: Topic, at: Topic): (r: Listing<V>)
    requires path != []
  {
    if Next(path) == [MultiWildcard] && c.value.Some? then [(at, c.value.value)] else []
  }

  lemma {:induction false} ChildLists<V(!new)>(
    out: Listing<V>, t: Tree<V>, path: Topic, sub: Topic, k: Level)
    requires IsFilter(path) && path != [] && k in t.branches && Enters(path, k, sub == [])
    requires Lists(out, t.branches[k], Next(path), sub + [k], t.branches[k].branches.Keys)
    ensures Lists(ParentHit(t.branches[k], path, sub + [k]) + out, t, path, sub, {k})
  {
    hide Get, Emits;
    var c := t.branches[k];
    var at := sub + [k];
    var pre := ParentHit(c, path, at);
    var all := pre + out;
    forall i | 0 <= i < |all| ensures Sound(all[i], t, path, sub, {k}) {
      ChildSound(all[i], t, path, sub, k, i < |pre|);
    }
    forall p | Get(t, p).Some? && InScope(p, {k}) && Emits(path, p, sub == [])
      ensures (sub + p, Get(t, p).value) in all
    {
      ChildComplete(out, t, path, sub, k, p);
    }
    if pre != [] {
      EmitsStep([MultiWildcard], Blank, [], false);
      forall j | 0 <= j < |out| ensures out[j].0 != at {
        assert Sound(out[j], c, Next(path), at, c.branches.Keys);
        assert at[|at|..] == [];
      }
    }
  }

  lemma {:induction false} ChildComplete<V(!new)>(
    out: Listing<V>, t: Tree<V>, path: Topic, sub: Topic, k: Level, p: Topic)
    requires IsFilter(path) && path != [] && k in t.branches && Enters(path, k, sub == [])
    requires Lists(out, t.branches[k], Next(path), sub + [k], t.branches[k].branches.Keys)
    requires Get(t, p).Some? && InScope(p, {k}) && Emits(path, p, sub == [])
    ensures (sub + p, Get(t, p).value) in ParentHit(t.branches[k], path, sub + [k]) + out
  {
    hide Emits;
    var c, at := t.branches[k], sub + [k];
    EmitsStep(path, Blank, [], sub == []);
    var q := p[1..];
    assert p == [k] + q;
    EmitsStep(path, k, q, sub == []);
    GetBelow(t, k, q);
    assert at + q == sub + p && at != [];
    if Emits(Next(path), q, false) {
      assert InScope(q, c.branches.Keys);
      assert (at + q, Get(c, q).value) in out;
    } else {
      assert at + [] == at;
      assert ParentHit(c, path, at) == [(sub + p, Get(t, p).value)];
    }
  }

  lemma {:induction false} ChildSound<V>(
    e: (Topic, V), t: Tree<V>, path: Topic, sub: Topic, k: Level, hit: bool)
    requires IsFilter(path) && path != [] && k in t.branches && Enters(path, k, sub == [])
    requires hit ==> Next(path) == [MultiWildcard] && e.0 == sub + [k] && t.branches[k].value == Some(e.1)
    requires !hit ==> Sound(e, t.branches[k], Next(path), sub + [k], t.branches[k].branches.Keys)
    ensures Sound(e, t, path, sub, {k})
  {
    var q := e.0[|sub| + 1..];
    var p := e.0[|sub|..];
    assert p == [k] + q;
    EmitsStep(path, k, q, sub == []);
    GetBelow(t, k, q);
  }

  /** Lists of disjoint sets of children concatenate. */
  lemma {:induction false} ListsAppend<V(!new)>(
    a: Listing<V>, b: Listing<V>, t: Tree<V>, path: Topic, sub: Topic, ka: set<Level>, kb: set<Level>)
    requires IsFilter(path) && path != [] && ka !! kb
    requires Lists(a, t, path, sub, ka) && Lists(b, t, path, sub, kb)
    ensures Lists(a + b, t, path, sub, ka + kb)
  {
  }

  /** At the root, with the whole tree in scope, the list is the answer MQTT asks for. */
  lemma {:induction false} RootListsMatches<V(!new)>(out: Listing<V>, t: Tree<V>, filter: Topic)
    requires IsFilter(filter) && t.value.None?
    requires Lists(out, t, filter, [], t.branches.Keys)
    ensures Enumerates(out, Matching(Contents(t), filter))
  {
    ContentsGet(t);
    var m := Matching(Contents(t), filter);
    forall i | 0 <= i < |out| ensures out[i].0 in m && m[out[i].0] == out[i].1 {
      assert Sound(out[i], t, filter, [], t.branches.Keys);
      assert out[i].0[0..] == out[i].0;
    }
    forall p | p in m ensures (p, m[p]) in out {
      assert p != [] && InScope(p, t.branches.Keys);
      assert [] + p == p;
      assert Get(t, p).Some? && Emits(filter, p, true);
    }
  }

  /** The part of a flat map that a filter selects. */
  function Matching<V>(m: map<Topic, V>, filter: Topic): map<Topic, V> {
    map p | p in m && Matches(filter, p) :: m[p]
  }
}
