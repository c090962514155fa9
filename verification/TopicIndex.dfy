/** The filter index of the router and its lazy matching iterator (rmqtt/src/broker/topic.rs).

    The router indexes filters with unit values, so a node either carries the value or not: the
    tree is `Tree<()>` and its filters are the stored paths.  An iterator expands a node only when
    asked for an item; the lemmas say that draining it yields each matching filter exactly once. */
module TopicIndex {
  import opened Wrappers
  import opened Topics
  import opened RetainTree
  import opened Listings

  type FilterTree = Tree<()>

  datatype Iter = Iter(
    node: FilterTree, path: Topic, subPath: Option<Topic>, items: seq<Topic>, subs: seq<Iter>)

  function NewIter(node: FilterTree, path: Topic, sub: Topic): Iter {
    Iter(node, path, Some(sub), [], [])
  }

  // ---------- one expansion ----------

  predicate Carries(node: FilterTree, k: Level) {
    k in node.branches && node.branches[k].value.Some?
  }

  /** A topic starting with '$' at the root of a tree that holds wildcards there. */
  predicate Blocked(node: FilterTree, path: Topic, sub: Topic)
    requires path != []
  {
    sub == [] && path[0].Metadata? && (MultiWildcard in node.branches || SingleWildcard in node.branches)
  }

  function NodeItems(node: FilterTree, path: Topic, sub: Topic): seq<Topic> {
    if path == [] then
      (if Carries(node, MultiWildcard) then [sub + [MultiWildcard]] else [])
      + (if node.value.Some? then [sub] else [])
    else if !Blocked(node, path, sub) && Carries(node, MultiWildcard) then [sub + [MultiWildcard]]
    else []
  }

  function NodeSubs(node: FilterTree, path: Topic, sub: Topic): seq<Iter> {
    if path == [] then []
    else
      (if !Blocked(node, path, sub) && SingleWildcard in node.branches
       then [NewIter(node.branches[SingleWildcard], path[1..], sub + [SingleWildcard])] else [])
      + (if path[0] in node.branches
         then [NewIter(node.branches[path[0]], path[1..], sub + [path[0]])] else [])
  }

  function Prepared(it: Iter): Iter
    requires it.subPath.Some?
  {
    it.(items := it.items + NodeItems(it.node, it.path, it.subPath.value),
        subs := it.subs + NodeSubs(it.node, it.path, it.subPath.value),
        subPath := None)
  }

  // ---------- the iterator ----------

  /** Sub-iterators are one level further along the topic, and an iterator is expanded once. */
  predicate WellFormed(it: Iter) {
    && (forall i | 0 <= i < |it.subs| :: |it.subs[i].path| + 1 == |it.path| && WellFormed(it.subs[i]))
    && (it.subPath.Some? ==> it.items == [] && it.subs == [])
  }

  function NextItem(it: Iter): (r: (Option<Topic>, Iter))
    requires WellFormed(it)
    ensures WellFormed(r.1) && r.1.path == it.path
    decreases |it.path|, 0, |it.subs|
  {
    if it.items != [] then
      (Some(it.items[|it.items| - 1]), it.(items := it.items[..|it.items| - 1]))
    else if it.subs == [] then (None, it)
    else
      var (item, first) := Next(it.subs[0]);
      if item.Some? then (item, it.(subs := it.subs[0 := first]))
      else NextItem(it.(subs := it.subs[1..]))
  }

  function Next(it: Iter): (r: (Option<Topic>, Iter))
    requires WellFormed(it)
    ensures WellFormed(r.1) && r.1.path == it.path
    decreases |it.path|, 1
  {
    var (item, it') := NextItem(it);
    if item.Some? || it'.subPath.None? then (item, it') else NextItem(Prepared(it'))
  }

  // ---------- what is left in an iterator ----------

  /** Everything below a node, expanded at once. */
  function Eager(node: FilterTree, path: Topic, sub: Topic): seq<Topic>
    decreases |path|
  {
    Reversed(NodeItems(node, path, sub))
    + (if path != [] && !Blocked(node, path, sub) && SingleWildcard in node.branches
       then Eager(node.branches[SingleWildcard], path[1..], sub + [SingleWildcard]) else [])
    + (if path != [] && path[0] in node.branches
       then Eager(node.branches[path[0]], path[1..], sub + [path[0]]) else [])
  }

  function Remaining(it: Iter): seq<Topic>
    decreases it, 1
  {
    Reversed(it.items) + RemainingAll(it.subs)
    + (if it.subPath.Some? then Eager(it.node, it.path, it.subPath.value) else [])
  }

  function RemainingAll(subs: seq<Iter>): seq<Topic>
    decreases subs, 0
  {
    if subs == [] then [] else Remaining(subs[0]) + RemainingAll(subs[1..])
  }

  /** Expanding a node changes nothing about what is left. */
  lemma {:induction false} PreparedRemaining(it: Iter)
    requires WellFormed(it) && it.subPath.Some?
    ensures WellFormed(Prepared(it)) && Remaining(Prepared(it)) == Remaining(it)
  {
    hide Eager, NodeItems, NodeSubs, Reversed, Remaining, RemainingAll;
    var items, subs := NodeItems(it.node, it.path, it.subPath.value), NodeSubs(it.node, it.path, it.subPath.value);
    assert it.items + items == items && it.subs + subs == subs;
    SubsRemaining(it.node, it.path, it.subPath.value);
    FreshRemaining(it);
    ExpandedRemaining(Prepared(it));
  }

  lemma FreshRemaining(it: Iter)
    requires it.subPath.Some? && it.items == [] && it.subs == []
    ensures Remaining(it) == Eager(it.node, it.path, it.subPath.value)
  {
  }

  lemma ExpandedRemaining(it: Iter)
    requires it.subPath.None?
    ensures Remaining(it) == Reversed(it.items) + RemainingAll(it.subs)
  {
  }

  lemma {:induction false} SubsRemaining(node: FilterTree, path: Topic, sub: Topic)
    ensures forall it | it in NodeSubs(node, path, sub) :: |it.path| + 1 == |path| && WellFormed(it)
    ensures Eager(node, path, sub) == Reversed(NodeItems(node, path, sub)) + RemainingAll(NodeSubs(node, path, sub))
  {
    hide NodeItems, Reversed, Remaining;
    var subs := NodeSubs(node, path, sub);
    forall i | 0 <= i < |subs| ensures Remaining(subs[i]) == Eager(subs[i].node, subs[i].path, subs[i].subPath.value) {
      FreshRemaining(subs[i]);
    }
    if |subs| > 0 {
      assert RemainingAll(subs) == Remaining(subs[0]) + RemainingAll(subs[1..]);
      if |subs| == 2 {
        assert subs[1..] == [subs[1]];
        assert RemainingAll([subs[1]]) == Remaining(subs[1]) + RemainingAll([]);
      }
    }
  }

  lemma {:induction false} PopRemaining(it: Iter)
    requires it.items != []
    ensures Remaining(it) == [it.items[|it.items| - 1]] + Remaining(it.(items := it.items[..|it.items| - 1]))
  {
  }

  lemma {:induction false} FirstSubRemaining(it: Iter)
    requires it.items == [] && it.subs != []
    ensures Remaining(it) == Remaining(it.subs[0]) + Remaining(it.(subs := it.subs[1..]))
  {
  }

  lemma {:induction false} NextItemCorrect(it: Iter)
    requires WellFormed(it)
    ensures var (item, it') := NextItem(it);
            && (item.Some? ==> Remaining(it) == [item.value] + Remaining(it'))
            && (item.None? ==> it'.items == [] && it'.subs == [] && it'.subPath == it.subPath
                               && it'.node == it.node && Remaining(it) == Remaining(it'))
    decreases |it.path|, 0, |it.subs|
  {
    hide Remaining, Next;
    if it.items != [] {
      PopRemaining(it);
    } else if it.subs != [] {
      NextCorrect(it.subs[0]);
      FirstSubRemaining(it);
      var (item, first) := Next(it.subs[0]);
      if item.Some? {
        var it' := it.(subs := it.subs[0 := first]);
        FirstSubRemaining(it');
        assert it'.subs[1..] == it.subs[1..];
      } else {
        NextItemCorrect(it.(subs := it.subs[1..]));
      }
    }
  }

  /** Each call yields the next of what is left, and stops only when nothing is. */
  lemma {:induction false} NextCorrect(it: Iter)
    requires WellFormed(it)
    ensures var (item, it') := Next(it);
            Remaining(it) == (if item.Some? then [item.value] else []) + Remaining(it')
            && (item.None? ==> Remaining(it') == [])
    decreases |it.path|, 1
  {
    hide Eager, NextItem;
    NextItemCorrect(it);
    var (item, it') := NextItem(it);
    if item.None? && it'.subPath.Some? {
      PreparedRemaining(it');
      NextItemCorrect(Prepared(it'));
    }
  }

  // ---------- every matching filter, once ----------

  ghost predicate LegalFilters(node: FilterTree) {
    forall g | Get(node, g).Some? :: IsFilter(g)
  }

  /** The filters below a node that the rest of the topic asks for. */
  predicate Wanted(g: Topic, path: Topic, atRoot: bool) {
    LevelsMatch(g, path) && !(atRoot && HiddenFromWildcard(g, path))
  }

  ghost predicate Yields(x: Topic, node: FilterTree, path: Topic, sub: Topic) {
    && sub <= x
    && Get(node, x[|sub|..]).Some? && Wanted(x[|sub|..], path, sub == [])
  }

  ghost predicate ListsFilters(out: seq<Topic>, node: FilterTree, path: Topic, sub: Topic) {
    && (forall i | 0 <= i < |out| :: Yields(out[i], node, path, sub))
    && (forall g | Get(node, g).Some? && Wanted(g, path, sub == []) :: sub + g in out)
    && (forall i, j | 0 <= i < j < |out| :: out[i] != out[j])
  }

  lemma {:induction false} ChildLegal(node: FilterTree, k: Level)
    requires LegalFilters(node) && k in node.branches
    ensures LegalFilters(node.branches[k])
    ensures forall g | Get(node.branches[k], g).Some? && k == MultiWildcard :: g == []
  {
    forall g | Get(node.branches[k], g).Some? ensures IsFilter(g) && (k == MultiWildcard ==> g == []) {
      var kg := [k] + g;
      assert kg[1..] == g && Get(node, kg).Some?;
      assert forall i | 0 <= i < |g| :: g[i] == kg[i + 1];
      assert kg[0] == k;
    }
  }

  lemma {:induction false} ChildYields(x: Topic, node: FilterTree, path: Topic, sub: Topic, k: Level)
    requires LegalFilters(node) && path != [] && k in node.branches && k != MultiWildcard
    requires LevelMatches(k, path[0]) && !(sub == [] && k == SingleWildcard && path[0].Metadata?)
    ensures Yields(x, node.branches[k], path[1..], sub + [k]) <==> sub + [k] <= x && Yields(x, node, path, sub)
  {
  }

  lemma {:induction false} ItemsYield(node: FilterTree, path: Topic, sub: Topic)
    requires LegalFilters(node)
    ensures forall x | x in NodeItems(node, path, sub) ::
              Yields(x, node, path, sub) && (x == sub || x == sub + [MultiWildcard])
  {
    LevelsMatchStep([], path);
    LevelsMatchStep([MultiWildcard], path);
    assert sub[|sub|..] == [] && (sub + [MultiWildcard])[|sub|..] == [MultiWildcard];
    assert [MultiWildcard][1..] == [];
  }

  lemma {:induction false} ChildPart(out: seq<Topic>, node: FilterTree, path: Topic, sub: Topic, k: Level)
    requires LegalFilters(node) && path != [] && k in node.branches && k != MultiWildcard
    requires LevelMatches(k, path[0]) && !(sub == [] && k == SingleWildcard && path[0].Metadata?)
    requires ListsFilters(out, node.branches[k], path[1..], sub + [k])
    ensures forall i | 0 <= i < |out| :: sub + [k] <= out[i] && Yields(out[i], node, path, sub)
    ensures forall g | g != [] && g[0] == k && Get(node, g).Some? && Wanted(g, path, sub == []) :: sub + g in out
  {
    hide Get, Wanted;
    forall i | 0 <= i < |out| ensures sub + [k] <= out[i] && Yields(out[i], node, path, sub) {
      ChildYields(out[i], node, path, sub, k);
    }
    forall g | g != [] && g[0] == k && Get(node, g).Some? && Wanted(g, path, sub == []) ensures sub + g in out {
      var x := sub + g;
      assert x[|sub|..] == g && Yields(x, node, path, sub);
      ChildYields(x, node, path, sub, k);
      var g' := x[|sub + [k]|..];
      assert Get(node.branches[k], g').Some? && Wanted(g', path[1..], false);
      assert sub + [k] + g' == x;
    }
  }

  function PlusPart(node: FilterTree, path: Topic, sub: Topic): seq<Topic> {
    if path != [] && !Blocked(node, path, sub) && SingleWildcard in node.branches
    then Eager(node.branches[SingleWildcard], path[1..], sub + [SingleWildcard]) else []
  }

  function LiteralPart(node: FilterTree, path: Topic, sub: Topic): seq<Topic> {
    if path != [] && path[0] in node.branches
    then Eager(node.branches[path[0]], path[1..], sub + [path[0]]) else []
  }

  ghost predicate AllUnder(s: seq<Topic>, sub: Topic, k: Level) {
    forall i | 0 <= i < |s| :: sub + [k] <= s[i]
  }

  ghost predicate AllYield(s: seq<Topic>, node: FilterTree, path: Topic, sub: Topic) {
    forall i | 0 <= i < |s| :: Yields(s[i], node, path, sub)
  }

  /** The eager expansion of a tree of legal filters lists those that match, each once. */
  lemma {:induction false} EagerLists(node: FilterTree, path: Topic, sub: Topic)
    requires LegalFilters(node) && IsName(path)
    ensures ListsFilters(Eager(node, path, sub), node, path, sub)
    decreases |path|, 1
  {
    hide Get, Wanted, NodeItems, Yields;
    PlusLists(node, path, sub);
    LiteralLists(node, path, sub);
    ItemsList(node, path, sub);
    var items, plus, lit := Reversed(NodeItems(node, path, sub)), PlusPart(node, path, sub), LiteralPart(node, path, sub);
    var out := Eager(node, path, sub);
    assert out == items + plus + lit;
    if path != [] {
      assert !Wild(path[0]);
      PartsDistinct(items, plus, lit, sub, path[0]);
    }
    forall g | Get(node, g).Some? && Wanted(g, path, sub == []) ensures sub + g in out {
      WantedPart(node, path, sub, g);
    }
  }

  lemma {:induction false} WantedPart(node: FilterTree, path: Topic, sub: Topic, g: Topic)
    requires LegalFilters(node) && IsName(path) && Get(node, g).Some? && Wanted(g, path, sub == [])
    ensures || g == [] || g == [MultiWildcard]
            || (path != [] && g[0] == SingleWildcard && !Blocked(node, path, sub))
            || (path != [] && g[0] == path[0])
    ensures g != [] ==> g[0] in node.branches
  {
  }

  lemma {:induction false} PlusLists(node: FilterTree, path: Topic, sub: Topic)
    requires LegalFilters(node) && IsName(path)
    ensures var plus := PlusPart(node, path, sub);
            NoDuplicates(plus) && AllUnder(plus, sub, SingleWildcard) && AllYield(plus, node, path, sub)
            && (path != [] && !Blocked(node, path, sub) ==>
                  forall g | g != [] && g[0] == SingleWildcard && Get(node, g).Some? && Wanted(g, path, sub == []) ::
                    sub + g in plus)
    decreases |path|, 0
  {
    hide Eager, Wanted;
    if path != [] && !Blocked(node, path, sub) && SingleWildcard in node.branches {
      ChildLegal(node, SingleWildcard);
      EagerLists(node.branches[SingleWildcard], path[1..], sub + [SingleWildcard]);
      ChildPart(PlusPart(node, path, sub), node, path, sub, SingleWildcard);
    }
  }

  lemma {:induction false} LiteralLists(node: FilterTree, path: Topic, sub: Topic)
    requires LegalFilters(node) && IsName(path)
    ensures var lit := LiteralPart(node, path, sub);
            NoDuplicates(lit) && (path != [] ==> AllUnder(lit, sub, path[0])) && AllYield(lit, node, path, sub)
            && (path != [] ==>
                  forall g | g != [] && g[0] == path[0] && Get(node, g).Some? && Wanted(g, path, sub == []) ::
                    sub + g in lit)
    decreases |path|, 0
  {
    hide Eager, Wanted;
    if path != [] && path[0] in node.branches {
      assert !Wild(path[0]);
      ChildLegal(node, path[0]);
      EagerLists(node.branches[path[0]], path[1..], sub + [path[0]]);
      ChildPart(LiteralPart(node, path, sub), node, path, sub, path[0]);
    }
  }

  lemma {:induction false} ItemsList(node: FilterTree, path: Topic, sub: Topic)
    requires LegalFilters(node)
    ensures var items := Reversed(NodeItems(node, path, sub));
            && NoDuplicates(items) && AllYield(items, node, path, sub)
            && (forall i | 0 <= i < |items| :: items[i] == sub || items[i] == sub + [MultiWildcard])
            && (forall g | (g == [] || g == [MultiWildcard]) && Get(node, g).Some? && Wanted(g, path, sub == []) ::
                  sub + g in items)
  {
    hide Reversed, Wanted;
    var items := NodeItems(node, path, sub);
    ItemsYield(node, path, sub);
    assert NoDuplicates(items);
    ReversedDistinct(items);
    ItemsComplete(node, path, sub);
  }

  lemma {:induction false} ItemsComplete(node: FilterTree, path: Topic, sub: Topic)
    requires LegalFilters(node)
    ensures forall g | (g == [] || g == [MultiWildcard]) && Get(node, g).Some? && Wanted(g, path, sub == []) ::
              sub + g in NodeItems(node, path, sub)
  {
    LevelsMatchStep([], path);
    assert sub + [] == sub;
    assert [MultiWildcard][1..] == [];
  }

  lemma {:induction false} PartsDistinct(items: seq<Topic>, plus: seq<Topic>, lit: seq<Topic>, sub: Topic, k: Level)
    requires !Wild(k) && NoDuplicates(items) && NoDuplicates(plus) && NoDuplicates(lit)
    requires forall i | 0 <= i < |items| :: items[i] == sub || items[i] == sub + [MultiWildcard]
    requires AllUnder(plus, sub, SingleWildcard) && AllUnder(lit, sub, k)
    ensures NoDuplicates(items + plus + lit)
  {
    assert forall i | 0 <= i < |plus| :: |plus[i]| > |sub| && plus[i][|sub|] == (sub + [SingleWildcard])[|sub|];
    assert forall i | 0 <= i < |lit| :: |lit[i]| > |sub| && lit[i][|sub|] == (sub + [k])[|sub|];
    assert forall i | 0 <= i < |items| && |items[i]| > |sub| :: items[i][|sub|] == MultiWildcard;
  }

  // ---------- the index ----------

  /** The router's filter index. */
  class TopicTree {
    var root: FilterTree
    ghost var filters: set<Topic>

    ghost predicate Valid()
      reads this
    {
      Indexes(root, filters)
    }

    constructor ()
      ensures Valid() && filters == {}
    {
      root := Tree(None, map[]);
      filters := {};
    }

    method Insert(filter: Topic)
      requires Valid() && IsFilter(filter)
      modifies this
      ensures Valid() && filters == old(filters) + {filter}
    {
      hide IsFilter, Get, Inserted;
      InsertKeepsPruned(root, filter, ());
      forall g ensures Get(Inserted(root, filter, ()), g) == if g == filter then Some(()) else Get(root, g) {
        GetInserted(root, filter, (), g);
      }
      root, filters := Inserted(root, filter, ()), filters + {filter};
    }

    method Remove(filter: Topic)
      requires Valid()
      modifies this
      ensures Valid() && filters == old(filters) - {filter}
    {
      hide IsFilter, Get, Removed;
      RemoveKeepsPruned(root, filter);
      forall g ensures Get(Removed(root, filter), g) == if g == filter then None else Get(root, g) {
        GetRemoved(root, filter, g);
      }
      root, filters := Removed(root, filter), filters - {filter};
    }

    /** Replaces the whole tree, as restoring a snapshot does. */
    method Assign(t: FilterTree, ghost fs: set<Topic>)
      requires Indexes(t, fs)
      modifies this
      ensures Valid() && root == t && filters == fs
    {
      root, filters := t, fs;
    }

    /** Each filter in the index that matches the topic, once, drawn from the lazy iterator. */
    method Matched(topic: Topic) returns (out: seq<Topic>)
      requires Valid() && IsName(topic)
      ensures forall f :: f in out <==> f in filters && Matches(f, topic)
      ensures NoDuplicates(out)
    {
      hide Get, Eager, Remaining, Wanted, Yields, Next;
      var it := NewIter(root, topic, []);
      FreshRemaining(it);
      EagerLists(root, topic, []);
      RootFilters(root, filters, topic);
      out := [];
      var done := false;
      while !done
        invariant WellFormed(it) && out + Remaining(it) == Eager(root, topic, [])
        invariant done ==> Remaining(it) == []
        decreases |Remaining(it)|, !done
      {
        NextCorrect(it);
        var (item, it') := Next(it);
        it := it';
        if item.Some? {
          out := out + [item.value];
        } else {
          done := true;
        }
      }
      assert out == Eager(root, topic, []);
    }
  }

  ghost predicate Indexes(t: FilterTree, filters: set<Topic>) {
    && Pruned(t)
    && (forall g :: Get(t, g).Some? <==> g in filters)
    && (forall g | g in filters :: IsFilter(g))
  }

  lemma {:induction false} RootFilters(t: FilterTree, filters: set<Topic>, topic: Topic)
    requires Indexes(t, filters) && ListsFilters(Eager(t, topic, []), t, topic, [])
    ensures forall f :: f in Eager(t, topic, []) <==> f in filters && Matches(f, topic)
  {
  }
}
