/** From the choices of each node to one member for the whole cluster
    (rmqtt-plugins/rmqtt-cluster-broadcast/src/shared.rs). */
module SharedCluster {
  import opened Wrappers
  import opened Topics
  import opened Listings
  import opened RoutingTable
  import opened SharedChoice
  import opened SharedNode

  // ---------- the choice across nodes ----------

  type Key = (Topic, string)

  function KeyOf(r: Relation): Key
    requires r.shared.Some?
  {
    (r.filter, r.shared.value.group)
  }

  function WithKey(rs: seq<Relation>, k: Key): seq<Relation>
    requires forall r | r in rs :: r.shared.Some?
  {
    if rs == [] then []
    else WithKey(rs[..|rs| - 1], k) + (if KeyOf(rs[|rs| - 1]) == k then [rs[|rs| - 1]] else [])
  }

  lemma {:induction false} WithKeyIn(rs: seq<Relation>, k: Key, r: Relation)
    requires forall r | r in rs :: r.shared.Some?
    ensures r in WithKey(rs, k) <==> r in rs && r.shared.Some? && KeyOf(r) == k
  {
    if rs != [] {
      WithKeyIn(rs[..|rs| - 1], k, r);
      assert rs == rs[..|rs| - 1] + [rs[|rs| - 1]];
    }
  }

  /** One relation per key, online if any relation with that key is. */
  ghost predicate Picked(picks: map<Key, Relation>, shared: seq<Relation>) {
    && (forall r | r in shared :: r.shared.Some? && KeyOf(r) in picks)
    && (forall k | k in picks :: picks[k] in shared && KeyOf(picks[k]) == k)
    && (forall r | r in shared && r.shared.value.online :: picks[KeyOf(r)].shared.value.online)
  }

  function CandidatesOf(rs: seq<Relation>): seq<Candidate>
    requires forall r | r in rs :: r.shared.Some?
  {
    seq(|rs|, i requires 0 <= i < |rs| =>
      Candidate(rs[i].node, rs[i].client, rs[i].opts, rs[i].subIds, Some(rs[i].shared.value.online)))
  }

  function GroupOf(groups: map<Key, seq<Relation>>, k: Key): seq<Relation> {
    if k in groups then groups[k] else []
  }

  method GroupByKey(shared: seq<Relation>) returns (groups: map<Key, seq<Relation>>)
    requires forall r | r in shared :: r.shared.Some?
    ensures forall k :: GroupOf(groups, k) == WithKey(shared, k)
    ensures forall k | k in groups :: groups[k] != []
  {
    groups := map[];
    for i := 0 to |shared|
      invariant forall k :: GroupOf(groups, k) == WithKey(shared[..i], k)
      invariant forall k | k in groups :: groups[k] != []
    {
      var r := shared[i];
      assert shared[..i + 1][..i] == shared[..i];
      groups := groups[KeyOf(r) := GroupOf(groups, KeyOf(r)) + [r]];
    }
    assert shared[..|shared|] == shared;
  }

  /** `r` is in the group, and online if any of it is. */
  ghost predicate BestOf(r: Relation, rs: seq<Relation>) {
    r in rs && r.shared.Some? && forall x | x in rs :: x.shared.Some? && (x.shared.value.online ==> r.shared.value.online)
  }

  lemma {:induction false} GroupSound(groups: map<Key, seq<Relation>>, shared: seq<Relation>, k: Key)
    requires forall r | r in shared :: r.shared.Some?
    requires GroupOf(groups, k) == WithKey(shared, k) && k in groups
    ensures forall r | r in groups[k] :: r.shared.Some? && r in shared && KeyOf(r) == k
  {
    forall r | r in groups[k] ensures r.shared.Some? && r in shared && KeyOf(r) == k {
      WithKeyIn(shared, k, r);
    }
  }

  lemma {:induction false} PickedFromGroups(picks: map<Key, Relation>, groups: map<Key, seq<Relation>>, shared: seq<Relation>)
    requires forall r | r in shared :: r.shared.Some?
    requires forall k :: GroupOf(groups, k) == WithKey(shared, k)
    requires picks.Keys == groups.Keys && forall k | k in picks :: BestOf(picks[k], groups[k])
    ensures Picked(picks, shared)
  {
    hide WithKey;
    forall k | k in picks ensures picks[k] in shared && KeyOf(picks[k]) == k {
      GroupSound(groups, shared, k);
    }
    forall r | r in shared ensures KeyOf(r) in picks && (r.shared.value.online ==> picks[KeyOf(r)].shared.value.online) {
      WithKeyIn(shared, KeyOf(r), r);
      assert r in GroupOf(groups, KeyOf(r));
      assert BestOf(picks[KeyOf(r)], groups[KeyOf(r)]);
    }
  }

  // ---------- what is sent where ----------

  type Deliveries = map<nat, seq<Relation>>   // by the node they go to

  function DeliveriesTo(d: Deliveries, node: nat): seq<Relation> {
    if node in d then d[node] else []
  }

  ghost predicate Taken(place: map<Key, (nat, nat)>, node: nat, i: nat) {
    exists k :: k in place && place[k] == (node, i)
  }

  /** Each choice has one place, at its own node and with its own options, and there is nothing
      else: places and deliveries correspond one to one. */
  ghost predicate Placed(d: Deliveries, picks: map<Key, Relation>, place: map<Key, (nat, nat)>) {
    && place.Keys == picks.Keys
    && (forall k | k in picks ::
          && place[k].0 == picks[k].node && place[k].1 < |DeliveriesTo(d, picks[k].node)|
          && DeliveriesTo(d, picks[k].node)[place[k].1] == picks[k].(shared := None))
    && (forall k, l | k in place && l in place && k != l :: place[k] != place[l])
    && AllTaken(d, place)
  }

  ghost predicate AllTaken(d: Deliveries, place: map<Key, (nat, nat)>) {
    forall node, i | node in d && 0 <= i < |d[node]| :: Taken(place, node, i)
  }

  lemma {:induction false} PlacedNext(
    d: Deliveries, picks: map<Key, Relation>, place: map<Key, (nat, nat)>, k: Key, r: Relation)
    requires Placed(d, picks, place) && k !in picks
    ensures var to := DeliveriesTo(d, r.node);
            Placed(d[r.node := to + [r.(shared := None)]], picks[k := r], place[k := (r.node, |to|)])
  {
    hide AllTaken;
    TakenNext(d, place, k, r);
  }

  lemma {:induction false} TakenNext(d: Deliveries, place: map<Key, (nat, nat)>, k: Key, r: Relation)
    requires AllTaken(d, place) && k !in place
    ensures var to := DeliveriesTo(d, r.node);
            AllTaken(d[r.node := to + [r.(shared := None)]], place[k := (r.node, |to|)])
  {
    var to := DeliveriesTo(d, r.node);
    var d', place' := d[r.node := to + [r.(shared := None)]], place[k := (r.node, |to|)];
    forall node, i | node in d' && 0 <= i < |d'[node]| ensures Taken(place', node, i) {
      if node == r.node && i == |to| {
        assert place'[k] == (node, i);
      } else {
        assert Taken(place, node, i);
        var l :| l in place && place[l] == (node, i);
        assert place'[l] == (node, i);
      }
    }
  }

  /** The second choice: one delivery for each filter and group among all replies. */
  method ChooseAcross(shared: seq<Relation>, live: Live)
    returns (nodeSubs: Deliveries, picks: map<Key, Relation>, place: map<Key, (nat, nat)>)
    requires forall r | r in shared :: r.shared.Some?
    ensures Picked(picks, shared) && Placed(nodeSubs, picks, place)
  {
    hide WithKey, Placed;
    var groups := GroupByKey(shared);
    picks, place, nodeSubs := map[], map[], map[];
    NothingPlaced();
    var todo := groups.Keys;
    while todo != {}
      invariant todo <= groups.Keys && picks.Keys == groups.Keys - todo
      invariant forall k | k in picks :: BestOf(picks[k], groups[k])
      invariant Placed(nodeSubs, picks, place)
      decreases todo
    {
      var k :| k in todo;
      todo := todo - {k};
      GroupSound(groups, shared, k);
      var choice := Choice(CandidatesOf(groups[k]), live);
      var r := groups[k][choice.value.0];
      assert forall i | 0 <= i < |groups[k]| ::
        IsOnline(CandidatesOf(groups[k])[i], live) == groups[k][i].shared.value.online;
      PlacedNext(nodeSubs, picks, place, k, r);
      var to := DeliveriesTo(nodeSubs, r.node);
      nodeSubs := nodeSubs[r.node := to + [r.(shared := None)]];
      picks, place := picks[k := r], place[k := (r.node, |to|)];
    }
    PickedFromGroups(picks, groups, shared);
  }

  lemma NothingPlaced()
    ensures Placed(map[], map[], map[])
  {
  }

  /** Whatever is delivered was chosen, and goes to the node it names. */
  lemma {:induction false} DeliveredWasPicked(
    d: Deliveries, picks: map<Key, Relation>, place: map<Key, (nat, nat)>, node: nat, i: nat) returns (k: Key)
    requires Placed(d, picks, place) && node in d && i < |d[node]|
    ensures k in picks && d[node][i] == picks[k].(shared := None) && d[node][i].node == node
    ensures forall l | l in picks && l != k :: place[l] != (node, i)
  {
    assert Taken(place, node, i);
    k :| k in place && place[k] == (node, i);
  }

  // ---------- the whole cluster ----------

  /** What a replying node knows: its subscribers, the filters that match, who is connected. */
  datatype NodeData = NodeData(relations: map<Topic, Subs>, matched: seq<Topic>, live: Live)

  ghost predicate WellFormed(nodes: seq<NodeData>) {
    forall n | 0 <= n < |nodes| :: NoDuplicates(nodes[n].matched)
  }

  ghost predicate MemberOn(nd: NodeData, me: Id, k: Key, c: ClientId) {
    k.0 in nd.matched && InGroup(SubsIn(nd.relations, k.0), me, c, k.1)
  }

  ghost predicate OnlineOn(nd: NodeData, k: Key, c: ClientId) {
    OnlineIn(SubsIn(nd.relations, k.0), c, nd.live)
  }

  ghost predicate SomeMember(nodes: seq<NodeData>, me: Id, k: Key) {
    exists n, c :: 0 <= n < |nodes| && MemberOn(nodes[n], me, k, c)
  }

  ghost predicate SomeOnline(nodes: seq<NodeData>, me: Id, k: Key) {
    exists n, c :: 0 <= n < |nodes| && MemberOn(nodes[n], me, k, c) && OnlineOn(nodes[n], k, c)
  }

  /** `r` is the entry of a member on this node, with its node and options as recorded there. */
  ghost predicate EntryOn(nd: NodeData, me: Id, k: Key, r: Relation) {
    && MemberOn(nd, me, k, r.client) && r.filter == k.0
    && r.node == SubsIn(nd.relations, k.0)[r.client].0.nodeId && r.opts == SubsIn(nd.relations, k.0)[r.client].1
    && r.shared.Some? && r.shared.value.group == k.1 && r.shared.value.online == OnlineOn(nd, k, r.client)
  }

  ghost predicate GoodChoice(nodes: seq<NodeData>, me: Id, k: Key, r: Relation) {
    && (exists n :: 0 <= n < |nodes| && EntryOn(nodes[n], me, k, r))
    && (SomeOnline(nodes, me, k) ==> r.shared.value.online)
  }

  /** MQTT 5.0 section 4.8.2 for one shared subscription: if it has an eligible member anywhere, one
      is chosen, online whenever one of them is, on whichever node; otherwise nobody is. */
  ghost predicate ServedRight(nodes: seq<NodeData>, me: Id, picks: map<Key, Relation>, k: Key) {
    && (k in picks <==> SomeMember(nodes, me, k))
    && (k in picks ==> GoodChoice(nodes, me, k, picks[k]))
  }

  ghost predicate OneMemberEach(nodes: seq<NodeData>, me: Id, picks: map<Key, Relation>) {
    forall k :: ServedRight(nodes, me, picks, k)
  }

  ghost predicate AllOutcomes(nodes: seq<NodeData>, me: Id, adds: seq<seq<Relation>>) {
    |adds| == |nodes| && forall n | 0 <= n < |nodes| ::
      Outcome(adds[n], nodes[n].relations, nodes[n].matched, me, nodes[n].live)
  }

  ghost predicate Replied(adds: seq<seq<Relation>>, r: Relation) {
    r.shared.Some? && exists n :: 0 <= n < |adds| && InReply(CollectAll(adds[n]), r)
  }

  ghost predicate Pooled(shared: seq<Relation>, adds: seq<seq<Relation>>) {
    forall r :: r in shared <==> Replied(adds, r)
  }

  /** The choices a publication may end with, over all random choices on all nodes. */
  ghost predicate Possible(nodes: seq<NodeData>, me: Id, picks: map<Key, Relation>) {
    exists adds, shared :: AllOutcomes(nodes, me, adds) && Pooled(shared, adds) && Picked(picks, shared)
  }

  ghost predicate ChoiceSurvives(adds: seq<Relation>, k: Key) {
    exists i :: 0 <= i < |adds| && ChosenKey(adds[i], k.0, k.1) && Survives(CollectAll(adds), adds[i])
  }

  /** Every reply is the entry of a member on the replying node, offline only if all of them are,
      and survived collection there. */
  lemma {:induction false} ReplyIsEntry(nodes: seq<NodeData>, me: Id, adds: seq<seq<Relation>>, r: Relation) returns (n: nat)
    requires AllOutcomes(nodes, me, adds) && Replied(adds, r)
    ensures n < |nodes| && EntryOn(nodes[n], me, KeyOf(r), r)
    ensures forall c | MemberOn(nodes[n], me, KeyOf(r), c) && OnlineOn(nodes[n], KeyOf(r), c) :: r.shared.value.online
    ensures ChoiceSurvives(adds[n], KeyOf(r))
  {
    hide CollectAll, Survives, InReply;
    n :| n < |adds| && InReply(CollectAll(adds[n]), r);
    var i := ReplySurvived(adds[n], r);
    var nd := nodes[n];
    assert Outcome(adds[n], nd.relations, nd.matched, me, nd.live);
    ChosenEntry(adds[n][i], r, nd, me);
    assert ChosenKey(adds[n][i], KeyOf(r).0, KeyOf(r).1);
  }

  lemma {:induction false} ChosenEntry(a: Relation, r: Relation, nd: NodeData, me: Id)
    requires a.filter in nd.matched && Justified(a, nd.relations, me, nd.live) && SameRelation(a, r) && r.shared.Some?
    ensures EntryOn(nd, me, KeyOf(r), r)
    ensures forall c | MemberOn(nd, me, KeyOf(r), c) && OnlineOn(nd, KeyOf(r), c) :: r.shared.value.online
  {
  }

  // ---------- when everybody is served ----------

  /** A node that cannot lose its choice for the group and has a member as good as any. */
  ghost predicate Anchor(nodes: seq<NodeData>, me: Id, k: Key, n: nat) {
    && n < |nodes| && !CanLose(nodes[n].relations, nodes[n].matched, me, nodes[n].live, k.0, k.1)
    && (exists c :: MemberOn(nodes[n], me, k, c) && (SomeOnline(nodes, me, k) ==> OnlineOn(nodes[n], k, c)))
  }

  ghost predicate Anchored(nodes: seq<NodeData>, me: Id, k: Key) {
    exists n: nat :: Anchor(nodes, me, k, n)
  }

  /** An anchor's choice reaches the pool, and is online if anyone is. */
  lemma {:induction false} AnchorReplies(nodes: seq<NodeData>, me: Id, adds: seq<seq<Relation>>, k: Key, n: nat)
    returns (r: Relation)
    requires AllOutcomes(nodes, me, adds) && Anchor(nodes, me, k, n)
    ensures Replied(adds, r) && KeyOf(r) == k && (SomeOnline(nodes, me, k) ==> r.shared.value.online)
    ensures EntryOn(nodes[n], me, k, r)
  {
    hide CollectAll, CanLose, Survives, InReply, SomeOnline;
    var nd := nodes[n];
    var a := adds[n];
    assert Outcome(a, nd.relations, nd.matched, me, nd.live);
    var c :| MemberOn(nd, me, k, c) && (SomeOnline(nodes, me, k) ==> OnlineOn(nd, k, c));
    assert HasKey(a, k.0, k.1);
    var i :| 0 <= i < |a| && ChosenKey(a[i], k.0, k.1);
    SafeChoiceKept(a, nd.relations, nd.matched, me, nd.live, k.0, k.1);
    r := SurvivorReplied(a, a[i]);
    ChosenEntry(a[i], r, nd, me);
  }

  lemma {:induction false} AnchoredServed(nodes: seq<NodeData>, me: Id, picks: map<Key, Relation>, k: Key)
    requires Possible(nodes, me, picks) && (SomeMember(nodes, me, k) ==> Anchored(nodes, me, k))
    ensures ServedRight(nodes, me, picks, k)
  {
    hide AllOutcomes, EntryOn, MemberOn, OnlineOn, SomeOnline, Replied, Survives, CollectAll;
    var adds, shared :| AllOutcomes(nodes, me, adds) && Pooled(shared, adds) && Picked(picks, shared);
    if SomeMember(nodes, me, k) {
      var n: nat :| Anchor(nodes, me, k, n);
      var r := AnchorReplies(nodes, me, adds, k, n);
      assert r in shared;
    }
    if k in picks {
      assert picks[k] in shared;
      var n := ReplyIsEntry(nodes, me, adds, picks[k]);
      EntryIsMember(nodes[n], me, k, picks[k]);
    }
  }

  lemma EntryIsMember(nd: NodeData, me: Id, k: Key, r: Relation)
    requires EntryOn(nd, me, k, r)
    ensures MemberOn(nd, me, k, r.client)
  {
  }

  // ---------- and only then ----------

  /** Draws under which every node that can lose its choice for `k` does. */
  ghost predicate Worst(nodes: seq<NodeData>, adds: seq<seq<Relation>>, me: Id, k: Key) {
    |adds| == |nodes| && forall n | 0 <= n < |nodes| ::
      CanLose(nodes[n].relations, nodes[n].matched, me, nodes[n].live, k.0, k.1) ==> !ChoiceSurvives(adds[n], k)
  }

  lemma {:induction false} WorstOutcomes(nodes: seq<NodeData>, me: Id, k: Key) returns (adds: seq<seq<Relation>>)
    requires WellFormed(nodes)
    ensures AllOutcomes(nodes, me, adds) && Worst(nodes, adds, me, k)
  {
    hide Outcome, CanLose, Survives, CollectAll, ChosenKey;
    if nodes == [] {
      adds := [];
    } else {
      var n := |nodes| - 1;
      var nd := nodes[n];
      adds := WorstOutcomes(nodes[..n], me, k);
      var last;
      if CanLose(nd.relations, nd.matched, me, nd.live, k.0, k.1) {
        last := LosingOutcome(nd.relations, nd.matched, me, nd.live, k.0, k.1);
      } else {
        last := OutcomeServing(nd.relations, nd.matched, me, nd.live, "");
      }
      adds := adds + [last];
    }
  }

  ghost function ReplySet(cs: map<nat, Collector>): set<Relation> {
    (set n, r | n in cs && r in cs[n].v3 && r.shared.Some? :: r)
    + (set n, c | n in cs && c in cs[n].v5 && cs[n].v5[c].client == c && cs[n].v5[c].shared.Some? :: cs[n].v5[c])
  }

  lemma {:induction false} ReplySetIs(cs: map<nat, Collector>, r: Relation)
    ensures r in ReplySet(cs) <==> r.shared.Some? && InReply(cs, r)
  {
  }

  /** The replies of all nodes in some order. */
  lemma {:induction false} PoolExists(adds: seq<seq<Relation>>) returns (shared: seq<Relation>)
    ensures Pooled(shared, adds)
  {
    hide CollectAll, InReply, ReplySet;
    if adds == [] {
      shared := [];
    } else {
      var n := |adds| - 1;
      var before := PoolExists(adds[..n]);
      var out := Spelled(ReplySet(CollectAll(adds[n])));
      shared := before + out;
      forall r ensures r in out <==> r.shared.Some? && InReply(CollectAll(adds[n]), r) {
        ReplySetIs(CollectAll(adds[n]), r);
      }
      assert adds == adds[..n] + [adds[n]];
      PooledNext(before, adds[..n], out, adds[n]);
    }
  }

  lemma {:induction false} PooledNext(shared: seq<Relation>, adds: seq<seq<Relation>>, out: seq<Relation>, more: seq<Relation>)
    requires Pooled(shared, adds)
    requires forall r :: r in out <==> r.shared.Some? && InReply(CollectAll(more), r)
    ensures Pooled(shared + out, adds + [more])
  {
    hide CollectAll, InReply;
    var all := adds + [more];
    forall r ensures r in shared + out <==> Replied(all, r) {
      if Replied(adds, r) {
        var n :| 0 <= n < |adds| && InReply(CollectAll(adds[n]), r);
        assert all[n] == adds[n];
      }
      if r in out {
        assert all[|adds|] == more;
      }
    }
  }

  lemma {:induction false} PicksExist(shared: seq<Relation>) returns (picks: map<Key, Relation>)
    requires forall r | r in shared :: r.shared.Some?
    ensures Picked(picks, shared)
  {
    if shared == [] {
      picks := map[];
    } else {
      var n := |shared| - 1;
      var r := shared[n];
      picks := PicksExist(shared[..n]);
      assert shared == shared[..n] + [r];
      if KeyOf(r) !in picks || r.shared.value.online {
        picks := picks[KeyOf(r) := r];
      }
    }
  }

  /** Any online reply may win. */
  lemma {:induction false} PicksWith(shared: seq<Relation>, r: Relation) returns (picks: map<Key, Relation>)
    requires (forall x | x in shared :: x.shared.Some?) && r in shared && r.shared.value.online
    ensures Picked(picks, shared) && picks[KeyOf(r)] == r
  {
    picks := PicksExist(shared);
    picks := picks[KeyOf(r) := r];
  }

  lemma PickedKey(picks: map<Key, Relation>, shared: seq<Relation>, k: Key)
    requires Picked(picks, shared) && k in picks
    ensures picks[k] in shared && picks[k].shared.Some? && KeyOf(picks[k]) == k
  {
  }

  /** If every node with a member as good as any loses it, the group is not served right. */
  lemma {:induction false} WorstNotServed(
    nodes: seq<NodeData>, me: Id, adds: seq<seq<Relation>>, shared: seq<Relation>, picks: map<Key, Relation>, k: Key)
    requires AllOutcomes(nodes, me, adds) && Worst(nodes, adds, me, k) && Pooled(shared, adds) && Picked(picks, shared)
    requires SomeMember(nodes, me, k) && !Anchored(nodes, me, k)
    ensures !ServedRight(nodes, me, picks, k)
  {
    hide AllOutcomes, CanLose, SomeOnline, Replied, Survives, CollectAll, MemberOn, OnlineOn, SomeMember;
    if k in picks {
      assert picks[k] in shared;
      var n := ReplyIsEntry(nodes, me, adds, picks[k]);
      assert !Anchor(nodes, me, k, n);
    }
  }

  /** One shared subscription is served right, whatever is drawn, exactly if it has no eligible
      member or a node anchors it: subscriptions elsewhere do not matter. */
  lemma {:induction false} ServedIff(nodes: seq<NodeData>, me: Id, k: Key)
    requires WellFormed(nodes)
    ensures (forall picks | Possible(nodes, me, picks) :: ServedRight(nodes, me, picks, k))
       <==> (SomeMember(nodes, me, k) ==> Anchored(nodes, me, k))
  {
    hide SomeMember, Anchored, ServedRight, AllOutcomes, Picked, Pooled, WellFormed;
    if SomeMember(nodes, me, k) && !Anchored(nodes, me, k) {
      var picks := NotServed(nodes, me, k);
    } else {
      forall picks | Possible(nodes, me, picks) ensures ServedRight(nodes, me, picks, k) {
        AnchoredServed(nodes, me, picks, k);
      }
    }
  }

  lemma {:induction false} NotServed(nodes: seq<NodeData>, me: Id, k: Key) returns (picks: map<Key, Relation>)
    requires WellFormed(nodes) && SomeMember(nodes, me, k) && !Anchored(nodes, me, k)
    ensures Possible(nodes, me, picks) && !ServedRight(nodes, me, picks, k)
  {
    hide SomeMember, Anchored, ServedRight, AllOutcomes, Picked, WellFormed, Worst;
    var adds := WorstOutcomes(nodes, me, k);
    var shared := PoolExists(adds);
    assert forall r | r in shared :: Replied(adds, r);
    picks := PicksExist(shared);
    WorstNotServed(nodes, me, adds, shared, picks, k);
  }

  /** Every publication serves each shared subscription with an eligible member exactly one member,
      online if possible, exactly if a node anchors each of them. */
  lemma {:induction false} OneMemberEachIff(nodes: seq<NodeData>, me: Id)
    requires WellFormed(nodes)
    ensures (forall picks | Possible(nodes, me, picks) :: OneMemberEach(nodes, me, picks))
       <==> (forall k | SomeMember(nodes, me, k) :: Anchored(nodes, me, k))
  {
    hide SomeMember, Anchored, ServedRight, Possible, WellFormed;
    if forall picks | Possible(nodes, me, picks) :: OneMemberEach(nodes, me, picks) {
      forall k | SomeMember(nodes, me, k) ensures Anchored(nodes, me, k) {
        ServedIff(nodes, me, k);
      }
    }
    if forall k | SomeMember(nodes, me, k) :: Anchored(nodes, me, k) {
      forall picks, k | Possible(nodes, me, picks) ensures ServedRight(nodes, me, picks, k) {
        ServedIff(nodes, me, k);
      }
    }
  }

  /** One client with a plain subscription to "a/+" and, in group "g", one to "a/b", visited in
      this order, can keep a message to "a/b" from its group. */
  lemma {:induction false} ChoiceCanBeLost(c: ClientId, id: Id, me: Id, live: Live)
    ensures var wide, narrow := [Normal("a"), SingleWildcard], [Normal("a"), Normal("b")];
            var relations := map[
              wide := map[c := (id, V5(0, None, false, None))],
              narrow := map[c := (id, V5(0, Some("g"), false, None))]];
            var nodes := [NodeData(relations, [wide, narrow], live)];
            WellFormed(nodes) && exists picks :: Possible(nodes, me, picks) && !OneMemberEach(nodes, me, picks)
  {
    hide Possible, ServedRight;
    var wide, narrow := [Normal("a"), SingleWildcard], [Normal("a"), Normal("b")];
    var relations: map<Topic, Subs> := map[
      wide := map[c := (id, V5(0, None, false, None))],
      narrow := map[c := (id, V5(0, Some("g"), false, None))]];
    var matched := [wide, narrow];
    var nodes := [NodeData(relations, matched, live)];
    var k: Key := (narrow, "g");
    assert wide[1] != narrow[1];
    assert matched[0] == wide && matched[1] == narrow && Earlier(matched, wide, narrow);
    assert Swallowed(relations, matched, me, live, narrow, "g", wide, c);
    assert MemberOn(nodes[0], me, k, c);
    assert !Anchored(nodes, me, k);
    var picks := NotServed(nodes, me, k);
    assert !OneMemberEach(nodes, me, picks);
  }

  /** A publication may reach client `c` not at all: no node serves it outside groups, and it is not
      chosen for any. */
  ghost predicate MayMiss(nodes: seq<NodeData>, me: Id, c: ClientId) {
    exists adds: seq<seq<Relation>>, shared: seq<Relation>, picks: map<Key, Relation> ::
      && AllOutcomes(nodes, me, adds) && Pooled(shared, adds) && Picked(picks, shared)
      && (forall n, node | 0 <= n < |adds| :: !ServedLocally(adds[n], node, c))
      && forall k | k in picks :: picks[k].client != c
  }

  const WIDE: Topic := [Normal("a"), SingleWildcard]
  const NARROW: Topic := [Normal("a"), Normal("b")]

  /** Client `c` subscribed to "a/+" and, in group "g", to "a/b", visited the other way round; and a
      second member of the group, `d`, on another node. */
  ghost function TwoNodes(c: ClientId, d: ClientId, p: Id, q: Id, live: Live): seq<NodeData> {
    [NodeData(map[NARROW := map[c := (p, V5(0, Some("g"), false, None))], WIDE := map[c := (p, V5(0, None, false, None))]],
              [NARROW, WIDE], live),
     NodeData(map[NARROW := map[d := (q, V5(0, Some("g"), false, None))]], [NARROW], live)]
  }

  lemma {:induction false} TwoNodesAre(c: ClientId, d: ClientId, p: Id, q: Id, live: Live, me: Id)
    requires c != d && live(q.nodeId, d)
    ensures var nodes, k := TwoNodes(c, d, p, q, live), (NARROW, "g");
            && NARROW != WIDE && NoDuplicates(nodes[0].matched) && NoDuplicates(nodes[1].matched)
            && CanMiss(nodes[0].relations, nodes[0].matched, me, live, c, p.nodeId)
            && Anchor(nodes, me, k, 1) && SomeOnline(nodes, me, k)
            && (forall n, l, x | 0 <= n < 2 && MemberOn(nodes[n], me, l, x) :: l == k && (n == 1 ==> x == d))
  {
    var nodes, k: Key := TwoNodes(c, d, p, q, live), (NARROW, "g");
    assert NARROW[1] != WIDE[1];
    assert nodes[0].matched[0] == NARROW && nodes[0].matched[1] == WIDE && Earlier(nodes[0].matched, NARROW, WIDE);
    assert Masks(nodes[0].relations, nodes[0].matched, me, live, NARROW, c, p.nodeId);
    assert MemberOn(nodes[1], me, k, d) && OnlineOn(nodes[1], k, d);
  }

  lemma {:induction false} PlainSubscriberCanMiss(c: ClientId, d: ClientId, p: Id, q: Id, live: Live, me: Id)
    requires c != d && live(q.nodeId, d)
    ensures MayMiss(TwoNodes(c, d, p, q, live), me, c)
  {
    hide TwoNodes, CanMiss, Anchor, SomeOnline, MemberOn, InReply, AllOutcomes, Outcome, ServedLocally, CollectAll, Picked;
    var nodes, k: Key := TwoNodes(c, d, p, q, live), (NARROW, "g");
    TwoNodesAre(c, d, p, q, live, me);
    var first := MissingOutcome(nodes[0].relations, nodes[0].matched, me, live, c, p.nodeId);
    var second := OutcomeServing(nodes[1].relations, nodes[1].matched, me, live, d);
    var adds := [first, second];
    TwoOutcomes(c, d, p, q, live, me, adds);
    var shared := PoolExists(adds);
    var r := AnchorReplies(nodes, me, adds, k, 1);
    EntryIsMember(nodes[1], me, k, r);
    assert forall x | x in shared :: Replied(adds, x);
    var picks := PicksWith(shared, r);
    forall l | l in picks ensures picks[l].client != c {
      PickedKey(picks, shared, l);
      var n := ReplyIsEntry(nodes, me, adds, picks[l]);
      EntryIsMember(nodes[n], me, l, picks[l]);
    }
  }

  /** Under those draws no node serves `c` outside groups. */
  lemma {:induction false} TwoOutcomes(c: ClientId, d: ClientId, p: Id, q: Id, live: Live, me: Id, adds: seq<seq<Relation>>)
    requires var nodes := TwoNodes(c, d, p, q, live);
             && |adds| == 2 && c != d
             && Outcome(adds[0], nodes[0].relations, nodes[0].matched, me, live)
             && Outcome(adds[1], nodes[1].relations, nodes[1].matched, me, live)
    requires !ServedLocally(adds[0], p.nodeId, c)
    ensures |TwoNodes(c, d, p, q, live)| == 2 && AllOutcomes(TwoNodes(c, d, p, q, live), me, adds)
    ensures forall n, node | 0 <= n < |adds| :: !ServedLocally(adds[n], node, c)
  {
    hide CollectAll, InVisitingOrder, HasKey;
    forall n, node | 0 <= n < |adds| ensures !ServedLocally(adds[n], node, c) {
      if ServedLocally(adds[n], node, c) {
        var r :| Holds(CollectorOf(CollectAll(adds[n]), node), r) && r.client == c && r.shared.None?;
        var i := HeldOrigin(adds[n], node, r);
        if n == 0 {
          assert false;
        }
      }
    }
  }

  /** If a subscriber in the group is connected, on whichever node, someone connected is picked. */
  ghost predicate ReachesConnected(nodes: seq<NodeData>, me: Id, picks: map<Key, Relation>, k: Key) {
    forall n, d | 0 <= n < |nodes| && ConnectedMember(nodes[n], me, k, d) ::
      k in picks && exists m :: 0 <= m < |nodes| && nodes[m].live(picks[k].node, picks[k].client)
  }

  ghost predicate ConnectedMember(nd: NodeData, me: Id, k: Key, d: ClientId) {
    && k.0 in nd.matched && k.0 in nd.relations && Hears(nd.relations[k.0], me, d)
    && nd.relations[k.0][d].1.group == Some(k.1) && nd.live(nd.relations[k.0][d].0.nodeId, d)
  }

  lemma {:induction false} ServedConnected(nodes: seq<NodeData>, me: Id, picks: map<Key, Relation>, k: Key)
    requires ServedRight(nodes, me, picks, k)
    ensures ReachesConnected(nodes, me, picks, k)
  {
    forall n, d | 0 <= n < |nodes| && ConnectedMember(nodes[n], me, k, d)
      ensures k in picks && exists m :: 0 <= m < |nodes| && nodes[m].live(picks[k].node, picks[k].client)
    {
      assert MemberOn(nodes[n], me, k, d) && OnlineOn(nodes[n], k, d);
      assert SomeMember(nodes, me, k) && SomeOnline(nodes, me, k);
      var m :| 0 <= m < |nodes| && EntryOn(nodes[m], me, k, picks[k]);
    }
  }

  /** Publishing to shared subscriptions across the cluster: every node matches and replies, then
      one member per filter and group is served, at its node. */
  method ForwardShared(nodes: seq<NodeData>, me: Id, live: Live)
    returns (nodeSubs: Deliveries, picks: map<Key, Relation>, place: map<Key, (nat, nat)>)
    requires WellFormed(nodes)
    ensures Possible(nodes, me, picks) && Placed(nodeSubs, picks, place)
    ensures forall k | SomeMember(nodes, me, k) ==> Anchored(nodes, me, k) ::
              ServedRight(nodes, me, picks, k) && ReachesConnected(nodes, me, picks, k)
  {
    hide ReachesConnected, Outcome, Picked, Placed, CollectAll, NoDuplicates, InReply, SomeMember, Anchored, ServedRight;
    var shared: seq<Relation> := [];
    ghost var adds: seq<seq<Relation>> := [];
    for n := 0 to |nodes|
      invariant AllOutcomes(nodes[..n], me, adds) && Pooled(shared, adds)
    {
      var nd := nodes[n];
      var cs: map<nat, Collector>;
      ghost var a: seq<Relation>;
      cs, a := MatchNode(nd.relations, nd.matched, me, nd.live);
      CollectorsFiled(a);
      var out := SharedReply(cs);
      PooledNext(shared, adds, out, a);
      shared, adds := shared + out, adds + [a];
    }
    assert nodes[..|nodes|] == nodes;
    assert forall r | r in shared :: Replied(adds, r);
    nodeSubs, picks, place := ChooseAcross(shared, live);
    forall k | SomeMember(nodes, me, k) ==> Anchored(nodes, me, k)
      ensures ServedRight(nodes, me, picks, k) && ReachesConnected(nodes, me, picks, k)
    {
      AnchoredServed(nodes, me, picks, k);
      ServedConnected(nodes, me, picks, k);
    }
  }
}
