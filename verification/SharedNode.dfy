/** What one node gathers for a message over all matching filters, and what of it reaches the
    reply (rmqtt/src/broker/default.rs, rmqtt/src/broker/types.rs). */
module SharedNode {
  import opened Wrappers
  import opened Topics
  import opened Listings
  import opened RoutingTable
  import opened SharedChoice

  // ---------- all matching filters of one node ----------

  predicate ChosenKey(r: Relation, f: Topic, g: string) {
    r.shared.Some? && r.filter == f && r.shared.value.group == g
  }

  ghost predicate HasKey(rs: seq<Relation>, f: Topic, g: string) {
    exists i :: 0 <= i < |rs| && ChosenKey(rs[i], f, g)
  }

  /** Whether node data `relations` gives `r` its place: chosen for its group, or outside groups. */
  ghost predicate Justified(r: Relation, relations: map<Topic, Subs>, me: Id, live: Live) {
    var rels := SubsIn(relations, r.filter);
    if r.shared.Some? then ChosenFor(r, r.filter, rels, me, r.shared.value.group, live)
    else Ungrouped(rels, me, r.client) && r == PlainRelation(r.filter, rels, r.client)
  }

  ghost predicate AllJustified(adds: seq<Relation>, relations: map<Topic, Subs>, seen: seq<Topic>, me: Id, live: Live) {
    forall i | 0 <= i < |adds| :: adds[i].filter in seen && Justified(adds[i], relations, me, live)
  }

  ghost predicate AllChosen(adds: seq<Relation>, relations: map<Topic, Subs>, seen: seq<Topic>, me: Id) {
    forall f, c, g | f in seen && InGroup(SubsIn(relations, f), me, c, g) :: HasKey(adds, f, g)
  }

  ghost predicate AllPlain(adds: seq<Relation>, relations: map<Topic, Subs>, seen: seq<Topic>, me: Id) {
    forall f, c | f in seen && Ungrouped(SubsIn(relations, f), me, c) :: PlainRelation(f, SubsIn(relations, f), c) in adds
  }

  ghost predicate OncePerFilter(adds: seq<Relation>) {
    forall i, j | 0 <= i < j < |adds| && adds[i].filter == adds[j].filter ::
      && adds[i].client != adds[j].client
      && (adds[i].shared.Some? && adds[j].shared.Some? ==> adds[i].shared.value.group != adds[j].shared.value.group)
  }

  /** The relations a node gathers for the filters `seen`: every one justified, one choice per
      filter and group with an eligible member, every ungrouped subscriber once per filter. */
  ghost predicate Gathered(adds: seq<Relation>, relations: map<Topic, Subs>, seen: seq<Topic>, me: Id, live: Live) {
    && AllJustified(adds, relations, seen, me, live) && AllChosen(adds, relations, seen, me)
    && AllPlain(adds, relations, seen, me) && OncePerFilter(adds)
  }

  ghost predicate Earlier(seen: seq<Topic>, h: Topic, f: Topic) {
    exists a, b :: 0 <= a < b < |seen| && seen[a] == h && seen[b] == f
  }

  /** Relations come filter by filter, in the order the filters are visited. */
  ghost predicate InVisitingOrder(adds: seq<Relation>, seen: seq<Topic>) {
    forall i, j | 0 <= i < j < |adds| :: !Earlier(seen, adds[j].filter, adds[i].filter)
  }

  /** What a node may gather, over all random choices. */
  ghost predicate Outcome(adds: seq<Relation>, relations: map<Topic, Subs>, seen: seq<Topic>, me: Id, live: Live) {
    Gathered(adds, relations, seen, me, live) && InVisitingOrder(adds, seen)
  }

  lemma {:induction false} EarlierNext(seen: seq<Topic>, f: Topic, h: Topic, x: Topic)
    requires f !in seen
    ensures Earlier(seen + [f], h, x) ==> h in seen && (x in seen ==> Earlier(seen, h, x))
  {
    if Earlier(seen + [f], h, x) {
      var a, b :| 0 <= a < b < |seen + [f]| && (seen + [f])[a] == h && (seen + [f])[b] == x;
      assert seen[a] == h;
    }
  }

  lemma {:induction false} EarlierTotal(seen: seq<Topic>, h: Topic, f: Topic)
    requires h in seen && f in seen && h != f
    ensures Earlier(seen, h, f) || Earlier(seen, f, h)
  {
    var a :| 0 <= a < |seen| && seen[a] == h;
    var b :| 0 <= b < |seen| && seen[b] == f;
    assert a < b || b < a;
  }

  lemma {:induction false} OutcomeNext(
    adds: seq<Relation>, out: seq<Relation>, relations: map<Topic, Subs>, seen: seq<Topic>, f: Topic, me: Id, live: Live)
    requires Outcome(adds, relations, seen, me, live) && f !in seen
    requires Contribution(out, f, SubsIn(relations, f), me, live)
    ensures Outcome(adds + out, relations, seen + [f], me, live)
  {
    hide Contribution, Justified, InGroup, Ungrouped, PlainRelation, HasKey;
    GatheredNext(adds, out, relations, seen, f, me, live);
    var all := adds + out;
    forall i, j | 0 <= i < j < |all| ensures !Earlier(seen + [f], all[j].filter, all[i].filter) {
      EarlierNext(seen, f, all[j].filter, all[i].filter);
      if j < |adds| {
        assert !Earlier(seen, adds[j].filter, adds[i].filter);
      } else {
        FilterOf(out, f, SubsIn(relations, f), me, live, j - |adds|);
      }
    }
  }

  lemma FilterOf(out: seq<Relation>, f: Topic, rels: Subs, me: Id, live: Live, i: nat)
    requires Contribution(out, f, rels, me, live) && i < |out|
    ensures out[i].filter == f
  {
  }

  lemma {:induction false} GatheredNext(
    adds: seq<Relation>, out: seq<Relation>, relations: map<Topic, Subs>, seen: seq<Topic>, f: Topic, me: Id, live: Live)
    requires Gathered(adds, relations, seen, me, live) && f !in seen
    requires Contribution(out, f, SubsIn(relations, f), me, live)
    ensures Gathered(adds + out, relations, seen + [f], me, live)
  {
    hide ChosenFor, InGroup, Ungrouped, PlainRelation, AllChosen, AllPlain, HasChoice, Justified;
    forall i | 0 <= i < |out| ensures out[i].filter == f && Justified(out[i], relations, me, live) {
      JustifiedFilter(out[i], f, relations, me, live);
    }
    ChosenNext(adds, out, relations, seen, f, me, live);
    PlainNext(adds, out, relations, seen, f, me, live);
  }

  lemma {:induction false} PlainNext(
    adds: seq<Relation>, out: seq<Relation>, relations: map<Topic, Subs>, seen: seq<Topic>, f: Topic, me: Id, live: Live)
    requires AllPlain(adds, relations, seen, me) && Contribution(out, f, SubsIn(relations, f), me, live)
    ensures AllPlain(adds + out, relations, seen + [f], me)
  {
    hide ChosenFor, PlainRelation, HasChoice;
  }

  lemma {:induction false} ChosenNext(
    adds: seq<Relation>, out: seq<Relation>, relations: map<Topic, Subs>, seen: seq<Topic>, f: Topic, me: Id, live: Live)
    requires AllChosen(adds, relations, seen, me) && Contribution(out, f, SubsIn(relations, f), me, live)
    ensures AllChosen(adds + out, relations, seen + [f], me)
  {
    hide ChosenFor, InGroup, Ungrouped, PlainRelation;
    var all := adds + out;
    forall h, c, g | h in seen + [f] && InGroup(SubsIn(relations, h), me, c, g) ensures HasKey(all, h, g) {
      if h == f {
        assert HasChoice(out, g);
        var i :| 0 <= i < |out| && out[i].shared.Some? && out[i].shared.value.group == g;
        FilterOf(out, f, SubsIn(relations, f), me, live, i);
        assert ChosenKey(all[|adds| + i], f, g);
      } else {
        assert HasKey(adds, h, g);
        var i :| 0 <= i < |adds| && ChosenKey(adds[i], h, g);
        assert ChosenKey(all[i], h, g);
      }
    }
  }

  lemma {:induction false} JustifiedFilter(r: Relation, f: Topic, relations: map<Topic, Subs>, me: Id, live: Live)
    requires if r.shared.Some? then ChosenFor(r, f, SubsIn(relations, f), me, r.shared.value.group, live)
             else Ungrouped(SubsIn(relations, f), me, r.client) && r == PlainRelation(f, SubsIn(relations, f), r.client)
    ensures r.filter == f && Justified(r, relations, me, live)
  {
  }

  // ---------- the collector ----------

  /** Relations of MQTT 3 clients are kept as they come; those of MQTT 5 clients are merged into
      one per client. */
  datatype Collector = Collector(v3: seq<Relation>, v5: map<ClientId, Relation>)

  const NOTHING := Collector([], map[])

  function Collected(c: Collector, r: Relation): Collector {
    if r.opts.V3? then c.(v3 := c.v3 + [r.(subIds := None)])
    else if r.client in c.v5 then c.(v5 := c.v5[r.client := Merged(c.v5[r.client], r.opts.subId)])
    else c.(v5 := c.v5[r.client := Merged(r.(subIds := None), r.opts.subId)])
  }

  /** Only the subscription identifier of a further relation is kept. */
  function Merged(r: Relation, subId: Option<nat>): Relation {
    if subId.None? then r
    else r.(subIds := Some((if r.subIds.Some? then r.subIds.value else []) + [subId.value]))
  }

  function CollectorOf(cs: map<nat, Collector>, node: nat): Collector {
    if node in cs then cs[node] else NOTHING
  }

  function CollectAll(adds: seq<Relation>): map<nat, Collector> {
    if adds == [] then map[]
    else
      var n := |adds| - 1;
      var cs := CollectAll(adds[..n]);
      cs[adds[n].node := Collected(CollectorOf(cs, adds[n].node), adds[n])]
  }

  /** Equal but for the subscription identifiers. */
  predicate SameRelation(a: Relation, b: Relation) {
    a.(subIds := None) == b.(subIds := None)
  }

  ghost predicate HoldsV3(c: Collector, r: Relation) {
    exists k :: 0 <= k < |c.v3| && SameRelation(c.v3[k], r)
  }

  /** The relation is still there after collecting. */
  ghost predicate Survives(cs: map<nat, Collector>, r: Relation) {
    var c := CollectorOf(cs, r.node);
    || HoldsV3(c, r)
    || (r.client in c.v5 && SameRelation(c.v5[r.client], r))
  }

  /** No MQTT 5 client has two different relations on one node. */
  ghost predicate NoClash(adds: seq<Relation>) {
    forall i, j | 0 <= i < j < |adds| && Clashing(adds[i], adds[j]) :: SameRelation(adds[i], adds[j])
  }

  predicate Clashing(a: Relation, b: Relation) {
    a.opts.V5? && b.opts.V5? && a.node == b.node && a.client == b.client
  }

  lemma {:induction false} CollectStep(adds: seq<Relation>, node: nat)
    requires adds != []
    ensures var n := |adds| - 1;
            var c := CollectorOf(CollectAll(adds[..n]), node);
            CollectorOf(CollectAll(adds), node) == if node == adds[n].node then Collected(c, adds[n]) else c
  {
  }

  /** MQTT 3 relations are all held. */
  lemma {:induction false} V3Held(adds: seq<Relation>, i: nat)
    requires i < |adds| && adds[i].opts.V3?
    ensures HoldsV3(CollectorOf(CollectAll(adds), adds[i].node), adds[i])
    decreases |adds|
  {
    hide CollectAll;
    var n := |adds| - 1;
    CollectStep(adds, adds[i].node);
    var c, c' := CollectorOf(CollectAll(adds[..n]), adds[i].node), CollectorOf(CollectAll(adds), adds[i].node);
    if i < n {
      V3Held(adds[..n], i);
      var k :| 0 <= k < |c.v3| && SameRelation(c.v3[k], adds[i]);
      assert c'.v3[k] == c.v3[k];
    } else {
      assert SameRelation(c'.v3[|c.v3|], adds[n]);
    }
  }

  lemma {:induction false} V3Only(adds: seq<Relation>, node: nat)
    ensures forall k | 0 <= k < |CollectorOf(CollectAll(adds), node).v3| :: CollectorOf(CollectAll(adds), node).v3[k].opts.V3?
  {
    if adds != [] {
      V3Only(adds[..|adds| - 1], node);
      CollectStep(adds, node);
    }
  }

  /** Of an MQTT 5 client's relations on a node the first is held. */
  lemma {:induction false} V5First(adds: seq<Relation>, i: nat) returns (k: nat)
    requires i < |adds| && adds[i].opts.V5?
    ensures var c := CollectorOf(CollectAll(adds), adds[i].node);
            && adds[i].client in c.v5 && k <= i
            && Clashing(adds[k], adds[i]) && SameRelation(c.v5[adds[i].client], adds[k])
            && forall j | 0 <= j < k :: !Clashing(adds[j], adds[i])
  {
    hide CollectAll;
    if adds[i].client !in CollectorOf(CollectAll(adds), adds[i].node).v5 {
      NotYet(adds, adds[i].node, adds[i].client);
    }
    k := FirstOf(adds, adds[i].node, adds[i].client);
  }

  lemma {:induction false} FirstOf(adds: seq<Relation>, node: nat, client: ClientId) returns (k: nat)
    requires client in CollectorOf(CollectAll(adds), node).v5
    ensures k < |adds| && adds[k].opts.V5? && adds[k].node == node && adds[k].client == client
    ensures SameRelation(CollectorOf(CollectAll(adds), node).v5[client], adds[k])
    ensures forall j | 0 <= j < k :: !(adds[j].opts.V5? && adds[j].node == node && adds[j].client == client)
  {
    var n := |adds| - 1;
    CollectStep(adds, node);
    if client in CollectorOf(CollectAll(adds[..n]), node).v5 {
      k := FirstOf(adds[..n], node, client);
    } else {
      k := n;
      NotYet(adds[..n], node, client);
    }
  }

  lemma {:induction false} NotYet(adds: seq<Relation>, node: nat, client: ClientId)
    requires client !in CollectorOf(CollectAll(adds), node).v5
    ensures forall j | 0 <= j < |adds| :: !(adds[j].opts.V5? && adds[j].node == node && adds[j].client == client)
  {
    hide CollectAll;
    if adds != [] {
      var n := |adds| - 1;
      CollectStep(adds, node);
      NotYet(adds[..n], node, client);
    }
  }

  /** Collecting loses no relation exactly when no MQTT 5 client has two different ones: a second
      one, and with it a shared group's choice, is absorbed by the first. */
  lemma {:induction false} CollectorKeepsAllIff(adds: seq<Relation>)
    ensures (forall i | 0 <= i < |adds| :: Survives(CollectAll(adds), adds[i])) <==> NoClash(adds)
  {
    hide CollectAll;
    var cs := CollectAll(adds);
    if NoClash(adds) {
      forall i | 0 <= i < |adds| ensures Survives(cs, adds[i]) {
        if adds[i].opts.V3? {
          V3Held(adds, i);
        } else {
          var k := V5First(adds, i);
        }
      }
    }
    if forall i | 0 <= i < |adds| :: Survives(cs, adds[i]) {
      forall i, j | 0 <= i < j < |adds| && Clashing(adds[i], adds[j]) ensures SameRelation(adds[i], adds[j]) {
        V3Only(adds, adds[i].node);
        var k := V5First(adds, i);
      }
    }
  }

  /** No relation of the same MQTT 5 client and node was added before. */
  ghost predicate ComesFirst(adds: seq<Relation>, i: nat)
    requires i < |adds|
  {
    forall k | 0 <= k < i :: !Clashing(adds[k], adds[i])
  }

  /** One relation survives exactly if it is of MQTT 3 or its client's first on the node. */
  lemma {:induction false} SurvivesIff(
    adds: seq<Relation>, relations: map<Topic, Subs>, seen: seq<Topic>, me: Id, live: Live, i: nat)
    requires Gathered(adds, relations, seen, me, live) && i < |adds|
    ensures Survives(CollectAll(adds), adds[i]) <==> adds[i].opts.V3? || ComesFirst(adds, i)
  {
    hide CollectAll, Justified, HasKey, InGroup, Ungrouped, PlainRelation;
    if adds[i].opts.V3? {
      V3Held(adds, i);
    } else {
      V3Only(adds, adds[i].node);
      var k := V5First(adds, i);
    }
  }

  /** The subscription identifiers of a client's MQTT 5 relations on a node, in the order added. */
  function IdsFor(adds: seq<Relation>, node: nat, client: ClientId): seq<nat> {
    if adds == [] then []
    else
      var n, r := |adds| - 1, adds[|adds| - 1];
      IdsFor(adds[..n], node, client)
      + (if r.opts.V5? && r.node == node && r.client == client && r.opts.subId.Some? then [r.opts.subId.value] else [])
  }

  /** What is held of an MQTT 5 client carries all of them. */
  lemma {:induction false} IdsCollected(adds: seq<Relation>, node: nat, client: ClientId)
    ensures var v5, ids := CollectorOf(CollectAll(adds), node).v5, IdsFor(adds, node, client);
            && (client in v5 ==> v5[client].subIds == if ids == [] then None else Some(ids))
            && (client !in v5 ==> ids == [])
  {
    hide CollectAll;
    if adds == [] {
      NothingCollected(node);
    } else {
      CollectStep(adds, node);
      IdsCollected(adds[..|adds| - 1], node, client);
      var before, r := IdsFor(adds[..|adds| - 1], node, client), adds[|adds| - 1];
      assert before + [] == before;
      if before == [] && r.opts.V5? && r.opts.subId.Some? {
        assert before + [r.opts.subId.value] == [r.opts.subId.value];
      }
    }
  }

  lemma NothingCollected(node: nat)
    ensures CollectorOf(CollectAll([]), node) == NOTHING
  {
  }

  ghost predicate CarryIds(cs: map<nat, Collector>, adds: seq<Relation>) {
    forall node, c | c in CollectorOf(cs, node).v5 ::
      CollectorOf(cs, node).v5[c].subIds == var ids := IdsFor(adds, node, c); if ids == [] then None else Some(ids)
  }

  lemma {:induction false} IdsCarried(adds: seq<Relation>)
    ensures CarryIds(CollectAll(adds), adds)
  {
    hide CollectAll, IdsFor;
    var cs := CollectAll(adds);
    forall node, c | c in CollectorOf(cs, node).v5
      ensures CollectorOf(cs, node).v5[c].subIds == var ids := IdsFor(adds, node, c); if ids == [] then None else Some(ids)
    {
      IdsCollected(adds, node, c);
    }
  }

  /** All relations of one node for one message, in the order they are added. */
  method MatchNode(relations: map<Topic, Subs>, matched: seq<Topic>, me: Id, live: Live)
    returns (cs: map<nat, Collector>, adds: seq<Relation>)
    requires NoDuplicates(matched)
    ensures Outcome(adds, relations, matched, me, live) && cs == CollectAll(adds)
    ensures forall i | 0 <= i < |adds| :: Survives(cs, adds[i]) <==> adds[i].opts.V3? || ComesFirst(adds, i)
    ensures CarryIds(cs, adds)
  {
    hide Contribution, Serving, CarryIds, Gathered, InVisitingOrder, Survives, Collected, ComesFirst;
    cs, adds := map[], [];
    NoOutcome(relations, me, live);
    for i := 0 to |matched|
      invariant Outcome(adds, relations, matched[..i], me, live) && cs == CollectAll(adds)
    {
      var f := matched[i];
      var out := MatchFilter(f, SubsIn(relations, f), me, live);
      OutcomeNext(adds, out, relations, matched[..i], f, me, live);
      assert matched[..i + 1] == matched[..i] + [f];
      ghost var start := adds;
      for j := 0 to |out|
        invariant adds == start + out[..j] && cs == CollectAll(adds)
      {
        assert (adds + [out[j]])[..|adds|] == adds;
        assert start + out[..j + 1] == adds + [out[j]];
        cs, adds := cs[out[j].node := Collected(CollectorOf(cs, out[j].node), out[j])], adds + [out[j]];
      }
      assert out[..|out|] == out;
    }
    assert matched[..|matched|] == matched;
    forall i | 0 <= i < |adds| ensures Survives(cs, adds[i]) <==> adds[i].opts.V3? || ComesFirst(adds, i) {
      SurvivesIff(adds, relations, matched, me, live, i);
    }
    IdsCarried(adds);
  }

  lemma NoOutcome(relations: map<Topic, Subs>, me: Id, live: Live)
    ensures Outcome([], relations, [], me, live)
  {
  }

  // ---------- what a node replies ----------

  ghost predicate Holds(c: Collector, r: Relation) {
    r in c.v3 || (r.client in c.v5 && c.v5[r.client] == r)
  }

  ghost predicate InReply(cs: map<nat, Collector>, r: Relation) {
    exists n :: n in cs && Holds(cs[n], r)
  }

  /** The relations of one collector that belong to shared subscriptions. */
  method SharedPart(c: Collector) returns (out: seq<Relation>)
    requires forall k | k in c.v5 :: c.v5[k].client == k
    ensures forall r :: r in out <==> r.shared.Some? && Holds(c, r)
  {
    out := [];
    for i := 0 to |c.v3|
      invariant forall r :: r in out <==> r.shared.Some? && r in c.v3[..i]
    {
      assert c.v3[..i + 1] == c.v3[..i] + [c.v3[i]];
      if c.v3[i].shared.Some? {
        out := out + [c.v3[i]];
      }
    }
    assert c.v3[..|c.v3|] == c.v3;
    var todo := c.v5.Keys;
    while todo != {}
      invariant todo <= c.v5.Keys
      invariant forall r :: r in out <==>
        r.shared.Some? && (r in c.v3 || (r.client in c.v5 && r.client !in todo && c.v5[r.client] == r))
      decreases todo
    {
      var k :| k in todo;
      todo := todo - {k};
      if c.v5[k].shared.Some? {
        out := out + [c.v5[k]];
      }
    }
  }

  method SharedReply(cs: map<nat, Collector>) returns (out: seq<Relation>)
    requires Filed(cs)
    ensures forall r :: r in out <==> r.shared.Some? && InReply(cs, r)
  {
    hide Holds;
    out := [];
    var todo := cs.Keys;
    while todo != {}
      invariant todo <= cs.Keys
      invariant forall r :: r in out <==> r.shared.Some? && exists n :: n in cs && n !in todo && Holds(cs[n], r)
      decreases todo
    {
      var n :| n in todo;
      todo := todo - {n};
      var part := SharedPart(cs[n]);
      out := out + part;
    }
  }

  /** Everything held comes from some relation that was added. */
  lemma {:induction false} HeldOrigin(adds: seq<Relation>, node: nat, r: Relation) returns (i: nat)
    requires Holds(CollectorOf(CollectAll(adds), node), r)
    ensures i < |adds| && SameRelation(adds[i], r) && adds[i].node == node
    decreases |adds|
  {
    if r.client in CollectorOf(CollectAll(adds), node).v5 && CollectorOf(CollectAll(adds), node).v5[r.client] == r {
      i := FirstOf(adds, node, r.client);
    } else {
      i := V3Origin(adds, node, r);
    }
  }

  lemma {:induction false} V3Origin(adds: seq<Relation>, node: nat, r: Relation) returns (i: nat)
    requires r in CollectorOf(CollectAll(adds), node).v3
    ensures i < |adds| && SameRelation(adds[i], r) && adds[i].node == node
    decreases |adds|
  {
    var n := |adds| - 1;
    CollectStep(adds, node);
    if r in CollectorOf(CollectAll(adds[..n]), node).v3 {
      i := V3Origin(adds[..n], node, r);
    } else {
      i := n;
    }
  }

  lemma {:induction false} FiledUnderClient(adds: seq<Relation>, node: nat, k: ClientId)
    requires k in CollectorOf(CollectAll(adds), node).v5
    ensures CollectorOf(CollectAll(adds), node).v5[k].client == k
  {
    var i := FirstOf(adds, node, k);
  }

  ghost predicate Filed(cs: map<nat, Collector>) {
    forall n: nat, k: ClientId | n in cs && k in cs[n].v5 :: cs[n].v5[k].client == k
  }

  lemma {:induction false} CollectorsFiled(adds: seq<Relation>)
    ensures Filed(CollectAll(adds))
  {
    hide CollectAll;
    var cs := CollectAll(adds);
    forall n: nat, k: ClientId | n in cs && k in cs[n].v5 ensures cs[n].v5[k].client == k {
      FiledUnderClient(adds, n, k);
    }
  }

  /** Every reply is a relation that was added and survived collection. */
  lemma {:induction false} ReplySurvived(adds: seq<Relation>, r: Relation) returns (i: nat)
    requires InReply(CollectAll(adds), r)
    ensures i < |adds| && SameRelation(adds[i], r) && Survives(CollectAll(adds), adds[i])
  {
    hide CollectAll;
    var cs := CollectAll(adds);
    var n :| n in cs && Holds(cs[n], r);
    i := HeldOrigin(adds, n, r);
  }

  /** Every relation that survived collection is in the reply. */
  lemma {:induction false} SurvivorReplied(adds: seq<Relation>, r: Relation) returns (x: Relation)
    requires Survives(CollectAll(adds), r)
    ensures InReply(CollectAll(adds), x) && SameRelation(x, r)
  {
    hide CollectAll;
    var cs := CollectAll(adds);
    var c := CollectorOf(cs, r.node);
    if HoldsV3(c, r) {
      var k :| 0 <= k < |c.v3| && SameRelation(c.v3[k], r);
      x := c.v3[k];
    } else {
      x := c.v5[r.client];
    }
    assert Holds(c, x) && r.node in cs;
  }

  // ---------- which choices can be lost ----------

  /** Client `c` may be chosen for `(f, g)` and be served for `h`, visited earlier, with both
      relations of MQTT 5 and on one node: the first then absorbs the choice. */
  ghost predicate Swallowed(
    relations: map<Topic, Subs>, matched: seq<Topic>, me: Id, live: Live, f: Topic, g: string, h: Topic, c: ClientId)
  {
    var at, before := SubsIn(relations, f), SubsIn(relations, h);
    && Earlier(matched, h, f)
    && MayServe(at, me, c, live) && at[c].1.group == Some(g)
    && MayServe(before, me, c, live)
    && at[c].1.V5? && before[c].1.V5? && at[c].0.nodeId == before[c].0.nodeId
  }

  /** A condition on the subscriptions and who is online, whatever will be drawn. */
  ghost predicate CanLose(relations: map<Topic, Subs>, matched: seq<Topic>, me: Id, live: Live, f: Topic, g: string) {
    exists h, c :: Swallowed(relations, matched, me, live, f, g, h, c)
  }

  /** The choice for `(f, g)`, if there is one, survives collection. */
  ghost predicate KeepsChoice(adds: seq<Relation>, f: Topic, g: string) {
    forall i | 0 <= i < |adds| && ChosenKey(adds[i], f, g) :: Survives(CollectAll(adds), adds[i])
  }

  lemma {:induction false} JustifiedMay(r: Relation, relations: map<Topic, Subs>, me: Id, live: Live)
    requires Justified(r, relations, me, live)
    ensures var rels := SubsIn(relations, r.filter);
            && MayServe(rels, me, r.client, live) && r.node == rels[r.client].0.nodeId && r.opts == rels[r.client].1
            && (r.shared.Some? ==> r.opts.group == Some(r.shared.value.group))
  {
    ServedMay(r, r.filter, SubsIn(relations, r.filter), me, live);
  }

  lemma {:induction false} ClashSwallows(
    adds: seq<Relation>, relations: map<Topic, Subs>, matched: seq<Topic>, me: Id, live: Live, k: nat, j: nat)
    requires Outcome(adds, relations, matched, me, live)
    requires k < j < |adds| && Clashing(adds[k], adds[j]) && adds[j].shared.Some?
    ensures Swallowed(
              relations, matched, me, live, adds[j].filter, adds[j].shared.value.group, adds[k].filter, adds[j].client)
  {
    hide Justified, MayServe, HasKey, InGroup, Ungrouped, PlainRelation;
    FiltersOrdered(adds, relations, matched, me, live, k, j);
    JustifiedMay(adds[j], relations, me, live);
    JustifiedMay(adds[k], relations, me, live);
  }

  lemma {:induction false} SafeChoiceKept(
    adds: seq<Relation>, relations: map<Topic, Subs>, matched: seq<Topic>, me: Id, live: Live, f: Topic, g: string)
    requires Outcome(adds, relations, matched, me, live) && !CanLose(relations, matched, me, live, f, g)
    ensures KeepsChoice(adds, f, g)
  {
    hide CollectAll, Justified, MayServe, HasKey, InGroup, Ungrouped, PlainRelation;
    forall j | 0 <= j < |adds| && ChosenKey(adds[j], f, g) ensures Survives(CollectAll(adds), adds[j]) {
      if adds[j].opts.V3? {
        V3Held(adds, j);
      } else {
        var k := V5First(adds, j);
        if k < j {
          ClashSwallows(adds, relations, matched, me, live, k, j);
        }
      }
    }
  }

  /** Two relations of one client are for different filters, visited in that order. */
  lemma {:induction false} FiltersOrdered(
    adds: seq<Relation>, relations: map<Topic, Subs>, matched: seq<Topic>, me: Id, live: Live, i: nat, j: nat)
    requires Outcome(adds, relations, matched, me, live) && i < j < |adds| && adds[i].client == adds[j].client
    ensures Earlier(matched, adds[i].filter, adds[j].filter)
  {
    hide Justified, HasKey, InGroup, Ungrouped, PlainRelation;
    EarlierTotal(matched, adds[i].filter, adds[j].filter);
  }

  /** Some draws serve `c` for every matching filter for which it may be served. */
  lemma {:induction false} OutcomeServing(relations: map<Topic, Subs>, matched: seq<Topic>, me: Id, live: Live, c: ClientId)
    returns (adds: seq<Relation>)
    requires NoDuplicates(matched)
    ensures Outcome(adds, relations, matched, me, live)
    ensures forall f | f in matched && MayServe(SubsIn(relations, f), me, c, live) :: ServedAt(adds, f, c)
  {
    hide Contribution, Outcome, MayServe;
    if matched == [] {
      adds := [];
      NoOutcome(relations, me, live);
    } else {
      var n := |matched| - 1;
      var f := matched[n];
      var before := OutcomeServing(relations, matched[..n], me, live, c);
      var out := ContributionServing(f, SubsIn(relations, f), me, live, c);
      adds := before + out;
      assert matched == matched[..n] + [f];
      OutcomeNext(before, out, relations, matched[..n], f, me, live);
      forall h | h in matched && MayServe(SubsIn(relations, h), me, c, live) ensures ServedAt(adds, h, c) {
        if h == f {
          var i :| 0 <= i < |out| && out[i].client == c;
          FilterOf(out, f, SubsIn(relations, f), me, live, i);
          assert adds[|before| + i] == out[i];
        } else {
          assert ServedAt(before, h, c);
          var i :| 0 <= i < |before| && before[i].filter == h && before[i].client == c;
          assert adds[i] == before[i];
        }
      }
    }
  }

  ghost predicate ServedAt(adds: seq<Relation>, f: Topic, c: ClientId) {
    exists i :: 0 <= i < |adds| && adds[i].filter == f && adds[i].client == c
  }

  /** Draws under which the choice is absorbed. */
  lemma {:induction false} LosingOutcome(
    relations: map<Topic, Subs>, matched: seq<Topic>, me: Id, live: Live, f: Topic, g: string) returns (adds: seq<Relation>)
    requires NoDuplicates(matched) && CanLose(relations, matched, me, live, f, g)
    ensures Outcome(adds, relations, matched, me, live)
    ensures forall i | 0 <= i < |adds| && ChosenKey(adds[i], f, g) :: !Survives(CollectAll(adds), adds[i])
    ensures HasKey(adds, f, g)
  {
    hide CollectAll, Justified, MayServe, InGroup, Ungrouped, PlainRelation, Survives, SubsIn;
    var h, c :| Swallowed(relations, matched, me, live, f, g, h, c);
    adds := OutcomeServing(relations, matched, me, live, c);
    var i, j := SwallowingPair(adds, relations, matched, me, live, f, g, h, c);
    AbsorbedBy(adds, i, j);
    forall k | 0 <= k < |adds| && ChosenKey(adds[k], f, g) ensures k == j {
    }
  }

  lemma {:induction false} SwallowingPair(
    adds: seq<Relation>, relations: map<Topic, Subs>, matched: seq<Topic>, me: Id, live: Live,
    f: Topic, g: string, h: Topic, c: ClientId) returns (i: nat, j: nat)
    requires Outcome(adds, relations, matched, me, live) && NoDuplicates(matched)
    requires Swallowed(relations, matched, me, live, f, g, h, c)
    requires ServedAt(adds, f, c) && ServedAt(adds, h, c)
    ensures i < j < |adds| && Clashing(adds[i], adds[j]) && ChosenKey(adds[j], f, g)
  {
    hide Justified, MayServe, InGroup, Ungrouped, PlainRelation, HasKey, SubsIn;
    i :| i < |adds| && adds[i].filter == h && adds[i].client == c;
    j :| j < |adds| && adds[j].filter == f && adds[j].client == c;
    JustifiedMay(adds[i], relations, me, live);
    JustifiedChoice(adds[j], relations, me, live, g);
  }

  lemma {:induction false} JustifiedChoice(r: Relation, relations: map<Topic, Subs>, me: Id, live: Live, g: string)
    requires Justified(r, relations, me, live) && MayServe(SubsIn(relations, r.filter), me, r.client, live)
    requires SubsIn(relations, r.filter)[r.client].1.group == Some(g)
    ensures ChosenKey(r, r.filter, g) && r.node == SubsIn(relations, r.filter)[r.client].0.nodeId
    ensures r.opts == SubsIn(relations, r.filter)[r.client].1
  {
  }

  /** A later MQTT 5 relation of the same client and node, for another filter, is not kept. */
  lemma {:induction false} AbsorbedBy(adds: seq<Relation>, i: nat, j: nat)
    requires i < j < |adds| && Clashing(adds[i], adds[j])
    requires forall k | 0 <= k < j && adds[k].client == adds[j].client :: adds[k].filter != adds[j].filter
    ensures !Survives(CollectAll(adds), adds[j])
  {
    hide CollectAll;
    V3Only(adds, adds[j].node);
    var k := V5First(adds, i);
  }

  /** A node hands on its choice for a group, whatever it draws, exactly when no client that may be
      that choice may also be served for a filter visited earlier. */
  lemma {:induction false} ChoiceKeptIff(
    relations: map<Topic, Subs>, matched: seq<Topic>, me: Id, live: Live, f: Topic, g: string)
    requires NoDuplicates(matched)
    ensures (forall adds | Outcome(adds, relations, matched, me, live) :: KeepsChoice(adds, f, g))
       <==> !CanLose(relations, matched, me, live, f, g)
  {
    hide Outcome, CanLose, Survives;
    if CanLose(relations, matched, me, live, f, g) {
      var adds := LosingOutcome(relations, matched, me, live, f, g);
      assert !KeepsChoice(adds, f, g);
    } else {
      forall adds | Outcome(adds, relations, matched, me, live) ensures KeepsChoice(adds, f, g) {
        SafeChoiceKept(adds, relations, matched, me, live, f, g);
      }
    }
  }

  // ---------- who can miss a message ----------

  /** Client `c` is served on the node whatever becomes of the shared choices: a relation outside
      groups is held. */
  ghost predicate ServedLocally(adds: seq<Relation>, node: nat, c: ClientId) {
    exists r :: Holds(CollectorOf(CollectAll(adds), node), r) && r.client == c && r.shared.None?
  }

  /** A subscription of `c` outside groups, for a matching filter. */
  ghost predicate PlainAt(relations: map<Topic, Subs>, matched: seq<Topic>, me: Id, h: Topic, c: ClientId, node: nat) {
    var rels := SubsIn(relations, h);
    h in matched && Ungrouped(rels, me, c) && rels[c].0.nodeId == node
  }

  /** `c` may be chosen for filter `h`, of MQTT 5 and on the node. */
  ghost predicate ChoosableAt(
    relations: map<Topic, Subs>, matched: seq<Topic>, me: Id, live: Live, h: Topic, c: ClientId, node: nat)
  {
    var rels := SubsIn(relations, h);
    h in matched && MayServe(rels, me, c, live) && rels[c].1.V5? && rels[c].1.group.Some? && rels[c].0.nodeId == node
  }

  /** `c` may be chosen for a filter visited before all its subscriptions outside groups, which are
      of MQTT 5: these are then absorbed by the choice. */
  ghost predicate CanMiss(relations: map<Topic, Subs>, matched: seq<Topic>, me: Id, live: Live, c: ClientId, node: nat) {
    exists h :: Masks(relations, matched, me, live, h, c, node)
  }

  ghost predicate Masks(
    relations: map<Topic, Subs>, matched: seq<Topic>, me: Id, live: Live, h: Topic, c: ClientId, node: nat)
  {
    && ChoosableAt(relations, matched, me, live, h, c, node)
    && forall f | PlainAt(relations, matched, me, f, c, node) :: Behind(relations, matched, h, f, c)
  }

  /** The subscription of `c` to `f` is of MQTT 5 and visited after `h`. */
  ghost predicate Behind(relations: map<Topic, Subs>, matched: seq<Topic>, h: Topic, f: Topic, c: ClientId) {
    c in SubsIn(relations, f) && SubsIn(relations, f)[c].1.V5? && Earlier(matched, h, f)
  }

  lemma {:induction false} PlainAdded(
    adds: seq<Relation>, relations: map<Topic, Subs>, matched: seq<Topic>, me: Id, live: Live, f: Topic, c: ClientId, node: nat)
    returns (i: nat)
    requires Outcome(adds, relations, matched, me, live) && PlainAt(relations, matched, me, f, c, node)
    ensures i < |adds| && adds[i] == PlainRelation(f, SubsIn(relations, f), c)
    ensures adds[i].node == node && adds[i].client == c && adds[i].shared.None? && adds[i].filter == f
    ensures c in SubsIn(relations, f) && adds[i].opts == SubsIn(relations, f)[c].1
  {
    hide Justified, HasKey, InGroup, InVisitingOrder;
    assert PlainRelation(f, SubsIn(relations, f), c) in adds;
    i :| i < |adds| && adds[i] == PlainRelation(f, SubsIn(relations, f), c);
  }

  /** A relation that survives is held. */
  lemma {:induction false} SurvivorHeld(adds: seq<Relation>, i: nat)
    requires i < |adds| && Survives(CollectAll(adds), adds[i]) && adds[i].shared.None?
    ensures ServedLocally(adds, adds[i].node, adds[i].client)
  {
    hide CollectAll;
    var c := CollectorOf(CollectAll(adds), adds[i].node);
    if HoldsV3(c, adds[i]) {
      var k :| 0 <= k < |c.v3| && SameRelation(c.v3[k], adds[i]);
      assert Holds(c, c.v3[k]);
    } else {
      assert Holds(c, c.v5[adds[i].client]);
    }
  }

  /** An MQTT 5 choice made before all of them is the only way to lose the plain relations. */
  lemma {:induction false} UnmaskedServed(
    adds: seq<Relation>, relations: map<Topic, Subs>, matched: seq<Topic>, me: Id, live: Live, f: Topic, c: ClientId, node: nat)
    requires Outcome(adds, relations, matched, me, live) && PlainAt(relations, matched, me, f, c, node)
    requires !CanMiss(relations, matched, me, live, c, node)
    ensures ServedLocally(adds, node, c)
  {
    hide CollectAll, Justified, HasKey, InGroup, InVisitingOrder, PlainAt, Survives, ServedLocally, PlainRelation, ChoosableAt,
      Outcome, Earlier;
    var i := PlainAdded(adds, relations, matched, me, live, f, c, node);
    if adds[i].opts.V3? {
      V3Held(adds, i);
      HeldV3Survives(adds, i);
      SurvivorHeld(adds, i);
    } else {
      var k := V5First(adds, i);
      if adds[k].shared.None? {
        FirstSurvives(adds, k, i);
        SurvivorHeld(adds, k);
      } else {
        ChosenChoosable(adds, relations, matched, me, live, k);
        assert !Masks(relations, matched, me, live, adds[k].filter, c, node);
        var h :| PlainAt(relations, matched, me, h, c, node) && !Behind(relations, matched, adds[k].filter, h, c);
        var j := PlainAdded(adds, relations, matched, me, live, h, c, node);
        if adds[j].opts.V3? {
          V3Held(adds, j);
          HeldV3Survives(adds, j);
          SurvivorHeld(adds, j);
        } else {
          NotBeforeFirst(adds, k, i, j);
          FiltersOrdered(adds, relations, matched, me, live, k, j);
        }
      }
    }
  }

  lemma HeldV3Survives(adds: seq<Relation>, i: nat)
    requires i < |adds| && HoldsV3(CollectorOf(CollectAll(adds), adds[i].node), adds[i])
    ensures Survives(CollectAll(adds), adds[i])
  {
  }

  lemma FirstSurvives(adds: seq<Relation>, k: nat, i: nat)
    requires k < |adds| && i < |adds| && Clashing(adds[k], adds[i])
    requires var c := CollectorOf(CollectAll(adds), adds[i].node);
             adds[i].client in c.v5 && SameRelation(c.v5[adds[i].client], adds[k])
    ensures Survives(CollectAll(adds), adds[k])
  {
  }

  lemma NotBeforeFirst(adds: seq<Relation>, k: nat, i: nat, j: nat)
    requires k < |adds| && i < |adds| && j < |adds| && Clashing(adds[k], adds[i]) && Clashing(adds[j], adds[i])
    requires adds[k].shared.Some? && adds[j].shared.None?
    requires forall x | 0 <= x < k :: !Clashing(adds[x], adds[i])
    ensures k < j
  {
  }

  lemma {:induction false} ChosenChoosable(
    adds: seq<Relation>, relations: map<Topic, Subs>, matched: seq<Topic>, me: Id, live: Live, k: nat)
    requires Outcome(adds, relations, matched, me, live) && k < |adds| && adds[k].shared.Some? && adds[k].opts.V5?
    ensures ChoosableAt(relations, matched, me, live, adds[k].filter, adds[k].client, adds[k].node)
  {
    hide MayServe, Justified, HasKey, InGroup, Ungrouped, PlainRelation, InVisitingOrder;
    JustifiedMay(adds[k], relations, me, live);
  }

  /** Draws under which `c` is served by nothing but a shared choice. */
  lemma {:induction false} MissingOutcome(
    relations: map<Topic, Subs>, matched: seq<Topic>, me: Id, live: Live, c: ClientId, node: nat)
    returns (adds: seq<Relation>)
    requires NoDuplicates(matched) && CanMiss(relations, matched, me, live, c, node)
    ensures Outcome(adds, relations, matched, me, live) && !ServedLocally(adds, node, c)
  {
    hide Outcome, MayServe, ServedLocally, CollectAll;
    var h :| Masks(relations, matched, me, live, h, c, node);
    adds := OutcomeServing(relations, matched, me, live, c);
    assert ServedAt(adds, h, c);
    MaskedUnserved(adds, relations, matched, me, live, h, c, node);
  }

  lemma {:induction false} MaskedUnserved(
    adds: seq<Relation>, relations: map<Topic, Subs>, matched: seq<Topic>, me: Id, live: Live, h: Topic, c: ClientId, node: nat)
    requires NoDuplicates(matched) && Outcome(adds, relations, matched, me, live)
    requires Masks(relations, matched, me, live, h, c, node) && ServedAt(adds, h, c)
    ensures !ServedLocally(adds, node, c)
  {
    hide CollectAll, MayServe, Justified, HasKey, InGroup, PlainRelation, Gathered, InVisitingOrder, Earlier;
    if ServedLocally(adds, node, c) {
      var r :| Holds(CollectorOf(CollectAll(adds), node), r) && r.client == c && r.shared.None?;
      var i := HeldOrigin(adds, node, r);
      PlainOrigin(adds, relations, matched, me, live, i);
      assert PlainAt(relations, matched, me, adds[i].filter, c, node);
      V3Only(adds, node);
      var j := ChoiceAdded(adds, relations, matched, me, live, h, c, node);
      var k := V5First(adds, j);
      PlainOrigin(adds, relations, matched, me, live, k);
      EarlierFirst(adds, relations, matched, me, live, j, k);
      assert false;
    }
  }

  lemma {:induction false} PlainOrigin(
    adds: seq<Relation>, relations: map<Topic, Subs>, matched: seq<Topic>, me: Id, live: Live, i: nat)
    requires Outcome(adds, relations, matched, me, live) && i < |adds| && adds[i].shared.None?
    ensures PlainAt(relations, matched, me, adds[i].filter, adds[i].client, adds[i].node)
    ensures adds[i].client in SubsIn(relations, adds[i].filter)
    ensures adds[i].opts == SubsIn(relations, adds[i].filter)[adds[i].client].1
  {
    hide InVisitingOrder, HasKey;
  }

  lemma {:induction false} ChoiceAdded(
    adds: seq<Relation>, relations: map<Topic, Subs>, matched: seq<Topic>, me: Id, live: Live, h: Topic, c: ClientId, node: nat)
    returns (j: nat)
    requires Outcome(adds, relations, matched, me, live) && ChoosableAt(relations, matched, me, live, h, c, node)
    requires ServedAt(adds, h, c)
    ensures j < |adds| && adds[j].filter == h && adds[j].client == c && adds[j].node == node
    ensures adds[j].opts.V5? && adds[j].shared.Some?
  {
    hide Justified, HasKey, InGroup, Ungrouped, PlainRelation, InVisitingOrder;
    j :| j < |adds| && adds[j].filter == h && adds[j].client == c;
    JustifiedChoice(adds[j], relations, me, live, SubsIn(relations, h)[c].1.group.value);
  }

  lemma {:induction false} EarlierFirst(
    adds: seq<Relation>, relations: map<Topic, Subs>, matched: seq<Topic>, me: Id, live: Live, j: nat, i: nat)
    requires Outcome(adds, relations, matched, me, live) && NoDuplicates(matched) && i < |adds| && j < |adds|
    requires Earlier(matched, adds[j].filter, adds[i].filter)
    ensures j < i
  {
    hide Gathered;
  }

  /** A client subscribed outside groups is served on its node under all draws exactly if it is not
      one that may first be chosen for a group. */
  lemma {:induction false} ServedLocallyIff(
    relations: map<Topic, Subs>, matched: seq<Topic>, me: Id, live: Live, f: Topic, c: ClientId, node: nat)
    requires NoDuplicates(matched) && PlainAt(relations, matched, me, f, c, node)
    ensures (forall adds | Outcome(adds, relations, matched, me, live) :: ServedLocally(adds, node, c))
       <==> !CanMiss(relations, matched, me, live, c, node)
  {
    hide Outcome, CanMiss, ServedLocally, PlainAt;
    if CanMiss(relations, matched, me, live, c, node) {
      var adds := MissingOutcome(relations, matched, me, live, c, node);
    } else {
      forall adds | Outcome(adds, relations, matched, me, live) ensures ServedLocally(adds, node, c) {
        UnmaskedServed(adds, relations, matched, me, live, f, c, node);
      }
    }
  }
}
