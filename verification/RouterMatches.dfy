/** Routing one publication on one node: the filter index, the relations and the choice of shared
    subscribers together (rmqtt/src/broker/default.rs). */
module RouterMatches {
  import opened Topics
  import opened Listings
  import opened TopicIndex
  import opened RoutingTable
  import opened ClusterRouter
  import opened SharedChoice
  import opened SharedNode

  /** Who a publication goes to: `r` is justified by a subscription whose filter matches it. */
  ghost predicate Addressed(r: Relation, relations: map<Topic, Subs>, topic: Topic, me: Id, live: Live) {
    r.filter in relations && Topics.Matches(r.filter, topic) && Justified(r, relations, me, live)
  }

  /** The relations gathered are exactly those the matching rule and the subscriptions ask for:
      each subscriber outside groups once per matching filter, one member per matching filter and
      group.  Of them exactly those of MQTT 3 and the first of each MQTT 5 client on a node survive
      collection, and a subscriber outside groups is served unless it may first be chosen for one. */
  method RouteMatches(router: DefaultRouter, topic: Topic, me: Id, live: Live)
    returns (cs: map<nat, Collector>, adds: seq<Relation>, matched: seq<Topic>)
    requires router.Valid() && IsName(topic)
    ensures NoDuplicates(matched) && forall f :: f in matched <==> f in router.relations && Topics.Matches(f, topic)
    ensures cs == CollectAll(adds) && Outcome(adds, router.relations, matched, me, live)
    ensures forall i | 0 <= i < |adds| :: Addressed(adds[i], router.relations, topic, me, live)
    ensures forall f, c | f in router.relations && Topics.Matches(f, topic) && Ungrouped(router.relations[f], me, c) ::
              PlainRelation(f, router.relations[f], c) in adds
    ensures forall f, c, g | f in router.relations && Topics.Matches(f, topic) && InGroup(router.relations[f], me, c, g) ::
              HasKey(adds, f, g)
    ensures forall i, j | 0 <= i < j < |adds| && adds[i].filter == adds[j].filter ::
              adds[i].client != adds[j].client
              && (adds[i].shared.Some? && adds[j].shared.Some? ==> adds[i].shared.value.group != adds[j].shared.value.group)
    ensures forall i | 0 <= i < |adds| :: Survives(cs, adds[i]) <==> adds[i].opts.V3? || ComesFirst(adds, i)
    ensures CarryIds(cs, adds)
    ensures forall f, c, node | PlainAt(router.relations, matched, me, f, c, node)
                                && !CanMiss(router.relations, matched, me, live, c, node) :: ServedLocally(adds, node, c)
  {
    hide Topics.Matches, Justified, InGroup, Ungrouped, CollectAll, Survives, ComesFirst, Indexes, PlainRelation, HasKey,
      CarryIds, PlainAt, CanMiss, ServedLocally, InVisitingOrder;
    matched := router.topics.Matched(topic);
    assert forall f :: f in matched <==> f in router.relations && Topics.Matches(f, topic);
    cs, adds := MatchNode(router.relations, matched, me, live);
    assert forall f | f in matched :: SubsIn(router.relations, f) == router.relations[f];
    forall f, c, node | PlainAt(router.relations, matched, me, f, c, node)
                        && !CanMiss(router.relations, matched, me, live, c, node)
      ensures ServedLocally(adds, node, c)
    {
      UnmaskedServed(adds, router.relations, matched, me, live, f, c, node);
    }
  }
}
