/** The routing table (rmqtt/src/broker/default.rs): filters, who subscribed to each, and two
    counters. */
module RoutingTable {
  import opened Wrappers
  import opened Topics
  import opened Sums

  type ClientId = string

  /** One connection of a client; a reconnection gets a new one.  `origin` stands for the
      addresses and user name, which only take part in comparisons. */
  datatype Id = Id(nodeId: nat, clientId: ClientId, origin: string, createTime: int)

  datatype Opts =
    | V3(qos: nat, group: Option<string>)
    | V5(qos: nat, group: Option<string>, noLocal: bool, subId: Option<nat>)

  type Subs = map<ClientId, (Id, Opts)>

  /** A filter as received: its levels, or text that is not a legal filter. */
  datatype FilterText = Parsed(levels: Topic) | Malformed(text: string)

  /** A statistic with its high-water mark (rmqtt/src/broker/stats.rs). */
  datatype Counter = Counter(count: int, max: int)

  function Inc(c: Counter): Counter {
    Counter(c.count + 1, if c.max < c.count + 1 then c.count + 1 else c.max)
  }

  function Dec(c: Counter): Counter {
    Counter(c.count - 1, c.max)
  }

  datatype Table = Table(
    filters: set<Topic>, topicsCount: Counter, relations: map<Topic, Subs>, relationsCount: Counter)

  const EMPTY_TABLE := Table({}, Counter(0, 0), map[], Counter(0, 0))

  predicate LegalText(f: FilterText) {
    f.Parsed? ==> IsFilter(f.levels)
  }

  function SubsIn(relations: map<Topic, Subs>, f: Topic): Subs {
    if f in relations then relations[f] else map[]
  }

  /** A subscription: one entry per client and filter, the latest one. */
  function Added(t: Table, f: FilterText, id: Id, opts: Opts): Table {
    if f.Malformed? then t
    else
      var l := f.levels;
      var rels := SubsIn(t.relations, l);
      Table(
        t.filters + {l},
        if l in t.relations then t.topicsCount else Inc(t.topicsCount),
        t.relations[l := rels[id.clientId := (id, opts)]],
        if id.clientId in rels then t.relationsCount else Inc(t.relationsCount))
  }

  /** Whether a removal applies: the entry is there and belongs to this very connection. */
  predicate RemoveEnabled(t: Table, f: FilterText, id: Id) {
    f.Parsed? && id.clientId in SubsIn(t.relations, f.levels) && SubsIn(t.relations, f.levels)[id.clientId].0 == id
  }

  function RemovedFrom(t: Table, f: FilterText, id: Id): Table {
    if !RemoveEnabled(t, f, id) then t
    else
      var l := f.levels;
      var rels := SubsIn(t.relations, l) - {id.clientId};
      if rels == map[] then
        Table(t.filters - {l}, Dec(t.topicsCount), t.relations - {l}, Dec(t.relationsCount))
      else
        Table(t.filters, t.topicsCount, t.relations[l := rels], Dec(t.relationsCount))
  }

  // ---------- the table is always in order ----------

  function SubCount(s: Subs): nat {
    |s|
  }

  /** No filter without a subscriber, and entries filed under their own client. */
  ghost predicate Tidy(rs: map<Topic, Subs>) {
    && (forall f | f in rs :: rs[f] != map[] && IsFilter(f))
    && (forall f, c | f in rs && c in rs[f] :: rs[f][c].0.clientId == c)
  }

  /** Both counters are true counts. */
  ghost predicate Counted(rs: map<Topic, Subs>, topics: Counter, subs: Counter) {
    && topics.count == |rs| <= topics.max
    && subs.count == SumOf(rs, SubCount) <= subs.max
  }

  /** The index holds exactly the filters with subscribers. */
  ghost predicate InOrder(t: Table) {
    t.filters == t.relations.Keys && Tidy(t.relations) && Counted(t.relations, t.topicsCount, t.relationsCount)
  }

  lemma {:induction false} AddedInOrder(t: Table, f: FilterText, id: Id, opts: Opts)
    requires InOrder(t) && LegalText(f)
    ensures InOrder(Added(t, f, id, opts))
  {
    hide Counted, Tidy;
    if f.Parsed? {
      AddedTidy(t, f.levels, id, opts);
      AddedCounted(t.relations, t.topicsCount, t.relationsCount, f.levels, id.clientId, (id, opts));
    }
  }

  lemma {:induction false} AddedCounted(
    rs: map<Topic, Subs>, topics: Counter, subs: Counter, l: Topic, c: ClientId, e: (Id, Opts))
    requires Counted(rs, topics, subs)
    ensures l !in rs ==> Counted(rs[l := map[c := e]], Inc(topics), Inc(subs))
    ensures l in rs ==> Counted(rs[l := rs[l][c := e]], topics, if c in rs[l] then subs else Inc(subs))
  {
    hide SumOf;
    if l in rs {
      MapSize(rs[l], c, e);
      MapSize(rs, l, rs[l][c := e]);
      SumWith(rs, SubCount, l, rs[l][c := e]);
    } else {
      MapSize(rs, l, map[c := e]);
      SumWith(rs, SubCount, l, map[c := e]);
    }
  }

  lemma {:induction false} AddedTidy(t: Table, l: Topic, id: Id, opts: Opts)
    requires Tidy(t.relations) && IsFilter(l)
    ensures Tidy(t.relations[l := SubsIn(t.relations, l)[id.clientId := (id, opts)]])
  {
    assert id.clientId in SubsIn(t.relations, l)[id.clientId := (id, opts)];
  }

  lemma {:induction false} RemovedInOrder(t: Table, f: FilterText, id: Id)
    requires InOrder(t)
    ensures InOrder(RemovedFrom(t, f, id))
  {
    hide Counted, IsFilter;
    if RemoveEnabled(t, f, id) {
      RemovedCounted(t.relations, t.topicsCount, t.relationsCount, f.levels, id.clientId);
    }
  }

  lemma {:induction false} RemovedCounted(rs: map<Topic, Subs>, topics: Counter, subs: Counter, l: Topic, c: ClientId)
    requires Counted(rs, topics, subs) && l in rs && c in rs[l]
    ensures rs[l] - {c} != map[] ==> Counted(rs[l := rs[l] - {c}], topics, Dec(subs))
    ensures rs[l] - {c} == map[] ==> Counted(rs - {l}, Dec(topics), Dec(subs))
  {
    hide SumOf;
    MapSize(rs[l], c, rs[l][c]);
    MapSize(rs, l, rs[l] - {c});
    SumWith(rs, SubCount, l, rs[l] - {c});
    SumWithout(rs, SubCount, l);
  }
}
