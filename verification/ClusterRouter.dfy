/** The router and its replicated wrapper as objects
    (rmqtt/src/broker/default.rs, rmqtt-plugins/rmqtt-cluster-raft/src/router.rs). */
module ClusterRouter {
  import opened Wrappers
  import opened Topics
  import opened RetainTree
  import opened Listings
  import opened TopicIndex
  import opened RoutingTable
  import opened ClusterLog

  class DefaultRouter {
    const topics: TopicTree
    var topicsCount: Counter
    var relations: map<Topic, Subs>
    var relationsCount: Counter

    ghost function View(): Table
      reads this, topics
    {
      Table(topics.filters, topicsCount, relations, relationsCount)
    }

    ghost predicate Valid()
      reads this, topics
    {
      topics.Valid() && InOrder(View())
    }

    constructor ()
      ensures Valid() && View() == EMPTY_TABLE && fresh(topics)
    {
      topics := new TopicTree();
      topicsCount, relations, relationsCount := Counter(0, 0), map[], Counter(0, 0);
    }

    method Add(filter: FilterText, id: Id, opts: Opts) returns (ok: bool)
      requires Valid() && LegalText(filter)
      modifies this, topics
      ensures Valid() && View() == Added(old(View()), filter, id, opts) && (ok <==> filter.Parsed?)
    {
      hide InOrder, Indexes, IsFilter;
      AddedInOrder(View(), filter, id, opts);
      if filter.Malformed? {
        return false;
      }
      var f := filter.levels;
      topics.Insert(f);
      var rels := map[];
      if f in relations {
        rels := relations[f];
      } else {
        topicsCount := Inc(topicsCount);
      }
      relations := relations[f := rels[id.clientId := (id, opts)]];
      if id.clientId !in rels {
        relationsCount := Inc(relationsCount);
      }
      ok := true;
    }

    method Remove(filter: FilterText, id: Id) returns (removed: bool)
      requires Valid()
      modifies this, topics
      ensures Valid() && View() == RemovedFrom(old(View()), filter, id)
      ensures removed <==> RemoveEnabled(old(View()), filter, id)
    {
      hide InOrder, Indexes;
      RemovedInOrder(View(), filter, id);
      if filter.Malformed? || filter.levels !in relations {
        return false;
      }
      var f := filter.levels;
      var rels := relations[f];
      if id.clientId !in rels || rels[id.clientId].0 != id {
        return false;
      }
      rels := rels - {id.clientId};
      relations := relations[f := rels];
      relationsCount := Dec(relationsCount);
      if rels == map[] {
        relations := relations - {f};
        assert relations == old(relations) - {f};
        topicsCount := Dec(topicsCount);
        topics.Remove(f);
      }
      removed := true;
    }
  }

  // ---------- snapshots ----------

  /** A snapshot lists the maps in whatever order they were walked. */
  datatype Snapshot = Snapshot(
    topics: FilterTree, relations: seq<(Topic, Subs)>, clients: seq<(ClientId, Status)>,
    topicsCount: Counter, relationsCount: Counter)

  ghost predicate Captures(snap: Snapshot, r: Replica) {
    && Indexes(snap.topics, r.table.filters)
    && Enumerates(snap.relations, r.table.relations)
    && Enumerates(snap.clients, r.clients)
    && snap.topicsCount == r.table.topicsCount && snap.relationsCount == r.table.relationsCount
  }

  function FromPairs<K, V>(l: seq<(K, V)>): map<K, V> {
    if l == [] then map[] else FromPairs(l[..|l| - 1])[l[|l| - 1].0 := l[|l| - 1].1]
  }

  lemma {:induction false} FromPairsHas<K, V>(l: seq<(K, V)>, i: nat)
    requires i < |l| && forall a, b | 0 <= a < b < |l| :: l[a].0 != l[b].0
    ensures l[i].0 in FromPairs(l) && FromPairs(l)[l[i].0] == l[i].1
  {
    if i < |l| - 1 {
      FromPairsHas(l[..|l| - 1], i);
    }
  }

  lemma {:induction false} FromPairsKeys<K(!new), V>(l: seq<(K, V)>)
    ensures forall k | k in FromPairs(l) :: exists i :: 0 <= i < |l| && l[i].0 == k
  {
    if l != [] {
      var n := |l| - 1;
      FromPairsKeys(l[..n]);
      forall k | k in FromPairs(l) ensures exists i :: 0 <= i < |l| && l[i].0 == k {
        if k != l[n].0 {
          assert k in FromPairs(l[..n]);
          var i :| 0 <= i < n && l[..n][i].0 == k;
          assert l[i].0 == k;
        }
      }
    }
  }

  /** Reading a listed map back gives the map, in whatever order it was listed. */
  lemma {:induction false} FromPairsEnumerated<K(!new), V(!new)>(l: seq<(K, V)>, m: map<K, V>)
    requires Enumerates(l, m)
    ensures FromPairs(l) == m
  {
    hide FromPairs;
    FromPairsKeys(l);
    forall k | k in m ensures k in FromPairs(l) && FromPairs(l)[k] == m[k] {
      var i :| 0 <= i < |l| && l[i] == (k, m[k]);
      FromPairsHas(l, i);
    }
    assert FromPairs(l).Keys == m.Keys;
  }

  ghost function Restored(snap: Snapshot): Replica {
    Replica(Table(Stored(snap.topics), snap.topicsCount, FromPairs(snap.relations), snap.relationsCount),
            FromPairs(snap.clients))
  }

  lemma {:induction false} RestoredIs(snap: Snapshot, r: Replica)
    requires Captures(snap, r)
    ensures Restored(snap) == r
  {
    hide Enumerates, FromPairs, Get, Stored;
    FromPairsEnumerated(snap.relations, r.table.relations);
    FromPairsEnumerated(snap.clients, r.clients);
    forall f ensures f in Stored(snap.topics) <==> f in r.table.filters {
      StoredIffGet(snap.topics, f);
    }
  }

  /** Restoring a snapshot of any prefix and applying the rest is applying the whole log. */
  lemma {:induction false} SnapshotThenRest(
    snap: Snapshot, log: seq<Entry>, clock: seq<int>, log': seq<Entry>, clock': seq<int>, timeout: int)
    requires |clock| == |log| && |clock'| == |log'|
    requires Captures(snap, After(START, log, clock, timeout))
    ensures After(Restored(snap), log', clock', timeout) == After(START, log + log', clock + clock', timeout)
  {
    hide Captures, Restored, After;
    RestoredIs(snap, After(START, log, clock, timeout));
    AfterSplit(START, log, clock, log', clock', timeout);
  }

  method ListMap<K(!new), V(!new)>(m: map<K, V>) returns (l: seq<(K, V)>)
    ensures Enumerates(l, m)
  {
    l := [];
    var todo := m.Keys;
    while todo != {}
      invariant todo <= m.Keys
      invariant forall i | 0 <= i < |l| :: l[i].0 in m && l[i].0 !in todo && m[l[i].0] == l[i].1
      invariant forall k | k in m && k !in todo :: (k, m[k]) in l
      invariant forall i, j | 0 <= i < j < |l| :: l[i].0 != l[j].0
      decreases todo
    {
      var k :| k in todo;
      l, todo := l + [(k, m[k])], todo - {k};
    }
  }

  // ---------- the replicated router ----------

  class Cluster {
    const inner: DefaultRouter
    var clientStates: map<ClientId, Status>
    const timeout: int

    ghost function View(): Replica
      reads this, inner, inner.topics
    {
      Replica(inner.View(), clientStates)
    }

    ghost predicate Valid()
      reads this, inner, inner.topics
    {
      inner.Valid() && Sane(clientStates)
    }

    constructor (timeout: int)
      ensures Valid() && View() == START && this.timeout == timeout && fresh(inner) && fresh(inner.topics)
    {
      inner := new DefaultRouter();
      clientStates := map[];
      this.timeout := timeout;
    }

    method Apply(e: Entry, now: int) returns (reply: Reply)
      requires Valid() && (e.Add? ==> LegalText(e.filter))
      modifies this, inner, inner.topics
      ensures Valid() && View() == Applied(old(View()), e, now, timeout)
      ensures reply == ReplyTo(old(View()), e, now, timeout)
    {
      hide InOrder, Indexes, Added, RemovedFrom, RemoveEnabled;
      reply := Done;
      match e {
        case HandshakeTryLock(id) =>
          var prev := None;
          var ok := false;
          if id.clientId in clientStates {
            prev := Some(clientStates[id.clientId].id);
            if !Holding(clientStates[id.clientId], now, timeout) {
              clientStates := clientStates[id.clientId := Status(id, false, true, now)];
              ok := true;
            }
          } else {
            ok := true;
            clientStates := clientStates[id.clientId := Status(id, false, true, now)];
          }
          reply := if ok then Locked(prev) else Refused;
        case Connected(id) =>
          if id.clientId in clientStates {
            var status := clientStates[id.clientId];
            if status.id != id && id.createTime < status.id.createTime {
              reply := Refused;
            } else {
              clientStates := clientStates[id.clientId := status.(id := id, online := true, handshaking := false)];
            }
          } else {
            clientStates := clientStates[id.clientId := Status(id, true, false, now)];
          }
        case Disconnected(id) =>
          if id.clientId in clientStates && clientStates[id.clientId].id == id {
            clientStates := clientStates[id.clientId := clientStates[id.clientId].(online := false)];
          }
        case SessionTerminated(id) =>
          if id.clientId in clientStates && clientStates[id.clientId].id == id {
            clientStates := clientStates - {id.clientId};
          }
        case Add(filter, id, opts) =>
          var ok := inner.Add(filter, id, opts);
          reply := if ok then Done else Failed;
        case Remove(filter, id) =>
          var _ := inner.Remove(filter, id);
        case GetClientNodeId(c) =>
          reply := NodeId(if c in clientStates then Some(clientStates[c].id.nodeId) else None);
        case Ping =>
          reply := Pong;
      }
    }

    method TakeSnapshot() returns (snap: Snapshot)
      requires Valid()
      ensures Captures(snap, View())
    {
      hide InOrder, Indexes, Enumerates;
      var relations := ListMap(inner.relations);
      var clients := ListMap(clientStates);
      snap := Snapshot(inner.topics.root, relations, clients, inner.topicsCount, inner.relationsCount);
    }

    /** Clears the maps and refills them from the snapshot. */
    method Restore(snap: Snapshot, ghost r: Replica)
      requires Captures(snap, r) && Ok(r)
      modifies this, inner, inner.topics
      ensures Valid() && View() == r
    {
      hide InOrder, Indexes, Enumerates, FromPairs, Sane;
      inner.topics.Assign(snap.topics, r.table.filters);
      inner.topicsCount := snap.topicsCount;
      inner.relations := Refill(snap.relations);
      inner.relationsCount := snap.relationsCount;
      clientStates := Refill(snap.clients);
      FromPairsEnumerated(snap.relations, r.table.relations);
      FromPairsEnumerated(snap.clients, r.clients);
    }
  }

  method Refill<K, V>(l: seq<(K, V)>) returns (m: map<K, V>)
    ensures m == FromPairs(l)
  {
    m := map[];
    for i := 0 to |l|
      invariant m == FromPairs(l[..i])
    {
      assert l[..i + 1][..i] == l[..i];
      m := m[l[i].0 := l[i].1];
    }
    assert l[..|l|] == l;
  }
}
