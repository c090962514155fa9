/** Taking over a session: kicking the old connection, moving its subscriptions, and forwarding
    the messages of its queue and window to the new one (rmqtt/src/broker/session.rs,
    rmqtt/src/broker/default.rs, rmqtt/src/broker/v5.rs). */
module Takeover {
  import opened Wrappers
  import opened Topics
  import opened Listings
  import opened RoutingTable
  import opened InflightWindow
  import Q = DeliverQueue
  import R = ClusterRouter
  import L = ClusterLog
  import S = StoredMessages
  import M = MessageStore

  type Item = (string, Publish)   // from whom, what

  /** A message in flight as it is forwarded again. */
  function Redelivery(m: Flight): Item {
    (m.from, m.publish.(dup := true))
  }

  /** Messages that only lack their completion are not forwarded. */
  function Redeliveries(ms: seq<Flight>): seq<Item> {
    if ms == [] then []
    else (if ms[0].status == UnComplete then [] else [Redelivery(ms[0])]) + Redeliveries(ms[1..])
  }

  lemma {:induction false} RedeliveriesSplit(a: seq<Flight>, b: seq<Flight>)
    ensures Redeliveries(a + b) == Redeliveries(a) + Redeliveries(b)
  {
    if a == [] {
      assert a + b == b;
    } else {
      var first := if a[0].status == UnComplete then [] else [Redelivery(a[0])];
      calc {
        Redeliveries(a + b);
        { assert (a + b)[0] == a[0] && (a + b)[1..] == a[1..] + b; }
        first + Redeliveries(a[1..] + b);
        { RedeliveriesSplit(a[1..], b); }
        first + (Redeliveries(a[1..]) + Redeliveries(b));
        Redeliveries(a) + Redeliveries(b);
      }
    }
  }

  type SessionSubs = map<Topic, Opts>

  class Session {
    const id: Id
    var subs: SessionSubs
    const queue: Q.Channel<Item>
    const window: Inflight

    constructor (id: Id, subs: SessionSubs, queue: Q.Channel<Item>, window: Inflight)
      ensures this.id == id && this.subs == subs && this.queue == queue && this.window == window
    {
      this.id, this.subs, this.queue, this.window := id, subs, queue, window;
    }
  }

  datatype OfflineInfo = OfflineInfo(id: Id, subs: SessionSubs, offline: seq<Item>, inflight: seq<Flight>)

  /** Everything the old session still owed leaves it. */
  method ToOfflineInfo(peer: Session) returns (info: OfflineInfo)
    requires peer.window.Valid()
    modifies peer, peer.queue, peer.window
    ensures peer.window.Valid() && peer.window.queues == map[] && peer.queue.inner == [] && peer.subs == map[]
    ensures info.id == peer.id && info.subs == old(peer.subs)
    ensures info.offline == old(peer.queue.inner) && ListsWindow(info.inflight, old(peer.window.queues))
  {
    hide WindowOk, ListsWindow;
    var subs := peer.subs;
    peer.subs := map[];
    var queue, window := peer.queue, peer.window;
    var offline: seq<Item> := [];
    while queue.inner != []
      invariant offline + queue.inner == old(peer.queue.inner)
      invariant window.Valid() && window.queues == old(peer.window.queues)
      invariant peer.subs == map[]
      decreases |queue.inner|
    {
      var head := queue.TakeHead();
      offline := offline + [head.value];
    }
    var inflight := window.ToInflightMessages();
    info := OfflineInfo(peer.id, subs, offline, inflight);
  }

  // ---------- subscriptions in the routing table ----------

  predicate Legal(subs: SessionSubs) {
    forall f | f in subs :: f != [] && IsFilter(f)
  }

  /** The subscriptions `subs` of connection `id` taken out, where they are still its own. */
  ghost predicate Cleared(t: Table, t': Table, subs: set<Topic>, id: Id) {
    forall f :: SubsIn(t'.relations, f)
      == (if f in subs && RemoveEnabled(t, Parsed(f), id) then SubsIn(t.relations, f) - {id.clientId} else SubsIn(t.relations, f))
  }

  /** The subscriptions `subs` put in the name of connection `id`. */
  ghost predicate Moved(t: Table, t': Table, subs: SessionSubs, id: Id) {
    forall f :: SubsIn(t'.relations, f)
      == (if f in subs then SubsIn(t.relations, f)[id.clientId := (id, subs[f])] else SubsIn(t.relations, f))
  }

  lemma {:induction false} ClearedNext(t: Table, t': Table, subs: set<Topic>, id: Id, f: Topic)
    requires Cleared(t, t', subs, id) && f !in subs
    ensures Cleared(t, RemovedFrom(t', Parsed(f), id), subs + {f}, id)
  {
  }

  lemma {:induction false} MovedNext(t: Table, t': Table, subs: SessionSubs, id: Id, f: Topic, opts: Opts)
    requires Moved(t, t', subs, id) && f !in subs
    ensures Moved(t, Added(t', Parsed(f), id, opts), subs[f := opts], id)
  {
  }

  /** `_remove` with `clear_subscriptions`: the filters in whatever order the session lists them. */
  method ClearSubscriptions(router: R.DefaultRouter, subs: SessionSubs, id: Id)
    requires router.Valid()
    modifies router, router.topics
    ensures router.Valid() && Cleared(old(router.View()), router.View(), subs.Keys, id)
  {
    hide Cleared, RemovedFrom, InOrder;
    ghost var t := router.View();
    var todo := subs.Keys;
    ClearedNothing(t, id);
    assert subs.Keys - todo == {};
    while todo != {}
      invariant router.Valid() && todo <= subs.Keys
      invariant Cleared(t, router.View(), subs.Keys - todo, id)
      decreases todo
    {
      var f :| f in todo;
      ClearedNext(t, router.View(), subs.Keys - todo, id, f);
      assert subs.Keys - (todo - {f}) == subs.Keys - todo + {f};
      todo := todo - {f};
      var removed := router.Remove(Parsed(f), id);
    }
    assert subs.Keys - todo == subs.Keys;
  }

  /** The subscriptions in whatever order they are listed; each is entered in the table and sent the
      stored messages it is owed, at the time `clock` gives for it. */
  method MoveSubscriptions(
    router: R.DefaultRouter, store: M.RamMessageManager, subs: SessionSubs, id: Id, clock: Topic -> int)
    returns (replayed: Replay)
    requires router.Valid() && store.Valid() && Legal(subs)
    modifies router, router.topics, store
    ensures router.Valid() && Moved(old(router.View()), router.View(), subs, id)
    ensures store.Valid() && Replayed(old(store.View()), store.View(), id.clientId, subs, clock, replayed)
  {
    hide Moved, Added, InOrder, Replayed, S.Consistent, M.Answers, S.GetState;
    ghost var t, st := router.View(), store.View();
    replayed := [];
    var todo := subs.Keys;
    MovedNothing(t, id);
    ReplayedNothing(st, id.clientId, clock);
    assert subs - todo == map[];
    while todo != {}
      invariant router.Valid() && store.Valid() && todo <= subs.Keys
      invariant Moved(t, router.View(), subs - todo, id)
      invariant Replayed(st, store.View(), id.clientId, subs - todo, clock, replayed)
      decreases todo
    {
      var f :| f in todo;
      MovedNext(t, router.View(), subs - todo, id, f, subs[f]);
      ghost var before := store.View();
      ghost var done := subs - todo;
      assert subs - (todo - {f}) == done[f := subs[f]];
      todo := todo - {f};
      var ok := router.Add(Parsed(f), id, subs[f]);
      var out := store.Get(id.clientId, f, subs[f].group, clock(f));
      ReplayedNext(st, before, id.clientId, done, clock, replayed, f, subs[f], out);
      replayed := replayed + out;
    }
    assert subs - todo == subs;
  }

  // ---------- stored messages for the subscriptions taken over ----------

  type Replay = seq<(S.MsgId, S.Message)>

  /** A stored message some subscription is owed, as the store stood at the start. */
  ghost predicate Owed(st: S.State, client: ClientId, subs: SessionSubs, clock: Topic -> int, m: S.MsgId) {
    exists f :: f in subs && m in S.Fetched(st, client, f, subs[f].group, clock(f))
  }

  /** Exactly the messages owed to one of the subscriptions are sent, each once, however many of
      them it matches; and they are recorded as sent. */
  ghost predicate Replayed(
    st: S.State, st': S.State, client: ClientId, subs: SessionSubs, clock: Topic -> int, out: Replay)
  {
    && st'.messages == st.messages && st'.index == st.index
    && (forall m | m in st.messages ::
          if Owed(st, client, subs, clock, m) then client in S.RecordOf(st', m)
          else S.RecordOf(st', m) == S.RecordOf(st, m))
    && (forall i | 0 <= i < |out| ::
          out[i].0 in st.messages && Owed(st, client, subs, clock, out[i].0) && out[i].1 == st.messages[out[i].0].0)
    && (forall m | m in st.messages && Owed(st, client, subs, clock, m) :: (m, st.messages[m].0) in out)
    && (forall i, j | 0 <= i < j < |out| :: out[i].0 != out[j].0)
  }

  lemma {:induction false} ReplayedNothing(st: S.State, client: ClientId, clock: Topic -> int)
    ensures Replayed(st, st, client, map[], clock, [])
  {
  }

  lemma OwedNext(st: S.State, client: ClientId, subs: SessionSubs, clock: Topic -> int, f: Topic, opts: Opts, m: S.MsgId)
    requires f !in subs
    ensures Owed(st, client, subs[f := opts], clock, m)
       <==> Owed(st, client, subs, clock, m) || m in S.Fetched(st, client, f, opts.group, clock(f))
  {
    var subs' := subs[f := opts];
    if Owed(st, client, subs, clock, m) {
      var h :| h in subs && m in S.Fetched(st, client, h, subs[h].group, clock(h));
      assert h in subs' && m in S.Fetched(st, client, h, subs'[h].group, clock(h));
    }
    if m in S.Fetched(st, client, f, opts.group, clock(f)) {
      assert f in subs' && m in S.Fetched(st, client, f, subs'[f].group, clock(f));
    }
  }

  /** A fetch after others returns what it would have returned at the start, less what was sent. */
  lemma {:induction false} FetchedLater(
    st: S.State, st': S.State, client: ClientId, subs: SessionSubs, clock: Topic -> int, out: Replay,
    f: Topic, group: Option<S.Group>, m: S.MsgId)
    requires Replayed(st, st', client, subs, clock, out)
    ensures m in S.Fetched(st', client, f, group, clock(f))
       <==> m in S.Fetched(st, client, f, group, clock(f)) && !Owed(st, client, subs, clock, m)
  {
    hide Owed, Topics.Matches;
    assert S.Hits(st', f) == S.Hits(st, f);
  }

  lemma {:induction false} ReplayedNext(
    st: S.State, st': S.State, client: ClientId, subs: SessionSubs, clock: Topic -> int, out: Replay,
    f: Topic, opts: Opts, more: Replay)
    requires Replayed(st, st', client, subs, clock, out) && f !in subs
    requires M.Answers(st', client, f, opts.group, clock(f), more)
    ensures Replayed(st, S.GetState(st', client, f, opts.group, clock(f)), client, subs[f := opts], clock, out + more)
  {
    hide Owed, S.Fetched, S.Hits, S.Eligible;
    forall m
      ensures Owed(st, client, subs[f := opts], clock, m)
         <==> Owed(st, client, subs, clock, m) || m in S.Fetched(st', client, f, opts.group, clock(f))
      ensures m in S.Fetched(st', client, f, opts.group, clock(f)) ==> m in st'.messages && !Owed(st, client, subs, clock, m)
    {
      FetchedStored(st', client, f, opts.group, clock(f), m);
      OwedNext(st, client, subs, clock, f, opts, m);
      FetchedLater(st, st', client, subs, clock, out, f, opts.group, m);
    }
    RecordsNext(st', client, f, opts.group, clock(f));
  }

  lemma FetchedStored(st: S.State, client: ClientId, f: Topic, group: Option<S.Group>, now: int, m: S.MsgId)
    ensures m in S.Fetched(st, client, f, group, now) ==> m in st.messages
  {
  }

  /** A fetch changes only the records of what it returns. */
  lemma {:induction false} RecordsNext(st: S.State, client: ClientId, f: Topic, group: Option<S.Group>, now: int)
    ensures var st' := S.GetState(st, client, f, group, now);
            && st'.messages == st.messages && st'.index == st.index
            && forall m :: if m in S.Fetched(st, client, f, group, now)
                           then S.RecordOf(st', m) == S.RecordOf(st, m)[client := S.TagFor(f, group)]
                           else S.RecordOf(st', m) == S.RecordOf(st, m)
  {
    hide S.Eligible, Topics.Matches;
  }

  lemma ClearedNothing(t: Table, id: Id)
    ensures Cleared(t, t, {}, id)
  {
  }

  lemma MovedNothing(t: Table, id: Id)
    ensures Moved(t, t, map[], id)
  {
  }

  /** The table's entries of connection `id` are exactly the session's subscriptions. */
  ghost predicate Owns(t: Table, subs: SessionSubs, id: Id) {
    forall f :: (if f in subs then Some((id, subs[f])) else None) == OwnEntry(t, f, id)
  }

  function OwnEntry(t: Table, f: Topic, id: Id): Option<(Id, Opts)> {
    var rels := SubsIn(t.relations, f);
    if id.clientId in rels && rels[id.clientId].0 == id then Some(rels[id.clientId]) else None
  }

  // ---------- a session owns what it subscribed to ----------

  datatype SubEvent =
    | Subscribe(filter: FilterText, opts: Opts)
    | Unsubscribe(filter: FilterText)
    | Foreign(entry: L.Entry)   // another connection's message to the router

  function TableStep(t: Table, id: Id, e: SubEvent): Table {
    match e
    case Subscribe(f, opts) => Added(t, f, id, opts)
    case Unsubscribe(f) => RemovedFrom(t, f, id)
    case Foreign(entry) => L.TableAfter(t, entry)
  }

  /** A subscription that does not parse is refused by the router before the session notes it. */
  function SubsStep(subs: SessionSubs, e: SubEvent): SessionSubs {
    match e
    case Subscribe(f, opts) => if f.Parsed? then subs[f.levels := opts] else subs
    case Unsubscribe(f) => if f.Parsed? then subs - {f.levels} else subs
    case Foreign(_) => subs
  }

  /** Another connection of the same client subscribes to one of the session's filters. */
  predicate Usurps(e: SubEvent, id: Id, subs: SessionSubs) {
    && e.Foreign? && e.entry.Add? && e.entry.id.clientId == id.clientId
    && e.entry.filter.Parsed? && e.entry.filter.levels in subs
  }

  predicate ByAnother(e: SubEvent, id: Id) {
    e.Foreign? && (e.entry.Add? || e.entry.Remove?) ==> e.entry.id != id
  }

  /** One step keeps table and session in agreement exactly if it does not usurp. */
  lemma {:induction false} OwnsStepIff(t: Table, subs: SessionSubs, id: Id, e: SubEvent)
    requires Owns(t, subs, id) && ByAnother(e, id)
    ensures Owns(TableStep(t, id, e), SubsStep(subs, e), id) <==> !Usurps(e, id, subs)
  {
    hide Owns;
    var t', subs' := TableStep(t, id, e), SubsStep(subs, e);
    forall f ensures OwnEntry(t', f, id) == (if f in subs' then Some((id, subs'[f])) else None)
                <==> !(Usurps(e, id, subs) && f == e.entry.filter.levels)
    {
      OwnedAt(t, subs, id, f);
      EntryStep(t, subs, id, e, f);
    }
    OwnsFrom(t', subs', id);
    if Usurps(e, id, subs) && Owns(t', subs', id) {
      OwnedAt(t', subs', id, e.entry.filter.levels);
    }
  }

  lemma OwnedAt(t: Table, subs: SessionSubs, id: Id, f: Topic)
    requires Owns(t, subs, id)
    ensures OwnEntry(t, f, id) == if f in subs then Some((id, subs[f])) else None
  {
  }

  lemma OwnsFrom(t: Table, subs: SessionSubs, id: Id)
    ensures (forall f :: OwnEntry(t, f, id) == if f in subs then Some((id, subs[f])) else None) ==> Owns(t, subs, id)
  {
  }

  lemma {:induction false} EntryStep(t: Table, subs: SessionSubs, id: Id, e: SubEvent, f: Topic)
    requires ByAnother(e, id) && OwnEntry(t, f, id) == if f in subs then Some((id, subs[f])) else None
    ensures var subs' := SubsStep(subs, e);
            OwnEntry(TableStep(t, id, e), f, id) == (if f in subs' then Some((id, subs'[f])) else None)
            <==> !(Usurps(e, id, subs) && f == e.entry.filter.levels)
  {
  }

  function TableRun(t: Table, id: Id, run: seq<SubEvent>): Table {
    if run == [] then t else TableStep(TableRun(t, id, run[..|run| - 1]), id, run[|run| - 1])
  }

  function SubsRun(run: seq<SubEvent>): SessionSubs {
    if run == [] then map[] else SubsStep(SubsRun(run[..|run| - 1]), run[|run| - 1])
  }

  /** Starting without subscriptions, a session and the table agree throughout as long as no other
      connection of the client usurps one. */
  lemma {:induction false} OwnsAlways(t: Table, id: Id, run: seq<SubEvent>)
    requires Owns(t, map[], id) && forall e | e in run :: ByAnother(e, id)
    requires forall i | 0 <= i < |run| :: !Usurps(run[i], id, SubsRun(run[..i]))
    ensures Owns(TableRun(t, id, run), SubsRun(run), id)
    decreases |run|
  {
    hide Owns, TableStep, SubsStep;
    if run != [] {
      var n := |run| - 1;
      assert run[n] in run;
      forall i | 0 <= i < n ensures !Usurps(run[..n][i], id, SubsRun(run[..n][..i])) {
        assert run[..n][..i] == run[..i];
      }
      OwnsAlways(t, id, run[..n]);
      OwnsStepIff(TableRun(t, id, run[..n]), SubsRun(run[..n]), id, run[n]);
    }
  }

  method SubscribeTo(router: R.DefaultRouter, s: Session, filter: FilterText, opts: Opts) returns (ok: bool)
    requires router.Valid() && LegalText(filter)
    modifies router, router.topics, s
    ensures router.Valid() && router.View() == TableStep(old(router.View()), s.id, Subscribe(filter, opts))
    ensures s.subs == SubsStep(old(s.subs), Subscribe(filter, opts)) && (ok <==> filter.Parsed?)
    ensures old(Owns(router.View(), s.subs, s.id)) ==> Owns(router.View(), s.subs, s.id)
  {
    hide Owns, InOrder;
    if Owns(router.View(), s.subs, s.id) {
      OwnsStepIff(router.View(), s.subs, s.id, Subscribe(filter, opts));
    }
    ok := router.Add(filter, s.id, opts);
    if ok {
      s.subs := s.subs[filter.levels := opts];
    }
  }

  method UnsubscribeFrom(router: R.DefaultRouter, s: Session, filter: FilterText) returns (ok: bool)
    requires router.Valid()
    modifies router, router.topics, s
    ensures router.Valid() && router.View() == TableStep(old(router.View()), s.id, Unsubscribe(filter))
    ensures s.subs == SubsStep(old(s.subs), Unsubscribe(filter))
    ensures ok <==> filter.Parsed? && filter.levels in old(s.subs)
    ensures old(Owns(router.View(), s.subs, s.id)) ==> Owns(router.View(), s.subs, s.id)
  {
    hide Owns, InOrder;
    if Owns(router.View(), s.subs, s.id) {
      OwnsStepIff(router.View(), s.subs, s.id, Unsubscribe(filter));
    }
    var removed := router.Remove(filter, s.id);
    ok := false;
    if filter.Parsed? {
      ok := filter.levels in s.subs;
      s.subs := s.subs - {filter.levels};
    }
  }

  // ---------- handing subscriptions over ----------

  /** Moving hands all of the old connection's entries, with their options, to the new one. */
  lemma {:induction false} MovedHandsOver(t: Table, t': Table, subs: SessionSubs, before: Id, after: Id)
    requires Owns(t, subs, before) && Owns(t, map[], after) && before != after && before.clientId == after.clientId
    requires Moved(t, t', subs, after)
    ensures Owns(t', subs, after) && Owns(t', map[], before)
  {
    forall f
      ensures (if f in subs then Some((after, subs[f])) else None) == OwnEntry(t', f, after)
      ensures OwnEntry(t', f, before).None?
    {
      assert OwnEntry(t, f, before) == if f in subs then Some((before, subs[f])) else None;
      assert OwnEntry(t, f, after).None?;
    }
  }

  /** Clearing leaves the old connection no entry, and touches nobody else's. */
  lemma {:induction false} ClearedLeavesNone(t: Table, t': Table, subs: SessionSubs, id: Id)
    requires Owns(t, subs, id) && Cleared(t, t', subs.Keys, id)
    ensures Owns(t', map[], id)
    ensures forall f, c | c in SubsIn(t.relations, f) && SubsIn(t.relations, f)[c].0 != id ::
              c in SubsIn(t'.relations, f) && SubsIn(t'.relations, f)[c] == SubsIn(t.relations, f)[c]
  {
    forall f ensures OwnEntry(t', f, id).None? {
      assert OwnEntry(t, f, id) == if f in subs then Some((id, subs[f])) else None;
    }
  }

  /** After a takeover the new connection keeps every subscription it took over, whatever the old
      one still says, short of subscribing again; and it stays on record exactly if the old one
      does not connect again or is older. */
  lemma {:induction false} TakeoverHolds(
    r: L.Replica, t': Table, subs: SessionSubs, before: Id, after: Id,
    log: seq<L.Entry>, clock: seq<int>, timeout: int, f: Topic)
    requires Owns(r.table, subs, before) && Owns(r.table, map[], after)
    requires before.clientId == after.clientId && before != after
    requires Moved(r.table, t', subs, after) && f in subs
    requires after.clientId in r.clients && r.clients[after.clientId].id == after
    requires |clock| == |log| && (forall e | e in log :: L.Late(e, before))
    ensures var end := L.After(r.(table := t'), log, clock, timeout);
            && (OwnEntry(end.table, f, after) == Some((after, subs[f])) <==> !L.Resubscribed(log, f))
            && (end.clients == r.clients <==> before.createTime < after.createTime || !L.Reconnected(log))
  {
    hide Moved, L.After;
    MovedHandsOver(r.table, t', subs, before, after);
    assert OwnEntry(t', f, after) == Some((after, subs[f]));
    L.LateSubscriptions(r.(table := t'), log, clock, timeout, before, f, after.clientId);
    L.LateRecords(r.(table := t'), log, clock, timeout, before);
  }

  // ---------- messages ----------

  /** What was sent and what was dropped, when everything in `items` has been forwarded. */
  predicate Forwarded(sent: seq<Item>, dropped: seq<Item>, items: seq<Item>, open: bool) {
    sent == (if open then items else []) && dropped == if open then [] else items
  }

  /** Forwarding reaches the new connection, or drops the message if its channel is closed. */
  method Forward(item: Item, open: bool, sent: seq<Item>, dropped: seq<Item>, ghost before: seq<Item>)
    returns (sent': seq<Item>, dropped': seq<Item>)
    requires Forwarded(sent, dropped, before, open)
    ensures Forwarded(sent', dropped', before + [item], open)
  {
    sent', dropped' := sent, dropped;
    if open {
      sent' := sent' + [item];
    } else {
      dropped' := dropped' + [item];
    }
  }

  method NothingForwarded(open: bool) returns (sent: seq<Item>, dropped: seq<Item>)
    ensures Forwarded(sent, dropped, [], open)
  {
    sent, dropped := [], [];
  }

  lemma Append<T>(a: seq<T>, x: T, b: seq<T>)
    ensures a + ([x] + b) == (a + [x]) + b
  {
  }

  method ReforwardAll(inflight: seq<Flight>, open: bool) returns (sent: seq<Item>, dropped: seq<Item>)
    ensures Forwarded(sent, dropped, Reversed(Redeliveries(inflight)), open)
  {
    hide Redeliveries, Reversed, Forwarded;
    ghost var all: seq<Item> := [];
    sent, dropped := NothingForwarded(open);
    NoRedeliveries();
    var ms := inflight;
    while ms != []
      invariant all + Reversed(Redeliveries(ms)) == Reversed(Redeliveries(inflight))
      invariant Forwarded(sent, dropped, all, open)
      decreases |ms|
    {
      var m := ms[|ms| - 1];
      RedeliveriesLast(ms);
      if m.status != UnComplete {
        sent, dropped := Forward(Redelivery(m), open, sent, dropped, all);
        all := all + [Redelivery(m)];
      }
      ms := ms[..|ms| - 1];
    }
    assert all == Reversed(Redeliveries(inflight));
  }

  lemma NoRedeliveries()
    ensures Reversed(Redeliveries([])) == []
  {
  }

  lemma {:induction false} RedeliveriesLast(ms: seq<Flight>)
    requires ms != []
    ensures Reversed(Redeliveries(ms))
         == (if ms[|ms| - 1].status == UnComplete then [] else [Redelivery(ms[|ms| - 1])])
            + Reversed(Redeliveries(ms[..|ms| - 1]))
  {
    var m, rest := ms[|ms| - 1], ms[..|ms| - 1];
    assert ms == rest + [m];
    RedeliveriesSplit(rest, [m]);
    assert Redeliveries([m]) == if m.status == UnComplete then [] else [Redelivery(m)];
    if m.status != UnComplete {
      assert Redeliveries(ms)[..|Redeliveries(ms)| - 1] == Redeliveries(rest);
    } else {
      assert Redeliveries(ms) == Redeliveries(rest);
    }
  }

  method ForwardAll(offline: seq<Item>, open: bool) returns (sent: seq<Item>, dropped: seq<Item>)
    ensures Forwarded(sent, dropped, Reversed(offline), open)
  {
    hide Reversed, Forwarded;
    ghost var all: seq<Item> := [];
    sent, dropped := NothingForwarded(open);
    var items := offline;
    while items != []
      invariant all + Reversed(items) == Reversed(offline)
      invariant Forwarded(sent, dropped, all, open)
      decreases |items|
    {
      ReversedEnds(items);
      Append(all, items[|items| - 1], Reversed(items[..|items| - 1]));
      sent, dropped := Forward(items[|items| - 1], open, sent, dropped, all);
      all := all + [items[|items| - 1]];
      items := items[..|items| - 1];
    }
    ReversedEnds(items);
    assert all == Reversed(offline);
  }

  /** The item is the message with the duplicate flag set and nothing else changed. */
  predicate MarkedCopy(item: Item, m: Flight) {
    && item.0 == m.from && item.1.dup
    && item.1.body == m.publish.body && item.1.qos == m.publish.qos && item.1.packetId == m.publish.packetId
  }

  ghost predicate HasCopy(items: seq<Item>, m: Flight) {
    exists i :: 0 <= i < |items| && MarkedCopy(items[i], m)
  }

  ghost predicate CopyOf(item: Item, inflight: seq<Flight>) {
    exists j :: 0 <= j < |inflight| && inflight[j].status != UnComplete && MarkedCopy(item, inflight[j])
  }

  /** Every message in flight not yet released arrives marked as a duplicate, every queued one as it
      was, and nothing else does. */
  ghost predicate OwedArrive(items: seq<Item>, inflight: seq<Flight>, offline: seq<Item>) {
    && (forall j | 0 <= j < |inflight| && inflight[j].status != UnComplete :: HasCopy(items, inflight[j]))
    && (forall j | 0 <= j < |offline| :: offline[j] in items)
    && (forall i | 0 <= i < |items| :: items[i] in offline || CopyOf(items[i], inflight))
  }

  lemma {:induction false} OwedArrived(items: seq<Item>, inflight: seq<Flight>, offline: seq<Item>)
    requires multiset(items) == multiset(Redeliveries(inflight)) + multiset(offline)
    ensures OwedArrive(items, inflight, offline)
  {
    hide Redeliveries;
    forall j | 0 <= j < |inflight| && inflight[j].status != UnComplete ensures HasCopy(items, inflight[j]) {
      RedeliveryListed(inflight, j);
      assert Redelivery(inflight[j]) in multiset(items);
      var i :| 0 <= i < |items| && items[i] == Redelivery(inflight[j]);
      assert MarkedCopy(items[i], inflight[j]);
    }
    forall j | 0 <= j < |offline| ensures offline[j] in items {
      assert offline[j] in multiset(items);
    }
    forall i | 0 <= i < |items| ensures items[i] in offline || CopyOf(items[i], inflight) {
      assert items[i] in multiset(items);
      if items[i] !in offline {
        assert items[i] in multiset(Redeliveries(inflight));
        var j := RedeliveryOrigin(inflight, items[i]);
        assert MarkedCopy(items[i], inflight[j]);
      }
    }
  }

  /** Both lists are worked off from the back, so each arrives reversed. */
  method SendOwed(offline: seq<Item>, inflight: seq<Flight>, open: bool) returns (sent: seq<Item>, dropped: seq<Item>)
    ensures Forwarded(sent, dropped, Reversed(Redeliveries(inflight)) + Reversed(offline), open)
    ensures multiset(sent) + multiset(dropped) == multiset(Redeliveries(inflight)) + multiset(offline)
    ensures OwedArrive(sent + dropped, inflight, offline) && if open then dropped == [] else sent == []
  {
    hide Redeliveries, Reversed, OwedArrive;
    sent, dropped := ReforwardAll(inflight, open);
    var moreSent, moreDropped := ForwardAll(offline, open);
    sent, dropped := sent + moreSent, dropped + moreDropped;
    ReversedContents(Redeliveries(inflight));
    ReversedContents(offline);
    OwedArrived(sent + dropped, inflight, offline);
  }

  method TransferSessionState(
    router: R.DefaultRouter, store: M.RamMessageManager, s: Session,
    clear: bool, info: OfflineInfo, clock: Topic -> int, open: bool)
    returns (replayed: Replay, sent: seq<Item>, dropped: seq<Item>)
    requires router.Valid() && store.Valid() && Legal(info.subs)
    modifies router, router.topics, store, s
    ensures router.Valid() && store.Valid()
    ensures clear ==> router.View() == old(router.View()) && s.subs == old(s.subs)
                      && store.View() == old(store.View()) && replayed == []
    ensures !clear ==> && Moved(old(router.View()), router.View(), info.subs, s.id) && s.subs == old(s.subs) + info.subs
                       && Replayed(old(store.View()), store.View(), s.id.clientId, info.subs, clock, replayed)
    ensures Forwarded(sent, dropped, Reversed(Redeliveries(info.inflight)) + Reversed(info.offline), open)
    ensures multiset(sent) + multiset(dropped) == multiset(Redeliveries(info.inflight)) + multiset(info.offline)
    ensures OwedArrive(sent + dropped, info.inflight, info.offline) && if open then dropped == [] else sent == []
  {
    hide OwedArrive, Redeliveries, Reversed, Forwarded, Moved, InOrder, Replayed, S.Consistent;
    replayed := [];
    if !clear {
      replayed := MoveSubscriptions(router, store, info.subs, s.id, clock);
      s.subs := s.subs + info.subs;
    }
    sent, dropped := SendOwed(info.offline, info.inflight, open);
  }

  // ---------- the whole takeover ----------

  /** What became of the kick message to the old connection. */
  datatype KickReply = Unreachable | Confirmed | ReplyLost | ReplyLate

  datatype KickResult = KickFailed | Kicked(info: Option<OfflineInfo>)

  /** `kick`: only a lost reply stops it.  The old session is removed, its subscriptions cleared if
      asked, and unless the start is clean everything else is handed over. */
  method Kick(router: R.DefaultRouter, peer: Session, reply: KickReply, cleanStart: bool, clear: bool)
    returns (r: KickResult)
    requires router.Valid() && peer.window.Valid()
    modifies router, router.topics, peer, peer.queue, peer.window
    ensures router.Valid() && peer.window.Valid() && (r.KickFailed? <==> reply.ReplyLost?)
    ensures !r.KickFailed? && clear ==> Cleared(old(router.View()), router.View(), old(peer.subs).Keys, peer.id)
    ensures r.KickFailed? || !clear ==> router.View() == old(router.View())
    ensures r.Kicked? ==> (r.info.None? <==> cleanStart)
    ensures r.Kicked? && !cleanStart ==>
              && r.info.value.id == peer.id && r.info.value.subs == old(peer.subs)
              && r.info.value.offline == old(peer.queue.inner) && ListsWindow(r.info.value.inflight, old(peer.window.queues))
              && peer.queue.inner == [] && peer.window.queues == map[] && peer.subs == map[]
    ensures r.KickFailed? || cleanStart ==>
              && peer.queue.inner == old(peer.queue.inner) && peer.window.queues == old(peer.window.queues)
              && peer.subs == old(peer.subs)
  {
    hide WindowOk, ListsWindow, InOrder, Cleared;
    if reply.ReplyLost? {
      return KickFailed;
    }
    if clear {
      ClearSubscriptions(router, peer.subs, peer.id);
    }
    if cleanStart {
      return Kicked(None);
    }
    var info := ToOfflineInfo(peer);
    r := Kicked(Some(info));
  }

  /** A new connection takes over from the old one, as at CONNECT.  With a clean start the old
      subscriptions leave the table and its messages are not sent.  Otherwise the table's entries
      move to the new connection, and it is sent exactly the queued messages and, marked as
      duplicates, those in flight that were not already released. */
  method TakeOver(
    router: R.DefaultRouter, store: M.RamMessageManager, peer: Session, s: Session,
    reply: KickReply, cleanStart: bool, clock: Topic -> int, open: bool)
    returns (ok: bool, replayed: Replay, sent: seq<Item>, dropped: seq<Item>, order: seq<Flight>)
    requires router.Valid() && store.Valid() && peer.window.Valid() && Legal(peer.subs) && peer != s
    modifies router, router.topics, store, s, peer, peer.queue, peer.window
    ensures router.Valid() && store.Valid() && (ok <==> !reply.ReplyLost?)
    ensures !ok ==> router.View() == old(router.View()) && peer.subs == old(peer.subs)
                    && peer.queue.inner == old(peer.queue.inner) && peer.window.queues == old(peer.window.queues)
    ensures ok && cleanStart ==> Cleared(old(router.View()), router.View(), old(peer.subs).Keys, peer.id)
    ensures !ok || cleanStart ==> replayed == [] && sent == [] && dropped == [] && s.subs == old(s.subs)
                                  && store.View() == old(store.View())
    ensures ok && !cleanStart ==>
              && Moved(old(router.View()), router.View(), old(peer.subs), s.id) && s.subs == old(s.subs) + old(peer.subs)
              && Replayed(old(store.View()), store.View(), s.id.clientId, old(peer.subs), clock, replayed)
              && peer.queue.inner == [] && peer.window.queues == map[] && peer.subs == map[]
              && ListsWindow(order, old(peer.window.queues))
              && Forwarded(sent, dropped, Reversed(Redeliveries(order)) + Reversed(old(peer.queue.inner)), open)
              && multiset(sent) + multiset(dropped) == multiset(Redeliveries(order)) + multiset(old(peer.queue.inner))
              && OwedArrive(sent + dropped, order, old(peer.queue.inner)) && (if open then dropped == [] else sent == [])
    ensures ok && !cleanStart ==> forall id | id in old(peer.window.queues) && old(peer.window.queues)[id].status != UnComplete ::
              HasCopy(sent + dropped, old(peer.window.queues)[id])
  {
    hide OwedArrive, HasCopy, WindowOk, ListsWindow, InOrder, Cleared, Moved, Redeliveries, Reversed, Forwarded, Legal,
      Replayed, S.Consistent;
    replayed, sent, dropped, order := [], [], [], [];
    var kicked := Kick(router, peer, reply, cleanStart, cleanStart);
    if kicked.KickFailed? {
      return false, [], [], [], [];
    }
    ok := true;
    if kicked.info.Some? {
      var info := kicked.info.value;
      order := info.inflight;
      replayed, sent, dropped := TransferSessionState(router, store, s, cleanStart, info, clock, open);
      WindowArrives(sent + dropped, order, old(peer.window.queues), info.offline);
    }
  }

  lemma {:induction false} WindowArrives(items: seq<Item>, order: seq<Flight>, q: map<nat, Flight>, offline: seq<Item>)
    requires ListsWindow(order, q) && OwedArrive(items, order, offline)
    ensures forall id | id in q && q[id].status != UnComplete :: HasCopy(items, q[id])
  {
    hide HasCopy, CopyOf;
    forall id | id in q && q[id].status != UnComplete ensures HasCopy(items, q[id]) {
      var j :| 0 <= j < |order| && order[j] == q[id];
    }
  }

  /** A message in flight is redelivered by a takeover exactly when it was not already released. */
  lemma {:induction false} RedeliveredIff(ms: seq<Flight>, q: map<nat, Flight>, id: nat)
    requires ListsWindow(ms, q) && id in q
    ensures Redelivery(q[id]) in Redeliveries(ms) <==>
              q[id].status != UnComplete
  {
    var m := q[id];
    var j :| 0 <= j < |ms| && ms[j] == m;
    if m.status != UnComplete {
      RedeliveryListed(ms, j);
    } else if Redelivery(m) in Redeliveries(ms) {
      var i := RedeliveryOrigin(ms, Redelivery(m));
      assert false;
    }
  }

  lemma {:induction false} RedeliveryListed(ms: seq<Flight>, i: nat)
    requires i < |ms| && ms[i].status != UnComplete
    ensures Redelivery(ms[i]) in Redeliveries(ms)
  {
    if i > 0 {
      RedeliveryListed(ms[1..], i - 1);
    }
  }

  lemma {:induction false} RedeliveryOrigin(ms: seq<Flight>, item: Item) returns (i: nat)
    requires item in Redeliveries(ms)
    ensures i < |ms| && ms[i].status != UnComplete && Redelivery(ms[i]) == item
  {
    if ms[0].status != UnComplete && item == Redelivery(ms[0]) {
      i := 0;
    } else {
      i := RedeliveryOrigin(ms[1..], item);
      i := i + 1;
    }
  }
}
