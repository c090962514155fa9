/** The RAM message store as a state machine (rmqtt-plugins/rmqtt-message-storage/src/ram.rs).

    A state holds the messages, the topic index, the record of who was sent what, the expiry
    heap in the order it would be popped, and the byte counter.  Storing, fetching and
    cleaning up are each one step. */
module StoredMessages {
  import opened Wrappers
  import opened Topics
  import opened Sums

  type MsgId = nat
  type ClientId = string
  type Group = string
  type Tag = Option<(Topic, Group)>       // the shared subscription a message went to, if any
  type Record = map<ClientId, Tag>
  type Expiry = (int, MsgId)
  type Messages = map<MsgId, (Message, nat)>   // with the size each was counted at

  datatype Message = Message(topic: Topic, body: string, expiryAt: int)

  datatype State = State(
    messages: Messages,
    index: map<Topic, MsgId>,
    forwardeds: map<MsgId, Record>,
    expiries: seq<Expiry>,
    bytes: int)

  const EMPTY := State(map[], map[], map[], [], 0)

  // ---------- index keys ----------

  function Digit(d: nat): char
    requires d < 10
  {
    '0' + d as char
  }

  function Decimal(n: nat): (s: string)
    ensures |s| > 0
  {
    if n < 10 then [Digit(n)] else Decimal(n / 10) + [Digit(n % 10)]
  }

  lemma {:induction false} DecimalInjective(m: nat, n: nat)
    requires Decimal(m) == Decimal(n)
    ensures m == n
  {
    var s := Decimal(m);
    assert s[|s| - 1] == Digit(m % 10) == Digit(n % 10);
    if m >= 10 && n >= 10 {
      assert s[..|s| - 1] == Decimal(m / 10) == Decimal(n / 10);
      DecimalInjective(m / 10, n / 10);
    }
  }

  function IdLevel(id: MsgId): Level {
    Normal(Decimal(id))
  }

  /** A message is indexed under its topic with its id as one more level. */
  function Key(topic: Topic, id: MsgId): Topic {
    topic + [IdLevel(id)]
  }

  lemma {:induction false} KeyInjective(t: Topic, m: MsgId, u: Topic, n: MsgId)
    requires Key(t, m) == Key(u, n)
    ensures t == u && m == n
  {
    assert Key(t, m)[|t|] == IdLevel(m) && Key(u, n)[|u|] == IdLevel(n);
    assert Key(t, m)[..|t|] == t && Key(u, n)[..|u|] == u;
    DecimalInjective(m, n);
  }

  /** The filter the index is asked with. */
  function LookupFilter(f: Topic): Topic {
    if EndsInHash(f) then f else f + [SingleWildcard]
  }

  // ---------- the lookup rewrite ----------

  /** The topics a "#" filter wrongly reaches: one level shorter than the part before '#',
      with the id level standing in for the missing one. */
  predicate Extra(f: Topic, t: Topic, id: MsgId) {
    && EndsInHash(f) && |t| == |f| - 2
    && (forall i | 0 <= i < |t| :: LevelMatches(f[i], t[i]))
    && LevelMatches(f[|t|], IdLevel(id))
    && !HiddenFromWildcard(f, t)
  }

  lemma {:induction false} LookupSelects(f: Topic, t: Topic, id: MsgId)
    requires IsFilter(f) && f != [] && t != []
    ensures IsFilter(LookupFilter(f))
    ensures Matches(LookupFilter(f), Key(t, id)) <==> Matches(f, t) || Extra(f, t, id)
  {
    var key, l := Key(t, id), LookupFilter(f);
    assert key[0] == t[0] && l[0] == f[0];
    assert key[|t|] == IdLevel(id);
    assert forall i | 0 <= i < |t| :: key[i] == t[i];
    if !EndsInHash(f) {
      assert forall i | 0 <= i < |f| :: l[i] == f[i];
      assert l[|f|] == SingleWildcard;
    }
  }

  /** Filters for which the lookup answers exactly the matching rule, whatever is stored. */
  ghost predicate LookupExact(f: Topic) {
    forall t, id | t != [] && IsName(t) :: Matches(LookupFilter(f), Key(t, id)) <==> Matches(f, t)
  }

  /** The filters that fail: at least two levels before '#', the last of them '+' or a message id. */
  ghost predicate Overreaches(f: Topic) {
    EndsInHash(f) && |f| >= 3 && (f[|f| - 2] == SingleWildcard || exists id :: f[|f| - 2] == IdLevel(id))
  }

  lemma {:induction false} LookupExactIff(f: Topic)
    requires IsFilter(f) && f != []
    ensures LookupExact(f) <==> !Overreaches(f)
  {
    if Overreaches(f) {
      var n := |f| - 2;
      var id: MsgId :| f[n] == SingleWildcard || f[n] == IdLevel(id);
      var t := seq(n, i requires 0 <= i < n => if f[i] == SingleWildcard then Blank else f[i]);
      assert Extra(f, t, id);
      LookupSelects(f, t, id);
      assert !LevelsMatch(f, t);
      assert t != [] && IsName(t);
      assert !(Matches(LookupFilter(f), Key(t, id)) <==> Matches(f, t));
    } else {
      forall t, id | t != [] && IsName(t)
        ensures Matches(LookupFilter(f), Key(t, id)) <==> Matches(f, t)
      {
        LookupSelects(f, t, id);
      }
    }
  }

  /** "a/+/#" fetches a message published to "a", which it does not match. */
  lemma {:induction false} LookupOverreachExample()
    ensures var f := [Normal("a"), SingleWildcard, MultiWildcard];
            !Matches(f, [Normal("a")]) && Matches(LookupFilter(f), Key([Normal("a")], 7))
  {
  }

  // ---------- the expiry heap ----------

  /** The heap pops the earliest time first, and among equal times the largest id. */
  predicate Before(a: Expiry, b: Expiry) {
    a.0 < b.0 || (a.0 == b.0 && a.1 > b.1)
  }

  predicate InHeapOrder(h: seq<Expiry>) {
    forall i, j | 0 <= i < j < |h| :: Before(h[i], h[j])
  }

  function Pushed(h: seq<Expiry>, e: Expiry): (r: seq<Expiry>)
    ensures |r| == |h| + 1
  {
    if h == [] || Before(e, h[0]) then [e] + h else [h[0]] + Pushed(h[1..], e)
  }

  lemma {:induction false} PushedKeepsOrder(h: seq<Expiry>, e: Expiry)
    requires InHeapOrder(h) && forall x | x in h :: x.1 != e.1
    ensures InHeapOrder(Pushed(h, e))
    ensures forall x :: x in Pushed(h, e) <==> x == e || x in h
  {
    if h != [] && !Before(e, h[0]) {
      PushedKeepsOrder(h[1..], e);
      assert h == [h[0]] + h[1..];
      forall x | x in Pushed(h[1..], e) ensures Before(h[0], x) {
        if x != e {
          var i :| 0 <= i < |h[1..]| && h[1..][i] == x;
          assert Before(h[0], h[i + 1]);
        } else {
          assert h[0] in h;
        }
      }
    }
  }

  // ---------- sizes ----------

  function SizeOf(v: (Message, nat)): nat {
    v.1
  }

  ghost function Total(ms: Messages): nat {
    SumOf(ms, SizeOf)
  }

  // ---------- the four structures stay in step ----------

  /** The index holds each message under its key, and nothing else. */
  ghost predicate Indexed(ms: Messages, index: map<Topic, MsgId>) {
    && (forall id | id in ms :: Key(ms[id].0.topic, id) in index && index[Key(ms[id].0.topic, id)] == id)
    && (forall p | p in index :: index[p] in ms && p == Key(ms[index[p]].0.topic, index[p]))
  }

  /** The heap holds each message at its expiry time, and nothing else. */
  ghost predicate Scheduled(ms: Messages, h: seq<Expiry>) {
    && (forall id | id in ms :: (ms[id].0.expiryAt, id) in h)
    && (forall e | e in h :: e.1 in ms && ms[e.1].0.expiryAt == e.0)
    && InHeapOrder(h)
  }

  ghost predicate Named(ms: Messages) {
    forall id | id in ms :: ms[id].0.topic != [] && IsName(ms[id].0.topic)
  }

  /** Message map, index and heap hold the same ids with the same topics and times; records exist
      only for stored messages; the counter is the total size. */
  ghost predicate Consistent(s: State) {
    && Indexed(s.messages, s.index)
    && Scheduled(s.messages, s.expiries)
    && s.forwardeds.Keys <= s.messages.Keys
    && s.bytes == Total(s.messages)
    && Named(s.messages)
  }

  // ---------- storing ----------

  /** Recipients named twice keep their last tag. */
  function Recorded(r: Record, subs: seq<(ClientId, Tag)>): (r': Record)
    ensures r'.Keys == r.Keys + set i | 0 <= i < |subs| :: subs[i].0
    decreases |subs|
  {
    if subs == [] then r
    else
      var r' := Recorded(r[subs[0].0 := subs[0].1], subs[1..]);
      assert subs == [subs[0]] + subs[1..];
      r'
  }

  function EntryOf(forwardeds: map<MsgId, Record>, id: MsgId): Record {
    if id in forwardeds then forwardeds[id] else map[]
  }

  function RecordOf(s: State, id: MsgId): Record {
    EntryOf(s.forwardeds, id)
  }

  /** Fails, changing nothing, when the id is in use. */
  function SetState(s: State, id: MsgId, m: Message, size: nat, subs: Option<seq<(ClientId, Tag)>>): State {
    if id in s.messages then s
    else State(
      s.messages[id := (m, size)],
      s.index[Key(m.topic, id) := id],
      if subs.Some? then s.forwardeds[id := Recorded(RecordOf(s, id), subs.value)] else s.forwardeds,
      Pushed(s.expiries, (m.expiryAt, id)),
      s.bytes + size)
  }

  // ---------- fetching ----------

  predicate GroupServed(r: Record, filter: Topic, group: Option<Group>) {
    group.Some? && exists c | c in r :: r[c] == Some((filter, group.value))
  }

  /** Who may still be sent a stored message: a client not on record, of a group not on record
      for this filter, before the message expires. */
  predicate Eligible(s: State, id: MsgId, client: ClientId, filter: Topic, group: Option<Group>, now: int)
    requires id in s.messages
  {
    && client !in RecordOf(s, id)
    && !GroupServed(RecordOf(s, id), filter, group)
    && s.messages[id].0.expiryAt >= now
  }

  function TagFor(filter: Topic, group: Option<Group>): Tag {
    if group.Some? then Some((filter, group.value)) else None
  }

  ghost function Hits(s: State, filter: Topic): set<MsgId> {
    set p | p in s.index && Matches(LookupFilter(filter), p) :: s.index[p]
  }

  /** The ids a fetch returns. */
  ghost function Fetched(s: State, client: ClientId, filter: Topic, group: Option<Group>, now: int): set<MsgId> {
    set id | id in Hits(s, filter) && id in s.messages && Eligible(s, id, client, filter, group, now)
  }

  /** Every message looked at gets a record; those returned have the client in it. */
  ghost function GetState(s: State, client: ClientId, filter: Topic, group: Option<Group>, now: int): State {
    var looked := set id | id in Hits(s, filter) && id in s.messages;
    s.(forwardeds := map id | id in s.forwardeds.Keys + looked ::
      if id in Fetched(s, client, filter, group, now) then RecordOf(s, id)[client := TagFor(filter, group)]
      else RecordOf(s, id))
  }

  // ---------- cleaning up ----------

  /** A message removed from everything but the heap. */
  function Discarded(s: State, id: MsgId): State
    requires id in s.messages
  {
    State(
      s.messages - {id},
      s.index - {Key(s.messages[id].0.topic, id)},
      s.forwardeds - {id},
      s.expiries,
      s.bytes - s.messages[id].1)
  }

  /** The message at the top of the heap removed from every structure. */
  function WithoutTop(s: State): State
    requires s.expiries != [] && s.expiries[0].1 in s.messages
  {
    Discarded(s, s.expiries[0].1).(expiries := s.expiries[1..])
  }

  ghost function Cleaned(s: State, n: nat): State
    requires Consistent(s) && n <= |s.expiries|
    decreases n
  {
    if n == 0 then s
    else
      WithoutTopConsistent(s);
      Cleaned(WithoutTop(s), n - 1)
  }

  /** How many entries of the heap have expired: they are its front. */
  function ExpiredCount(h: seq<Expiry>, now: int): (n: nat)
    ensures n <= |h|
    ensures forall i | 0 <= i < n :: h[i].0 <= now
    ensures n < |h| ==> h[n].0 > now
  {
    if h == [] || h[0].0 > now then 0 else 1 + ExpiredCount(h[1..], now)
  }

  datatype Limits = Limits(maxCount: nat, maxBytes: nat)

  predicate OverLimits(s: State, l: Limits) {
    |s.messages| > l.maxCount || s.bytes > l.maxBytes
  }

  /** A cleanup removes the expired messages, or from the front of the heap regardless of time
      if a size limit is exceeded when it starts; never more than one above `maxLimit`. */
  function CleanCount(s: State, now: int, maxLimit: nat, l: Limits): (n: nat)
    ensures n <= |s.expiries|
  {
    var k := if OverLimits(s, l) then |s.expiries| else ExpiredCount(s.expiries, now);
    if k <= maxLimit + 1 then k else maxLimit + 1
  }

  // ---------- every step keeps the structures in step ----------

  lemma {:induction false} IndexedWith(ms: Messages, index: map<Topic, MsgId>, id: MsgId, v: (Message, nat))
    requires Indexed(ms, index) && id !in ms
    ensures Indexed(ms[id := v], index[Key(v.0.topic, id) := id])
  {
    forall j | j in ms ensures Key(ms[j].0.topic, j) != Key(v.0.topic, id) {
      if Key(ms[j].0.topic, j) == Key(v.0.topic, id) {
        KeyInjective(ms[j].0.topic, j, v.0.topic, id);
      }
    }
  }

  lemma {:induction false} IndexedWithout(ms: Messages, index: map<Topic, MsgId>, id: MsgId)
    requires Indexed(ms, index) && id in ms
    ensures Indexed(ms - {id}, index - {Key(ms[id].0.topic, id)})
  {
  }

  lemma {:induction false} ScheduledWith(ms: Messages, h: seq<Expiry>, id: MsgId, v: (Message, nat))
    requires Scheduled(ms, h) && id !in ms
    ensures Scheduled(ms[id := v], Pushed(h, (v.0.expiryAt, id)))
  {
    PushedKeepsOrder(h, (v.0.expiryAt, id));
  }

  lemma {:induction false} ScheduledWithoutTop(ms: Messages, h: seq<Expiry>)
    requires Scheduled(ms, h) && h != []
    ensures h[0].1 in ms && Scheduled(ms - {h[0].1}, h[1..])
  {
  }

  lemma {:induction false} SetConsistent(s: State, id: MsgId, m: Message, size: nat, subs: Option<seq<(ClientId, Tag)>>)
    requires Consistent(s) && m.topic != [] && IsName(m.topic)
    ensures Consistent(SetState(s, id, m, size, subs))
  {
    hide SumOf, Indexed, Scheduled, Recorded, Key;
    if id !in s.messages {
      SumWith(s.messages, SizeOf, id, (m, size));
      IndexedWith(s.messages, s.index, id, (m, size));
      ScheduledWith(s.messages, s.expiries, id, (m, size));
    }
  }

  lemma {:induction false} GetConsistent(s: State, client: ClientId, filter: Topic, group: Option<Group>, now: int)
    requires Consistent(s)
    ensures Consistent(GetState(s, client, filter, group, now))
  {
  }

  lemma {:induction false} WithoutTopConsistent(s: State)
    requires Consistent(s) && s.expiries != []
    ensures s.expiries[0].1 in s.messages
    ensures Consistent(WithoutTop(s))
  {
    hide SumOf, Indexed, Scheduled, Key;
    ScheduledWithoutTop(s.messages, s.expiries);
    var id := s.expiries[0].1;
    SumWithout(s.messages, SizeOf, id);
    IndexedWithout(s.messages, s.index, id);
  }

  // ---------- what a cleanup removes ----------

  function Ids(h: seq<Expiry>): set<MsgId> {
    set i | 0 <= i < |h| :: h[i].1
  }

  lemma {:induction false} IdsNext(e: Expiry, h: seq<Expiry>)
    ensures Ids([e] + h) == {e.1} + Ids(h)
  {
    var all := [e] + h;
    forall id ensures id in Ids(all) <==> id == e.1 || id in Ids(h) {
      if id == e.1 {
        assert all[0].1 == id;
      }
      if id in Ids(h) {
        var i :| 0 <= i < |h| && h[i].1 == id;
        assert all[i + 1].1 == id;
      }
      if id in Ids(all) && id != e.1 {
        var i :| 0 <= i < |all| && all[i].1 == id;
        assert h[i - 1].1 == id;
      }
    }
  }

  lemma {:induction false} WithoutTwice<K, V>(m: map<K, V>, k: K, ks: set<K>)
    ensures m - {k} - ks == m - ({k} + ks)
  {
  }

  /** Cleaning `n` entries removes exactly the messages of the first `n`, from every structure. */
  lemma {:induction false} CleanedIs(s: State, n: nat)
    requires Consistent(s) && n <= |s.expiries|
    ensures Consistent(Cleaned(s, n))
    ensures n == 0 ==> Cleaned(s, n) == s
    ensures Cleaned(s, n).expiries == s.expiries[n..]
    ensures Cleaned(s, n).messages == s.messages - Ids(s.expiries[..n])
    ensures Cleaned(s, n).forwardeds == s.forwardeds - Ids(s.expiries[..n])
    decreases n
  {
    hide Indexed, Scheduled, Named, Total, Key;
    if n == 0 {
      assert s.expiries[..0] == [];
    } else {
      WithoutTopConsistent(s);
      var s' := WithoutTop(s);
      CleanedIs(s', n - 1);
      WithoutTwice(s.messages, s.expiries[0].1, Ids(s'.expiries[..n - 1]));
      WithoutTwice(s.forwardeds, s.expiries[0].1, Ids(s'.expiries[..n - 1]));
      var front := s.expiries[..n];
      assert front == [s.expiries[0]] + s'.expiries[..n - 1];
      IdsNext(s.expiries[0], s'.expiries[..n - 1]);
      assert s.expiries[n..] == s'.expiries[n - 1..];
    }
  }

  lemma {:induction false} CleanedNext(s: State, n: nat)
    requires Consistent(s) && n < |s.expiries|
    ensures Consistent(Cleaned(s, n)) && Cleaned(s, n).expiries == s.expiries[n..]
    ensures s.expiries[n].1 in Cleaned(s, n).messages
    ensures Cleaned(s, n + 1) == WithoutTop(Cleaned(s, n))
    decreases n
  {
    hide Indexed, Scheduled, Named, Total, Key;
    CleanedIs(s, n);
    WithoutTopConsistent(Cleaned(s, n));
    if n > 0 {
      WithoutTopConsistent(s);
      CleanedNext(WithoutTop(s), n - 1);
    }
  }

  /** Cleanup takes messages in expiry order.  Unless a limit is exceeded it takes only expired
      ones, and it leaves an expired one behind only after taking `maxLimit + 1`. */
  lemma {:induction false} CleanupTakesPrefix(s: State, now: int, maxLimit: nat, l: Limits)
    requires Consistent(s)
    ensures var n := CleanCount(s, now, maxLimit, l);
            var s' := Cleaned(s, n);
            && n <= maxLimit + 1
            && |s.messages| - |s'.messages| == n
            && (forall i, j | i in s.messages && i !in s'.messages && j in s'.messages ::
                  || s.messages[i].0.expiryAt < s'.messages[j].0.expiryAt
                  || (s.messages[i].0.expiryAt == s'.messages[j].0.expiryAt && i > j))
            && (|s.messages| <= l.maxCount && s.bytes <= l.maxBytes ==>
                  forall i | i in s.messages && i !in s'.messages :: s.messages[i].0.expiryAt <= now)
            && (n <= maxLimit ==> forall j | j in s'.messages :: s'.messages[j].0.expiryAt > now)
            && (n <= maxLimit && (|s.messages| > l.maxCount || s.bytes > l.maxBytes) ==> s'.messages == map[])
  {
    hide Consistent, Cleaned, CleanCount;
    var n := CleanCount(s, now, maxLimit, l);
    var s' := Cleaned(s, n);
    CleanupSize(s, now, maxLimit, l);
    forall i | i in s.messages && i !in s'.messages && |s.messages| <= l.maxCount && s.bytes <= l.maxBytes
      ensures s.messages[i].0.expiryAt <= now
    {
      RemovedExpired(s, now, maxLimit, l, i);
    }
    forall j | j in s'.messages && n <= maxLimit ensures s'.messages[j].0.expiryAt > now {
      RemainingLive(s, now, maxLimit, l, j);
    }
    forall i, j | i in s.messages && i !in s'.messages && j in s'.messages
      ensures || s.messages[i].0.expiryAt < s'.messages[j].0.expiryAt
              || (s.messages[i].0.expiryAt == s'.messages[j].0.expiryAt && i > j)
    {
      RemovedFirst(s, n, i, j);
    }
  }

  lemma {:induction false} CleanupSize(s: State, now: int, maxLimit: nat, l: Limits)
    requires Consistent(s)
    ensures var n := CleanCount(s, now, maxLimit, l);
            var s' := Cleaned(s, n);
            && n <= maxLimit + 1 && |s.messages| - |s'.messages| == n
            && (n <= maxLimit && (|s.messages| > l.maxCount || s.bytes > l.maxBytes) ==> s'.messages == map[])
  {
    hide Indexed, Scheduled, Named, Total, Cleaned;
    var n := CleanCount(s, now, maxLimit, l);
    CleanedIs(s, n);
    HeapSize(s.messages, s.expiries);
    HeapSize(Cleaned(s, n).messages, Cleaned(s, n).expiries);
  }

  lemma {:induction false} RemovedExpired(s: State, now: int, maxLimit: nat, l: Limits, i: MsgId)
    requires Consistent(s) && i in s.messages && i !in Cleaned(s, CleanCount(s, now, maxLimit, l)).messages
    requires |s.messages| <= l.maxCount && s.bytes <= l.maxBytes
    ensures s.messages[i].0.expiryAt <= now
  {
    hide Indexed, Scheduled, Named, Total, Cleaned;
    var a := RemovedAt(s, CleanCount(s, now, maxLimit, l), i);
  }

  lemma {:induction false} RemainingLive(s: State, now: int, maxLimit: nat, l: Limits, j: MsgId)
    requires Consistent(s) && CleanCount(s, now, maxLimit, l) <= maxLimit
    requires j in Cleaned(s, CleanCount(s, now, maxLimit, l)).messages
    ensures Cleaned(s, CleanCount(s, now, maxLimit, l)).messages[j].0.expiryAt > now
  {
    hide Indexed, Scheduled, Named, Total, Cleaned;
    var n := CleanCount(s, now, maxLimit, l);
    var b := RemainsAt(s, n, j);
    ScheduledOrder(s.messages, s.expiries);
    assert s.expiries[n] == s.expiries[b] || Before(s.expiries[n], s.expiries[b]);
  }

  lemma {:induction false} RemovedFirst(s: State, n: nat, i: MsgId, j: MsgId)
    requires Consistent(s) && n <= |s.expiries|
    requires i in s.messages && i !in Cleaned(s, n).messages && j in Cleaned(s, n).messages
    ensures || s.messages[i].0.expiryAt < Cleaned(s, n).messages[j].0.expiryAt
            || (s.messages[i].0.expiryAt == Cleaned(s, n).messages[j].0.expiryAt && i > j)
  {
    hide Indexed, Scheduled, Named, Total, Cleaned;
    var a := RemovedAt(s, n, i);
    var b := RemainsAt(s, n, j);
    ScheduledOrder(s.messages, s.expiries);
  }

  lemma {:induction false} RemovedAt(s: State, n: nat, id: MsgId) returns (a: nat)
    requires Consistent(s) && n <= |s.expiries| && id in s.messages && id !in Cleaned(s, n).messages
    ensures a < n && s.expiries[a] == (s.messages[id].0.expiryAt, id)
  {
    hide Indexed, Named, Total, Cleaned;
    CleanedIs(s, n);
    a :| 0 <= a < n && s.expiries[..n][a].1 == id;
    assert s.expiries[a] in s.expiries;
  }

  lemma {:induction false} RemainsAt(s: State, n: nat, id: MsgId) returns (b: nat)
    requires Consistent(s) && n <= |s.expiries| && id in Cleaned(s, n).messages
    ensures id in s.messages && Cleaned(s, n).messages[id] == s.messages[id]
    ensures n <= b < |s.expiries| && s.expiries[b] == (s.messages[id].0.expiryAt, id)
  {
    hide Indexed, Scheduled, Named, Total, Cleaned;
    CleanedIs(s, n);
    var rest := s.expiries[n..];
    ScheduledOrder(Cleaned(s, n).messages, rest);
    assert (s.messages[id].0.expiryAt, id) in rest;
    var i :| 0 <= i < |rest| && rest[i] == (s.messages[id].0.expiryAt, id);
    b := n + i;
  }

  lemma ScheduledOrder(ms: Messages, h: seq<Expiry>)
    requires Scheduled(ms, h)
    ensures InHeapOrder(h) && forall id | id in ms :: (ms[id].0.expiryAt, id) in h
  {
  }

  /** One heap entry per message. */
  lemma {:induction false} HeapSize(ms: Messages, h: seq<Expiry>)
    requires Scheduled(ms, h)
    ensures |h| == |ms|
    decreases |h|
  {
    if h == [] {
      assert forall id :: id !in ms;
    } else {
      ScheduledWithoutTop(ms, h);
      HeapSize(ms - {h[0].1}, h[1..]);
      assert (ms - {h[0].1}).Keys == ms.Keys - {h[0].1};
    }
  }
}
