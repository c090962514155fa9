/** Whole runs of the message store: what a sequence of stores, fetches and cleanups can hand
    out (rmqtt-plugins/rmqtt-message-storage/src/ram.rs). */
module StoredReplay {
  import opened Wrappers
  import opened Topics
  import opened StoredMessages

  datatype Event =
    | Store(id: MsgId, message: Message, size: nat, subs: Option<seq<(ClientId, Tag)>>)
    | Fetch(client: ClientId, filter: Topic, group: Option<Group>, now: int)
    | Cleanup(time: int, maxLimit: nat, limits: Limits)

  /** Messages are published to topic names. */
  predicate Legal(e: Event) {
    e.Store? ==> e.message.topic != [] && IsName(e.message.topic)
  }

  ghost function Step(s: State, e: Event): (s': State)
    requires Consistent(s) && Legal(e)
    ensures Consistent(s')
  {
    match e
    case Store(id, m, size, subs) =>
      SetConsistent(s, id, m, size, subs);
      SetState(s, id, m, size, subs)
    case Fetch(c, f, g, now) =>
      GetConsistent(s, c, f, g, now);
      GetState(s, c, f, g, now)
    case Cleanup(now, maxLimit, l) =>
      CleanedIs(s, CleanCount(s, now, maxLimit, l));
      Cleaned(s, CleanCount(s, now, maxLimit, l))
  }

  /** Every reachable state: message map, index and heap hold the same ids, records exist only
      for stored messages, and the byte counter is the sum of the stored sizes. */
  ghost function StateAfter(run: seq<Event>): (s: State)
    requires forall e | e in run :: Legal(e)
    ensures Consistent(s)
  {
    if run == [] then
      assert Consistent(EMPTY);
      EMPTY
    else Step(StateAfter(run[..|run| - 1]), run[|run| - 1])
  }

  ghost predicate IsRun(run: seq<Event>) {
    forall e | e in run :: Legal(e)
  }

  ghost function At(run: seq<Event>, i: nat): (s: State)
    requires IsRun(run) && i <= |run|
    ensures Consistent(s)
  {
    StateAfter(run[..i])
  }

  lemma {:induction false} AtStep(run: seq<Event>, i: nat)
    requires IsRun(run) && i < |run|
    ensures At(run, i + 1) == Step(At(run, i), run[i])
  {
    assert run[..i + 1][..i] == run[..i];
  }

  /** The `i`-th event is a fetch that hands `id` out. */
  ghost predicate Returns(run: seq<Event>, i: nat, id: MsgId)
    requires IsRun(run) && i < |run|
  {
    run[i].Fetch? && id in Fetched(At(run, i), run[i].client, run[i].filter, run[i].group, run[i].now)
  }

  /** The `i`-th event stores a message under `id`: the id was free. */
  ghost predicate StoresUnder(run: seq<Event>, i: nat, id: MsgId)
    requires IsRun(run) && i < |run|
  {
    run[i].Store? && run[i].id == id && id !in At(run, i).messages
  }

  ghost predicate StoredBetween(run: seq<Event>, i: nat, j: nat, id: MsgId)
    requires IsRun(run) && j <= |run|
  {
    exists k :: i <= k < j && StoresUnder(run, k, id)
  }

  // ---------- records outlive everything but the message ----------

  /** Gone, or on record for `client`. */
  ghost predicate ClientClosed(s: State, id: MsgId, client: ClientId) {
    id in s.messages ==> client in RecordOf(s, id)
  }

  /** Gone, or on record for the shared subscription. */
  ghost predicate GroupClosed(s: State, id: MsgId, filter: Topic, group: Group) {
    id in s.messages ==> GroupServed(RecordOf(s, id), filter, Some(group))
  }

  lemma {:induction false} StepKeepsClosed(s: State, e: Event, id: MsgId, client: ClientId, filter: Topic, group: Group)
    requires Consistent(s) && Legal(e)
    requires !(e.Store? && e.id == id && id !in s.messages)
    ensures ClientClosed(s, id, client) ==> ClientClosed(Step(s, e), id, client)
    ensures GroupClosed(s, id, filter, group) ==> GroupClosed(Step(s, e), id, filter, group)
  {
    hide Consistent, Cleaned, Matches;
    match e
    case Store(_, _, _, _) =>
    case Fetch(c, f, g, now) =>
      var s' := GetState(s, c, f, g, now);
      forall d | d in RecordOf(s, id) && id in s.messages
        ensures d in RecordOf(s', id) && RecordOf(s', id)[d] == RecordOf(s, id)[d]
      {
      }
    case Cleanup(now, maxLimit, l) =>
      CleanedIs(s, CleanCount(s, now, maxLimit, l));
  }

  lemma {:induction false} ClosedUntilStored(
    run: seq<Event>, i: nat, j: nat, id: MsgId, client: ClientId, filter: Topic, group: Group)
    requires IsRun(run) && i <= j <= |run| && !StoredBetween(run, i, j, id)
    ensures ClientClosed(At(run, i), id, client) ==> ClientClosed(At(run, j), id, client)
    ensures GroupClosed(At(run, i), id, filter, group) ==> GroupClosed(At(run, j), id, filter, group)
    decreases j
  {
    hide Consistent, ClientClosed, GroupClosed, Step, StateAfter;
    if i < j {
      assert !StoresUnder(run, j - 1, id);
      ClosedUntilStored(run, i, j - 1, id, client, filter, group);
      AtStep(run, j - 1);
      StepKeepsClosed(At(run, j - 1), run[j - 1], id, client, filter, group);
    }
  }

  lemma {:induction false} ReturnCloses(run: seq<Event>, i: nat, id: MsgId)
    requires IsRun(run) && i < |run| && Returns(run, i, id)
    ensures !ClientClosed(At(run, i), id, run[i].client) && ClientClosed(At(run, i + 1), id, run[i].client)
    ensures run[i].group.Some? ==>
              && !GroupClosed(At(run, i), id, run[i].filter, run[i].group.value)
              && GroupClosed(At(run, i + 1), id, run[i].filter, run[i].group.value)
  {
    hide Consistent, Matches;
    AtStep(run, i);
    var r := RecordOf(At(run, i + 1), id);
    assert r[run[i].client] == TagFor(run[i].filter, run[i].group);
  }

  // ---------- the guarantees ----------

  /** A client is handed a stored message at most once: a second time the id stands for a message
      stored in between. */
  lemma {:induction false} AtMostOncePerClient(run: seq<Event>, i: nat, j: nat, id: MsgId)
    requires IsRun(run) && i < j < |run|
    requires Returns(run, i, id) && Returns(run, j, id) && run[i].client == run[j].client
    ensures StoredBetween(run, i + 1, j, id)
  {
    var client := run[i].client;
    hide Consistent, Returns, ClientClosed, GroupClosed;
    ReturnCloses(run, i, id);
    ReturnCloses(run, j, id);
    if !StoredBetween(run, i + 1, j, id) {
      ClosedUntilStored(run, i + 1, j, id, client, [], "");
    }
  }

  /** A shared subscription is handed a stored message at most once, whichever members ask. */
  lemma {:induction false} AtMostOncePerGroup(run: seq<Event>, i: nat, j: nat, id: MsgId)
    requires IsRun(run) && i < j < |run|
    requires Returns(run, i, id) && Returns(run, j, id)
    requires run[i].group.Some? && run[i].group == run[j].group && run[i].filter == run[j].filter
    ensures StoredBetween(run, i + 1, j, id)
  {
    var filter, group := run[i].filter, run[i].group.value;
    hide Consistent, Returns, ClientClosed, GroupClosed;
    ReturnCloses(run, i, id);
    ReturnCloses(run, j, id);
    if !StoredBetween(run, i + 1, j, id) {
      ClosedUntilStored(run, i + 1, j, id, "", filter, group);
    }
  }

  /** A client recorded when the message was stored is never handed it. */
  lemma {:induction false} NeverToRecordedRecipient(run: seq<Event>, i: nat, j: nat, id: MsgId, k: nat)
    requires IsRun(run) && i < j < |run|
    requires StoresUnder(run, i, id) && run[i].subs.Some? && k < |run[i].subs.value|
    requires Returns(run, j, id) && run[j].client == run[i].subs.value[k].0
    ensures StoredBetween(run, i + 1, j, id)
  {
    hide Consistent, ClientClosed, GroupClosed, Fetched, StateAfter;
    RecipientClosed(run, i, id, k);
    ReturnCloses(run, j, id);
    if !StoredBetween(run, i + 1, j, id) {
      ClosedUntilStored(run, i + 1, j, id, run[j].client, [], "");
    }
  }

  lemma {:induction false} RecipientClosed(run: seq<Event>, i: nat, id: MsgId, k: nat)
    requires IsRun(run) && i < |run| && StoresUnder(run, i, id) && run[i].subs.Some? && k < |run[i].subs.value|
    ensures ClientClosed(At(run, i + 1), id, run[i].subs.value[k].0)
  {
    hide Consistent, StateAfter;
    AtStep(run, i);
  }

  /** The tag a recipient list leaves for the shared subscription survives only if its client is
      not named again later in the list. */
  predicate LastTag(subs: seq<(ClientId, Tag)>, i: int, filter: Topic, group: Group) {
    && 0 <= i < |subs| && subs[i].1 == Some((filter, group))
    && forall j | i < j < |subs| :: subs[j].0 != subs[i].0
  }

  lemma {:induction false} RecordedTag(r: Record, subs: seq<(ClientId, Tag)>, c: ClientId) returns (i: int)
    ensures i == -1 ==> (forall j | 0 <= j < |subs| :: subs[j].0 != c)
                        && (c in Recorded(r, subs) <==> c in r) && (c in r ==> Recorded(r, subs)[c] == r[c])
    ensures i != -1 ==> 0 <= i < |subs| && subs[i].0 == c && (forall j | i < j < |subs| :: subs[j].0 != c)
                        && c in Recorded(r, subs) && Recorded(r, subs)[c] == subs[i].1
    decreases |subs|
  {
    if subs == [] {
      i := -1;
    } else {
      i := RecordedTag(r[subs[0].0 := subs[0].1], subs[1..], c);
      if i != -1 {
        i := i + 1;
      } else if subs[0].0 == c {
        i := 0;
      }
    }
  }

  /** A shared subscription served at store time is closed for fetches exactly when its tag is the
      last one given to that client in the recipient list. */
  lemma {:induction false} GroupRecordedIff(run: seq<Event>, i: nat, id: MsgId, filter: Topic, group: Group)
    requires IsRun(run) && i < |run| && StoresUnder(run, i, id) && run[i].subs.Some?
    ensures GroupClosed(At(run, i + 1), id, filter, group) <==> exists k :: LastTag(run[i].subs.value, k, filter, group)
  {
    hide LastTag, GroupServed, Recorded, Matches, Indexed, Scheduled, Named, Total, Cleaned, Pushed, StateAfter;
    TagSurvives(run[i].subs.value, filter, group);
    AtStep(run, i);
  }

  lemma {:induction false} TagSurvives(subs: seq<(ClientId, Tag)>, filter: Topic, group: Group)
    ensures GroupServed(Recorded(map[], subs), filter, Some(group)) <==> exists k :: LastTag(subs, k, filter, group)
  {
    var r := Recorded(map[], subs);
    if c :| c in r && r[c] == Some((filter, group)) {
      var k := RecordedTag(map[], subs, c);
      assert LastTag(subs, k, filter, group);
    }
    if k :| LastTag(subs, k, filter, group) {
      var j := RecordedTag(map[], subs, subs[k].0);
      assert j == k;
    }
  }

  /** Nothing is handed out after its expiry time, and every hand-out is of a stored message
      whose topic the lookup reaches. */
  lemma {:induction false} ReturnedIsLive(run: seq<Event>, i: nat, id: MsgId)
    requires IsRun(run) && i < |run| && Returns(run, i, id) && IsFilter(run[i].filter) && run[i].filter != []
    ensures id in At(run, i).messages
    ensures var m := At(run, i).messages[id].0;
            m.expiryAt >= run[i].now
            && (Matches(run[i].filter, m.topic) || Extra(run[i].filter, m.topic, id))
  {
    hide Matches, Extra;
    var s := At(run, i);
    var m := s.messages[id].0;
    LookupSelects(run[i].filter, m.topic, id);
  }

  // ---------- what is stored, from the history ----------

  /** The `k`-th event is a cleanup that reaches `id` in the order of expiry. */
  ghost predicate CleansOut(run: seq<Event>, k: nat, id: MsgId)
    requires IsRun(run) && k < |run|
  {
    var s := At(run, k);
    run[k].Cleanup? && id in Ids(s.expiries[..CleanCount(s, run[k].time, run[k].maxLimit, run[k].limits)])
  }

  ghost predicate KeptSince(run: seq<Event>, n: nat, id: MsgId, i: nat)
    requires IsRun(run) && n <= |run|
  {
    i < n && StoresUnder(run, i, id) && forall k | i < k < n :: !CleansOut(run, k, id)
  }

  ghost predicate StoredAs(s: State, id: MsgId, e: Event) {
    e.Store? && id in s.messages && s.messages[id] == (e.message, e.size)
  }

  lemma {:induction false} StoredStep(run: seq<Event>, i: nat, id: MsgId)
    requires IsRun(run) && i < |run|
    ensures var ms, ms' := At(run, i).messages, At(run, i + 1).messages;
            && (id in ms' <==> StoresUnder(run, i, id) || (id in ms && !CleansOut(run, i, id)))
            && (StoresUnder(run, i, id) ==> StoredAs(At(run, i + 1), id, run[i]))
            && (id in ms && id in ms' ==> ms'[id] == ms[id])
  {
    hide Consistent, StateAfter, Cleaned, Matches, CleanCount;
    AtStep(run, i);
    if run[i].Cleanup? {
      var s := At(run, i);
      CleanedIs(s, CleanCount(s, run[i].time, run[i].maxLimit, run[i].limits));
    }
  }

  /** An id is stored exactly when a message was stored under it and no cleanup has reached it
      since, and what is stored is that message: later stores under the id change nothing. */
  lemma {:induction false} StoredIff(run: seq<Event>, n: nat, id: MsgId)
    requires IsRun(run) && n <= |run|
    ensures id in At(run, n).messages <==> exists i: nat :: KeptSince(run, n, id, i)
    ensures forall i: nat | KeptSince(run, n, id, i) :: StoredAs(At(run, n), id, run[i])
    decreases n
  {
    hide Consistent, StoresUnder, CleansOut, Step;
    if n > 0 {
      var m := n - 1;
      StoredIff(run, m, id);
      StoredStep(run, m, id);
      if StoresUnder(run, m, id) {
        assert KeptSince(run, n, id, m);
      } else if id in At(run, n).messages {
        var i: nat :| KeptSince(run, m, id, i);
        assert KeptSince(run, n, id, i);
      }
      forall i: nat | KeptSince(run, n, id, i) ensures StoredAs(At(run, n), id, run[i]) {
        if i < m {
          assert KeptSince(run, m, id, i);
        }
      }
    }
  }

  // ---------- who is handed a stored message, from the history ----------

  /** The client is among the recipients the message was stored with. */
  ghost predicate Named(run: seq<Event>, s: nat, client: ClientId)
    requires s < |run| && run[s].Store?
  {
    run[s].subs.Some? && exists k :: 0 <= k < |run[s].subs.value| && run[s].subs.value[k].0 == client
  }

  ghost predicate GroupNamed(run: seq<Event>, s: nat, filter: Topic, group: Group)
    requires s < |run| && run[s].Store?
  {
    run[s].subs.Some? && exists k :: LastTag(run[s].subs.value, k, filter, group)
  }

  /** A fetch since `s` handed `id` to the client. */
  ghost predicate HandedTo(run: seq<Event>, s: nat, n: nat, id: MsgId, client: ClientId)
    requires IsRun(run) && n <= |run|
  {
    exists k :: s < k < n && Returns(run, k, id) && run[k].client == client
  }

  /** A fetch since `s` handed `id` to the shared subscription. */
  ghost predicate HandedToGroup(run: seq<Event>, s: nat, n: nat, id: MsgId, filter: Topic, group: Group)
    requires IsRun(run) && n <= |run|
  {
    exists k :: s < k < n && Returns(run, k, id) && run[k].filter == filter && run[k].group == Some(group)
  }

  lemma {:induction false} RecordStarts(run: seq<Event>, s: nat, id: MsgId, client: ClientId, filter: Topic, group: Group)
    requires IsRun(run) && s < |run| && StoresUnder(run, s, id)
    ensures var r := RecordOf(At(run, s + 1), id);
            && (client in r <==> Named(run, s, client))
            && (GroupServed(r, filter, Some(group)) <==> GroupNamed(run, s, filter, group))
  {
    hide LastTag, Matches, Indexed, Scheduled, StoredMessages.Named, Total, Cleaned, Pushed, StateAfter, GroupServed;
    AtStep(run, s);
    if run[s].subs.Some? {
      TagSurvives(run[s].subs.value, filter, group);
    } else {
      NobodyServed(filter, group);
    }
  }

  lemma NobodyServed(filter: Topic, group: Group)
    ensures !GroupServed(map[], filter, Some(group))
  {
  }

  /** The record of a message that stays stored changes only by a fetch that hands it out. */
  lemma {:induction false} RecordStep(run: seq<Event>, n: nat, id: MsgId)
    requires IsRun(run) && n < |run| && id in At(run, n).messages && !CleansOut(run, n, id)
    ensures var r, r' := RecordOf(At(run, n), id), RecordOf(At(run, n + 1), id);
            && (Returns(run, n, id) ==> run[n].client !in r && r' == r[run[n].client := TagFor(run[n].filter, run[n].group)])
            && (!Returns(run, n, id) ==> r' == r)
  {
    hide Consistent, StateAfter, Cleaned, Matches, CleanCount;
    AtStep(run, n);
    if run[n].Cleanup? {
      var s := At(run, n);
      CleanedIs(s, CleanCount(s, run[n].time, run[n].maxLimit, run[n].limits));
    }
  }

  lemma {:induction false} ServedNext(r: Record, client: ClientId, tag: Tag, filter: Topic, group: Group)
    requires client !in r
    ensures GroupServed(r[client := tag], filter, Some(group))
       <==> GroupServed(r, filter, Some(group)) || tag == Some((filter, group))
  {
    var r' := r[client := tag];
    if GroupServed(r, filter, Some(group)) {
      var c :| c in r && r[c] == Some((filter, group));
      assert r'[c] == Some((filter, group));
    }
    if tag == Some((filter, group)) {
      assert r'[client] == tag;
    }
  }

  /** Who is on record for a stored message: those it was stored with and those it was handed to. */
  lemma {:induction false} RecordIs(
    run: seq<Event>, n: nat, id: MsgId, s: nat, client: ClientId, filter: Topic, group: Group)
    requires IsRun(run) && n <= |run| && KeptSince(run, n, id, s)
    ensures run[s].Store?
    ensures var r := RecordOf(At(run, n), id);
            && (client in r <==> Named(run, s, client) || HandedTo(run, s, n, id, client))
            && (GroupServed(r, filter, Some(group))
                <==> GroupNamed(run, s, filter, group) || HandedToGroup(run, s, n, id, filter, group))
    decreases n
  {
    hide Consistent, StateAfter, CleansOut, GroupServed, LastTag, Fetched, RecordOf;
    if n == s + 1 {
      RecordStarts(run, s, id, client, filter, group);
    } else {
      var m := n - 1;
      RecordIs(run, m, id, s, client, filter, group);
      StoredIff(run, m, id);
      RecordStep(run, m, id);
      if Returns(run, m, id) {
        ServedNext(RecordOf(At(run, m), id), run[m].client, TagFor(run[m].filter, run[m].group), filter, group);
      }
    }
  }

  /** A fetch hands out a stored message exactly if its topic is one the lookup reaches, it has not
      expired, the client neither was a recipient when it was stored nor has been handed it since,
      and, for a shared subscription, the same holds of its filter and group. */
  lemma {:induction false} ReturnedIff(run: seq<Event>, i: nat, id: MsgId, s: nat)
    requires IsRun(run) && i < |run| && run[i].Fetch? && IsFilter(run[i].filter) && run[i].filter != []
    requires KeptSince(run, i, id, s)
    ensures run[s].Store?
    ensures Returns(run, i, id) <==>
              var e, m := run[i], run[s].message;
              && (Matches(e.filter, m.topic) || Extra(e.filter, m.topic, id)) && m.expiryAt >= e.now
              && !Named(run, s, e.client) && !HandedTo(run, s, i, id, e.client)
              && (e.group.Some? ==> !GroupNamed(run, s, e.filter, e.group.value)
                                    && !HandedToGroup(run, s, i, id, e.filter, e.group.value))
  {
    hide Matches, Extra, StateAfter, CleansOut, LastTag, Named, GroupNamed, HandedTo, HandedToGroup;
    var g := if run[i].group.Some? then run[i].group.value else "";
    RecordIs(run, i, id, s, run[i].client, run[i].filter, g);
    StoredIff(run, i, id);
    HitsIff(At(run, i), run[i].filter, id);
  }

  /** The lookup reaches a stored message exactly if the filter matches it or overreaches to it. */
  lemma {:induction false} HitsIff(s: State, filter: Topic, id: MsgId)
    requires Consistent(s) && IsFilter(filter) && filter != [] && id in s.messages
    ensures id in Hits(s, filter) <==>
              Matches(filter, s.messages[id].0.topic) || Extra(filter, s.messages[id].0.topic, id)
  {
    hide Matches, Extra, Total, Scheduled;
    LookupSelects(filter, s.messages[id].0.topic, id);
    assert Key(s.messages[id].0.topic, id) in s.index;
  }

  /** And nothing else is handed out. */
  lemma {:induction false} ReturnedWasStored(run: seq<Event>, i: nat, id: MsgId) returns (s: nat)
    requires IsRun(run) && i < |run| && Returns(run, i, id)
    ensures KeptSince(run, i, id, s)
  {
    hide Consistent, KeptSince, StateAfter, Matches;
    StoredIff(run, i, id);
    s :| KeptSince(run, i, id, s);
  }
}
