/** The RAM message store as an object: four structures and a byte counter updated in place
    (rmqtt-plugins/rmqtt-message-storage/src/ram.rs). */
module MessageStore {
  import opened Wrappers
  import opened Topics
  import opened RetainMatch
  import opened Listings
  import opened RetainIndex
  import opened StoredMessages

  class RamMessageManager {
    var messages: Messages
    const topicTree: Index<MsgId>
    var forwardeds: map<MsgId, Record>
    var expiries: seq<Expiry>
    var bytes: int
    const levelSize: nat   // size in memory of one topic level

    ghost function View(): State
      reads this, topicTree
    {
      State(messages, topicTree.view, forwardeds, expiries, bytes)
    }

    ghost predicate Valid()
      reads this, topicTree
    {
      topicTree.Valid() && Consistent(View())
    }

    constructor (levelSize: nat)
      ensures Valid() && View() == EMPTY && fresh(topicTree)
    {
      this.levelSize := levelSize;
      messages, forwardeds, expiries, bytes := map[], map[], [], 0;
      topicTree := new Index<MsgId>();
    }

    /** `topic` is None when the topic text does not parse. */
    method Set(topic: Option<Topic>, body: string, expiryAt: int, id: MsgId, bodySize: nat,
               subs: Option<seq<(ClientId, Tag)>>) returns (ok: bool)
      requires Valid() && (topic.Some? ==> topic.value != [] && IsName(topic.value))
      modifies this, topicTree
      ensures Valid()
      ensures ok <==> topic.Some? && id !in old(messages)
      ensures View() == if ok then SetState(old(View()), id, Message(topic.value, body, expiryAt),
                                            StoredSize(topic.value, id, bodySize, levelSize), subs)
                        else old(View())
    {
      hide Represents, Indexed, Scheduled, Named, Total;
      if topic.None? || id in messages {
        return false;
      }
      var m := Message(topic.value, body, expiryAt);
      var size := StoredSize(topic.value, id, bodySize, levelSize);
      SetConsistent(View(), id, m, size, subs);
      KeyIsName(topic.value, id);
      messages := messages[id := (m, size)];
      bytes := bytes + size;
      topicTree.Insert(Key(topic.value, id), id);
      expiries := Pushed(expiries, (expiryAt, id));
      if subs.Some? {
        forwardeds := forwardeds[id := Recorded(EntryOf(forwardeds, id), subs.value)];
      }
      ok := true;
    }

    /** The messages a new subscription is handed, each once, and recorded as sent. */
    method Get(client: ClientId, filter: Topic, group: Option<Group>, now: int)
      returns (out: seq<(MsgId, Message)>)
      requires Valid() && IsFilter(filter) && filter != []
      modifies this
      ensures Valid() && View() == GetState(old(View()), client, filter, group, now)
      ensures Answers(old(View()), client, filter, group, now, out)
    {
      hide Represents, Consistent, Matches, Progress, Answers, Fetched, GetState, Hits, Enumerates, LookupFilter;
      ghost var s := View();
      GetConsistent(s, client, filter, group, now);
      LookupSelects(filter, filter, 0);
      var matcheds := topicTree.Matches(LookupFilter(filter));
      HitsListed(s, filter, matcheds);
      out := [];
      ProgressStarts(s, client, filter, group, now);
      for n := 0 to |matcheds|
        invariant View() == s.(forwardeds := forwardeds)
        invariant Progress(s, client, filter, group, now, IdsOf(matcheds[..n]), forwardeds, out)
      {
        var id := matcheds[n].1;
        ProgressStep(s, client, filter, group, now, IdsOf(matcheds[..n]), forwardeds, out, id);
        IdsOfNext(matcheds, n);
        var clientids := EntryOf(forwardeds, id);
        if client in clientids || GroupServed(clientids, filter, group) || messages[id].0.expiryAt < now {
          forwardeds := forwardeds[id := clientids];
        } else {
          forwardeds := forwardeds[id := clientids[client := TagFor(filter, group)]];
          out := out + [(id, messages[id].0)];
        }
      }
      assert matcheds[..|matcheds|] == matcheds;
      ProgressEnds(s, client, filter, group, now, forwardeds, out);
    }

    /** The size reported for the store is read off the index. */
    method TopicValues() returns (n: nat)
      requires Valid()
      ensures n == |messages|
    {
      hide Represents, Scheduled, Named, Total, Key;
      n := topicTree.Size();
      IndexSize(messages, topicTree.view);
    }

    /** Cleanup: pops the heap, then removes what was popped from the other structures. */
    method RemoveExpired(now: int, maxLimit: nat, l: Limits) returns (n: nat)
      requires Valid()
      modifies this, topicTree
      ensures Valid()
      ensures n == CleanCount(old(View()), now, maxLimit, l) && View() == Cleaned(old(View()), n)
    {
      hide Represents, Consistent, Cleaned, Key, CleanCount;
      ghost var s := View();
      var removeds := PopExpired(now, maxLimit, l);
      n := |removeds|;
      CleanedIs(s, 0);
      for i := 0 to n
        invariant topicTree.Valid() && expiries == s.expiries[n..]
        invariant View().(expiries := s.expiries[i..]) == Cleaned(s, i)
      {
        CleanedNext(s, i);
        var id := removeds[i];
        if id in messages {
          Discard(id);
        }
      }
      CleanedIs(s, n);
    }

    method Discard(id: MsgId)
      requires topicTree.Valid() && id in messages
      modifies this, topicTree
      ensures topicTree.Valid() && View() == Discarded(old(View()), id)
    {
      hide Represents;
      var (m, size) := messages[id];
      messages := messages - {id};
      bytes := bytes - size;
      var _ := topicTree.Remove(Key(m.topic, id));
      forwardeds := forwardeds - {id};
    }

    /** The limits are compared with the sizes before anything is removed. */
    method PopExpired(now: int, maxLimit: nat, l: Limits) returns (removeds: seq<MsgId>)
      requires Valid()
      modifies this`expiries
      ensures |removeds| == CleanCount(old(View()), now, maxLimit, l)
      ensures expiries == old(expiries)[|removeds|..]
      ensures forall i | 0 <= i < |removeds| :: removeds[i] == old(expiries)[i].1
    {
      hide Consistent;
      ghost var h := expiries;
      ghost var k := if OverLimits(View(), l) then |h| else ExpiredCount(h, now);
      removeds := [];
      while expiries != []
        invariant |removeds| <= |h| && expiries == h[|removeds|..]
        invariant |removeds| <= maxLimit + 1 && |removeds| <= k
        invariant forall i | 0 <= i < |removeds| :: removeds[i] == h[i].1
        decreases |expiries|
      {
        if |removeds| > maxLimit {
          break;
        }
        if expiries[0].0 > now {
          if !(|messages| > l.maxCount) && !(bytes > l.maxBytes) {
            break;
          }
        }
        removeds, expiries := removeds + [expiries[0].1], expiries[1..];
      }
    }
  }

  /** The index has one entry for each message. */
  lemma {:induction false} IndexSize(ms: Messages, index: map<Topic, MsgId>)
    requires Indexed(ms, index)
    ensures |index| == |ms|
  {
    hide Key;
    if ms == map[] {
      assert forall p :: p !in index;
    } else {
      var id :| id in ms;
      var p := Key(ms[id].0.topic, id);
      IndexedWithout(ms, index, id);
      IndexSize(ms - {id}, index - {p});
      assert |(ms - {id}).Keys| == |ms.Keys - {id}| && |(index - {p}).Keys| == |index.Keys - {p}|;
    }
  }

  /** `out` lists the fetched messages, each once. */
  ghost predicate Answers(s: State, client: ClientId, filter: Topic, group: Option<Group>, now: int,
                          out: seq<(MsgId, Message)>)
  {
    var fetched := Fetched(s, client, filter, group, now);
    && (forall i | 0 <= i < |out| :: out[i].0 in fetched && out[i].1 == s.messages[out[i].0].0)
    && (forall id | id in fetched :: (id, s.messages[id].0) in out)
    && (forall i, j | 0 <= i < j < |out| :: out[i].0 != out[j].0)
  }

  // ---------- the loop of a fetch ----------

  ghost function IdsOf(l: Listing<MsgId>): set<MsgId> {
    set i | 0 <= i < |l| :: l[i].1
  }

  lemma {:induction false} IdsOfNext(l: Listing<MsgId>, n: nat)
    requires n < |l| && forall i, j | 0 <= i < j < |l| :: l[i].1 != l[j].1
    ensures IdsOf(l[..n + 1]) == IdsOf(l[..n]) + {l[n].1} && l[n].1 !in IdsOf(l[..n])
  {
  }

  /** After looking at the messages `seen`: their records exist, those returned carry the client,
      and `out` lists the eligible ones once each. */
  ghost predicate Progress(s: State, client: ClientId, filter: Topic, group: Option<Group>, now: int,
                           seen: set<MsgId>, forwardeds: map<MsgId, Record>, out: seq<(MsgId, Message)>)
  {
    && seen <= s.messages.Keys
    && forwardeds.Keys == s.forwardeds.Keys + seen
    && (forall id | id in forwardeds ::
          forwardeds[id] == if id in seen then After(s, id, client, filter, group, now) else RecordOf(s, id))
    && (forall i | 0 <= i < |out| ::
          out[i].0 in seen && Eligible(s, out[i].0, client, filter, group, now) && out[i].1 == s.messages[out[i].0].0)
    && (forall id | id in seen && Eligible(s, id, client, filter, group, now) :: (id, s.messages[id].0) in out)
    && (forall i, j | 0 <= i < j < |out| :: out[i].0 != out[j].0)
  }

  /** The record of a message looked at by a fetch. */
  ghost function After(s: State, id: MsgId, client: ClientId, filter: Topic, group: Option<Group>, now: int): Record {
    if id in s.messages && Eligible(s, id, client, filter, group, now)
    then RecordOf(s, id)[client := TagFor(filter, group)] else RecordOf(s, id)
  }

  lemma {:induction false} ProgressStarts(s: State, client: ClientId, filter: Topic, group: Option<Group>, now: int)
    ensures Progress(s, client, filter, group, now, IdsOf([]), s.forwardeds, [])
  {
  }

  lemma {:induction false} ProgressStep(
    s: State, client: ClientId, filter: Topic, group: Option<Group>, now: int,
    seen: set<MsgId>, forwardeds: map<MsgId, Record>, out: seq<(MsgId, Message)>, id: MsgId)
    requires Progress(s, client, filter, group, now, seen, forwardeds, out) && id !in seen && id in s.messages
    ensures EntryOf(forwardeds, id) == RecordOf(s, id)
    ensures Progress(s, client, filter, group, now, seen + {id},
                     forwardeds[id := After(s, id, client, filter, group, now)],
                     if Eligible(s, id, client, filter, group, now) then out + [(id, s.messages[id].0)] else out)
  {
  }

  lemma {:induction false} ProgressEnds(
    s: State, client: ClientId, filter: Topic, group: Option<Group>, now: int,
    forwardeds: map<MsgId, Record>, out: seq<(MsgId, Message)>)
    requires Progress(s, client, filter, group, now, Hits(s, filter), forwardeds, out)
    ensures GetState(s, client, filter, group, now) == s.(forwardeds := forwardeds)
    ensures Answers(s, client, filter, group, now, out)
  {
  }

  /** What one message contributes to the byte counter: topic levels, body and bookkeeping. */
  function StoredSize(topic: Topic, id: MsgId, bodySize: nat, levelSize: nat): nat {
    bodySize + TopicSize(Key(topic, id), levelSize) + BOOKKEEPING
  }

  const BOOKKEEPING: nat := 8 * 2 + 16   // two message ids and a heap entry

  function TopicSize(t: Topic, levelSize: nat): nat {
    if t == [] then 0
    else levelSize + (match t[0] case Normal(s) => |s| case Metadata(s) => |s| case _ => 0) + TopicSize(t[1..], levelSize)
  }

  lemma KeyIsName(topic: Topic, id: MsgId)
    requires IsName(topic)
    ensures IsName(Key(topic, id))
  {
  }

  /** The index lists the ids a fetch looks at, each once. */
  lemma {:induction false} HitsListed(s: State, filter: Topic, out: Listing<MsgId>)
    requires Consistent(s)
    requires Enumerates(out, Matching(s.index, LookupFilter(filter)))
    ensures forall i | 0 <= i < |out| :: out[i].1 in s.messages
    ensures Hits(s, filter) == IdsOf(out)
    ensures forall i, j | 0 <= i < j < |out| :: out[i].1 != out[j].1
  {
    hide Named, Total, Scheduled, Matches, Key;
    var m := Matching(s.index, LookupFilter(filter));
    forall i | 0 <= i < |out| ensures out[i].1 in s.messages && out[i].1 in Hits(s, filter) {
      assert out[i].0 in m;
    }
    forall id | id in Hits(s, filter) ensures exists i :: 0 <= i < |out| && out[i].1 == id {
      var p :| p in s.index && Matches(LookupFilter(filter), p) && s.index[p] == id;
      assert (p, m[p]) in out;
    }
    forall i, j | 0 <= i < j < |out| ensures out[i].1 != out[j].1 {
      assert out[i].0 in m && out[j].0 in m;
    }
  }

  /** All the text of a topic. */
  function Text(t: Topic): string {
    if t == [] then ""
    else Text(t[..|t| - 1]) + (match t[|t| - 1] case Normal(s) => s case Metadata(s) => s case _ => "")
  }

  lemma {:induction false} TopicSizeSplit(a: Topic, b: Topic, levelSize: nat)
    ensures TopicSize(a + b, levelSize) == TopicSize(a, levelSize) + TopicSize(b, levelSize)
  {
    if a == [] {
      assert a + b == b;
    } else {
      assert (a + b)[0] == a[0] && (a + b)[1..] == a[1..] + b;
      TopicSizeSplit(a[1..], b, levelSize);
    }
  }

  lemma {:induction false} TopicSizeIs(t: Topic, levelSize: nat)
    ensures TopicSize(t, levelSize) == |t| * levelSize + |Text(t)|
  {
    if t != [] {
      var n := |t| - 1;
      assert t == t[..n] + [t[n]] && [t[n]][1..] == [];
      TopicSizeSplit(t[..n], [t[n]], levelSize);
      TopicSizeIs(t[..n], levelSize);
      assert |t| * levelSize == n * levelSize + levelSize;
    }
  }

  /** A message is counted with its body, one level more than its topic has, all the text of the
      topic and of its id, and a fixed amount. */
  lemma {:induction false} StoredSizeIs(topic: Topic, id: MsgId, bodySize: nat, levelSize: nat)
    ensures StoredSize(topic, id, bodySize, levelSize)
         == bodySize + (|topic| + 1) * levelSize + |Text(topic)| + |Decimal(id)| + 32
  {
    var key := Key(topic, id);
    TopicSizeIs(key, levelSize);
    assert key[..|key| - 1] == topic && key[|key| - 1] == Normal(Decimal(id));
  }
}
