/** Retained messages with expiry and their counter (rmqtt/src/broker/default.rs). */
module RetainStorage {
  import opened Wrappers
  import opened Topics
  import opened RetainMatch
  import opened Listings
  import opened RetainIndex
  import opened Sums

  datatype Retain = Retain(msgId: Option<nat>, payload: string)
  datatype Timed = Timed(retain: Retain, expiresAt: Option<int>)

  const USIZE_MAX: nat := 0xFFFF_FFFF_FFFF_FFFF

  predicate Expired(v: Timed, now: int) {
    v.expiresAt.Some? && now >= v.expiresAt.value
  }

  /** What a subscriber with `filter` is sent at `now`. */
  function Visible(c: map<Topic, Timed>, filter: Topic, now: int): map<Topic, Retain> {
    map p | p in c && Matches(filter, p) && !Expired(c[p], now) :: c[p].retain
  }

  lemma {:induction false} VisibleIff(c: map<Topic, Timed>, filter: Topic, now: int, out: seq<(Topic, Retain)>)
    requires Enumerates(out, Visible(c, filter, now))
    ensures forall p, m :: (p, m) in out <==>
              && p in c && Matches(filter, p) && m == c[p].retain
              && (c[p].expiresAt.Some? ==> now < c[p].expiresAt.value)
  {
    hide Matches;
    var v := Visible(c, filter, now);
    forall p, m ensures (p, m) in out <==> p in v && m == v[p] {
      if p in v {
        assert (p, v[p]) in out;
      }
      if (p, m) in out {
        var i :| 0 <= i < |out| && out[i] == (p, m);
      }
    }
  }

  class Storage {
    const messages: Index<Timed>
    var retaineds: int

    /** The counter is the number of retained messages. */
    ghost predicate Valid()
      reads this, messages
    {
      messages.Valid() && retaineds == |messages.view|
    }

    constructor ()
      ensures Valid() && messages.view == map[] && fresh(messages)
    {
      messages := new Index<Timed>();
      retaineds := 0;
    }

    /** MQTT 5.0 section 3.3.1.3: a message replaces the retained one, an empty one clears it. */
    method SetWithTimeout(topic: Topic, retain: Retain, expiresAt: Option<int>)
      requires Valid() && topic != [] && IsName(topic)
      modifies this, messages
      ensures Valid()
      ensures messages.view == if retain.payload == "" then old(messages.view) - {topic}
                               else old(messages.view)[topic := Timed(retain, expiresAt)]
    {
      hide Represents;
      ghost var before := messages.view;
      var prior := messages.Remove(topic);
      MapSize(before, topic, Timed(retain, expiresAt));
      if retain.payload != "" {
        messages.Insert(topic, Timed(retain, expiresAt));
        assert (before - {topic})[topic := Timed(retain, expiresAt)] == before[topic := Timed(retain, expiresAt)];
        if prior.None? {
          retaineds := retaineds + 1;
        }
      } else if prior.Some? {
        retaineds := retaineds - 1;
      }
    }

    method RemoveExpired(now: int) returns (n: nat)
      requires Valid()
      modifies this, messages
      ensures Valid()
      ensures n == |old(messages.view)| - |messages.view|
      ensures Thinned(old(messages.view), messages.view, v => !Expired(v, now))
      ensures |old(messages.view)| < USIZE_MAX ==>
                messages.view == Filtered(old(messages.view), v => !Expired(v, now))
      ensures forall p | p in messages.view :: p in old(messages.view) && messages.view[p] == old(messages.view)[p]
      ensures forall p | p in old(messages.view) && p !in messages.view ::
                old(messages.view)[p].expiresAt.Some? && old(messages.view)[p].expiresAt.value <= now
      ensures |old(messages.view)| < USIZE_MAX ==>
                forall p | p in messages.view :: messages.view[p].expiresAt.Some? ==> now < messages.view[p].expiresAt.value
    {
      n := messages.Retain(USIZE_MAX, v => !Expired(v, now));
      retaineds := retaineds - n;
    }

    /** A new subscription is sent each live retained message its filter matches, once. */
    method GetMessages(filter: Topic, now: int) returns (out: seq<(Topic, Retain)>)
      requires Valid() && IsFilter(filter)
      ensures Enumerates(out, Visible(messages.view, filter, now))
      ensures forall p, m :: (p, m) in out <==>
                && p in messages.view && Matches(filter, p) && m == messages.view[p].retain
                && (messages.view[p].expiresAt.Some? ==> now < messages.view[p].expiresAt.value)
    {
      hide Represents, Matches;
      var found := messages.Matches(filter);
      ghost var m := Matching(messages.view, filter);
      out := [];
      ghost var seen: set<Topic> := {};
      for i := 0 to |found|
        invariant seen == set j | 0 <= j < i :: found[j].0
        invariant forall j | 0 <= j < |out| ::
            out[j].0 in seen && out[j].0 in m && !Expired(m[out[j].0], now) && out[j].1 == m[out[j].0].retain
        invariant forall j | 0 <= j < i && !Expired(found[j].1, now) :: (found[j].0, found[j].1.retain) in out
        invariant forall j, k | 0 <= j < k < |out| :: out[j].0 != out[k].0
      {
        if !Expired(found[i].1, now) {
          out := out + [(found[i].0, found[i].1.retain)];
        }
        seen := seen + {found[i].0};
      }
      forall p | p in Visible(messages.view, filter, now)
        ensures (p, Visible(messages.view, filter, now)[p]) in out
      {
        assert (p, m[p]) in found;
      }
      VisibleIff(messages.view, filter, now, out);
    }
  }
}
