/** Choosing one member of a shared subscription (rmqtt/src/broker/mod.rs), on one node
    (rmqtt/src/broker/default.rs). */
module SharedChoice {
  import opened Wrappers
  import opened Topics
  import opened Listings
  import opened RoutingTable

  type Live = (nat, ClientId) -> bool   // whether a client is connected to a node

  datatype Candidate = Candidate(node: nat, client: ClientId, opts: Opts, subIds: Option<seq<nat>>, online: Option<bool>)

  predicate IsOnline(c: Candidate, live: Live) {
    if c.online.Some? then c.online.value else live(c.node, c.client)
  }

  /** Draws candidates at random until one is online; if none is, the last one drawn stays. */
  method Choice(ncs: seq<Candidate>, live: Live) returns (r: Option<(nat, bool)>)
    ensures r.None? <==> ncs == []
    ensures r.Some? ==> r.value.0 < |ncs| && r.value.1 == IsOnline(ncs[r.value.0], live)
    ensures r.Some? && !r.value.1 ==> forall i | 0 <= i < |ncs| :: !IsOnline(ncs[i], live)
  {
    if ncs == [] {
      return None;
    }
    var tmp: seq<nat> := seq(|ncs|, i => i);
    forall k | 0 <= k < |ncs| ensures k in tmp {
      assert tmp[k] == k;
    }
    while tmp != []
      invariant forall i | 0 <= i < |tmp| :: tmp[i] < |ncs|
      invariant forall k | 0 <= k < |ncs| && IsOnline(ncs[k], live) :: k in tmp
      invariant tmp != []
      decreases |tmp|
    {
      var i: nat :| i < |tmp|;
      var idx := tmp[i];
      ghost var before := tmp;
      tmp := tmp[..i] + tmp[i + 1..];
      if IsOnline(ncs[idx], live) {
        return Some((idx, true));
      }
      forall k | 0 <= k < |ncs| && IsOnline(ncs[k], live) ensures k in tmp {
        assert k in before && before == before[..i] + [idx] + before[i + 1..];
      }
      if tmp == [] {
        return Some((idx, false));
      }
    }
    r := None;
  }

  // ---------- who may receive ----------

  /** A subscriber other than the publisher asking not to hear itself. */
  predicate Eligible(rels: Subs, me: Id, c: ClientId) {
    c in rels && !(rels[c].1.V5? && rels[c].1.noLocal && rels[c].0 == me)
  }

  predicate InGroup(rels: Subs, me: Id, c: ClientId, g: string) {
    Eligible(rels, me, c) && rels[c].1.group == Some(g)
  }

  predicate Ungrouped(rels: Subs, me: Id, c: ClientId) {
    Eligible(rels, me, c) && rels[c].1.group == None
  }

  predicate OnlineIn(rels: Subs, c: ClientId, live: Live) {
    c in rels && live(rels[c].0.nodeId, c)
  }

  function CandidateOf(rels: Subs, c: ClientId, live: Live): Candidate
    requires c in rels
  {
    Candidate(rels[c].0.nodeId, c, rels[c].1, None, Some(OnlineIn(rels, c, live)))
  }

  /** `l` holds each member of group `g` among `seen` once. */
  ghost predicate ListsGroup(l: seq<Candidate>, rels: Subs, me: Id, g: string, seen: set<ClientId>, live: Live) {
    && (forall i | 0 <= i < |l| ::
          l[i].client in seen && InGroup(rels, me, l[i].client, g) && l[i] == CandidateOf(rels, l[i].client, live))
    && (forall c | c in seen && InGroup(rels, me, c, g) :: CandidateOf(rels, c, live) in l)
    && (forall i, j | 0 <= i < j < |l| :: l[i].client != l[j].client)
  }

  ghost predicate ListsUngrouped(l: seq<ClientId>, rels: Subs, me: Id, seen: set<ClientId>) {
    && (forall i | 0 <= i < |l| :: l[i] in seen && Ungrouped(rels, me, l[i]))
    && (forall c | c in seen && Ungrouped(rels, me, c) :: c in l)
    && NoDuplicates(l)
  }

  function EntryOf(groups: map<string, seq<Candidate>>, g: string): seq<Candidate> {
    if g in groups then groups[g] else []
  }

  ghost predicate Partitioned(
    groups: map<string, seq<Candidate>>, plain: seq<ClientId>, rels: Subs, me: Id, seen: set<ClientId>, live: Live)
  {
    && (forall g :: ListsGroup(EntryOf(groups, g), rels, me, g, seen, live))
    && (forall g | g in groups :: groups[g] != [])
    && ListsUngrouped(plain, rels, me, seen)
  }

  lemma {:induction false} PartitionedNext(
    groups: map<string, seq<Candidate>>, plain: seq<ClientId>, rels: Subs, me: Id, seen: set<ClientId>, live: Live, c: ClientId)
    requires Partitioned(groups, plain, rels, me, seen, live) && c in rels && c !in seen
    ensures !Eligible(rels, me, c) ==> Partitioned(groups, plain, rels, me, seen + {c}, live)
    ensures Ungrouped(rels, me, c) ==> Partitioned(groups, plain + [c], rels, me, seen + {c}, live)
    ensures Eligible(rels, me, c) && rels[c].1.group.Some? ==>
              var g := rels[c].1.group.value;
              Partitioned(groups[g := EntryOf(groups, g) + [CandidateOf(rels, c, live)]], plain, rels, me, seen + {c}, live)
  {
    hide CandidateOf, ListsGroup;
    if Eligible(rels, me, c) && rels[c].1.group.Some? {
      var g := rels[c].1.group.value;
      var groups' := groups[g := EntryOf(groups, g) + [CandidateOf(rels, c, live)]];
      forall h ensures ListsGroup(EntryOf(groups', h), rels, me, h, seen + {c}, live) {
        assert ListsGroup(EntryOf(groups, h), rels, me, h, seen, live);
        ListsGroupNext(EntryOf(groups, h), rels, me, h, seen, live, c);
      }
    } else {
      forall h ensures ListsGroup(EntryOf(groups, h), rels, me, h, seen + {c}, live) {
        assert ListsGroup(EntryOf(groups, h), rels, me, h, seen, live);
        ListsGroupNext(EntryOf(groups, h), rels, me, h, seen, live, c);
      }
    }
  }

  lemma {:induction false} ListsGroupNext(
    l: seq<Candidate>, rels: Subs, me: Id, g: string, seen: set<ClientId>, live: Live, c: ClientId)
    requires ListsGroup(l, rels, me, g, seen, live) && c in rels && c !in seen
    ensures InGroup(rels, me, c, g) ==> ListsGroup(l + [CandidateOf(rels, c, live)], rels, me, g, seen + {c}, live)
    ensures !InGroup(rels, me, c, g) ==> ListsGroup(l, rels, me, g, seen + {c}, live)
  {
  }

  /** Splits the subscribers of one filter into shared groups and the rest. */
  method Partition(rels: Subs, me: Id, live: Live) returns (groups: map<string, seq<Candidate>>, plain: seq<ClientId>)
    ensures Partitioned(groups, plain, rels, me, rels.Keys, live)
  {
    hide Partitioned, CandidateOf;
    groups, plain := map[], [];
    var todo := rels.Keys;
    PartitionedNone(rels, me, live);
    while todo != {}
      invariant todo <= rels.Keys
      invariant Partitioned(groups, plain, rels, me, rels.Keys - todo, live)
      decreases todo
    {
      var c :| c in todo;
      PartitionedNext(groups, plain, rels, me, rels.Keys - todo, live, c);
      assert rels.Keys - (todo - {c}) == rels.Keys - todo + {c};
      todo := todo - {c};
      var (id, opts) := rels[c];
      if opts.V5? && opts.noLocal && me == id {
        continue;
      }
      if opts.group.Some? {
        var g := opts.group.value;
        groups := groups[g := EntryOf(groups, g) + [CandidateOf(rels, c, live)]];
      } else {
        plain := plain + [c];
      }
    }
    assert rels.Keys - todo == rels.Keys;
  }

  lemma PartitionedNone(rels: Subs, me: Id, live: Live)
    ensures Partitioned(map[], [], rels, me, rels.Keys - rels.Keys, live)
  {
  }

  // ---------- what one filter contributes on one node ----------

  /** The shared subscription a relation was chosen for: group, whether the choice is online, and
      all members of the group. */
  datatype Shared = Shared(group: string, online: bool, members: seq<ClientId>)

  datatype Relation = Relation(
    filter: Topic, node: nat, client: ClientId, opts: Opts, subIds: Option<seq<nat>>, shared: Option<Shared>)

  function PlainRelation(f: Topic, rels: Subs, c: ClientId): Relation
    requires c in rels
  {
    Relation(f, rels[c].0.nodeId, c, rels[c].1, None, None)
  }

  /** `r` is the relation chosen for its group: a member, online if any eligible member is. */
  ghost predicate ChosenFor(r: Relation, f: Topic, rels: Subs, me: Id, g: string, live: Live) {
    && r.filter == f && InGroup(rels, me, r.client, g)
    && r.node == rels[r.client].0.nodeId && r.opts == rels[r.client].1 && r.subIds == None
    && r.shared.Some? && r.shared.value.group == g
    && r.shared.value.online == OnlineIn(rels, r.client, live)
    && (!r.shared.value.online ==> forall c | InGroup(rels, me, c, g) :: !OnlineIn(rels, c, live))
    && (forall c :: c in r.shared.value.members <==> InGroup(rels, me, c, g))
  }

  /** For one filter: each subscriber outside groups once, and one choice for each group that has
      an eligible member. */
  ghost predicate Contribution(out: seq<Relation>, f: Topic, rels: Subs, me: Id, live: Live) {
    && (forall i | 0 <= i < |out| ::
          if out[i].shared.Some? then ChosenFor(out[i], f, rels, me, out[i].shared.value.group, live)
          else Ungrouped(rels, me, out[i].client) && out[i] == PlainRelation(f, rels, out[i].client))
    && (forall c | Ungrouped(rels, me, c) :: PlainRelation(f, rels, c) in out)
    && (forall c, g | InGroup(rels, me, c, g) :: HasChoice(out, g))
    && (forall i, j | 0 <= i < j < |out| :: out[i].client != out[j].client)
    && (forall i, j | 0 <= i < j < |out| && out[i].shared.Some? && out[j].shared.Some? ::
          out[i].shared.value.group != out[j].shared.value.group)
  }

  ghost predicate HasChoice(out: seq<Relation>, g: string) {
    exists i :: 0 <= i < |out| && out[i].shared.Some? && out[i].shared.value.group == g
  }

  function ClientsOf(l: seq<Candidate>): seq<ClientId> {
    seq(|l|, i requires 0 <= i < |l| => l[i].client)
  }

  /** One group of one filter. */
  method ChooseMember(f: Topic, g: string, members: seq<Candidate>, rels: Subs, me: Id, live: Live) returns (r: Relation)
    requires ListsGroup(members, rels, me, g, rels.Keys, live) && members != []
    ensures ChosenFor(r, f, rels, me, g, live)
  {
    var choice := Choice(members, live);
    var (idx, online) := choice.value;
    var m := members[idx];
    r := Relation(f, m.node, m.client, m.opts, None, Some(Shared(g, online, ClientsOf(members))));
    forall c | InGroup(rels, me, c, g) ensures c in ClientsOf(members) && (!online ==> !OnlineIn(rels, c, live)) {
      assert CandidateOf(rels, c, live) in members;
      var i :| 0 <= i < |members| && members[i] == CandidateOf(rels, c, live);
      assert ClientsOf(members)[i] == c;
    }
    forall c | c in ClientsOf(members) ensures InGroup(rels, me, c, g) {
      var i :| 0 <= i < |members| && ClientsOf(members)[i] == c;
    }
  }

  /** Section 3.8.3.1 of MQTT 5.0: with No Local a connection does not hear itself. */
  ghost predicate Hears(rels: Subs, me: Id, c: ClientId) {
    c in rels && (rels[c].0 == me ==> rels[c].1.V3? || !rels[c].1.noLocal)
  }

  /** What one filter contributes, in terms of what is recorded and who is connected: each relation
      is a subscriber's own, for one in a group with the group and whether the client is connected;
      every subscriber outside groups has one; and a group with a subscriber has one, of a connected
      client whenever one of its subscribers is connected, naming all of them. */
  ghost predicate Serving(out: seq<Relation>, f: Topic, rels: Subs, me: Id, live: Live) {
    && (forall i | 0 <= i < |out| :: IsSubscribers(out[i], f, rels, me, live))
    && (forall c | Hears(rels, me, c) && rels[c].1.group == None :: Serves(out, c))
    && (forall c, g | Hears(rels, me, c) && rels[c].1.group == Some(g) :: ServesGroup(out, c, g, live(rels[c].0.nodeId, c)))
  }

  ghost predicate IsSubscribers(r: Relation, f: Topic, rels: Subs, me: Id, live: Live) {
    && Hears(rels, me, r.client)
    && r.filter == f && r.node == rels[r.client].0.nodeId && r.opts == rels[r.client].1 && r.subIds == None
    && (match r.shared
        case None => rels[r.client].1.group == None
        case Some(s) => && rels[r.client].1.group == Some(s.group) && s.online == live(r.node, r.client)
                        && forall c | c in s.members :: Hears(rels, me, c) && rels[c].1.group == Some(s.group))
  }

  ghost predicate ServesGroup(out: seq<Relation>, c: ClientId, g: string, connected: bool) {
    exists i :: 0 <= i < |out| && out[i].shared.Some? && out[i].shared.value.group == g
                && c in out[i].shared.value.members && (connected ==> out[i].shared.value.online)
  }

  lemma {:induction false} ContributionServes(out: seq<Relation>, f: Topic, rels: Subs, me: Id, live: Live)
    requires Contribution(out, f, rels, me, live)
    ensures Serving(out, f, rels, me, live)
  {
    hide Serves, ServesGroup;
    forall c | Hears(rels, me, c) && rels[c].1.group == None ensures Serves(out, c) {
      PlainServed(out, f, rels, me, live, c);
    }
    forall c, g | Hears(rels, me, c) && rels[c].1.group == Some(g)
      ensures ServesGroup(out, c, g, live(rels[c].0.nodeId, c))
    {
      GroupServes(out, f, rels, me, live, c, g);
    }
  }

  lemma {:induction false} PlainServed(out: seq<Relation>, f: Topic, rels: Subs, me: Id, live: Live, c: ClientId)
    requires Contribution(out, f, rels, me, live) && Hears(rels, me, c) && rels[c].1.group == None
    ensures Serves(out, c)
  {
    hide ChosenFor, HasChoice;
    assert Ungrouped(rels, me, c);
    assert PlainRelation(f, rels, c) in out;
  }

  lemma {:induction false} GroupServes(
    out: seq<Relation>, f: Topic, rels: Subs, me: Id, live: Live, c: ClientId, g: string)
    requires Contribution(out, f, rels, me, live) && Hears(rels, me, c) && rels[c].1.group == Some(g)
    ensures ServesGroup(out, c, g, live(rels[c].0.nodeId, c))
  {
    assert InGroup(rels, me, c, g);
    assert HasChoice(out, g);
    var i :| 0 <= i < |out| && out[i].shared.Some? && out[i].shared.value.group == g;
    assert ChosenFor(out[i], f, rels, me, g, live);
  }

  method MatchFilter(f: Topic, rels: Subs, me: Id, live: Live) returns (out: seq<Relation>)
    ensures Contribution(out, f, rels, me, live) && Serving(out, f, rels, me, live)
  {
    hide ListsGroup, ChosenFor, Serving;
    var groups, plain := Partition(rels, me, live);
    out := [];
    for i := 0 to |plain|
      invariant |out| == i && forall j | 0 <= j < i :: out[j] == PlainRelation(f, rels, plain[j])
    {
      out := out + [PlainRelation(f, rels, plain[i])];
    }
    ghost var n := |plain|;
    var todo := groups.Keys;
    ghost var done: seq<string> := [];
    while todo != {}
      invariant todo <= groups.Keys && |out| == n + |done|
      invariant forall j | 0 <= j < n :: out[j] == PlainRelation(f, rels, plain[j])
      invariant forall j | 0 <= j < |done| ::
        done[j] in groups && done[j] !in todo && ChosenFor(out[n + j], f, rels, me, done[j], live)
      invariant forall g | g in groups && g !in todo :: g in done
      invariant NoDuplicates(done)
      decreases todo
    {
      var g :| g in todo;
      todo := todo - {g};
      assert ListsGroup(EntryOf(groups, g), rels, me, g, rels.Keys, live);
      var r := ChooseMember(f, g, groups[g], rels, me, live);
      out, done := out + [r], done + [g];
    }
    forall c, g | InGroup(rels, me, c, g) ensures g in done {
      MemberListed(groups, rels, me, live, c, g);
    }
    ContributionFrom(out, plain, done, f, rels, me, live);
    ContributionServes(out, f, rels, me, live);
  }

  lemma {:induction false} MemberListed(
    groups: map<string, seq<Candidate>>, rels: Subs, me: Id, live: Live, c: ClientId, g: string)
    requires ListsGroup(EntryOf(groups, g), rels, me, g, rels.Keys, live) && InGroup(rels, me, c, g)
    ensures g in groups
  {
  }

  lemma {:induction false} ContributionFrom(
    out: seq<Relation>, plain: seq<ClientId>, done: seq<string>, f: Topic, rels: Subs, me: Id, live: Live)
    requires ListsUngrouped(plain, rels, me, rels.Keys) && NoDuplicates(done)
    requires |out| == |plain| + |done|
    requires forall j | 0 <= j < |plain| :: out[j] == PlainRelation(f, rels, plain[j])
    requires forall j | 0 <= j < |done| :: ChosenFor(out[|plain| + j], f, rels, me, done[j], live)
    requires forall c, g | InGroup(rels, me, c, g) :: g in done
    ensures Contribution(out, f, rels, me, live)
  {
    hide ChosenFor, InGroup, Ungrouped;
    var n := |plain|;
    forall i | n <= i < |out|
      ensures ChosenFor(out[i], f, rels, me, done[i - n], live)
      ensures out[i].shared.Some? && out[i].shared.value.group == done[i - n]
    {
      assert out[n + (i - n)] == out[i];
      ChosenGroup(out[i], f, rels, me, done[i - n], live);
    }
    forall c, g | InGroup(rels, me, c, g) ensures HasChoice(out, g) {
      var j :| 0 <= j < |done| && done[j] == g;
      assert out[n + j].shared.value.group == g;
    }
    forall c | Ungrouped(rels, me, c) ensures c in rels && PlainRelation(f, rels, c) in out {
      UngroupedIn(rels, me, c);
      var j :| 0 <= j < n && plain[j] == c;
      assert out[j] == PlainRelation(f, rels, c);
    }
    ClientsDistinct(out, plain, done, f, rels, me, live);
  }

  lemma ChosenGroup(r: Relation, f: Topic, rels: Subs, me: Id, g: string, live: Live)
    requires ChosenFor(r, f, rels, me, g, live)
    ensures r.shared.Some? && r.shared.value.group == g
  {
  }

  lemma UngroupedIn(rels: Subs, me: Id, c: ClientId)
    requires Ungrouped(rels, me, c)
    ensures c in rels
  {
  }

  lemma {:induction false} ClientsDistinct(
    out: seq<Relation>, plain: seq<ClientId>, done: seq<string>, f: Topic, rels: Subs, me: Id, live: Live)
    requires |out| == |plain| + |done| && NoDuplicates(done) && ListsUngrouped(plain, rels, me, rels.Keys)
    requires forall j | 0 <= j < |plain| :: out[j] == PlainRelation(f, rels, plain[j])
    requires forall i | |plain| <= i < |out| :: ChosenFor(out[i], f, rels, me, done[i - |plain|], live)
    ensures forall i, j | 0 <= i < j < |out| :: out[i].client != out[j].client
  {
  }

  // ---------- every choice the code may make can come about ----------

  /** The message may go to `c` for this filter: outside groups always; in one if `c` is online or
      nobody in the group is. */
  ghost predicate MayServe(rels: Subs, me: Id, c: ClientId, live: Live) {
    && Eligible(rels, me, c)
    && (rels[c].1.group.Some? && !OnlineIn(rels, c, live) ==>
          forall d | InGroup(rels, me, d, rels[c].1.group.value) :: !OnlineIn(rels, d, live))
  }

  /** Whoever is served may be. */
  lemma {:induction false} ServedMay(r: Relation, f: Topic, rels: Subs, me: Id, live: Live)
    requires if r.shared.Some? then ChosenFor(r, f, rels, me, r.shared.value.group, live)
             else Ungrouped(rels, me, r.client) && r == PlainRelation(f, rels, r.client)
    ensures MayServe(rels, me, r.client, live) && r.node == rels[r.client].0.nodeId && r.opts == rels[r.client].1
  {
  }

  /** Any member that may be chosen for a group is chosen by some draws; `c` is, if it may be. */
  lemma {:induction false} WinnerFor(f: Topic, rels: Subs, me: Id, live: Live, g: string, d: ClientId, c: ClientId)
    returns (r: Relation)
    requires InGroup(rels, me, d, g)
    ensures ChosenFor(r, f, rels, me, g, live)
    ensures InGroup(rels, me, c, g) && MayServe(rels, me, c, live) ==> r.client == c
  {
    var members := Spelled(set e | e in rels && InGroup(rels, me, e, g));
    var winner := d;
    if InGroup(rels, me, c, g) && MayServe(rels, me, c, live) {
      winner := c;
    } else if e :| InGroup(rels, me, e, g) && OnlineIn(rels, e, live) {
      winner := e;
    }
    r := Relation(f, rels[winner].0.nodeId, winner, rels[winner].1, None, Some(Shared(g, OnlineIn(rels, winner, live), members)));
  }

  ghost predicate HasMember(rels: Subs, me: Id, g: string) {
    exists d :: InGroup(rels, me, d, g)
  }

  ghost predicate WonBy(rs: seq<Relation>, gs: seq<string>, f: Topic, rels: Subs, me: Id, live: Live, c: ClientId) {
    |rs| == |gs| && forall j | 0 <= j < |gs| ::
      && ChosenFor(rs[j], f, rels, me, gs[j], live)
      && (InGroup(rels, me, c, gs[j]) && MayServe(rels, me, c, live) ==> rs[j].client == c)
  }

  lemma {:induction false} Winners(gs: seq<string>, f: Topic, rels: Subs, me: Id, live: Live, c: ClientId)
    returns (rs: seq<Relation>)
    requires forall g | g in gs :: HasMember(rels, me, g)
    ensures WonBy(rs, gs, f, rels, me, live, c)
  {
    hide ChosenFor, MayServe, InGroup;
    if gs == [] {
      rs := [];
    } else {
      rs := Winners(gs[1..], f, rels, me, live, c);
      assert HasMember(rels, me, gs[0]);
      var d :| InGroup(rels, me, d, gs[0]);
      var r := WinnerFor(f, rels, me, live, gs[0], d, c);
      rs := [r] + rs;
    }
  }

  ghost predicate Serves(out: seq<Relation>, c: ClientId) {
    exists i :: 0 <= i < |out| && out[i].client == c
  }

  /** The groups with an eligible member. */
  lemma {:induction false} GroupsOf(rels: Subs, me: Id) returns (gs: seq<string>)
    ensures NoDuplicates(gs) && forall g :: g in gs <==> HasMember(rels, me, g)
  {
    var all := set d | d in rels && Eligible(rels, me, d) && rels[d].1.group.Some? :: rels[d].1.group.value;
    gs := Spelled(all);
    forall g ensures g in all <==> HasMember(rels, me, g) {
      if d :| InGroup(rels, me, d, g) {
        assert rels[d].1.group.value in all;
      }
      if g in all {
        var d :| d in rels && Eligible(rels, me, d) && rels[d].1.group == Some(g);
        assert InGroup(rels, me, d, g);
      }
    }
  }

  /** Some outcome for the filter serves `c`, if the message may go to it. */
  lemma {:induction false} ContributionServing(f: Topic, rels: Subs, me: Id, live: Live, c: ClientId)
    returns (out: seq<Relation>)
    ensures Contribution(out, f, rels, me, live)
    ensures MayServe(rels, me, c, live) ==> Serves(out, c)
  {
    hide ChosenFor, Contribution, HasMember, NoDuplicates;
    var outside := set d | d in rels && Ungrouped(rels, me, d);
    var plain := Spelled(outside);
    var gs := GroupsOf(rels, me);
    var rs := Winners(gs, f, rels, me, live, c);
    forall i | 0 <= i < |plain| ensures plain[i] in rels && Ungrouped(rels, me, plain[i]) {
      assert plain[i] in plain && plain[i] in outside;
    }
    out := seq(|plain|, i requires 0 <= i < |plain| => PlainRelation(f, rels, plain[i])) + rs;
    forall d, g | InGroup(rels, me, d, g) ensures g in gs {
      MemberHas(rels, me, d, g);
    }
    ContributionFrom(out, plain, gs, f, rels, me, live);
    if MayServe(rels, me, c, live) {
      if rels[c].1.group.None? {
        var i :| 0 <= i < |plain| && plain[i] == c;
        assert out[i].client == c;
      } else {
        assert InGroup(rels, me, c, rels[c].1.group.value);
        var j :| 0 <= j < |gs| && gs[j] == rels[c].1.group.value;
        assert out[|plain| + j] == rs[j];
      }
    }
  }

  lemma MemberHas(rels: Subs, me: Id, d: ClientId, g: string)
    requires InGroup(rels, me, d, g)
    ensures HasMember(rels, me, g)
  {
  }
}
