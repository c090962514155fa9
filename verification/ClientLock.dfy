/** The per-client lock (rmqtt/src/broker/default.rs): a map from client to mutex in which a lock
    entry removes its own mutex when it is dropped.

    Dropping takes two steps, removal from the map and release of the mutex, and anything may
    happen in between.  An attempt looks up or creates the mutex and tries it while holding the map
    entry, so it is one step. */
module ClientLock {

  type ClientId = string
  type Mutex = nat
  type EntryId = nat

  /** A lock entry that has the lock; `dropping` once its destructor has removed the map entry. */
  datatype Holder = Holder(client: ClientId, mutex: Mutex, dropping: bool)

  /** `created` is how many mutexes exist so far. */
  datatype State = State(lockers: map<ClientId, Mutex>, holders: map<EntryId, Holder>, created: Mutex)

  const INITIAL := State(map[], map[], 0)

  /** A mutex is locked while some entry has its guard. */
  predicate Locked(s: State, m: Mutex) {
    exists e | e in s.holders :: s.holders[e].mutex == m
  }

  datatype Event =
    | TryLock(entry: EntryId, client: ClientId)
    | DropRemove(entry: EntryId)
    | DropRelease(entry: EntryId)

  /** The mutex found or put in the map. */
  function MutexFor(s: State, c: ClientId): Mutex {
    if c in s.lockers then s.lockers[c] else s.created
  }

  function Tried(s: State, e: EntryId, c: ClientId): State {
    var m := MutexFor(s, c);
    var s' := s.(lockers := s.lockers[c := m], created := if c in s.lockers then s.created else s.created + 1);
    if Locked(s, m) then s' else s'.(holders := s.holders[e := Holder(c, m, false)])
  }

  function Step(s: State, e: Event): State {
    match e
    case TryLock(entry, client) => if entry in s.holders then s else Tried(s, entry, client)
    case DropRemove(entry) =>
      if entry in s.holders && !s.holders[entry].dropping then
        s.(lockers := s.lockers - {s.holders[entry].client},
           holders := s.holders[entry := s.holders[entry].(dropping := true)])
      else s
    case DropRelease(entry) =>
      if entry in s.holders && s.holders[entry].dropping then
        s.(holders := s.holders - {entry})
      else s
  }

  function After(run: seq<Event>): State {
    if run == [] then INITIAL else Step(After(run[..|run| - 1]), run[|run| - 1])
  }

  predicate Live(s: State, e: EntryId) {
    e in s.holders && !s.holders[e].dropping
  }

  /** A lock entry outside its destructor holds the lock of `c`. */
  ghost predicate Held(s: State, c: ClientId) {
    exists e :: Live(s, e) && s.holders[e].client == c
  }

  /** `owner` names the live entry of each client in the map.  Every holder, dropping or not, has
      a mutex of its own. */
  ghost predicate Inv(s: State, owner: map<ClientId, EntryId>) {
    && owner.Keys == s.lockers.Keys
    && (forall c | c in owner :: Live(s, owner[c]) && s.holders[owner[c]] == Holder(c, s.lockers[c], false))
    && (forall e | Live(s, e) :: s.holders[e].client in owner && owner[s.holders[e].client] == e)
    && (forall e | e in s.holders :: s.holders[e].mutex < s.created)
    && (forall d, e | d in s.holders && e in s.holders && d != e :: s.holders[d].mutex != s.holders[e].mutex)
  }

  lemma {:induction false} HeldIff(s: State, owner: map<ClientId, EntryId>, c: ClientId)
    requires Inv(s, owner)
    ensures Held(s, c) <==> c in s.lockers
    ensures Locked(s, MutexFor(s, c)) <==> c in s.lockers
  {
  }

  lemma {:induction false} GrantInv(s: State, owner: map<ClientId, EntryId>, e: EntryId, c: ClientId)
    requires Inv(s, owner) && e !in s.holders && c !in s.lockers
    ensures Inv(Tried(s, e, c), owner[c := e])
  {
  }

  lemma {:induction false} RemoveInv(s: State, owner: map<ClientId, EntryId>, e: EntryId)
    requires Inv(s, owner) && Live(s, e)
    ensures Inv(Step(s, DropRemove(e)), owner - {s.holders[e].client})
  {
  }

  lemma {:induction false} ReleaseInv(s: State, owner: map<ClientId, EntryId>, e: EntryId)
    requires Inv(s, owner) && e in s.holders && s.holders[e].dropping
    ensures Inv(Step(s, DropRelease(e)), owner)
  {
  }

  lemma {:induction false} StepInv(s: State, e: Event, owner: map<ClientId, EntryId>) returns (owner': map<ClientId, EntryId>)
    requires Inv(s, owner)
    ensures Inv(Step(s, e), owner')
  {
    hide Inv, Locked;
    owner' := owner;
    match e
    case TryLock(entry, client) =>
      HeldIff(s, owner, client);
      if entry !in s.holders && client in s.lockers {
        assert s.lockers[client := s.lockers[client]] == s.lockers;
      } else if entry !in s.holders {
        GrantInv(s, owner, entry, client);
        owner' := owner[client := entry];
      }
    case DropRemove(entry) =>
      if Live(s, entry) {
        RemoveInv(s, owner, entry);
        owner' := owner - {s.holders[entry].client};
      }
    case DropRelease(entry) =>
      if entry in s.holders && s.holders[entry].dropping {
        ReleaseInv(s, owner, entry);
      }
  }

  lemma {:induction false} AlwaysInv(run: seq<Event>) returns (owner: map<ClientId, EntryId>)
    ensures Inv(After(run), owner)
    decreases |run|
  {
    owner := map[];
    if run != [] {
      owner := AlwaysInv(run[..|run| - 1]);
      owner := StepInv(After(run[..|run| - 1]), run[|run| - 1], owner);
    }
  }

  /** Under every interleaving at most one live entry holds the lock of a client, and the map
      holds exactly the clients with such a holder. */
  lemma {:induction false} MutualExclusion(run: seq<Event>, d: EntryId, e: EntryId, c: ClientId)
    ensures var s := After(run);
            && (Live(s, d) && Live(s, e) && s.holders[d].client == s.holders[e].client ==> d == e)
            && (c in s.lockers <==> Held(s, c))
  {
    var owner := AlwaysInv(run);
    HeldIff(After(run), owner, c);
  }

  /** An attempt succeeds exactly when no live entry holds the lock: a holder that has begun to
      drop never stands in the way. */
  lemma {:induction false} AttemptSucceedsIff(run: seq<Event>, entry: EntryId, c: ClientId)
    requires entry !in After(run).holders
    ensures Live(After(run + [TryLock(entry, c)]), entry) <==> !Held(After(run), c)
  {
    var owner := AlwaysInv(run);
    HeldIff(After(run), owner, c);
    assert (run + [TryLock(entry, c)])[..|run|] == run;
  }

  /** The destructor removes its own mutex and no other. */
  lemma {:induction false} RemovesOwnMutex(run: seq<Event>, e: EntryId)
    requires Live(After(run), e)
    ensures var s := After(run);
            var s' := After(run + [DropRemove(e)]);
            && s.holders[e].client in s.lockers && s.lockers[s.holders[e].client] == s.holders[e].mutex
            && s'.lockers == s.lockers - {s.holders[e].client}
            && Locked(s', s.holders[e].mutex)
  {
    var owner := AlwaysInv(run);
    assert (run + [DropRemove(e)])[..|run|] == run;
    assert e in After(run + [DropRemove(e)]).holders;
  }
}
