/** The replicated router as a state machine over a log
    (rmqtt-plugins/rmqtt-cluster-raft/src/router.rs).

    Applying an entry reads the local clock, so every replica has its own sequence of times. */
module ClusterLog {
  import opened Wrappers
  import opened Topics
  import opened RoutingTable

  /** `since` is when the status was created: the start of a handshake lock. */
  datatype Status = Status(id: Id, online: bool, handshaking: bool, since: int)

  datatype Replica = Replica(table: Table, clients: map<ClientId, Status>)

  datatype Entry =
    | HandshakeTryLock(id: Id)
    | Connected(id: Id)
    | Disconnected(id: Id)
    | SessionTerminated(id: Id)
    | Add(filter: FilterText, id: Id, opts: Opts)
    | Remove(filter: FilterText, id: Id)
    | GetClientNodeId(clientId: ClientId)
    | Ping

  datatype Reply =
    | Locked(prev: Option<Id>)
    | Refused
    | Failed
    | NodeId(nodeId: Option<nat>)
    | Pong
    | Done

  const START := Replica(EMPTY_TABLE, map[])

  /** The lock is held until it times out. */
  predicate Holding(s: Status, now: int, timeout: int) {
    s.handshaking && now < s.since + timeout
  }

  /** A connection older than the recorded one is turned away. */
  predicate Superseded(s: Status, id: Id) {
    s.id != id && id.createTime < s.id.createTime
  }

  function ClientsAfter(cs: map<ClientId, Status>, e: Entry, now: int, timeout: int): map<ClientId, Status> {
    match e
    case HandshakeTryLock(id) =>
      if id.clientId in cs && Holding(cs[id.clientId], now, timeout) then cs
      else cs[id.clientId := Status(id, false, true, now)]
    case Connected(id) =>
      if id.clientId !in cs then cs[id.clientId := Status(id, true, false, now)]
      else if Superseded(cs[id.clientId], id) then cs
      else cs[id.clientId := Status(id, true, false, cs[id.clientId].since)]
    case Disconnected(id) =>
      if id.clientId in cs && cs[id.clientId].id == id
      then cs[id.clientId := cs[id.clientId].(online := false)] else cs
    case SessionTerminated(id) =>
      if id.clientId in cs && cs[id.clientId].id == id then cs - {id.clientId} else cs
    case _ => cs
  }

  function TableAfter(t: Table, e: Entry): Table {
    match e
    case Add(f, id, opts) => Added(t, f, id, opts)
    case Remove(f, id) => RemovedFrom(t, f, id)
    case _ => t
  }

  function Applied(r: Replica, e: Entry, now: int, timeout: int): Replica {
    Replica(TableAfter(r.table, e), ClientsAfter(r.clients, e, now, timeout))
  }

  function ReplyTo(r: Replica, e: Entry, now: int, timeout: int): Reply {
    match e
    case HandshakeTryLock(id) =>
      if id.clientId !in r.clients then Locked(None)
      else if Holding(r.clients[id.clientId], now, timeout) then Refused
      else Locked(Some(r.clients[id.clientId].id))
    case Connected(id) =>
      if id.clientId in r.clients && Superseded(r.clients[id.clientId], id) then Refused else Done
    case Add(f, _, _) => if f.Malformed? then Failed else Done
    case GetClientNodeId(c) => NodeId(if c in r.clients then Some(r.clients[c].id.nodeId) else None)
    case Ping => Pong
    case _ => Done
  }

  /** The state after a log, with the time each entry was applied at. */
  function After(r: Replica, log: seq<Entry>, clock: seq<int>, timeout: int): Replica
    requires |clock| == |log|
  {
    if log == [] then r
    else
      var n := |log| - 1;
      Applied(After(r, log[..n], clock[..n], timeout), log[n], clock[n], timeout)
  }

  ghost predicate LegalLog(log: seq<Entry>) {
    forall e | e in log :: e.Add? ==> LegalText(e.filter)
  }

  lemma {:induction false} AfterStep(r: Replica, log: seq<Entry>, clock: seq<int>, timeout: int, i: nat)
    requires |clock| == |log| && i < |log|
    ensures After(r, log[..i + 1], clock[..i + 1], timeout)
         == Applied(After(r, log[..i], clock[..i], timeout), log[i], clock[i], timeout)
  {
    assert log[..i + 1][..i] == log[..i] && clock[..i + 1][..i] == clock[..i];
  }

  lemma {:induction false} AfterSplit(
    r: Replica, log: seq<Entry>, clock: seq<int>, log': seq<Entry>, clock': seq<int>, timeout: int)
    requires |clock| == |log| && |clock'| == |log'|
    ensures After(r, log + log', clock + clock', timeout) == After(After(r, log, clock, timeout), log', clock', timeout)
    decreases |log'|
  {
    hide Applied;
    if log' == [] {
      assert log + log' == log && clock + clock' == clock;
    } else {
      var n := |log'| - 1;
      AfterSplit(r, log, clock, log'[..n], clock'[..n], timeout);
      assert (log + log')[..|log + log'| - 1] == log + log'[..n];
      assert (clock + clock')[..|log + log'| - 1] == clock + clock'[..n];
    }
  }

  // ---------- what every log keeps ----------

  /** Nobody is online and handshaking at once, and entries are filed under their client. */
  ghost predicate Sane(cs: map<ClientId, Status>) {
    forall c | c in cs :: !(cs[c].online && cs[c].handshaking) && cs[c].id.clientId == c
  }

  ghost predicate Ok(r: Replica) {
    InOrder(r.table) && Sane(r.clients)
  }

  lemma {:induction false} AppliedOk(r: Replica, e: Entry, now: int, timeout: int)
    requires Ok(r) && (e.Add? ==> LegalText(e.filter))
    ensures Ok(Applied(r, e, now, timeout))
  {
    hide InOrder, Added, RemovedFrom;
    if e.Add? {
      AddedInOrder(r.table, e.filter, e.id, e.opts);
    } else if e.Remove? {
      RemovedInOrder(r.table, e.filter, e.id);
    }
  }

  lemma {:induction false} StartOk()
    ensures Ok(START)
  {
  }

  /** After any log: index, relations and counters agree, and online excludes handshaking. */
  lemma {:induction false} AlwaysOk(r: Replica, log: seq<Entry>, clock: seq<int>, timeout: int)
    requires |clock| == |log| && LegalLog(log) && Ok(r)
    ensures Ok(After(r, log, clock, timeout))
    decreases |log|
  {
    hide Ok;
    if log != [] {
      var n := |log| - 1;
      AlwaysOk(r, log[..n], clock[..n], timeout);
      assert log[n] in log;
      AppliedOk(After(r, log[..n], clock[..n], timeout), log[n], clock[n], timeout);
    }
  }

  // ---------- replicas with different clocks ----------

  /** The routing table never depends on the clock. */
  lemma {:induction false} TableIgnoresClock(
    r: Replica, s: Replica, log: seq<Entry>, clock: seq<int>, clock': seq<int>, timeout: int, timeout': int)
    requires |clock| == |log| == |clock'| && r.table == s.table
    ensures After(r, log, clock, timeout).table == After(s, log, clock', timeout').table
    decreases |log|
  {
    if log != [] {
      var n := |log| - 1;
      TableIgnoresClock(r, s, log[..n], clock[..n], clock'[..n], timeout, timeout');
    }
  }

  predicate SameStatus(s: Status, t: Status) {
    s.id == t.id && s.online == t.online && s.handshaking == t.handshaking
  }

  /** Equal but for lock timestamps. */
  ghost predicate Similar(cs: map<ClientId, Status>, ds: map<ClientId, Status>) {
    cs.Keys == ds.Keys && forall c | c in cs :: SameStatus(cs[c], ds[c])
  }

  /** On a lock attempt both replicas find the lock held, or neither does, or the attempt
      repeats the one on record. */
  ghost predicate Agree(cs: map<ClientId, Status>, ds: map<ClientId, Status>, e: Entry, now: int, now': int, timeout: int) {
    e.HandshakeTryLock? && e.id.clientId in cs && e.id.clientId in ds ==>
      || Holding(cs[e.id.clientId], now, timeout) == Holding(ds[e.id.clientId], now', timeout)
      || cs[e.id.clientId].id == e.id
  }

  /** One entry keeps two replicas similar exactly when they agree on it. */
  lemma {:induction false} StepSimilarIff(
    cs: map<ClientId, Status>, ds: map<ClientId, Status>, e: Entry, now: int, now': int, timeout: int)
    requires Similar(cs, ds) && Sane(cs)
    ensures Similar(ClientsAfter(cs, e, now, timeout), ClientsAfter(ds, e, now', timeout))
       <==> Agree(cs, ds, e, now, now', timeout)
  {
  }

  ghost predicate AgreeThroughout(r: Replica, log: seq<Entry>, clock: seq<int>, clock': seq<int>, timeout: int)
    requires |clock| == |log| == |clock'|
  {
    forall i | 0 <= i < |log| ::
      Agree(After(r, log[..i], clock[..i], timeout).clients,
            After(r, log[..i], clock'[..i], timeout).clients, log[i], clock[i], clock'[i], timeout)
  }

  /** Replicas that start equal and apply the same log stay similar throughout exactly when they agree on every
      lock attempt. */
  lemma {:induction false} SimilarThroughoutIff(r: Replica, log: seq<Entry>, clock: seq<int>, clock': seq<int>, timeout: int)
    requires |clock| == |log| == |clock'| && LegalLog(log) && Ok(r)
    ensures (forall i | 0 <= i <= |log| ::
              Similar(After(r, log[..i], clock[..i], timeout).clients,
                      After(r, log[..i], clock'[..i], timeout).clients))
       <==> AgreeThroughout(r, log, clock, clock', timeout)
  {
    hide Similar, Agree, Applied, ClientsAfter, Ok, After;
    if AgreeThroughout(r, log, clock, clock', timeout) {
      forall i | 0 <= i <= |log|
        ensures Similar(After(r, log[..i], clock[..i], timeout).clients,
                        After(r, log[..i], clock'[..i], timeout).clients)
      {
        AgreeingPrefix(r, log, clock, clock', timeout, i);
      }
    } else {
      var i :| 0 <= i < |log| &&
        !Agree(After(r, log[..i], clock[..i], timeout).clients,
               After(r, log[..i], clock'[..i], timeout).clients, log[i], clock[i], clock'[i], timeout);
      PrefixStep(r, log, clock, clock', timeout, i);
    }
  }

  lemma {:induction false} PrefixStep(r: Replica, log: seq<Entry>, clock: seq<int>, clock': seq<int>, timeout: int, i: nat)
    requires |clock| == |log| == |clock'| && LegalLog(log) && Ok(r) && i < |log|
    ensures var cs, ds := After(r, log[..i], clock[..i], timeout).clients, After(r, log[..i], clock'[..i], timeout).clients;
            Similar(cs, ds) ==>
              (Similar(After(r, log[..i + 1], clock[..i + 1], timeout).clients,
                       After(r, log[..i + 1], clock'[..i + 1], timeout).clients)
               <==> Agree(cs, ds, log[i], clock[i], clock'[i], timeout))
  {
    hide Similar, Agree, ClientsAfter, InOrder, After;
    var p, q := After(r, log[..i], clock[..i], timeout), After(r, log[..i], clock'[..i], timeout);
    AfterStep(r, log, clock, timeout, i);
    AfterStep(r, log, clock', timeout, i);
    AlwaysOk(r, log[..i], clock[..i], timeout);
    if Similar(p.clients, q.clients) {
      StepSimilarIff(p.clients, q.clients, log[i], clock[i], clock'[i], timeout);
    }
  }

  lemma {:induction false} AgreeingPrefix(r: Replica, log: seq<Entry>, clock: seq<int>, clock': seq<int>, timeout: int, i: nat)
    requires |clock| == |log| == |clock'| && LegalLog(log) && Ok(r) && i <= |log|
    requires AgreeThroughout(r, log, clock, clock', timeout)
    ensures Similar(After(r, log[..i], clock[..i], timeout).clients,
                    After(r, log[..i], clock'[..i], timeout).clients)
    decreases i
  {
    hide Agree, Applied, ClientsAfter;
    if i > 0 {
      AgreeingPrefix(r, log, clock, clock', timeout, i - 1);
      PrefixStep(r, log, clock, clock', timeout, i - 1);
    }
  }

  /** Clocks that measure every stretch of the log on the same side of the timeout. */
  ghost predicate SameElapsed(clock: seq<int>, clock': seq<int>, timeout: int) {
    && |clock| == |clock'|
    && forall i, j | 0 <= i < j < |clock| :: (clock[j] < clock[i] + timeout) == (clock'[j] < clock'[i] + timeout)
  }

  ghost predicate LockedAt(s: Status, t: Status, clock: seq<int>, clock': seq<int>, n: nat)
    requires n <= |clock| && n <= |clock'|
  {
    exists i :: 0 <= i < n && s.since == clock[i] && t.since == clock'[i]
  }

  /** Similar, with every pending lock taken at the same place in the log. */
  ghost predicate InStep(cs: map<ClientId, Status>, ds: map<ClientId, Status>, clock: seq<int>, clock': seq<int>, n: nat)
    requires n <= |clock| && n <= |clock'|
  {
    Similar(cs, ds) && forall c | c in cs && cs[c].handshaking :: LockedAt(cs[c], ds[c], clock, clock', n)
  }

  lemma {:induction false} StepInStep(
    cs: map<ClientId, Status>, ds: map<ClientId, Status>, e: Entry, clock: seq<int>, clock': seq<int>, timeout: int, n: nat)
    requires SameElapsed(clock, clock', timeout) && n < |clock| && InStep(cs, ds, clock, clock', n)
    ensures InStep(ClientsAfter(cs, e, clock[n], timeout), ClientsAfter(ds, e, clock'[n], timeout), clock, clock', n + 1)
  {
    if e.HandshakeTryLock? && e.id.clientId in cs {
      var c := e.id.clientId;
      assert SameStatus(cs[c], ds[c]);
      if cs[c].handshaking {
        assert LockedAt(cs[c], ds[c], clock, clock', n);
      }
      assert Holding(cs[c], clock[n], timeout) == Holding(ds[c], clock'[n], timeout);
    }
    var cs', ds' := ClientsAfter(cs, e, clock[n], timeout), ClientsAfter(ds, e, clock'[n], timeout);
    forall c | c in cs' && cs'[c].handshaking ensures c in ds' && LockedAt(cs'[c], ds'[c], clock, clock', n + 1) {
      if c in cs && cs[c].handshaking && cs'[c].since == cs[c].since {
        assert LockedAt(cs[c], ds[c], clock, clock', n);
      }
    }
  }

  /** Replicas whose clocks agree on elapsed times stay in step. */
  lemma {:induction false} SameElapsedConverges(log: seq<Entry>, clock: seq<int>, clock': seq<int>, timeout: int, n: nat)
    requires |clock| == |log| && SameElapsed(clock, clock', timeout) && n <= |log|
    ensures InStep(After(START, log[..n], clock[..n], timeout).clients,
                   After(START, log[..n], clock'[..n], timeout).clients, clock, clock', n)
    decreases n
  {
    hide ClientsAfter, InStep;
    if n > 0 {
      SameElapsedConverges(log, clock, clock', timeout, n - 1);
      AfterStep(START, log, clock, timeout, n - 1);
      AfterStep(START, log, clock', timeout, n - 1);
      StepInStep(After(START, log[..n - 1], clock[..n - 1], timeout).clients,
                 After(START, log[..n - 1], clock'[..n - 1], timeout).clients, log[n - 1], clock, clock', timeout, n - 1);
    } else {
      assert InStep(START.clients, START.clients, clock, clock', 0) by {
        EmptyInStep(clock, clock');
      }
    }
  }

  lemma EmptyInStep(clock: seq<int>, clock': seq<int>)
    ensures InStep(START.clients, START.clients, clock, clock', 0)
  {
  }

  const FIRST := Id(1, "", "", 0)
  const SECOND := Id(2, "", "", 0)

  /** A log of `n` entries with two lock attempts for one client. */
  function TwoAttempts(n: nat, i: nat, j: nat): seq<Entry> {
    seq(n, k => if k == i then HandshakeTryLock(FIRST) else if k == j then HandshakeTryLock(SECOND) else Ping)
  }

  /** Who holds the lock after the two attempts depends on the time between them. */
  lemma {:induction false} AfterAttempts(clock: seq<int>, timeout: int, i: nat, j: nat, n: nat)
    requires i < j < |clock| && n <= |clock|
    ensures After(START, TwoAttempts(|clock|, i, j)[..n], clock[..n], timeout).clients
         == (if n <= i then map[]
             else if n <= j || clock[j] < clock[i] + timeout then map["" := Status(FIRST, false, true, clock[i])]
             else map["" := Status(SECOND, false, true, clock[j])])
    decreases n
  {
    hide After;
    if n == 0 {
      AfterNothing(TwoAttempts(|clock|, i, j), clock, timeout);
    } else {
      AfterAttempts(clock, timeout, i, j, n - 1);
      AfterStep(START, TwoAttempts(|clock|, i, j), clock, timeout, n - 1);
    }
  }

  lemma {:induction false} AfterNothing(log: seq<Entry>, clock: seq<int>, timeout: int)
    ensures After(START, log[..0], clock[..0], timeout) == START
  {
  }

  ghost predicate EndSimilar(log: seq<Entry>, clock: seq<int>, clock': seq<int>, timeout: int)
    requires |log| == |clock| == |clock'|
  {
    Similar(After(START, log, clock, timeout).clients, After(START, log, clock', timeout).clients)
  }

  /** A condition on the clocks alone: replicas end similar after every log exactly when their
      clocks agree, for every two places in the log, on whether the timeout passed in between. */
  lemma {:induction false} ConvergeIff(clock: seq<int>, clock': seq<int>, timeout: int)
    requires |clock| == |clock'|
    ensures (forall log: seq<Entry> | |log| == |clock| :: EndSimilar(log, clock, clock', timeout))
       <==> SameElapsed(clock, clock', timeout)
  {
    hide After;
    assert clock[..|clock|] == clock && clock'[..|clock|] == clock';
    if SameElapsed(clock, clock', timeout) {
      forall log: seq<Entry> | |log| == |clock| ensures EndSimilar(log, clock, clock', timeout) {
        assert log[..|clock|] == log;
        SameElapsedConverges(log, clock, clock', timeout, |clock|);
      }
    } else {
      var i, j :| 0 <= i < j < |clock| && (clock[j] < clock[i] + timeout) != (clock'[j] < clock'[i] + timeout);
      var log := TwoAttempts(|clock|, i, j);
      assert log[..|clock|] == log;
      AfterAttempts(clock, timeout, i, j, |clock|);
      AfterAttempts(clock', timeout, i, j, |clock|);
      var cs, ds := After(START, log, clock, timeout).clients, After(START, log, clock', timeout).clients;
      assert !SameStatus(cs[""], ds[""]);
      assert !EndSimilar(log, clock, clock', timeout);
    }
  }

  // ---------- the handshake lock ----------

  ghost predicate Granted(r: Replica, e: Entry, now: int, timeout: int, c: ClientId) {
    e.HandshakeTryLock? && e.id.clientId == c && ReplyTo(r, e, now, timeout).Locked?
  }

  /** The entry ends the handshake of `c`: its connection is accepted or its session ended. */
  ghost predicate Releases(r: Replica, e: Entry, c: ClientId) {
    && c in r.clients
    && ((e.Connected? && e.id.clientId == c && !Superseded(r.clients[c], e.id))
        || (e.SessionTerminated? && e.id.clientId == c && r.clients[c].id == e.id))
  }

  function At(log: seq<Entry>, clock: seq<int>, timeout: int, i: nat): Replica
    requires |clock| == |log| && i <= |log|
  {
    After(START, log[..i], clock[..i], timeout)
  }

  /** A pending lock changes only by another grant or a release. */
  lemma {:induction false} LockStays(r: Replica, e: Entry, now: int, timeout: int, c: ClientId)
    requires c in r.clients && r.clients[c].handshaking && !Releases(r, e, c)
    ensures var r' := Applied(r, e, now, timeout);
            && c in r'.clients && r'.clients[c].handshaking
            && r'.clients[c].since == (if Granted(r, e, now, timeout, c) then now else r.clients[c].since)
  {
  }

  /** Since a lock granted at `i`, with no release, the recorded start is that of `i` or of a
      later grant that had to wait out the timeout. */
  lemma {:induction false} LockHeld(log: seq<Entry>, clock: seq<int>, timeout: int, i: nat, j: nat, c: ClientId)
    requires |clock| == |log| && i < j <= |log| && timeout >= 0
    requires Granted(At(log, clock, timeout, i), log[i], clock[i], timeout, c)
    requires forall k | i < k < j :: !Releases(At(log, clock, timeout, k), log[k], c)
    ensures var r := At(log, clock, timeout, j);
            && c in r.clients && r.clients[c].handshaking
            && (r.clients[c].since == clock[i]
                || exists k :: && i < k < j && Granted(At(log, clock, timeout, k), log[k], clock[k], timeout, c)
                               && clock[k] >= clock[i] + timeout)
            && ((forall k | i < k < j :: !Granted(At(log, clock, timeout, k), log[k], clock[k], timeout, c)) ==>
                  r.clients[c].since == clock[i])
    decreases j
  {
    hide TableAfter, After;
    var r := At(log, clock, timeout, j - 1);
    AfterStep(START, log, clock, timeout, j - 1);
    if j > i + 1 {
      LockHeld(log, clock, timeout, i, j - 1, c);
      LockStays(r, log[j - 1], clock[j - 1], timeout, c);
      if Granted(r, log[j - 1], clock[j - 1], timeout, c) && r.clients[c].since == clock[i] {
        assert clock[j - 1] >= clock[i] + timeout;
      }
    }
  }

  /** Between grants for one client without a release lies at least the timeout. */
  lemma {:induction false} NoSecondGrant(log: seq<Entry>, clock: seq<int>, timeout: int, i: nat, j: nat, c: ClientId)
    requires |clock| == |log| && i < j < |log| && timeout >= 0
    requires forall a, b | 0 <= a <= b < |clock| :: clock[a] <= clock[b]
    requires Granted(At(log, clock, timeout, i), log[i], clock[i], timeout, c)
    requires Granted(At(log, clock, timeout, j), log[j], clock[j], timeout, c)
    requires forall k | i < k < j :: !Releases(At(log, clock, timeout, k), log[k], c)
    ensures clock[j] >= clock[i] + timeout
  {
    hide TableAfter, After, Applied;
    LockHeld(log, clock, timeout, i, j, c);
  }

  /** On any clock, the next attempt after a grant is granted exactly when the timeout has passed. */
  lemma {:induction false} NextAttemptIff(log: seq<Entry>, clock: seq<int>, timeout: int, i: nat, j: nat, c: ClientId)
    requires |clock| == |log| && i < j < |log| && timeout >= 0
    requires Granted(At(log, clock, timeout, i), log[i], clock[i], timeout, c)
    requires log[j].HandshakeTryLock? && log[j].id.clientId == c
    requires forall k | i < k < j :: !Releases(At(log, clock, timeout, k), log[k], c)
                                  && !Granted(At(log, clock, timeout, k), log[k], clock[k], timeout, c)
    ensures Granted(At(log, clock, timeout, j), log[j], clock[j], timeout, c) <==> clock[j] >= clock[i] + timeout
  {
    hide TableAfter, After, Applied;
    LockHeld(log, clock, timeout, i, j, c);
  }

  // ---------- messages of a superseded connection ----------

  /** What connection `stale` may still say after its handshake. */
  predicate Late(e: Entry, stale: Id) {
    (e.Connected? || e.Disconnected? || e.SessionTerminated? || e.Add? || e.Remove?) && e.id == stale
  }

  ghost predicate Resubscribed(log: seq<Entry>, f: Topic) {
    exists e :: e in log && e.Add? && e.filter == Parsed(f)
  }

  predicate SameEntry(t: Table, t': Table, f: Topic, c: ClientId)
    requires c in SubsIn(t.relations, f)
  {
    c in SubsIn(t'.relations, f) && SubsIn(t'.relations, f)[c] == SubsIn(t.relations, f)[c]
  }

  ghost predicate Reconnected(log: seq<Entry>) {
    exists e :: e in log && e.Connected?
  }

  /** Once another connection of its client is on record, what an old one still says changes who is
      connected exactly if it includes its connection and that is not older by its creation time:
      the code then puts the old connection back on record, or takes the client off it. */
  lemma {:induction false} LateRecords(r: Replica, log: seq<Entry>, clock: seq<int>, timeout: int, stale: Id)
    requires |clock| == |log| && forall e | e in log :: Late(e, stale)
    requires stale.clientId in r.clients && r.clients[stale.clientId].id != stale
    ensures After(r, log, clock, timeout).clients == r.clients
       <==> Superseded(r.clients[stale.clientId], stale) || !Reconnected(log)
    ensures var cs, c := After(r, log, clock, timeout).clients, stale.clientId;
            cs != r.clients ==> c !in cs || cs[c].id == stale
    decreases |log|
  {
    hide TableAfter;
    if log != [] {
      var n := |log| - 1;
      assert log == log[..n] + [log[n]];
      LateRecords(r, log[..n], clock[..n], timeout, stale);
      assert Late(log[n], stale);
      assert Reconnected(log) <==> Reconnected(log[..n]) || log[n].Connected?;
    }
  }

  /** The lock does not look at creation times, so a connection made by a node whose clock is behind
      can take over; a late message of the old connection then undoes it. */
  lemma {:induction false} LateConnectionReturns()
    ensures var a, b := Id(1, "c", "", 5), Id(2, "c", "", 3);
            var r := After(START, [Connected(a), HandshakeTryLock(b)], [0, 0], 10);
            && r.clients["c"].id == b
            && After(r, [Connected(a)], [1], 10).clients["c"].id == a
  {
    var a, b := Id(1, "c", "", 5), Id(2, "c", "", 3);
    var log := [Connected(a), HandshakeTryLock(b)];
    AfterNothing(log, [0, 0], 10);
    AfterStep(START, log, [0, 0], 10, 0);
    AfterStep(START, log, [0, 0], 10, 1);
    assert log[..2] == log && [0, 0][..2] == [0, 0];
    var r := After(START, log, [0, 0], 10);
    assert [Connected(a)][..0] == [] && [1][..0] == [];
    assert After(r, [], [], 10) == r;
  }

  /** A subscription that is not the old connection's own survives what it still says exactly if it
      is another client's or the old connection does not subscribe to that filter again: the code
      lets a late subscription replace the entry of a newer connection. */
  lemma {:induction false} LateSubscriptions(
    r: Replica, log: seq<Entry>, clock: seq<int>, timeout: int, stale: Id, f: Topic, c: ClientId)
    requires |clock| == |log| && forall e | e in log :: Late(e, stale)
    requires c in SubsIn(r.table.relations, f) && SubsIn(r.table.relations, f)[c].0 != stale
    ensures SameEntry(r.table, After(r, log, clock, timeout).table, f, c)
       <==> !(c == stale.clientId && Resubscribed(log, f))
    ensures var t := After(r, log, clock, timeout).table;
            c in SubsIn(t.relations, f) && !SameEntry(r.table, t, f, c) ==> SubsIn(t.relations, f)[c].0 == stale
    decreases |log|
  {
    hide Added, RemovedFrom, ClientsAfter;
    if log != [] {
      var n := |log| - 1;
      assert log == log[..n] + [log[n]];
      LateSubscriptions(r, log[..n], clock[..n], timeout, stale, f, c);
      var t := After(r, log[..n], clock[..n], timeout).table;
      LateStep(t, log[n], stale, f, c);
    }
  }

  /** What one late message does to the entry of `c` under `f`. */
  lemma {:induction false} LateStep(t: Table, e: Entry, stale: Id, f: Topic, c: ClientId)
    requires Late(e, stale)
    ensures var s, s' := SubsIn(t.relations, f), SubsIn(TableAfter(t, e).relations, f);
            && (c == stale.clientId && e.Add? && e.filter == Parsed(f) ==> c in s' && s'[c].0 == stale)
            && (!(c == stale.clientId && e.Add? && e.filter == Parsed(f)) ==>
                  && (c in s' ==> c in s && s'[c] == s[c])
                  && (c in s && c !in s' ==> s[c].0 == stale))
  {
  }

  // ---------- what the state says about the log ----------

  /** The connection is accepted: first of its client, or not older than the recorded one. */
  predicate Accepted(r: Replica, e: Entry, c: ClientId) {
    e.Connected? && e.id.clientId == c && !(c in r.clients && Superseded(r.clients[c], e.id))
  }

  /** Ends the time online of connection `id` of client `c`. */
  ghost predicate EndsOnline(r: Replica, e: Entry, now: int, timeout: int, c: ClientId, id: Id) {
    || ((e.Disconnected? || e.SessionTerminated?) && e.id == id)
    || Granted(r, e, now, timeout, c)
  }

  ghost predicate OnlineSince(log: seq<Entry>, clock: seq<int>, timeout: int, n: nat, c: ClientId, i: nat)
    requires |clock| == |log| && n <= |log|
  {
    && i < n && Accepted(At(log, clock, timeout, i), log[i], c)
    && forall k | i < k < n :: !Accepted(At(log, clock, timeout, k), log[k], c)
                            && !EndsOnline(At(log, clock, timeout, k), log[k], clock[k], timeout, c, log[i].id)
  }

  predicate IsOnline(r: Replica, c: ClientId) {
    c in r.clients && r.clients[c].online
  }

  predicate OnlineAs(r: Replica, c: ClientId, e: Entry) {
    IsOnline(r, c) && e.Connected? && r.clients[c].id == e.id
  }

  lemma {:induction false} OnlineStep(r: Replica, e: Entry, now: int, timeout: int, c: ClientId)
    requires Sane(r.clients)
    ensures var r' := Applied(r, e, now, timeout);
            && (IsOnline(r', c) <==>
                  Accepted(r, e, c) || (IsOnline(r, c) && !EndsOnline(r, e, now, timeout, c, r.clients[c].id)))
            && (Accepted(r, e, c) ==> OnlineAs(r', c, e))
            && (IsOnline(r', c) && !Accepted(r, e, c) ==> r'.clients[c].id == r.clients[c].id)
  {
    hide TableAfter;
  }

  /** A client is recorded online, under connection `id`, exactly when `id` was accepted and nothing
      since ended it: no disconnect or termination of `id`, no newer connection, no granted lock. */
  lemma {:induction false} OnlineIff(log: seq<Entry>, clock: seq<int>, timeout: int, n: nat, c: ClientId)
    requires |clock| == |log| && LegalLog(log) && n <= |log|
    ensures IsOnline(At(log, clock, timeout, n), c) <==> exists i: nat :: OnlineSince(log, clock, timeout, n, c, i)
    ensures forall i: nat | OnlineSince(log, clock, timeout, n, c, i) ::
              OnlineAs(At(log, clock, timeout, n), c, log[i])
    decreases n
  {
    hide TableAfter, After, Applied, EndsOnline, Accepted, InOrder;
    if n == 0 {
      AfterNothing(log, clock, timeout);
    } else {
      var m := n - 1;
      var r := At(log, clock, timeout, m);
      OnlineIff(log, clock, timeout, m, c);
      AtOk(log, clock, timeout, m);
      AfterStep(START, log, clock, timeout, m);
      OnlineStep(r, log[m], clock[m], timeout, c);
      if Accepted(r, log[m], c) {
        assert OnlineSince(log, clock, timeout, n, c, m);
      } else if IsOnline(At(log, clock, timeout, n), c) {
        var i: nat :| OnlineSince(log, clock, timeout, m, c, i);
        assert OnlineSince(log, clock, timeout, n, c, i);
      }
      forall i: nat | OnlineSince(log, clock, timeout, n, c, i)
        ensures OnlineAs(At(log, clock, timeout, n), c, log[i])
      {
        if i < m {
          assert OnlineSince(log, clock, timeout, m, c, i);
        }
      }
    }
  }

  lemma {:induction false} AtOk(log: seq<Entry>, clock: seq<int>, timeout: int, n: nat)
    requires |clock| == |log| && LegalLog(log) && n <= |log|
    ensures Ok(At(log, clock, timeout, n))
  {
    hide Ok;
    StartOk();
    AlwaysOk(START, log[..n], clock[..n], timeout);
  }

  ghost predicate LockedSince(log: seq<Entry>, clock: seq<int>, timeout: int, n: nat, c: ClientId, i: nat)
    requires |clock| == |log| && n <= |log|
  {
    && i < n && Granted(At(log, clock, timeout, i), log[i], clock[i], timeout, c)
    && forall k | i < k < n :: !Granted(At(log, clock, timeout, k), log[k], clock[k], timeout, c)
                            && !Releases(At(log, clock, timeout, k), log[k], c)
  }

  predicate IsHandshaking(r: Replica, c: ClientId) {
    c in r.clients && r.clients[c].handshaking
  }

  predicate HandshakingAs(r: Replica, c: ClientId, e: Entry, now: int) {
    IsHandshaking(r, c) && e.HandshakeTryLock? && r.clients[c].id == e.id && r.clients[c].since == now
  }

  lemma {:induction false} HandshakeStep(r: Replica, e: Entry, now: int, timeout: int, c: ClientId)
    ensures var r' := Applied(r, e, now, timeout);
            && (IsHandshaking(r', c) <==> Granted(r, e, now, timeout, c) || (IsHandshaking(r, c) && !Releases(r, e, c)))
            && (Granted(r, e, now, timeout, c) ==> HandshakingAs(r', c, e, now))
            && (IsHandshaking(r', c) && !Granted(r, e, now, timeout, c) ==>
                  r'.clients[c].id == r.clients[c].id && r'.clients[c].since == r.clients[c].since)
  {
    hide TableAfter;
  }

  /** A handshake is pending, for the connection and since the time of the grant, exactly when a
      lock was granted and neither a grant nor a release followed. */
  lemma {:induction false} HandshakingIff(log: seq<Entry>, clock: seq<int>, timeout: int, n: nat, c: ClientId)
    requires |clock| == |log| && n <= |log|
    ensures IsHandshaking(At(log, clock, timeout, n), c) <==> exists i: nat :: LockedSince(log, clock, timeout, n, c, i)
    ensures forall i: nat | LockedSince(log, clock, timeout, n, c, i) ::
              HandshakingAs(At(log, clock, timeout, n), c, log[i], clock[i])
    decreases n
  {
    hide TableAfter, After, Applied, Granted, Releases;
    if n == 0 {
      AfterNothing(log, clock, timeout);
    } else {
      var m := n - 1;
      var r := At(log, clock, timeout, m);
      HandshakingIff(log, clock, timeout, m, c);
      AfterStep(START, log, clock, timeout, m);
      HandshakeStep(r, log[m], clock[m], timeout, c);
      if Granted(r, log[m], clock[m], timeout, c) {
        assert LockedSince(log, clock, timeout, n, c, m);
      } else if IsHandshaking(At(log, clock, timeout, n), c) {
        var i: nat :| LockedSince(log, clock, timeout, m, c, i);
        assert LockedSince(log, clock, timeout, n, c, i);
      }
      forall i: nat | LockedSince(log, clock, timeout, n, c, i)
        ensures HandshakingAs(At(log, clock, timeout, n), c, log[i], clock[i])
      {
        if i < m {
          assert LockedSince(log, clock, timeout, m, c, i);
        }
      }
    }
  }

  predicate Subscribes(e: Entry, f: Topic, c: ClientId) {
    e.Add? && e.filter == Parsed(f) && e.id.clientId == c
  }

  predicate Unsubscribes(e: Entry, f: Topic, id: Id) {
    e.Remove? && e.filter == Parsed(f) && e.id == id
  }

  ghost predicate SubscribedSince(log: seq<Entry>, n: nat, f: Topic, c: ClientId, i: nat)
    requires n <= |log|
  {
    && i < n && Subscribes(log[i], f, c)
    && forall k | i < k < n :: !Subscribes(log[k], f, c) && !Unsubscribes(log[k], f, log[i].id)
  }

  predicate SubscribedAs(t: Table, f: Topic, c: ClientId, e: Entry) {
    e.Add? && c in SubsIn(t.relations, f) && SubsIn(t.relations, f)[c] == (e.id, e.opts)
  }

  lemma {:induction false} SubscribedStep(t: Table, e: Entry, f: Topic, c: ClientId)
    requires Tidy(t.relations)
    ensures var s, s' := SubsIn(t.relations, f), SubsIn(TableAfter(t, e).relations, f);
            && (c in s' <==> Subscribes(e, f, c) || (c in s && !Unsubscribes(e, f, s[c].0)))
            && (Subscribes(e, f, c) ==> SubscribedAs(TableAfter(t, e), f, c, e))
            && (c in s' && !Subscribes(e, f, c) ==> s'[c] == s[c])
  {
  }

  /** A client is subscribed, under the connection and with the options of a subscription in the
      log, exactly when no later subscription or removal by that connection replaced it. */
  lemma {:induction false} SubscribedIff(log: seq<Entry>, clock: seq<int>, timeout: int, n: nat, f: Topic, c: ClientId)
    requires |clock| == |log| && LegalLog(log) && n <= |log|
    ensures c in SubsIn(At(log, clock, timeout, n).table.relations, f) <==> exists i: nat :: SubscribedSince(log, n, f, c, i)
    ensures forall i: nat | SubscribedSince(log, n, f, c, i) ::
              SubscribedAs(At(log, clock, timeout, n).table, f, c, log[i])
    decreases n
  {
    hide TableAfter, After, ClientsAfter, SubsIn, Subscribes, Unsubscribes, Tidy, Counted;
    if n == 0 {
      AfterNothing(log, clock, timeout);
      NoSubs(f);
    } else {
      var m := n - 1;
      var r := At(log, clock, timeout, m);
      SubscribedIff(log, clock, timeout, m, f, c);
      AtOk(log, clock, timeout, m);
      AfterStep(START, log, clock, timeout, m);
      SubscribedStep(r.table, log[m], f, c);
      if Subscribes(log[m], f, c) {
        assert SubscribedSince(log, n, f, c, m);
      } else if c in SubsIn(At(log, clock, timeout, n).table.relations, f) {
        var i: nat :| SubscribedSince(log, m, f, c, i);
        assert SubscribedSince(log, n, f, c, i);
      }
      forall i: nat | SubscribedSince(log, n, f, c, i)
        ensures SubscribedAs(At(log, clock, timeout, n).table, f, c, log[i])
      {
        if i < m {
          assert SubscribedSince(log, m, f, c, i);
        }
      }
    }
  }

  lemma NoSubs(f: Topic)
    ensures SubsIn(START.table.relations, f) == map[]
  {
  }

  // ---------- what the replies say ----------

  /** The entry puts a connection of `c` on record. */
  ghost predicate Enters(r: Replica, e: Entry, now: int, timeout: int, c: ClientId) {
    Granted(r, e, now, timeout, c) || Accepted(r, e, c)
  }

  ghost predicate RecordedSince(log: seq<Entry>, clock: seq<int>, timeout: int, n: nat, c: ClientId, i: nat)
    requires |clock| == |log| && n <= |log|
  {
    && i < n && Enters(At(log, clock, timeout, i), log[i], clock[i], timeout, c)
    && forall k | i < k < n :: !Enters(At(log, clock, timeout, k), log[k], clock[k], timeout, c)
                            && log[k] != SessionTerminated(log[i].id)
  }

  predicate RecordedAs(r: Replica, c: ClientId, e: Entry) {
    c in r.clients && (e.HandshakeTryLock? || e.Connected?) && r.clients[c].id == e.id
  }

  lemma {:induction false} RecordStep(r: Replica, e: Entry, now: int, timeout: int, c: ClientId)
    requires Sane(r.clients)
    ensures var r' := Applied(r, e, now, timeout);
            && (c in r'.clients <==>
                  Enters(r, e, now, timeout, c) || (c in r.clients && e != SessionTerminated(r.clients[c].id)))
            && (Enters(r, e, now, timeout, c) ==> RecordedAs(r', c, e))
            && (c in r'.clients && !Enters(r, e, now, timeout, c) ==> r'.clients[c].id == r.clients[c].id)
  {
    hide TableAfter;
  }

  /** The connection on record is the last one that was granted the lock or accepted, unless its
      session was terminated since. */
  lemma {:induction false} RecordedIff(log: seq<Entry>, clock: seq<int>, timeout: int, n: nat, c: ClientId)
    requires |clock| == |log| && LegalLog(log) && n <= |log|
    ensures c in At(log, clock, timeout, n).clients <==> exists i: nat :: RecordedSince(log, clock, timeout, n, c, i)
    ensures forall i: nat | RecordedSince(log, clock, timeout, n, c, i) :: RecordedAs(At(log, clock, timeout, n), c, log[i])
    decreases n
  {
    hide TableAfter, After, Applied, Enters, InOrder;
    if n == 0 {
      AfterNothing(log, clock, timeout);
    } else {
      var m := n - 1;
      var r := At(log, clock, timeout, m);
      RecordedIff(log, clock, timeout, m, c);
      AtOk(log, clock, timeout, m);
      AfterStep(START, log, clock, timeout, m);
      RecordStep(r, log[m], clock[m], timeout, c);
      if Enters(r, log[m], clock[m], timeout, c) {
        assert RecordedSince(log, clock, timeout, n, c, m);
      } else if c in At(log, clock, timeout, n).clients {
        var i: nat :| RecordedSince(log, clock, timeout, m, c, i);
        assert RecordedSince(log, clock, timeout, n, c, i);
      }
      forall i: nat | RecordedSince(log, clock, timeout, n, c, i)
        ensures RecordedAs(At(log, clock, timeout, n), c, log[i])
      {
        if i < m {
          assert RecordedSince(log, clock, timeout, m, c, i);
        }
      }
    }
  }

  ghost predicate RecordedId(log: seq<Entry>, clock: seq<int>, timeout: int, n: nat, c: ClientId, x: Id)
    requires |clock| == |log| && n <= |log|
  {
    exists i: nat :: && RecordedSince(log, clock, timeout, n, c, i)
                     && RecordedAs(At(log, clock, timeout, n), c, log[i]) && log[i].id == x
  }

  /** A lock attempt is refused exactly if a lock granted earlier is still pending and the timeout
      has not passed since. */
  lemma {:induction false} AttemptRefusedIff(log: seq<Entry>, clock: seq<int>, timeout: int, n: nat, c: ClientId)
    requires |clock| == |log| && n < |log| && log[n].HandshakeTryLock? && log[n].id.clientId == c
    ensures ReplyTo(At(log, clock, timeout, n), log[n], clock[n], timeout) == Refused <==>
              exists i: nat :: LockedSince(log, clock, timeout, n, c, i) && clock[n] < clock[i] + timeout
    ensures Granted(At(log, clock, timeout, n), log[n], clock[n], timeout, c) <==>
              ReplyTo(At(log, clock, timeout, n), log[n], clock[n], timeout) != Refused
  {
    hide After, TableAfter;
    HandshakingIff(log, clock, timeout, n, c);
    var r := At(log, clock, timeout, n);
    if IsHandshaking(r, c) {
      var i: nat :| LockedSince(log, clock, timeout, n, c, i);
      assert HandshakingAs(r, c, log[i], clock[i]);
    }
    if i: nat :| LockedSince(log, clock, timeout, n, c, i) && clock[n] < clock[i] + timeout {
      assert HandshakingAs(r, c, log[i], clock[i]);
    }
  }

  /** The other replies: only a subscription that does not parse fails. */
  lemma PlainReplies(r: Replica, e: Entry, now: int, timeout: int)
    ensures e.Add? ==> ReplyTo(r, e, now, timeout) == if e.filter.Parsed? then Done else Failed
    ensures e.Ping? ==> ReplyTo(r, e, now, timeout) == Pong
    ensures e.Disconnected? || e.SessionTerminated? || e.Remove? ==> ReplyTo(r, e, now, timeout) == Done
  {
  }

  /** The replies at any place in any log.  A granted lock names the connection on record before it,
      or none; a lookup names that connection's node; and a connection is refused exactly if it is
      not the one on record and older. */
  lemma {:induction false} Replies(log: seq<Entry>, clock: seq<int>, timeout: int, n: nat, c: ClientId)
    requires |clock| == |log| && LegalLog(log) && n < |log|
    ensures var reply := ReplyTo(At(log, clock, timeout, n), log[n], clock[n], timeout);
            && (forall x :: Granted(At(log, clock, timeout, n), log[n], clock[n], timeout, c) ==>
                  (reply == Locked(Some(x)) <==> RecordedId(log, clock, timeout, n, c, x)))
            && (Granted(At(log, clock, timeout, n), log[n], clock[n], timeout, c) ==>
                  (reply == Locked(None) <==> !exists i: nat :: RecordedSince(log, clock, timeout, n, c, i)))
            && (log[n] == GetClientNodeId(c) ==>
                  && (forall x :: RecordedId(log, clock, timeout, n, c, x) ==> reply == NodeId(Some(x.nodeId)))
                  && ((!exists i: nat :: RecordedSince(log, clock, timeout, n, c, i)) ==> reply == NodeId(None)))
            && (log[n].Connected? && log[n].id.clientId == c ==>
                  (reply == Refused <==> exists x :: RecordedId(log, clock, timeout, n, c, x)
                                                     && x != log[n].id && log[n].id.createTime < x.createTime))
  {
    hide After, RecordedSince, TableAfter;
    RecordedIff(log, clock, timeout, n, c);
    var r := At(log, clock, timeout, n);
    if c in r.clients {
      assert RecordedId(log, clock, timeout, n, c, r.clients[c].id);
    }
  }

  // ---------- the high-water marks ----------

  function CounterOf(r: Replica, topics: bool): Counter {
    if topics then r.table.topicsCount else r.table.relationsCount
  }

  lemma {:induction false} MarkStep(r: Replica, e: Entry, now: int, timeout: int, topics: bool)
    requires InOrder(r.table)
    ensures var c, c' := CounterOf(r, topics), CounterOf(Applied(r, e, now, timeout), topics);
            c'.max == if c.max < c'.count then c'.count else c.max
  {
    hide ClientsAfter, Tidy, SubsIn;
  }

  /** Over any log the mark of each counter is the highest count it has had. */
  lemma {:induction false} HighWater(log: seq<Entry>, clock: seq<int>, timeout: int, n: nat, topics: bool)
    requires |clock| == |log| && LegalLog(log) && n <= |log|
    ensures var mark := CounterOf(At(log, clock, timeout, n), topics).max;
            && (forall i | 0 <= i <= n :: CounterOf(At(log, clock, timeout, i), topics).count <= mark)
            && (exists i :: 0 <= i <= n && CounterOf(At(log, clock, timeout, i), topics).count == mark)
    decreases n
  {
    hide After, Applied, CounterOf, InOrder, Sane;
    if n == 0 {
      AfterNothing(log, clock, timeout);
      StartMarks(topics);
      assert At(log, clock, timeout, 0) == START;
    } else {
      HighWater(log, clock, timeout, n - 1, topics);
      AtOk(log, clock, timeout, n - 1);
      AfterStep(START, log, clock, timeout, n - 1);
      MarkStep(At(log, clock, timeout, n - 1), log[n - 1], clock[n - 1], timeout, topics);
      assert CounterOf(At(log, clock, timeout, n), topics).count <= CounterOf(At(log, clock, timeout, n), topics).max;
    }
  }

  lemma StartMarks(topics: bool)
    ensures CounterOf(START, topics) == Counter(0, 0)
  {
  }
}
