/** The in-flight window of a session and its packet identifiers (rmqtt/src/broker/inflight.rs). */
module InflightWindow {
  import opened Wrappers
  import opened Listings

  const U16: nat := 65536   // the counter is an unsigned 16-bit integer that wraps

  datatype Moment = UnAck | UnReceived | UnComplete

  datatype Publish = Publish(body: string, qos: nat, dup: bool, packetId: Option<nat>)

  /** `updated` is when it was sent or last changed status. */
  datatype Flight = Flight(publish: Publish, from: string, status: Moment, updated: int)

  // ---------- packet identifiers ----------

  /** The counter value `k` steps after `s`. */
  function Nth(s: nat, k: nat): nat {
    (s + k) % U16
  }

  /** The first usable identifier from `s + k` on, within the 65535 values the loop visits. */
  function Search(s: nat, held: set<nat>, k: nat): Option<nat>
    requires k < U16
    decreases U16 - k
  {
    if k == U16 - 1 then None
    else if Nth(s, k) != 0 && Nth(s, k) !in held then Some(Nth(s, k))
    else Search(s, held, k + 1)
  }

  lemma {:induction false} NthStep(s: nat, k: nat)
    ensures Nth(s, k + 1) == (Nth(s, k) + 1) % U16 == Nth(Nth(s, k), 1)
    ensures s < U16 ==> Nth(s, 0) == s
  {
  }

  lemma {:induction false} SearchStep(s: nat, held: set<nat>, k: nat)
    requires k < U16
    ensures Search(s, held, k) == if k == U16 - 1 then None
                                  else if Nth(s, k) != 0 && Nth(s, k) !in held then Some(Nth(s, k))
                                  else Search(s, held, k + 1)
  {
  }

  /** The one value the loop never visits. */
  function Skipped(s: nat): nat {
    Nth(s, U16 - 1)
  }

  predicate Usable(s: nat, held: set<nat>, id: nat) {
    0 < id < U16 && id != Skipped(s) && id !in held
  }

  /** How far `id` lies after `s` going round. */
  function Distance(s: nat, id: nat): nat
    requires s < U16 && id < U16
  {
    (id + U16 - s) % U16
  }

  lemma {:induction false} NthDistance(s: nat, id: nat)
    requires s < U16 && id < U16
    ensures Distance(s, id) < U16 && Nth(s, Distance(s, id)) == id
    ensures Distance(s, id) == U16 - 1 <==> id == Skipped(s)
    ensures forall k | 0 <= k < U16 && Nth(s, k) == id :: k == Distance(s, id)
  {
  }

  /** The search finds the first usable identifier in cyclic order, and finds one exactly when
      there is one. */
  lemma {:induction false} SearchFirst(s: nat, held: set<nat>, k: nat)
    requires s < U16 && k < U16
    requires forall j | 0 <= j < k :: Nth(s, j) == 0 || Nth(s, j) in held
    ensures Search(s, held, k).Some? <==> exists id :: Usable(s, held, id)
    ensures var r := Search(s, held, k);
            r.Some? ==> Usable(s, held, r.value)
                        && forall id | Usable(s, held, id) :: Distance(s, r.value) <= Distance(s, id)
    decreases U16 - k
  {
    if k < U16 - 1 && !(Nth(s, k) != 0 && Nth(s, k) !in held) {
      SearchFirst(s, held, k + 1);
    } else {
      forall id | Usable(s, held, id) ensures k <= Distance(s, id) < U16 - 1 {
        NthDistance(s, id);
      }
      if k < U16 - 1 {
        NthDistance(s, Nth(s, k));
        assert Distance(s, Nth(s, k)) == k;
        assert Usable(s, held, Nth(s, k));
      }
    }
  }

  predicate Below(i: nat, n: nat) {
    i < n
  }

  predicate Candidate(s: nat, id: nat) {
    0 < id < U16 && id != Skipped(s)
  }

  ghost function Candidates(s: nat): set<nat> {
    set id: nat | id < U16 && Candidate(s, id)
  }

  lemma {:induction false} RangeSize(n: nat)
    ensures |set i: nat | i < n && Below(i, n)| == n
  {
    if n > 0 {
      var m: nat := n - 1;
      RangeSize(m);
      forall i: nat ensures Below(i, n) <==> Below(i, m) || i == m {
      }
      assert (set i: nat | i < n && Below(i, n)) == (set i: nat | i < m && Below(i, m)) + {m};
    }
  }

  lemma {:induction false} CandidatesSize(s: nat)
    requires s < U16
    ensures |Candidates(s)| == if s == 1 then 65535 else 65534
  {
    var all := set i: nat | i < U16 && Below(i, U16);
    RangeSize(U16);
    forall i: nat ensures i in Candidates(s) <==> i in all && i != 0 && i != Skipped(s) {
      assert Candidate(s, i) || !Candidate(s, i);
      assert Below(i, U16) || !Below(i, U16);
    }
    assert Candidates(s) == all - {0} - {Skipped(s)};
    assert Skipped(s) in all && 0 in all;
    assert Skipped(s) == 0 <==> s == 1;
  }

  /** With at most 65533 identifiers held there is always one to give. */
  lemma {:induction false} IdAvailable(s: nat, held: set<nat>)
    requires s < U16 && |held| <= 65533
    ensures Search(s, held, 0).Some?
  {
    SearchFirst(s, held, 0);
    if Search(s, held, 0).None? {
      forall id | id in Candidates(s) ensures id in held {
        assert Candidate(s, id) && !Usable(s, held, id);
      }
      CandidatesSize(s);
      SubsetSize(Candidates(s), held);
    }
  }

  lemma {:induction false} SubsetSize(a: set<nat>, b: set<nat>)
    requires a <= b
    ensures |a| <= |b|
  {
    if a != {} {
      var x :| x in a;
      SubsetSize(a - {x}, b - {x});
    }
  }

  /** The bound is tight: 65534 held identifiers can defeat the search although one is free. */
  lemma {:induction false} BoundIsTight(s: nat)
    requires s < U16 && s != 1
    ensures |Candidates(s)| == 65534 && Search(s, Candidates(s), 0).None?
    ensures 0 < Skipped(s) < U16 && Skipped(s) !in Candidates(s)
  {
    CandidatesSize(s);
    SearchFirst(s, Candidates(s), 0);
    forall id ensures !Usable(s, Candidates(s), id) {
      assert Candidate(s, id) ==> id in Candidates(s);
    }
  }

  // ---------- the window ----------

  /** `pushes` and `pops` count the push and pop callbacks.  A window is `stuck` once the online loop
      waits for its lock while holding it. */
  datatype Window = Window(queues: map<nat, Flight>, next: nat, pushes: nat, pops: nat, stuck: bool)

  const FRESH := Window(map[], 1, 0, 0, false)

  function Pushed(w: Window, m: Flight): Window {
    if m.publish.packetId.None? then w
    else
      var id := m.publish.packetId.value;
      w.(queues := w.queues[id := m], pushes := w.pushes + 1, pops := if id in w.queues then w.pops + 1 else w.pops)
  }

  function Taken(w: Window, id: nat): Window {
    if id in w.queues then w.(queues := w.queues - {id}, pops := w.pops + 1) else w
  }

  function StatusSet(w: Window, id: nat, s: Moment, now: int): Window {
    if id in w.queues then w.(queues := w.queues[id := w.queues[id].(status := s, updated := now)]) else w
  }

  function NextState(w: Window): Window {
    var r := Search(w.next, w.queues.Keys, 0);
    w.(next := if r.Some? then Nth(r.value, 1) else Skipped(w.next))
  }

  predicate HasCredit(cap: nat, w: Window) {
    cap > |w.queues|
  }

  /** The shorter of the two configured intervals; zero means none. */
  function Interval(retry: int, expiry: int): int {
    if retry == 0 then expiry else if expiry == 0 || retry < expiry then retry else expiry
  }

  predicate Due(m: Flight, interval: int, now: int) {
    interval > 0 && now - m.updated >= interval
  }

  // ---------- the online loop ----------

  datatype Event =
    | Deliver(publish: Publish, from: string, expired: bool, sinkOk: bool, now: int)
    | Ack(id: nat)
    | Received(id: nat, now: int)
    | RetryFront(id: nat, expired: bool, sinkOk: bool, now: int)   // the timer, with `id` at the front

  predicate NeedsId(p: Publish) {
    p.qos > 0 && (!p.dup || p.packetId.None?)
  }

  function StatusFor(p: Publish): Moment {
    if p.qos == 1 then UnAck else UnReceived
  }

  /** A delivery happens only while there is credit. */
  function Delivered(cap: nat, w: Window, e: Event): Window
    requires e.Deliver?
  {
    if !HasCredit(cap, w) || e.expired then w
    else if e.publish.qos == 0 then w
    else if NeedsId(e.publish) then
      var r := Search(w.next, w.queues.Keys, 0);
      if r.None? || !e.sinkOk then NextState(w)
      else Pushed(NextState(w), Flight(e.publish.(packetId := r), e.from, StatusFor(e.publish), e.now))
    else if !e.sinkOk then w
    else Pushed(w, Flight(e.publish, e.from, StatusFor(e.publish), e.now))
  }

  /** Whether `reforward` files the message in the window again: it only lacks its completion, and
      was released again. */
  predicate Refiled(m: Flight, expired: bool, sinkOk: bool) {
    m.status == UnComplete && !expired && sinkOk
  }

  /** A timed-out message leaves the window.  The timer holds the lock of the window while it
      reforwards, and filing the message again takes that lock: the loop then waits for itself. */
  function Retried(w: Window, interval: int, e: Event): Window
    requires e.RetryFront?
  {
    if w.stuck || e.id !in w.queues || !Due(w.queues[e.id], interval, e.now) then w
    else Taken(w, e.id).(stuck := Refiled(w.queues[e.id], e.expired, e.sinkOk))
  }

  /** Every event needs the lock. */
  function Step(cap: nat, interval: int, w: Window, e: Event): Window {
    if w.stuck then w
    else
      match e
      case Deliver(_, _, _, _, _) => Delivered(cap, w, e)
      case Ack(id) => Taken(w, id)
      case Received(id, now) => StatusSet(w, id, UnComplete, now)
      case RetryFront(_, _, _, _) => Retried(w, interval, e)
  }

  function After(cap: nat, interval: int, run: seq<Event>): Window {
    if run == [] then FRESH else Step(cap, interval, After(cap, interval, run[..|run| - 1]), run[|run| - 1])
  }

  /** Messages are filed under their packet identifier, the window fits its capacity, and the
      callbacks account for its length. */
  ghost predicate WindowOk(cap: nat, w: Window) {
    && w.next < U16
    && |w.queues| <= cap
    && w.pushes - w.pops == |w.queues|
    && forall id | id in w.queues :: w.queues[id].publish.packetId == Some(id)
  }

  lemma {:induction false} PushedOk(cap: nat, w: Window, m: Flight)
    requires WindowOk(cap, w)
    requires HasCredit(cap, w) || (m.publish.packetId.Some? && m.publish.packetId.value in w.queues)
    ensures WindowOk(cap, Pushed(w, m))
  {
  }

  lemma {:induction false} TakenOk(cap: nat, w: Window, id: nat)
    requires WindowOk(cap, w)
    ensures WindowOk(cap, Taken(w, id)) && (id in w.queues ==> HasCredit(cap, Taken(w, id)))
  {
  }

  lemma {:induction false} StepOk(cap: nat, interval: int, w: Window, e: Event)
    requires WindowOk(cap, w)
    ensures WindowOk(cap, Step(cap, interval, w, e))
  {
    hide Search, WindowOk, Pushed, Taken;
    match e
    case Deliver(p, from, _, _, now) =>
      NextOk(cap, w);
      if HasCredit(cap, w) {
        var r := Search(w.next, w.queues.Keys, 0);
        PushedOk(cap, NextState(w), Flight(p.(packetId := r), from, StatusFor(p), now));
        PushedOk(cap, w, Flight(p, from, StatusFor(p), now));
      }
    case Ack(id) =>
      TakenOk(cap, w, id);
    case Received(id, now) =>
      StatusSetOk(cap, w, id, UnComplete, now);
    case RetryFront(id, _, _, _) =>
      TakenOk(cap, w, id);
      StuckOk(cap, Taken(w, id));
  }

  lemma StuckOk(cap: nat, w: Window)
    requires WindowOk(cap, w)
    ensures forall b :: WindowOk(cap, w.(stuck := b))
  {
  }

  lemma NextOk(cap: nat, w: Window)
    requires WindowOk(cap, w)
    ensures WindowOk(cap, NextState(w))
  {
  }

  lemma StatusSetOk(cap: nat, w: Window, id: nat, s: Moment, now: int)
    requires WindowOk(cap, w)
    ensures WindowOk(cap, StatusSet(w, id, s, now))
  {
  }

  /** Over every run of the online loop the window never exceeds its capacity, so the free credit
      never underflows, and pushes minus pops is its length. */
  lemma {:induction false} AlwaysOk(cap: nat, interval: int, run: seq<Event>)
    ensures WindowOk(cap, After(cap, interval, run))
    decreases |run|
  {
    if run != [] {
      AlwaysOk(cap, interval, run[..|run| - 1]);
      StepOk(cap, interval, After(cap, interval, run[..|run| - 1]), run[|run| - 1]);
    }
  }

  /** The delivery replaces a message that is still in flight. */
  ghost predicate Overwrites(cap: nat, interval: int, w: Window, e: Event) {
    var q' := Step(cap, interval, w, e).queues;
    e.Deliver? && exists id :: id in w.queues && id in q' && q'[id] != w.queues[id]
  }

  /** Only a redelivery under an identifier in use can replace a message in flight: a first
      delivery never does. */
  lemma {:induction false} OverwritesIff(cap: nat, interval: int, run: seq<Event>, e: Event)
    requires e.Deliver?
    ensures var w := After(cap, interval, run);
            Overwrites(cap, interval, w, e) <==>
              && !w.stuck && HasCredit(cap, w) && !e.expired && e.sinkOk && e.publish.qos > 0
              && e.publish.dup && e.publish.packetId.Some? && e.publish.packetId.value in w.queues
              && w.queues[e.publish.packetId.value] != Flight(e.publish, e.from, StatusFor(e.publish), e.now)
  {
    hide Search;
    var w := After(cap, interval, run);
    AlwaysOk(cap, interval, run);
    SearchFirst(w.next, w.queues.Keys, 0);
  }

  /** A redelivery under identifier 1 while a first delivery is in flight under it replaces it. */
  lemma {:induction false} OverwriteExample(interval: int)
    ensures var first := Deliver(Publish("x", 1, false, None), "a", false, true, 0);
            var again := Deliver(Publish("y", 1, true, Some(1)), "b", false, true, 1);
            Overwrites(2, interval, After(2, interval, [first]), again)
  {
    var first := Deliver(Publish("x", 1, false, None), "a", false, true, 0);
    var again := Deliver(Publish("y", 1, true, Some(1)), "b", false, true, 1);
    var w := After(2, interval, [first]);
    assert [first][..0] == [] && After(2, interval, []) == FRESH;
    assert Search(1, {}, 0) == Some(1);
    assert 1 in w.queues && w.queues[1].publish.body == "x";
    assert Step(2, interval, w, again).queues[1].publish.body == "y";
  }

  // ---------- when credit means an identifier ----------

  ghost predicate CreditSuffices(cap: nat, interval: int, run: seq<Event>) {
    var w := After(cap, interval, run);
    HasCredit(cap, w) ==> Search(w.next, w.queues.Keys, 0).Some?
  }

  lemma {:induction false} CreditMeansId(cap: nat, interval: int, run: seq<Event>)
    requires cap <= 65534
    ensures CreditSuffices(cap, interval, run)
  {
    var w := After(cap, interval, run);
    AlwaysOk(cap, interval, run);
    if HasCredit(cap, w) {
      assert |w.queues.Keys| == |w.queues|;
      IdAvailable(w.next, w.queues.Keys);
    }
  }

  /** `n` first deliveries. */
  function Fill(n: nat): seq<Event> {
    seq(n, _ => Deliver(Publish("", 1, false, None), "", false, true, 0))
  }

  /** The window of those: the identifiers taken in turn. */
  ghost predicate Filled(w: Window, n: nat) {
    && (forall id :: id in w.queues <==> 1 <= id <= n)
    && w.next == Nth(n, 1) && w.pushes == n && w.pops == 0 && !w.stuck
  }

  lemma {:induction false} FilledNext(interval: int, w: Window, n: nat)
    requires n < 65535 && WindowOk(65535, w) && Filled(w, n)
    ensures Filled(Step(65535, interval, w, Fill(1)[0]), n + 1)
  {
    hide Search;
    SearchStep(w.next, w.queues.Keys, 0);
    assert Search(w.next, w.queues.Keys, 0) == Some(n + 1);
  }

  lemma {:induction false} FilledIs(interval: int, n: nat)
    requires n <= 65535
    ensures Filled(After(65535, interval, Fill(n)), n)
  {
    hide Step, WindowOk;
    if n > 0 {
      FilledIs(interval, n - 1);
      assert Fill(n)[..n - 1] == Fill(n - 1);
      AlwaysOk(65535, interval, Fill(n - 1));
      FilledNext(interval, After(65535, interval, Fill(n - 1)), n - 1);
    }
  }

  lemma {:induction false} OnlySkippedFree(held: set<nat>)
    requires forall id :: id in held <==> 1 <= id <= 65534
    ensures Search(0, held, 0).None?
  {
    hide Search;
    SearchFirst(0, held, 0);
    forall id ensures !Usable(0, held, id) {
    }
  }

  lemma {:induction false} FreedLast(interval: int, full: Window)
    requires WindowOk(65535, full) && Filled(full, 65535)
    ensures var w := Step(65535, interval, full, Ack(65535));
            HasCredit(65535, w) && Search(w.next, w.queues.Keys, 0).None?
  {
    hide Search;
    TakenOk(65535, full, 65535);
    OnlySkippedFree(full.queues.Keys - {65535});
  }

  /** The window filled, and the identifier just before the counter freed again. */
  lemma {:induction false} FullButOne(interval: int)
    ensures !CreditSuffices(65535, interval, Fill(65535) + [Ack(65535)])
  {
    hide Search, Fill, After, WindowOk, Filled, Step, HasCredit;
    var run := Fill(65535) + [Ack(65535)];
    FilledIs(interval, 65535);
    FillLength(65535);
    assert run[..65535] == Fill(65535) && run[..65536] == run;
    AfterStep(65535, interval, run, 65535);
    AlwaysOk(65535, interval, Fill(65535));
    FreedLast(interval, After(65535, interval, Fill(65535)));
  }

  lemma FillLength(n: nat)
    ensures |Fill(n)| == n
  {
  }

  /** Up to the largest limit a client can ask for, credit is always matched by a packet
      identifier exactly when the limit is not that largest one. */
  lemma {:induction false} CreditMeansIdIff(cap: nat, interval: int)
    requires cap <= 65535
    ensures (forall run :: CreditSuffices(cap, interval, run)) <==> cap <= 65534
  {
    hide CreditSuffices;
    if cap <= 65534 {
      forall run ensures CreditSuffices(cap, interval, run) {
        CreditMeansId(cap, interval, run);
      }
    } else {
      FullButOne(interval);
    }
  }

  // ---------- the timer that waits for itself ----------

  ghost predicate Jams(w: Window, interval: int, e: Event) {
    && !w.stuck && e.RetryFront? && e.id in w.queues && Due(w.queues[e.id], interval, e.now)
    && Refiled(w.queues[e.id], e.expired, e.sinkOk)
  }

  /** The loop is stuck exactly if the timer has taken a live message that only lacks its
      completion. */
  lemma {:induction false} StuckIff(cap: nat, interval: int, run: seq<Event>, n: nat)
    requires n <= |run|
    ensures After(cap, interval, run[..n]).stuck
       <==> exists i :: 0 <= i < n && Jams(After(cap, interval, run[..i]), interval, run[i])
    decreases n
  {
    hide After, Search;
    if n == 0 {
      AtStart(cap, interval, run);
    } else {
      StuckIff(cap, interval, run, n - 1);
      AfterStep(cap, interval, run, n - 1);
    }
  }

  /** From then on nothing is delivered, acknowledged or retried. */
  lemma {:induction false} StuckForever(cap: nat, interval: int, run: seq<Event>, i: nat, n: nat)
    requires i <= n <= |run| && After(cap, interval, run[..i]).stuck
    ensures After(cap, interval, run[..n]) == After(cap, interval, run[..i])
    decreases n
  {
    hide After;
    if i < n {
      StuckForever(cap, interval, run, i, n - 1);
      AfterStep(cap, interval, run, n - 1);
    }
  }

  /** A QoS 2 message delivered, received, and idle for the interval. */
  function JammingRun(interval: int): seq<Event> {
    [Deliver(Publish("x", 2, false, None), "a", false, true, 0), Received(1, 0), RetryFront(1, false, true, interval)]
  }

  lemma {:induction false} JammingRunJams(cap: nat, interval: int)
    requires cap > 0 && interval > 0
    ensures After(cap, interval, JammingRun(interval)).stuck
  {
    var run := JammingRun(interval);
    AtStart(cap, interval, run);
    AfterStep(cap, interval, run, 0);
    AfterStep(cap, interval, run, 1);
    AfterStep(cap, interval, run, 2);
    assert Search(1, {}, 0) == Some(1);
    assert run[..3] == run;
  }

  lemma {:induction false} NoIntervalNeverStuck(cap: nat, interval: int, run: seq<Event>)
    requires interval <= 0 || cap == 0
    ensures !After(cap, interval, run).stuck
    decreases |run|
  {
    if run != [] {
      NoIntervalNeverStuck(cap, interval, run[..|run| - 1]);
      AlwaysOk(cap, interval, run[..|run| - 1]);
    }
  }

  /** No run gets stuck exactly if there is no retry interval, or no window at all. */
  lemma {:induction false} NeverStuckIff(cap: nat, interval: int)
    ensures (forall run :: !After(cap, interval, run).stuck) <==> interval <= 0 || cap == 0
  {
    hide After;
    if interval <= 0 || cap == 0 {
      forall run ensures !After(cap, interval, run).stuck {
        NoIntervalNeverStuck(cap, interval, run);
      }
    } else {
      JammingRunJams(cap, interval);
    }
  }

  // ---------- what is in flight, from the history ----------

  ghost predicate Sends(cap: nat, w: Window, e: Event, id: nat) {
    && !w.stuck && e.Deliver? && HasCredit(cap, w) && !e.expired && e.sinkOk && e.publish.qos > 0
    && (if NeedsId(e.publish) then Search(w.next, w.queues.Keys, 0) else e.publish.packetId) == Some(id)
  }

  /** The message is acknowledged, or the timer takes it after the interval. */
  ghost predicate Closes(w: Window, interval: int, e: Event, id: nat) {
    && !w.stuck
    && (|| e == Ack(id)
        || (e.RetryFront? && e.id == id && id in w.queues && Due(w.queues[id], interval, e.now)))
  }

  ghost predicate Confirms(w: Window, e: Event, id: nat) {
    !w.stuck && e.Received? && e.id == id
  }

  ghost predicate OpenSince(cap: nat, interval: int, run: seq<Event>, n: nat, id: nat, i: nat)
    requires n <= |run|
  {
    && i < n && Sends(cap, After(cap, interval, run[..i]), run[i], id)
    && forall k | i < k < n :: !Sends(cap, After(cap, interval, run[..k]), run[k], id)
                            && !Closes(After(cap, interval, run[..k]), interval, run[k], id)
  }

  /** Event `t` is the delivery `i` or, if the peer confirmed receipt since, the last time it did. */
  ghost predicate LastTouch(cap: nat, interval: int, run: seq<Event>, n: nat, id: nat, i: nat, t: nat)
    requires n <= |run|
  {
    && i <= t < n && (t == i || Confirms(After(cap, interval, run[..t]), run[t], id))
    && forall k | t < k < n :: !Confirms(After(cap, interval, run[..k]), run[k], id)
  }

  function TimeOf(e: Event): int {
    if e.Ack? then 0 else e.now
  }

  /** What was sent, awaiting its completion once it has been received, idle since `since`. */
  ghost predicate FlightFor(m: Flight, e: Event, id: nat, received: bool, since: int) {
    && e.Deliver?
    && m == Flight(e.publish.(packetId := Some(id)), e.from, if received then UnComplete else StatusFor(e.publish), since)
  }

  lemma {:induction false} FlightStep(cap: nat, interval: int, w: Window, e: Event, id: nat)
    requires WindowOk(cap, w)
    ensures var q, q' := w.queues, Step(cap, interval, w, e).queues;
            && (id in q' <==> Sends(cap, w, e, id) || (id in q && !Closes(w, interval, e, id)))
            && (Sends(cap, w, e, id) ==> FlightFor(q'[id], e, id, false, e.now))
            && (id in q' && !Sends(cap, w, e, id) ==> q'[id] == Changed(q[id], w, e, id))
  {
    hide Search;
  }

  ghost function Changed(m: Flight, w: Window, e: Event, id: nat): Flight {
    if Confirms(w, e, id) then m.(status := UnComplete, updated := e.now) else m
  }

  lemma {:induction false} AtStart(cap: nat, interval: int, run: seq<Event>)
    ensures After(cap, interval, run[..0]) == FRESH
  {
  }

  lemma {:induction false} AfterStep(cap: nat, interval: int, run: seq<Event>, i: nat)
    requires i < |run|
    ensures After(cap, interval, run[..i + 1]) == Step(cap, interval, After(cap, interval, run[..i]), run[i])
  {
    assert run[..i + 1][..i] == run[..i];
  }

  ghost predicate InFlightFrom(cap: nat, interval: int, run: seq<Event>, n: nat, id: nat, i: nat)
    requires i < n <= |run|
  {
    var q := After(cap, interval, run[..n]).queues;
    && id in q
    && exists t: nat :: t < n && LastTouch(cap, interval, run, n, id, i, t)
                        && FlightFor(q[id], run[i], id, t != i, TimeOf(run[t]))
  }

  lemma {:induction false} FlightStarts(cap: nat, interval: int, run: seq<Event>, m: nat, id: nat)
    requires m < |run| && run[m].Deliver? && id in After(cap, interval, run[..m + 1]).queues
    requires FlightFor(After(cap, interval, run[..m + 1]).queues[id], run[m], id, false, run[m].now)
    ensures InFlightFrom(cap, interval, run, m + 1, id, m)
  {
    hide After;
    assert LastTouch(cap, interval, run, m + 1, id, m, m);
  }

  lemma {:induction false} TouchNext(cap: nat, interval: int, run: seq<Event>, m: nat, id: nat, i: nat, t: nat)
    requires i < m < |run| && LastTouch(cap, interval, run, m, id, i, t)
    ensures LastTouch(cap, interval, run, m + 1, id, i,
                      if Confirms(After(cap, interval, run[..m]), run[m], id) then m else t)
  {
    hide After, Confirms;
  }

  lemma {:induction false} FlightNext(cap: nat, interval: int, run: seq<Event>, m: nat, id: nat, i: nat)
    requires i < m < |run| && InFlightFrom(cap, interval, run, m, id, i)
    requires var w, w' := After(cap, interval, run[..m]), After(cap, interval, run[..m + 1]);
             id in w'.queues && w'.queues[id] == Changed(w.queues[id], w, run[m], id)
    ensures InFlightFrom(cap, interval, run, m + 1, id, i)
  {
    hide After, LastTouch;
    var w, w' := After(cap, interval, run[..m]), After(cap, interval, run[..m + 1]);
    var t: nat :| t < m && LastTouch(cap, interval, run, m, id, i, t)
                  && FlightFor(w.queues[id], run[i], id, t != i, TimeOf(run[t]));
    TouchNext(cap, interval, run, m, id, i, t);
    var t' := if Confirms(w, run[m], id) then m else t;
    assert FlightFor(w'.queues[id], run[i], id, t' != i, TimeOf(run[t']));
  }

  /** A message is in flight exactly when its delivery was sent under that identifier and neither
      an acknowledgement, the timer, nor a redelivery came since; it is then what was delivered,
      awaits completion exactly when the peer has confirmed receipt, and counts its idle time from
      the last confirmation, or else from its sending. */
  lemma {:induction false} InFlightIff(cap: nat, interval: int, run: seq<Event>, n: nat, id: nat)
    requires n <= |run|
    ensures id in After(cap, interval, run[..n]).queues <==> exists i: nat :: OpenSince(cap, interval, run, n, id, i)
    ensures forall i: nat | OpenSince(cap, interval, run, n, id, i) :: InFlightFrom(cap, interval, run, n, id, i)
    decreases n
  {
    hide Sends, Closes, Step, WindowOk, After, FlightFor, InFlightFrom, Changed;
    if n == 0 {
      AtStart(cap, interval, run);
    } else {
      var m := n - 1;
      var w, w' := After(cap, interval, run[..m]), After(cap, interval, run[..n]);
      AfterStep(cap, interval, run, m);
      InFlightIff(cap, interval, run, m, id);
      AlwaysOk(cap, interval, run[..m]);
      FlightStep(cap, interval, w, run[m], id);
      if Sends(cap, w, run[m], id) {
        assert OpenSince(cap, interval, run, n, id, m);
      } else if id in w'.queues {
        var i: nat :| OpenSince(cap, interval, run, m, id, i);
        assert OpenSince(cap, interval, run, n, id, i);
      }
      forall i: nat | OpenSince(cap, interval, run, n, id, i)
        ensures id in w'.queues && InFlightFrom(cap, interval, run, n, id, i)
      {
        if i < m {
          assert OpenSince(cap, interval, run, m, id, i);
          FlightNext(cap, interval, run, m, id, i);
        } else {
          SendsDelivery(cap, w, run[m], id);
          FlightStarts(cap, interval, run, m, id);
        }
      }
    }
  }

  /** The timer takes the message at its front exactly if the interval, a positive one, has passed
      since the peer last confirmed receipt of it, or else since it was sent. */
  lemma {:induction false} TimerTakesIff(cap: nat, interval: int, run: seq<Event>, n: nat, id: nat, i: nat, t: nat)
    requires n < |run| && run[n].RetryFront? && run[n].id == id && !After(cap, interval, run[..n]).stuck
    requires OpenSince(cap, interval, run, n, id, i) && LastTouch(cap, interval, run, n, id, i, t)
    ensures id !in After(cap, interval, run[..n + 1]).queues <==> interval > 0 && run[n].now - TimeOf(run[t]) >= interval
  {
    hide After, LastTouch, Sends, Closes;
    InFlightIff(cap, interval, run, n, id);
    AfterStep(cap, interval, run, n);
    var x: nat :| x < n && LastTouch(cap, interval, run, n, id, i, x)
                  && FlightFor(After(cap, interval, run[..n]).queues[id], run[i], id, x != i, TimeOf(run[x]));
    LastTouchUnique(cap, interval, run, n, id, i, t, x);
  }

  lemma {:induction false} LastTouchUnique(
    cap: nat, interval: int, run: seq<Event>, n: nat, id: nat, i: nat, t: nat, x: nat)
    requires n <= |run| && LastTouch(cap, interval, run, n, id, i, t) && LastTouch(cap, interval, run, n, id, i, x)
    ensures t == x
  {
    hide After, Confirms;
  }

  lemma SendsDelivery(cap: nat, w: Window, e: Event, id: nat)
    requires Sends(cap, w, e, id)
    ensures e.Deliver?
  {
  }

  // ---------- the window as an object ----------

  class Inflight {
    const cap: nat
    const interval: int
    var next: nat
    var queues: map<nat, Flight>
    var pushes: nat
    var pops: nat

    function View(): Window
      reads this
    {
      Window(queues, next, pushes, pops, false)
    }

    ghost predicate Valid()
      reads this
    {
      WindowOk(cap, View())
    }

    constructor (cap: nat, retry: int, expiry: int)
      ensures Valid() && View() == FRESH && this.cap == cap && interval == Interval(retry, expiry)
      ensures (retry == 0 ==> interval == expiry) && (expiry == 0 ==> interval == retry)
      ensures retry != 0 && expiry != 0 ==> interval in {retry, expiry} && interval <= retry && interval <= expiry
    {
      this.cap, interval := cap, Interval(retry, expiry);
      next, queues, pushes, pops := 1, map[], 0, 0;
    }

    /** Draws identifiers from the wrapping counter until one is usable. */
    method NextId() returns (r: Option<nat>)
      requires next < U16
      modifies this`next
      ensures r == Search(old(next), queues.Keys, 0)
      ensures View() == NextState(old(View()))
    {
      hide Nth, Search;
      ghost var s := next;
      NthStep(s, 0);
      for k := 0 to U16 - 1
        invariant next == Nth(s, k)
        invariant Search(s, queues.Keys, 0) == Search(s, queues.Keys, k)
      {
        NthStep(s, k);
        SearchStep(s, queues.Keys, k);
        var packetId := next;
        next := (next + 1) % U16;
        if packetId == 0 {
          continue;
        }
        if packetId !in queues {
          return Some(packetId);
        }
      }
      SearchStep(s, queues.Keys, U16 - 1);
      r := None;
    }

    /** The subtraction in the credit test cannot underflow. */
    method TestCredit() returns (b: bool)
      requires Valid()
      ensures b <==> HasCredit(cap, View())
    {
      assert cap - |queues| >= 0;
      b := cap - |queues| > 0;
    }

    method PushBack(m: Flight)
      requires Valid() && (HasCredit(cap, View()) || (m.publish.packetId.Some? && m.publish.packetId.value in queues))
      modifies this`queues, this`pushes, this`pops
      ensures Valid() && View() == Pushed(old(View()), m)
    {
      hide WindowOk;
      PushedOk(cap, View(), m);
      if m.publish.packetId.Some? {
        var id := m.publish.packetId.value;
        pushes := pushes + 1;
        var replaced := id in queues;
        queues := queues[id := m];
        if replaced {
          pops := pops + 1;
        }
      }
    }

    method Remove(id: nat) returns (r: Option<Flight>)
      requires Valid()
      modifies this`queues, this`pops
      ensures Valid() && View() == Taken(old(View()), id)
      ensures r == if id in old(queues) then Some(old(queues)[id]) else None
    {
      TakenOk(cap, View(), id);
      r := None;
      if id in queues {
        r := Some(queues[id]);
        queues := queues - {id};
        pops := pops + 1;
      }
    }

    /** The front is whichever entry the ordered map keeps first. */
    method PopFront() returns (r: Option<Flight>)
      requires Valid()
      modifies this`queues, this`pops
      ensures Valid()
      ensures r.None? <==> old(queues) == map[]
      ensures r.None? ==> View() == old(View())
      ensures r.Some? ==> r.value.publish.packetId.Some?
                          && var id := r.value.publish.packetId.value;
                          id in old(queues) && old(queues)[id] == r.value && View() == Taken(old(View()), id)
    {
      if queues == map[] {
        return None;
      }
      var id :| id in queues;
      r := Remove(id);
    }

    /** Takes the front if it has timed out. */
    method PopFrontTimeout(now: int) returns (r: Option<Flight>)
      requires Valid()
      modifies this`queues, this`pops
      ensures Valid()
      ensures r.None? ==> View() == old(View()) && FrontIdle(queues, interval, now)
      ensures r.Some? ==> now - r.value.updated >= interval > 0
      ensures r.None? && interval > 0 && queues != map[] ==>
                exists id :: id in queues && now - queues[id].updated < interval
      ensures r.Some? ==> r.value.publish.packetId.Some?
                          && var id := r.value.publish.packetId.value;
                          id in old(queues) && old(queues)[id] == r.value && View() == Taken(old(View()), id)
                          && Due(r.value, interval, now)
    {
      if queues == map[] {
        return None;
      }
      var id :| id in queues;
      if !Due(queues[id], interval, now) {
        return None;
      }
      r := Remove(id);
    }

    method UpdateStatus(id: nat, s: Moment, now: int)
      requires Valid()
      modifies this`queues
      ensures Valid() && View() == StatusSet(old(View()), id, s, now)
    {
      StatusSetOk(cap, View(), id, s, now);
      if id in queues {
        queues := queues[id := queues[id].(status := s, updated := now)];
      }
    }

    /** Empties the window: every message, once, in some order. */
    method ToInflightMessages() returns (out: seq<Flight>)
      requires Valid()
      modifies this`queues, this`pops
      ensures Valid() && queues == map[]
      ensures ListsWindow(out, old(queues))
    {
      hide WindowOk, ListsWindow, StatusSet;
      out := [];
      ghost var all := queues;
      ListsNothing(all - queues.Keys);
      while queues != map[]
        invariant Valid()
        invariant queues.Keys <= all.Keys && forall id | id in queues :: queues[id] == all[id]
        invariant ListsWindow(out, all - queues.Keys)
        decreases queues.Keys
      {
        ghost var before := queues;
        var m := PopFront();
        ghost var id := m.value.publish.packetId.value;
        assert before.Keys - {id} < before.Keys;
        ListsWindowNext(out, all - before.Keys, m.value);
        assert (all - before.Keys)[id := m.value] == all - queues.Keys;
        out := out + [m.value];
      }
      assert all - queues.Keys == all;
    }
  }

  /** The message is filed under `id`, its own if it is redelivered under one, else a free one,
      awaiting an acknowledgement for QoS 1 and a receipt for QoS 2. */
  predicate FiledAs(q: map<nat, Flight>, q': map<nat, Flight>, id: nat, p: Publish, from: string, now: int) {
    && (if p.dup && p.packetId.Some? then id == p.packetId.value else id != 0 && id !in q)
    && q' == q[id := Flight(p.(packetId := Some(id)), from, if p.qos == 1 then UnAck else UnReceived, now)]
  }

  lemma {:induction false} DeliveryFiled(cap: nat, w: Window, e: Event)
    requires WindowOk(cap, w) && e.Deliver? && HasCredit(cap, w) && !e.expired && e.sinkOk && e.publish.qos > 0
    ensures (NeedsId(e.publish) ==> Search(w.next, w.queues.Keys, 0).Some?) ==>
              exists id :: FiledAs(w.queues, Delivered(cap, w, e).queues, id, e.publish, e.from, e.now)
  {
    hide Search;
    var r := if NeedsId(e.publish) then Search(w.next, w.queues.Keys, 0) else e.publish.packetId;
    SearchFirst(w.next, w.queues.Keys, 0);
    if r.Some? {
      assert FiledAs(w.queues, Delivered(cap, w, e).queues, r.value, e.publish, e.from, e.now);
    }
  }

  /** `deliver`: gives the message an identifier if it needs one, sends it, and keeps it until it is
      acknowledged. */
  method DeliverMessage(w: Inflight, p: Publish, from: string, expired: bool, sinkOk: bool, now: int) returns (ok: bool)
    requires w.Valid() && HasCredit(w.cap, w.View())
    modifies w
    ensures w.Valid() && w.View() == Delivered(w.cap, old(w.View()), Deliver(p, from, expired, sinkOk, now))
    ensures ok <==> expired || (sinkOk && (NeedsId(p) ==> Search(old(w.next), old(w.queues).Keys, 0).Some?))
    ensures !ok || expired || p.qos == 0 ==> w.queues == old(w.queues)
    ensures expired || p.qos == 0 || (p.dup && p.packetId.Some?) ==> w.next == old(w.next)
    ensures ok && !expired && p.qos > 0 ==> exists id :: FiledAs(old(w.queues), w.queues, id, p, from, now)
  {
    hide Search, WindowOk, FiledAs;
    if HasCredit(w.cap, w.View()) && !expired && sinkOk && p.qos > 0 {
      DeliveryFiled(w.cap, w.View(), Deliver(p, from, expired, sinkOk, now));
    }
    StepOk(w.cap, w.interval, w.View(), Deliver(p, from, expired, sinkOk, now));
    NextOk(w.cap, w.View());
    if expired {
      return true;
    }
    var publish := p;
    if publish.qos > 0 && (!publish.dup || publish.packetId.None?) {
      WindowNext(w.cap, w.View());
      var id := w.NextId();
      if id.None? {
        return false;
      }
      publish := publish.(packetId := id);
    }
    if !sinkOk {
      return false;
    }
    if publish.qos > 0 {
      w.PushBack(Flight(publish, from, StatusFor(publish), now));
    }
    ok := true;
  }

  lemma WindowNext(cap: nat, w: Window)
    requires WindowOk(cap, w)
    ensures w.next < U16
  {
  }

  /** The messages that go back to the session's queue as duplicates, in the order taken. */
  ghost function SentBack(q: map<nat, Flight>, taken: seq<nat>): seq<(string, Publish)>
    requires forall id | id in taken :: id in q
  {
    if taken == [] then []
    else
      var n := |taken| - 1;
      assert taken[n] in taken;
      SentBack(q, taken[..n])
      + (if q[taken[n]].status == UnComplete then [] else [(q[taken[n]].from, q[taken[n]].publish.(dup := true))])
  }

  lemma {:induction false} SentBackNext(q: map<nat, Flight>, taken: seq<nat>, id: nat)
    requires forall x | x in taken + [id] :: x in q
    ensures (forall x | x in taken :: x in q) && id in q
    ensures SentBack(q, taken + [id])
         == SentBack(q, taken) + if q[id].status == UnComplete then [] else [(q[id].from, q[id].publish.(dup := true))]
  {
    assert forall x | x in taken :: x in taken + [id];
    assert (taken + [id])[..|taken|] == taken;
    assert (taken + [id])[|taken|] == id;
  }

  /** `reforward`: back to the session's queue as a duplicate, or released again and to be filed in
      the window again. */
  method Reforward(m: Flight, expired: bool, sinkOk: bool) returns (forwarded: seq<(string, Publish)>, file: bool)
    ensures forwarded == if m.status == UnComplete then [] else [(m.from, m.publish.(dup := true))]
    ensures file <==> Refiled(m, expired, sinkOk)
    ensures file <==> m.status == UnComplete && !expired && sinkOk
  {
    forwarded, file := [], false;
    if m.status != UnComplete {
      forwarded := [(m.from, m.publish.(dup := true))];
    } else if !expired && sinkOk {
      file := true;
    }
  }

  /** What a round of the timer meets: the time at each pop, and for each message whether it has
      expired and whether its release can be sent. */
  datatype Round = Round(clock: nat -> int, expired: nat -> bool, sinkOk: nat -> bool)

  /** The timer's steps, one for each message taken. */
  ghost function Retries(w: Window, interval: int, taken: seq<nat>, round: Round): Window {
    if taken == [] then w
    else
      var n := |taken| - 1;
      Retried(Retries(w, interval, taken[..n], round), interval,
              RetryFront(taken[n], round.expired(taken[n]), round.sinkOk(taken[n]), round.clock(n)))
  }

  lemma {:induction false} RetriesNext(w: Window, interval: int, taken: seq<nat>, round: Round, m: Flight)
    requires var v := Retries(w, interval, taken, round);
             FiledIn(m, v.queues) && Due(m, interval, round.clock(|taken|)) && !v.stuck
    ensures var id := m.publish.packetId.value;
            Retries(w, interval, taken + [id], round)
            == Taken(Retries(w, interval, taken, round), id).(stuck := Refiled(m, round.expired(id), round.sinkOk(id)))
  {
    assert (taken + [m.publish.packetId.value])[..|taken|] == taken;
  }

  /** Each message is taken once, after the interval; only the last can be one to file again. */
  ghost predicate TakenInTurn(q: map<nat, Flight>, taken: seq<nat>, interval: int, round: Round, stuck: bool) {
    && NoDuplicates(taken) && (stuck ==> taken != [])
    && forall k | 0 <= k < |taken| ::
         && taken[k] in q && Due(q[taken[k]], interval, round.clock(k))
         && (Refiled(q[taken[k]], round.expired(taken[k]), round.sinkOk(taken[k])) <==> stuck && k == |taken| - 1)
  }

  /** The timer has nothing to do: no front, or a front that has not timed out. */
  ghost predicate FrontIdle(q: map<nat, Flight>, interval: int, now: int) {
    q == map[] || exists id :: id in q && !Due(q[id], interval, now)
  }

  /** One round of the delivery timer: while the front has timed out it is taken and reforwarded.
      The round is over when the front is not due; it gets stuck exactly at the first message that
      is to be filed again. */
  method RetryTimedOut(w: Inflight, round: Round)
    returns (taken: seq<nat>, forwarded: seq<(string, Publish)>, stuck: bool)
    requires w.Valid()
    modifies w
    ensures w.Valid() && w.View().(stuck := stuck) == Retries(old(w.View()), w.interval, taken, round)
    ensures TakenInTurn(old(w.queues), taken, w.interval, round, stuck)
    ensures w.queues == old(w.queues) - (set id | id in taken)
    ensures !stuck ==> FrontIdle(w.queues, w.interval, round.clock(|taken|))
    ensures taken != [] ==> w.interval > 0
    ensures forall k | 0 <= k < |taken| ::
              taken[k] in old(w.queues) && round.clock(k) - old(w.queues)[taken[k]].updated >= w.interval
    ensures !stuck && w.interval > 0 && w.queues != map[] ==>
              exists id :: id in w.queues && round.clock(|taken|) - w.queues[id].updated < w.interval
    ensures forwarded == SentBack(old(w.queues), taken)
  {
    hide WindowOk, SentBack, Due, Refiled, FrontIdle, Retries;
    taken, forwarded, stuck := [], [], false;
    ghost var q := w.queues;
    NothingTaken(w.View(), w.interval, round);
    while true
      invariant w.Valid() && w.View() == Retries(old(w.View()), w.interval, taken, round)
      invariant TakenInTurn(q, taken, w.interval, round, false)
      invariant forwarded == SentBack(q, taken)
      invariant w.queues == q - (set id | id in taken)
      decreases w.queues.Keys
    {
      var popped := w.PopFrontTimeout(round.clock(|taken|));
      if popped.None? {
        TakenLate(q, taken, w.interval, round, false);
        return;
      }
      var m := popped.value;
      var id := m.publish.packetId.value;
      SentBackNext(q, taken, id);
      RetriesNext(old(w.View()), w.interval, taken, round, m);
      var more, file := Reforward(m, round.expired(id), round.sinkOk(id));
      taken, forwarded := taken + [id], forwarded + more;
      if file {
        stuck := true;
        TakenLate(q, taken, w.interval, round, true);
        return;
      }
    }
  }

  lemma {:induction false} TakenLate(q: map<nat, Flight>, taken: seq<nat>, interval: int, round: Round, stuck: bool)
    requires TakenInTurn(q, taken, interval, round, stuck)
    ensures taken != [] ==> interval > 0
    ensures forall k | 0 <= k < |taken| :: taken[k] in q && round.clock(k) - q[taken[k]].updated >= interval
  {
    if taken != [] {
      assert taken[0] in q;
    }
  }

  lemma NothingTaken(w: Window, interval: int, round: Round)
    ensures SentBack(w.queues, []) == [] && Retries(w, interval, [], round) == w
  {
  }

  /** `out` holds each message of the window once; messages are told apart by packet identifier. */
  ghost predicate ListsWindow(out: seq<Flight>, q: map<nat, Flight>) {
    && (forall i | 0 <= i < |out| :: FiledIn(out[i], q))
    && (forall id | id in q :: q[id] in out)
    && (forall i, j | 0 <= i < j < |out| :: out[i].publish.packetId != out[j].publish.packetId)
  }

  predicate FiledIn(m: Flight, q: map<nat, Flight>) {
    m.publish.packetId.Some? && m.publish.packetId.value in q && q[m.publish.packetId.value] == m
  }

  lemma {:induction false} ListsNothing(q: map<nat, Flight>)
    requires q.Keys == {}
    ensures ListsWindow([], q)
  {
  }

  lemma {:induction false} ListsWindowNext(out: seq<Flight>, q: map<nat, Flight>, m: Flight)
    requires ListsWindow(out, q) && m.publish.packetId.Some? && m.publish.packetId.value !in q
    ensures ListsWindow(out + [m], q[m.publish.packetId.value := m])
  {
  }
}
