/** The bounded delivery queue and its wake-up tokens (rmqtt/src/broker/queue.rs).

    Messages wait in a queue; a second channel carries one token per message, and the receiver
    takes a message only after a token.  When the token channel is full, a token may be refused. */
module DeliverQueue {
  import opened Wrappers

  datatype Queue<T> = Queue(inner: seq<T>, tokens: nat)

  datatype Event<T> =
    | Send(v: T, early: bool, refuse: bool)   // `refuse`: a full token channel turns the token away
    | Poll
    | Pop

  /** Slots of the token channel: one and a half times the capacity, rounded down. */
  function Buffer(cap: nat): nat {
    cap * 3 / 2
  }

  /** The queue takes a message while its length does not exceed the capacity. */
  predicate Full<T>(cap: nat, q: Queue<T>) {
    |q.inner| > cap
  }

  function TokenSent<T>(cap: nat, q: Queue<T>, refuse: bool): Queue<T> {
    if refuse && q.tokens >= Buffer(cap) then q else q.(tokens := q.tokens + 1)
  }

  function SendState<T>(cap: nat, q: Queue<T>, v: T, early: bool, refuse: bool): Queue<T> {
    if !Full(cap, q) then TokenSent(cap, q.(inner := q.inner + [v]), refuse)
    else if early then q.(inner := q.inner[1..] + [v])
    else q
  }

  /** What the sender gets back: nothing, the message itself, or the oldest one it displaced. */
  function SendDropped<T>(cap: nat, q: Queue<T>, v: T, early: bool): Option<T> {
    if !Full(cap, q) then None else if early then Some(q.inner[0]) else Some(v)
  }

  function PopState<T>(q: Queue<T>): Queue<T> {
    if q.inner == [] then q else q.(inner := q.inner[1..])
  }

  function Head<T>(q: Queue<T>): Option<T> {
    if q.inner == [] then None else Some(q.inner[0])
  }

  /** Without a token the receiver waits; with one it takes the head, if there is one. */
  function PollState<T>(q: Queue<T>): Queue<T> {
    if q.tokens == 0 then q else PopState(q).(tokens := q.tokens - 1)
  }

  function Step<T>(cap: nat, q: Queue<T>, e: Event<T>): Queue<T> {
    match e
    case Send(v, early, refuse) => SendState(cap, q, v, early, refuse)
    case Poll => PollState(q)
    case Pop => PopState(q)
  }

  function After<T>(cap: nat, q: Queue<T>, run: seq<Event<T>>): Queue<T> {
    if run == [] then q else Step(cap, After(cap, q, run[..|run| - 1]), run[|run| - 1])
  }

  // ---------- what leaves and in which order ----------

  function Entered<T>(cap: nat, q: Queue<T>, e: Event<T>): seq<T> {
    if e.Send? && (!Full(cap, q) || e.early) then [e.v] else []
  }

  function Left<T>(cap: nat, q: Queue<T>, e: Event<T>): seq<T> {
    match e
    case Send(_, early, _) => if Full(cap, q) && early then [q.inner[0]] else []
    case Poll => if q.tokens > 0 && q.inner != [] then [q.inner[0]] else []
    case Pop => if q.inner != [] then [q.inner[0]] else []
  }

  function AllEntered<T>(cap: nat, q: Queue<T>, run: seq<Event<T>>): seq<T> {
    if run == [] then []
    else
      var n := |run| - 1;
      AllEntered(cap, q, run[..n]) + Entered(cap, After(cap, q, run[..n]), run[n])
  }

  function AllLeft<T>(cap: nat, q: Queue<T>, run: seq<Event<T>>): seq<T> {
    if run == [] then []
    else
      var n := |run| - 1;
      AllLeft(cap, q, run[..n]) + Left(cap, After(cap, q, run[..n]), run[n])
  }

  lemma {:induction false} StepFifo<T>(cap: nat, q: Queue<T>, e: Event<T>)
    ensures q.inner + Entered(cap, q, e) == Left(cap, q, e) + Step(cap, q, e).inner
  {
  }

  /** First in, first out over whole runs: what was there, then what entered, is what left in that
      order followed by what is still there. */
  lemma {:induction false} Fifo<T>(cap: nat, q: Queue<T>, run: seq<Event<T>>)
    ensures q.inner + AllEntered(cap, q, run) == AllLeft(cap, q, run) + After(cap, q, run).inner
    decreases |run|
  {
    hide Step, Entered, Left;
    if run != [] {
      var n := |run| - 1;
      var p, e := After(cap, q, run[..n]), run[n];
      Fifo(cap, q, run[..n]);
      StepFifo(cap, p, e);
      calc {
        q.inner + AllEntered(cap, q, run);
        (q.inner + AllEntered(cap, q, run[..n])) + Entered(cap, p, e);
        AllLeft(cap, q, run[..n]) + (p.inner + Entered(cap, p, e));
        AllLeft(cap, q, run) + After(cap, q, run).inner;
      }
    }
  }

  /** A send loses nothing: the message is queued, or something comes back. */
  lemma {:induction false} SendConserves<T>(cap: nat, q: Queue<T>, v: T, early: bool, refuse: bool)
    ensures multiset(q.inner) + multiset{v}
         == multiset(SendState(cap, q, v, early, refuse).inner)
            + (match SendDropped(cap, q, v, early) case None => multiset{} case Some(x) => multiset{x})
  {
    if Full(cap, q) && early {
      assert q.inner == [q.inner[0]] + q.inner[1..];
    }
  }

  // ---------- no message is stranded ----------

  predicate Bounded<T>(cap: nat, q: Queue<T>) {
    |q.inner| <= cap + 1
  }

  predicate Awake<T>(q: Queue<T>) {
    |q.inner| <= q.tokens
  }

  lemma {:induction false} StaysBounded<T>(cap: nat, q: Queue<T>, run: seq<Event<T>>)
    requires Bounded(cap, q)
    ensures Bounded(cap, After(cap, q, run))
    decreases |run|
  {
    if run != [] {
      StaysBounded(cap, q, run[..|run| - 1]);
    }
  }

  lemma {:induction false} StaysAwake<T>(cap: nat, q: Queue<T>, run: seq<Event<T>>)
    requires cap >= 2 && Bounded(cap, q) && Awake(q)
    ensures Awake(After(cap, q, run))
    decreases |run|
  {
    if run != [] {
      var n := |run| - 1;
      StaysAwake(cap, q, run[..n]);
      StaysBounded(cap, q, run[..n]);
    }
  }

  /** A queue handed to a new channel is given one token per message, as far as the channel takes
      them. */
  function Seeded<T>(cap: nat, q: Queue<T>, refusals: seq<bool>): Queue<T>
  {
    if refusals == [] then q else TokenSent(cap, Seeded(cap, q, refusals[..|refusals| - 1]), refusals[|refusals| - 1])
  }

  lemma {:induction false} SeededTokens<T>(cap: nat, q: Queue<T>, refusals: seq<bool>)
    requires q.tokens == 0
    ensures Seeded(cap, q, refusals).inner == q.inner
    ensures Seeded(cap, q, refusals).tokens >= if |refusals| <= Buffer(cap) then |refusals| else Buffer(cap)
    decreases |refusals|
  {
    if refusals != [] {
      SeededTokens(cap, q, refusals[..|refusals| - 1]);
    }
  }

  /** From any seeded queue, tokens cover the messages throughout every run. */
  ghost predicate NeverStranded<T(!new)>(cap: nat) {
    forall s: seq<T>, refusals, run | |s| <= cap + 1 && |refusals| == |s| ::
      Awake(After(cap, Seeded(cap, Queue(s, 0), refusals), run))
  }

  /** Capacity two is the least that is safe if a full token channel may refuse. */
  lemma {:induction false} NeverStrandedIff<T(!new)>(cap: nat, v: T)
    ensures NeverStranded<T>(cap) <==> cap >= 2
  {
    if cap >= 2 {
      forall s: seq<T>, refusals, run | |s| <= cap + 1 && |refusals| == |s|
        ensures Awake(After(cap, Seeded(cap, Queue(s, 0), refusals), run))
      {
        SeededTokens(cap, Queue(s, 0), refusals);
        StaysAwake(cap, Seeded(cap, Queue(s, 0), refusals), run);
      }
    } else {
      var q := Seeded(cap, Queue([], 0), []);
      var one: seq<Event<T>> := [Send(v, false, true)];
      assert one[..0] == [];
      assert After(cap, q, one) == Queue([v], if cap == 0 then 0 else 1);
      var two := one + one;
      assert two[..1] == one;
      assert After(cap, q, two).tokens <= 1;
      assert !Awake(After(cap, q, if cap == 0 then one else two));
    }
  }

  /** Where the token channel never refuses, as one that keeps a slot for each sender does not, every
      capacity is safe. */
  lemma {:induction false} UnrefusedNeverStranded<T>(cap: nat, s: seq<T>, refusals: seq<bool>, run: seq<Event<T>>)
    requires |refusals| == |s| && (forall i | 0 <= i < |refusals| :: !refusals[i]) && forall e | e in run :: e.Send? ==> !e.refuse
    ensures Awake(After(cap, Seeded(cap, Queue(s, 0), refusals), run))
    decreases |run|
  {
    if run == [] {
      UnrefusedTokens(cap, Queue(s, 0), refusals);
    } else {
      var n := |run| - 1;
      assert run[n] in run;
      UnrefusedNeverStranded(cap, s, refusals, run[..n]);
    }
  }

  lemma {:induction false} UnrefusedTokens<T>(cap: nat, q: Queue<T>, refusals: seq<bool>)
    requires forall i | 0 <= i < |refusals| :: !refusals[i]
    ensures Seeded(cap, q, refusals) == q.(tokens := q.tokens + |refusals|)
    decreases |refusals|
  {
    if refusals != [] {
      UnrefusedTokens(cap, q, refusals[..|refusals| - 1]);
    }
  }

  /** What `n` polls yield. */
  function Polled<T>(q: Queue<T>, n: nat): seq<Option<T>>
    decreases n
  {
    if n == 0 || q.tokens == 0 then [] else [Head(q)] + Polled(PollState(q), n - 1)
  }

  /** An awake queue can be drained completely, in order, by polling alone. */
  lemma {:induction false} AwakeDrains<T>(q: Queue<T>)
    requires Awake(q)
    ensures |Polled(q, |q.inner|)| == |q.inner|
    ensures forall i | 0 <= i < |q.inner| :: Polled(q, |q.inner|)[i] == Some(q.inner[i])
    decreases |q.inner|
  {
    if q.inner != [] {
      AwakeDrains(PollState(q));
    }
  }

  // ---------- the channel ----------

  class Channel<T> {
    const cap: nat
    var inner: seq<T>
    var tokens: nat

    function View(): Queue<T>
      reads this
    {
      Queue(inner, tokens)
    }

    /** `Limiter::channel`: tokens for what is already queued. */
    constructor (cap: nat, queued: seq<T>, refusals: seq<bool>)
      requires |queued| <= cap + 1 && |refusals| == |queued|
      ensures this.cap == cap && View() == Seeded(cap, Queue(queued, 0), refusals)
      ensures Bounded(cap, View()) && (cap >= 2 ==> Awake(View()))
    {
      this.cap := cap;
      inner := queued;
      tokens := 0;
      new;
      for i := 0 to |queued|
        invariant View() == Seeded(cap, Queue(queued, 0), refusals[..i])
      {
        assert refusals[..i + 1][..i] == refusals[..i];
        TrySendToken(refusals[i]);
      }
      assert refusals[..|queued|] == refusals;
      SeededTokens(cap, Queue(queued, 0), refusals);
    }

    method TrySendToken(refuse: bool)
      modifies this`tokens
      ensures View() == TokenSent(cap, old(View()), refuse)
    {
      if !(refuse && tokens >= cap * 3 / 2) {
        tokens := tokens + 1;
      }
    }

    method Push(v: T) returns (ok: bool)
      modifies this`inner
      ensures ok <==> !Full(cap, old(View()))
      ensures inner == if ok then old(inner) + [v] else old(inner)
    {
      if |inner| > cap {
        return false;
      }
      inner := inner + [v];
      ok := true;
    }

    method TakeHead() returns (r: Option<T>)
      modifies this`inner
      ensures r == Head(old(View())) && View() == PopState(old(View()))
    {
      r := None;
      if inner != [] {
        r := Some(inner[0]);
        inner := inner[1..];
      }
    }

    method SendMessage(v: T, early: bool, refuse: bool) returns (dropped: Option<T>)
      requires Bounded(cap, View())
      modifies this
      ensures View() == SendState(cap, old(View()), v, early, refuse)
      ensures dropped == SendDropped(cap, old(View()), v, early)
      ensures Bounded(cap, View()) && (cap >= 2 && old(Awake(View())) ==> Awake(View()))
      ensures |old(inner)| <= cap ==> dropped == None && inner == old(inner) + [v]
      ensures |old(inner)| > cap && early ==> dropped == Some(old(inner)[0]) && inner == old(inner)[1..] + [v]
      ensures |old(inner)| > cap && !early ==> dropped == Some(v) && inner == old(inner)
      ensures tokens == if |old(inner)| > cap || (refuse && old(tokens) >= cap * 3 / 2) then old(tokens) else old(tokens) + 1
    {
      dropped := None;
      var ok := Push(v);
      if !ok {
        if !early {
          return Some(v);
        }
        var removed := TakeHead();
        ok := Push(v);
        if !ok {
          return Some(v);
        }
        dropped := removed;
      } else {
        TrySendToken(refuse);
      }
    }

    /** None while there is no token. */
    method PollNext() returns (r: Option<Option<T>>)
      modifies this
      ensures View() == PollState(old(View()))
      ensures r == if old(tokens) == 0 then None else Some(Head(old(View())))
      ensures old(Awake(View())) ==> Awake(View())
      ensures old(tokens) == 0 ==> r == None && inner == old(inner) && tokens == 0
      ensures old(tokens) > 0 ==> tokens == old(tokens) - 1
                                  && (if old(inner) == [] then r == Some(None) && inner == []
                                      else r == Some(Some(old(inner)[0])) && inner == old(inner)[1..])
    {
      if tokens == 0 {
        return None;
      }
      tokens := tokens - 1;
      var item := TakeHead();
      r := Some(item);
    }
  }
}
