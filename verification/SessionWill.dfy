/** The life of a session and its last will (rmqtt/src/broker/session.rs): an online event loop,
    a decision about the will, then possibly an offline loop with two timers. */
module SessionWill {
  import opened Wrappers

  /** What the session knows of its CONNECT packet; it may be unavailable. */
  datatype Connect =
    | V3(cleanSession: bool, will: bool)
    | V5(expiry: nat, will: bool, delay: Option<nat>)
    | Unavailable

  datatype OnlineEvent =
    | KeepAliveTimeout
    | Kick(open: bool, cleanStart: bool, admin: bool)   // `open`: the kicker still waits
    | Disconnect(expiry: Option<nat>)
    | Closed
    | ChannelClosed
    | QueueClosed
    | Traffic

  datatype OfflineEvent =
    | OfflineKick(open: bool, cleanStart: bool, admin: bool)
    | OfflineTraffic
    | OfflineChannelClosed
    | SessionExpired
    | WillDelayElapsed

  datatype Ending = Online | Ended | Offline | TakenOver | Abandoned | Expired

  predicate HasWill(c: Connect) {
    !c.Unavailable? && c.will
  }

  function DelayOf(c: Connect): Option<nat> {
    if c.V5? && c.will then c.delay else None
  }

  /** Whether the session ends with its connection, given the last DISCONNECT if any. */
  predicate CleanSession(c: Connect, d: Option<OnlineEvent>) {
    match c
    case V3(clean, _) => clean
    case V5(expiry, _, _) =>
      if d.Some? && d.value.Disconnect? && d.value.expiry.Some? then d.value.expiry.value == 0 else expiry == 0
    case Unavailable => true
  }

  // ---------- events that leave the loops ----------

  predicate Leaves(e: OnlineEvent) {
    e.KeepAliveTimeout? || (e.Kick? && e.open) || e.Closed? || e.ChannelClosed? || e.QueueClosed?
  }

  predicate Wakes(e: OfflineEvent) {
    (e.OfflineKick? && e.open) || e.OfflineChannelClosed? || e.SessionExpired?
  }

  /** The first event that leaves the online loop. */
  function LeftAt(es: seq<OnlineEvent>): (n: nat)
    ensures n <= |es| && (forall i | 0 <= i < n :: !Leaves(es[i])) && (n < |es| ==> Leaves(es[n]))
  {
    if es == [] || Leaves(es[0]) then 0 else 1 + LeftAt(es[1..])
  }

  function WokenAt(es: seq<OfflineEvent>): (n: nat)
    ensures n <= |es| && (forall i | 0 <= i < n :: !Wakes(es[i])) && (n < |es| ==> Wakes(es[n]))
  {
    if es == [] || Wakes(es[0]) then 0 else 1 + WokenAt(es[1..])
  }

  /** The last DISCONNECT among the first `n` events. */
  function LastDisconnect(es: seq<OnlineEvent>, n: nat): (d: Option<OnlineEvent>)
    requires n <= |es|
    ensures d.Some? <==> exists i :: 0 <= i < n && es[i].Disconnect?
  {
    if n == 0 then None else if es[n - 1].Disconnect? then Some(es[n - 1]) else LastDisconnect(es, n - 1)
  }

  // ---------- what a run does with the will ----------

  predicate Left(online: seq<OnlineEvent>) {
    LeftAt(online) < |online|
  }

  predicate Disconnected(online: seq<OnlineEvent>) {
    LastDisconnect(online, LeftAt(online)).Some?
  }

  predicate Clean(c: Connect, online: seq<OnlineEvent>) {
    CleanSession(c, LastDisconnect(online, LeftAt(online)))
  }

  predicate KickedOnline(online: seq<OnlineEvent>) {
    Left(online) && online[LeftAt(online)].Kick?
  }

  /** Another connection resumed the session: the will is cancelled. */
  predicate Resumed(c: Connect, online: seq<OnlineEvent>) {
    KickedOnline(online) && !online[LeftAt(online)].cleanStart && !Clean(c, online)
  }

  predicate WillEnabled(c: Connect, online: seq<OnlineEvent>) {
    Left(online) && !Disconnected(online) && !Resumed(c, online)
  }

  predicate WillAtOnce(c: Connect, online: seq<OnlineEvent>) {
    WillEnabled(c, online) && (Clean(c, online) || DelayOf(c).None?)
  }

  predicate GoesOffline(c: Connect, online: seq<OnlineEvent>) {
    Left(online) && !KickedOnline(online) && !Clean(c, online)
  }

  /** The delay elapsed, or the session expired, before anything else ended the offline loop. */
  predicate TimerFired(offline: seq<OfflineEvent>) {
    var n := WokenAt(offline);
    || (exists i :: 0 <= i < n && offline[i].WillDelayElapsed?)
    || (n < |offline| && offline[n].SessionExpired?)
  }

  predicate WillDeferred(c: Connect, online: seq<OnlineEvent>, offline: seq<OfflineEvent>) {
    WillEnabled(c, online) && !WillAtOnce(c, online) && GoesOffline(c, online) && TimerFired(offline)
  }

  function EndingOf(c: Connect, online: seq<OnlineEvent>, offline: seq<OfflineEvent>): Ending {
    if !Left(online) then Online
    else if !GoesOffline(c, online) then Ended
    else
      var n := WokenAt(offline);
      if n == |offline| then Offline
      else match offline[n]
           case OfflineKick(_, _, _) => TakenOver
           case SessionExpired => Expired
           case _ => Abandoned
  }

  /** How often the will is published. */
  function WillCount(c: Connect, online: seq<OnlineEvent>, offline: seq<OfflineEvent>): nat {
    if HasWill(c) && (WillAtOnce(c, online) || WillDeferred(c, online, offline)) then 1 else 0
  }

  // ---------- the loops ----------

  datatype Flags = Flags(kicked: bool, byAdmin: bool, disconnectReceived: bool, cleanStart: bool)

  method ProcessLastWill(c: Connect, wills: nat) returns (w: nat)
    ensures w == if HasWill(c) then wills + 1 else wills
  {
    w := wills;
    if !c.Unavailable? && c.will {
      w := w + 1;
    }
  }

  method RunOnline(c: Connect, online: seq<OnlineEvent>) returns (flags: Flags, d: Option<OnlineEvent>, left: bool)
    ensures left <==> Left(online)
    ensures d == LastDisconnect(online, LeftAt(online)) && (flags.disconnectReceived <==> d.Some?)
    ensures flags.kicked <==> KickedOnline(online)
    ensures left && flags.kicked ==> flags.cleanStart == online[LeftAt(online)].cleanStart
                                     && flags.byAdmin == online[LeftAt(online)].admin
  {
    flags, d, left := Flags(false, false, false, false), None, false;
    var i := 0;
    while i < |online|
      invariant 0 <= i <= LeftAt(online) && !left
      invariant d == LastDisconnect(online, i) && flags == Flags(false, false, d.Some?, false)
    {
      match online[i] {
        case KeepAliveTimeout => left := true;
        case Kick(open, cleanStart, admin) =>
          if open {
            flags := flags.(kicked := true, byAdmin := admin, cleanStart := cleanStart);
            left := true;
          }
        case Disconnect(_) =>
          flags := flags.(disconnectReceived := true);
          d := Some(online[i]);
        case Closed => left := true;
        case ChannelClosed => left := true;
        case QueueClosed => left := true;
        case Traffic =>
      }
      if left {
        return;
      }
      i := i + 1;
    }
  }

  method RunOffline(c: Connect, offline: seq<OfflineEvent>, willDelay: Option<nat>, wills: nat)
    returns (w: nat, ending: Ending)
    ensures w == if willDelay.Some? && HasWill(c) && TimerFired(offline) then wills + 1 else wills
    ensures ending == var n := WokenAt(offline);
                      if n == |offline| then Offline
                      else match offline[n]
                           case OfflineKick(_, _, _) => TakenOver
                           case SessionExpired => Expired
                           case _ => Abandoned
  {
    w, ending := wills, Offline;
    var pending := willDelay;
    var i := 0;
    while i < |offline|
      invariant 0 <= i <= WokenAt(offline) && ending == Offline
      invariant pending.Some? ==> willDelay.Some?
      invariant pending.Some? ==> w == wills && forall j | 0 <= j < i :: !offline[j].WillDelayElapsed?
      invariant pending.None? && willDelay.None? ==> w == wills
      invariant pending.None? && willDelay.Some? ==>
          w == (if HasWill(c) then wills + 1 else wills) && exists j :: 0 <= j < i && offline[j].WillDelayElapsed?
    {
      match offline[i] {
        case OfflineTraffic =>
        case OfflineKick(open, _, _) =>
          if open {
            ending := TakenOver;
            return;
          }
        case OfflineChannelClosed =>
          ending := Abandoned;
          return;
        case SessionExpired =>
          if pending.Some? {
            w := ProcessLastWill(c, w);
          }
          ending := Expired;
          return;
        case WillDelayElapsed =>
          if pending.Some? {
            w := ProcessLastWill(c, w);
            pending := None;
          }
      }
      i := i + 1;
    }
  }

  /** The whole life of a session: how often its will is published, and how it ends.  MQTT 5.0
      section 3.1.2.5: at most once, never after a DISCONNECT, and for a session that ran into its
      expiry without one exactly once. */
  method RunSession(c: Connect, online: seq<OnlineEvent>, offline: seq<OfflineEvent>)
    returns (wills: nat, ending: Ending)
    ensures wills == WillCount(c, online, offline) <= 1
    ensures ending == EndingOf(c, online, offline)
    ensures Disconnected(online) ==> wills == 0
    ensures ending == Expired && HasWill(c) && !Disconnected(online) ==> wills == 1
  {
    wills := 0;
    var flags, d, left := RunOnline(c, online);
    if !left {
      return wills, Online;
    }
    var clean := CleanSession(c, d);
    var willDelay := None;
    var sessionPresent := flags.kicked && !flags.cleanStart && !clean;
    if !(flags.disconnectReceived || sessionPresent) {
      var delay := DelayOf(c);
      if clean || delay.None? {
        wills := ProcessLastWill(c, wills);
      } else {
        willDelay := delay;
      }
    }
    if flags.kicked || clean {
      return wills, Ended;
    }
    wills, ending := RunOffline(c, offline, willDelay, wills);
  }

  /** A stored session after a broker restart starts in the offline loop with no flags: whether
      its client had sent a DISCONNECT makes no difference to the will. */
  method OfflineRestart(c: Connect, d: Option<OnlineEvent>, offline: seq<OfflineEvent>) returns (wills: nat, ending: Ending)
    ensures wills == if HasWill(c) && (CleanSession(c, d) || DelayOf(c).None? || TimerFired(offline)) then 1 else 0
    ensures ending in {Offline, TakenOver, Abandoned, Expired}
  {
    wills := 0;
    var clean := CleanSession(c, d);
    var willDelay := None;
    var delay := DelayOf(c);
    if clean || delay.None? {
      wills := ProcessLastWill(c, wills);
    } else {
      willDelay := delay;
    }
    wills, ending := RunOffline(c, offline, willDelay, wills);
  }

  // ---------- the guarantees ----------

  /** Which finished runs with a will and no DISCONNECT never publish it: the session was resumed,
      or a delayed will was overtaken by a kick or a closed channel. */
  lemma {:induction false} WillLostIff(c: Connect, online: seq<OnlineEvent>, offline: seq<OfflineEvent>)
    requires HasWill(c) && !Disconnected(online)
    requires EndingOf(c, online, offline) !in {Online, Offline}
    ensures WillCount(c, online, offline) == 0 <==>
              || Resumed(c, online)
              || (!Clean(c, online) && DelayOf(c).Some? && KickedOnline(online))
              || (GoesOffline(c, online) && DelayOf(c).Some? && !TimerFired(offline))
  {
  }

  /** A delayed will is lost when a clean-start connection kicks the session, online or offline,
      where section 3.1.3.2.2 of MQTT 5.0 asks for it to be published. */
  lemma {:induction false} CleanStartKickLosesWill(expiry: nat, delay: nat)
    requires expiry > 0
    ensures WillCount(V5(expiry, true, Some(delay)), [Kick(true, true, false)], []) == 0
    ensures WillCount(V5(expiry, true, Some(delay)), [Closed], [OfflineKick(true, true, false)]) == 0
    ensures WillCount(V5(expiry, true, None), [Kick(true, true, false)], []) == 1
  {
  }

  // ---------- the same, event by event ----------

  /** The connection ends with event `n`: only traffic, DISCONNECTs and kicks nobody waits for came
      before. */
  predicate EndsAt(online: seq<OnlineEvent>, n: nat) {
    && n < |online|
    && !online[n].Traffic? && !online[n].Disconnect? && (online[n].Kick? ==> online[n].open)
    && forall i | 0 <= i < n :: online[i].Traffic? || online[i].Disconnect? || (online[i].Kick? && !online[i].open)
  }

  /** A timer of the offline session fires while only traffic and kicks nobody waits for come in. */
  ghost predicate Fires(offline: seq<OfflineEvent>) {
    exists i :: && 0 <= i < |offline| && (offline[i].WillDelayElapsed? || offline[i].SessionExpired?)
                && forall j | 0 <= j < i :: offline[j].OfflineTraffic? || (offline[j].OfflineKick? && !offline[j].open)
  }

  lemma {:induction false} EndsAtIs(online: seq<OnlineEvent>, n: nat)
    requires EndsAt(online, n)
    ensures LeftAt(online) == n && Left(online)
  {
  }

  lemma {:induction false} FiresIs(offline: seq<OfflineEvent>)
    ensures TimerFired(offline) <==> Fires(offline)
  {
    var n := WokenAt(offline);
    if TimerFired(offline) {
      var k := FirstTimer(offline, n);
    }
    if Fires(offline) {
      var i :| && 0 <= i < |offline| && (offline[i].WillDelayElapsed? || offline[i].SessionExpired?)
               && forall j | 0 <= j < i :: offline[j].OfflineTraffic? || (offline[j].OfflineKick? && !offline[j].open);
    }
  }

  lemma {:induction false} FirstTimer(offline: seq<OfflineEvent>, n: nat) returns (k: nat)
    requires n <= |offline| && forall i | 0 <= i < n :: !Wakes(offline[i])
    requires (exists i :: 0 <= i < n && offline[i].WillDelayElapsed?) || (n < |offline| && offline[n].SessionExpired?)
    ensures k < |offline| && (offline[k].WillDelayElapsed? || offline[k].SessionExpired?)
    ensures forall j | 0 <= j < k :: offline[j].OfflineTraffic? || (offline[j].OfflineKick? && !offline[j].open)
  {
    k := 0;
    while !(offline[k].WillDelayElapsed? || offline[k].SessionExpired?)
      invariant k <= n && k < |offline|
      invariant forall j | 0 <= j < k :: offline[j].OfflineTraffic? || (offline[j].OfflineKick? && !offline[j].open)
      invariant (exists i :: k <= i < n && offline[i].WillDelayElapsed?) || (n < |offline| && offline[n].SessionExpired?)
      decreases n - k
    {
      k := k + 1;
    }
  }

  /** The will of a client, of either version, goes out exactly if it has one, its connection ends
      without a DISCONNECT, and: without a delay, unless another connection resumes a session that
      outlives it; with one, if the session ends with the connection, or a timer fires before the
      session is kicked. */
  lemma {:induction false} WillPublishedIff(c: Connect, online: seq<OnlineEvent>, offline: seq<OfflineEvent>, n: nat)
    requires EndsAt(online, n)
    ensures WillCount(c, online, offline) == 1 <==>
              && (forall i | 0 <= i < n :: !online[i].Disconnect?)
              && match c
                 case V3(clean, will) => will && (online[n].Kick? ==> clean || online[n].cleanStart)
                 case V5(expiry, will, None) => will && (online[n].Kick? ==> expiry == 0 || online[n].cleanStart)
                 case V5(expiry, will, Some(_)) => will && (expiry == 0 || (!online[n].Kick? && Fires(offline)))
                 case Unavailable => false
  {
    hide Fires, TimerFired;
    EndsAtIs(online, n);
    FiresIs(offline);
  }

  /** A session whose connection ended goes on offline exactly if nobody kicked it and it outlives
      its connection: by its own setting, or by the interval of the last DISCONNECT that has one. */
  lemma {:induction false} GoesOnIff(c: Connect, online: seq<OnlineEvent>, offline: seq<OfflineEvent>, n: nat)
    requires EndsAt(online, n)
    ensures (EndingOf(c, online, offline) == Ended) <==>
              || online[n].Kick?
              || (match c
                  case V3(clean, _) => clean
                  case Unavailable => true
                  case V5(expiry, _, _) =>
                    if exists i: nat :: LastBefore(online, n, i) && online[i].expiry.Some?
                    then exists i: nat :: LastBefore(online, n, i) && online[i].expiry == Some(0)
                    else expiry == 0)
  {
    EndsAtIs(online, n);
    var d := LastDisconnectAt(online, n);
    assert forall i: nat | LastBefore(online, n, i) :: i == d;
  }

  predicate LastBefore(online: seq<OnlineEvent>, n: nat, i: nat)
    requires n <= |online|
  {
    i < n && online[i].Disconnect? && forall j | i < j < n :: !online[j].Disconnect?
  }

  lemma {:induction false} LastDisconnectAt(online: seq<OnlineEvent>, n: nat) returns (i: nat)
    requires n <= |online|
    ensures LastDisconnect(online, n).Some? ==> LastBefore(online, n, i) && LastDisconnect(online, n) == Some(online[i])
    ensures LastDisconnect(online, n).None? ==> forall j | 0 <= j < n :: !online[j].Disconnect?
  {
    i := 0;
    if n > 0 {
      if online[n - 1].Disconnect? {
        i := n - 1;
      } else {
        i := LastDisconnectAt(online, n - 1);
      }
    }
  }
}
