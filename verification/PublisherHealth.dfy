/**
 A publisher's delivery health: the counters the publish path, the readers and the
 handlers keep, the confirm keeper, the snapshot, and the verdict on it. The main result
 says exactly which histories of events end in a Stalled verdict.
 */
module PublisherHealth {
  import opened Timeline
  import opened Connection

  datatype DeliveryEvent =
    | Published
    | Responded                  // a confirm, nack or return frame was read
    | Failed(generation: nat)    // a timeout or an orphan of that generation
    | Installed

  type DeliveryHistory = seq<Stamped<DeliveryEvent>>

  datatype Counters = Counters(startedAt: nat, generation: nat, generationSince: nat,
                               lastPublishAt: nat, lastConfirmAt: nat, failures: nat)

  /** A moment as the monotonic offsets record it: at the earliest just after the start. */
  function RecordedAt(startedAt: nat, at: nat): nat {
    if at <= startedAt then startedAt + 1 else at
  }

  function Note(c: Counters, e: DeliveryEvent, now: nat): Counters {
    match e
    case Published => c.(lastPublishAt := RecordedAt(c.startedAt, now))
    case Responded => c.(lastConfirmAt := RecordedAt(c.startedAt, now), failures := 0)
    case Failed(generation) => if generation == c.generation then c.(failures := c.failures + 1) else c
    case Installed => c.(generation := c.generation + 1, generationSince := now, failures := 0)
  }

  function CountersAfter(startedAt: nat, h: DeliveryHistory): Counters {
    if h == [] then Counters(startedAt, 0, 0, 0, 0, 0)
    else Note(CountersAfter(startedAt, h[..|h| - 1]), h[|h| - 1].event, h[|h| - 1].at)
  }

  // ---- the counters tell the truth ---------------------------------------------------------

  /** No response and no new channel was recorded later than `from`. */
  predicate SilentSince(startedAt: nat, h: DeliveryHistory, from: int) {
    && (forall k | 0 <= k < |h| && h[k].event.Responded? :: RecordedAt(startedAt, h[k].at) <= from)
    && (forall k | 0 <= k < |h| && h[k].event.Installed? :: h[k].at <= from)
  }

  /** Something was published later than `from`. */
  predicate PublishedSince(startedAt: nat, h: DeliveryHistory, from: int) {
    exists k :: 0 <= k < |h| && h[k].event.Published? && RecordedAt(startedAt, h[k].at) > from
  }

  lemma PublishedSinceStep(startedAt: nat, before: DeliveryHistory, last: Stamped<DeliveryEvent>, from: int)
    ensures PublishedSince(startedAt, before + [last], from) <==>
            PublishedSince(startedAt, before, from) || (last.event.Published? && RecordedAt(startedAt, last.at) > from)
  {
    var h := before + [last];
    if PublishedSince(startedAt, before, from) {
      var k :| 0 <= k < |before| && before[k].event.Published? && RecordedAt(startedAt, before[k].at) > from;
      assert h[k] == before[k];
    }
    assert h[|before|] == last;
  }

  lemma SilentSinceStep(startedAt: nat, before: DeliveryHistory, last: Stamped<DeliveryEvent>, from: int)
    ensures SilentSince(startedAt, before + [last], from) <==>
            && SilentSince(startedAt, before, from)
            && (last.event.Responded? ==> RecordedAt(startedAt, last.at) <= from)
            && (last.event.Installed? ==> last.at <= from)
  {
    var h := before + [last];
    assert h[|before|] == last;
    assert forall k | 0 <= k < |before| :: h[k] == before[k];
  }

  /** A clock later than `from` is one that was set later than `from`, times being what they are. */
  lemma {:induction false} ClocksAreOrdered(startedAt: nat, h: DeliveryHistory, now: nat)
    requires Ordered(h, now)
    ensures var c := CountersAfter(startedAt, h);
            c.startedAt == startedAt
            && (h != [] ==> c.lastPublishAt <= RecordedAt(startedAt, h[|h| - 1].at) && c.lastConfirmAt <= RecordedAt(startedAt, h[|h| - 1].at)
                            && c.generationSince <= h[|h| - 1].at)
            && (h == [] ==> c.lastPublishAt == c.lastConfirmAt == c.generationSince == 0)
  {
    if |h| > 1 {
      assert h[|h| - 2].at <= h[|h| - 1].at;
    }
    if h != [] { ClocksAreOrdered(startedAt, h[..|h| - 1], now); }
  }

  /** One event more: the publish clock before it is no later than the event. */
  lemma PublishClockStep(startedAt: nat, before: DeliveryHistory, last: Stamped<DeliveryEvent>, now: nat)
    requires Ordered(before + [last], now)
    ensures CountersAfter(startedAt, before).startedAt == startedAt
    ensures var at := CountersAfter(startedAt, before).lastPublishAt; at == 0 || at <= RecordedAt(startedAt, last.at)
  {
    var h := before + [last];
    assert h[..|h| - 1] == before;
    ClocksAreOrdered(startedAt, before, now);
    if before != [] { assert h[|before| - 1].at <= h[|before|].at; }
  }

  /** The publish clock is later than `from` exactly when something was published later than `from`. */
  lemma {:induction false} PublishClockIsExact(startedAt: nat, h: DeliveryHistory, now: nat, from: int)
    requires Ordered(h, now) && startedAt <= from
    ensures CountersAfter(startedAt, h).lastPublishAt > from <==> PublishedSince(startedAt, h, from)
  {
    if h != [] {
      var before, last := h[..|h| - 1], h[|h| - 1];
      assert h == before + [last];
      PublishClockIsExact(startedAt, before, now, from);
      PublishedSinceStep(startedAt, before, last, from);
      PublishClockStep(startedAt, before, last, now);
    }
  }

  lemma SilenceClockStep(startedAt: nat, before: DeliveryHistory, last: Stamped<DeliveryEvent>, now: nat)
    requires Ordered(before + [last], now)
    ensures var c := CountersAfter(startedAt, before);
            && c.startedAt == startedAt
            && (c.lastConfirmAt == 0 || c.lastConfirmAt <= RecordedAt(startedAt, last.at)) && c.generationSince <= last.at
  {
    var h := before + [last];
    assert h[..|h| - 1] == before;
    ClocksAreOrdered(startedAt, before, now);
    if before != [] { assert h[|before| - 1].at <= h[|before|].at; }
  }

  /** The response and channel clocks are no later than `from` exactly when the broker was silent and the channel the same since. */
  lemma {:induction false} SilenceClocksAreExact(startedAt: nat, h: DeliveryHistory, now: nat, from: int)
    requires Ordered(h, now) && startedAt <= from
    ensures var c := CountersAfter(startedAt, h);
            c.lastConfirmAt <= from && c.generationSince <= from <==> SilentSince(startedAt, h, from)
  {
    if h != [] {
      var before, last := h[..|h| - 1], h[|h| - 1];
      assert h == before + [last];
      SilenceClocksAreExact(startedAt, before, now, from);
      SilentSinceStep(startedAt, before, last, from);
      SilenceClockStep(startedAt, before, last, now);
    }
  }

  /** Event k is a failure of generation g, and neither a response nor a new channel has come since. */
  predicate InStreak(h: DeliveryHistory, k: nat, g: nat) {
    && k < |h| && h[k].event == Failed(g)
    && forall m | k < m < |h| :: !h[m].event.Responded? && !h[m].event.Installed?
  }

  function Streak(h: DeliveryHistory, g: nat): set<nat> {
    set k | 0 <= k < |h| && InStreak(h, k, g)
  }

  lemma SameStreak(before: DeliveryHistory, h: DeliveryHistory, g: nat)
    requires |h| == |before| + 1 && h[..|before|] == before
    requires !h[|before|].event.Responded? && !h[|before|].event.Installed? && h[|before|].event != Failed(g)
    ensures Streak(h, g) == Streak(before, g)
  {
  }

  lemma OneMoreInStreak(before: DeliveryHistory, h: DeliveryHistory, g: nat)
    requires |h| == |before| + 1 && h[..|before|] == before && h[|before|].event == Failed(g)
    ensures |Streak(h, g)| == |Streak(before, g)| + 1
  {
    var n: nat := |before|;
    assert InStreak(h, n, g);
    assert Streak(h, g) == Streak(before, g) + {n};
  }

  /** The failure count is the number of failures of the current channel since the broker last answered on it. */
  lemma {:induction false} FailuresAreExact(startedAt: nat, h: DeliveryHistory)
    ensures CountersAfter(startedAt, h).failures == |Streak(h, CountersAfter(startedAt, h).generation)|
  {
    if h == [] {
      assert Streak(h, 0) == {};
    } else {
      var before, g := h[..|h| - 1], CountersAfter(startedAt, h).generation;
      FailuresAreExact(startedAt, before);
      match h[|h| - 1].event
      case Responded =>
      case Installed =>
      case Published => SameStreak(before, h, g);
      case Failed(f) => if f == g { OneMoreInStreak(before, h, g); } else { SameStreak(before, h, g); }
    }
  }

  // ---- the verdict ---------------------------------------------------------------------------

  datatype Totals = Totals(confirmed: int, timedOut: int, orphaned: int, returned: int, nacked: int)

  datatype Snapshot = Snapshot(enabled: bool, generationAlive: bool, readersRunning: bool,
                               counters: Counters, oldestPendingAge: int, confirmTimeout: int, totals: Totals)

  datatype Policy = Policy(stallAfter: int, minConnectionAge: int, minFailures: int)

  const DEFAULT_MIN_FAILURES: int := 3
  const PENDING_SLACK: int := 5 * SECOND

  function WithDefaults(pol: Policy, confirmTimeout: int): (full: Policy)
    ensures full.stallAfter > 0 && full.minConnectionAge > 0 && full.minFailures > 0
    ensures pol.stallAfter <= 0 ==> full.stallAfter >= 5 * MINUTE && full.stallAfter >= 3 * confirmTimeout
    ensures pol.stallAfter <= 0 && full.stallAfter != 5 * MINUTE ==> full.stallAfter == 3 * confirmTimeout
    ensures (pol.stallAfter > 0 ==> full.stallAfter == pol.stallAfter) && (pol.minFailures > 0 ==> full.minFailures == pol.minFailures)
    ensures pol.minConnectionAge > 0 ==> full.minConnectionAge == pol.minConnectionAge
    ensures (pol.minConnectionAge <= 0 ==> full.minConnectionAge == 2 * MINUTE) && (pol.minFailures <= 0 ==> full.minFailures == 3)
  {
    Policy(
      if pol.stallAfter <= 0 then (if 3 * confirmTimeout > 5 * MINUTE then 3 * confirmTimeout else 5 * MINUTE) else pol.stallAfter,
      if pol.minConnectionAge <= 0 then DEFAULT_MIN_CONNECTION_AGE else pol.minConnectionAge,
      if pol.minFailures <= 0 then DEFAULT_MIN_FAILURES else pol.minFailures)
  }

  function Assess(h: Snapshot, prev: Snapshot, cs: ClientState, policy: Policy, now: nat): HealthLevel {
    var pol := WithDefaults(policy, h.confirmTimeout);
    if cs.gaveUp then Degraded
    else if !h.enabled then Ok
    else
      var ref := Latest([h.counters.lastConfirmAt, h.counters.generationSince, h.counters.startedAt, cs.connectedAt, cs.unblockedAt]);
      var failing := h.counters.failures >= pol.minFailures;
      var publishing := h.counters.lastPublishAt > ref && now - h.counters.lastPublishAt < pol.stallAfter;
      if failing && publishing && now - ref >= pol.stallAfter then
        if ConnectionTrusted(cs, pol.minConnectionAge, now) then Stalled else Degraded
      else if !h.generationAlive || !h.readersRunning || h.oldestPendingAge > h.confirmTimeout + PENDING_SLACK then Degraded
      else if prev.enabled && (h.totals.timedOut + h.totals.orphaned) - (prev.totals.timedOut + prev.totals.orphaned) > 0 then Degraded
      else Ok
  }

  /** The latest of five moments is no later than `from` exactly when each of them is. */
  lemma LatestOfFive(a: nat, b: nat, c: nat, d: nat, e: nat, from: int)
    ensures Latest([a, b, c, d, e]) <= from <==> a <= from && b <= from && c <= from && d <= from && e <= from
  {
    var ts := [a, b, c, d, e];
    assert ts[0] in ts && ts[1] in ts && ts[2] in ts && ts[3] in ts && ts[4] in ts;
  }

  /** What the snapshot's clocks must say for a Stalled verdict, `from` being the start of the window. */
  lemma StalledByClocks(h: Snapshot, prev: Snapshot, cs: ClientState, policy: Policy, now: nat)
    ensures var pol := WithDefaults(policy, h.confirmTimeout);
            var from := now - pol.stallAfter;
            var c := h.counters;
            Assess(h, prev, cs, policy, now) == Stalled <==>
            && h.enabled && !cs.gaveUp && cs.connected && !cs.reconnecting && !cs.blocked && now - cs.connectedAt >= pol.minConnectionAge
            && c.failures >= pol.minFailures
            && c.lastPublishAt > from
            && c.lastConfirmAt <= from && c.generationSince <= from && c.startedAt <= from
            && cs.connectedAt <= from && cs.unblockedAt <= from
  {
    var pol := WithDefaults(policy, h.confirmTimeout);
    var c := h.counters;
    LatestOfFive(c.lastConfirmAt, c.generationSince, c.startedAt, cs.connectedAt, cs.unblockedAt, now - pol.stallAfter);
  }

  /** And for Ok; in all other cases it is Degraded. */
  lemma OkByClocks(h: Snapshot, prev: Snapshot, cs: ClientState, policy: Policy, now: nat)
    ensures var pol := WithDefaults(policy, h.confirmTimeout);
            var from := now - pol.stallAfter;
            var c := h.counters;
            var suspect := c.failures >= pol.minFailures && c.lastPublishAt > from
                           && c.lastConfirmAt <= from && c.generationSince <= from && c.startedAt <= from
                           && cs.connectedAt <= from && cs.unblockedAt <= from;
            Assess(h, prev, cs, policy, now) == Ok <==>
            && !cs.gaveUp
            && (h.enabled ==>
                  && !suspect && h.generationAlive && h.readersRunning && h.oldestPendingAge <= h.confirmTimeout + 5 * SECOND
                  && (prev.enabled ==> h.totals.timedOut + h.totals.orphaned <= prev.totals.timedOut + prev.totals.orphaned))
  {
    var pol := WithDefaults(policy, h.confirmTimeout);
    var c := h.counters;
    LatestOfFive(c.lastConfirmAt, c.generationSince, c.startedAt, cs.connectedAt, cs.unblockedAt, now - pol.stallAfter);
  }

  /**
   The verdict is Stalled for exactly these histories: within the whole window no confirm,
   nack or return was read and no channel installed; at least MinFailures messages of the
   current channel failed since the broker last answered; something was published within
   the window; the publisher, the connection and its last unblocking are at least as old as
   the window; and the connection passes the guard.
   */
  lemma StalledExactly(startedAt: nat, h: DeliveryHistory, c: ConnHistory, snap: Snapshot, prev: Snapshot, policy: Policy, now: nat)
    requires Ordered(h, now) && snap.counters == CountersAfter(startedAt, h)
    ensures var pol := WithDefaults(policy, snap.confirmTimeout);
            var from := now - pol.stallAfter;
            var cs := StateAfter(c);
            Assess(snap, prev, cs, policy, now) == Stalled <==>
            && snap.enabled && !cs.gaveUp && ConnectionTrusted(cs, pol.minConnectionAge, now)
            && |Streak(h, snap.counters.generation)| >= pol.minFailures
            && PublishedSince(startedAt, h, from) && SilentSince(startedAt, h, from)
            && startedAt <= from && cs.connectedAt <= from && cs.unblockedAt <= from
  {
    var pol := WithDefaults(policy, snap.confirmTimeout);
    var from := now - pol.stallAfter;
    StalledByClocks(snap, prev, StateAfter(c), policy, now);
    FailuresAreExact(startedAt, h);
    StartIsKept(startedAt, h);
    if startedAt <= from {
      PublishClockIsExact(startedAt, h, now, from);
      SilenceClocksAreExact(startedAt, h, now, from);
    }
  }

  lemma {:induction false} StartIsKept(startedAt: nat, h: DeliveryHistory)
    ensures CountersAfter(startedAt, h).startedAt == startedAt
  {
    if h != [] { StartIsKept(startedAt, h[..|h| - 1]); }
  }

  /** The generation in force is the same at every moment later than `from`. */
  lemma {:induction false} SameGeneration(startedAt: nat, h: DeliveryHistory, now: nat, from: int, i: nat)
    requires Ordered(h, now) && InForce(h, i, from) && SilentSince(startedAt, h, from)
    ensures i <= |h| && CountersAfter(startedAt, h[..i]).generation == CountersAfter(startedAt, h).generation
    decreases |h| - i
  {
    if i == |h| {
      assert h[..i] == h;
    } else {
      SameGeneration(startedAt, h, now, from, i + 1);
      assert h[..i + 1][..i] == h[..i];
    }
  }

  /**
   What Stalled says about the time before it: at every moment of the window the client was
   on one connection, up and not blocked, and the publisher on one confirm channel.
   */
  lemma StalledMeansHealthyConnection(startedAt: nat, h: DeliveryHistory, c: ConnHistory, snap: Snapshot, prev: Snapshot, policy: Policy, now: nat)
    requires Ordered(h, now) && Ordered(c, now) && snap.counters == CountersAfter(startedAt, h)
    requires Assess(snap, prev, StateAfter(c), policy, now) == Stalled
    ensures var from := now - WithDefaults(policy, snap.confirmTimeout).stallAfter;
            && HealthySince(c, from) && UnblockedSince(c, from)
            && forall i: nat {:trigger InForce(h, i, from)} | InForce(h, i, from) ::
                 i <= |h| && CountersAfter(startedAt, h[..i]).generation == snap.counters.generation
  {
    var from := now - WithDefaults(policy, snap.confirmTimeout).stallAfter;
    StalledExactly(startedAt, h, c, snap, prev, policy, now);
    forall i: nat | InForce(c, i, from)
      ensures i <= |c| && StateAfter(c[..i]).connected && StateAfter(c[..i]).conn == StateAfter(c).conn && !StateAfter(c[..i]).blocked {
      UpThroughout(c, now, from, i);
      UnblockedThroughout(c, now, from, i);
    }
    forall i: nat | InForce(h, i, from)
      ensures i <= |h| && CountersAfter(startedAt, h[..i]).generation == snap.counters.generation {
      SameGeneration(startedAt, h, now, from, i);
    }
  }

  // ---- the publisher's own counters ------------------------------------------------------------

  class Monitor {
    const startedAt: nat
    var generation: nat
    var generationSince: nat
    var lastPublishAt: nat
    var lastResponseAt: nat
    var failuresSinceResponse: nat

    constructor (startedAt: nat)
      ensures View() == CountersAfter(startedAt, [])
    {
      this.startedAt := startedAt;
      generation, generationSince, lastPublishAt, lastResponseAt, failuresSinceResponse := 0, 0, 0, 0, 0;
    }

    function View(): Counters
      reads this
    {
      Counters(startedAt, generation, generationSince, lastPublishAt, lastResponseAt, failuresSinceResponse)
    }

    /** sinceStart and atOffset: an offset of at least 1, added back to the start. */
    method Moment(now: nat) returns (at: nat)
      ensures at == RecordedAt(startedAt, now)
    {
      var offset := if now as int - startedAt < 1 then 1 else now - startedAt;
      at := startedAt + offset;
    }

    method NotePublish(now: nat)
      modifies this
      ensures View() == Note(old(View()), Published, now)
    {
      lastPublishAt := Moment(now);
    }

    method NoteResponse(now: nat)
      modifies this
      ensures View() == Note(old(View()), Responded, now)
    {
      lastResponseAt := Moment(now);
      failuresSinceResponse := 0;
    }

    method NoteFailure(generation: nat)
      modifies this
      ensures forall now :: View() == Note(old(View()), Failed(generation), now)
    {
      if generation == this.generation {
        failuresSinceResponse := failuresSinceResponse + 1;
      }
    }

    method InstallGeneration(now: nat)
      modifies this
      ensures View() == Note(old(View()), Installed, now)
    {
      generation := generation + 1;
      generationSince := now;
      failuresSinceResponse := 0;
    }
  }

  /** A pending entry as DeliveryHealth reads it. */
  datatype PendingView = PendingView(claimed: bool, publishedAt: nat, timeout: int)

  /** DeliveryHealth's pass over the pending entries: the oldest undecided message's age and the longest timeout in force. */
  method InspectPending(entries: seq<PendingView>, deliveryTimeout: int, now: nat) returns (oldestAge: int, confirmTimeout: int)
    ensures oldestAge >= 0 && confirmTimeout >= deliveryTimeout
    ensures forall e | e in entries && !e.claimed :: now - e.publishedAt <= oldestAge && e.timeout <= confirmTimeout
    ensures oldestAge == 0 || exists e :: e in entries && !e.claimed && oldestAge == now - e.publishedAt
    ensures confirmTimeout == deliveryTimeout || exists e :: e in entries && !e.claimed && confirmTimeout == e.timeout
  {
    oldestAge, confirmTimeout := 0, deliveryTimeout;
    var i := 0;
    while i < |entries|
      invariant 0 <= i <= |entries| && oldestAge >= 0 && confirmTimeout >= deliveryTimeout
      invariant forall k | 0 <= k < i && !entries[k].claimed :: now - entries[k].publishedAt <= oldestAge && entries[k].timeout <= confirmTimeout
      invariant oldestAge == 0 || exists k :: 0 <= k < i && !entries[k].claimed && oldestAge == now - entries[k].publishedAt
      invariant confirmTimeout == deliveryTimeout || exists k :: 0 <= k < i && !entries[k].claimed && confirmTimeout == entries[k].timeout
    {
      var e := entries[i];
      i := i + 1;
      if e.claimed {
        continue;
      }
      if now - e.publishedAt > oldestAge {
        oldestAge := now - e.publishedAt;
      }
      if e.timeout > confirmTimeout {
        confirmTimeout := e.timeout;
      }
    }
  }

  // ---- the confirm keeper -------------------------------------------------------------------------

  const KEEPER_MIN_BACKOFF: nat := SECOND / 4
  const KEEPER_MAX_BACKOFF: nat := 30 * SECOND
  const KEEPER_POLL_OFFLINE: nat := SECOND

  datatype RefreshResult = Refreshed | Busy | RefreshFailed

  /** What the keeper finds each time it looks at the dead generation. */
  datatype Look = Look(replaced: bool, closed: bool, connected: bool, reconnecting: bool,
                       refresh: RefreshResult, closedAfter: bool, shutdown: bool)

  datatype KeeperEnd = Replaced | Stopped | StillTrying

  /** The look leads to an attempt to refresh. */
  predicate Tries(l: Look) { !l.replaced && !l.closed && l.connected && !l.reconnecting }

  /** How often a refresh has failed in the looks before the i-th. */
  function FailedBefore(looks: seq<Look>, i: nat): nat
    requires i <= |looks|
  {
    if i == 0 then 0
    else FailedBefore(looks, i - 1) + if Tries(looks[i - 1]) && looks[i - 1].refresh.RefreshFailed? then 1 else 0
  }

  function Pow2(n: nat): nat { if n == 0 then 1 else 2 * Pow2(n - 1) }

  /** Exponential back-off with a ceiling. */
  function Backoff(failures: nat): nat {
    if KEEPER_MIN_BACKOFF * Pow2(failures) < KEEPER_MAX_BACKOFF then KEEPER_MIN_BACKOFF * Pow2(failures) else KEEPER_MAX_BACKOFF
  }

  /** How long the keeper waits after the i-th look. */
  function WaitAfter(looks: seq<Look>, i: nat): nat
    requires i < |looks|
  {
    if !Tries(looks[i]) then KEEPER_POLL_OFFLINE
    else if looks[i].refresh.Busy? then KEEPER_MIN_BACKOFF
    else Backoff(FailedBefore(looks, i))
  }

  lemma {:induction false} BackoffDoubles(n: nat)
    ensures Backoff(n + 1) == if 2 * Backoff(n) < KEEPER_MAX_BACKOFF then 2 * Backoff(n) else KEEPER_MAX_BACKOFF
  {
    assert KEEPER_MIN_BACKOFF * Pow2(n + 1) == 2 * (KEEPER_MIN_BACKOFF * Pow2(n));
  }

  /**
   The waits in numbers: a second while offline, a quarter of a second after a refresh that
   was busy or failed for the first time, and at every further failure twice as long as at
   the one before, up to thirty seconds.
   */
  lemma WaitsByCases(looks: seq<Look>, i: nat, j: nat)
    requires i < j < |looks|
    ensures looks[i].closed || !looks[i].connected || looks[i].reconnecting ==> WaitAfter(looks, i) == SECOND
    ensures Tries(looks[i]) && looks[i].refresh.Busy? ==> WaitAfter(looks, i) == SECOND / 4
    ensures Tries(looks[i]) && looks[i].refresh.RefreshFailed? && FailedBefore(looks, i) == 0 ==> WaitAfter(looks, i) == SECOND / 4
    ensures Tries(looks[i]) && looks[i].refresh.RefreshFailed? && Tries(looks[j]) && looks[j].refresh.RefreshFailed?
            && FailedBefore(looks, j) == FailedBefore(looks, i) + 1 ==>
              WaitAfter(looks, j) == if 2 * WaitAfter(looks, i) < 30 * SECOND then 2 * WaitAfter(looks, i) else 30 * SECOND
  {
    BackoffDoubles(FailedBefore(looks, i));
  }

  /**
   runConfirmKeeper's loop over one dead generation. It refreshes only while the client is
   connected and not reconnecting and the publisher open, waits as the back-off says, and
   stops at the first success, replacement or shutdown.
   */
  method RunConfirmKeeper(looks: seq<Look>) returns (end: KeeperEnd, used: nat, tried: seq<nat>, waits: seq<nat>)
    ensures used <= |looks| && |waits| <= used
    ensures forall i | 0 <= i < |tried| :: tried[i] < used && Tries(looks[tried[i]])
    ensures forall k | 0 <= k < used && Tries(looks[k]) :: k in tried
    ensures forall i | 0 <= i < |waits| :: waits[i] == WaitAfter(looks, i)
    ensures forall k | 0 <= k < used - 1 :: !looks[k].replaced && !looks[k].closed && !(Tries(looks[k]) && looks[k].refresh.Refreshed?)
    ensures forall k | 0 <= k < used - 1 :: !looks[k].shutdown && !(Tries(looks[k]) && looks[k].closedAfter)
    ensures end == Replaced <==> used > 0 && (looks[used - 1].replaced || (Tries(looks[used - 1]) && looks[used - 1].refresh.Refreshed?))
    ensures end == Stopped <==>
              && used > 0 && !looks[used - 1].replaced && !(Tries(looks[used - 1]) && looks[used - 1].refresh.Refreshed?)
              && (looks[used - 1].closed || looks[used - 1].shutdown || (Tries(looks[used - 1]) && looks[used - 1].closedAfter))
    ensures end == StillTrying ==> used == |looks| == |waits|
  {
    used, tried, waits := 0, [], [];
    var backoff := KEEPER_MIN_BACKOFF;
    while used < |looks|
      invariant used <= |looks| && |waits| == used
      invariant forall i | 0 <= i < |tried| :: tried[i] < used && Tries(looks[tried[i]])
      invariant forall k | 0 <= k < used && Tries(looks[k]) :: k in tried
      invariant forall i | 0 <= i < |waits| :: waits[i] == WaitAfter(looks, i)
      invariant forall k | 0 <= k < used :: !looks[k].replaced && !looks[k].closed && !(Tries(looks[k]) && looks[k].refresh.Refreshed?)
      invariant forall k | 0 <= k < used :: !looks[k].shutdown && !(Tries(looks[k]) && looks[k].closedAfter)
      invariant backoff == Backoff(FailedBefore(looks, used))
    {
      var l := looks[used];
      used := used + 1;
      if l.replaced {
        return Replaced, used, tried, waits;
      }
      if l.closed {
        return Stopped, used, tried, waits;
      }
      if !l.connected || l.reconnecting {
        waits := waits + [KEEPER_POLL_OFFLINE];
        if l.shutdown {
          return Stopped, used, tried, waits;
        }
        continue;
      }
      tried := tried + [used - 1];
      if l.refresh.Refreshed? {
        return Replaced, used, tried, waits;
      }
      if l.closedAfter {
        return Stopped, used, tried, waits;
      }
      if l.refresh.Busy? {
        waits := waits + [KEEPER_MIN_BACKOFF];
        if l.shutdown {
          return Stopped, used, tried, waits;
        }
        continue;
      }
      waits := waits + [backoff];
      if l.shutdown {
        return Stopped, used, tried, waits;
      }
      BackoffDoubles(FailedBefore(looks, used - 1));
      backoff := if 2 * backoff < KEEPER_MAX_BACKOFF then 2 * backoff else KEEPER_MAX_BACKOFF;
    }
    end := StillTrying;
  }
}
