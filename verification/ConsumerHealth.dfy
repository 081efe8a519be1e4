/**
 A consumer's health: the subscription state machine, the snapshot, and the verdict on it.
 The main result says what a Stalled verdict means for every moment of its window.
 */
module ConsumerHealth {
  import opened Timeline
  import opened Connection

  const RESUBSCRIBE_FAILURE_LIMIT: nat := 5

  /** One subscription: the shared channel (id 0) or one worker. `ch` is 0 while there has been none. */
  datatype Subscription = Subscription(ch: nat, active: bool, cancelled: bool, failures: nat, errCode: nat, errAt: nat)

  const NO_SUBSCRIPTION := Subscription(0, false, false, 0, 0, 0)

  datatype ConsumerEvent =
    | Begun
    | Ended(clean: bool)
    | Subscribed(id: nat, ch: nat)
    | Closed(id: nat)
    | Cancelled(id: nat, ch: nat)
    | Failed(id: nat, code: nat)

  type ConsumerHistory = seq<Stamped<ConsumerEvent>>

  /** `since` is when the consumer last stopped having any live subscription, 0 while it has one. */
  datatype Status = Status(begun: bool, stopped: bool, subs: map<nat, Subscription>, since: nat, subAt: nat, lastErrorAt: nat)

  const FRESH := Status(false, false, map[], 0, 0, 0)

  predicate AnyActive(subs: map<nat, Subscription>) {
    exists id :: id in subs && subs[id].active
  }

  function Sub(subs: map<nat, Subscription>, id: nat): Subscription {
    if id in subs then subs[id] else NO_SUBSCRIPTION
  }

  /** refreshSinceLocked. */
  function Refresh(s: Status, now: nat): Status {
    if AnyActive(s.subs) then s.(since := 0)
    else if s.since == 0 then s.(since := now)
    else s
  }

  function Deactivate(subs: map<nat, Subscription>): map<nat, Subscription> {
    map id | id in subs :: subs[id].(active := false)
  }

  function Note(s: Status, e: ConsumerEvent, now: nat): Status {
    match e
    case Begun => s.(begun := true, stopped := false, subs := map[], subAt := 0, since := now)
    case Ended(clean) => Refresh(s.(stopped := clean, subs := Deactivate(s.subs)), now)
    case Subscribed(id, ch) =>
      Refresh(s.(subs := s.subs[id := Subscription(ch, true, false, 0, 0, 0)], subAt := if s.subAt == 0 then now else s.subAt), now)
    case Closed(id) => Refresh(s.(subs := s.subs[id := Sub(s.subs, id).(active := false)], subAt := 0), now)
    case Cancelled(id, ch) =>
      var sub := Sub(s.subs, id);
      if sub.ch != ch then s.(subs := s.subs[id := sub])
      else Refresh(s.(subs := s.subs[id := sub.(active := false, cancelled := true)], subAt := 0), now)
    case Failed(id, code) =>
      var sub := Sub(s.subs, id);
      Refresh(s.(subs := s.subs[id := sub.(active := false, failures := sub.failures + 1, errCode := code, errAt := now)], lastErrorAt := now), now)
  }

  function StatusAfter(h: ConsumerHistory): Status {
    if h == [] then FRESH else Note(StatusAfter(h[..|h| - 1]), h[|h| - 1].event, h[|h| - 1].at)
  }

  lemma StatusStep(h: ConsumerHistory, i: nat)
    requires i < |h|
    ensures StatusAfter(h[..i + 1]) == Note(StatusAfter(h[..i]), h[i].event, h[i].at)
  {
    assert h[..i + 1][..i] == h[..i];
  }

  // ---- what `since` means ---------------------------------------------------------------------

  /** Once begun, `since` is zero exactly while some subscription is live. */
  predicate SinceOk(s: Status) {
    && (s.begun ==> (s.since == 0 <==> AnyActive(s.subs)))
    && (s.since > 0 ==> !AnyActive(s.subs))
  }

  /** Two states that differ at most in records of subscriptions that never were. */
  ghost predicate Alike(s: Status, s': Status) {
    s' == s.(subs := s'.subs) && forall id: nat {:trigger Sub(s.subs, id)} {:trigger Sub(s'.subs, id)} :: Sub(s'.subs, id) == Sub(s.subs, id)
  }

  lemma AlikeAnyActive(s: Status, s': Status)
    requires Alike(s, s')
    ensures AnyActive(s.subs) <==> AnyActive(s'.subs)
  {
    if id :| id in s.subs && s.subs[id].active { assert Sub(s'.subs, id).active; }
    if id :| id in s'.subs && s'.subs[id].active { assert Sub(s.subs, id).active; }
  }

  /** A cancel from a channel the subscription no longer uses changes nothing that counts. */
  lemma StaleCancel(s: Status, id: nat, ch: nat, now: nat)
    requires Sub(s.subs, id).ch != ch
    ensures Alike(s, Note(s, Cancelled(id, ch), now))
    ensures AnyActive(Note(s, Cancelled(id, ch), now).subs) <==> AnyActive(s.subs)
  {
    AlikeAnyActive(s, Note(s, Cancelled(id, ch), now));
  }

  lemma NoteKeepsSince(s: Status, e: ConsumerEvent, now: nat)
    requires SinceOk(s) && now > 0
    ensures SinceOk(Note(s, e, now)) && (s.begun ==> Note(s, e, now).begun)
  {
    match e
    case Cancelled(id, ch) => if Sub(s.subs, id).ch != ch { StaleCancel(s, id, ch, now); }
    case _ =>
  }

  lemma {:induction false} SinceIsKept(h: ConsumerHistory, now: nat)
    requires Ordered(h, now)
    ensures SinceOk(StatusAfter(h))
  {
    if h != [] {
      SinceIsKept(h[..|h| - 1], now);
      NoteKeepsSince(StatusAfter(h[..|h| - 1]), h[|h| - 1].event, h[|h| - 1].at);
    }
  }

  /** An event that leaves `since` at a moment before its own leaves the consumer as unable to consume as it was. */
  lemma SinceSurvives(s: Status, e: ConsumerEvent, now: nat)
    requires SinceOk(s) && 0 < Note(s, e, now).since < now && Note(s, e, now).begun
    ensures s.begun && s.since == Note(s, e, now).since && !AnyActive(s.subs)
  {
  }

  /**
   A consumer without a live subscription since no later than `from` had none at any moment
   after `from`: since names the moment the last one went away.
   */
  lemma {:induction false} IdleThroughout(h: ConsumerHistory, now: nat, from: int, i: nat)
    requires Ordered(h, now) && InForce(h, i, from)
    requires StatusAfter(h).begun && 0 < StatusAfter(h).since <= from
    ensures i <= |h|
    ensures var s := StatusAfter(h[..i]); s.begun && s.since == StatusAfter(h).since && !AnyActive(s.subs)
    decreases |h| - i
  {
    if i == |h| {
      SinceIsKept(h, now);
      assert h[..i] == h;
    } else {
      IdleThroughout(h, now, from, i + 1);
      StatusStep(h, i);
      SinceIsKept(h[..i], now);
      SinceSurvives(StatusAfter(h[..i]), h[i].event, h[i].at);
    }
  }

  /** The moment named by `since` is exact: an event happened then that left nothing live, and something was live, or nothing had begun, right before. */
  predicate WentIdle(h: ConsumerHistory, j: nat) {
    && j < |h|
    && !AnyActive(StatusAfter(h[..j + 1]).subs)
    && (AnyActive(StatusAfter(h[..j]).subs) || h[j].event.Begun? || !StatusAfter(h[..j]).begun)
  }

  /** Nothing has been live since event j. */
  predicate IdleSinceEvent(h: ConsumerHistory, j: nat) {
    WentIdle(h, j) && forall k: nat | j < k <= |h| :: !AnyActive(StatusAfter(h[..k]).subs)
  }

  lemma IdleOneLonger(h: ConsumerHistory, j: nat)
    requires h != [] && IdleSinceEvent(h[..|h| - 1], j) && !AnyActive(StatusAfter(h).subs)
    ensures IdleSinceEvent(h, j)
  {
    var before := h[..|h| - 1];
    assert before[..j] == h[..j] && before[..j + 1] == h[..j + 1];
    forall k: nat | j < k <= |h| ensures !AnyActive(StatusAfter(h[..k]).subs) {
      if k < |h| { assert before[..k] == h[..k]; } else { assert h[..k] == h; }
    }
  }

  lemma {:induction false} SinceIsExact(h: ConsumerHistory, now: nat) returns (j: nat)
    requires Ordered(h, now) && StatusAfter(h).since > 0
    ensures IdleSinceEvent(h, j) && h[j].at == StatusAfter(h).since
  {
    var n := |h| - 1;
    SinceIsKept(h, now);
    SinceIsKept(h[..n], now);
    if StatusAfter(h[..n]).since == StatusAfter(h).since && !h[n].event.Begun? {
      j := SinceIsExact(h[..n], now);
      IdleOneLonger(h, j);
    } else {
      j := n;
      IdleChanged(StatusAfter(h[..n]), h[n].event, h[n].at);
      JustWentIdle(h);
    }
  }

  lemma JustWentIdle(h: ConsumerHistory)
    requires h != [] && !AnyActive(StatusAfter(h).subs)
    requires var s := StatusAfter(h[..|h| - 1]); AnyActive(s.subs) || h[|h| - 1].event.Begun? || !s.begun
    ensures IdleSinceEvent(h, |h| - 1)
  {
    assert h[..|h|] == h;
  }

  lemma IdleChanged(s: Status, e: ConsumerEvent, now: nat)
    requires SinceOk(s) && now > 0 && Note(s, e, now).since > 0
    requires Note(s, e, now).since != s.since || e.Begun?
    ensures Note(s, e, now).since == now && (AnyActive(s.subs) || e.Begun? || !s.begun)
  {
  }

  // ---- what the records of a subscription mean ---------------------------------------------------

  /** The event starts the record of subscription id afresh. */
  predicate Renews(e: ConsumerEvent, id: nat) {
    e.Begun? || (e.Subscribed? && e.id == id)
  }

  /** The event ends subscription id, last made on channel ch. */
  predicate Stops(e: ConsumerEvent, id: nat, ch: nat) {
    e.Ended? || e == Closed(id) || (e.Failed? && e.id == id) || e == Cancelled(id, ch)
  }

  /** Event j made subscription id, and nothing has renewed it since. */
  predicate MadeLast(h: ConsumerHistory, id: nat, j: nat) {
    j < |h| && h[j].event.Subscribed? && h[j].event.id == id && forall k | j < k < |h| :: !Renews(h[k].event, id)
  }

  /** And nothing has stopped it either. */
  predicate StillLive(h: ConsumerHistory, id: nat, j: nat) {
    MadeLast(h, id, j) && forall k | j < k < |h| :: !Stops(h[k].event, id, h[j].event.ch)
  }

  /** What one event does to the record of a subscription. */
  lemma RecordStep(s: Status, e: ConsumerEvent, id: nat, now: nat)
    ensures var sub, sub' := Sub(s.subs, id), Sub(Note(s, e, now).subs, id);
            && (e.Begun? ==> sub' == NO_SUBSCRIPTION)
            && (e.Subscribed? && e.id == id ==> sub'.active && sub'.ch == e.ch && sub'.failures == 0 && !sub'.cancelled)
            && (!Renews(e, id) ==>
                  && sub'.ch == sub.ch && (sub'.active <==> sub.active && !Stops(e, id, sub.ch))
                  && sub'.failures == sub.failures + (if e.Failed? && e.id == id then 1 else 0)
                  && (sub'.cancelled <==> sub.cancelled || e == Cancelled(id, sub.ch)))
  {
  }

  /** How the last event bears on a subscription made before. */
  lemma MadeBefore(h: ConsumerHistory, id: nat, j: nat)
    requires MadeLast(h, id, j) && j < |h| - 1
    ensures var before, e := h[..|h| - 1], h[|h| - 1].event;
            && MadeLast(before, id, j) && !Renews(e, id) && before[j] == h[j]
            && (StillLive(h, id, j) <==> StillLive(before, id, j) && !Stops(e, id, h[j].event.ch))
  {
    assert forall k | 0 <= k < |h| - 1 :: h[..|h| - 1][k] == h[k];
  }

  /** The record names the channel the subscription was made on last, and the subscription is live exactly while nothing has stopped it. */
  lemma {:induction false} LiveExactly(h: ConsumerHistory, id: nat, j: nat)
    requires MadeLast(h, id, j)
    ensures Sub(StatusAfter(h).subs, id).ch == h[j].event.ch
    ensures Sub(StatusAfter(h).subs, id).active <==> StillLive(h, id, j)
  {
    var n := |h| - 1;
    RecordStep(StatusAfter(h[..n]), h[n].event, id, h[n].at);
    if j < n {
      MadeBefore(h, id, j);
      LiveExactly(h[..n], id, j);
    }
  }

  lemma CancelledStep(h: ConsumerHistory, id: nat, j: nat)
    requires MadeLast(h, id, j) && j < |h| - 1 && Sub(StatusAfter(h[..|h| - 1]).subs, id).ch == h[j].event.ch
    ensures Sub(StatusAfter(h).subs, id).cancelled <==>
            Sub(StatusAfter(h[..|h| - 1]).subs, id).cancelled || h[|h| - 1].event == Cancelled(id, h[j].event.ch)
  {
    var n := |h| - 1;
    RecordStep(StatusAfter(h[..n]), h[n].event, id, h[n].at);
  }

  /** It has been cancelled by the broker exactly if a cancel was read on its channel since it was made. */
  lemma {:induction false} CancelledExactly(h: ConsumerHistory, id: nat, j: nat)
    requires MadeLast(h, id, j)
    ensures Sub(StatusAfter(h).subs, id).cancelled <==> exists k :: j < k < |h| && h[k].event == Cancelled(id, h[j].event.ch)
  {
    var n := |h| - 1;
    if j < n {
      MadeBefore(h, id, j);
      CancelledExactly(h[..n], id, j);
      LiveExactly(h[..n], id, j);
      CancelledStep(h, id, j);
    } else {
      RecordStep(StatusAfter(h[..n]), h[n].event, id, h[n].at);
    }
  }

  /** One that has not been made since consuming began is not live. */
  lemma {:induction false} NeverMade(h: ConsumerHistory, id: nat)
    requires forall j: nat :: !MadeLast(h, id, j)
    ensures !Sub(StatusAfter(h).subs, id).active
  {
    if h != [] {
      var n := |h| - 1;
      RecordStep(StatusAfter(h[..n]), h[n].event, id, h[n].at);
      assert !MadeLast(h, id, n);
      if !h[n].event.Begun? {
        NotMadeBefore(h, h[..n], id);
        NeverMade(h[..n], id);
      }
    }
  }

  lemma NotMadeBefore(h: ConsumerHistory, before: ConsumerHistory, id: nat)
    requires h != [] && before == h[..|h| - 1] && !Renews(h[|h| - 1].event, id) && forall j: nat :: !MadeLast(h, id, j)
    ensures forall j: nat :: !MadeLast(before, id, j)
  {
    assert forall k | 0 <= k < |before| :: before[k] == h[k];
    forall j: nat ensures !MadeLast(before, id, j) {
      assert !MadeLast(h, id, j);
    }
  }

  /** Attempt k to subscribe failed, and nothing has renewed the subscription since. */
  predicate StandingFailure(h: ConsumerHistory, id: nat, k: nat) {
    k < |h| && h[k].event.Failed? && h[k].event.id == id && forall i | k < i < |h| :: !Renews(h[i].event, id)
  }

  function StandingFailures(h: ConsumerHistory, id: nat): set<nat> {
    set k | 0 <= k < |h| && StandingFailure(h, id, k)
  }

  lemma FailuresGrow(h: ConsumerHistory, id: nat)
    requires h != []
    ensures var n, e := |h| - 1, h[|h| - 1].event;
            StandingFailures(h, id) == if Renews(e, id) then {}
                                       else StandingFailures(h[..n], id) + if e.Failed? && e.id == id then {n} else {}
  {
    var n: nat := |h| - 1;
    assert forall k | 0 <= k < n :: h[..n][k] == h[k];
    forall k: nat | k < |h| ensures StandingFailure(h, id, k) <==> !Renews(h[n].event, id) && (StandingFailure(h[..n], id, k) || (k == n && h[n].event.Failed? && h[n].event.id == id)) {
    }
  }

  /** The number of failures on record is the number of failed attempts since the subscription was last made or consuming began. */
  lemma {:induction false} FailuresAreExact(h: ConsumerHistory, id: nat)
    ensures Sub(StatusAfter(h).subs, id).failures == |StandingFailures(h, id)|
  {
    if h != [] {
      var n: nat := |h| - 1;
      FailuresAreExact(h[..n], id);
      FailuresGrow(h, id);
      RecordStep(StatusAfter(h[..n]), h[n].event, id, h[n].at);
      assert n !in StandingFailures(h[..n], id);
    } else {
      assert StandingFailures(h, id) == {};
    }
  }

  lemma ErrorStep(s: Status, e: ConsumerEvent, id: nat, now: nat)
    ensures var sub, sub' := Sub(s.subs, id), Sub(Note(s, e, now).subs, id);
            if e.Failed? && e.id == id then sub'.errCode == e.code && sub'.errAt == now
            else !Renews(e, id) ==> sub'.errCode == sub.errCode && sub'.errAt == sub.errAt
  {
  }

  /** The error on record is that of the latest standing failure. */
  lemma {:induction false} ErrorIsLatest(h: ConsumerHistory, id: nat, k: nat)
    requires StandingFailure(h, id, k) && forall i | k < i < |h| :: !(h[i].event.Failed? && h[i].event.id == id)
    ensures Sub(StatusAfter(h).subs, id).errCode == h[k].event.code && Sub(StatusAfter(h).subs, id).errAt == h[k].at
  {
    var n := |h| - 1;
    ErrorStep(StatusAfter(h[..n]), h[n].event, id, h[n].at);
    if k < n {
      assert forall i | 0 <= i < n :: h[..n][i] == h[i];
      ErrorIsLatest(h[..n], id, k);
    }
  }

  /** Consumption has been ended for good exactly if that was the last word. */
  lemma {:induction false} StoppedExactly(h: ConsumerHistory)
    ensures StatusAfter(h).stopped <==>
            exists j :: 0 <= j < |h| && h[j].event == Ended(true) && forall k | j < k < |h| :: !h[k].event.Begun? && !h[k].event.Ended?
  {
    if h != [] {
      var before := h[..|h| - 1];
      assert forall k | 0 <= k < |before| :: before[k] == h[k];
      StoppedExactly(before);
      if h[|h| - 1].event == Ended(true) { assert h[|h| - 1].event == Ended(true); }
    }
  }

  // ---- the snapshot -----------------------------------------------------------------------------

  datatype Snapshot = Snapshot(stopped: bool, consuming: bool, activeSubscriptions: nat, channelOpen: bool, cancelledByBroker: bool,
                               notConsumingSince: nat, resubscribeFailures: nat, failingSubscriptions: nat, lastSubscribeErrorCode: nat)

  /** The code is one recorded by a latest failure still standing, or 0 if none is. */
  predicate CodeOk(subs: map<nat, Subscription>, ids: set<nat>, code: nat, at: nat)
    requires ids <= subs.Keys
  {
    if forall id | id in ids :: subs[id].errAt == 0 then code == 0 && at == 0
    else
      && (exists id :: id in ids && subs[id].errAt == at && subs[id].errCode == code && at > 0)
      && (forall id | id in ids :: subs[id].errAt <= at)
  }

  predicate TellsStatus(s: Status, snap: Snapshot) {
    snap.stopped == s.stopped && snap.notConsumingSince == s.since && snap.consuming == AnyActive(s.subs)
  }

  /** The snapshot says of the subscriptions what is true of them, whatever order they are visited in. */
  ghost predicate Faithful(s: Status, open: set<nat>, snap: Snapshot) {
    && TellsStatus(s, snap)
    && snap.activeSubscriptions == |ActiveIn(s.subs, s.subs.Keys)|
    && snap.channelOpen == (exists id :: id in s.subs && s.subs[id].active && s.subs[id].ch in open)
    && snap.cancelledByBroker == (exists id :: id in s.subs && s.subs[id].cancelled)
    && IsMostFailures(s.subs, s.subs.Keys, snap.resubscribeFailures)
    && snap.failingSubscriptions == |FailingIn(s.subs, s.subs.Keys)|
    && exists at :: CodeOk(s.subs, s.subs.Keys, snap.lastSubscribeErrorCode, at)
  }

  datatype Policy = Policy(stallAfter: int, minConnectionAge: int)

  function WithDefaults(pol: Policy): Policy {
    Policy(if pol.stallAfter <= 0 then 5 * MINUTE else pol.stallAfter,
           if pol.minConnectionAge <= 0 then DEFAULT_MIN_CONNECTION_AGE else pol.minConnectionAge)
  }

  /** The broker refused the subscription: configuration or topology, which no restart cures. */
  predicate Refusal(code: nat) { code == 403 || code == 404 || code == 406 }

  function Assess(h: Snapshot, cs: ClientState, policy: Policy, now: nat): HealthLevel {
    var pol := WithDefaults(policy);
    if cs.gaveUp then Degraded
    else if h.stopped || (h.notConsumingSince == 0 && !h.consuming) then Degraded
    else if h.consuming then (if h.cancelledByBroker || h.failingSubscriptions > 0 then Degraded else Ok)
    else if Refusal(h.lastSubscribeErrorCode) then Degraded
    else if !ConnectionTrusted(cs, pol.minConnectionAge, now) then Degraded
    else if now - Latest([h.notConsumingSince, cs.connectedAt]) < pol.stallAfter then Degraded
    else Stalled
  }

  /** What the snapshot must say for a Stalled verdict. */
  lemma StalledBySnapshot(h: Snapshot, cs: ClientState, policy: Policy, now: nat)
    ensures var pol := WithDefaults(policy);
            var from := now - pol.stallAfter;
            Assess(h, cs, policy, now) == Stalled <==>
            && !cs.gaveUp && cs.connected && !cs.reconnecting && !cs.blocked && now - cs.connectedAt >= pol.minConnectionAge
            && !h.stopped && !h.consuming && h.lastSubscribeErrorCode !in {403, 404, 406}
            && 0 < h.notConsumingSince <= from && cs.connectedAt <= from
  {
  }

  /** And for Ok; in all other cases it is Degraded. */
  lemma OkBySnapshot(h: Snapshot, cs: ClientState, policy: Policy, now: nat)
    ensures Assess(h, cs, policy, now) == Ok <==> !cs.gaveUp && !h.stopped && h.consuming && !h.cancelledByBroker && h.failingSubscriptions <= 0
  {
  }

  /** No subscription was live at any moment later than `from`. */
  ghost predicate IdleSince(h: ConsumerHistory, from: int) {
    forall i: nat {:trigger InForce(h, i, from)} | InForce(h, i, from) ::
      i <= |h| && StatusAfter(h[..i]).begun && !AnyActive(StatusAfter(h[..i]).subs)
  }

  /**
   Stalled soundness over a run: for all of the last StallAfter no subscription was live,
   and the client was connected, on one and the same connection. The consumer was not asked
   to stop, and the broker does not refuse it.
   */
  lemma StalledMeansIdle(h: ConsumerHistory, c: ConnHistory, snap: Snapshot, policy: Policy, now: nat)
    requires Ordered(h, now) && Ordered(c, now)
    requires StatusAfter(h).begun && TellsStatus(StatusAfter(h), snap)
    requires Assess(snap, StateAfter(c), policy, now) == Stalled
    ensures var from := now - WithDefaults(policy).stallAfter;
            IdleSince(h, from) && HealthySince(c, from)
    ensures !StatusAfter(h).stopped && !Refusal(snap.lastSubscribeErrorCode)
    ensures var cs := StateAfter(c); !cs.gaveUp && !cs.reconnecting && !cs.blocked
  {
    var from := now - WithDefaults(policy).stallAfter;
    StalledBySnapshot(snap, StateAfter(c), policy, now);
    forall i: nat | InForce(h, i, from)
      ensures i <= |h| && StatusAfter(h[..i]).begun && !AnyActive(StatusAfter(h[..i]).subs) {
      IdleThroughout(h, now, from, i);
    }
    forall i: nat | InForce(c, i, from)
      ensures i <= |c| && StateAfter(c[..i]).connected && StateAfter(c[..i]).conn == StateAfter(c).conn {
      UpThroughout(c, now, from, i);
    }
  }

  predicate NotBegunSince(h: ConsumerHistory, from: int) {
    forall i | 0 <= i < |h| && h[i].event.Begun? :: h[i].at <= from
  }

  /** Idle at every moment of the window, and not begun again in it: then `since` is at least as old as the window. */
  lemma SinceIsOld(h: ConsumerHistory, now: nat, from: int)
    requires Ordered(h, now) && IdleSince(h, from) && NotBegunSince(h, from)
    ensures 0 < StatusAfter(h).since && (from >= 0 ==> StatusAfter(h).since <= from) && !AnyActive(StatusAfter(h).subs)
  {
    SinceIsKept(h, now);
    assert InForce(h, |h|, from);
    assert h[..|h|] == h;
    if StatusAfter(h).since > from >= 0 {
      var j := SinceIsExact(h, now);
      assert InForce(h, j, from);
    }
  }

  /** What the snapshot of a consumer says that was idle for the whole window. */
  lemma IdleSnapshot(h: ConsumerHistory, snap: Snapshot, now: nat, from: int)
    requires Ordered(h, now) && from >= 0 && IdleSince(h, from) && NotBegunSince(h, from) && TellsStatus(StatusAfter(h), snap)
    ensures !snap.consuming && 0 < snap.notConsumingSince <= from
  {
    SinceIsOld(h, now, from);
  }

  /**
   And conversely: a consumer that had begun, had no live subscription and was not begun
   again at any moment of the window, on a connection as old as the window that passes the
   guard, not stopped and not refused, is declared Stalled. Nothing hides it.
   */
  lemma IdleIsStalled(h: ConsumerHistory, c: ConnHistory, snap: Snapshot, policy: Policy, now: nat, from: int)
    requires Ordered(h, now) && TellsStatus(StatusAfter(h), snap)
    requires from == now - WithDefaults(policy).stallAfter && from >= 0
    requires IdleSince(h, from) && NotBegunSince(h, from) && StateAfter(c).connectedAt <= from
    requires !StatusAfter(h).stopped && !Refusal(snap.lastSubscribeErrorCode) && !StateAfter(c).gaveUp
    requires ConnectionTrusted(StateAfter(c), WithDefaults(policy).minConnectionAge, now)
    ensures Assess(snap, StateAfter(c), policy, now) == Stalled
  {
    IdleSnapshot(h, snap, now, from);
    StalledBySnapshot(snap, StateAfter(c), policy, now);
  }

  // ---- the consumer's own state ---------------------------------------------------------------------

  function ActiveIn(subs: map<nat, Subscription>, ids: set<nat>): set<nat>
    requires ids <= subs.Keys
  {
    set id | id in ids && subs[id].active
  }

  function FailingIn(subs: map<nat, Subscription>, ids: set<nat>): set<nat>
    requires ids <= subs.Keys
  {
    set id | id in ids && subs[id].failures >= RESUBSCRIBE_FAILURE_LIMIT
  }

  /** The counters after visiting the subscriptions in `ids`. */
  ghost predicate Tally(subs: map<nat, Subscription>, ids: set<nat>, open: set<nat>, out: Snapshot, codeAt: nat) {
    && ids <= subs.Keys
    && TallyCounts(subs, ids, out)
    && TallyFlags(subs, ids, open, out)
    && CodeOk(subs, ids, out.lastSubscribeErrorCode, codeAt)
  }

  ghost predicate TallyCounts(subs: map<nat, Subscription>, ids: set<nat>, out: Snapshot)
    requires ids <= subs.Keys
  {
    && out.activeSubscriptions == |ActiveIn(subs, ids)|
    && out.failingSubscriptions == |FailingIn(subs, ids)|
    && IsMostFailures(subs, ids, out.resubscribeFailures)
  }

  ghost predicate IsMostFailures(subs: map<nat, Subscription>, ids: set<nat>, most: nat)
    requires ids <= subs.Keys
  {
    && (forall id | id in ids :: subs[id].failures <= most)
    && (most == 0 || exists id :: id in ids && subs[id].failures == most)
  }

  ghost predicate TallyFlags(subs: map<nat, Subscription>, ids: set<nat>, open: set<nat>, out: Snapshot)
    requires ids <= subs.Keys
  {
    && out.consuming == (exists id :: id in ids && subs[id].active)
    && out.channelOpen == (exists id :: id in ids && subs[id].active && subs[id].ch in open)
    && out.cancelledByBroker == (exists id :: id in ids && subs[id].cancelled)
  }

  /** One subscription more. */
  function Visit(s: Subscription, open: set<nat>, out: Snapshot, codeAt: nat): (Snapshot, nat) {
    var later := s.errAt != 0 && s.errAt >= codeAt;
    (out.(lastSubscribeErrorCode := if later then s.errCode else out.lastSubscribeErrorCode,
          resubscribeFailures := if s.failures > out.resubscribeFailures then s.failures else out.resubscribeFailures,
          failingSubscriptions := out.failingSubscriptions + (if s.failures >= RESUBSCRIBE_FAILURE_LIMIT then 1 else 0),
          consuming := out.consuming || s.active,
          activeSubscriptions := out.activeSubscriptions + (if s.active then 1 else 0),
          channelOpen := out.channelOpen || (s.active && s.ch in open),
          cancelledByBroker := out.cancelledByBroker || s.cancelled),
     if later then s.errAt else codeAt)
  }

  lemma ActiveStep(subs: map<nat, Subscription>, ids: set<nat>, id: nat)
    requires ids <= subs.Keys && id in subs && id !in ids
    ensures |ActiveIn(subs, ids + {id})| == |ActiveIn(subs, ids)| + if subs[id].active then 1 else 0
  {
    if subs[id].active {
      assert ActiveIn(subs, ids + {id}) == ActiveIn(subs, ids) + {id};
    } else {
      assert ActiveIn(subs, ids + {id}) == ActiveIn(subs, ids);
    }
  }

  lemma FailingStep(subs: map<nat, Subscription>, ids: set<nat>, id: nat)
    requires ids <= subs.Keys && id in subs && id !in ids
    ensures |FailingIn(subs, ids + {id})| == |FailingIn(subs, ids)| + if subs[id].failures >= RESUBSCRIBE_FAILURE_LIMIT then 1 else 0
  {
    if subs[id].failures >= RESUBSCRIBE_FAILURE_LIMIT {
      assert FailingIn(subs, ids + {id}) == FailingIn(subs, ids) + {id};
    } else {
      assert FailingIn(subs, ids + {id}) == FailingIn(subs, ids);
    }
  }

  lemma CountsStep(subs: map<nat, Subscription>, ids: set<nat>, open: set<nat>, out: Snapshot, codeAt: nat, id: nat)
    requires ids <= subs.Keys && TallyCounts(subs, ids, out) && id in subs && id !in ids
    ensures TallyCounts(subs, ids + {id}, Visit(subs[id], open, out, codeAt).0)
  {
    ActiveStep(subs, ids, id);
    FailingStep(subs, ids, id);
  }

  lemma TallyStep(subs: map<nat, Subscription>, ids: set<nat>, open: set<nat>, out: Snapshot, codeAt: nat, id: nat)
    requires Tally(subs, ids, open, out, codeAt) && id in subs && id !in ids
    ensures var (out', codeAt') := Visit(subs[id], open, out, codeAt); Tally(subs, ids + {id}, open, out', codeAt')
  {
    CountsStep(subs, ids, open, out, codeAt, id);
  }

  /** One turn of Health's loop. */
  method VisitOne(s: Subscription, open: set<nat>, before: Snapshot, codeBefore: nat) returns (out: Snapshot, codeAt: nat)
    ensures (out, codeAt) == Visit(s, open, before, codeBefore)
  {
    out, codeAt := before, codeBefore;
    if s.errAt != 0 && s.errAt >= codeAt {
      codeAt := s.errAt;
      out := out.(lastSubscribeErrorCode := s.errCode);
    }
    if s.failures > out.resubscribeFailures {
      out := out.(resubscribeFailures := s.failures);
    }
    if s.failures >= RESUBSCRIBE_FAILURE_LIMIT {
      out := out.(failingSubscriptions := out.failingSubscriptions + 1);
    }
    if s.active {
      out := out.(consuming := true, activeSubscriptions := out.activeSubscriptions + 1);
      if s.ch in open {
        out := out.(channelOpen := true);
      }
    }
    if s.cancelled {
      out := out.(cancelledByBroker := true);
    }
  }

  lemma TallyIsFaithful(s: Status, open: set<nat>, out: Snapshot, codeAt: nat)
    requires Tally(s.subs, s.subs.Keys, open, out, codeAt) && out.stopped == s.stopped && out.notConsumingSince == s.since
    ensures Faithful(s, open, out)
  {
    assert CodeOk(s.subs, s.subs.Keys, out.lastSubscribeErrorCode, codeAt);
  }

  // ---- stale cancels, over a history ------------------------------------------------------------------

  lemma AlikeRefresh(s: Status, s': Status, now: nat)
    requires Alike(s, s')
    ensures Alike(Refresh(s, now), Refresh(s', now))
  {
    AlikeAnyActive(s, s');
  }

  /** The records an event writes are alike afterwards if they were before. */
  lemma AlikeWrite(s: Status, s': Status, id: nat, sub: Subscription, subAt: nat, lastErrorAt: nat)
    requires Alike(s, s')
    ensures Alike(s.(subs := s.subs[id := sub], subAt := subAt, lastErrorAt := lastErrorAt),
                  s'.(subs := s'.subs[id := sub], subAt := subAt, lastErrorAt := lastErrorAt))
  {
    var subs, subs' := s.subs[id := sub], s'.subs[id := sub];
    forall k: nat ensures Sub(subs', k) == Sub(subs, k) {
      assert Sub(s'.subs, k) == Sub(s.subs, k);
    }
  }

  lemma AlikeDeactivate(s: Status, s': Status, clean: bool)
    requires Alike(s, s')
    ensures Alike(s.(stopped := clean, subs := Deactivate(s.subs)), s'.(stopped := clean, subs := Deactivate(s'.subs)))
  {
    forall k: nat ensures Sub(Deactivate(s'.subs), k) == Sub(Deactivate(s.subs), k) {
      assert Sub(s'.subs, k) == Sub(s.subs, k);
    }
  }

  lemma AlikeNote(s: Status, s': Status, e: ConsumerEvent, now: nat)
    requires Alike(s, s')
    ensures Alike(Note(s, e, now), Note(s', e, now))
  {
    match e
    case Begun =>
    case Ended(clean) =>
      AlikeDeactivate(s, s', clean);
      AlikeRefresh(s.(stopped := clean, subs := Deactivate(s.subs)), s'.(stopped := clean, subs := Deactivate(s'.subs)), now);
    case Subscribed(id, ch) =>
      var sub, at := Subscription(ch, true, false, 0, 0, 0), if s.subAt == 0 then now else s.subAt;
      AlikeWrite(s, s', id, sub, at, s.lastErrorAt);
      AlikeRefresh(s.(subs := s.subs[id := sub], subAt := at), s'.(subs := s'.subs[id := sub], subAt := at), now);
    case Closed(id) =>
      var sub := Sub(s.subs, id).(active := false);
      AlikeWrite(s, s', id, sub, 0, s.lastErrorAt);
      AlikeRefresh(s.(subs := s.subs[id := sub], subAt := 0), s'.(subs := s'.subs[id := sub], subAt := 0), now);
    case Cancelled(id, ch) =>
      var sub := Sub(s.subs, id);
      var sub' := sub.(active := false, cancelled := true);
      AlikeWrite(s, s', id, sub, s.subAt, s.lastErrorAt);
      AlikeWrite(s, s', id, sub', 0, s.lastErrorAt);
      AlikeRefresh(s.(subs := s.subs[id := sub'], subAt := 0), s'.(subs := s'.subs[id := sub'], subAt := 0), now);
    case Failed(id, code) =>
      var sub := Sub(s.subs, id);
      var sub' := sub.(active := false, failures := sub.failures + 1, errCode := code, errAt := now);
      AlikeWrite(s, s', id, sub', s.subAt, now);
      AlikeRefresh(s.(subs := s.subs[id := sub'], lastErrorAt := now), s'.(subs := s'.subs[id := sub'], lastErrorAt := now), now);
  }

  /** Event i is a cancel read on a channel its subscription no longer used. */
  predicate IsStaleCancel(h: ConsumerHistory, i: nat) {
    i < |h| && h[i].event.Cancelled? && Sub(StatusAfter(h[..i]).subs, h[i].event.id).ch != h[i].event.ch
  }

  function Without(h: ConsumerHistory, i: nat): ConsumerHistory
    requires i < |h|
  {
    h[..i] + h[i + 1..]
  }

  lemma LastStep(h: ConsumerHistory, last: Stamped<ConsumerEvent>)
    ensures StatusAfter(h + [last]) == Note(StatusAfter(h), last.event, last.at)
  {
    assert (h + [last])[..|h|] == h;
  }

  lemma AlikeStep(h: ConsumerHistory, h': ConsumerHistory, next: Stamped<ConsumerEvent>)
    requires Alike(StatusAfter(h), StatusAfter(h'))
    ensures Alike(StatusAfter(h + [next]), StatusAfter(h' + [next]))
  {
    AlikeNote(StatusAfter(h), StatusAfter(h'), next.event, next.at);
    LastStep(h, next);
    LastStep(h', next);
  }

  /** What happens afterwards keeps alike states alike. */
  lemma {:induction false} AlikeAfter(h: ConsumerHistory, h': ConsumerHistory, more: ConsumerHistory)
    requires Alike(StatusAfter(h), StatusAfter(h'))
    ensures Alike(StatusAfter(h + more), StatusAfter(h' + more))
    decreases |more|
  {
    if more == [] {
      assert h + more == h && h' + more == h';
    } else {
      var h1, h1', rest := h + [more[0]], h' + [more[0]], more[1..];
      assert h + more == h1 + rest && h' + more == h1' + rest;
      AlikeStep(h, h', more[0]);
      AlikeAfter(h1, h1', rest);
    }
  }

  lemma AlikeWithout(h: ConsumerHistory, i: nat)
    requires IsStaleCancel(h, i)
    ensures Alike(StatusAfter(Without(h, i)), StatusAfter(h))
  {
    StatusStep(h, i);
    StaleCancel(StatusAfter(h[..i]), h[i].event.id, h[i].event.ch, h[i].at);
    AlikeAfter(h[..i], h[..i + 1], h[i + 1..]);
    assert h[..i + 1] + h[i + 1..] == h;
  }

  lemma AlikeSets(s: Status, s': Status)
    requires Alike(s, s')
    ensures ActiveIn(s'.subs, s'.subs.Keys) == ActiveIn(s.subs, s.subs.Keys)
    ensures FailingIn(s'.subs, s'.subs.Keys) == FailingIn(s.subs, s.subs.Keys)
  {
    forall id: nat ensures id in ActiveIn(s'.subs, s'.subs.Keys) <==> id in ActiveIn(s.subs, s.subs.Keys) {
      assert Sub(s'.subs, id) == Sub(s.subs, id);
    }
    forall id: nat ensures id in FailingIn(s'.subs, s'.subs.Keys) <==> id in FailingIn(s.subs, s.subs.Keys) {
      assert Sub(s'.subs, id) == Sub(s.subs, id);
    }
  }

  lemma AlikeFlags(s: Status, s': Status, open: set<nat>)
    requires Alike(s, s')
    ensures (exists id :: id in s.subs && s.subs[id].active && s.subs[id].ch in open) ==>
              exists id :: id in s'.subs && s'.subs[id].active && s'.subs[id].ch in open
    ensures (exists id :: id in s.subs && s.subs[id].cancelled) ==> exists id :: id in s'.subs && s'.subs[id].cancelled
  {
    if id :| id in s.subs && s.subs[id].active && s.subs[id].ch in open { assert Sub(s'.subs, id) == Sub(s.subs, id); }
    if id :| id in s.subs && s.subs[id].cancelled { assert Sub(s'.subs, id) == Sub(s.subs, id); }
  }

  lemma AlikeNumbers(s: Status, s': Status, most: nat, code: nat, at: nat)
    requires Alike(s, s')
    ensures IsMostFailures(s.subs, s.subs.Keys, most) ==> IsMostFailures(s'.subs, s'.subs.Keys, most)
    ensures CodeOk(s.subs, s.subs.Keys, code, at) ==> CodeOk(s'.subs, s'.subs.Keys, code, at)
  {
    forall id | id in s'.subs.Keys ensures s'.subs[id] == Sub(s.subs, id) {
      assert Sub(s'.subs, id) == Sub(s.subs, id);
    }
    if IsMostFailures(s.subs, s.subs.Keys, most) && most > 0 {
      var id :| id in s.subs && s.subs[id].failures == most;
      assert Sub(s'.subs, id) == Sub(s.subs, id);
    }
    if id :| id in s.subs && s.subs[id].errAt > 0 { assert Sub(s'.subs, id) == Sub(s.subs, id); }
    if CodeOk(s.subs, s.subs.Keys, code, at) && at > 0 {
      var id :| id in s.subs && s.subs[id].errAt == at && s.subs[id].errCode == code;
      assert Sub(s'.subs, id) == Sub(s.subs, id);
    }
  }

  /** Alike states have the same snapshots, and so the same verdicts. */
  lemma AlikeFaithful(s: Status, s': Status, open: set<nat>, snap: Snapshot)
    requires Alike(s, s') && Faithful(s, open, snap)
    ensures Faithful(s', open, snap)
  {
    AlikeAnyActive(s, s');
    AlikeSets(s, s');
    AlikeFlags(s, s', open);
    AlikeFlags(s', s, open);
    var at :| CodeOk(s.subs, s.subs.Keys, snap.lastSubscribeErrorCode, at);
    AlikeNumbers(s, s', snap.resubscribeFailures, snap.lastSubscribeErrorCode, at);
  }

  /** Dropping a stale cancel from any history changes no snapshot that can be taken at its end, and so no verdict. */
  lemma StaleCancelChangesNothing(h: ConsumerHistory, i: nat, open: set<nat>, snap: Snapshot)
    requires IsStaleCancel(h, i)
    ensures Faithful(StatusAfter(h), open, snap) <==> Faithful(StatusAfter(Without(h, i)), open, snap)
  {
    var s, s' := StatusAfter(h), StatusAfter(Without(h, i));
    AlikeWithout(h, i);
    assert Alike(s, s') by {
      forall id: nat ensures Sub(s'.subs, id) == Sub(s.subs, id) {
      }
    }
    if Faithful(s, open, snap) { AlikeFaithful(s, s', open, snap); }
    if Faithful(s', open, snap) { AlikeFaithful(s', s, open, snap); }
  }

  class HealthRecord {
    var begun: bool
    var stopped: bool
    var subs: map<nat, Subscription>
    var since: nat
    var subAt: nat
    var lastErrorAt: nat

    function View(): Status
      reads this
    {
      Status(begun, stopped, subs, since, subAt, lastErrorAt)
    }

    constructor ()
      ensures View() == FRESH
    {
      begun, stopped, subs, since, subAt, lastErrorAt := false, false, map[], 0, 0, 0;
    }

    method AnyActiveLocked() returns (any: bool)
      ensures any == AnyActive(subs)
    {
      var left := subs.Keys;
      while left != {}
        invariant left <= subs.Keys
        invariant forall id | id in subs && id !in left :: !subs[id].active
      {
        var id :| id in left;
        if subs[id].active {
          return true;
        }
        left := left - {id};
      }
      any := false;
    }

    method RefreshSinceLocked(now: nat)
      modifies this`since
      ensures View() == Refresh(old(View()), now)
    {
      var any := AnyActiveLocked();
      if any {
        since := 0;
      } else if since == 0 {
        since := now;
      }
    }

    /** The subscription's record, made if there was none. */
    method SubFor(id: nat) returns (s: Subscription)
      modifies this`subs
      ensures s == Sub(old(subs), id) && subs == old(subs)[id := s]
    {
      if id !in subs {
        subs := subs[id := NO_SUBSCRIPTION];
      }
      s := subs[id];
    }

    method Begin(now: nat)
      modifies this
      ensures View() == Note(old(View()), Begun, now)
    {
      begun, stopped, subs, subAt, since := true, false, map[], 0, now;
    }

    method End(clean: bool, now: nat)
      modifies this
      ensures View() == Note(old(View()), Ended(clean), now)
    {
      stopped := clean;
      var left := subs.Keys;
      while left != {}
        invariant left <= subs.Keys == old(subs.Keys)
        invariant View() == old(View()).(stopped := clean, subs := subs)
        invariant forall id | id in subs :: subs[id] == if id in left then old(subs)[id] else old(subs)[id].(active := false)
      {
        var id :| id in left;
        subs := subs[id := subs[id].(active := false)];
        left := left - {id};
      }
      assert subs == Deactivate(old(subs));
      RefreshSinceLocked(now);
    }

    method Subscribed(id: nat, ch: nat, now: nat)
      modifies this
      ensures View() == Note(old(View()), ConsumerEvent.Subscribed(id, ch), now)
    {
      var s := SubFor(id);
      subs := subs[id := s.(ch := ch, active := true, cancelled := false, failures := 0, errCode := 0, errAt := 0)];
      if subAt == 0 {
        subAt := now;
      }
      assert subs == old(subs)[id := Subscription(ch, true, false, 0, 0, 0)];
      RefreshSinceLocked(now);
    }

    method Closed(id: nat, now: nat)
      modifies this
      ensures View() == Note(old(View()), ConsumerEvent.Closed(id), now)
    {
      var s := SubFor(id);
      subs := subs[id := s.(active := false)];
      subAt := 0;
      assert subs == old(subs)[id := s.(active := false)];
      RefreshSinceLocked(now);
    }

    /** A cancel read on ch; one from a channel the subscription no longer uses is ignored. */
    method CancelledByBroker(id: nat, ch: nat, now: nat)
      modifies this
      ensures View() == Note(old(View()), Cancelled(id, ch), now)
    {
      var s := SubFor(id);
      if s.ch != ch {
        return;
      }
      subs := subs[id := s.(active := false, cancelled := true)];
      subAt := 0;
      assert subs == old(subs)[id := s.(active := false, cancelled := true)];
      RefreshSinceLocked(now);
    }

    method Failed(id: nat, code: nat, now: nat)
      modifies this
      ensures View() == Note(old(View()), ConsumerEvent.Failed(id, code), now)
    {
      var s := SubFor(id);
      var s' := s.(active := false, failures := s.failures + 1, errCode := code, errAt := now);
      subs := subs[id := s'];
      lastErrorAt := now;
      assert subs == old(subs)[id := s'];
      RefreshSinceLocked(now);
    }

    /** Health: one pass over the subscriptions, in whatever order the map yields them. */
    method Health(open: set<nat>) returns (out: Snapshot)
      ensures Faithful(View(), open, out)
    {
      out := Snapshot(stopped, false, 0, false, false, since, 0, 0, 0);
      var left, codeAt := subs.Keys, 0;
      assert Tally(subs, {}, open, out, codeAt);
      while left != {}
        invariant left <= subs.Keys
        invariant Tally(subs, subs.Keys - left, open, out, codeAt)
        invariant out.stopped == stopped && out.notConsumingSince == since
      {
        var id :| id in left;
        TallyStep(subs, subs.Keys - left, open, out, codeAt, id);
        out, codeAt := VisitOne(subs[id], open, out, codeAt);
        assert subs.Keys - (left - {id}) == (subs.Keys - left) + {id};
        left := left - {id};
      }
      assert subs.Keys - left == subs.Keys;
      TallyIsFaithful(View(), open, out, codeAt);
    }
  }
}
