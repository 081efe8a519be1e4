/**
 Times, and what can be read off a record of timed events about a whole window of time.
 Times are nanoseconds; 0 stands for the zero time, "never".
 */
module Timeline {
  const SECOND: nat := 1_000_000_000
  const MINUTE: nat := 60 * SECOND

  datatype Stamped<E> = Stamped(at: nat, event: E)

  /** Events in the order they happened, none after `now`; several may share a time. */
  predicate Ordered<E>(events: seq<Stamped<E>>, now: nat) {
    && (forall i | 0 <= i < |events| :: 0 < events[i].at <= now)
    && (forall i, j | 0 <= i < j < |events| :: events[i].at <= events[j].at)
  }

  /** The state after the first i events was in force at some moment later than `from`. */
  predicate InForce<E>(events: seq<Stamped<E>>, i: nat, from: int) {
    i == |events| || (i < |events| && events[i].at > from)
  }

  /** latestOf: the latest of its arguments. */
  method LatestOf(times: seq<nat>) returns (latest: nat)
    ensures latest == Latest(times)
  {
    latest := 0;
    var i := 0;
    while i < |times|
      invariant 0 <= i <= |times|
      invariant latest == Latest(times[..i])
    {
      assert times[..i + 1] == times[..i] + [times[i]];
      if times[i] > latest {
        latest := times[i];
      }
      i := i + 1;
    }
    assert times[..i] == times;
  }

  function Latest(times: seq<nat>): (latest: nat)
    ensures forall t | t in times :: t <= latest
    ensures times != [] ==> latest in times
  {
    if times == [] then 0
    else
      var before := Latest(times[..|times| - 1]);
      assert times == times[..|times| - 1] + [times[|times| - 1]];
      if times[|times| - 1] > before then times[|times| - 1] else before
  }
}

/** The client's view of its connection: markConnected, its two watchers, and handleReconnection. */
module Connection {
  import opened Timeline

  /** `conn` is the connection the state describes, 0 before there ever was one. */
  datatype ClientState = ClientState(
    conn: nat, connected: bool, reconnecting: bool, connectedAt: nat, lastDisconnectAt: nat, reconnects: nat,
    blocked: bool, blockedReason: string, blockedAt: nat, unblockedAt: nat,
    gaveUp: bool, gaveUpAt: nat, lastError: string)

  const NEVER_CONNECTED := ClientState(0, false, false, 0, 0, 0, false, "", 0, 0, false, 0, "")

  datatype ConnEvent =
    | Connected(conn: nat)
    | Blocking(conn: nat, active: bool, reason: string)
    | Lost(conn: nat, reason: string)      // an empty reason: closed without an error
    | DialFailed(reason: string)
    | SetReconnecting(v: bool)
    | Exhausted                            // MaxReconnectAttempts reached
    | Reconnected

  type ConnHistory = seq<Stamped<ConnEvent>>

  /** What one event does to the state. */
  function Apply(s: ClientState, e: ConnEvent, now: nat): ClientState {
    match e
    case Connected(conn) => s.(conn := conn, connected := true, connectedAt := now, blocked := false, gaveUp := false, gaveUpAt := 0)
    case Blocking(conn, active, reason) =>
      if s.conn != conn then s
      else if active then s.(blocked := true, blockedReason := reason, blockedAt := now)
      else s.(blocked := false, unblockedAt := now)
    case Lost(conn, reason) =>
      if s.conn != conn then s
      else s.(connected := false, blocked := false, lastDisconnectAt := now, lastError := if reason == "" then s.lastError else reason)
    case DialFailed(reason) => s.(lastError := reason)
    case SetReconnecting(v) => s.(reconnecting := v)
    case Exhausted => if s.gaveUp then s else s.(gaveUp := true, gaveUpAt := now)
    case Reconnected => s.(reconnects := s.reconnects + 1)
  }

  function StateAfter(h: ConnHistory): ClientState {
    if h == [] then NEVER_CONNECTED
    else Apply(StateAfter(h[..|h| - 1]), h[|h| - 1].event, h[|h| - 1].at)
  }

  lemma StateStep(h: ConnHistory, i: nat)
    requires i < |h|
    ensures StateAfter(h[..i + 1]) == Apply(StateAfter(h[..i]), h[i].event, h[i].at)
  {
    assert h[..i + 1][..i] == h[..i];
  }

  // ---- the state tells the truth -----------------------------------------------------------

  /** Event j is the last connect. */
  predicate LastConnect(h: ConnHistory, j: nat) {
    j < |h| && h[j].event.Connected? && forall k | j < k < |h| :: !h[k].event.Connected?
  }

  /** Event j is the last connect, and its connection has not been lost. */
  predicate StillUp(h: ConnHistory, j: nat) {
    LastConnect(h, j) && forall k | j < k < |h| && h[k].event.Lost? :: h[k].event.conn != h[j].event.conn
  }

  /** The state describes the connection made last. */
  lemma {:induction false} DescribesLast(h: ConnHistory, j: nat)
    requires LastConnect(h, j)
    ensures StateAfter(h).conn == h[j].event.conn && StateAfter(h).connectedAt == h[j].at
  {
    var before := h[..|h| - 1];
    if j < |before| {
      assert before[j] == h[j];
      DescribesLast(before, j);
    }
  }

  /**
   The client counts as connected exactly while the connection it made last has not been
   lost: what the watchers of earlier connections report changes nothing.
   */
  lemma {:induction false} ConnectedExactly(h: ConnHistory, j: nat)
    requires LastConnect(h, j)
    ensures StateAfter(h).connected <==> StillUp(h, j)
  {
    if j < |h| - 1 {
      var before := h[..|h| - 1];
      ConnectedExactly(before, j);
      DescribesLast(before, j);
    }
  }

  /** The broker has blocked connection `conn` by event k, and has neither unblocked nor lost it since. */
  predicate StillBlocked(h: ConnHistory, conn: nat, k: nat) {
    && k < |h| && h[k].event.Blocking? && h[k].event.conn == conn && h[k].event.active
    && forall i | k < i < |h| :: !(h[i].event.Blocking? && h[i].event.conn == conn && !h[i].event.active)
                                 && !(h[i].event.Lost? && h[i].event.conn == conn)
  }

  /** The client counts as blocked exactly while the broker blocks the connection made last. */
  lemma {:induction false} BlockedExactly(h: ConnHistory, j: nat)
    requires LastConnect(h, j)
    ensures StateAfter(h).blocked <==> exists k: nat :: j < k && StillBlocked(h, h[j].event.conn, k)
  {
    var n: nat := |h| - 1;
    if j < n {
      var before, conn := h[..n], h[j].event.conn;
      assert forall i | 0 <= i < n :: before[i] == h[i];
      BlockedExactly(before, j);
      DescribesLast(before, j);
      if StateAfter(h).blocked {
        if h[n].event.Blocking? && h[n].event.conn == conn {
          assert StillBlocked(h, conn, n);
        } else {
          var k: nat :| j < k && StillBlocked(before, conn, k);
          assert StillBlocked(h, conn, k);
        }
      }
      if k: nat :| j < k && StillBlocked(h, conn, k) {
        if k < n { assert StillBlocked(before, conn, k); }
      }
    }
  }

  /** The client has given up exactly if it ran out of attempts and has not connected since. */
  lemma {:induction false} GaveUpExactly(h: ConnHistory)
    ensures StateAfter(h).gaveUp <==> exists k :: 0 <= k < |h| && h[k].event.Exhausted? && forall i | k < i < |h| :: !h[i].event.Connected?
  {
    if h != [] {
      var before := h[..|h| - 1];
      assert forall i | 0 <= i < |before| :: before[i] == h[i];
      GaveUpExactly(before);
      if h[|h| - 1].event.Exhausted? { assert h[|h| - 1].event.Exhausted?; }
    }
  }

  /** It counts as reconnecting exactly if that was said last. */
  lemma {:induction false} ReconnectingExactly(h: ConnHistory)
    ensures StateAfter(h).reconnecting <==>
            exists k :: 0 <= k < |h| && h[k].event == SetReconnecting(true) && forall i | k < i < |h| :: !h[i].event.SetReconnecting?
  {
    if h != [] {
      var before := h[..|h| - 1];
      assert forall i | 0 <= i < |before| :: before[i] == h[i];
      ReconnectingExactly(before);
      if h[|h| - 1].event == SetReconnecting(true) { assert h[|h| - 1].event == SetReconnecting(true); }
    }
  }

  // ---- what a snapshot says about the time before it ------------------------------------------

  /** An event that leaves the client connected since before it, found it so. */
  lemma UpBefore(s: ClientState, e: ConnEvent, now: nat)
    requires Apply(s, e, now).connected && Apply(s, e, now).connectedAt < now
    ensures s.connected && s.conn == Apply(s, e, now).conn && s.connectedAt == Apply(s, e, now).connectedAt
  {
  }

  /** And one that leaves it unblocked, and last unblocked before it, found it unblocked. */
  lemma UnblockedBefore(s: ClientState, e: ConnEvent, now: nat)
    requires Apply(s, e, now).connected && Apply(s, e, now).connectedAt < now
    requires !Apply(s, e, now).blocked && Apply(s, e, now).unblockedAt < now
    ensures !s.blocked && s.unblockedAt == Apply(s, e, now).unblockedAt
  {
  }

  /**
   A client that is connected, since no later than `from`, was on this same connection at
   every moment after `from`.
   */
  lemma {:induction false} UpThroughout(h: ConnHistory, now: nat, from: int, i: nat)
    requires Ordered(h, now) && InForce(h, i, from)
    requires StateAfter(h).connected && StateAfter(h).connectedAt <= from
    ensures i <= |h|
    ensures var s := StateAfter(h[..i]); s.connected && s.conn == StateAfter(h).conn && s.connectedAt == StateAfter(h).connectedAt
    decreases |h| - i
  {
    if i == |h| {
      assert h[..i] == h;
    } else {
      UpThroughout(h, now, from, i + 1);
      StateStep(h, i);
      UpBefore(StateAfter(h[..i]), h[i].event, h[i].at);
    }
  }

  /** And if, besides, it was last unblocked no later than `from` and is not blocked, it was blocked at no moment after `from`. */
  lemma {:induction false} UnblockedThroughout(h: ConnHistory, now: nat, from: int, i: nat)
    requires Ordered(h, now) && InForce(h, i, from)
    requires StateAfter(h).connected && StateAfter(h).connectedAt <= from
    requires !StateAfter(h).blocked && StateAfter(h).unblockedAt <= from
    ensures i <= |h|
    ensures !StateAfter(h[..i]).blocked && StateAfter(h[..i]).unblockedAt == StateAfter(h).unblockedAt
    decreases |h| - i
  {
    if i == |h| {
      assert h[..i] == h;
    } else {
      UnblockedThroughout(h, now, from, i + 1);
      UpThroughout(h, now, from, i + 1);
      StateStep(h, i);
      UnblockedBefore(StateAfter(h[..i]), h[i].event, h[i].at);
    }
  }

  /** The cap on reconnect attempts is only ever reached while disconnected. */
  predicate ExhaustedWhileDown(h: ConnHistory) {
    forall i | 0 <= i < |h| && h[i].event.Exhausted? :: !StateAfter(h[..i]).connected
  }

  lemma ExhaustedPrefix(h: ConnHistory)
    requires h != [] && ExhaustedWhileDown(h)
    ensures ExhaustedWhileDown(h[..|h| - 1])
  {
    var before := h[..|h| - 1];
    forall i | 0 <= i < |before| && before[i].event.Exhausted? ensures !StateAfter(before[..i]).connected {
      assert before[..i] == h[..i] && h[i] == before[i];
    }
  }

  /** Having given up then means being disconnected. */
  lemma {:induction false} GaveUpMeansDown(h: ConnHistory)
    requires ExhaustedWhileDown(h)
    ensures StateAfter(h).gaveUp ==> !StateAfter(h).connected
  {
    if h != [] {
      ExhaustedPrefix(h);
      GaveUpMeansDown(h[..|h| - 1]);
    }
  }

  // ---- the client itself ------------------------------------------------------------------------

  /** What one turn of the reconnect loop meets. */
  datatype Dial = Dial(closedBefore: bool, closedWaiting: bool, conn: nat, ok: bool, reason: string, at: nat)

  class Client {
    const maxReconnectAttempts: nat
    var stateConn: nat
    var state: ClientState

    constructor (maxReconnectAttempts: nat)
      ensures this.maxReconnectAttempts == maxReconnectAttempts && Valid() && state == NEVER_CONNECTED
    {
      this.maxReconnectAttempts := maxReconnectAttempts;
      stateConn, state := 0, NEVER_CONNECTED;
    }

    predicate Valid()
      reads this
    {
      state.conn == stateConn
    }

    method MarkConnected(conn: nat, now: nat)
      requires Valid()
      modifies this
      ensures Valid() && state == Apply(old(state), Connected(conn), now)
    {
      state := state.(connected := true, connectedAt := now, blocked := false, gaveUp := false, gaveUpAt := 0);
      stateConn := conn;
      state := state.(conn := conn);
    }

    /** The watcher of `conn` for blocked and unblocked notifications. */
    method OnBlocking(conn: nat, active: bool, reason: string, now: nat)
      requires Valid()
      modifies this
      ensures Valid() && state == Apply(old(state), Blocking(conn, active, reason), now)
    {
      if stateConn == conn {
        if active {
          state := state.(blocked := true, blockedReason := reason, blockedAt := now);
        } else {
          state := state.(blocked := false, unblockedAt := now);
        }
      }
    }

    /** The watcher of `conn` for its closure. */
    method OnClose(conn: nat, reason: string, now: nat)
      requires Valid()
      modifies this
      ensures Valid() && state == Apply(old(state), Lost(conn, reason), now)
    {
      if stateConn != conn {
        return;
      }
      state := state.(connected := false, blocked := false, lastDisconnectAt := now);
      if reason != "" {
        state := state.(lastError := reason);
      }
    }

    /**
     handleReconnection: dial until one succeeds, the cap is reached or the client closes.
     It never dials more often than the cap, reports having given up only at the cap, and
     always leaves the reconnecting flag down.
     */
    method HandleReconnection(dials: seq<Dial>, gaveUpNow: nat) returns (attempts: nat, connected: bool)
      requires Valid()
      modifies this
      ensures Valid() && !state.reconnecting
      ensures attempts <= |dials| && (maxReconnectAttempts > 0 ==> attempts <= maxReconnectAttempts)
      ensures connected ==>
                && attempts > 0 && dials[attempts - 1].ok
                && (forall k | 0 <= k < attempts - 1 :: !dials[k].ok)
                && state.connected && state.conn == dials[attempts - 1].conn && state.connectedAt == dials[attempts - 1].at
                && !state.gaveUp && state.reconnects == old(state.reconnects) + 1
      ensures !connected ==>
                && (forall k | 0 <= k < attempts :: !dials[k].ok)
                && state == old(state).(reconnecting := false, lastError := state.lastError, gaveUp := state.gaveUp, gaveUpAt := state.gaveUpAt)
                && (state.gaveUp == (old(state.gaveUp) || (maxReconnectAttempts > 0 && attempts == maxReconnectAttempts
                                                           && (attempts == |dials| || !dials[attempts].closedBefore))))
                && (old(state.gaveUp) ==> state.gaveUpAt == old(state.gaveUpAt))
    {
      state := state.(reconnecting := true);
      attempts, connected := 0, false;
      while true
        invariant Valid() && attempts <= |dials| && !connected
        invariant maxReconnectAttempts > 0 ==> attempts <= maxReconnectAttempts
        invariant forall k | 0 <= k < attempts :: !dials[k].ok
        invariant state == old(state).(reconnecting := true, lastError := state.lastError)
        decreases |dials| - attempts
      {
        if attempts < |dials| && dials[attempts].closedBefore {
          break;
        }
        if maxReconnectAttempts > 0 && attempts >= maxReconnectAttempts {
          if !state.gaveUp {
            state := state.(gaveUp := true, gaveUpAt := gaveUpNow);
          }
          break;
        }
        if attempts == |dials| || dials[attempts].closedWaiting {
          break;
        }
        var dial := dials[attempts];
        attempts := attempts + 1;
        if dial.ok {
          MarkConnected(dial.conn, dial.at);
          state := state.(reconnects := state.reconnects + 1);
          connected := true;
          break;
        }
        state := state.(lastError := dial.reason);
      }
      state := state.(reconnecting := false);
    }
  }

  // ---- the guard every Stalled verdict passes --------------------------------------------------------

  const DEFAULT_MIN_CONNECTION_AGE: nat := 2 * MINUTE

  /** connectionTrusted. */
  predicate ConnectionTrusted(cs: ClientState, minAge: int, now: nat) {
    cs.connected && !cs.reconnecting && !cs.blocked && now as int - cs.connectedAt >= minAge
  }

  datatype HealthLevel = Ok | Degraded | Stalled

  /** The connection was healthy at every moment later than `from`: one connection, up and not blocked. */
  ghost predicate HealthySince(h: ConnHistory, from: int) {
    forall i: nat {:trigger InForce(h, i, from)} | InForce(h, i, from) ::
      i <= |h| && StateAfter(h[..i]).connected && StateAfter(h[..i]).conn == StateAfter(h).conn
  }

  ghost predicate UnblockedSince(h: ConnHistory, from: int) {
    forall i: nat {:trigger InForce(h, i, from)} | InForce(h, i, from) :: i <= |h| && !StateAfter(h[..i]).blocked
  }
}
