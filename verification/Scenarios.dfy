/**
 Runs that really happen. Each lemma takes a reachable state a few actions further;
 together they lead to states in which the publisher does not keep its promise, and so
 show that the conditions under which it does cannot be weakened.
 */
module Scenarios {
  import opened DeliveryKeys
  import opened PendingMap
  import opened DeliveryCore
  import opened DeliverySystem
  import opened CallerDiscipline

  /** Some execution in which exactly these calls are made leads to s; a run, if `meant`. */
  ghost predicate Reachable(cfg: Config, requests: seq<Request>, meant: bool, s: State) {
    exists run, acts :: LeadsTo(cfg, requests, meant, run, acts, s)
  }

  ghost predicate LeadsTo(cfg: Config, requests: seq<Request>, meant: bool, run: seq<State>, acts: seq<Action>, s: State) {
    && IsExecution(cfg, run, acts) && (meant ==> IsRun(cfg, run, acts))
    && Requests(acts) == requests && run[|run| - 1] == s
  }

  /** Action a leads from s to s'. */
  ghost predicate Leads(cfg: Config, meant: bool, s: State, a: Action, s': State) {
    Enabled(cfg, s, a) && WithinLimits(s, a) && (meant ==> ReturnsAreMeant(s, a)) && s' == Step(cfg, s, a)
  }

  /** The i-th action of an execution. */
  ghost predicate StepOk(cfg: Config, meant: bool, run: seq<State>, acts: seq<Action>, i: nat) {
    i < |acts| < |run| && Leads(cfg, meant, run[i], acts[i], run[i + 1])
  }

  lemma ExtendRun(cfg: Config, requests: seq<Request>, meant: bool, run: seq<State>, acts: seq<Action>, s: State, a: Action, s': State)
    requires LeadsTo(cfg, requests, meant, run, acts, s) && Leads(cfg, meant, s, a, s')
    ensures LeadsTo(cfg, requests + RequestsOf(a), meant, run + [s'], acts + [a], s')
  {
    var run', acts' := run + [s'], acts + [a];
    assert acts'[..|acts|] == acts;
    forall i: nat | i < |acts'| ensures StepOk(cfg, meant, run', acts', i) {
      if i < |acts| {
        assert acts'[i] == acts[i] && run'[i] == run[i] && run'[i + 1] == run[i + 1];
        assert StepOk(cfg, meant, run, acts, i);
      }
    }
    StepsAreExecution(cfg, meant, run', acts');
  }

  lemma StepsAreExecution(cfg: Config, meant: bool, run: seq<State>, acts: seq<Action>)
    requires |run| == |acts| + 1 && run[0] == Init() && forall i: nat | i < |acts| :: StepOk(cfg, meant, run, acts, i)
    ensures IsExecution(cfg, run, acts) && (meant ==> IsRun(cfg, run, acts))
  {
    forall i | 0 <= i < |acts|
      ensures Enabled(cfg, run[i], acts[i]) && WithinLimits(run[i], acts[i]) && run[i + 1] == Step(cfg, run[i], acts[i])
      ensures meant ==> ReturnsAreMeant(run[i], acts[i]) {
      assert StepOk(cfg, meant, run, acts, i);
    }
  }

  lemma Extend(cfg: Config, requests: seq<Request>, meant: bool, s: State, a: Action, s': State)
    requires Reachable(cfg, requests, meant, s) && Leads(cfg, meant, s, a, s')
    ensures Reachable(cfg, requests + RequestsOf(a), meant, s')
  {
    var run, acts :| LeadsTo(cfg, requests, meant, run, acts, s);
    ExtendRun(cfg, requests, meant, run, acts, s, a, s');
  }

  /** An action that is not a new call. */
  lemma Then(cfg: Config, requests: seq<Request>, meant: bool, s: State, a: Action, s': State)
    requires Reachable(cfg, requests, meant, s) && Leads(cfg, meant, s, a, s') && RequestsOf(a) == []
    ensures Reachable(cfg, requests, meant, s')
  {
    Extend(cfg, requests, meant, s, a, s');
    assert requests + [] == requests;
  }

  lemma Publish(cfg: Config, requests: seq<Request>, meant: bool, s: State, a: PublishAction, s': State)
    requires Reachable(cfg, requests, meant, s) && WellFormed(s)
    requires PublishEnabled(cfg, s, a) && !a.NewCall? && s' == PublishStep(cfg, s, a)
    requires a.RegisterAttempt? ==> WithinLimits(s, Publishing(a))
    ensures Reachable(cfg, requests, meant, s')
  {
    Then(cfg, requests, meant, s, Publishing(a), s');
  }

  lemma Broke(cfg: Config, requests: seq<Request>, meant: bool, s: State, a: BrokerAction, s': State)
    requires Reachable(cfg, requests, meant, s) && WellFormed(s) && BrokerEnabled(s, a) && s' == BrokerStep(cfg, s, a)
    requires meant ==> !a.ReadReturn?
    ensures Reachable(cfg, requests, meant, s')
  {
    Then(cfg, requests, meant, s, Broker(a), s');
  }

  lemma Time(cfg: Config, requests: seq<Request>, meant: bool, s: State, a: TimerAction, s': State)
    requires Reachable(cfg, requests, meant, s) && WellFormed(s) && TimerEnabled(s, a) && s' == TimerStep(cfg, s, a)
    ensures Reachable(cfg, requests, meant, s')
  {
    Then(cfg, requests, meant, s, Timers(a), s');
  }

  lemma Finish(cfg: Config, requests: seq<Request>, meant: bool, s: State, a: FinishAction, s': State)
    requires Reachable(cfg, requests, meant, s) && WellFormed(s) && FinishEnabled(s, a) && s' == FinishStep(cfg, s, a)
    ensures Reachable(cfg, requests, meant, s')
  {
    Then(cfg, requests, meant, s, Finishing(a), s');
  }

  // ---- the calls are made ------------------------------------------------------------------

  function UserCall(c: nat, q: Request): Call {
    Call(c, -1, q.id, q.mandatory, q.ownCallback, 0, 0, Ready)
  }

  /** All calls have been made, and nothing else has happened. */
  function Called(requests: seq<Request>): State {
    Init().(calls := seq(|requests|, c requires 0 <= c < |requests| => UserCall(c, requests[c])))
  }

  lemma ReachInit(cfg: Config, meant: bool)
    ensures Reachable(cfg, [], meant, Called([]))
  {
    assert Called([]).calls == [];
    assert LeadsTo(cfg, [], meant, [Init()], [], Init());
  }

  lemma OneMoreCall(cfg: Config, meant: bool, requests: seq<Request>, q: Request)
    ensures Leads(cfg, meant, Called(requests), Publishing(NewCall(q.id, q.mandatory, q.ownCallback)), Called(requests + [q]))
  {
    assert Called(requests + [q]).calls == Called(requests).calls + [UserCall(|requests|, q)];
  }

  lemma ReachOneMore(cfg: Config, meant: bool, requests: seq<Request>, q: Request)
    requires Reachable(cfg, requests, meant, Called(requests))
    ensures Reachable(cfg, requests + [q], meant, Called(requests + [q]))
  {
    OneMoreCall(cfg, meant, requests, q);
    Extend(cfg, requests, meant, Called(requests), Publishing(NewCall(q.id, q.mandatory, q.ownCallback)), Called(requests + [q]));
  }

  lemma {:induction false} ReachCalled(cfg: Config, requests: seq<Request>, meant: bool)
    ensures Reachable(cfg, requests, meant, Called(requests))
  {
    if requests == [] {
      ReachInit(cfg, meant);
    } else {
      var before, q := requests[..|requests| - 1], requests[|requests| - 1];
      assert requests == before + [q];
      ReachCalled(cfg, before, meant);
      ReachOneMore(cfg, meant, before, q);
    }
  }

  // ---- one attempt ----------------------------------------------------------------------------

  /** The first channel is open and current, and call c may begin an attempt on it. */
  ghost predicate MayBegin(s: State, c: nat) {
    && WellFormed(s) && s.holder.Free? && !s.core.closed
    && |s.core.gens| == 1 == s.core.current && !s.core.gens[0].dead && s.core.gens[0].published < 2
    && s.chans[0].open && s.chans[0].sweep.NotStarted?
    && IsCall(s, c) && s.calls[c].state.Ready? && s.calls[c].id !in s.core.index.byId
  }

  /** What an attempt of call c registers. */
  function NextEntry(s: State, c: nat): Entry
    requires IsCall(s, c) && |s.core.gens| > 0
  {
    NewEntry(c, s.calls[c].id, s.calls[c].mandatory, 1, s.core.gens[0].published + 1, s.calls[c].retry)
  }

  /** Call c has registered its message. */
  function Registered(s: State, c: nat): State
    requires IsCall(s, c) && |s.core.gens| > 0
  {
    var e := NextEntry(s, c);
    s.(core := s.core.(regs := s.core.regs + [e], index := StoreIn(s.core.index, e.id, e.key, |s.core.regs|).0),
       calls := SetCall(s, c, InAttempt), holder := Stored(|s.core.regs|))
  }

  /** Call c is about to register its message. */
  function Begun(s: State, c: nat): State
    requires IsCall(s, c)
  {
    s.(calls := SetCall(s, c, InAttempt), holder := Checked(c, 1))
  }

  lemma AttemptBegins(cfg: Config, s: State, c: nat)
    requires MayBegin(s, c)
    ensures PublishEnabled(cfg, s, BeginAttempt(c, false)) && PublishStep(cfg, s, BeginAttempt(c, false)) == Begun(s, c)
  {
  }

  lemma AttemptRegisters(cfg: Config, s: State, c: nat)
    requires MayBegin(s, c)
    ensures WellFormed(Begun(s, c)) && PublishEnabled(cfg, Begun(s, c), RegisterAttempt(false))
    ensures WithinLimits(Begun(s, c), Publishing(RegisterAttempt(false)))
    ensures PublishStep(cfg, Begun(s, c), RegisterAttempt(false)) == Registered(s, c)
  {
  }

  lemma ReachRegistered(cfg: Config, requests: seq<Request>, meant: bool, s: State, c: nat)
    requires Reachable(cfg, requests, meant, s) && MayBegin(s, c)
    ensures Reachable(cfg, requests, meant, Registered(s, c))
  {
    AttemptBegins(cfg, s, c);
    Publish(cfg, requests, meant, s, BeginAttempt(c, false), Begun(s, c));
    AttemptRegisters(cfg, s, c);
    Publish(cfg, requests, meant, Begun(s, c), RegisterAttempt(false), Registered(s, c));
  }

  /** Registration r is being sent on the first channel, and nothing is left to its sender yet. */
  ghost predicate Sending(s: State, r: RegId) {
    && WellFormed(s) && s.holder == Stored(r) && IsReg(s, r) && |s.core.gens| == 1 && s.chans[0].open
    && s.core.regs[r].gen == 1 && !s.core.regs[r].orphanDeferred && !s.core.regs[r].timeoutDeferred
    && IsCall(s, s.core.regs[r].call)
  }

  /** The channel has accepted it, and its call has returned nil. */
  function Delivered(s: State, r: RegId): State
    requires IsReg(s, r) && |s.chans| == 1 == |s.core.gens| && IsCall(s, s.core.regs[r].call)
  {
    s.(core := s.core.(regs := s.core.regs[r := s.core.regs[r].(inFlight := false)],
                       stats := s.core.stats.(published := s.core.stats.published + 1),
                       gens := [s.core.gens[0].(published := s.core.gens[0].published + 1)]),
       chans := [s.chans[0].(log := s.chans[0].log + [r])],
       calls := SetCall(s, s.core.regs[r].call, ReturnedNil(r)), holder := Free)
  }

  /** The wire has accepted registration r. */
  function OnTheWire(s: State, r: RegId): State
    requires |s.chans| == 1
  {
    s.(core := CountPublished(s.core, 1), holder := Sent(r, true), chans := [s.chans[0].(log := s.chans[0].log + [r])])
  }

  lemma ReachWire(cfg: Config, requests: seq<Request>, meant: bool, s: State, r: RegId)
    requires Reachable(cfg, requests, meant, s) && Sending(s, r)
    ensures Reachable(cfg, requests, meant, OnTheWire(s, r))
  {
    var s1 := s.(core := CountPublished(s.core, 1), holder := Counted(r));
    Publish(cfg, requests, meant, s, CountAttempt, s1);
    Publish(cfg, requests, meant, s1, WireSend(true), OnTheWire(s, r));
  }

  /** publishTracked has read the deferral flags, none of them set. */
  function Accounted(s: State, r: RegId): State
    requires IsReg(s, r) && |s.chans| == 1 && |s.core.gens| == 1
  {
    var s' := OnTheWire(s, r);
    s'.(core := CountAccepted(AfterSend(s'.core, r, true), 1), holder := Deferred(r, false, false))
  }

  lemma ReachAccounted(cfg: Config, requests: seq<Request>, meant: bool, s: State, r: RegId)
    requires Reachable(cfg, requests, meant, s) && Sending(s, r)
    ensures Reachable(cfg, requests, meant, Accounted(s, r))
  {
    ReachWire(cfg, requests, meant, s, r);
    var s2 := OnTheWire(s, r);
    var s3 := s2.(core := AfterSend(s2.core, r, true), holder := SendOk(r, false, false));
    Publish(cfg, requests, meant, s2, SendReturned(false), s3);
    Publish(cfg, requests, meant, s3, CountSent, Accounted(s, r));
  }

  lemma NothingDeferred(cfg: Config, s: State, r: RegId)
    requires Sending(s, r)
    ensures WellFormed(Accounted(s, r)) && PublishEnabled(cfg, Accounted(s, r), SettleDeferred)
    ensures PublishStep(cfg, Accounted(s, r), SettleDeferred) == Delivered(s, r)
  {
  }

  lemma ReachDelivered(cfg: Config, requests: seq<Request>, meant: bool, s: State, r: RegId)
    requires Reachable(cfg, requests, meant, s) && Sending(s, r)
    ensures Reachable(cfg, requests, meant, Delivered(s, r))
  {
    ReachAccounted(cfg, requests, meant, s, r);
    NothingDeferred(cfg, s, r);
    Publish(cfg, requests, meant, Accounted(s, r), SettleDeferred, Delivered(s, r));
  }

  /** Its send has failed, and its call is told so. */
  function Undelivered(s: State, r: RegId, channelError: bool): State
    requires IsReg(s, r) && IsCall(s, s.core.regs[r].call)
  {
    s.(core := Deregister(s.core, r).(regs := s.core.regs[r := s.core.regs[r].(inFlight := false, claim := SendFailed).StopTimer()]),
       calls := SetCall(s, s.core.regs[r].call, AttemptFailed(SendError(channelError))), holder := Free)
  }

  /** The failed send has returned. */
  function Failed(s: State, r: RegId, channelError: bool): State
    requires IsReg(s, r)
  {
    s.(core := AfterSend(CountPublished(s.core, 1), r, false), holder := FailDelete(r, channelError))
  }

  lemma ReachFailed(cfg: Config, requests: seq<Request>, meant: bool, s: State, r: RegId, channelError: bool)
    requires Reachable(cfg, requests, meant, s) && Sending(s, r)
    ensures Reachable(cfg, requests, meant, Failed(s, r, channelError))
  {
    var s1 := s.(core := CountPublished(s.core, 1), holder := Counted(r));
    Publish(cfg, requests, meant, s, CountAttempt, s1);
    var s2 := s1.(holder := Sent(r, false));
    Publish(cfg, requests, meant, s1, WireSend(false), s2);
    Publish(cfg, requests, meant, s2, SendReturned(channelError), Failed(s, r, channelError));
  }

  /** It has been deregistered and its timer stopped. */
  function Forgotten(s: State, r: RegId, channelError: bool): State
    requires IsReg(s, r)
  {
    var s' := Failed(s, r, channelError);
    s'.(core := StopTimerOf(Deregister(s'.core, r), r), holder := FailUncount(r, channelError))
  }

  lemma ReachForgotten(cfg: Config, requests: seq<Request>, meant: bool, s: State, r: RegId, channelError: bool)
    requires Reachable(cfg, requests, meant, s) && Sending(s, r)
    ensures Reachable(cfg, requests, meant, Forgotten(s, r, channelError))
  {
    ReachFailed(cfg, requests, meant, s, r, channelError);
    var s3 := Failed(s, r, channelError);
    var s4 := s3.(core := Deregister(s3.core, r), holder := FailStop(r, channelError));
    Publish(cfg, requests, meant, s3, DeleteFailed, s4);
    Publish(cfg, requests, meant, s4, StopFailed, Forgotten(s, r, channelError));
  }

  lemma ReachUndelivered(cfg: Config, requests: seq<Request>, meant: bool, s: State, r: RegId, channelError: bool)
    requires Reachable(cfg, requests, meant, s) && Sending(s, r)
    ensures Reachable(cfg, requests, meant, Undelivered(s, r, channelError))
  {
    ReachForgotten(cfg, requests, meant, s, r, channelError);
    assert Forgotten(s, r, channelError).core.regs == Undelivered(s, r, channelError).core.regs;
    Publish(cfg, requests, meant, Forgotten(s, r, channelError), UncountFailed, Undelivered(s, r, channelError));
  }

  /** A failed call tells its caller so. */
  lemma CallReturns(cfg: Config, s: State, c: nat)
    requires WellFormed(s) && IsCall(s, c) && s.calls[c].state.AttemptFailed?
    ensures PublishEnabled(cfg, s, ReturnError(c)) && PublishStep(cfg, s, ReturnError(c)) == s.(calls := SetCall(s, c, ReturnedError))
  {
  }

  // ---- a message leaves the map -----------------------------------------------------------------

  /** The only message so far was accepted, its call has returned nil, and nothing has been heard of it. */
  ghost predicate Pending(s: State, c: nat) {
    && |s.core.regs| == 1 && |s.core.gens| == 1 == |s.chans| && s.core.current == 1 && !s.core.closed && s.holder.Free?
    && IsCall(s, c) && s.calls[c].state == ReturnedNil(0)
    && var q := s.calls[c];
    && s.core.regs[0] == NewEntry(c, q.id, q.mandatory, 1, 1, 0).(inFlight := false)
    && s.core.index == Index(map[q.id := 0], map[DeliveryKey(1, 1) := 0])
    && s.core.gens[0] == Generation(1, false) && s.chans[0] == FRESH_CHANNEL.(log := [0])
    && s.signals == [] && s.misfires == {}
  }

  lemma FirstAttempt(requests: seq<Request>, c: nat)
    requires c < |requests|
    ensures MayBegin(Called(requests), c) && Sending(Registered(Called(requests), c), 0)
  {
  }

  lemma FirstDelivered(requests: seq<Request>, c: nat)
    requires c < |requests| && MayBegin(Called(requests), c) && Sending(Registered(Called(requests), c), 0)
    ensures var s := Delivered(Registered(Called(requests), c), 0);
            && Pending(s, c) && s.calls == Called(requests).calls[c := UserCall(c, requests[c]).(state := ReturnedNil(0))]
  {
  }

  /** All calls have been made and call c's message has been sent. */
  lemma ReachPending(cfg: Config, requests: seq<Request>, meant: bool, c: nat) returns (s: State)
    requires c < |requests|
    ensures Reachable(cfg, requests, meant, s) && Pending(s, c)
    ensures s.calls == Called(requests).calls[c := UserCall(c, requests[c]).(state := ReturnedNil(0))]
  {
    var s0 := Called(requests);
    ReachCalled(cfg, requests, meant);
    FirstAttempt(requests, c);
    ReachRegistered(cfg, requests, meant, s0, c);
    ReachDelivered(cfg, requests, meant, Registered(s0, c), 0);
    FirstDelivered(requests, c);
    s := Delivered(Registered(s0, c), 0);
  }

  /** The message has timed out and left the map; its callback is about to run. */
  function Expired(s: State): State
    requires IsReg(s, 0)
  {
    var e := s.core.regs[0].(delivery := Spent, claim := Settled(TimedOut), work := Callback);
    s.(core := s.core.(regs := [e], index := EMPTY_INDEX, stats := s.core.stats.Add(TimedOut)))
  }

  /** The message has timed out. */
  function WithTimeout(s: State): State
    requires IsReg(s, 0)
  {
    var e := s.core.regs[0].(delivery := Spent, claim := Settled(TimedOut), work := Cleanup);
    s.(core := s.core.(regs := [e], stats := s.core.stats.Add(TimedOut)))
  }

  /** Its delivery timer has fired. */
  function WithTimerFired(s: State): State
    requires IsReg(s, 0)
  {
    s.(core := s.core.(regs := [s.core.regs[0].(delivery := Fired)]))
  }

  lemma TimerRuns(cfg: Config, s: State, c: nat)
    requires Pending(s, c)
    ensures WellFormed(s) && TimerEnabled(s, FireDelivery(0)) && TimerStep(cfg, s, FireDelivery(0)) == WithTimerFired(s)
    ensures WellFormed(WithTimerFired(s)) && TimerEnabled(WithTimerFired(s), RunDelivery(0))
    ensures TimerStep(cfg, WithTimerFired(s), RunDelivery(0)) == WithTimeout(s)
  {
  }

  lemma ReachTimedOut(cfg: Config, requests: seq<Request>, meant: bool, s: State, c: nat)
    requires Reachable(cfg, requests, meant, s) && Pending(s, c)
    ensures Reachable(cfg, requests, meant, WithTimeout(s))
  {
    TimerRuns(cfg, s, c);
    Time(cfg, requests, meant, s, FireDelivery(0), WithTimerFired(s));
    Time(cfg, requests, meant, WithTimerFired(s), RunDelivery(0), WithTimeout(s));
  }

  lemma ReachExpired(cfg: Config, requests: seq<Request>, meant: bool, s: State, c: nat)
    requires Reachable(cfg, requests, meant, s) && Pending(s, c)
    ensures Reachable(cfg, requests, meant, Expired(s))
  {
    ReachTimedOut(cfg, requests, meant, s, c);
    var e := s.core.regs[0];
    assert DeleteFrom(s.core.index, e.id, e.key) == EMPTY_INDEX;
    Finish(cfg, requests, meant, WithTimeout(s), RunCleanup(0), Expired(s));
  }

  /** The broker has refused the message, and a retry of it has been queued. */
  function Refused(s: State): State
    requires IsReg(s, 0) && |s.chans| == 1
  {
    var e := s.core.regs[0].(nacked := true, delivery := Stopped, claim := Settled(Nacked), work := RetryQueued);
    s.(core := s.core.(regs := [e], stats := s.core.stats.Add(Nacked)),
       chans := [s.chans[0].(answers := map[1 := false], answersRead := {1})])
  }

  /** The broker has refused it. */
  function RefusedByBroker(s: State): State
    requires |s.chans| == 1
  {
    s.(chans := [s.chans[0].(answers := map[1 := false])])
  }

  lemma RefusalIsRead(cfg: Config, s: State, c: nat)
    requires Pending(s, c) && Retries(cfg)
    ensures WellFormed(RefusedByBroker(s)) && BrokerEnabled(RefusedByBroker(s), ReadConfirm(1, 1))
    ensures BrokerStep(cfg, RefusedByBroker(s), ReadConfirm(1, 1)) == Refused(s)
  {
    var ch := RefusedByBroker(s).chans[0];
    assert ch.answersRead + {1} == {1};
    assert DeliveryKey(1, 1) in s.core.index.byKey;
  }

  lemma ReachRefused(cfg: Config, requests: seq<Request>, meant: bool, s: State, c: nat)
    requires Reachable(cfg, requests, meant, s) && Pending(s, c) && Retries(cfg)
    ensures Reachable(cfg, requests, meant, Refused(s))
  {
    assert s.chans[0].answers[1 := false] == map[1 := false];
    Broke(cfg, requests, meant, s, BrokerAnswers(1, 1, false), RefusedByBroker(s));
    RefusalIsRead(cfg, s, c);
    Broke(cfg, requests, meant, RefusedByBroker(s), ReadConfirm(1, 1), Refused(s));
  }

  /** The retry is sleeping out its delay. */
  function Waiting(s: State): State
    requires IsReg(s, 0) && |s.chans| == 1
  {
    var s' := Refused(s);
    s'.(core := s'.core.(regs := [s'.core.regs[0].(retryCount := s'.core.regs[0].retryCount + 1, work := RetryWaiting)]))
  }

  lemma ReachWaiting(cfg: Config, requests: seq<Request>, meant: bool, s: State, c: nat)
    requires Reachable(cfg, requests, meant, s) && Pending(s, c) && Retries(cfg)
    ensures Reachable(cfg, requests, meant, Waiting(s))
  {
    ReachRefused(cfg, requests, meant, s, c);
    Finish(cfg, requests, meant, Refused(s), RunRetry(0), Waiting(s));
  }

  /** It has left the map, and a call to publish it again has begun. */
  function Republished(s: State, c: nat): State
    requires IsReg(s, 0) && |s.chans| == 1 && IsCall(s, c)
  {
    var s' := Refused(s);
    var q := s.calls[c];
    s'.(core := s'.core.(regs := [s'.core.regs[0].(retryCount := s'.core.regs[0].retryCount + 1, work := Retried(|s.calls|))], index := EMPTY_INDEX),
        calls := s.calls + [Call(q.root, 0, q.id, q.mandatory, q.ownCallback, 1, 0, Ready)])
  }

  lemma RetryIsMade(cfg: Config, s: State, c: nat)
    requires Pending(s, c)
    ensures WellFormed(Waiting(s)) && FinishEnabled(Waiting(s), Republish(0))
    ensures FinishStep(cfg, Waiting(s), Republish(0)) == Republished(s, c)
  {
    var e := s.core.regs[0];
    assert DeleteFrom(s.core.index, e.id, e.key) == EMPTY_INDEX;
  }

  lemma ReachRepublished(cfg: Config, requests: seq<Request>, meant: bool, s: State, c: nat)
    requires Reachable(cfg, requests, meant, s) && Pending(s, c) && Retries(cfg)
    ensures Reachable(cfg, requests, meant, Republished(s, c))
  {
    ReachWaiting(cfg, requests, meant, s, c);
    RetryIsMade(cfg, s, c);
    Finish(cfg, requests, meant, Waiting(s), Republish(0), Republished(s, c));
  }

  // ---- a retry that nobody hears of ------------------------------------------------------------------

  /** The retry has been refused because its context was done, and there was no callback to tell. */
  function Unheard(s: State, c: nat): State
    requires IsReg(s, 0) && |s.chans| == 1 && IsCall(s, c)
  {
    var s' := Republished(s, c);
    s'.(calls := s'.calls[|s.calls| := s'.calls[|s.calls|].(state := ErrorSilent)])
  }

  /** The retry has been refused. */
  function RefusedRetry(s: State, c: nat): State
    requires IsReg(s, 0) && |s.chans| == 1 && IsCall(s, c)
  {
    var s' := Republished(s, c);
    s'.(calls := s'.calls[|s.calls| := s'.calls[|s.calls|].(state := AttemptFailed(ContextDone))])
  }

  lemma RetryIsRefused(cfg: Config, s: State, c: nat)
    requires Pending(s, c)
    ensures WellFormed(Republished(s, c)) && PublishEnabled(cfg, Republished(s, c), BeginAttempt(|s.calls|, true))
    ensures PublishStep(cfg, Republished(s, c), BeginAttempt(|s.calls|, true)) == RefusedRetry(s, c)
    ensures WellFormed(RefusedRetry(s, c)) && RefusedRetry(s, c).calls[|s.calls|].state.AttemptFailed?
  {
  }

  /** And has told its goroutine so. */
  function ReturnedRetry(s: State, c: nat): State
    requires IsReg(s, 0) && |s.chans| == 1 && IsCall(s, c)
  {
    RefusedRetry(s, c).(calls := SetCall(RefusedRetry(s, c), |s.calls|, ReturnedError))
  }

  lemma NobodyIsTold(cfg: Config, s: State, c: nat)
    requires Pending(s, c) && !s.calls[c].ownCallback
    ensures WellFormed(ReturnedRetry(s, c)) && FinishEnabled(ReturnedRetry(s, c), RetryErrorCallback(|s.calls|))
    ensures FinishStep(cfg, ReturnedRetry(s, c), RetryErrorCallback(|s.calls|)) == Unheard(s, c)
  {
    var d, calls := |s.calls|, Republished(s, c).calls;
    assert calls[d := calls[d].(state := AttemptFailed(ContextDone))][d := calls[d].(state := ReturnedError)][d := calls[d].(state := ErrorSilent)]
        == calls[d := calls[d].(state := ErrorSilent)];
  }

  lemma ReachUnheard(cfg: Config, requests: seq<Request>, meant: bool, s: State, c: nat)
    requires Reachable(cfg, requests, meant, s) && Pending(s, c) && Retries(cfg) && !s.calls[c].ownCallback
    ensures Reachable(cfg, requests, meant, Unheard(s, c))
  {
    ReachRepublished(cfg, requests, meant, s, c);
    RetryIsRefused(cfg, s, c);
    Publish(cfg, requests, meant, Republished(s, c), BeginAttempt(|s.calls|, true), RefusedRetry(s, c));
    CallReturns(cfg, RefusedRetry(s, c), |s.calls|);
    Publish(cfg, requests, meant, RefusedRetry(s, c), ReturnError(|s.calls|), ReturnedRetry(s, c));
    NobodyIsTold(cfg, s, c);
    Finish(cfg, requests, meant, ReturnedRetry(s, c), RetryErrorCallback(|s.calls|), Unheard(s, c));
  }

  // ---- a return frame that comes late ------------------------------------------------------------------

  /** The mandatory first message has left the map, unanswered or refused, and call o may publish another under its ID. */
  ghost predicate Poised(s: State, o: nat) {
    && |s.core.regs| == 1 && s.core.regs[0].mandatory && s.core.regs[0].gen == 1 && s.core.regs[0].tag == 1
    && s.core.index == EMPTY_INDEX
    && |s.core.gens| == 1 == |s.chans| && s.core.gens[0] == Generation(1, false) && s.core.current == 1 && !s.core.closed && s.holder.Free?
    && s.chans[0].open && s.chans[0].sweep.NotStarted? && s.chans[0].log == [0] && s.chans[0].bounced == {} && s.chans[0].bouncedRead == {}
    && s.signals == []
    && IsCall(s, o) && s.calls[o].state.Ready? && s.calls[o].id == s.core.regs[0].id
  }

  /** The second message is filed, its send has not begun, and the first one's return frame has been read. */
  function Misread(s: State, o: nat): State
    requires IsCall(s, o) && |s.core.gens| == 1 == |s.chans|
  {
    var s' := Registered(s, o);
    var e := NextEntry(s, o).(returned := true, claim := Settled(Returned), delivery := Stopped, work := Cleanup);
    s'.(core := s'.core.(regs := s.core.regs + [e], stats := s.core.stats.Add(Returned)),
        chans := [s.chans[0].(bounced := {1}, bouncedRead := {1})])
  }

  /** The second message is filed, and the broker has returned the first. */
  function Bounced(s: State, o: nat): State
    requires IsCall(s, o) && |s.core.gens| == 1 == |s.chans|
  {
    Registered(s, o).(chans := [s.chans[0].(bounced := {1})])
  }

  lemma FirstBounces(cfg: Config, s: State, o: nat)
    requires Poised(s, o)
    ensures WellFormed(Registered(s, o)) && BrokerEnabled(Registered(s, o), BrokerReturns(1, 1))
    ensures BrokerStep(cfg, Registered(s, o), BrokerReturns(1, 1)) == Bounced(s, o)
  {
    assert s.chans[0].bounced + {1} == {1};
  }

  lemma FrameIsMisread(cfg: Config, s: State, o: nat)
    requires Poised(s, o)
    ensures WellFormed(Bounced(s, o)) && BrokerEnabled(Bounced(s, o), ReadReturn(1, 1))
    ensures BrokerStep(cfg, Bounced(s, o), ReadReturn(1, 1)) == Misread(s, o)
  {
    var s2 := Bounced(s, o);
    assert s2.core.regs[1] == NextEntry(s, o) && s2.core.regs[0] == s.core.regs[0];
    assert s2.chans[0].bouncedRead + {1} == {1};
    assert s2.core.regs[1 := Misread(s, o).core.regs[1]] == Misread(s, o).core.regs;
  }

  lemma ReachMisread(cfg: Config, requests: seq<Request>, s: State, o: nat)
    requires Reachable(cfg, requests, false, s) && Poised(s, o)
    ensures Reachable(cfg, requests, false, Misread(s, o))
  {
    ReachRegistered(cfg, requests, false, s, o);
    FirstBounces(cfg, s, o);
    Broke(cfg, requests, false, Registered(s, o), BrokerReturns(1, 1), Bounced(s, o));
    FrameIsMisread(cfg, s, o);
    Broke(cfg, requests, false, Bounced(s, o), ReadReturn(1, 1), Misread(s, o));
  }

  /** Its callback has reported a failure. */
  function Misreported(s: State, o: nat): State
    requires IsCall(s, o) && |s.core.gens| == 1 == |s.chans| && |s.core.regs| == 1
  {
    var s' := Misread(s, o);
    s'.(core := s'.core.(regs := s'.core.regs[1 := s'.core.regs[1].(work := Done(0))], index := EMPTY_INDEX),
        signals := [Signal(FromReg(1), s.calls[o].root, DeliveryFailed)])
  }

  /** It has left the map, and its callback is about to run. */
  function CallingBack(s: State, o: nat): State
    requires IsCall(s, o) && |s.core.gens| == 1 == |s.chans| && |s.core.regs| == 1
  {
    var s' := Misread(s, o);
    s'.(core := s'.core.(regs := s'.core.regs[1 := s'.core.regs[1].(work := Callback)], index := EMPTY_INDEX))
  }

  lemma ReturnIsReported(cfg: Config, s: State, o: nat)
    requires Poised(s, o)
    ensures WellFormed(Misread(s, o)) && FinishEnabled(Misread(s, o), RunCleanup(1))
    ensures FinishStep(cfg, Misread(s, o), RunCleanup(1)) == CallingBack(s, o)
    ensures WellFormed(CallingBack(s, o)) && FinishEnabled(CallingBack(s, o), RunCallback(1))
    ensures FinishStep(cfg, CallingBack(s, o), RunCallback(1)) == Misreported(s, o)
  {
    var e := Misread(s, o).core.regs[1];
    assert DeleteFrom(Misread(s, o).core.index, e.id, e.key) == EMPTY_INDEX;
  }

  lemma ReachMisreported(cfg: Config, requests: seq<Request>, s: State, o: nat)
    requires Reachable(cfg, requests, false, s) && Poised(s, o)
    ensures Reachable(cfg, requests, false, Misreported(s, o))
  {
    ReachMisread(cfg, requests, s, o);
    ReturnIsReported(cfg, s, o);
    Finish(cfg, requests, false, Misread(s, o), RunCleanup(1), CallingBack(s, o));
    Finish(cfg, requests, false, CallingBack(s, o), RunCallback(1), Misreported(s, o));
  }

  lemma SendFailsTooLate(s: State, o: nat)
    requires Poised(s, o)
    ensures Sending(Misreported(s, o), 1)
    ensures var s' := Undelivered(Misreported(s, o), 1, false);
            && WellFormed(s') && IsCall(s', o) && s'.calls[o].state.AttemptFailed?
            && SetCall(s', o, ReturnedError) == s.calls[o := s.calls[o].(state := ReturnedError)]
            && s'.signals == [Signal(FromReg(1), s.calls[o].root, DeliveryFailed)]
  {
  }

  /** The send then fails, and the call returns an error although its callback has run. */
  lemma ReachBroken(cfg: Config, requests: seq<Request>, s: State, o: nat) returns (s': State)
    requires Reachable(cfg, requests, false, s) && Poised(s, o)
    ensures Reachable(cfg, requests, false, s')
    ensures s'.calls == s.calls[o := s.calls[o].(state := ReturnedError)]
    ensures s'.signals == [Signal(FromReg(1), s.calls[o].root, DeliveryFailed)]
  {
    ReachMisreported(cfg, requests, s, o);
    SendFailsTooLate(s, o);
    ReachUndelivered(cfg, requests, false, Misreported(s, o), 1, false);
    var s2 := Undelivered(Misreported(s, o), 1, false);
    CallReturns(cfg, s2, o);
    s' := s2.(calls := SetCall(s2, o, ReturnedError));
    Publish(cfg, requests, false, s2, ReturnError(o), s');
  }

  // ---- a timer that outlives its attempt ---------------------------------------------------------------

  /** The first message's timer fires while it is being sent. */
  function FiredEarly(s: State): State
    requires IsCall(s, 0) && |s.core.gens| > 0
  {
    var s' := Registered(s, 0);
    s'.(core := s'.core.(regs := s'.core.regs[|s.core.regs| := NextEntry(s, 0).(delivery := Fired)]))
  }

  lemma ReachFiredEarly(cfg: Config, requests: seq<Request>, meant: bool)
    requires requests != []
    ensures Reachable(cfg, requests, meant, FiredEarly(Called(requests))) && Sending(FiredEarly(Called(requests)), 0)
  {
    var s0 := Called(requests);
    ReachCalled(cfg, requests, meant);
    FirstAttempt(requests, 0);
    ReachRegistered(cfg, requests, meant, s0, 0);
    Time(cfg, requests, meant, Registered(s0, 0), FireDelivery(0), FiredEarly(s0));
  }

  /** Its send fails, and its call may make another attempt if the error was the channel's and attempts are left. */
  function GivenUp(requests: seq<Request>, again: bool): State
    requires requests != []
  {
    var s := Undelivered(FiredEarly(Called(requests)), 0, again);
    if again then s.(calls := s.calls[0 := s.calls[0].(state := Ready, attempts := s.calls[0].attempts + 1)]) else s
  }

  lemma MayTryAgain(cfg: Config, requests: seq<Request>)
    requires requests != [] && cfg.autoReconnect
    ensures var s := Undelivered(FiredEarly(Called(requests)), 0, true);
            && WellFormed(s) && PublishEnabled(cfg, s, RetryAttempt(0)) && PublishStep(cfg, s, RetryAttempt(0)) == GivenUp(requests, true)
  {
  }

  lemma ReachGivenUp(cfg: Config, requests: seq<Request>, meant: bool, again: bool)
    requires requests != [] && (again ==> cfg.autoReconnect)
    ensures Reachable(cfg, requests, meant, GivenUp(requests, again))
  {
    var s := FiredEarly(Called(requests));
    ReachFiredEarly(cfg, requests, meant);
    ReachUndelivered(cfg, requests, meant, s, 0, again);
    if again {
      MayTryAgain(cfg, requests);
      Publish(cfg, requests, meant, Undelivered(s, 0, again), RetryAttempt(0), GivenUp(requests, again));
    }
  }

  /** The call that sends next: the same one if it tries again, and otherwise the second. */
  function Next(again: bool): nat { if again then 0 else 1 }

  /** Another message is sent under the tag, and so under the key, that the first attempt had. */
  function Reused(requests: seq<Request>, again: bool): State
    requires if again then requests != [] else |requests| > 1
  {
    Delivered(Registered(GivenUp(requests, again), Next(again)), 1)
  }

  lemma MayReuse(requests: seq<Request>, again: bool)
    requires if again then requests != [] else |requests| > 1
    ensures var s := GivenUp(requests, again); MayBegin(s, Next(again)) && Sending(Registered(s, Next(again)), 1)
  {
    var s := FiredEarly(Called(requests));
    assert DeleteFrom(s.core.index, s.core.regs[0].id, s.core.regs[0].key) == EMPTY_INDEX;
  }

  lemma ReachReused(cfg: Config, requests: seq<Request>, meant: bool, again: bool)
    requires if again then requests != [] && cfg.autoReconnect else |requests| > 1
    ensures Reachable(cfg, requests, meant, Reused(requests, again))
  {
    ReachGivenUp(cfg, requests, meant, again);
    MayReuse(requests, again);
    ReachRegistered(cfg, requests, meant, GivenUp(requests, again), Next(again));
    ReachDelivered(cfg, requests, meant, Registered(GivenUp(requests, again), Next(again)), 1);
  }

  lemma ReusedKeyMisleads(requests: seq<Request>, again: bool)
    requires if again then requests != [] else |requests| > 1
    ensures var s := Reused(requests, again);
            && WellFormed(s) && |s.core.regs| == 2 && s.calls[Next(again)].state == ReturnedNil(1)
            && s.core.regs[0].delivery.Fired? && s.core.regs[0].claim.SendFailed?
            && s.core.regs[1].delivery.Armed? && s.core.regs[1].claim.Unclaimed? && !s.core.regs[1].inFlight
            && s.core.regs[0].key in s.core.index.byKey && s.core.index.byKey[s.core.regs[0].key] == 1
  {
    MayReuse(requests, again);
  }

  lemma StaleTimerRuns(cfg: Config, requests: seq<Request>, again: bool)
    requires if again then requests != [] else |requests| > 1
    ensures var s := Reused(requests, again);
            && WellFormed(s) && TimerEnabled(s, RunDelivery(0)) && |s.core.regs| == 2 && IsCall(s, Next(again))
            && var s' := TimerStep(cfg, s, RunDelivery(0));
            && IsReg(s', 1) && s'.calls == s.calls && s.calls[Next(again)].state == ReturnedNil(1)
            && s'.core.regs[1].claim == Settled(TimedOut) && s'.core.regs[1].delivery.Armed?
  {
    ReusedKeyMisleads(requests, again);
  }

  /** The first attempt's timer then times the second one's message out, whose own timer is still armed. */
  lemma StaleTimerTimesOutAnother(cfg: Config, requests: seq<Request>, meant: bool, again: bool) returns (s: State)
    requires if again then requests != [] && cfg.autoReconnect else |requests| > 1
    ensures Reachable(cfg, requests, meant, s) && IsCall(s, Next(again)) && IsReg(s, 1)
    ensures s.calls[Next(again)].state == ReturnedNil(1) && s.core.regs[1].claim == Settled(TimedOut) && s.core.regs[1].delivery.Armed?
  {
    ReachReused(cfg, requests, meant, again);
    StaleTimerRuns(cfg, requests, again);
    s := TimerStep(cfg, Reused(requests, again), RunDelivery(0));
    Time(cfg, requests, meant, Reused(requests, again), RunDelivery(0), s);
  }
}
