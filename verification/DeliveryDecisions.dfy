/**
 Who decides a message, and how: what each event that can decide one does to it, case by
 case, and that no later event takes it back. The cases are stated over the state before the
 event and the state after it, not over the functions that compute the latter.
 */
module DeliveryDecisions {
  import opened PendingMap
  import opened DeliveryCore
  import opened DeliverySystem
  import opened DeliveryInvariant
  import opened DeliveryPreservation
  import opened PreserveHandlers
  import opened PreservePublish
  import opened PreserveRest
  import opened DeliveryTheorems
  import opened DeliveryHistory

  /** Every registration but r is what it was. */
  ghost predicate OthersStay(s: State, s': State, r: RegId) {
    |s'.core.regs| == |s.core.regs| && forall q {:trigger s'.core.regs[q]} | 0 <= q < |s.core.regs| && q != r :: s'.core.regs[q] == s.core.regs[q]
  }

  /** Nothing more is going to happen by a timer. */
  predicate TimersOff(e: Entry) { !e.delivery.Armed? && !e.grace.Armed? }

  /** The message has been decided as v, and a goroutine has been started to clean up and call back. */
  predicate DecidedAs(e: Entry, v: Verdict) {
    e.claim == Settled(v) && e.work.Cleanup?
  }

  /** The registration the broker numbered t on channel g. */
  function Numbered(s: State, g: nat, t: nat): RegId
    requires IsGen(s, g) && 1 <= t <= |s.chans[g - 1].log|
  {
    s.chans[g - 1].log[t - 1]
  }

  lemma AnsweredInRange(cfg: Config, s: State, g: nat, t: nat)
    requires Inv(cfg, s) && WellFormed(s) && BrokerEnabled(s, ReadConfirm(g, t))
    ensures 1 <= t <= |s.chans[g - 1].log| && IsReg(s, Numbered(s, g, t)) && !s.core.gens[g - 1].dead
    ensures var r := Numbered(s, g, t); !Answered(s, r, true) && !Answered(s, r, false)
    ensures s.core.regs[Numbered(s, g, t)].claim.Unclaimed? ==> Filed(s, Numbered(s, g, t)) && !s.core.regs[Numbered(s, g, t)].confirmed
  {
    assert ChannelOk(s, g);
    LogNames(cfg, s, g, t);
    assert EntryOk(cfg, s, Numbered(s, g, t));
  }

  // ---- an answer -----------------------------------------------------------------------------------

  /**
   An ack decides a plain message at once; an ack does not decide a mandatory one yet, but
   its delivery timer gives way to a grace timer; a nack decides any message, and it is
   retried exactly if retries are on and attempts are left. A decided message is not touched,
   but for the record.
   */
  predicate AfterAnswer(cfg: Config, e: Entry, e': Entry, ack: bool) {
    if e.Claimed() then e' == e.(confirmed := e'.confirmed, nacked := e'.nacked)
    else if !ack then
      && e'.claim == Settled(Nacked) && TimersOff(e')
      && (if cfg.autoRetries && e.retryCount < cfg.maxRetryAttempts then e'.work.RetryQueued? else e'.work.Cleanup?)
    else if e.mandatory then
      e'.claim.Unclaimed? && e'.confirmed && e'.grace.Armed? && !e'.delivery.Armed? && e'.work.NoWork?
    else DecidedAs(e', Confirmed) && TimersOff(e')
  }

  lemma AnswerCases(cfg: Config, e: Entry, f: Facts, ack: bool)
    requires FlowOk(cfg, e, f) && (e.claim.Unclaimed? ==> f.filed && !e.confirmed)
    ensures AfterAnswer(cfg, e, AfterConfirm(cfg, e, f.filed, ack), ack)
  {
  }

  /** An answer read decides the very message the broker numbered, if nothing has decided it yet, and no other. */
  lemma AnswerDecides(cfg: Config, s: State, g: nat, t: nat)
    requires Inv(cfg, s) && Enabled(cfg, s, Broker(ReadConfirm(g, t)))
    ensures 1 <= t <= |s.chans[g - 1].log| && IsReg(s, Numbered(s, g, t))
    ensures var r, s' := Numbered(s, g, t), Step(cfg, s, Broker(ReadConfirm(g, t)));
            OthersStay(s, s', r) && AfterAnswer(cfg, s.core.regs[r], s'.core.regs[r], s.chans[g - 1].answers[t])
  {
    AnsweredInRange(cfg, s, g, t);
    ConfirmStep(cfg, s, g, t);
    var r := Numbered(s, g, t);
    assert EntryOk(cfg, s, r);
    AnswerCases(cfg, s.core.regs[r], FactsOf(s, r), s.chans[g - 1].answers[t]);
  }

  // ---- a return ----------------------------------------------------------------------------------------

  /** A return decides a message that nothing has decided, acked or not. */
  predicate AfterReturn(e: Entry, e': Entry) {
    if e.Claimed() then e' == e else DecidedAs(e', Returned) && TimersOff(e')
  }

  lemma ReturnCases(cfg: Config, e: Entry, f: Facts)
    requires FlowOk(cfg, e, f)
    ensures AfterReturn(e, if e.claim.Unclaimed? then TryFinalize(cfg, e.(returned := true)) else e)
  {
  }

  /** The message a return frame is taken for. */
  ghost predicate TakenFor(s: State, g: nat, t: nat, r: RegId) {
    && IsGen(s, g) && 1 <= t <= |s.chans[g - 1].log| && IsReg(s, Numbered(s, g, t)) && IsReg(s, r)
    && s.core.regs[Numbered(s, g, t)].id in s.core.index.byId
    && s.core.index.byId[s.core.regs[Numbered(s, g, t)].id] == r
  }

  lemma ReturnTouches(cfg: Config, s: State, g: nat, t: nat)
    requires Inv(cfg, s) && Enabled(cfg, s, Broker(ReadReturn(g, t)))
    ensures var s' := Step(cfg, s, Broker(ReadReturn(g, t)));
            && |s'.core.regs| == |s.core.regs|
            && forall r {:trigger s'.core.regs[r]} | 0 <= r < |s.core.regs| ::
                 if TakenFor(s, g, t, r) then AfterReturn(s.core.regs[r], s'.core.regs[r]) else s'.core.regs[r] == s.core.regs[r]
  {
    ReturnStep(cfg, s, g, t);
    var id := s.core.regs[Numbered(s, g, t)].id;
    if id in s.core.index.byId {
      var r := s.core.index.byId[id];
      assert EntryOk(cfg, s, r);
      ReturnCases(cfg, s.core.regs[r], FactsOf(s, r));
    }
  }

  /**
   A return read decides the very message the broker returned, if nothing has decided it
   yet, and of all others at most one that the broker has returned too: whenever the frame is
   meant, and so whenever message IDs are not shared.
   */
  lemma ReturnDecides(cfg: Config, s: State, g: nat, t: nat)
    requires Inv(cfg, s) && Enabled(cfg, s, Broker(ReadReturn(g, t))) && ReturnsAreMeant(s, Broker(ReadReturn(g, t)))
    ensures 1 <= t <= |s.chans[g - 1].log| && IsReg(s, Numbered(s, g, t))
    ensures var r, s' := Numbered(s, g, t), Step(cfg, s, Broker(ReadReturn(g, t)));
            && |s'.core.regs| == |s.core.regs| && AfterReturn(s.core.regs[r], s'.core.regs[r])
            && forall q {:trigger s'.core.regs[q]} | 0 <= q < |s.core.regs| && s'.core.regs[q] != s.core.regs[q] ::
                 WasReturned(s, q) && s.core.regs[q].claim.Unclaimed? && DecidedAs(s'.core.regs[q], Returned)
  {
    var r, s' := Numbered(s, g, t), Step(cfg, s, Broker(ReadReturn(g, t)));
    ReturnTouches(cfg, s, g, t);
    UnsharedIsMeant(cfg, s, g, t);
    assert EntryOk(cfg, s, r);
    assert s.core.regs[r].claim.Unclaimed? ==> TakenFor(s, g, t, r);
  }

  // ---- timers ---------------------------------------------------------------------------------------------

  /** A delivery timer decides its own message as timed out, or leaves it to the send in flight. */
  predicate AfterTimeout(e: Entry, e': Entry) {
    if e.Claimed() then e' == e.(delivery := Spent)
    else if e.inFlight then e' == e.(delivery := Spent, timeoutDeferred := true)
    else DecidedAs(e', TimedOut) && e'.delivery.Spent?
  }

  lemma TimeoutCases(cfg: Config, e: Entry)
    ensures AfterTimeout(e, TimeOut(cfg, e.(delivery := Spent)))
  {
  }

  /** A delivery timer that runs decides its own message and no other, unless its attempt had been given up. */
  lemma TimeoutDecides(cfg: Config, s: State, r: RegId)
    requires Inv(cfg, s) && Enabled(cfg, s, Timers(RunDelivery(r))) && !s.core.regs[r].claim.SendFailed?
    ensures var s' := Step(cfg, s, Timers(RunDelivery(r))); OthersStay(s, s', r) && AfterTimeout(s.core.regs[r], s'.core.regs[r])
  {
    var e := s.core.regs[r];
    assert EntryOk(cfg, s, r);
    TimeoutCases(cfg, e);
    if e.key in s.core.index.byKey {
      if !Filed(s, r) { OthersKeyFailed(cfg, s, r); }
      assert s.core.index.byKey[e.key] == r;
      UpdateTwice(s.core, r, e.(delivery := Spent), TimeOut(cfg, e.(delivery := Spent)));
    }
  }

  /** The grace timer decides its own message as delivered, unless something has decided it before. */
  predicate AfterGrace(e: Entry, e': Entry) {
    if e.Claimed() then e' == e.(grace := Spent) else DecidedAs(e', Confirmed) && e'.grace.Spent? && TimersOff(e')
  }

  lemma GraceCases(cfg: Config, e: Entry, f: Facts)
    requires FlowOk(cfg, e, f) && !e.grace.NoTimer?
    ensures AfterGrace(e, GraceExpired(cfg, e.(grace := Spent)))
  {
  }

  lemma GraceDecides(cfg: Config, s: State, r: RegId)
    requires Inv(cfg, s) && Enabled(cfg, s, Timers(RunGrace(r)))
    ensures var s' := Step(cfg, s, Timers(RunGrace(r))); OthersStay(s, s', r) && AfterGrace(s.core.regs[r], s'.core.regs[r])
  {
    var e := s.core.regs[r];
    assert EntryOk(cfg, s, r);
    GraceCases(cfg, e, FactsOf(s, r));
    if e.key in s.core.index.byKey {
      GraceKeyIsOwn(cfg, s, r);
      UpdateTwice(s.core, r, e.(grace := Spent), GraceExpired(cfg, e.(grace := Spent)));
    }
  }

  // ---- the sweep and the sender ---------------------------------------------------------------------------------

  /** The sweep decides an unanswered message of the dead channel as failed, or leaves it to the send in flight; an acked one it leaves alone. */
  predicate AfterSweep(e: Entry, e': Entry) {
    if e.Claimed() || e.confirmed then e' == e
    else if e.inFlight then e' == e.(orphanDeferred := true)
    else DecidedAs(e', Orphaned) && TimersOff(e')
  }

  lemma SweepCases(cfg: Config, e: Entry, f: Facts)
    requires FlowOk(cfg, e, f)
    ensures AfterSweep(e, Orphan(cfg, e))
  {
  }

  lemma SweepDecides(cfg: Config, s: State, g: nat, r: RegId)
    requires Inv(cfg, s) && Enabled(cfg, s, Orphans(SweepSettle(g, r)))
    ensures var s' := Step(cfg, s, Orphans(SweepSettle(g, r))); OthersStay(s, s', r) && AfterSweep(s.core.regs[r], s'.core.regs[r])
  {
    assert EntryOk(cfg, s, r);
    SweepCases(cfg, s.core.regs[r], FactsOf(s, r));
  }

  /**
   When the send returns, its sender learns what was left to it: a sweep, and a timeout only
   if no answer and no return came in meanwhile. A failed send is claimed for its caller.
   */
  lemma SenderLearns(cfg: Config, s: State, channelError: bool)
    requires Inv(cfg, s) && Enabled(cfg, s, Publishing(SendReturned(channelError)))
    ensures var r, s' := s.holder.reg, Step(cfg, s, Publishing(SendReturned(channelError)));
            && OthersStay(s, s', r) && s'.core.stats == s.core.stats
            && var e, e' := s.core.regs[r], s'.core.regs[r];
            && e'.claim == (if s.holder.ok then e.claim else SendFailed)
            && (s.holder.ok ==> s'.holder == SendOk(r, e.orphanDeferred, e.timeoutDeferred && !e.confirmed && !e.nacked && !e.returned))
            && (!s.holder.ok ==> s'.holder == FailDelete(r, channelError))
  {
    assert EntryOk(cfg, s, s.holder.reg);
  }

  /** The sender decides what was left to it, unless something has decided it before: an orphan rather than a timeout. */
  predicate AfterSend(e: Entry, e': Entry, orphan: bool, timeout: bool) {
    if e.Claimed() || (orphan && e.confirmed) || !(orphan || timeout) then e' == e
    else if orphan then DecidedAs(e', Orphaned) && TimersOff(e')
    else DecidedAs(e', TimedOut)
  }

  lemma SenderCases(cfg: Config, e: Entry, f: Facts, timeout: bool)
    requires FlowOk(cfg, e, f) && !e.inFlight
    ensures AfterSend(e, Orphan(cfg, e), true, timeout) && AfterSend(e, TimeOut(cfg, e), false, true) && AfterSend(e, e, false, false)
  {
  }

  lemma SenderRewrites(cfg: Config, s: State, r: RegId)
    requires Inv(cfg, s) && WellFormed(s) && s.holder.Deferred? && s.holder.reg == r && IsReg(s, r)
    ensures var c := SettledDeferred(cfg, s.core, r, s.holder.orphan, s.holder.timeout);
            && |c.regs| == |s.core.regs| && c.regs == s.core.regs[r := c.regs[r]]
            && AfterSend(s.core.regs[r], c.regs[r], s.holder.orphan, s.holder.timeout)
  {
    var e := s.core.regs[r];
    assert EntryOk(cfg, s, r);
    SenderCases(cfg, e, FactsOf(s, r), s.holder.timeout);
    if e.key in s.core.index.byKey { AcceptedKeyFinds(cfg, s, e.gen, e.tag); }
  }

  lemma SenderDecides(cfg: Config, s: State)
    requires Inv(cfg, s) && Enabled(cfg, s, Publishing(SettleDeferred))
    ensures var r, s' := s.holder.reg, Step(cfg, s, Publishing(SettleDeferred));
            && OthersStay(s, s', r) && AfterSend(s.core.regs[r], s'.core.regs[r], s.holder.orphan, s.holder.timeout)
            && s'.holder.Free? && s'.calls[s.core.regs[r].call].state == ReturnedNil(r)
  {
    SenderRewrites(cfg, s, s.holder.reg);
    assert Step(cfg, s, Publishing(SettleDeferred)).core == SettledDeferred(cfg, s.core, s.holder.reg, s.holder.orphan, s.holder.timeout);
  }

  // ---- nothing else decides -------------------------------------------------------------------------------------------

  /** These events can decide messages; all others leave every claim alone. */
  predicate CanDecide(a: Action) {
    match a
    case Broker(x) => x.ReadConfirm? || x.ReadReturn?
    case Timers(x) => x.RunDelivery? || x.RunGrace? || x.StrayTimeout?
    case Orphans(x) => x.SweepSettle?
    case Publishing(x) => x.SendReturned? || x.SettleDeferred?
    case _ => false
  }

  ghost predicate ClaimsStay(s: State, s': State) {
    |s.core.regs| <= |s'.core.regs| && forall r {:trigger s'.core.regs[r]} | 0 <= r < |s.core.regs| :: s'.core.regs[r].claim == s.core.regs[r].claim
  }

  lemma PublishingLeavesClaims(cfg: Config, s: State, a: PublishAction)
    requires WellFormed(s) && PublishEnabled(cfg, s, a) && !a.SendReturned? && !a.SettleDeferred?
    ensures ClaimsStay(s, PublishStep(cfg, s, a))
  {
  }

  lemma BrokerLeavesClaims(cfg: Config, s: State, a: BrokerAction)
    requires WellFormed(s) && BrokerEnabled(s, a) && !a.ReadConfirm? && !a.ReadReturn?
    ensures ClaimsStay(s, BrokerStep(cfg, s, a))
  {
  }

  lemma FinishingLeavesClaims(cfg: Config, s: State, a: FinishAction)
    requires WellFormed(s) && FinishEnabled(s, a)
    ensures ClaimsStay(s, FinishStep(cfg, s, a))
  {
  }

  lemma ChannelsLeaveClaims(cfg: Config, s: State, a: ChannelAction)
    requires WellFormed(s) && ChannelEnabled(s, a)
    ensures ClaimsStay(s, ChannelStep(cfg, s, a))
  {
  }

  lemma NothingElseDecides(cfg: Config, s: State, a: Action)
    requires Enabled(cfg, s, a) && !CanDecide(a)
    ensures ClaimsStay(s, Step(cfg, s, a))
  {
    match a
    case Publishing(x) => PublishingLeavesClaims(cfg, s, x);
    case Broker(x) => BrokerLeavesClaims(cfg, s, x);
    case Finishing(x) => FinishingLeavesClaims(cfg, s, x);
    case Channels(x) => ChannelsLeaveClaims(cfg, s, x);
    case _ =>
  }

  // ---- a decision stands ---------------------------------------------------------------------------------------------

  /** What has been decided stays so. */
  ghost predicate DecisionsStay(s: State, s': State) {
    && |s.core.regs| <= |s'.core.regs|
    && forall r {:trigger s'.core.regs[r]} | 0 <= r < |s.core.regs| && s.core.regs[r].claim.Settled? :: s'.core.regs[r].claim == s.core.regs[r].claim
  }

  lemma HandlersKeepDecisions(cfg: Config, s: State, key: nat)
    requires IndexInRange(s.core)
    ensures DecisionsStay(s, s.(core := HandleTimeout(cfg, s.core, key))) && DecisionsStay(s, s.(core := HandleGraceExpired(cfg, s.core, key)))
  {
  }

  lemma StrayKeepsDecisions(cfg: Config, s: State, key: nat)
    requires Enabled(cfg, s, Timers(StrayTimeout(key)))
    ensures DecisionsStay(s, Step(cfg, s, Timers(StrayTimeout(key))))
  {
    HandlersKeepDecisions(cfg, s, key);
  }

  lemma TimerKeepsDecisions(cfg: Config, s: State, r: RegId)
    requires Enabled(cfg, s, Timers(RunDelivery(r)))
    ensures DecisionsStay(s, Step(cfg, s, Timers(RunDelivery(r))))
  {
    HandlersKeepDecisions(cfg, s.(core := Update(s.core, r, s.core.regs[r].(delivery := Spent))), s.core.regs[r].key);
  }

  lemma BrokerKeepsDecisions(cfg: Config, s: State, a: BrokerAction)
    requires Inv(cfg, s) && Enabled(cfg, s, Broker(a)) && Environment(s, Broker(a)) && (a.ReadConfirm? || a.ReadReturn?)
    ensures DecisionsStay(s, Step(cfg, s, Broker(a)))
  {
    if a.ReadConfirm? { AnswerDecides(cfg, s, a.gen, a.tag); } else { ReturnDecides(cfg, s, a.gen, a.tag); }
  }

  lemma DeferringKeepsDecisions(cfg: Config, s: State)
    requires Inv(cfg, s) && Enabled(cfg, s, Publishing(SettleDeferred))
    ensures DecisionsStay(s, Step(cfg, s, Publishing(SettleDeferred)))
  {
    SenderDecides(cfg, s);
  }

  lemma SendingKeepsDecisions(cfg: Config, s: State, channelError: bool)
    requires Inv(cfg, s) && Enabled(cfg, s, Publishing(SendReturned(channelError)))
    ensures DecisionsStay(s, Step(cfg, s, Publishing(SendReturned(channelError))))
  {
    SenderLearns(cfg, s, channelError);
    assert EntryOk(cfg, s, s.holder.reg);
  }

  lemma SenderKeepsDecisions(cfg: Config, s: State, a: PublishAction)
    requires Inv(cfg, s) && Enabled(cfg, s, Publishing(a)) && (a.SendReturned? || a.SettleDeferred?)
    ensures DecisionsStay(s, Step(cfg, s, Publishing(a)))
  {
    if a.SettleDeferred? { DeferringKeepsDecisions(cfg, s); } else { SendingKeepsDecisions(cfg, s, a.channelError); }
  }

  lemma DecisionsAreKept(cfg: Config, s: State, a: Action)
    requires Inv(cfg, s) && Enabled(cfg, s, a) && Environment(s, a)
    ensures DecisionsStay(s, Step(cfg, s, a))
  {
    if !CanDecide(a) {
      NothingElseDecides(cfg, s, a);
    } else {
      match a
      case Broker(x) => BrokerKeepsDecisions(cfg, s, x);
      case Publishing(x) => SenderKeepsDecisions(cfg, s, x);
      case Orphans(x) => SweepDecides(cfg, s, x.gen, x.reg);
      case Timers(x) =>
        match x
        case StrayTimeout(key) => StrayKeepsDecisions(cfg, s, key);
        case RunGrace(r) => GraceDecides(cfg, s, r);
        case RunDelivery(r) => TimerKeepsDecisions(cfg, s, r);
    }
  }

  lemma NextDecisions(cfg: Config, run: seq<State>, acts: seq<Action>, i: nat)
    requires IsRun(cfg, run, acts) && i < |acts|
    ensures DecisionsStay(run[i], run[i + 1])
  {
    RunInvariant(cfg, run, acts, i);
    assert run[i + 1] == Step(cfg, run[i], acts[i]);
    DecisionsAreKept(cfg, run[i], acts[i]);
  }

  lemma {:induction false} DecidedForever(cfg: Config, run: seq<State>, acts: seq<Action>, i: nat, j: nat, r: RegId)
    requires IsRun(cfg, run, acts) && i <= j < |run| && IsReg(run[i], r) && run[i].core.regs[r].claim.Settled?
    ensures IsReg(run[j], r) && run[j].core.regs[r].claim == run[i].core.regs[r].claim
    decreases j
  {
    if i < j {
      DecidedForever(cfg, run, acts, i, j - 1, r);
      NextDecisions(cfg, run, acts, j - 1);
    }
  }

  /** What the callback of a message so decided tells its user. */
  predicate Tells(v: Verdict, outcome: Outcome) {
    && (v == Confirmed <==> outcome == DeliverySuccess)
    && (v == Nacked <==> outcome == DeliveryNacked)
    && (v == TimedOut <==> outcome == DeliveryTimeout)
    && (v == Returned || v == Orphaned <==> outcome == DeliveryFailed)
  }

  /**
   The first decision stands, over any run: once a message has been decided, no later event
   changes that, and its callback, whenever it runs, tells it.
   */
  lemma FirstDecisionStands(cfg: Config, run: seq<State>, acts: seq<Action>, i: nat, j: nat, r: RegId)
    requires IsRun(cfg, run, acts) && i <= j < |run| && IsReg(run[i], r) && run[i].core.regs[r].claim.Settled?
    ensures IsReg(run[j], r) && run[j].core.regs[r].claim == run[i].core.regs[r].claim
    ensures forall k | 0 <= k < |run[j].signals| && run[j].signals[k].source == FromReg(r) ::
              Tells(run[i].core.regs[r].claim.verdict, run[j].signals[k].outcome)
  {
    DecidedForever(cfg, run, acts, i, j, r);
    RunInvariant(cfg, run, acts, j);
    forall k | 0 <= k < |run[j].signals| && run[j].signals[k].source == FromReg(r)
      ensures Tells(run[i].core.regs[r].claim.verdict, run[j].signals[k].outcome) {
      assert SignalOk(run[j], k);
    }
  }

  lemma ReturnDecidesNext(cfg: Config, run: seq<State>, acts: seq<Action>, i: nat, g: nat, t: nat)
    requires IsRun(cfg, run, acts) && i < |acts| && acts[i] == Broker(ReadReturn(g, t))
    requires IsGen(run[i], g) && 1 <= t <= |run[i].chans[g - 1].log| && IsReg(run[i], Numbered(run[i], g, t))
    requires run[i].core.regs[Numbered(run[i], g, t)].claim.Unclaimed?
    ensures IsReg(run[i + 1], Numbered(run[i], g, t)) && run[i + 1].core.regs[Numbered(run[i], g, t)].claim == Settled(Returned)
  {
    RunInvariant(cfg, run, acts, i);
    assert run[i + 1] == Step(cfg, run[i], acts[i]);
    ReturnDecides(cfg, run[i], g, t);
  }

  /**
   In particular: if a return frame is read of a message nobody has decided yet, acked or
   not, the message has failed and its callback says so, however the run goes on.
   */
  lemma ReturnedHasFailed(cfg: Config, run: seq<State>, acts: seq<Action>, i: nat, j: nat, g: nat, t: nat)
    requires IsRun(cfg, run, acts) && i < j < |run| && acts[i] == Broker(ReadReturn(g, t))
    requires IsGen(run[i], g) && 1 <= t <= |run[i].chans[g - 1].log| && IsReg(run[i], Numbered(run[i], g, t))
    requires run[i].core.regs[Numbered(run[i], g, t)].claim.Unclaimed?
    ensures var r := Numbered(run[i], g, t);
            && IsReg(run[j], r) && run[j].core.regs[r].claim == Settled(Returned)
            && forall k | 0 <= k < |run[j].signals| && run[j].signals[k].source == FromReg(r) :: run[j].signals[k].outcome == DeliveryFailed
  {
    ReturnDecidesNext(cfg, run, acts, i, g, t);
    FirstDecisionStands(cfg, run, acts, i + 1, j, Numbered(run[i], g, t));
  }

  // ---- what becomes of an attempt -----------------------------------------------------------------------------------

  /** Call c has failed this attempt with this error, and nothing else has happened. */
  ghost predicate OnlyFails(s: State, s': State, c: nat, error: AttemptError) {
    && IsCall(s, c) && |s'.calls| == |s.calls|
    && s' == s.(holder := Free, strays := s'.strays, calls := s.calls[c := s'.calls[c]])
    && s'.calls[c] == s.calls[c].(state := AttemptFailed(error))
  }

  lemma BeginCases(s: State, c: nat, contextDone: bool)
    requires IsCall(s, c) && s.holder.Free? && IsGen(s, s.core.current)
    ensures var s' := Begin(s, c, contextDone);
            && (s.core.closed ==> OnlyFails(s, s', c, PublisherClosed))
            && (!s.core.closed && !s.chans[s.core.current - 1].open ==> OnlyFails(s, s', c, ChannelClosed))
            && (!s.core.closed && s.chans[s.core.current - 1].open && contextDone ==> OnlyFails(s, s', c, ContextDone))
            && (!s.core.closed && s.chans[s.core.current - 1].open && !contextDone ==>
                  s'.holder == Checked(c, s.core.current) && s'.core == s.core && s'.calls[c].state.InAttempt?)
  {
  }

  /** An attempt begins unless the publisher is closed, the channel is closed or the context done, checked in this order. */
  lemma AttemptBegins(cfg: Config, s: State, c: nat, contextDone: bool)
    requires Inv(cfg, s) && Enabled(cfg, s, Publishing(BeginAttempt(c, contextDone)))
    ensures var s' := Step(cfg, s, Publishing(BeginAttempt(c, contextDone)));
            && (s.core.closed ==> OnlyFails(s, s', c, PublisherClosed))
            && (!s.core.closed && !s.chans[s.core.current - 1].open ==> OnlyFails(s, s', c, ChannelClosed))
            && (!s.core.closed && s.chans[s.core.current - 1].open && contextDone ==> OnlyFails(s, s', c, ContextDone))
            && (!s.core.closed && s.chans[s.core.current - 1].open && !contextDone ==>
                  s'.holder == Checked(c, s.core.current) && s'.core == s.core && s'.calls[c].state.InAttempt?)
  {
    BeginCases(s, c, contextDone);
  }

  /** A message has been registered for call c: in flight, undecided, its timer armed, under the channel's next tag. */
  ghost predicate OnlyFiles(s: State, s': State, c: nat, g: nat) {
    && IsCall(s, c) && IsGen(s, g) && s'.calls == s.calls && s'.chans == s.chans && s'.core.stats == s.core.stats
    && |s'.core.regs| == |s.core.regs| + 1 && s'.core.regs[..|s.core.regs|] == s.core.regs
    && s'.holder == Stored(|s.core.regs|) && Filed(s', |s.core.regs|)
    && var e := s'.core.regs[|s.core.regs|];
    && e.call == c && e.id == s.calls[c].id && e.mandatory == s.calls[c].mandatory && e.gen == g && e.tag == |s.chans[g - 1].log| + 1
    && e.claim.Unclaimed? && e.inFlight && e.delivery.Armed? && e.grace.NoTimer? && e.retryCount == s.calls[c].retry
  }

  lemma RegisterRefuses(s: State, fired: bool)
    requires s.holder.Checked? && IsCall(s, s.holder.call) && 1 <= s.holder.gen <= |s.core.gens|
    requires s.core.gens[s.holder.gen - 1].dead || s.calls[s.holder.call].id in s.core.index.byId
    ensures OnlyFails(s, DoRegister(s, fired), s.holder.call, if s.core.gens[s.holder.gen - 1].dead then ChannelClosed else DuplicateId)
  {
  }

  lemma RegisterFiles(s: State, fired: bool)
    requires s.holder.Checked? && IsCall(s, s.holder.call) && 1 <= s.holder.gen <= |s.core.gens| == |s.chans|
    requires ChannelOk(s, s.holder.gen) && !s.core.gens[s.holder.gen - 1].dead && s.calls[s.holder.call].id !in s.core.index.byId
    ensures OnlyFiles(s, DoRegister(s, fired), s.holder.call, s.holder.gen)
  {
  }

  /** It registers unless the generation is dead, or else the message ID taken. */
  lemma AttemptRegisters(cfg: Config, s: State, fired: bool)
    requires Inv(cfg, s) && Enabled(cfg, s, Publishing(RegisterAttempt(fired)))
    ensures var s', c, g := Step(cfg, s, Publishing(RegisterAttempt(fired))), s.holder.call, s.holder.gen;
            && IsCall(s, c) && 1 <= g <= |s.core.gens|
            && (s.core.gens[g - 1].dead ==> OnlyFails(s, s', c, ChannelClosed))
            && (!s.core.gens[g - 1].dead && s.calls[c].id in s.core.index.byId ==> OnlyFails(s, s', c, DuplicateId))
            && (!s.core.gens[g - 1].dead && s.calls[c].id !in s.core.index.byId ==> OnlyFiles(s, s', c, g))
  {
    var c, g := s.holder.call, s.holder.gen;
    assert ChannelOk(s, g);
    if s.core.gens[g - 1].dead || s.calls[c].id in s.core.index.byId { RegisterRefuses(s, fired); } else { RegisterFiles(s, fired); }
  }

  /** A failed attempt may be followed by another exactly if the channel was at fault and the configuration allows it. */
  lemma MayTryAgainExactly(cfg: Config, s: State, c: nat)
    requires WellFormed(s) && IsCall(s, c) && s.calls[c].state.AttemptFailed?
    ensures Enabled(cfg, s, Publishing(RetryAttempt(c))) <==>
            && (s.calls[c].state.error == ChannelClosed || s.calls[c].state.error == SendError(true))
            && cfg.autoReconnect && (cfg.maxConnectionRetries == 0 || s.calls[c].attempts < cfg.maxConnectionRetries)
  {
  }

  /** The call is as it was, or has returned an error. */
  ghost predicate StaysOrReturns(s: State, s': State, c: nat) {
    IsCall(s, c) && IsCall(s', c) && (s'.calls[c].state == s.calls[c].state || s'.calls[c].state.ReturnedError?)
  }

  lemma PublishingEndsIt(cfg: Config, s: State, a: PublishAction, c: nat)
    requires WellFormed(s) && PublishEnabled(cfg, s, a) && a != RetryAttempt(c)
    requires IsCall(s, c) && s.calls[c].state.AttemptFailed? && HolderCall(s) != c
    ensures StaysOrReturns(s, PublishStep(cfg, s, a), c)
  {
  }

  lemma FinishingEndsIt(cfg: Config, s: State, a: FinishAction, c: nat)
    requires WellFormed(s) && FinishEnabled(s, a) && IsCall(s, c) && s.calls[c].state.AttemptFailed?
    ensures StaysOrReturns(s, FinishStep(cfg, s, a), c)
  {
  }

  /** Otherwise the call can only return an error. */
  lemma FatalErrorsEnd(cfg: Config, s: State, a: Action, c: nat)
    requires Inv(cfg, s) && Enabled(cfg, s, a) && IsCall(s, c) && s.calls[c].state.AttemptFailed?
    requires !cfg.autoReconnect || !(s.calls[c].state.error == ChannelClosed || s.calls[c].state.error == SendError(true))
    ensures StaysOrReturns(s, Step(cfg, s, a), c)
  {
    assert CallOk(cfg, s, c);
    match a
    case Publishing(x) => PublishingEndsIt(cfg, s, x, c);
    case Finishing(x) => FinishingEndsIt(cfg, s, x, c);
    case _ => assert Step(cfg, s, a).calls == s.calls;
  }

  /** A failed send is taken back step by step: its entry leaves the map, its timer is stopped, and its call learns the error. */
  lemma FailedSendIsTakenBack(cfg: Config, s: State, a: PublishAction)
    requires Inv(cfg, s) && Enabled(cfg, s, Publishing(a)) && (a.DeleteFailed? || a.StopFailed? || a.UncountFailed?)
    ensures var r, s' := s.holder.reg, Step(cfg, s, Publishing(a));
            && (a.DeleteFailed? ==> !Filed(s', r) && s'.holder == FailStop(r, s.holder.channelError))
            && (a.StopFailed? ==> TimersOff(s'.core.regs[r]) && s'.holder == FailUncount(r, s.holder.channelError))
            && (a.UncountFailed? ==> s'.calls[s.core.regs[r].call].state == AttemptFailed(SendError(s.holder.channelError)) && s'.holder.Free?)
  {
    assert EntryOk(cfg, s, s.holder.reg);
  }

  /** Close stops the timers of whichever message it comes to. */
  lemma CloseStopsTimers(cfg: Config, s: State, r: RegId)
    requires Inv(cfg, s) && Enabled(cfg, s, Channels(StopTimerOnClose(r)))
    ensures OthersStay(s, Step(cfg, s, Channels(StopTimerOnClose(r))), r) && TimersOff(Step(cfg, s, Channels(StopTimerOnClose(r))).core.regs[r])
  {
    assert EntryOk(cfg, s, r);
  }

  // ---- what becomes of a new channel ------------------------------------------------------------------------------------

  /** A channel that a refresh has opened is made ready, or given up if that fails or the publisher has been closed. */
  lemma NewChannelIsPrepared(cfg: Config, s: State, ok: bool)
    requires RefreshOk(s) && Enabled(cfg, s, Channels(PrepareChannel(ok)))
    ensures var s' := Step(cfg, s, Channels(PrepareChannel(ok)));
            && s'.core == s.core && s'.chans == s.chans && s'.opens == s.opens
            && if ok && !s.core.closed then s'.refresher == Prepared(s.core.current) && s'.discards == s.discards
               else s'.refresher.NoRefresh? && s'.discards == s.discards + 1
  {
  }

  /**
   One made ready is installed as the next generation, live and empty, and the one it
   replaces left to be closed; or given up if the publisher has been closed meanwhile.
   Messages, map and statistics are not touched by that.
   */
  lemma NewChannelIsInstalled(cfg: Config, s: State)
    requires RefreshOk(s) && Enabled(cfg, s, Channels(InstallChannel))
    ensures var s' := Step(cfg, s, Channels(InstallChannel));
            && s'.core.regs == s.core.regs && s'.core.index == s.core.index && s'.core.stats == s.core.stats
            && s'.opens == s.opens && s'.refresher.NoRefresh?
            && if s.core.closed then s'.discards == s.discards + 1 && s'.core == s.core && s'.chans == s.chans
               else
                 && s'.core.current == s.core.current + 1 == |s'.chans| && s'.chans[..|s.chans|] == s.chans
                 && s'.chans[|s.chans|] == FRESH_CHANNEL && s'.core.gens == s.core.gens + [Generation(0, false)]
                 && s'.toClose == s.toClose + {s.core.current} && s'.discards == s.discards
  {
  }
}
