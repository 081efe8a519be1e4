/**
 Exactly when a callback that reports a timeout means the message's own timer: in terms of
 the configuration and the calls made, over all executions, whatever the broker does.
 */
module DeliveryTimeouts {
  import opened DeliveryKeys
  import opened PendingMap
  import opened DeliveryCore
  import opened DeliverySystem
  import opened DeliveryInvariant
  import opened DeliveryPreservation
  import opened PreserveHandlers
  import opened PreservePublish
  import opened CallerDiscipline
  import opened Scenarios

  /** No message has been claimed as timed out but by its own timer. */
  ghost predicate OwnTimeouts(s: State) {
    forall r {:trigger s.core.regs[r]} | 0 <= r < |s.core.regs| && s.core.regs[r].claim == Settled(TimedOut) ::
      s.core.regs[r].delivery.Spent?
  }

  /** That is so throughout every execution in which these calls are made. */
  ghost predicate AlwaysOwnTimeouts(cfg: Config, requests: seq<Request>) {
    forall run: seq<State>, acts: seq<Action> {:trigger IsExecution(cfg, run, acts)} |
      IsExecution(cfg, run, acts) && Requests(acts) == requests ::
      forall i {:trigger run[i]} | 0 <= i < |run| :: OwnTimeouts(run[i])
  }

  // ---- one user call that never tries again ---------------------------------------------------

  /** The wire has taken the send that is under way. */
  predicate Accepting(h: Holder) { (h.Sent? && h.ok) || h.SendOk? || h.Deferred? }

  /** The send of the r-th call was accepted. */
  predicate OnItsWay(s: State, r: nat) {
    IsCall(s, r) && (s.calls[r].state == ReturnedNil(r) || (HolderReg(s.holder) == r && Accepting(s.holder)))
  }

  /** The call makes no further attempt. */
  predicate GaveUp(st: CallState) {
    st.AttemptFailed? || st.ReturnedError? || st.ErrorSignalled? || st.ErrorSilent?
  }

  /** An undecided message has been neither refused nor handed to a goroutine; a timeout was the message's own. */
  predicate Plain(e: Entry) {
    && (e.claim.Unclaimed? ==> e.work.NoWork? && !e.nacked)
    && (e.claim == Settled(TimedOut) || e.timeoutDeferred ==> e.delivery.Spent?)
  }

  predicate AwaitsRetry(w: Work) { w.RetryQueued? || w.RetryWaiting? }

  /** The r-th registration is the only one of the r-th call, and led to the next call or to none yet. */
  ghost predicate Alone(s: State, r: nat) {
    && IsReg(s, r) && IsCall(s, r)
    && var e := s.core.regs[r];
    && e.call == r && Plain(e)
    && IsGen(s, e.gen) && e.gen < GENERATION_SPAN && 1 <= e.tag < TAG_SPAN && e.key == DeliveryKey(e.gen, e.tag)
    && (e.work.Retried? <==> r < |s.calls| - 1)
    && (if OnItsWay(s, r) then e.tag <= |s.chans[e.gen - 1].log|
        else
          && e.tag == |s.chans[e.gen - 1].log| + 1
          && !AwaitsRetry(e.work) && !e.work.Retried?
          && (GaveUp(s.calls[r].state) || HolderReg(s.holder) == r))
  }

  ghost predicate AllAlone(s: State) {
    && |s.core.regs| <= |s.calls| <= |s.core.regs| + 1
    && (s.calls != [] ==> s.calls[0].IsRoot())
    && forall r {:trigger Alone(s, r)} | IsReg(s, r) :: Alone(s, r)
  }

  ghost predicate HasKey(s: State, r: nat, k: nat) { IsReg(s, r) && s.core.regs[r].key == k }

  /** No key is used twice, and timers that outlive a refused attempt have keys of their own. */
  ghost predicate KeysDiffer(s: State) {
    && (forall r, r' {:trigger s.core.regs[r], s.core.regs[r']} | 0 <= r < r' < |s.core.regs| :: s.core.regs[r].key != s.core.regs[r'].key)
    && (forall k | k in s.core.index.byKey :: HasKey(s, s.core.index.byKey[k], k))
    && (forall k: nat, r: nat | k in s.strays :: !HasKey(s, r, k))
    && (s.strays != multiset{} ==> s.calls != [] && GaveUp(s.calls[|s.calls| - 1].state))
  }

  ghost predicate OneHolder(s: State) {
    && (s.holder.Checked? ==>
          && s.holder.call == |s.core.regs| == |s.calls| - 1 && s.calls[s.holder.call].state.InAttempt?
          && s.holder.gen == s.core.current)
    && (HolderReg(s.holder) >= 0 ==>
          && HolderReg(s.holder) == |s.core.regs| - 1 < |s.calls| && s.calls[HolderReg(s.holder)].state.InAttempt?
          && s.core.regs[HolderReg(s.holder)].gen == s.core.current
          && ((s.holder.SendOk? || s.holder.Deferred?) && s.holder.timeout ==> s.core.regs[HolderReg(s.holder)].timeoutDeferred))
  }

  ghost predicate Counts(s: State, g: nat) {
    && IsGen(s, g) && |s.core.gens| == |s.chans|
    && var ch := s.chans[g - 1];
    && |ch.log| == s.core.gens[g - 1].published + (if Ahead(s.holder) && g == s.core.current then 1 else 0)
    && |ch.log| < TAG_SPAN && (forall t | t in ch.answers :: 1 <= t <= |ch.log|)
  }

  ghost predicate ChannelsCount(s: State) {
    && s.core.current == s.core.genCounter == |s.core.gens| == |s.chans| && 1 <= s.core.current < GENERATION_SPAN
    && forall g {:trigger Counts(s, g)} | IsGen(s, g) :: Counts(s, g)
  }

  /** Every attempt was that of another call, and each call but the last was accepted and refused by the broker. */
  ghost predicate Single(s: State) {
    AllAlone(s) && KeysDiffer(s) && OneHolder(s) && ChannelsCount(s)
  }

  // ---- steps that only concern messages ----------------------------------------------------------

  /** What may become of a message by itself. */
  predicate Ages(e: Entry, e': Entry, onItsWay: bool) {
    && e'.call == e.call && e'.key == e.key && e'.gen == e.gen && e'.tag == e.tag
    && Plain(e') && (e'.work.Retried? <==> e.work.Retried?) && (e.timeoutDeferred ==> e'.timeoutDeferred)
    && (AwaitsRetry(e'.work) ==> AwaitsRetry(e.work) || onItsWay)
  }

  /** Calls and the holder of publishMu stay as they are. */
  ghost predicate OnlyMessages(s: State, s': State) {
    && s' == s.(core := s.core.(regs := s'.core.regs, stats := s'.core.stats, index := s'.core.index, gens := s'.core.gens, closed := s'.core.closed),
                chans := s'.chans, signals := s'.signals, strays := s'.strays, misfires := s'.misfires,
                refresher := s'.refresher, toClose := s'.toClose,
                opens := s'.opens, discards := s'.discards, overtakes := s'.overtakes, barrier := s'.barrier)
    && |s'.core.regs| == |s.core.regs|
    && (forall r {:trigger s'.core.regs[r]} | 0 <= r < |s.core.regs| ::
          s'.core.regs[r] == s.core.regs[r] || Ages(s.core.regs[r], s'.core.regs[r], OnItsWay(s, r)))
    && (forall k | k in s'.core.index.byKey :: k in s.core.index.byKey && s'.core.index.byKey[k] == s.core.index.byKey[k])
    && s'.strays <= s.strays
    && |s'.chans| == |s.chans| && |s'.core.gens| == |s.core.gens|
    && (forall g {:trigger s'.chans[g]} | 0 <= g < |s.chans| ::
          s'.chans[g].log == s.chans[g].log && forall t | t in s'.chans[g].answers :: 1 <= t <= |s.chans[g].log|)
    && (forall g {:trigger s'.core.gens[g]} | 0 <= g < |s.core.gens| :: s'.core.gens[g].published == s.core.gens[g].published)
  }

  lemma MessagesStayAlone(s: State, s': State)
    requires AllAlone(s) && OnlyMessages(s, s')
    ensures AllAlone(s')
  {
    forall r | IsReg(s', r) ensures Alone(s', r) {
      assert Alone(s, r);
    }
  }

  lemma MessagesKeepKeys(s: State, s': State)
    requires AllAlone(s) && KeysDiffer(s) && OnlyMessages(s, s')
    ensures KeysDiffer(s')
  {
    forall r: nat, k: nat | HasKey(s', r, k) ensures HasKey(s, r, k) {
      assert Alone(s, r);
    }
    forall k | k in s'.core.index.byKey ensures HasKey(s', s'.core.index.byKey[k], k) {
      assert HasKey(s, s.core.index.byKey[k], k);
    }
    forall r, r' | 0 <= r < r' < |s'.core.regs| ensures s'.core.regs[r].key != s'.core.regs[r'].key {
      assert s.core.regs[r].key != s.core.regs[r'].key;
    }
  }

  lemma MessagesKeepSingle(s: State, s': State)
    requires Single(s) && OnlyMessages(s, s')
    ensures Single(s')
  {
    MessagesStayAlone(s, s');
    MessagesKeepKeys(s, s');
    forall g | IsGen(s', g) ensures Counts(s', g) {
      assert Counts(s, g);
    }
  }

  /** A message rewritten in place. */
  lemma RewriteKeepsSingle(s: State, s': State, r: nat, e': Entry)
    requires Single(s) && IsReg(s, r) && Ages(s.core.regs[r], e', OnItsWay(s, r))
    requires s' == s.(core := Update(s.core, r, e'), chans := s'.chans, strays := s'.strays, misfires := s'.misfires)
    requires s'.strays <= s.strays && |s'.chans| == |s.chans|
    requires forall g {:trigger s'.chans[g]} | 0 <= g < |s.chans| ::
               s'.chans[g] == s.chans[g].(answersRead := s'.chans[g].answersRead, bouncedRead := s'.chans[g].bouncedRead, sweep := s'.chans[g].sweep)
    ensures Single(s')
  {
    forall g | 0 <= g < |s.chans| ensures s'.chans[g].log == s.chans[g].log && forall t | t in s'.chans[g].answers :: 1 <= t <= |s.chans[g].log| {
      assert Counts(s, g + 1);
    }
    MessagesKeepSingle(s, s');
  }

  // ---- steps that only concern the call and the holder of publishMu ------------------------------------

  /** No key becomes another message's, and no timer of a refused attempt becomes one too many. */
  lemma KeysStay(s: State, s': State)
    requires KeysDiffer(s) && |s'.core.regs| == |s.core.regs| && s'.strays <= s.strays
    requires forall r {:trigger s'.core.regs[r]} | 0 <= r < |s.core.regs| :: s'.core.regs[r].key == s.core.regs[r].key
    requires forall k | k in s'.core.index.byKey :: k in s.core.index.byKey && s'.core.index.byKey[k] == s.core.index.byKey[k]
    requires s'.strays != multiset{} ==> s'.calls != [] && GaveUp(s'.calls[|s'.calls| - 1].state)
    ensures KeysDiffer(s')
  {
    forall k | k in s'.core.index.byKey ensures HasKey(s', s'.core.index.byKey[k], k) { assert HasKey(s, s.core.index.byKey[k], k); }
    forall k: nat, r: nat | k in s'.strays ensures !HasKey(s', r, k) { assert !HasKey(s, r, k); }
    forall r, r' | 0 <= r < r' < |s'.core.regs| ensures s'.core.regs[r].key != s'.core.regs[r'].key {
      assert s.core.regs[r].key != s.core.regs[r'].key;
    }
  }

  // ---- timers -----------------------------------------------------------------------------------

  /** What a timer's function makes of its own message. */
  lemma TimersAge(cfg: Config, e: Entry, onItsWay: bool)
    requires Plain(e)
    ensures Ages(e, TimeOut(cfg, e.(delivery := Spent)), onItsWay)
    ensures Ages(e, GraceExpired(cfg, e.(grace := Spent)), onItsWay)
  {
  }

  lemma OrphansAge(cfg: Config, e: Entry, onItsWay: bool)
    requires Plain(e)
    ensures Ages(e, Orphan(cfg, e), onItsWay)
  {
  }

  lemma StoppingAges(e: Entry, onItsWay: bool)
    requires Plain(e)
    ensures Ages(e, e.StopTimer(), onItsWay)
  {
  }

  /** A key leads to the one message it belongs to. */
  lemma KeyIsOwn(s: State, r: nat)
    requires KeysDiffer(s) && IsReg(s, r) && s.core.regs[r].key in s.core.index.byKey
    ensures s.core.index.byKey[s.core.regs[r].key] == r
  {
    var r' := s.core.index.byKey[s.core.regs[r].key];
    assert HasKey(s, r', s.core.regs[r].key);
  }

  lemma RunDeliveryKeepsSingle(cfg: Config, s: State, r: nat)
    requires Single(s) && WellFormed(s) && TimerEnabled(s, RunDelivery(r))
    ensures Single(TimerStep(cfg, s, RunDelivery(r)))
  {
    var e := s.core.regs[r];
    assert Alone(s, r);
    TimersAge(cfg, e, OnItsWay(s, r));
    if e.key in s.core.index.byKey {
      KeyIsOwn(s, r);
      UpdateTwice(s.core, r, e.(delivery := Spent), TimeOut(cfg, e.(delivery := Spent)));
      RewriteKeepsSingle(s, TimerStep(cfg, s, RunDelivery(r)), r, TimeOut(cfg, e.(delivery := Spent)));
    } else {
      RewriteKeepsSingle(s, TimerStep(cfg, s, RunDelivery(r)), r, e.(delivery := Spent));
    }
  }

  lemma RunGraceKeepsSingle(cfg: Config, s: State, r: nat)
    requires Single(s) && WellFormed(s) && TimerEnabled(s, RunGrace(r))
    ensures Single(TimerStep(cfg, s, RunGrace(r)))
  {
    var e := s.core.regs[r];
    assert Alone(s, r);
    TimersAge(cfg, e, OnItsWay(s, r));
    if e.key in s.core.index.byKey {
      KeyIsOwn(s, r);
      UpdateTwice(s.core, r, e.(grace := Spent), GraceExpired(cfg, e.(grace := Spent)));
      RewriteKeepsSingle(s, TimerStep(cfg, s, RunGrace(r)), r, GraceExpired(cfg, e.(grace := Spent)));
    } else {
      RewriteKeepsSingle(s, TimerStep(cfg, s, RunGrace(r)), r, e.(grace := Spent));
    }
  }

  lemma FiringKeepsSingle(cfg: Config, s: State, a: TimerAction)
    requires Single(s) && WellFormed(s) && TimerEnabled(s, a) && (a.FireDelivery? || a.FireGrace?)
    ensures Single(TimerStep(cfg, s, a))
  {
    var e := s.core.regs[a.reg];
    assert Alone(s, a.reg);
    RewriteKeepsSingle(s, TimerStep(cfg, s, a), a.reg, if a.FireDelivery? then e.(delivery := Fired) else e.(grace := Fired));
  }

  /** The timer of a refused attempt finds nothing. */
  lemma StrayKeepsSingle(cfg: Config, s: State, key: nat)
    requires Single(s) && WellFormed(s) && key in s.strays
    ensures Single(TimerStep(cfg, s, StrayTimeout(key)))
  {
    assert key !in s.core.index.byKey;
    forall g | 0 <= g < |s.chans| ensures forall t | t in s.chans[g].answers :: 1 <= t <= |s.chans[g].log| {
      assert Counts(s, g + 1);
    }
    MessagesKeepSingle(s, TimerStep(cfg, s, StrayTimeout(key)));
  }

  lemma TimerKeepsSingle(cfg: Config, s: State, a: TimerAction)
    requires Single(s) && WellFormed(s) && TimerEnabled(s, a)
    ensures Single(TimerStep(cfg, s, a))
  {
    match a
    case RunDelivery(r) => RunDeliveryKeepsSingle(cfg, s, r);
    case RunGrace(r) => RunGraceKeepsSingle(cfg, s, r);
    case StrayTimeout(key) => StrayKeepsSingle(cfg, s, key);
    case _ => FiringKeepsSingle(cfg, s, a);
  }

  // ---- the broker and the sweep ----------------------------------------------------------------

  lemma AnswersAge(cfg: Config, e: Entry, ack: bool)
    requires Plain(e)
    ensures Ages(e, TryFinalize(cfg, if ack then e.(confirmed := true) else e.(nacked := true)), true)
  {
  }

  /** A return frame never starts a retry, whichever message it is taken for. */
  lemma ReturnsAge(cfg: Config, e: Entry, onItsWay: bool)
    requires Plain(e) && e.claim.Unclaimed?
    ensures Ages(e, TryFinalize(cfg, e.(returned := true)), onItsWay)
  {
  }

  /** The message an answered tag leads to was accepted by its channel. */
  lemma AnsweredIsOnItsWay(s: State, g: nat, t: nat)
    requires Single(s) && WellFormed(s) && IsGen(s, g) && t in s.chans[g - 1].answers
    requires DeliveryKey(g, t) in s.core.index.byKey
    ensures OnItsWay(s, s.core.index.byKey[DeliveryKey(g, t)])
  {
    var r := s.core.index.byKey[DeliveryKey(g, t)];
    assert HasKey(s, r, DeliveryKey(g, t));
    assert Alone(s, r);
    assert Counts(s, g);
    KeyInjective(g, t, s.core.regs[r].gen, s.core.regs[r].tag);
  }

  /** Only what the channels and the readers know has changed. */
  lemma QuietKeepsSingle(s: State, s': State)
    requires Single(s) && |s'.chans| == |s.chans| && |s.core.gens| == |s'.core.gens|
    requires s' == s.(core := s.core.(gens := s'.core.gens, closed := s'.core.closed), chans := s'.chans,
                      refresher := s'.refresher, toClose := s'.toClose,
                opens := s'.opens, discards := s'.discards, overtakes := s'.overtakes, barrier := s'.barrier)
    requires forall g {:trigger s'.core.gens[g]} | 0 <= g < |s.core.gens| :: s'.core.gens[g].published == s.core.gens[g].published
    requires forall g {:trigger s'.chans[g]} | 0 <= g < |s.chans| ::
               s'.chans[g].log == s.chans[g].log && forall t | t in s'.chans[g].answers :: t in s.chans[g].answers || 1 <= t <= |s.chans[g].log|
    ensures Single(s')
  {
    forall g | 0 <= g < |s.chans| ensures s'.chans[g].log == s.chans[g].log && forall t | t in s'.chans[g].answers :: 1 <= t <= |s.chans[g].log| {
      assert Counts(s, g + 1);
    }
    MessagesKeepSingle(s, s');
  }

  lemma ReadConfirmKeepsSingle(cfg: Config, s: State, g: nat, t: nat)
    requires Single(s) && WellFormed(s) && BrokerEnabled(s, ReadConfirm(g, t))
    ensures Single(DoReadConfirm(cfg, s, g, t))
  {
    var key, ack, s' := DeliveryKey(g, t), s.chans[g - 1].answers[t], DoReadConfirm(cfg, s, g, t);
    if key in s.core.index.byKey {
      var r := s.core.index.byKey[key];
      AnsweredIsOnItsWay(s, g, t);
      assert Alone(s, r);
      AnswersAge(cfg, s.core.regs[r], ack);
      RewriteKeepsSingle(s, s', r, s'.core.regs[r]);
    } else {
      QuietKeepsSingle(s, s');
    }
  }

  lemma ReadReturnKeepsSingle(cfg: Config, s: State, g: nat, t: nat)
    requires Single(s) && WellFormed(s) && BrokerEnabled(s, ReadReturn(g, t))
    ensures Single(DoReadReturn(cfg, s, g, t))
  {
    ReturnStep(cfg, s, g, t);
    var id := s.core.regs[s.chans[g - 1].log[t - 1]].id;
    var r := if id in s.core.index.byId then s.core.index.byId[id] else s.chans[g - 1].log[t - 1];
    var e := s.core.regs[r];
    assert Alone(s, r);
    if id in s.core.index.byId && e.claim.Unclaimed? {
      ReturnsAge(cfg, e, OnItsWay(s, r));
      RewriteKeepsSingle(s, DoReadReturn(cfg, s, g, t), r, TryFinalize(cfg, e.(returned := true)));
    } else {
      RewriteKeepsSingle(s, DoReadReturn(cfg, s, g, t), r, e);
    }
  }

  lemma BrokerKeepsSingle(cfg: Config, s: State, a: BrokerAction)
    requires Single(s) && WellFormed(s) && BrokerEnabled(s, a)
    ensures Single(BrokerStep(cfg, s, a))
  {
    match a
    case ReadConfirm(g, t) => ReadConfirmKeepsSingle(cfg, s, g, t);
    case ReadReturn(g, t) => ReadReturnKeepsSingle(cfg, s, g, t);
    case _ => QuietKeepsSingle(s, BrokerStep(cfg, s, a));
  }

  lemma SweepKeepsSingle(cfg: Config, s: State, a: SweepAction)
    requires Single(s) && WellFormed(s) && SweepEnabled(s, a)
    ensures Single(SweepStep(cfg, s, a))
  {
    match a
    case SweepSettle(g, r) =>
      assert Alone(s, r);
      OrphansAge(cfg, s.core.regs[r], OnItsWay(s, r));
      RewriteKeepsSingle(s, SweepStep(cfg, s, a), r, Orphan(cfg, s.core.regs[r]));
    case _ => QuietKeepsSingle(s, SweepStep(cfg, s, a));
  }

  // ---- refreshes and Close -------------------------------------------------------------------------

  /** s' is s with a new generation. */
  ghost predicate Succeeds(s: State, s': State) {
    && s.holder.Free? && |s.core.gens| == |s.chans|
    && s' == s.(core := Install(s.core), chans := s.chans + [FRESH_CHANNEL], refresher := NoRefresh, toClose := s'.toClose)
  }

  lemma SuccessorStaysAlone(s: State, s': State)
    requires AllAlone(s) && Succeeds(s, s')
    ensures AllAlone(s')
  {
    forall r | IsReg(s', r) ensures Alone(s', r) { assert Alone(s, r); }
  }

  lemma SuccessorCounts(s: State, s': State)
    requires ChannelsCount(s) && Succeeds(s, s') && s.core.genCounter + 1 < GENERATION_SPAN
    ensures ChannelsCount(s')
  {
    forall g: nat | IsGen(s', g) ensures Counts(s', g) { if IsGen(s, g) { assert Counts(s, g); } }
  }

  lemma InstallKeepsSingle(s: State)
    requires Single(s) && s.refresher.Prepared? && s.holder.Free? && s.core.genCounter + 1 < GENERATION_SPAN
    ensures Single(DoInstall(s))
  {
    var s' := DoInstall(s);
    if s'.core.current == s.core.current {
      QuietKeepsSingle(s, s');
    } else {
      SuccessorStaysAlone(s, s');
      SuccessorCounts(s, s');
      KeysStay(s, s');
    }
  }

  lemma StopOnCloseKeepsSingle(s: State, r: nat)
    requires Single(s) && IsReg(s, r)
    ensures Single(s.(core := StopTimerOf(s.core, r)))
  {
    assert Alone(s, r);
    StoppingAges(s.core.regs[r], OnItsWay(s, r));
    assert StopTimerOf(s.core, r) == Update(s.core, r, s.core.regs[r].StopTimer());
    RewriteKeepsSingle(s, s.(core := StopTimerOf(s.core, r)), r, s.core.regs[r].StopTimer());
  }

  lemma ChannelKeepsSingle(cfg: Config, s: State, a: ChannelAction)
    requires Single(s) && WellFormed(s) && ChannelEnabled(s, a) && WithinLimits(s, Channels(a))
    ensures Single(ChannelStep(cfg, s, a))
  {
    match a
    case InstallChannel => InstallKeepsSingle(s);
    case StopTimerOnClose(r) => StopOnCloseKeepsSingle(s, r);
    case _ => QuietKeepsSingle(s, ChannelStep(cfg, s, a));
  }

  // ---- goroutines ---------------------------------------------------------------------------------------

  lemma GoroutineKeepsSingle(cfg: Config, s: State, a: FinishAction)
    requires Single(s) && WellFormed(s) && FinishEnabled(s, a) && (a.RunCleanup? || a.RunCallback? || a.RunRetry?)
    ensures Single(FinishStep(cfg, s, a))
  {
    assert Alone(s, a.reg);
    forall g | 0 <= g < |s.chans| ensures forall t | t in s.chans[g].answers :: 1 <= t <= |s.chans[g].log| {
      assert Counts(s, g + 1);
    }
    MessagesKeepSingle(s, FinishStep(cfg, s, a));
  }

  /** Only the last call's message is republished, and only once its send was accepted. */
  lemma RepublishKeepsSingle(cfg: Config, s: State, r: nat)
    requires Single(s) && WellFormed(s) && FinishEnabled(s, Republish(r))
    ensures Single(DoRepublish(s, r))
  {
    var s' := DoRepublish(s, r);
    assert Alone(s, r);
    assert s.strays == multiset{};
    forall r' | IsReg(s', r') ensures Alone(s', r') { assert Alone(s, r'); }
    forall k | k in s'.core.index.byKey ensures HasKey(s', s'.core.index.byKey[k], k) { assert HasKey(s, s.core.index.byKey[k], k); }
    forall g | IsGen(s', g) ensures Counts(s', g) { assert Counts(s, g); }
  }

  /** A call that gave up goes on to say so. */
  lemma GivingUpKeepsSingle(s: State, s': State, c: nat)
    requires Single(s) && IsCall(s, c) && GaveUp(s.calls[c].state) && |s'.calls| == |s.calls| && GaveUp(s'.calls[c].state)
    requires s' == s.(calls := s.calls[c := s.calls[c].(state := s'.calls[c].state)], signals := s'.signals)
    ensures Single(s')
  {
    forall r | IsReg(s', r) ensures Alone(s', r) { assert Alone(s, r); }
    KeysStay(s, s');
    forall g | IsGen(s', g) ensures Counts(s', g) { assert Counts(s, g); }
  }

  lemma FinishKeepsSingle(cfg: Config, s: State, a: FinishAction)
    requires Single(s) && WellFormed(s) && FinishEnabled(s, a)
    ensures Single(FinishStep(cfg, s, a))
  {
    match a
    case Republish(r) => RepublishKeepsSingle(cfg, s, r);
    case RetryErrorCallback(c) => GivingUpKeepsSingle(s, FinishStep(cfg, s, a), c);
    case _ => GoroutineKeepsSingle(cfg, s, a);
  }

  // ---- the call and its attempt ------------------------------------------------------------------------

  /** Only the first call of all is the user's. */
  lemma NewCallKeepsSingle(s: State, call: Call)
    requires Single(s) && s.calls == [] && call.IsRoot() && call.state.Ready?
    ensures Single(s.(calls := [call]))
  {
    var s' := s.(calls := [call]);
    forall g | IsGen(s', g) ensures Counts(s', g) { assert Counts(s, g); }
  }

  /** The call that begins an attempt is the last, and has made none yet. */
  lemma ReadyIsLast(s: State, c: nat)
    requires Single(s) && s.holder.Free? && IsCall(s, c) && s.calls[c].state.Ready?
    ensures c == |s.core.regs| == |s.calls| - 1
  {
    assert IsReg(s, c) ==> Alone(s, c);
  }

  /** The last call moves on before it has registered anything. */
  ghost predicate LastMoves(s: State, s': State) {
    && |s.calls| == |s.core.regs| + 1 == |s'.calls|
    && s' == s.(calls := s.calls[|s.core.regs| := s.calls[|s.core.regs|].(state := s'.calls[|s.core.regs|].state)],
                holder := s'.holder, strays := s'.strays)
    && HolderReg(s.holder) == -1 == HolderReg(s'.holder)
  }

  lemma LastMovesAlone(s: State, s': State)
    requires AllAlone(s) && ChannelsCount(s) && LastMoves(s, s')
    ensures AllAlone(s') && ChannelsCount(s')
  {
    forall r | IsReg(s', r) ensures Alone(s', r) { assert Alone(s, r); }
    forall g | IsGen(s', g) ensures Counts(s', g) { assert Counts(s, g); }
  }

  lemma BeginKeepsSingle(s: State, c: nat, contextDone: bool)
    requires Single(s) && s.holder.Free? && IsCall(s, c) && s.calls[c].state.Ready? && IsGen(s, s.core.current)
    ensures Single(Begin(s, c, contextDone))
  {
    var s' := Begin(s, c, contextDone);
    ReadyIsLast(s, c);
    LastMovesAlone(s, s');
    KeysStay(s, s');
  }

  /** The key of the attempt under way has never been used. */
  lemma NextKeyIsNew(s: State, r: nat)
    requires Single(s) && s.holder.Checked? && IsReg(s, r) && s.core.gens[s.core.current - 1].published + 1 < TAG_SPAN
    ensures s.core.regs[r].key != DeliveryKey(s.core.current, s.core.gens[s.core.current - 1].published + 1)
  {
    assert Alone(s, r);
    assert Counts(s, s.core.current);
    if s.core.regs[r].key == DeliveryKey(s.core.current, s.core.gens[s.core.current - 1].published + 1) {
      KeyInjective(s.core.regs[r].gen, s.core.regs[r].tag, s.core.current, s.core.gens[s.core.current - 1].published + 1);
    }
  }

  lemma RefuseKeepsSingle(s: State, error: AttemptError, fired: bool)
    requires Single(s) && s.holder.Checked? && IsCall(s, s.holder.call) && 1 <= s.holder.gen <= |s.core.gens|
    requires s.core.gens[s.holder.gen - 1].published + 1 < TAG_SPAN
    ensures Single(Refuse(s, error, fired))
  {
    var s' := Refuse(s, error, fired);
    assert s.strays == multiset{};
    LastMovesAlone(s, s');
    KeysStay(s, s'.(strays := s.strays));
    forall k: nat, r: nat | k in s'.strays ensures !HasKey(s', r, k) { if IsReg(s, r) { NextKeyIsNew(s, r); } }
  }

  /** s' is s with a message registered for the last call. */
  ghost predicate RegistersNext(s: State, s': State) {
    && s.holder.Checked? && IsCall(s, s.holder.call) && IsGen(s, s.holder.gen) && |s.core.gens| == |s.chans|
    && s.core.gens[s.holder.gen - 1].published + 1 < TAG_SPAN
    && var call := s.calls[s.holder.call];
    && var e := NewEntry(s.holder.call, call.id, call.mandatory, s.holder.gen, s.core.gens[s.holder.gen - 1].published + 1, call.retry);
    && s' == s.(core := s.core.(regs := s.core.regs + [e], index := StoreIn(s.core.index, e.id, e.key, |s.core.regs|).0),
                holder := Stored(|s.core.regs|))
  }

  lemma RegisteringStaysAlone(s: State, s': State)
    requires Single(s) && RegistersNext(s, s')
    ensures AllAlone(s')
  {
    assert Counts(s, s.core.current);
    forall r | IsReg(s', r) ensures Alone(s', r) { if IsReg(s, r) { assert Alone(s, r); } }
  }

  lemma RegisteringKeepsKeys(s: State, s': State)
    requires Single(s) && RegistersNext(s, s')
    ensures KeysDiffer(s')
  {
    assert s.strays == multiset{};
    forall r, r' | 0 <= r < r' < |s'.core.regs| ensures s'.core.regs[r].key != s'.core.regs[r'].key {
      if IsReg(s, r') { assert s.core.regs[r].key != s.core.regs[r'].key; } else { NextKeyIsNew(s, r); }
    }
    forall k | k in s'.core.index.byKey ensures HasKey(s', s'.core.index.byKey[k], k) {
      if k in s.core.index.byKey { assert HasKey(s, s.core.index.byKey[k], k); }
    }
  }

  lemma RegisteringCounts(s: State, s': State)
    requires Single(s) && RegistersNext(s, s')
    ensures Single(s')
  {
    RegisteringStaysAlone(s, s');
    RegisteringKeepsKeys(s, s');
    forall g | IsGen(s', g) ensures Counts(s', g) { assert Counts(s, g); }
  }

  lemma RegisterKeepsSingle(s: State, fired: bool)
    requires Single(s) && WellFormed(s) && s.holder.Checked? && IsCall(s, s.holder.call) && IsGen(s, s.holder.gen)
    requires s.core.gens[s.holder.gen - 1].published + 1 < TAG_SPAN
    ensures Single(DoRegister(s, fired))
  {
    var s' := DoRegister(s, fired);
    if s'.holder.Free? {
      RefuseKeepsSingle(s, s'.calls[s.holder.call].state.error, fired);
    } else {
      RegisteringCounts(s, s');
    }
  }

  // ---- the send -------------------------------------------------------------------------------------------

  /** The send under way moves on; the message it is for stays what it is but for its claim and its timers. */
  ghost predicate SendGoesOn(s: State, s': State, r: nat) {
    && IsReg(s, r) && HolderReg(s.holder) == r == HolderReg(s'.holder)
    && s' == s.(core := s'.core, holder := s'.holder, chans := s'.chans)
    && |s'.core.regs| == |s.core.regs|
    && s'.core == s.core.(regs := s.core.regs[r := s'.core.regs[r]], stats := s'.core.stats, index := s'.core.index, gens := s'.core.gens)
    && Ages(s.core.regs[r], s'.core.regs[r], false) && s'.core.regs[r].work == s.core.regs[r].work
    && (forall k | k in s'.core.index.byKey :: k in s.core.index.byKey && s'.core.index.byKey[k] == s.core.index.byKey[k])
    && |s'.chans| == |s.chans|
    && (forall g {:trigger s'.chans[g]} | 0 <= g < |s.chans| ::
          s'.chans[g].log == if g == s.core.current - 1 && !Accepting(s.holder) && Accepting(s'.holder) then s.chans[g].log + [r] else s.chans[g].log)
    && (Accepting(s.holder) ==> Accepting(s'.holder))
    && ((s'.holder.SendOk? || s'.holder.Deferred?) && s'.holder.timeout ==> s'.core.regs[r].timeoutDeferred)
  }

  lemma SendStaysAlone(s: State, s': State, r: nat)
    requires AllAlone(s) && OneHolder(s) && SendGoesOn(s, s', r)
    ensures AllAlone(s') && OneHolder(s')
  {
    forall r' | IsReg(s', r') ensures Alone(s', r') { assert Alone(s, r') && Alone(s, r); }
  }

  lemma SendKeepsKeys(s: State, s': State, r: nat)
    requires KeysDiffer(s) && SendGoesOn(s, s', r)
    ensures KeysDiffer(s')
  {
    KeysStay(s, s');
  }

  lemma SendingKeepsSingle(s: State, s': State, r: nat)
    requires Single(s) && SendGoesOn(s, s', r) && (forall g {:trigger Counts(s', g)} | IsGen(s', g) :: Counts(s', g)) && |s'.core.gens| == |s.core.gens|
    ensures Single(s')
  {
    SendStaysAlone(s, s', r);
    SendKeepsKeys(s, s', r);
  }

  lemma WireKeepsSingle(cfg: Config, s: State, ok: bool)
    requires Single(s) && WellFormed(s) && PublishEnabled(cfg, s, WireSend(ok))
    ensures Single(PublishStep(cfg, s, WireSend(ok)))
  {
    var s', r := PublishStep(cfg, s, WireSend(ok)), s.holder.reg;
    assert Alone(s, r);
    forall g | IsGen(s', g) ensures Counts(s', g) { assert Counts(s, g); }
    SendingKeepsSingle(s, s', r);
  }

  lemma SendReturnedKeepsSingle(s: State, channelError: bool)
    requires Single(s) && s.holder.Sent? && IsReg(s, s.holder.reg)
    ensures Single(DoSendReturned(s, channelError))
  {
    var s', r := DoSendReturned(s, channelError), s.holder.reg;
    assert Alone(s, r);
    assert s'.core.regs == s.core.regs[r := s'.core.regs[r]];
    forall g | IsGen(s', g) ensures Counts(s', g) { assert Counts(s, g); }
    SendingKeepsSingle(s, s', r);
  }

  lemma CountAttemptKeepsSingle(s: State, r: nat)
    requires Single(s) && s.holder == Stored(r)
    ensures Single(s.(core := CountPublished(s.core, 1), holder := Counted(r)))
  {
    var s' := s.(core := CountPublished(s.core, 1), holder := Counted(r));
    assert Alone(s, r);
    forall g | IsGen(s', g) ensures Counts(s', g) { assert Counts(s, g); }
    SendingKeepsSingle(s, s', r);
  }

  lemma DeleteFailedKeepsSingle(s: State, r: nat, channelError: bool)
    requires Single(s) && s.holder == FailDelete(r, channelError) && IsReg(s, r)
    ensures Single(s.(core := Deregister(s.core, r), holder := FailStop(r, channelError)))
  {
    var s' := s.(core := Deregister(s.core, r), holder := FailStop(r, channelError));
    assert Alone(s, r);
    forall g | IsGen(s', g) ensures Counts(s', g) { assert Counts(s, g); }
    SendingKeepsSingle(s, s', r);
  }

  lemma CountSentKeepsSingle(s: State, s': State, r: nat)
    requires Single(s) && CountsSent(s, s', r)
    ensures Single(s')
  {
    assert Alone(s, r);
    forall g | IsGen(s', g) ensures Counts(s', g) { assert Counts(s, g); }
    SendingKeepsSingle(s, s', r);
  }

  lemma StopFailedKeepsSingle(cfg: Config, s: State)
    requires Single(s) && WellFormed(s) && PublishEnabled(cfg, s, StopFailed)
    ensures Single(PublishStep(cfg, s, StopFailed))
  {
    var s', r := PublishStep(cfg, s, StopFailed), s.holder.reg;
    assert Alone(s, r);
    StoppingAges(s.core.regs[r], false);
    forall g | IsGen(s', g) ensures Counts(s', g) { assert Counts(s, g); }
    SendingKeepsSingle(s, s', r);
  }

  /** publishMu is released: the call has been accepted, or has failed. */
  ghost predicate AttemptIsOver(s: State, s': State, r: nat) {
    && HolderReg(s.holder) == r && IsCall(s, r) && |s'.calls| == |s.calls| && !Ahead(s.holder)
    && s' == s.(core := s.core.(stats := s'.core.stats), holder := Free, calls := s.calls[r := s.calls[r].(state := s'.calls[r].state)])
    && (if Accepting(s.holder) then s'.calls[r].state == ReturnedNil(r) else s'.calls[r].state.AttemptFailed?)
  }

  lemma AttemptEndsSingle(s: State, s': State, r: nat)
    requires Single(s) && AttemptIsOver(s, s', r)
    ensures Single(s')
  {
    forall r' | IsReg(s', r') ensures Alone(s', r') { assert Alone(s, r'); }
    assert s.strays == multiset{} || s.calls[r] != s.calls[|s.calls| - 1];
    KeysStay(s, s');
    forall g | IsGen(s', g) ensures Counts(s', g) { assert Counts(s, g); }
  }

  /** A timeout that was deferred to the sender was the message's own. */
  lemma DeferredKeepsSingle(cfg: Config, s: State)
    requires Single(s) && WellFormed(s) && PublishEnabled(cfg, s, SettleDeferred)
    ensures Single(DoSettleDeferred(cfg, s))
  {
    var s', r := DoSettleDeferred(cfg, s), s.holder.reg;
    var e := s.core.regs[r];
    var s1 := s.(core := s'.core);
    assert Alone(s, r);
    OrphansAge(cfg, e, true);
    TimersAge(cfg, e, true);
    if s.holder.orphan {
      RewriteKeepsSingle(s, s1, r, Orphan(cfg, e));
    } else if s.holder.timeout && e.key in s.core.index.byKey {
      KeyIsOwn(s, r);
      assert e.(delivery := Spent) == e;
      RewriteKeepsSingle(s, s1, r, TimeOut(cfg, e));
    }
    AttemptEndsSingle(s1, s', r);
  }

  lemma UncountFailedKeepsSingle(cfg: Config, s: State)
    requires Single(s) && WellFormed(s) && PublishEnabled(cfg, s, UncountFailed)
    ensures Single(PublishStep(cfg, s, UncountFailed))
  {
    assert Alone(s, s.holder.reg);
    AttemptEndsSingle(s, PublishStep(cfg, s, UncountFailed), s.holder.reg);
  }

  lemma PublishKeepsSingle(cfg: Config, s: State, a: PublishAction)
    requires Single(s) && WellFormed(s) && PublishEnabled(cfg, s, a) && WithinLimits(s, Publishing(a)) && !cfg.autoReconnect
    requires a.NewCall? ==> s.calls == []
    ensures Single(PublishStep(cfg, s, a))
  {
    match a
    case NewCall(id, mandatory, own) =>
      var call := Call(0, -1, id, mandatory, own, 0, 0, Ready);
      NewCallKeepsSingle(s, call);
      assert s.calls + [call] == [call];
    case BeginAttempt(c, contextDone) => BeginKeepsSingle(s, c, contextDone);
    case RegisterAttempt(fired) => RegisterKeepsSingle(s, fired);
    case WireSend(ok) => WireKeepsSingle(cfg, s, ok);
    case SendReturned(channelError) => SendReturnedKeepsSingle(s, channelError);
    case StopFailed => StopFailedKeepsSingle(cfg, s);
    case UncountFailed => UncountFailedKeepsSingle(cfg, s);
    case SettleDeferred => DeferredKeepsSingle(cfg, s);
    case ReturnError(c) => GivingUpKeepsSingle(s, PublishStep(cfg, s, a), c);
    case CountAttempt => CountAttemptKeepsSingle(s, s.holder.reg);
    case DeleteFailed => DeleteFailedKeepsSingle(s, s.holder.reg, s.holder.channelError);
    case CountSent => CountSentKeepsSingle(s, PublishStep(cfg, s, a), s.holder.reg);
  }

  lemma StepKeepsSingle(cfg: Config, s: State, a: Action)
    requires Single(s) && Enabled(cfg, s, a) && WithinLimits(s, a) && !cfg.autoReconnect
    requires RequestsOf(a) != [] ==> s.calls == []
    ensures Single(Step(cfg, s, a))
  {
    match a
    case Publishing(x) => PublishKeepsSingle(cfg, s, x);
    case Broker(x) => BrokerKeepsSingle(cfg, s, x);
    case Timers(x) => TimerKeepsSingle(cfg, s, x);
    case Orphans(x) => SweepKeepsSingle(cfg, s, x);
    case Finishing(x) => FinishKeepsSingle(cfg, s, x);
    case Channels(x) => ChannelKeepsSingle(cfg, s, x);
  }

  // ---- every execution ----------------------------------------------------------------------------------------

  lemma OneMoreRequest(acts: seq<Action>, i: nat)
    requires i < |acts|
    ensures Requests(acts[..i]) + RequestsOf(acts[i]) <= Requests(acts)
  {
    RequestsOfPrefix(acts, i + 1);
    assert acts[..i + 1][..i] == acts[..i] && acts[..i + 1][i] == acts[i];
  }

  /** If there is one user call at most, the action that makes it finds none. */
  lemma OneRequestOnly(cfg: Config, run: seq<State>, acts: seq<Action>, i: nat)
    requires IsExecution(cfg, run, acts) && i < |acts| && |Requests(acts)| <= 1 && Single(run[i])
    ensures RequestsOf(acts[i]) != [] ==> run[i].calls == []
  {
    if run[i].calls != [] {
      CallsAreRequests(cfg, run, acts, i);
      var _ := UserCallAt(run[i].calls, 0);
      OneMoreRequest(acts, i);
    }
  }

  lemma {:induction false} ExecutionIsSingle(cfg: Config, run: seq<State>, acts: seq<Action>, i: nat)
    requires IsExecution(cfg, run, acts) && i < |run| && |Requests(acts)| <= 1 && !cfg.autoReconnect
    ensures Single(run[i])
  {
    if i > 0 {
      ExecutionIsSingle(cfg, run, acts, i - 1);
      OneRequestOnly(cfg, run, acts, i - 1);
      StepKeepsSingle(cfg, run[i - 1], acts[i - 1]);
    }
  }

  /** Nobody has called. */
  predicate Untouched(s: State) { s.calls == [] && s.core.regs == [] && s.holder.Free? }

  lemma PublishingStaysUntouched(cfg: Config, s: State, a: PublishAction)
    requires Untouched(s) && WellFormed(s) && PublishEnabled(cfg, s, a)
    ensures a.NewCall?
  {
  }

  lemma FinishingNeedsMessages(s: State, a: FinishAction)
    requires Untouched(s)
    ensures !FinishEnabled(s, a)
  {
  }

  lemma TimersStayUntouched(cfg: Config, s: State, a: TimerAction)
    requires Untouched(s) && WellFormed(s) && TimerEnabled(s, a)
    ensures Untouched(TimerStep(cfg, s, a))
  {
  }

  lemma BrokerStaysUntouched(cfg: Config, s: State, a: BrokerAction)
    requires Untouched(s) && WellFormed(s) && BrokerEnabled(s, a)
    ensures Untouched(BrokerStep(cfg, s, a))
  {
  }

  lemma ChannelStaysUntouched(cfg: Config, s: State, a: ChannelAction)
    requires Untouched(s) && WellFormed(s) && ChannelEnabled(s, a)
    ensures Untouched(ChannelStep(cfg, s, a))
  {
  }

  lemma StaysUntouched(cfg: Config, s: State, a: Action)
    requires Untouched(s) && Enabled(cfg, s, a) && RequestsOf(a) == []
    ensures Untouched(Step(cfg, s, a))
  {
    match a
    case Publishing(x) => PublishingStaysUntouched(cfg, s, x);
    case Finishing(x) => FinishingNeedsMessages(s, x);
    case Channels(x) => ChannelStaysUntouched(cfg, s, x);
    case Timers(x) => TimersStayUntouched(cfg, s, x);
    case Broker(x) => BrokerStaysUntouched(cfg, s, x);
    case Orphans(_) =>
  }

  lemma {:induction false} NothingWithoutCalls(cfg: Config, run: seq<State>, acts: seq<Action>, i: nat)
    requires IsExecution(cfg, run, acts) && i < |run| && Requests(acts) == []
    ensures Untouched(run[i])
  {
    if i > 0 {
      NothingWithoutCalls(cfg, run, acts, i - 1);
      RequestsOfPrefix(acts, i);
      assert RequestsOf(acts[..i][i - 1]) == [];
      StaysUntouched(cfg, run[i - 1], acts[i - 1]);
    }
  }

  /** The calls made and the configuration rule out that an attempt follows one that was given up. */
  predicate NoneFollowsAFailure(cfg: Config, requests: seq<Request>) {
    requests == [] || (|requests| == 1 && !cfg.autoReconnect)
  }

  lemma OwnTimeoutsAlways(cfg: Config, run: seq<State>, acts: seq<Action>, i: nat)
    requires IsExecution(cfg, run, acts) && i < |run| && NoneFollowsAFailure(cfg, Requests(acts))
    ensures OwnTimeouts(run[i])
  {
    if Requests(acts) == [] {
      NothingWithoutCalls(cfg, run, acts, i);
    } else {
      ExecutionIsSingle(cfg, run, acts, i);
      forall r | 0 <= r < |run[i].core.regs| && run[i].core.regs[r].claim == Settled(TimedOut) ensures run[i].core.regs[r].delivery.Spent? {
        assert Alone(run[i], r);
      }
    }
  }

  /**
   For every configuration and all calls ever made of a publisher: in every execution each
   timeout is the message's own if and only if no call is made, or a single one that does not
   try again by itself. In all other cases an attempt can follow one whose send failed, under
   the same tag and so under the same key, and be timed out by that one's timer.
   */
  lemma OwnTimeoutsExactly(cfg: Config, requests: seq<Request>)
    ensures AlwaysOwnTimeouts(cfg, requests) <==> NoneFollowsAFailure(cfg, requests)
  {
    if NoneFollowsAFailure(cfg, requests) {
      forall run: seq<State>, acts: seq<Action>, i: nat | IsExecution(cfg, run, acts) && Requests(acts) == requests && i < |run|
        ensures OwnTimeouts(run[i]) {
        OwnTimeoutsAlways(cfg, run, acts, i);
      }
    } else {
      var s := StaleTimerTimesOutAnother(cfg, requests, true, |requests| == 1);
      assert !OwnTimeouts(s) by { assert s.core.regs[1].claim == Settled(TimedOut); }
      var run, acts :| LeadsTo(cfg, requests, true, run, acts, s);
      assert IsExecution(cfg, run, acts) && !OwnTimeouts(run[|run| - 1]);
    }
  }
}
