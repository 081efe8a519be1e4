/**
 What the delivery system guarantees over a whole run: what has happened stays so.
 */
module DeliveryHistory {
  import opened DeliveryKeys
  import opened PendingMap
  import opened DeliveryCore
  import opened DeliverySystem
  import opened DeliveryInvariant
  import opened PreserveRest
  import opened DeliveryTheorems

  // ---- what every action keeps ------------------------------------------------------------

  predicate SameIdentity(e: Entry, e': Entry) {
    e'.call == e.call && e'.id == e.id && e'.gen == e.gen && e'.tag == e.tag && e'.key == e.key
  }

  /** A user's own call that has told its caller an error. */
  predicate IsRejected(call: Call) {
    call.IsRoot() && call.state.ReturnedError?
  }

  /** Registrations, dead generations, calls, errors and callbacks are never taken back. */
  ghost predicate Keeps(s: State, s': State) {
    && |s.core.regs| <= |s'.core.regs|
    && (forall r {:trigger s'.core.regs[r]} | 0 <= r < |s.core.regs| :: SameIdentity(s.core.regs[r], s'.core.regs[r]))
    && |s.core.gens| <= |s'.core.gens|
    && (forall g {:trigger s'.core.gens[g]} | 0 <= g < |s.core.gens| :: s.core.gens[g].dead ==> s'.core.gens[g].dead)
    && |s.calls| <= |s'.calls|
    && (forall c {:trigger s'.calls[c]} | 0 <= c < |s.calls| && IsRejected(s.calls[c]) && HolderCall(s) != c :: IsRejected(s'.calls[c]))
    && s.signals <= s'.signals
    && (s.core.closed ==> s'.core.closed)
    && (s.barrier ==> s'.barrier)
  }

  /** This state lets publishTracked register on generation g. */
  ghost predicate MayRegisterOn(s: State, g: nat) {
    s.holder.Checked? && s.holder.gen == g && 1 <= g <= |s.core.gens| && !s.core.gens[g - 1].dead
  }

  /** This state lets a refresh install a successor. */
  predicate MayInstall(s: State) {
    s.refresher.Prepared? && s.holder.Free? && !s.core.closed && s.core.current == s.refresher.failed
  }

  /** New registrations and new generations come about in one way only, one at a time. */
  ghost predicate GrowsRightly(s: State, s': State) {
    && |s'.core.regs| <= |s.core.regs| + 1
    && (|s'.core.regs| > |s.core.regs| ==> MayRegisterOn(s, s'.core.regs[|s.core.regs|].gen))
    && (if s'.core.genCounter == s.core.genCounter then s'.core.current == s.core.current && |s'.core.gens| == |s.core.gens|
        else MayInstall(s) && s'.core.genCounter == s'.core.current == s.core.genCounter + 1)
  }

  /** A handler rewrites messages in place and counts outcomes; it moves nothing else. */
  ghost predicate InPlace(c: Core, c': Core) {
    && c' == c.(regs := c'.regs, stats := c'.stats)
    && |c'.regs| == |c.regs|
    && forall r {:trigger c'.regs[r]} | 0 <= r < |c.regs| :: SameIdentity(c.regs[r], c'.regs[r])
  }

  lemma TimersAreInPlace(cfg: Config, c: Core, key: nat)
    requires IndexInRange(c)
    ensures InPlace(c, HandleTimeout(cfg, c, key)) && InPlace(c, HandleGraceExpired(cfg, c, key))
  {
  }

  lemma FinalizingKeepsIdentity(cfg: Config, e: Entry)
    ensures SameIdentity(e, TryFinalize(cfg, e))
  {
  }

  lemma ConfirmInPlace(cfg: Config, c: Core, gen: nat, tag: nat, ack: bool)
    requires IndexInRange(c)
    ensures InPlace(c, HandleConfirmation(cfg, c, gen, tag, ack))
  {
    var key := DeliveryKey(gen, tag);
    if key in c.index.byKey {
      var e := c.regs[c.index.byKey[key]];
      FinalizingKeepsIdentity(cfg, if ack then e.(confirmed := true) else e.(nacked := true));
    }
  }

  lemma ReturnInPlace(cfg: Config, c: Core, id: MessageId)
    requires IndexInRange(c)
    ensures InPlace(c, HandleReturn(cfg, c, id))
  {
  }

  /** Only handlers ran, and only what the channels' readers have read may have changed besides. */
  ghost predicate OnlyHandled(s: State, s': State) {
    s' == s.(core := s'.core, chans := s'.chans, strays := s'.strays, misfires := s'.misfires) && InPlace(s.core, s'.core)
  }

  lemma HandledKeeps(s: State, s': State)
    requires OnlyHandled(s, s')
    ensures Keeps(s, s') && GrowsRightly(s, s')
  {
  }

  /** The send moves on: its message may be rewritten, and what the holder of publishMu does next. */
  ghost predicate OnlySent(s: State, s': State) {
    && s' == s.(core := s'.core, chans := s'.chans, holder := s'.holder)
    && |s'.core.regs| == |s.core.regs|
    && (forall r {:trigger s'.core.regs[r]} | 0 <= r < |s.core.regs| :: SameIdentity(s.core.regs[r], s'.core.regs[r]))
    && |s'.core.gens| == |s.core.gens|
    && (forall g {:trigger s'.core.gens[g]} | 0 <= g < |s.core.gens| :: s.core.gens[g].dead ==> s'.core.gens[g].dead)
    && s'.core.closed == s.core.closed && s'.core.genCounter == s.core.genCounter && s'.core.current == s.core.current
  }

  lemma SentKeeps(s: State, s': State)
    requires OnlySent(s, s')
    ensures Keeps(s, s') && GrowsRightly(s, s')
  {
  }

  /** Call c moves on, and publishMu with it; a call that had told its caller an error does so no more only if it held publishMu. */
  ghost predicate OnlyCalled(s: State, s': State, c: nat) {
    && IsCall(s, c) && |s'.calls| == |s.calls| && s' == s.(core := s.core.(stats := s'.core.stats), holder := s'.holder, strays := s'.strays, calls := s'.calls)
    && s'.calls == s.calls[c := s.calls[c].(state := s'.calls[c].state, attempts := s'.calls[c].attempts)]
    && (IsRejected(s.calls[c]) ==> HolderCall(s) == c)
  }

  lemma CalledKeeps(s: State, s': State, c: nat)
    requires OnlyCalled(s, s', c)
    ensures Keeps(s, s') && GrowsRightly(s, s')
  {
  }

  lemma SettleDeferredKeeps(cfg: Config, s: State)
    requires WellFormed(s) && PublishEnabled(cfg, s, SettleDeferred)
    ensures Keeps(s, DoSettleDeferred(cfg, s)) && GrowsRightly(s, DoSettleDeferred(cfg, s))
  {
    TimersAreInPlace(cfg, s.core, s.core.regs[s.holder.reg].key);
    assert InPlace(s.core, DoSettleDeferred(cfg, s).core);
  }

  lemma RegisterKeeps(s: State, fired: bool)
    requires s.holder.Checked? && IsCall(s, s.holder.call) && 1 <= s.holder.gen <= |s.core.gens|
    ensures Keeps(s, DoRegister(s, fired)) && GrowsRightly(s, DoRegister(s, fired))
  {
    var s' := DoRegister(s, fired);
    if s'.holder.Free? { CalledKeeps(s, s', s.holder.call); }
  }

  lemma SendKeeps(cfg: Config, s: State, a: PublishAction)
    requires WellFormed(s) && PublishEnabled(cfg, s, a)
    requires a.CountAttempt? || a.WireSend? || a.SendReturned? || a.DeleteFailed? || a.StopFailed? || a.CountSent?
    ensures Keeps(s, PublishStep(cfg, s, a)) && GrowsRightly(s, PublishStep(cfg, s, a))
  {
    SentKeeps(s, PublishStep(cfg, s, a));
  }

  lemma CallKeeps(cfg: Config, s: State, a: PublishAction)
    requires WellFormed(s) && PublishEnabled(cfg, s, a)
    requires a.BeginAttempt? || a.RetryAttempt? || a.ReturnError? || a.UncountFailed?
    ensures Keeps(s, PublishStep(cfg, s, a)) && GrowsRightly(s, PublishStep(cfg, s, a))
  {
    CalledKeeps(s, PublishStep(cfg, s, a), if a.UncountFailed? then s.core.regs[s.holder.reg].call else a.call);
  }

  lemma PublishKeeps(cfg: Config, s: State, a: PublishAction)
    requires WellFormed(s) && PublishEnabled(cfg, s, a)
    ensures Keeps(s, PublishStep(cfg, s, a)) && GrowsRightly(s, PublishStep(cfg, s, a))
  {
    match a
    case NewCall(_, _, _) =>
    case BeginAttempt(_, _) => CallKeeps(cfg, s, a);
    case RetryAttempt(_) => CallKeeps(cfg, s, a);
    case ReturnError(_) => CallKeeps(cfg, s, a);
    case UncountFailed => CallKeeps(cfg, s, a);
    case RegisterAttempt(fired) => RegisterKeeps(s, fired);
    case SettleDeferred => SettleDeferredKeeps(cfg, s);
    case _ => SendKeeps(cfg, s, a);
  }

  lemma ReadConfirmKeeps(cfg: Config, s: State, g: nat, t: nat)
    requires WellFormed(s) && BrokerEnabled(s, ReadConfirm(g, t))
    ensures Keeps(s, DoReadConfirm(cfg, s, g, t)) && GrowsRightly(s, DoReadConfirm(cfg, s, g, t))
  {
    ConfirmInPlace(cfg, s.core, g, t, s.chans[g - 1].answers[t]);
    HandledKeeps(s, DoReadConfirm(cfg, s, g, t));
  }

  lemma ReadReturnKeeps(cfg: Config, s: State, g: nat, t: nat)
    requires WellFormed(s) && BrokerEnabled(s, ReadReturn(g, t))
    ensures Keeps(s, DoReadReturn(cfg, s, g, t)) && GrowsRightly(s, DoReadReturn(cfg, s, g, t))
  {
    ReturnInPlace(cfg, s.core, s.core.regs[s.chans[g - 1].log[t - 1]].id);
    HandledKeeps(s, DoReadReturn(cfg, s, g, t));
  }

  lemma BrokerKeeps(cfg: Config, s: State, a: BrokerAction)
    requires WellFormed(s) && BrokerEnabled(s, a)
    ensures Keeps(s, BrokerStep(cfg, s, a)) && GrowsRightly(s, BrokerStep(cfg, s, a))
  {
    match a
    case ReadConfirm(g, t) => ReadConfirmKeeps(cfg, s, g, t);
    case ReadReturn(g, t) => ReadReturnKeeps(cfg, s, g, t);
    case _ => HandledKeeps(s, BrokerStep(cfg, s, a));
  }

  lemma TimerKeeps(cfg: Config, s: State, a: TimerAction)
    requires WellFormed(s) && TimerEnabled(s, a)
    ensures Keeps(s, TimerStep(cfg, s, a)) && GrowsRightly(s, TimerStep(cfg, s, a))
  {
    match a
    case RunDelivery(r) =>
      TimersAreInPlace(cfg, Update(s.core, r, s.core.regs[r].(delivery := Spent)), s.core.regs[r].key);
      assert InPlace(s.core, TimerStep(cfg, s, a).core);
    case RunGrace(r) =>
      TimersAreInPlace(cfg, Update(s.core, r, s.core.regs[r].(grace := Spent)), s.core.regs[r].key);
      assert InPlace(s.core, TimerStep(cfg, s, a).core);
    case StrayTimeout(key) => TimersAreInPlace(cfg, s.core, key);
    case _ => HandledKeeps(s, TimerStep(cfg, s, a));
  }

  lemma SweepKeeps(cfg: Config, s: State, a: SweepAction)
    requires WellFormed(s) && SweepEnabled(s, a)
    ensures Keeps(s, SweepStep(cfg, s, a)) && GrowsRightly(s, SweepStep(cfg, s, a))
  {
  }

  lemma FinishKeeps(cfg: Config, s: State, a: FinishAction)
    requires WellFormed(s) && FinishEnabled(s, a)
    ensures Keeps(s, FinishStep(cfg, s, a)) && GrowsRightly(s, FinishStep(cfg, s, a))
  {
  }

  lemma ChannelKeeps(cfg: Config, s: State, a: ChannelAction)
    requires WellFormed(s) && ChannelEnabled(s, a)
    ensures Keeps(s, ChannelStep(cfg, s, a)) && GrowsRightly(s, ChannelStep(cfg, s, a))
  {
  }

  lemma StepKeeps(cfg: Config, s: State, a: Action)
    requires Enabled(cfg, s, a)
    ensures Keeps(s, Step(cfg, s, a)) && GrowsRightly(s, Step(cfg, s, a))
  {
    match a
    case Publishing(x) => PublishKeeps(cfg, s, x);
    case Broker(x) => BrokerKeeps(cfg, s, x);
    case Timers(x) => TimerKeeps(cfg, s, x);
    case Orphans(x) => SweepKeeps(cfg, s, x);
    case Finishing(x) => FinishKeeps(cfg, s, x);
    case Channels(x) => ChannelKeeps(cfg, s, x);
  }

  /** One step of a run, with the invariant on both sides. */
  ghost predicate OneStep(cfg: Config, s: State, s': State) {
    Inv(cfg, s) && Inv(cfg, s') && Keeps(s, s') && GrowsRightly(s, s')
  }

  lemma RunStep(cfg: Config, run: seq<State>, acts: seq<Action>, i: nat)
    requires IsRun(cfg, run, acts) && i < |acts|
    ensures OneStep(cfg, run[i], run[i + 1])
  {
    RunInvariant(cfg, run, acts, i);
    RunInvariant(cfg, run, acts, i + 1);
    assert run[i + 1] == Step(cfg, run[i], acts[i]);
    StepKeeps(cfg, run[i], acts[i]);
  }

  // ---- an error is final ---------------------------------------------------------------

  /** User call c has returned an error to its caller. */
  ghost predicate Rejected(s: State, c: nat) {
    IsCall(s, c) && IsRejected(s.calls[c])
  }

  lemma RejectedStays(cfg: Config, s: State, s': State, c: nat)
    requires OneStep(cfg, s, s') && Rejected(s, c)
    ensures Rejected(s', c)
  {
    assert CallOk(cfg, s, c);
    assert IsRejected(s'.calls[c]);
  }

  lemma {:induction false} RejectedForever(cfg: Config, run: seq<State>, acts: seq<Action>, i: nat, j: nat, c: nat)
    requires IsRun(cfg, run, acts) && i <= j < |run| && Rejected(run[i], c)
    ensures Rejected(run[j], c)
    decreases j
  {
    if i < j {
      RejectedForever(cfg, run, acts, i, j - 1, c);
      RunStep(cfg, run, acts, j - 1);
      RejectedStays(cfg, run[j - 1], run[j], c);
    }
  }

  lemma {:induction false} SignalsArePermanent(cfg: Config, run: seq<State>, acts: seq<Action>, i: nat, j: nat)
    requires IsRun(cfg, run, acts) && i <= j < |run|
    ensures run[i].signals <= run[j].signals
    decreases j
  {
    if i < j {
      SignalsArePermanent(cfg, run, acts, i, j - 1);
      RunStep(cfg, run, acts, j - 1);
    }
  }

  /** The callbacks run for user call c. */
  ghost function SignalsFor(s: State, c: nat): set<nat> {
    set i | 0 <= i < |s.signals| && s.signals[i].root == c
  }

  lemma AtMostOneSignalFor(cfg: Config, s: State, c: nat)
    requires Inv(cfg, s)
    ensures |SignalsFor(s, c)| <= 1
  {
    var xs := SignalsFor(s, c);
    if xs != {} {
      var x :| x in xs;
      forall y | y in xs ensures y == x { AtMostOneSignal(cfg, s, x, y); }
      assert xs == {x};
    }
  }

  /**
   The delivery contract, over any run: a call that has returned an error never gets a
   callback, and no call ever gets two, however the run goes on.
   */
  lemma DeliveryContract(cfg: Config, run: seq<State>, acts: seq<Action>, i: nat, j: nat, c: nat)
    requires IsRun(cfg, run, acts) && i <= j < |run|
    ensures Rejected(run[i], c) ==> SignalsFor(run[j], c) == {}
    ensures |SignalsFor(run[j], c)| <= 1
    ensures SignalsFor(run[i], c) <= SignalsFor(run[j], c)
  {
    RunInvariant(cfg, run, acts, j);
    SignalsArePermanent(cfg, run, acts, i, j);
    AtMostOneSignalFor(cfg, run[j], c);
    if Rejected(run[i], c) {
      RejectedForever(cfg, run, acts, i, j, c);
      ErrorMeansSilence(cfg, run[j], c);
    }
  }

  /** User call c was accepted, and nothing more is going to happen by itself. */
  ghost predicate AcceptedAndQuiet(s: State, c: nat) {
    Quiescent(s) && !s.core.closed && IsCall(s, c) && s.calls[c].IsRoot() && s.calls[c].state.ReturnedNil?
  }

  /**
   And once an open publisher is quiescent, a call that was accepted has had exactly one
   callback: always if it brought its own or nothing is retried, and otherwise unless a
   retry of it failed to republish.
   */
  lemma AcceptedMeansOneSignal(cfg: Config, run: seq<State>, acts: seq<Action>, i: nat, c: nat)
    requires IsRun(cfg, run, acts) && i < |run| && AcceptedAndQuiet(run[i], c)
    ensures run[i].calls[c].ownCallback || !Retries(cfg) ==> |SignalsFor(run[i], c)| == 1
    ensures |SignalsFor(run[i], c)| == 1 <==>
            !(exists e: nat :: IsCall(run[i], e) && run[i].calls[e].root == c && run[i].calls[e].state.ErrorSilent?)
  {
    var s := run[i];
    RunInvariant(cfg, run, acts, i);
    AtMostOneSignalFor(cfg, s, c);
    ExactlyOneSignal(cfg, s, c);
    if s.calls[c].ownCallback || !Retries(cfg) { SignalledIfHeard(cfg, s, c); }
    if exists k :: 0 <= k < |s.signals| && s.signals[k].root == c {
      var k :| 0 <= k < |s.signals| && s.signals[k].root == c;
      assert k in SignalsFor(s, c);
    }
  }

  // ---- replacing the confirm channel -------------------------------------------------------

  lemma {:induction false} GenerationsGrow(cfg: Config, run: seq<State>, acts: seq<Action>, i: nat, j: nat)
    requires IsRun(cfg, run, acts) && i <= j < |run|
    ensures run[i].core.current <= run[j].core.current
    decreases j
  {
    if i < j {
      GenerationsGrow(cfg, run, acts, i, j - 1);
      RunStep(cfg, run, acts, j - 1);
    }
  }

  /** Step i of the run installs a new generation. */
  ghost predicate Installs(run: seq<State>, i: nat) {
    i + 1 < |run| && run[i + 1].core.genCounter != run[i].core.genCounter
  }

  /**
   Replacement is single-flight: an install succeeds exactly the generation its refresh
   saw fail, its number is the next one, and no failed generation has two successors.
   */
  lemma OneSuccessor(cfg: Config, run: seq<State>, acts: seq<Action>, i: nat, j: nat)
    requires IsRun(cfg, run, acts) && i < j && Installs(run, i) && Installs(run, j)
    ensures run[i].refresher.Prepared? && run[i + 1].core.current == run[i].refresher.failed + 1
    ensures run[j].refresher.Prepared? && run[i].refresher.failed < run[j].refresher.failed
  {
    RunStep(cfg, run, acts, i);
    RunStep(cfg, run, acts, j);
    GenerationsGrow(cfg, run, acts, i + 1, j);
  }

  /**
   Every channel a refresh opened is an installed generation, was discarded, or is in the
   hands of the one refresh under way; no refresh ever found itself overtaken; and a
   generation that was replaced is closed or about to be.
   */
  lemma ChannelsAccountedFor(cfg: Config, run: seq<State>, acts: seq<Action>, i: nat)
    requires IsRun(cfg, run, acts) && i < |run|
    ensures var s := run[i];
            && s.opens == (s.core.genCounter - 1) + s.discards + (if s.refresher.Opened? || s.refresher.Prepared? then 1 else 0)
            && s.overtakes == 0
            && forall g | 1 <= g < s.core.current :: IsGen(s, g) && (s.chans[g - 1].open ==> g in s.toClose)
  {
    RunInvariant(cfg, run, acts, i);
  }

  // ---- Close ---------------------------------------------------------------------------------

  /** Past Close's barrier nothing is registered and no generation installed, however the run goes on. */
  lemma {:induction false} NothingAfterBarrier(cfg: Config, run: seq<State>, acts: seq<Action>, i: nat, j: nat)
    requires IsRun(cfg, run, acts) && i <= j < |run| && run[i].barrier
    ensures run[j].barrier && |run[j].core.regs| == |run[i].core.regs| && run[j].core.current == run[i].core.current
    decreases j
  {
    if i < j {
      NothingAfterBarrier(cfg, run, acts, i, j - 1);
      RunStep(cfg, run, acts, j - 1);
    }
  }

  // ---- a dead generation ------------------------------------------------------------------------

  /** From the moment failOrphans marks a generation dead nothing is registered on it again, however the run goes on. */
  lemma {:induction false} NothingRegisteredOnDead(cfg: Config, run: seq<State>, acts: seq<Action>, i: nat, j: nat, g: nat)
    requires IsRun(cfg, run, acts) && i <= j < |run| && IsDead(run[i], g)
    ensures IsDead(run[j], g) && |run[i].core.regs| <= |run[j].core.regs|
    ensures forall r | |run[i].core.regs| <= r < |run[j].core.regs| :: run[j].core.regs[r].gen != g
    decreases j
  {
    if i < j {
      NothingRegisteredOnDead(cfg, run, acts, i, j - 1, g);
      RunStep(cfg, run, acts, j - 1);
      var s, s' := run[j - 1], run[j];
      assert s'.core.gens[g - 1].dead;
      forall r | |run[i].core.regs| <= r < |s'.core.regs| ensures s'.core.regs[r].gen != g {
        if r < |s.core.regs| { assert SameIdentity(s.core.regs[r], s'.core.regs[r]); }
      }
    }
  }

  // ---- late deletes --------------------------------------------------------------------------------

  /** Which registration, if any, an action deletes from the pending map. */
  function Deletes(s: State, a: Action): int {
    match a
    case Finishing(RunCleanup(r)) => r
    case Finishing(Republish(r)) => r
    case Publishing(DeleteFailed) => HolderReg(s.holder)
    case _ => -1
  }

  lemma DeletesWhatIsFiled(cfg: Config, s: State, a: Action)
    requires Inv(cfg, s) && Enabled(cfg, s, a) && Deletes(s, a) >= 0
    ensures Filed(s, Deletes(s, a))
  {
    assert EntryOk(cfg, s, Deletes(s, a));
  }

  /** The pending map after a Delete for registration x. */
  ghost predicate OnlyUnfiled(s: State, s': State, x: RegId) {
    && IsReg(s, x) && s'.core.index == DeleteFrom(s.core.index, s.core.regs[x].id, s.core.regs[x].key)
    && |s'.core.regs| == |s.core.regs|
    && forall r {:trigger s'.core.regs[r]} | 0 <= r < |s.core.regs| :: s'.core.regs[r].id == s.core.regs[r].id
  }

  lemma DeleteUnfiles(s: State, s': State, x: RegId)
    requires Filed(s, x) && OnlyUnfiled(s, s', x)
    ensures !Filed(s', x) && forall r: RegId | r != x :: Filed(s', r) <==> Filed(s, r)
  {
    forall r: RegId | r != x ensures Filed(s', r) <==> Filed(s, r) {
      assert IsReg(s, r) ==> s'.core.regs[r].id == s.core.regs[r].id;
    }
  }

  /** A Delete, however late, removes the registration it was meant for and no newer one with the same message ID. */
  lemma DeleteHitsItsOwn(cfg: Config, s: State, a: Action)
    requires Inv(cfg, s) && Enabled(cfg, s, a) && Deletes(s, a) >= 0
    ensures Filed(s, Deletes(s, a)) && !Filed(Step(cfg, s, a), Deletes(s, a))
    ensures forall r: RegId | r != Deletes(s, a) :: Filed(Step(cfg, s, a), r) <==> Filed(s, r)
  {
    DeletesWhatIsFiled(cfg, s, a);
    DeleteUnfiles(s, Step(cfg, s, a), Deletes(s, a));
  }
}
