/**
 publishTracked and the calls driving it keep the invariant.
 */
module PreservePublish {
  import opened DeliveryKeys
  import opened PendingMap
  import opened DeliveryCore
  import opened DeliverySystem
  import opened DeliveryInvariant
  import opened DeliveryPreservation
  import opened PreserveHandlers

  // ---- calls ----------------------------------------------------------------------

  /** s' differs from s in the state of one call, and possibly in whether that call holds publishMu. */
  ghost predicate CallMoved(s: State, s': State, c: nat) {
    && IsCall(s, c) && |s'.calls| == |s.calls|
    && s' == s.(calls := s'.calls, signals := s'.signals, holder := s'.holder, strays := s'.strays)
    && s'.calls == s.calls[c := s'.calls[c]]
    && CallGrows(s.calls[c], s'.calls[c])
    && s.signals <= s'.signals
    && (s'.holder == s.holder || (HolderReg(s.holder) == -1 && HolderReg(s'.holder) == -1))
  }

  lemma CallMovedCalls(cfg: Config, s: State, s': State, c: nat)
    requires CallsOk(cfg, s) && CallMoved(s, s', c) && CallOk(cfg, s', c) && Around(s, s', -1)
    requires s'.holder == s.holder || ((HolderCall(s) == -1 || HolderCall(s) == c) && (HolderCall(s') == -1 || HolderCall(s') == c))
    ensures CallsOk(cfg, s')
  {
    forall d: nat | IsCall(s', d) ensures CallOk(cfg, s', d) {
      if d != c {
        assert CallOk(cfg, s, d);
        AroundCall(cfg, s, s', -1, d);
      }
    }
  }

  lemma CallMovedPreserves(cfg: Config, s: State, s': State, c: nat)
    requires Inv(cfg, s) && CallMoved(s, s', c)
    requires CallOk(cfg, s', c) && HolderOk(s') && BarrierOk(s')
    requires s'.holder == s.holder || ((HolderCall(s) == -1 || HolderCall(s) == c) && (HolderCall(s') == -1 || HolderCall(s') == c))
    requires forall i {:trigger SignalOk(s', i)} | |s.signals| <= i < |s'.signals| :: SignalOk(s', i)
    ensures Inv(cfg, s')
  {
    AroundEntries(cfg, s, s', -1);
    CallMovedCalls(cfg, s, s', c);
    AroundSignals(s, s', -1);
    AroundSweeps(cfg, s, s', -1);
    AroundChannels(s, s', -1);
  }

  lemma HolderCallInRange(cfg: Config, s: State)
    requires HolderOk(s) && EntriesOk(cfg, s)
    ensures HolderCall(s) < |s.calls|
  {
    if HolderReg(s.holder) >= 0 {
      assert EntryOk(cfg, s, HolderReg(s.holder));
    }
  }

  lemma NewCallIsAround(s: State, s': State, call: Call)
    requires s' == s.(calls := s.calls + [call]) && |s.core.gens| == |s.chans|
    ensures Around(s, s', -1)
  {
    assert forall g | 0 <= g < |s.chans| :: ChannelGrows(s.chans[g], s'.chans[g], -1);
  }

  lemma NewCallCalls(cfg: Config, s: State, s': State, call: Call)
    requires CallsOk(cfg, s) && Around(s, s', -1) && s' == s.(calls := s.calls + [call]) && HolderCall(s) < |s.calls|
    requires call.root == |s.calls| && call.IsRoot() && call.retry == 0 && call.attempts == 0 && call.state.Ready?
    ensures CallsOk(cfg, s')
  {
    forall d: nat | IsCall(s', d) ensures CallOk(cfg, s', d) {
      if d < |s.calls| {
        assert CallOk(cfg, s, d);
        AroundCall(cfg, s, s', -1, d);
      }
    }
  }

  lemma NewCallPreserves(cfg: Config, s: State, call: Call)
    requires Inv(cfg, s) && call.root == |s.calls| && call.IsRoot() && call.retry == 0 && call.attempts == 0 && call.state.Ready?
    ensures Inv(cfg, s.(calls := s.calls + [call]))
  {
    var s' := s.(calls := s.calls + [call]);
    NewCallIsAround(s, s', call);
    AroundEntries(cfg, s, s', -1);
    HolderCallInRange(cfg, s);
    NewCallCalls(cfg, s, s', call);
    AroundSignals(s, s', -1);
    AroundSweeps(cfg, s, s', -1);
    AroundChannels(s, s', -1);
  }

  lemma BeginMoves(cfg: Config, s: State, c: nat, contextDone: bool)
    requires CallOk(cfg, s, c) && s.calls[c].state.Ready? && s.holder.Free? && IsGen(s, s.core.current) && HolderOk(s) && BarrierOk(s)
    ensures var s' := Begin(s, c, contextDone);
            && CallMoved(s, s', c) && CallOk(cfg, s', c) && HolderOk(s') && BarrierOk(s') && s'.signals == s.signals
            && HolderCall(s) == -1 && (HolderCall(s') == -1 || HolderCall(s') == c)
  {
  }

  lemma BeginPreserves(cfg: Config, s: State, c: nat, contextDone: bool)
    requires Inv(cfg, s) && IsCall(s, c) && s.calls[c].state.Ready? && s.holder.Free? && IsGen(s, s.core.current)
    ensures Inv(cfg, Begin(s, c, contextDone))
  {
    assert CallOk(cfg, s, c);
    BeginMoves(cfg, s, c, contextDone);
    CallMovedPreserves(cfg, s, Begin(s, c, contextDone), c);
  }

  lemma RejectPreserves(cfg: Config, s: State, error: AttemptError, fired: bool)
    requires Inv(cfg, s) && s.holder.Checked? && IsCall(s, s.holder.call) && 1 <= s.holder.gen <= |s.core.gens|
    ensures Inv(cfg, Refuse(s, error, fired))
  {
    assert CallOk(cfg, s, s.holder.call);
    CallMovedPreserves(cfg, s, Refuse(s, error, fired), s.holder.call);
  }

  lemma RetryAttemptPreserves(cfg: Config, s: State, c: nat)
    requires Inv(cfg, s) && WellFormed(s) && PublishEnabled(cfg, s, RetryAttempt(c))
    ensures Inv(cfg, PublishStep(cfg, s, RetryAttempt(c)))
  {
    assert CallOk(cfg, s, c);
    CallMovedPreserves(cfg, s, PublishStep(cfg, s, RetryAttempt(c)), c);
  }

  lemma ReturnErrorPreserves(cfg: Config, s: State, c: nat)
    requires Inv(cfg, s) && IsCall(s, c) && s.calls[c].state.AttemptFailed?
    ensures Inv(cfg, s.(calls := SetCall(s, c, ReturnedError)))
  {
    assert CallOk(cfg, s, c);
    CallMovedPreserves(cfg, s, s.(calls := SetCall(s, c, ReturnedError)), c);
  }

  lemma RetryErrorPreserves(cfg: Config, s: State, c: nat)
    requires Inv(cfg, s) && WellFormed(s) && FinishEnabled(s, RetryErrorCallback(c))
    ensures Inv(cfg, FinishStep(cfg, s, RetryErrorCallback(c)))
  {
    assert CallOk(cfg, s, c);
    var s' := FinishStep(cfg, s, RetryErrorCallback(c));
    assert s.signals <= s'.signals;
    CallMovedPreserves(cfg, s, s', c);
  }

  // ---- registering ------------------------------------------------------------------

  /** The key publishTracked is about to use is not in the pending map. */
  lemma FreshKey(cfg: Config, s: State)
    requires IndexOk(s) && EntriesOk(cfg, s) && ChannelsOk(s) && RefreshOk(s)
    requires s.holder.Checked? && s.holder.gen == s.core.current
    requires s.core.gens[s.core.current - 1].published + 1 < TAG_SPAN
    ensures DeliveryKey(s.core.current, s.core.gens[s.core.current - 1].published + 1) !in s.core.index.byKey
  {
    var g, t := s.core.current, s.core.gens[s.core.current - 1].published + 1;
    assert ChannelOk(s, g);
    if DeliveryKey(g, t) in s.core.index.byKey {
      assert EntryOk(cfg, s, s.core.index.byKey[DeliveryKey(g, t)]);
      KeyFinds(cfg, s, g, t);
      assert false;
    }
  }

  /** s' is s with a new registration for the call that holds publishMu. */
  ghost predicate Registers(s: State, s': State) {
    && s.holder.Checked? && IsCall(s, s.holder.call) && s.holder.gen == s.core.current
    && IsGen(s, s.core.current) && |s.core.gens| == |s.chans|
    && var call := s.calls[s.holder.call];
    && var (core, result) := Register(s.core, s.holder.call, call.id, call.mandatory, s.core.current, call.retry);
    && s.core.gens[s.core.current - 1].published + 1 < TAG_SPAN
    && result.Registered?
    && s' == s.(core := core, holder := Stored(result.reg))
  }

  lemma RegistersIsAround(s: State, s': State)
    requires Registers(s, s')
    ensures Around(s, s', |s.core.regs|) && Advances(s, s', |s.core.regs|)
  {
    var call := s.calls[s.holder.call];
    forall r: RegId | IsReg(s, r) ensures Filed(s', r) <==> Filed(s, r) {
      assert s'.core.regs[r] == s.core.regs[r];
    }
    assert forall g | 0 <= g < |s.chans| :: ChannelGrows(s.chans[g], s'.chans[g], |s.core.regs|);
  }

  lemma RegisteredEntry(cfg: Config, s: State, s': State)
    requires Registers(s, s') && RefreshOk(s) && ChannelsOk(s)
    ensures EntryOk(cfg, s', |s.core.regs|) && HolderOk(s') && SweepsCover(cfg, s', |s.core.regs|)
  {
    assert ChannelOk(s, s.core.current);
    var r := |s.core.regs|;
    assert Filed(s', r);
    assert !Accepted(s', r);
  }

  lemma RegisterPreserves(cfg: Config, s: State, s': State)
    requires Inv(cfg, s) && Registers(s, s')
    ensures Inv(cfg, s')
  {
    var r := |s.core.regs|;
    RegistersIsAround(s, s');
    RegisteredEntry(cfg, s, s');
    FreshKey(cfg, s);
    StoreKeepsConsistent(s.core.regs, s.core.index, s'.core.regs[r]);
    AroundEntries(cfg, s, s', r);
    forall d: nat | IsCall(s', d) ensures CallOk(cfg, s', d) {
      assert CallOk(cfg, s, d);
      AroundCall(cfg, s, s', r, d);
    }
    AroundSignals(s, s', r);
    AroundSweeps(cfg, s, s', r);
    AroundChannels(s, s', r);
  }

  // ---- the send -----------------------------------------------------------------------

  /** One step of publishTracked on the registration it is sending; the index may only lose it. */
  ghost predicate SendMoves(s: State, s': State, r: RegId) {
    && IsReg(s, r) && HolderReg(s.holder) == r && HolderReg(s'.holder) == r
    && s' == s.(core := s'.core, holder := s'.holder, chans := s'.chans)
    && s'.core == s.core.(regs := s'.core.regs, stats := s'.core.stats, index := s'.core.index, gens := s'.core.gens)
    && |s'.core.regs| == |s.core.regs| && s'.core.regs == s.core.regs[r := s'.core.regs[r]]
    && var e, e' := s.core.regs[r], s'.core.regs[r];
    && e' == e.(inFlight := e'.inFlight, claim := e'.claim, delivery := e'.delivery, grace := e'.grace)
    && (e'.claim == e.claim || e.claim.Unclaimed?)
    && (s'.core.index == s.core.index || s'.core.index == Deregister(s.core, r).index)
    && |s'.chans| == |s.chans| == |s'.core.gens| == |s.core.gens|
    && (forall g {:trigger s'.chans[g]} | 0 <= g < |s.chans| ::
          s'.chans[g].sweep == s.chans[g].sweep && s'.chans[g].open == s.chans[g].open
          && ChannelGrows(s.chans[g], s'.chans[g], r))
    && (forall g {:trigger s'.core.gens[g]} | 0 <= g < |s.chans| :: s'.core.gens[g].dead == s.core.gens[g].dead)
  }

  lemma SendMovesIsAround(s: State, s': State, r: RegId)
    requires SendMoves(s, s', r) && IndexOk(s) && (s'.core.index != s.core.index ==> Filed(s, r))
    ensures Around(s, s', r) && Advances(s, s', r)
  {
    forall r1: RegId | IsReg(s, r1) && r1 != r ensures Filed(s', r1) <==> Filed(s, r1) {
      assert s'.core.regs[r1] == s.core.regs[r1];
    }
  }

  lemma SentEntry(cfg: Config, s: State, s': State, r: RegId)
    requires SendMoves(s, s', r) && EntryOk(cfg, s, r)
    requires FlowOk(cfg, s'.core.regs[r], FactsOf(s', r))
    ensures EntryOk(cfg, s', r)
  {
  }

  lemma SentCalls(cfg: Config, s: State, s': State, r: RegId)
    requires CallsOk(cfg, s) && SendMoves(s, s', r) && Around(s, s', r) && Advances(s, s', r) && IsCall(s, s.core.regs[r].call)
    requires s'.core.regs[r].claim.SendFailed? ==> s.calls[s.core.regs[r].call].state.InAttempt?
    ensures CallsOk(cfg, s')
  {
    forall d: nat | IsCall(s', d) ensures CallOk(cfg, s', d) {
      assert CallOk(cfg, s, d);
      AroundCall(cfg, s, s', r, d);
    }
  }

  lemma HolderInAttempt(cfg: Config, s: State)
    requires HolderOk(s) && EntriesOk(cfg, s) && CallsOk(cfg, s) && HolderReg(s.holder) >= 0
    ensures IsReg(s, HolderReg(s.holder)) && EntryOk(cfg, s, HolderReg(s.holder))
    ensures s.calls[s.core.regs[HolderReg(s.holder)].call].state.InAttempt?
  {
    assert EntryOk(cfg, s, HolderReg(s.holder));
    assert CallOk(cfg, s, s.core.regs[HolderReg(s.holder)].call);
  }

  /** What is left to check about a step of the send, once it is known to concern its own message. */
  lemma SendPreserves(cfg: Config, s: State, s': State, r: RegId)
    requires Inv(cfg, s) && SendMoves(s, s', r)
    requires s'.core.index != s.core.index ==> Filed(s, r)
    requires FlowOk(cfg, s'.core.regs[r], FactsOf(s', r))
    requires HolderOk(s') && ChannelsOk(s') && IndexOk(s') && StatsOk(s')
    requires Filed(s', r) ==> Filed(s, r) && (Swept(s, r) ==> Swept(s', r))
    ensures Inv(cfg, s')
  {
    HolderInAttempt(cfg, s);
    SendMovesIsAround(s, s', r);
    SentEntry(cfg, s, s', r);
    AroundEntries(cfg, s, s', r);
    SentCalls(cfg, s, s', r);
    AroundSignals(s, s', r);
    StillCovered(cfg, s, s', r);
    AroundSweeps(cfg, s, s', r);
  }

  lemma SameChannels(s: State, s': State, r: RegId)
    requires SendMoves(s, s', r) && ChannelsOk(s) && RefreshOk(s) && Around(s, s', r)
    requires s'.chans == s.chans && s'.core.gens == s.core.gens && Ahead(s'.holder) == Ahead(s.holder)
    ensures ChannelsOk(s')
  {
    AroundChannels(s, s', r);
  }

  /** Steps of the send that touch neither the message nor the channels nor the index. */
  lemma HolderStepPreserves(cfg: Config, s: State, s': State, r: RegId)
    requires Inv(cfg, s) && SendMoves(s, s', r)
    requires s'.chans == s.chans && s'.core.gens == s.core.gens && s'.core.regs == s.core.regs && s'.core.index == s.core.index
    requires Ahead(s'.holder) == Ahead(s.holder)
    requires FactsOf(s', r) == FactsOf(s, r) && HolderOk(s') && StatsOk(s') && (Swept(s, r) ==> Swept(s', r))
    ensures Inv(cfg, s')
  {
    HolderInAttempt(cfg, s);
    SendMovesIsAround(s, s', r);
    SameChannels(s, s', r);
    SendPreserves(cfg, s, s', r);
  }

  lemma CountAttemptPreserves(cfg: Config, s: State)
    requires Inv(cfg, s) && s.holder.Stored?
    ensures Inv(cfg, s.(core := CountPublished(s.core, 1), holder := Counted(s.holder.reg)))
  {
    HolderStepPreserves(cfg, s, s.(core := CountPublished(s.core, 1), holder := Counted(s.holder.reg)), s.holder.reg);
  }

  lemma WireFailsPreserves(cfg: Config, s: State)
    requires Inv(cfg, s) && s.holder.Counted?
    ensures Inv(cfg, s.(holder := Sent(s.holder.reg, false)))
  {
    HolderStepPreserves(cfg, s, s.(holder := Sent(s.holder.reg, false)), s.holder.reg);
  }

  lemma WireAcceptsChannels(s: State, s': State, r: RegId)
    requires ChannelsOk(s) && RefreshOk(s) && HolderOk(s) && s.holder == Counted(r)
    requires WireAccepts(s, s', r)
    ensures ChannelsOk(s')
  {
    forall g | IsGen(s', g) ensures ChannelOk(s', g) {
      assert ChannelOk(s, g);
      forall t | 1 <= t <= |s'.chans[g - 1].log| ensures LogOk(s', g, t) {
        if t <= |s.chans[g - 1].log| { assert LogOk(s, g, t); }
      }
    }
  }

  ghost predicate WireAccepts(s: State, s': State, r: RegId) {
    && s.holder == Counted(r) && IsReg(s, r) && IsGen(s, s.core.regs[r].gen)
    && var g := s.core.regs[r].gen;
    && s' == s.(holder := Sent(r, true), chans := SetChan(s, g, s.chans[g - 1].(log := s.chans[g - 1].log + [r])))
  }

  lemma WireAcceptsMoves(s: State, s': State, r: RegId)
    requires WireAccepts(s, s', r) && |s.core.gens| == |s.chans|
    ensures SendMoves(s, s', r) && s'.core == s.core && HolderReg(s'.holder) == r
    ensures Swept(s, r) ==> Swept(s', r)
  {
    assert s'.core.regs == s.core.regs[r := s'.core.regs[r]];
  }

  /** An accepted send has not been answered yet. */
  lemma WireAcceptsFacts(cfg: Config, s: State, s': State, r: RegId)
    requires WireAccepts(s, s', r) && EntryOk(cfg, s, r) && HolderOk(s) && ChannelsOk(s)
    ensures FactsOf(s', r) == FactsOf(s, r).(notSent := false, accepted := true)
    ensures HolderOk(s') && FlowOk(cfg, s'.core.regs[r], FactsOf(s', r))
  {
    assert ChannelOk(s, s.core.regs[r].gen);
    assert Filed(s', r) <==> Filed(s, r);
  }

  lemma WireAcceptsPreserves(cfg: Config, s: State, s': State, r: RegId)
    requires Inv(cfg, s) && WireAccepts(s, s', r)
    ensures Inv(cfg, s')
  {
    HolderInAttempt(cfg, s);
    WireAcceptsChannels(s, s', r);
    WireAcceptsMoves(s, s', r);
    WireAcceptsFacts(cfg, s, s', r);
    SendPreserves(cfg, s, s', r);
  }

  // ---- the send has returned ------------------------------------------------------------

  function Returned(e: Entry, ok: bool): Entry {
    if ok then e.(inFlight := false) else e.(inFlight := false, claim := SendFailed)
  }

  lemma SendReturnedEntry(cfg: Config, s: State, s': State, r: RegId, channelError: bool)
    requires s.holder.Sent? && s.holder.reg == r && EntryOk(cfg, s, r) && HolderOk(s)
    requires s' == DoSendReturned(s, channelError)
    ensures s'.core.regs[r] == Returned(s.core.regs[r], s.holder.ok)
    ensures FlowOk(cfg, s'.core.regs[r], FactsOf(s', r)) && (Filed(s', r) ==> Filed(s, r))
    ensures Swept(s, r) ==> Swept(s', r)
  {
  }

  lemma SendReturnedHolder(cfg: Config, s: State, s': State, r: RegId, channelError: bool)
    requires s.holder.Sent? && s.holder.reg == r && EntryOk(cfg, s, r) && HolderOk(s)
    requires s' == DoSendReturned(s, channelError)
    ensures HolderOk(s')
  {
    assert s'.core.regs[r] == Returned(s.core.regs[r], s.holder.ok);
    assert Accepted(s', r) <==> Accepted(s, r);
  }

  lemma SendReturnedStats(cfg: Config, s: State, s': State, r: RegId, channelError: bool)
    requires s.holder.Sent? && s.holder.reg == r && EntryOk(cfg, s, r) && StatsOk(s) && HolderOk(s)
    requires s' == DoSendReturned(s, channelError)
    ensures StatsOk(s')
  {
    CountUpdate(s.core.regs, r, s'.core.regs[r]);
  }

  lemma SendReturnedMoves(cfg: Config, s: State, s': State, r: RegId, channelError: bool)
    requires s.holder.Sent? && s.holder.reg == r && EntryOk(cfg, s, r) && s' == DoSendReturned(s, channelError)
    requires |s.core.gens| == |s.chans|
    ensures SendMoves(s, s', r) && s'.core.index == s.core.index && s'.chans == s.chans && s'.core.gens == s.core.gens
    ensures Ahead(s'.holder) == Ahead(s.holder)
  {
    var e := s.core.regs[r];
    assert s'.core.regs[r] == Returned(e, s.holder.ok);
    assert s'.core.regs == s.core.regs[r := s'.core.regs[r]];
  }

  lemma SendReturnedPreserves(cfg: Config, s: State, channelError: bool)
    requires Inv(cfg, s) && s.holder.Sent? && IsReg(s, s.holder.reg)
    ensures Inv(cfg, DoSendReturned(s, channelError))
  {
    var s' := DoSendReturned(s, channelError);
    var r := s.holder.reg;
    HolderInAttempt(cfg, s);
    SendReturnedEntry(cfg, s, s', r, channelError);
    SendReturnedHolder(cfg, s, s', r, channelError);
    SendReturnedStats(cfg, s, s', r, channelError);
    SendReturnedMoves(cfg, s, s', r, channelError);
    SendMovesIsAround(s, s', r);
    SameChannels(s, s', r);
    SendPreserves(cfg, s, s', r);
  }

  // ---- a failed send ----------------------------------------------------------------------

  lemma DeleteFailedEntry(cfg: Config, s: State, s': State, r: RegId)
    requires s.holder.FailDelete? && s.holder.reg == r && EntryOk(cfg, s, r) && HolderOk(s) && IndexOk(s)
    requires s' == s.(core := Deregister(s.core, r), holder := FailStop(r, s.holder.channelError))
    ensures FlowOk(cfg, s'.core.regs[r], FactsOf(s', r)) && HolderOk(s') && IndexOk(s') && Filed(s, r)
  {
    assert FactsOf(s', r) == FactsOf(s, r).(deleting := false, filed := false);
  }

  lemma DeleteFailedPreserves(cfg: Config, s: State)
    requires Inv(cfg, s) && s.holder.FailDelete? && IsReg(s, s.holder.reg)
    ensures Inv(cfg, s.(core := Deregister(s.core, s.holder.reg), holder := FailStop(s.holder.reg, s.holder.channelError)))
  {
    var r := s.holder.reg;
    var s' := s.(core := Deregister(s.core, r), holder := FailStop(r, s.holder.channelError));
    HolderInAttempt(cfg, s);
    DeleteFailedEntry(cfg, s, s', r);
    SendMovesIsAround(s, s', r);
    SameChannels(s, s', r);
    SendPreserves(cfg, s, s', r);
  }

  lemma StopFailedEntry(cfg: Config, s: State, s': State, r: RegId)
    requires s.holder.FailStop? && s.holder.reg == r && EntryOk(cfg, s, r) && HolderOk(s) && StatsOk(s)
    requires s' == s.(core := StopTimerOf(s.core, r), holder := FailUncount(r, s.holder.channelError))
    ensures s'.core.regs[r] == s.core.regs[r].StopTimer()
    ensures FlowOk(cfg, s'.core.regs[r], FactsOf(s', r)) && HolderOk(s') && StatsOk(s') && (Filed(s', r) ==> Filed(s, r))
  {
    assert s'.core.regs[r] == s.core.regs[r].StopTimer();
    assert Filed(s', r) <==> Filed(s, r);
    assert Accepted(s', r) <==> Accepted(s, r);
    assert FactsOf(s', r) == FactsOf(s, r);
    CountUpdate(s.core.regs, r, s'.core.regs[r]);
  }

  lemma StopFailedPreserves(cfg: Config, s: State)
    requires Inv(cfg, s) && s.holder.FailStop? && IsReg(s, s.holder.reg)
    ensures Inv(cfg, s.(core := StopTimerOf(s.core, s.holder.reg), holder := FailUncount(s.holder.reg, s.holder.channelError)))
  {
    var r := s.holder.reg;
    var s' := s.(core := StopTimerOf(s.core, r), holder := FailUncount(r, s.holder.channelError));
    HolderInAttempt(cfg, s);
    StopFailedEntry(cfg, s, s', r);
    SendMovesIsAround(s, s', r);
    SameChannels(s, s', r);
    SendPreserves(cfg, s, s', r);
  }

  // ---- an accepted send -----------------------------------------------------------------------

  ghost predicate CountsSent(s: State, s': State, r: RegId) {
    && s.holder.SendOk? && s.holder.reg == r && IsReg(s, r) && IsGen(s, s.core.regs[r].gen) && |s.core.gens| == |s.chans|
    && s' == s.(core := CountAccepted(s.core, s.core.regs[r].gen), holder := Deferred(r, s.holder.orphan, s.holder.timeout))
  }

  lemma CountSentChannels(s: State, s': State, r: RegId)
    requires ChannelsOk(s) && RefreshOk(s) && HolderOk(s) && CountsSent(s, s', r)
    ensures ChannelsOk(s')
  {
    forall g | IsGen(s', g) ensures ChannelOk(s', g) {
      assert ChannelOk(s, g);
      forall t | 1 <= t <= |s'.chans[g - 1].log| ensures LogOk(s', g, t) { assert LogOk(s, g, t); }
    }
  }

  lemma CountSentMoves(s: State, s': State, r: RegId)
    requires CountsSent(s, s', r)
    ensures SendMoves(s, s', r) && s'.core.index == s.core.index && s'.core.regs == s.core.regs
  {
    assert s'.core.regs == s.core.regs[r := s'.core.regs[r]];
  }

  lemma CountSentFacts(cfg: Config, s: State, s': State, r: RegId)
    requires CountsSent(s, s', r) && EntryOk(cfg, s, r) && HolderOk(s)
    ensures FactsOf(s', r) == FactsOf(s, r) && HolderOk(s') && (Swept(s, r) ==> Swept(s', r))
  {
    assert Accepted(s', r) <==> Accepted(s, r);
    assert Filed(s', r) <==> Filed(s, r);
  }

  lemma CountSentPreserves(cfg: Config, s: State, s': State, r: RegId)
    requires Inv(cfg, s) && CountsSent(s, s', r)
    ensures Inv(cfg, s')
  {
    HolderInAttempt(cfg, s);
    CountSentChannels(s, s', r);
    CountSentMoves(s, s', r);
    CountSentFacts(cfg, s, s', r);
    SendPreserves(cfg, s, s', r);
  }

  // ---- the attempt is over ----------------------------------------------------------------------

  /** publishMu is released: the call learns what became of the attempt. */
  ghost predicate AttemptEnds(s: State, s': State, r: RegId) {
    && IsReg(s, r) && HolderReg(s.holder) == r && IsCall(s, s.core.regs[r].call) && |s.core.gens| == |s.chans|
    && s' == s.(holder := Free, calls := s'.calls, core := s.core.(stats := s'.core.stats))
    && var c := s.core.regs[r].call;
    && |s'.calls| == |s.calls| && s'.calls == s.calls[c := s'.calls[c]] && s'.calls[c] == s.calls[c].(state := s'.calls[c].state)
    && s.calls[c].state.InAttempt? && !Ahead(s.holder)
    && (s'.calls[c].state == ReturnedNil(r) || (s'.calls[c].state.AttemptFailed? && s.core.regs[r].claim.SendFailed?))
  }

  lemma AttemptEndsEntry(cfg: Config, s: State, s': State, r: RegId)
    requires AttemptEnds(s, s', r) && EntryOk(cfg, s, r)
    requires FlowOk(cfg, s.core.regs[r], FactsOf(s, r).(inSend := false, notSent := false, deleting := false, willSettle := false))
    ensures EntryOk(cfg, s', r) && Around(s, s', r)
  {
    assert forall g | 0 <= g < |s.chans| :: ChannelGrows(s.chans[g], s'.chans[g], r);
    assert Filed(s', r) <==> Filed(s, r);
    assert Accepted(s', r) <==> Accepted(s, r);
    assert FactsOf(s', r) == FactsOf(s, r).(inSend := false, notSent := false, deleting := false, willSettle := false);
  }

  lemma AttemptEndsCalls(cfg: Config, s: State, s': State, r: RegId)
    requires AttemptEnds(s, s', r) && Around(s, s', r) && CallsOk(cfg, s)
    requires s'.calls[s.core.regs[r].call].state.ReturnedNil? ==> !s.core.regs[r].claim.SendFailed?
    ensures CallsOk(cfg, s')
  {
    forall d: nat | IsCall(s', d) ensures CallOk(cfg, s', d) {
      assert CallOk(cfg, s, d);
      if d != s.core.regs[r].call { AroundCall(cfg, s, s', r, d); }
    }
  }

  lemma AttemptEndsPreserves(cfg: Config, s: State, s': State, r: RegId)
    requires Inv(cfg, s) && AttemptEnds(s, s', r) && StatsOk(s')
    requires FlowOk(cfg, s.core.regs[r], FactsOf(s, r).(inSend := false, notSent := false, deleting := false, willSettle := false))
    requires s'.calls[s.core.regs[r].call].state.ReturnedNil? ==> !s.core.regs[r].claim.SendFailed?
    requires Filed(s, r) ==> s.core.regs[r].Claimed() || s.core.regs[r].confirmed || !(s.holder.Deferred? && s.holder.orphan)
    ensures Inv(cfg, s')
  {
    HolderInAttempt(cfg, s);
    AttemptEndsEntry(cfg, s, s', r);
    AroundEntries(cfg, s, s', r);
    AttemptEndsCalls(cfg, s, s', r);
    AroundSignals(s, s', r);
    StillCovered(cfg, s, s', r);
    AroundSweeps(cfg, s, s', r);
    AroundChannels(s, s', r);
  }

  lemma UncountFailedPreserves(cfg: Config, s: State)
    requires Inv(cfg, s) && WellFormed(s) && PublishEnabled(cfg, s, UncountFailed)
    ensures Inv(cfg, PublishStep(cfg, s, UncountFailed))
  {
    HolderInAttempt(cfg, s);
    AttemptEndsPreserves(cfg, s, PublishStep(cfg, s, UncountFailed), s.holder.reg);
  }

  /** publishTracked settles what was deferred to it, if anything was. */
  function SettledDeferred(cfg: Config, c: Core, r: RegId, orphan: bool, timeout: bool): Core
    requires IndexInRange(c) && r < |c.regs|
  {
    if orphan then SettleOrphan(cfg, c, r) else if timeout then HandleTimeout(cfg, c, c.regs[r].key) else c
  }

  /** A timeout deferred to the sender was due. */
  lemma DeferredIsDue(cfg: Config, s: State, r: RegId)
    requires Inv(cfg, s) && s.holder.Deferred? && s.holder.reg == r && s.holder.timeout && IsReg(s, r)
    requires s.core.regs[r].key in s.core.index.byKey
    ensures TimeoutIsDue(s, s.core.index.byKey[s.core.regs[r].key])
  {
    HolderInAttempt(cfg, s);
    AcceptedKeyFinds(cfg, s, s.core.regs[r].gen, s.core.regs[r].tag);
  }

  /** After that nothing depends on the holder of publishMu any more. */
  lemma DeferredIsSettled(cfg: Config, s: State, r: RegId)
    requires Inv(cfg, s) && IndexInRange(s.core) && s.holder.Deferred? && s.holder.reg == r && IsReg(s, r)
    ensures var s1 := s.(core := SettledDeferred(cfg, s.core, r, s.holder.orphan, s.holder.timeout));
            && Inv(cfg, s1) && IsReg(s1, r) && s1.core.regs[r].call == s.core.regs[r].call
            && !s1.core.regs[r].claim.SendFailed?
            && (s1.core.regs[r].Claimed() || s1.core.regs[r].confirmed || !(s.holder.orphan || s.holder.timeout))
  {
    var e := s.core.regs[r];
    HolderInAttempt(cfg, s);
    if s.holder.orphan {
      SettleOrphanPreserves(cfg, s, r);
    } else if s.holder.timeout {
      if e.key in s.core.index.byKey { DeferredIsDue(cfg, s, r); }
      StrayTimeoutPreserves(cfg, s, e.key);
      if e.claim.Unclaimed? {
        assert Filed(s, r);
        assert s.core.index.byKey[e.key] == r;
      } else if e.key in s.core.index.byKey {
        var r' := s.core.index.byKey[e.key];
        if r' != r { assert HandleTimeout(cfg, s.core, e.key).regs[r] == e; }
      }
    }
  }

  lemma SettleDeferredPreserves(cfg: Config, s: State)
    requires Inv(cfg, s) && IndexInRange(s.core) && s.holder.Deferred? && IsReg(s, s.holder.reg) && IsCall(s, s.core.regs[s.holder.reg].call)
    ensures Inv(cfg, DoSettleDeferred(cfg, s))
  {
    var r := s.holder.reg;
    var s1 := s.(core := SettledDeferred(cfg, s.core, r, s.holder.orphan, s.holder.timeout));
    DeferredIsSettled(cfg, s, r);
    HolderInAttempt(cfg, s1);
    var s' := s1.(holder := Free, calls := SetCall(s, s.core.regs[r].call, ReturnedNil(r)));
    assert s' == DoSettleDeferred(cfg, s);
    assert FactsOf(s1, r).(inSend := false, notSent := false, deleting := false, willSettle := false) == FactsOf(s1, r).(willSettle := false);
    AttemptEndsPreserves(cfg, s1, s', r);
  }

  /** An attempt to register is refused, for a reason, or files its message. */
  lemma RefusedOrFiled(s: State, fired: bool)
    requires s.holder.Checked? && IsCall(s, s.holder.call) && 1 <= s.holder.gen <= |s.core.gens| == |s.chans| && s.holder.gen == s.core.current
    requires s.core.gens[s.holder.gen - 1].published + 1 < TAG_SPAN
    ensures var s' := DoRegister(s, fired);
            if s'.holder.Free? then s'.calls[s.holder.call].state.AttemptFailed? && s' == Refuse(s, s'.calls[s.holder.call].state.error, fired)
            else Registers(s, s')
  {
  }

  lemma RegisterAttemptPreserves(cfg: Config, s: State, fired: bool)
    requires Inv(cfg, s) && s.holder.Checked? && IsCall(s, s.holder.call) && 1 <= s.holder.gen <= |s.core.gens|
    requires s.core.gens[s.holder.gen - 1].published + 1 < TAG_SPAN
    ensures Inv(cfg, DoRegister(s, fired))
  {
    RefusedOrFiled(s, fired);
    if DoRegister(s, fired).holder.Free? {
      RejectPreserves(cfg, s, DoRegister(s, fired).calls[s.holder.call].state.error, fired);
    } else {
      RegisterPreserves(cfg, s, DoRegister(s, fired));
    }
  }

  lemma SendActionPreserves(cfg: Config, s: State, a: PublishAction)
    requires Inv(cfg, s) && WellFormed(s) && PublishEnabled(cfg, s, a)
    requires a.CountAttempt? || a.WireSend? || a.SendReturned? || a.DeleteFailed? || a.StopFailed? || a.UncountFailed? || a.CountSent?
    ensures Inv(cfg, PublishStep(cfg, s, a))
  {
    match a
    case CountAttempt => CountAttemptPreserves(cfg, s);
    case WireSend(ok) =>
      if ok { WireAcceptsPreserves(cfg, s, PublishStep(cfg, s, a), s.holder.reg); } else { WireFailsPreserves(cfg, s); }
    case SendReturned(channelError) => SendReturnedPreserves(cfg, s, channelError);
    case DeleteFailed => DeleteFailedPreserves(cfg, s);
    case StopFailed => StopFailedPreserves(cfg, s);
    case UncountFailed => UncountFailedPreserves(cfg, s);
    case CountSent => CountSentPreserves(cfg, s, PublishStep(cfg, s, a), s.holder.reg);
  }

  lemma PublishPreserves(cfg: Config, s: State, a: PublishAction)
    requires Inv(cfg, s) && WellFormed(s) && PublishEnabled(cfg, s, a) && Environment(s, Publishing(a))
    ensures Inv(cfg, PublishStep(cfg, s, a))
  {
    match a
    case NewCall(id, mandatory, own) => NewCallPreserves(cfg, s, Call(|s.calls|, -1, id, mandatory, own, 0, 0, Ready));
    case BeginAttempt(c, contextDone) => BeginPreserves(cfg, s, c, contextDone);
    case RegisterAttempt(fired) => RegisterAttemptPreserves(cfg, s, fired);
    case SettleDeferred => SettleDeferredPreserves(cfg, s);
    case RetryAttempt(c) => RetryAttemptPreserves(cfg, s, c);
    case ReturnError(c) => ReturnErrorPreserves(cfg, s, c);
    case _ => SendActionPreserves(cfg, s, a);
  }
}
