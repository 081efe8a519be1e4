/**
 The broker, the sweep, the finishing goroutines, channel replacement and Close keep the
 invariant; and so does every action, over every run.
 */
module PreserveRest {
  import opened DeliveryKeys
  import opened PendingMap
  import opened DeliveryCore
  import opened DeliverySystem
  import opened DeliveryInvariant
  import opened DeliveryPreservation
  import opened PreserveHandlers
  import opened PreservePublish

  // ---- steps that concern no message ------------------------------------------------

  /** Messages, index, calls, callbacks, counts and the holder of publishMu stay as they are. */
  ghost predicate NoMessageTouched(s: State, s': State) {
    && s' == s.(core := s.core.(gens := s'.core.gens, genCounter := s'.core.genCounter, current := s'.core.current, closed := s'.core.closed),
                chans := s'.chans, refresher := s'.refresher, toClose := s'.toClose,
                opens := s'.opens, discards := s'.discards, overtakes := s'.overtakes, barrier := s'.barrier)
  }

  lemma NoMessagePreserves(cfg: Config, s: State, s': State)
    requires Inv(cfg, s) && NoMessageTouched(s, s') && Around(s, s', -1)
    requires ChannelsOk(s') && SweepsOk(cfg, s') && RefreshOk(s') && HolderOk(s') && BarrierOk(s')
    ensures Inv(cfg, s')
  {
    AroundEntries(cfg, s, s', -1);
    forall d: nat | IsCall(s', d) ensures CallOk(cfg, s', d) {
      assert CallOk(cfg, s, d);
      AroundCall(cfg, s, s', -1, d);
    }
    AroundSignals(s, s', -1);
  }

  /** One channel learns something; no sweep moves. */
  ghost predicate OneChannel(s: State, s': State, g: nat, ch: Channel) {
    && IsGen(s, g) && |s.core.gens| == |s.chans|
    && s' == s.(chans := SetChan(s, g, ch), toClose := s'.toClose)
    && ch.log == s.chans[g - 1].log && ch.sweep == s.chans[g - 1].sweep
    && ch.answersRead == s.chans[g - 1].answersRead
    && ChannelGrows(s.chans[g - 1], ch, -1)
    && (ch.open ==> s.chans[g - 1].open)
    && (forall t | t in ch.answers :: 1 <= t <= |ch.log|)
    && (forall t | t in ch.bounced :: 1 <= t <= |ch.log|)
  }

  lemma OneChannelChannels(s: State, s': State, g: nat, ch: Channel)
    requires OneChannel(s, s', g, ch) && ChannelsOk(s)
    ensures ChannelsOk(s')
  {
    forall h | IsGen(s', h) ensures ChannelOk(s', h) {
      assert ChannelOk(s, h);
      forall t | 1 <= t <= |s'.chans[h - 1].log| ensures LogOk(s', h, t) { assert LogOk(s, h, t); }
    }
  }

  lemma OneChannelIsAround(s: State, s': State, g: nat, ch: Channel)
    requires OneChannel(s, s', g, ch)
    ensures Around(s, s', -1)
  {
    forall h | 0 <= h < |s.chans| ensures ChannelGrows(s.chans[h], s'.chans[h], -1) {
    }
  }

  lemma OneChannelPreserves(cfg: Config, s: State, s': State, g: nat, ch: Channel)
    requires Inv(cfg, s) && OneChannel(s, s', g, ch) && RefreshOk(s')
    ensures Inv(cfg, s')
  {
    OneChannelIsAround(s, s', g, ch);
    OneChannelChannels(s, s', g, ch);
    AroundSweeps(cfg, s, s', -1);
    NoMessagePreserves(cfg, s, s');
  }

  lemma ChannelDying(s: State, s': State, g: nat, ch: Channel, toClose: set<nat>)
    requires RefreshOk(s) && ChannelsOk(s) && IsGen(s, g) && toClose <= s.toClose && s.toClose <= toClose + {g}
    requires ch == s.chans[g - 1].(open := false) && s' == s.(chans := SetChan(s, g, ch), toClose := toClose)
    ensures OneChannel(s, s', g, ch) && RefreshOk(s')
  {
    assert ChannelOk(s, g);
    forall h | 1 <= h < s'.core.current && s'.chans[h - 1].open ensures h in s'.toClose {
      assert h != g && s.chans[h - 1].open;
      assert h in toClose + {g};
    }
  }

  lemma ChannelDiesPreserves(cfg: Config, s: State, g: nat, toClose: set<nat>)
    requires Inv(cfg, s) && IsGen(s, g) && toClose <= s.toClose && s.toClose <= toClose + {g}
    ensures Inv(cfg, s.(chans := SetChan(s, g, s.chans[g - 1].(open := false)), toClose := toClose))
  {
    var ch := s.chans[g - 1].(open := false);
    var s' := s.(chans := SetChan(s, g, ch), toClose := toClose);
    ChannelDying(s, s', g, ch, toClose);
    OneChannelPreserves(cfg, s, s', g, ch);
  }

  predicate Speaks(ch: Channel, ch': Channel, t: nat) {
    || (t !in ch.answers && t in ch'.answers && ch' == ch.(answers := ch.answers[t := ch'.answers[t]]))
    || ch' == ch.(bounced := ch.bounced + {t})
  }

  /** The broker says something about tag t of channel g. */
  lemma BrokerSpeaks(s: State, g: nat, t: nat, ch: Channel)
    requires RefreshOk(s) && ChannelsOk(s) && IsGen(s, g) && 1 <= t <= |s.chans[g - 1].log|
    requires Speaks(s.chans[g - 1], ch, t)
    ensures var s' := s.(chans := SetChan(s, g, ch)); OneChannel(s, s', g, ch) && RefreshOk(s')
  {
    assert ChannelOk(s, g);
  }

  lemma BrokerSpeaksPreserves(cfg: Config, s: State, g: nat, t: nat, ch: Channel)
    requires Inv(cfg, s) && IsGen(s, g) && 1 <= t <= |s.chans[g - 1].log|
    requires Speaks(s.chans[g - 1], ch, t)
    ensures Inv(cfg, s.(chans := SetChan(s, g, ch)))
  {
    BrokerSpeaks(s, g, t, ch);
    OneChannelPreserves(cfg, s, s.(chans := SetChan(s, g, ch)), g, ch);
  }

  lemma BrokerAnswersPreserves(cfg: Config, s: State, g: nat, t: nat, ack: bool)
    requires Inv(cfg, s) && WellFormed(s) && BrokerEnabled(s, BrokerAnswers(g, t, ack))
    ensures Inv(cfg, BrokerStep(cfg, s, BrokerAnswers(g, t, ack)))
  {
    BrokerSpeaksPreserves(cfg, s, g, t, s.chans[g - 1].(answers := s.chans[g - 1].answers[t := ack]));
  }

  lemma BrokerReturnsPreserves(cfg: Config, s: State, g: nat, t: nat)
    requires Inv(cfg, s) && WellFormed(s) && BrokerEnabled(s, BrokerReturns(g, t))
    ensures Inv(cfg, BrokerStep(cfg, s, BrokerReturns(g, t)))
  {
    BrokerSpeaksPreserves(cfg, s, g, t, s.chans[g - 1].(bounced := s.chans[g - 1].bounced + {t}));
  }

  lemma ReturnReadPreserves(cfg: Config, s: State, g: nat, t: nat)
    requires Inv(cfg, s) && WellFormed(s) && BrokerEnabled(s, ReadReturn(g, t)) && ReturnsAreMeant(s, Broker(ReadReturn(g, t)))
    ensures Inv(cfg, BrokerStep(cfg, s, ReadReturn(g, t)))
  {
    UnsharedIsMeant(cfg, s, g, t);
    ReadReturnPreserves(cfg, s, g, t);
  }

  lemma BrokerPreserves(cfg: Config, s: State, a: BrokerAction)
    requires Inv(cfg, s) && WellFormed(s) && BrokerEnabled(s, a) && Environment(s, Broker(a))
    ensures Inv(cfg, BrokerStep(cfg, s, a))
  {
    match a
    case ChannelDies(g) => ChannelDiesPreserves(cfg, s, g, s.toClose);
    case BrokerAnswers(g, t, ack) => BrokerAnswersPreserves(cfg, s, g, t, ack);
    case BrokerReturns(g, t) => BrokerReturnsPreserves(cfg, s, g, t);
    case ReadConfirm(g, t) => ReadConfirmPreserves(cfg, s, g, t);
    case ReadReturn(g, t) => ReturnReadPreserves(cfg, s, g, t);
  }

  // ---- the sweep -----------------------------------------------------------------------

  /** The sweep of generation g moves; `sw` is where it gets to. */
  ghost predicate SweepMoves(s: State, s': State, g: nat, sw: Sweep) {
    && IsGen(s, g) && |s.core.gens| == |s.chans| && sw.Sweeping? && !s.chans[g - 1].open
    && s' == s.(core := MarkDead(s.core, g), chans := SetChan(s, g, s.chans[g - 1].(sweep := sw)))
  }

  lemma SweepMovesChannels(s: State, s': State, g: nat, sw: Sweep)
    requires SweepMoves(s, s', g, sw) && ChannelsOk(s)
    ensures ChannelsOk(s')
  {
    forall h | IsGen(s', h) ensures ChannelOk(s', h) {
      assert ChannelOk(s, h);
      forall t | 1 <= t <= |s'.chans[h - 1].log| ensures LogOk(s', h, t) { assert LogOk(s, h, t); }
    }
  }

  lemma SweepMovesIsAround(s: State, s': State, g: nat, sw: Sweep)
    requires SweepMoves(s, s', g, sw)
    ensures Around(s, s', -1)
  {
    assert forall h | 0 <= h < |s.chans| :: ChannelGrows(s.chans[h], s'.chans[h], -1);
  }

  lemma SweepMovesPreserves(cfg: Config, s: State, s': State, g: nat, sw: Sweep)
    requires Inv(cfg, s) && SweepMoves(s, s', g, sw) && SweepOk(cfg, s', g)
    ensures Inv(cfg, s')
  {
    SweepMovesIsAround(s, s', g, sw);
    SweepMovesChannels(s, s', g, sw);
    forall h | IsGen(s', h) ensures SweepOk(cfg, s', h) {
      if h != g {
        assert SweepOk(cfg, s, h);
        AroundSweep(cfg, s, s', -1, h);
      }
    }
    NoMessagePreserves(cfg, s, s');
  }

  lemma StartSweepPreserves(cfg: Config, s: State, g: nat)
    requires Inv(cfg, s) && IsGen(s, g) && !s.chans[g - 1].open && |s.core.gens| == |s.chans|
    ensures Inv(cfg, s.(core := MarkDead(s.core, g), chans := SetChan(s, g, s.chans[g - 1].(sweep := Sweeping(0, {})))))
  {
    SweepMovesPreserves(cfg, s, s.(core := MarkDead(s.core, g), chans := SetChan(s, g, s.chans[g - 1].(sweep := Sweeping(0, {})))),
                        g, Sweeping(0, {}));
  }

  /** Walking a shard finds every entry of the generation filed there. */
  lemma SweepShardCovers(cfg: Config, s: State, s': State, g: nat)
    requires IndexInRange(s.core) && SweepOk(cfg, s, g) && s.chans[g - 1].sweep.Sweeping?
    requires s.chans[g - 1].sweep.next < NUM_SHARDS
    requires var sw := s.chans[g - 1].sweep;
             s' == s.(chans := SetChan(s, g, s.chans[g - 1].(
                        sweep := Sweeping(sw.next + 1, sw.found + OrphansInShard(cfg, s.core, g, sw.next)))))
    ensures SweepOk(cfg, s', g)
  {
    var sw := s.chans[g - 1].sweep;
    forall r | r in s'.chans[g - 1].sweep.found ensures OnGeneration(s', g, r) {
      if r in sw.found { assert OnGeneration(s, g, r); }
    }
    forall r: RegId | IsReg(s', r) ensures SweepCovers(cfg, s', g, r) {
      assert SweepCovers(cfg, s, g, r);
      if Filed(s, r) && s.core.regs[r].gen == g && ShardOfId(cfg.hash, s.core.regs[r].id) == sw.next {
        assert r in OrphansInShard(cfg, s.core, g, sw.next);
      }
    }
  }

  lemma SweepShardMoves(cfg: Config, s: State, g: nat)
    requires WellFormed(s) && SweepEnabled(s, SweepShard(g)) && ChannelOk(s, g) && SweepOk(cfg, s, g)
    ensures var s' := SweepStep(cfg, s, SweepShard(g)); SweepMoves(s, s', g, s'.chans[g - 1].sweep) && SweepOk(cfg, s', g)
  {
    SweepShardCovers(cfg, s, SweepStep(cfg, s, SweepShard(g)), g);
  }

  lemma SweepShardPreserves(cfg: Config, s: State, g: nat)
    requires Inv(cfg, s) && WellFormed(s) && SweepEnabled(s, SweepShard(g))
    ensures Inv(cfg, SweepStep(cfg, s, SweepShard(g)))
  {
    var s' := SweepStep(cfg, s, SweepShard(g));
    assert ChannelOk(s, g) && SweepOk(cfg, s, g);
    SweepShardMoves(cfg, s, g);
    SweepMovesPreserves(cfg, s, s', g, s'.chans[g - 1].sweep);
  }

  lemma SweepSettleCovers(cfg: Config, s: State, s': State, g: nat, r: RegId)
    requires SweepOk(cfg, s, g) && s.chans[g - 1].sweep.Sweeping? && IsReg(s, r) && Swept(s, r)
    requires var sw := s.chans[g - 1].sweep;
             s' == s.(chans := SetChan(s, g, s.chans[g - 1].(sweep := sw.(found := sw.found - {r}))))
    ensures SweepOk(cfg, s', g)
  {
    forall r1 | r1 in s'.chans[g - 1].sweep.found ensures OnGeneration(s', g, r1) {
      assert OnGeneration(s, g, r1);
    }
    forall r1: RegId | IsReg(s', r1) ensures SweepCovers(cfg, s', g, r1) {
      assert SweepCovers(cfg, s, g, r1);
    }
  }

  lemma SweepSettlePreserves(cfg: Config, s: State, g: nat, r: RegId)
    requires Inv(cfg, s) && WellFormed(s) && SweepEnabled(s, SweepSettle(g, r))
    ensures Inv(cfg, SweepStep(cfg, s, SweepSettle(g, r)))
  {
    var sw := s.chans[g - 1].sweep;
    assert ChannelOk(s, g) && SweepOk(cfg, s, g);
    assert OnGeneration(s, g, r);
    SettleOrphanPreserves(cfg, s, r);
    var s1 := s.(core := SettleOrphan(cfg, s.core, r));
    var s' := s1.(chans := SetChan(s1, g, s1.chans[g - 1].(sweep := sw.(found := sw.found - {r}))));
    assert s' == SweepStep(cfg, s, SweepSettle(g, r));
    assert ChannelOk(s1, g) && SweepOk(cfg, s1, g);
    SweepSettleCovers(cfg, s1, s', g, r);
    SweepMovesPreserves(cfg, s1, s', g, s'.chans[g - 1].sweep);
  }

  lemma SweepPreserves(cfg: Config, s: State, a: SweepAction)
    requires Inv(cfg, s) && WellFormed(s) && SweepEnabled(s, a)
    ensures Inv(cfg, SweepStep(cfg, s, a))
  {
    match a
    case StartSweep(g) => StartSweepPreserves(cfg, s, g);
    case SweepShard(g) => SweepShardPreserves(cfg, s, g);
    case SweepSettle(g, r) => SweepSettlePreserves(cfg, s, g, r);
  }

  // ---- the finishing goroutines -----------------------------------------------------------

  /** A goroutine of a claimed message moves on; it may file the message out, run its callback, or republish it. */
  ghost predicate GoroutineMoves(s: State, s': State, r: RegId) {
    && IsReg(s, r) && |s.core.gens| == |s.chans|
    && s' == s.(core := s.core.(regs := s'.core.regs, index := s'.core.index), calls := s'.calls, signals := s'.signals)
    && |s'.core.regs| == |s.core.regs| && s'.core.regs == s.core.regs[r := s'.core.regs[r]]
    && var e, e' := s.core.regs[r], s'.core.regs[r];
    && e.claim.Settled? && e' == e.(work := e'.work, retryCount := e'.retryCount)
    && !e.work.Done? && !e.work.Retried?
    && (s'.core.index == s.core.index || (Filed(s, r) && s'.core.index == Deregister(s.core, r).index))
    && s.calls <= s'.calls && s.signals <= s'.signals
  }

  lemma GoroutineIsAround(s: State, s': State, r: RegId)
    requires GoroutineMoves(s, s', r)
    ensures Around(s, s', r) && Advances(s, s', r)
  {
    assert forall g | 0 <= g < |s.chans| :: ChannelGrows(s.chans[g], s'.chans[g], r);
    forall c | 0 <= c < |s.calls| ensures CallGrows(s.calls[c], s'.calls[c]) {
      assert s'.calls[c] == s.calls[c];
    }
    forall r1: RegId | IsReg(s, r1) && r1 != r ensures Filed(s', r1) <==> Filed(s, r1) {
      assert s'.core.regs[r1] == s.core.regs[r1];
    }
  }

  lemma GoroutineIndex(s: State, s': State, r: RegId)
    requires GoroutineMoves(s, s', r) && IndexOk(s)
    ensures IndexOk(s')
  {
  }

  lemma GoroutineHolder(s: State, s': State, r: RegId)
    requires GoroutineMoves(s, s', r) && HolderOk(s)
    ensures HolderOk(s') && HolderCall(s') == HolderCall(s)
  {
    var h := HolderReg(s.holder);
    if h >= 0 { assert h != r ==> s'.core.regs[h] == s.core.regs[h]; }
  }

  lemma GoroutineCalls(cfg: Config, s: State, s': State, r: RegId)
    requires GoroutineMoves(s, s', r) && Around(s, s', r) && Advances(s, s', r) && CallsOk(cfg, s) && HolderCall(s') == HolderCall(s)
    requires forall c {:trigger CallOk(cfg, s', c)} | |s.calls| <= c < |s'.calls| :: CallOk(cfg, s', c)
    ensures CallsOk(cfg, s')
  {
    forall d: nat | IsCall(s', d) ensures CallOk(cfg, s', d) {
      if d < |s.calls| {
        assert CallOk(cfg, s, d);
        assert s'.calls[d] == s.calls[d];
        AroundCall(cfg, s, s', r, d);
      }
    }
  }

  lemma GoroutineEntry(cfg: Config, s: State, s': State, r: RegId)
    requires GoroutineMoves(s, s', r) && EntryOk(cfg, s, r) && LinksOk(cfg, s', r)
    requires FlowOk(cfg, s'.core.regs[r], FactsOf(s, r).(filed := Filed(s', r)))
    ensures EntryOk(cfg, s', r)
  {
    assert Accepted(s', r) <==> Accepted(s, r);
    assert FactsOf(s', r) == FactsOf(s, r).(filed := Filed(s', r));
  }

  lemma GoroutinePreserves(cfg: Config, s: State, s': State, r: RegId)
    requires Inv(cfg, s) && GoroutineMoves(s, s', r)
    requires IsCall(s', s.core.regs[r].call) && LinksOk(cfg, s', r)
    requires FlowOk(cfg, s'.core.regs[r], FactsOf(s, r).(filed := Filed(s', r)))
    requires forall c {:trigger CallOk(cfg, s', c)} | |s.calls| <= c < |s'.calls| :: CallOk(cfg, s', c)
    requires forall i {:trigger SignalOk(s', i)} | |s.signals| <= i < |s'.signals| :: SignalOk(s', i)
    ensures Inv(cfg, s')
  {
    assert EntryOk(cfg, s, r);
    GoroutineEntry(cfg, s, s', r);
    GoroutineIsAround(s, s', r);
    GoroutineIndex(s, s', r);
    GoroutineHolder(s, s', r);
    AroundEntries(cfg, s, s', r);
    GoroutineCalls(cfg, s, s', r);
    AroundSignals(s, s', r);
    StillCovered(cfg, s, s', r);
    AroundSweeps(cfg, s, s', r);
    AroundChannels(s, s', r);
    CountUpdate(s.core.regs, r, s'.core.regs[r]);
  }

  lemma CleanedUp(cfg: Config, s: State, s': State, r: RegId)
    requires EntriesOk(cfg, s) && |s.core.gens| == |s.chans| && IsReg(s, r) && s.core.regs[r].work.Cleanup?
    requires s' == s.(core := SetWork(Deregister(s.core, r), r, Callback))
    ensures GoroutineMoves(s, s', r) && IsCall(s', s.core.regs[r].call) && LinksOk(cfg, s', r)
    ensures FlowOk(cfg, s'.core.regs[r], FactsOf(s, r).(filed := Filed(s', r)))
  {
    assert EntryOk(cfg, s, r);
    assert s'.core.regs[r] == s.core.regs[r].(work := Callback);
  }

  lemma RunCleanupPreserves(cfg: Config, s: State, r: RegId)
    requires Inv(cfg, s) && IsReg(s, r) && s.core.regs[r].work.Cleanup?
    ensures Inv(cfg, s.(core := SetWork(Deregister(s.core, r), r, Callback)))
  {
    var s' := s.(core := SetWork(Deregister(s.core, r), r, Callback));
    CleanedUp(cfg, s, s', r);
    GoroutinePreserves(cfg, s, s', r);
  }

  lemma CalledBack(cfg: Config, s: State, s': State, r: RegId)
    requires EntryOk(cfg, s, r) && WellFormed(s) && FinishEnabled(s, RunCallback(r)) && s' == FinishStep(cfg, s, RunCallback(r))
    ensures s'.core.regs[r] == s.core.regs[r].(work := Done(|s.signals|)) && s'.calls == s.calls && |s'.signals| == |s.signals| + 1
    ensures GoroutineMoves(s, s', r) && LinksOk(cfg, s', r)
    ensures SignalOk(s', |s.signals|)
  {
    assert s'.signals[|s.signals|].source == FromReg(r);
  }

  lemma CallbackFlow(cfg: Config, e: Entry, f: Facts, signal: nat)
    requires FlowOk(cfg, e, f) && e.work.Callback?
    ensures FlowOk(cfg, e.(work := Done(signal)), f)
  {
  }

  lemma RunCallbackPreserves(cfg: Config, s: State, r: RegId)
    requires Inv(cfg, s) && WellFormed(s) && FinishEnabled(s, RunCallback(r))
    ensures Inv(cfg, FinishStep(cfg, s, RunCallback(r)))
  {
    var s' := FinishStep(cfg, s, RunCallback(r));
    assert EntryOk(cfg, s, r);
    CalledBack(cfg, s, s', r);
    CallbackFlow(cfg, s.core.regs[r], FactsOf(s, r), |s.signals|);
    assert FactsOf(s, r).(filed := Filed(s', r)) == FactsOf(s, r);
    GoroutinePreserves(cfg, s, s', r);
  }

  /** The branch of retryMessage that gives up is never taken: a queued retry still has attempts left. */
  lemma RetryHasAttemptsLeft(cfg: Config, s: State, r: RegId)
    requires EntriesOk(cfg, s) && IsReg(s, r) && s.core.regs[r].work.RetryQueued?
    ensures s.core.regs[r].retryCount + 1 <= cfg.maxRetryAttempts
    ensures BeginRetry(cfg, s.core, r).regs[r].work.RetryWaiting?
  {
    assert EntryOk(cfg, s, r);
  }

  lemma RetryBegun(cfg: Config, s: State, s': State, r: RegId)
    requires EntriesOk(cfg, s) && |s.core.gens| == |s.chans| && IsReg(s, r) && s.core.regs[r].work.RetryQueued?
    requires s' == s.(core := BeginRetry(cfg, s.core, r))
    ensures s'.core.regs[r] == s.core.regs[r].(retryCount := s.core.regs[r].retryCount + 1, work := RetryWaiting)
    ensures GoroutineMoves(s, s', r) && IsCall(s', s.core.regs[r].call) && LinksOk(cfg, s', r) && (Filed(s', r) <==> Filed(s, r))
  {
    RetryHasAttemptsLeft(cfg, s, r);
    assert EntryOk(cfg, s, r);
  }

  lemma RetryFlow(cfg: Config, e: Entry, f: Facts)
    requires FlowOk(cfg, e, f) && e.work.RetryQueued?
    ensures FlowOk(cfg, e.(retryCount := e.retryCount + 1, work := RetryWaiting), f)
  {
  }

  lemma RunRetryPreserves(cfg: Config, s: State, r: RegId)
    requires Inv(cfg, s) && IsReg(s, r) && s.core.regs[r].work.RetryQueued?
    ensures Inv(cfg, s.(core := BeginRetry(cfg, s.core, r)))
  {
    var s' := s.(core := BeginRetry(cfg, s.core, r));
    assert EntryOk(cfg, s, r);
    RetryBegun(cfg, s, s', r);
    RetryFlow(cfg, s.core.regs[r], FactsOf(s, r));
    assert FactsOf(s, r).(filed := Filed(s', r)) == FactsOf(s, r);
    GoroutinePreserves(cfg, s, s', r);
  }

  lemma RepublishCall(cfg: Config, s: State, r: RegId)
    requires IsReg(s, r) && EntryOk(cfg, s, r) && HolderOk(s) && EntriesOk(cfg, s) && s.core.regs[r].work.RetryWaiting?
    ensures var s' := DoRepublish(s, r); CallOk(cfg, s', |s.calls|) && IsCall(s', s.core.regs[r].call) && LinksOk(cfg, s', r)
  {
    var s' := DoRepublish(s, r);
    HolderCallInRange(cfg, s);
    var h := HolderReg(s.holder);
    if h >= 0 {
      assert EntryOk(cfg, s, h);
      assert h != r ==> s'.core.regs[h] == s.core.regs[h];
    }
    assert s'.calls[s.core.regs[r].call] == s.calls[s.core.regs[r].call];
  }

  lemma RepublishPreserves(cfg: Config, s: State, r: RegId)
    requires Inv(cfg, s) && IsReg(s, r) && s.core.regs[r].work.RetryWaiting? && IsCall(s, s.core.regs[r].call)
    ensures Inv(cfg, DoRepublish(s, r))
  {
    var s' := DoRepublish(s, r);
    assert EntryOk(cfg, s, r);
    RepublishCall(cfg, s, r);
    assert s'.core.regs[r] == s.core.regs[r].(work := Retried(|s.calls|));
    GoroutinePreserves(cfg, s, s', r);
  }

  lemma FinishPreserves(cfg: Config, s: State, a: FinishAction)
    requires Inv(cfg, s) && WellFormed(s) && FinishEnabled(s, a)
    ensures Inv(cfg, FinishStep(cfg, s, a))
  {
    match a
    case RunCleanup(r) => RunCleanupPreserves(cfg, s, r);
    case RunCallback(r) => RunCallbackPreserves(cfg, s, r);
    case RunRetry(r) => RunRetryPreserves(cfg, s, r);
    case Republish(r) => RepublishPreserves(cfg, s, r);
    case RetryErrorCallback(c) => RetryErrorPreserves(cfg, s, c);
  }

  // ---- channel replacement and Close ---------------------------------------------------------

  lemma QuietPreserves(cfg: Config, s: State, s': State)
    requires Inv(cfg, s) && NoMessageTouched(s, s') && s'.chans == s.chans && s'.core == s.core.(closed := s'.core.closed)
    requires (s.core.closed ==> s'.core.closed) && RefreshOk(s') && BarrierOk(s')
    ensures Inv(cfg, s')
  {
    assert forall g | 0 <= g < |s.chans| :: ChannelGrows(s.chans[g], s'.chans[g], -1);
    assert Around(s, s', -1);
    AroundSweeps(cfg, s, s', -1);
    AroundChannels(s, s', -1);
    NoMessagePreserves(cfg, s, s');
  }

  ghost predicate Installs(s: State, s': State) {
    && |s.core.gens| == |s.chans|
    && s' == s.(core := Install(s.core), chans := s.chans + [FRESH_CHANNEL], refresher := NoRefresh, toClose := s.toClose + {s.core.current})
  }

  lemma InstallChannels(cfg: Config, s: State, s': State)
    requires Installs(s, s') && RefreshOk(s) && ChannelsOk(s) && SweepsOk(cfg, s) && s.holder.Free? && Around(s, s', -1)
    ensures ChannelsOk(s') && SweepsOk(cfg, s')
  {
    forall g: nat | IsGen(s', g) ensures ChannelOk(s', g) && SweepOk(cfg, s', g) {
      if g <= |s.chans| {
        assert ChannelOk(s, g) && SweepOk(cfg, s, g);
        forall t | 1 <= t <= |s'.chans[g - 1].log| ensures LogOk(s', g, t) { assert LogOk(s, g, t); }
        AroundSweep(cfg, s, s', -1, g);
      }
    }
  }

  lemma InstallPreserves(cfg: Config, s: State, s': State)
    requires Inv(cfg, s) && Installs(s, s') && s.holder.Free? && s.refresher.Prepared?
    requires s.core.genCounter + 1 < GENERATION_SPAN && !s.core.closed
    ensures Inv(cfg, s')
  {
    assert forall g | 0 <= g < |s.chans| :: ChannelGrows(s.chans[g], s'.chans[g], -1);
    assert Around(s, s', -1);
    InstallChannels(cfg, s, s');
    NoMessagePreserves(cfg, s, s');
  }

  /** Nobody can have replaced the failed generation while refreshMu was held. */
  lemma NotOvertaken(s: State)
    requires RefreshOk(s) && s.refresher.Prepared?
    ensures s.core.current == s.refresher.failed
  {
  }

  lemma StopOnClosePreserves(cfg: Config, s: State, r: RegId)
    requires Inv(cfg, s) && IsReg(s, r) && s.core.closed
    ensures Inv(cfg, s.(core := StopTimerOf(s.core, r)))
  {
    var e' := s.core.regs[r].StopTimer();
    SpendTimerPreserves(cfg, s, r, e');
    assert Update(s.core, r, e') == StopTimerOf(s.core, r);
  }

  lemma RefreshPreserves(cfg: Config, s: State, a: ChannelAction)
    requires Inv(cfg, s) && WellFormed(s) && ChannelEnabled(s, a) && Environment(s, Channels(a))
    requires a.LockRefresh? || a.OpenChannel? || a.PrepareChannel? || a.InstallChannel?
    ensures Inv(cfg, ChannelStep(cfg, s, a))
  {
    var s' := ChannelStep(cfg, s, a);
    match a
    case LockRefresh(failed) => QuietPreserves(cfg, s, s');
    case OpenChannel(ok) => QuietPreserves(cfg, s, s');
    case PrepareChannel(ok) => QuietPreserves(cfg, s, s');
    case InstallChannel =>
      NotOvertaken(s);
      if s.core.closed { QuietPreserves(cfg, s, s'); } else { InstallPreserves(cfg, s, s'); }
  }

  lemma ChannelPreserves(cfg: Config, s: State, a: ChannelAction)
    requires Inv(cfg, s) && WellFormed(s) && ChannelEnabled(s, a) && Environment(s, Channels(a))
    ensures Inv(cfg, ChannelStep(cfg, s, a))
  {
    match a
    case CloseOld(g) => ChannelDiesPreserves(cfg, s, g, s.toClose - {g});
    case BeginClose => QuietPreserves(cfg, s, ChannelStep(cfg, s, a));
    case PassBarrier => QuietPreserves(cfg, s, ChannelStep(cfg, s, a));
    case StopTimerOnClose(r) => StopOnClosePreserves(cfg, s, r);
    case _ => RefreshPreserves(cfg, s, a);
  }

  // ---- every action, every run ------------------------------------------------------------------

  lemma StepPreserves(cfg: Config, s: State, a: Action)
    requires Inv(cfg, s) && Enabled(cfg, s, a) && Environment(s, a)
    ensures Inv(cfg, Step(cfg, s, a))
  {
    match a
    case Publishing(x) => PublishPreserves(cfg, s, x);
    case Broker(x) => BrokerPreserves(cfg, s, x);
    case Timers(x) => TimerPreserves(cfg, s, x);
    case Orphans(x) => SweepPreserves(cfg, s, x);
    case Finishing(x) => FinishPreserves(cfg, s, x);
    case Channels(x) => ChannelPreserves(cfg, s, x);
  }

  /** The invariant holds in every state of every run. */
  lemma {:induction false} RunInvariant(cfg: Config, run: seq<State>, acts: seq<Action>, i: nat)
    requires IsRun(cfg, run, acts) && i < |run|
    ensures Inv(cfg, run[i])
  {
    if i == 0 {
      InvInit(cfg);
    } else {
      RunInvariant(cfg, run, acts, i - 1);
      StepPreserves(cfg, run[i - 1], acts[i - 1]);
    }
  }
}
