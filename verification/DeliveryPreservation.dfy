/**
 Frame lemmas. Every action is a step around at most one registration: all the others
 keep what the invariant says about them. Most actions only move one message's state
 forward; EvolvePreserves deals with all of those at once.
 */
module DeliveryPreservation {
  import opened PendingMap
  import opened DeliveryCore
  import opened DeliverySystem
  import opened DeliveryInvariant

  // ---- counting ---------------------------------------------------------------

  lemma CountUpdate(regs: seq<Entry>, r: nat, e: Entry)
    requires r < |regs|
    ensures forall c: Claim :: CountOf(regs[r := e], c) ==
              CountOf(regs, c) - (if regs[r].claim == c then 1 else 0) + (if e.claim == c then 1 else 0)
  {
    forall c: Claim ensures CountOf(regs[r := e], c) ==
              CountOf(regs, c) - (if regs[r].claim == c then 1 else 0) + (if e.claim == c then 1 else 0) {
      CountOfUpdate(regs, r, e, c);
    }
  }

  lemma CountOfUpdate(regs: seq<Entry>, r: nat, e: Entry, c: Claim)
    requires r < |regs|
    ensures CountOf(regs[r := e], c) == CountOf(regs, c) - (if regs[r].claim == c then 1 else 0) + (if e.claim == c then 1 else 0)
  {
    var n := |regs| - 1;
    if r < n {
      assert regs[r := e][..n] == regs[..n][r := e];
      CountOfUpdate(regs[..n], r, e, c);
    } else {
      assert regs[r := e][..n] == regs[..n];
    }
  }

  // ---- a step around one message ------------------------------------------------

  /** What the broker and the readers know only grows; the log is extended by x alone. */
  predicate ChannelGrows(ch: Channel, ch': Channel, x: int) {
    && |ch.log| <= |ch'.log| <= |ch.log| + 1
    && ch'.log[..|ch.log|] == ch.log
    && (|ch'.log| > |ch.log| ==> ch'.log[|ch.log|] == x)
    && (forall t | t in ch.answers :: t in ch'.answers && ch'.answers[t] == ch.answers[t])
    && ch.answersRead <= ch'.answersRead
    && (forall t | t in ch'.answersRead && t !in ch.answersRead :: 1 <= t <= |ch.log| && ch.log[t - 1] == x)
    && ch.bounced <= ch'.bounced
  }

  predicate CallGrows(call: Call, call': Call) {
    && call' == call.(state := call'.state, attempts := call'.attempts)
    && (call.state.ReturnedNil? || call.state.ErrorSignalled? || call.state.ErrorSilent? ==> call'.state == call.state)
  }

  /** Holder transitions concern registration x only. */
  predicate HolderMoves(h: Holder, h': Holder, x: int) {
    h' == h || (HolderReg(h) in {-1, x} && HolderReg(h') in {-1, x})
  }

  /** s' differs from s around registration x (possibly a new one), and otherwise only by growing. */
  ghost predicate Around(s: State, s': State, x: int) {
    && |s.core.regs| <= |s'.core.regs| <= |s.core.regs| + 1
    && (|s'.core.regs| > |s.core.regs| ==> x == |s.core.regs|)
    && (forall r {:trigger s'.core.regs[r]} | 0 <= r < |s.core.regs| && r != x :: s'.core.regs[r] == s.core.regs[r])
    && (forall r {:trigger Filed(s', r)} | IsReg(s, r) && r != x :: Filed(s', r) <==> Filed(s, r))
    && (s.core.closed ==> s'.core.closed)
    && |s.core.gens| == |s.chans| <= |s'.chans| == |s'.core.gens|
    && (forall g {:trigger s'.chans[g]} | 0 <= g < |s.chans| :: ChannelGrows(s.chans[g], s'.chans[g], x))
    && (forall g {:trigger s'.core.gens[g]} | 0 <= g < |s.chans| :: s.core.gens[g].dead ==> s'.core.gens[g].dead)
    && |s.calls| <= |s'.calls|
    && (forall c {:trigger s'.calls[c]} | 0 <= c < |s.calls| :: CallGrows(s.calls[c], s'.calls[c]))
    && s.signals <= s'.signals && s.misfires <= s'.misfires
    && HolderMoves(s.holder, s'.holder, x)
  }

  /** Facts about an uninvolved registration: only the channel's and Close's history can grow. */
  predicate FactsGrow(f: Facts, f': Facts) {
    && f' == f.(bounced := f'.bounced, dead := f'.dead, misfired := f'.misfired, closed := f'.closed)
    && (f.bounced ==> f'.bounced)
    && (f.dead ==> f'.dead) && (f.misfired ==> f'.misfired) && (f.closed ==> f'.closed)
  }

  /** What is known of an uninvolved registration's own tag changes only by the broker returning it. */
  lemma AroundTag(s: State, s': State, x: int, r: RegId)
    requires r != x && IsReg(s, r) && IsReg(s', r) && s'.core.regs[r] == s.core.regs[r]
    requires var g := s.core.regs[r].gen;
             IsGen(s, g) && IsGen(s', g) && ChannelOk(s, g) && ChannelGrows(s.chans[g - 1], s'.chans[g - 1], x)
    ensures Accepted(s', r) <==> Accepted(s, r)
    ensures forall ack :: Answered(s', r, ack) <==> Answered(s, r, ack)
    ensures WasReturned(s, r) ==> WasReturned(s', r)
  {
  }

  /** An uninvolved registration is as far from or as near to publishMu as before. */
  lemma AroundHolder(h: Holder, h': Holder, x: int, r: RegId)
    requires HolderMoves(h, h', x) && r != x
    ensures (InSend(h', r) <==> InSend(h, r)) && (NotSent(h', r) <==> NotSent(h, r)) && (WillSettle(h', r) <==> WillSettle(h, r))
    ensures h'.FailDelete? && h'.reg == r <==> h.FailDelete? && h.reg == r
  {
  }

  lemma AroundFacts(s: State, s': State, x: int, r: RegId)
    requires Around(s, s', x) && ChannelsOk(s)
    requires r != x && IsReg(s, r) && IdentityOk(s, r)
    ensures IsReg(s', r) && s'.core.regs[r] == s.core.regs[r] && FactsGrow(FactsOf(s, r), FactsOf(s', r))
  {
    var g := s.core.regs[r].gen;
    assert s'.core.regs[r] == s.core.regs[r];
    assert ChannelOk(s, g);
    assert ChannelGrows(s.chans[g - 1], s'.chans[g - 1], x);
    assert s.core.gens[g - 1].dead ==> s'.core.gens[g - 1].dead;
    AroundTag(s, s', x, r);
    AroundHolder(s.holder, s'.holder, x, r);
    assert Filed(s', r) <==> Filed(s, r);
  }

  lemma AroundEntry(cfg: Config, s: State, s': State, x: int, r: RegId)
    requires Around(s, s', x) && ChannelsOk(s)
    requires r != x && EntryOk(cfg, s, r)
    ensures EntryOk(cfg, s', r)
  {
    AroundFacts(s, s', x, r);
    var c := s.core.regs[r].call;
    assert CallGrows(s.calls[c], s'.calls[c]);
    if s.core.regs[r].work.Retried? {
      assert CallGrows(s.calls[s.core.regs[r].work.call], s'.calls[s.core.regs[r].work.call]);
    }
    if s.core.regs[r].work.Done? {
      assert s'.signals[s.core.regs[r].work.signal] == s.signals[s.core.regs[r].work.signal];
    }
  }

  lemma AroundEntries(cfg: Config, s: State, s': State, x: int)
    requires EntriesOk(cfg, s) && ChannelsOk(s) && Around(s, s', x)
    requires 0 <= x < |s'.core.regs| ==> EntryOk(cfg, s', x)
    ensures EntriesOk(cfg, s')
  {
    forall r | IsReg(s', r) ensures EntryOk(cfg, s', r) {
      if r != x {
        assert EntryOk(cfg, s, r);
        AroundEntry(cfg, s, s', x, r);
      }
    }
  }

  /** Registration x keeps its identity, and what is final about it. */
  ghost predicate Advances(s: State, s': State, x: int) {
    0 <= x < |s.core.regs| <= |s'.core.regs| ==>
      var e, e' := s.core.regs[x], s'.core.regs[x];
      && e'.call == e.call && e'.id == e.id && e'.mandatory == e.mandatory
      && e'.key == e.key && e'.gen == e.gen && e'.tag == e.tag
      && (e'.claim == e.claim || e.claim.Unclaimed?)
      && (e.work.Done? || e.work.Retried? ==> e'.work == e.work)
  }

  lemma AroundCall(cfg: Config, s: State, s': State, x: int, c: nat)
    requires Around(s, s', x) && Advances(s, s', x)
    requires CallOk(cfg, s, c) && s'.calls[c] == s.calls[c]
    requires HolderCall(s') == c <==> HolderCall(s) == c
    requires s.calls[c].state.ReturnedNil? && s.calls[c].state.reg == x ==> !s'.core.regs[x].claim.SendFailed?
    ensures CallOk(cfg, s', c)
  {
    if s.calls[c].state.ReturnedNil? {
      var r := s.calls[c].state.reg;
      assert r != x ==> s'.core.regs[r] == s.core.regs[r];
    }
    if !s.calls[c].IsRoot() {
      var p := s.calls[c].parent;
      assert p != x ==> s'.core.regs[p] == s.core.regs[p];
      var q := s.core.regs[p].call;
      assert CallGrows(s.calls[q], s'.calls[q]);
    }
  }

  lemma AroundSignals(s: State, s': State, x: int)
    requires SignalsOk(s) && Around(s, s', x) && Advances(s, s', x)
    requires forall i {:trigger SignalOk(s', i)} | |s.signals| <= i < |s'.signals| :: SignalOk(s', i)
    ensures SignalsOk(s')
  {
    forall i | 0 <= i < |s'.signals| ensures SignalOk(s', i) {
      if i < |s.signals| {
        assert SignalOk(s, i);
      }
    }
  }

  /** A generation whose sweep has not moved stays covered if x is. */
  lemma AroundSweep(cfg: Config, s: State, s': State, x: int, g: nat)
    requires Around(s, s', x) && Advances(s, s', x)
    requires SweepOk(cfg, s, g) && s'.chans[g - 1].sweep == s.chans[g - 1].sweep
    requires 0 <= x < |s'.core.regs| ==> SweepCovers(cfg, s', g, x)
    ensures SweepOk(cfg, s', g)
  {
    if s.chans[g - 1].sweep.Sweeping? {
      forall r | r in s'.chans[g - 1].sweep.found ensures OnGeneration(s', g, r) {
        assert OnGeneration(s, g, r);
        assert r != x ==> s'.core.regs[r] == s.core.regs[r];
      }
    }
    forall r: RegId | IsReg(s', r) ensures SweepCovers(cfg, s', g, r) {
      if r != x {
        assert SweepCovers(cfg, s, g, r);
        assert s'.core.regs[r] == s.core.regs[r];
        assert Filed(s', r) <==> Filed(s, r);
      }
    }
  }

  ghost predicate SweepsCover(cfg: Config, s: State, x: int) {
    0 <= x < |s.core.regs| ==> forall g {:trigger SweepCovers(cfg, s, g, x)} | IsGen(s, g) :: SweepCovers(cfg, s, g, x)
  }

  lemma AroundSweeps(cfg: Config, s: State, s': State, x: int)
    requires SweepsOk(cfg, s) && Around(s, s', x) && Advances(s, s', x)
    requires |s'.chans| == |s.chans|
    requires forall g {:trigger s'.chans[g]} | 0 <= g < |s.chans| :: s'.chans[g].sweep == s.chans[g].sweep
    requires SweepsCover(cfg, s', x)
    ensures SweepsOk(cfg, s')
  {
    forall g | IsGen(s', g) ensures SweepOk(cfg, s', g) {
      assert SweepOk(cfg, s, g);
      if 0 <= x < |s'.core.regs| { assert SweepCovers(cfg, s', g, x); }
      AroundSweep(cfg, s, s', x, g);
    }
  }

  /** The common case for x itself: it was covered before, and what covered it still does. */
  lemma StillCovered(cfg: Config, s: State, s': State, x: RegId)
    requires SweepsOk(cfg, s) && Around(s, s', x) && Advances(s, s', x) && IsReg(s, x) && |s'.chans| == |s.chans|
    requires forall g {:trigger s'.chans[g]} | 0 <= g < |s.chans| :: s'.chans[g].sweep == s.chans[g].sweep
    requires Filed(s', x) ==> Filed(s, x) && (Swept(s, x) ==> Swept(s', x))
    ensures SweepsCover(cfg, s', x)
  {
    forall g | IsGen(s', g) ensures SweepCovers(cfg, s', g, x) {
      assert SweepOk(cfg, s, g);
      assert SweepCovers(cfg, s, g, x);
    }
  }

  /** The publisher's count lags one behind the channel between a send's acceptance and gen.published++. */
  predicate Ahead(h: Holder) { (h.Sent? && h.ok) || h.SendOk? }

  /** Steps that leave the channels and the counts alone. */
  lemma AroundChannels(s: State, s': State, x: int)
    requires ChannelsOk(s) && Around(s, s', x) && Advances(s, s', x)
    requires s'.chans == s.chans && s'.core.gens == s.core.gens && s'.core.current == s.core.current
    requires Ahead(s'.holder) == Ahead(s.holder)
    ensures ChannelsOk(s')
  {
    forall g | IsGen(s', g) ensures ChannelOk(s', g) {
      assert ChannelOk(s, g);
      forall t | 1 <= t <= |s'.chans[g - 1].log| ensures LogOk(s', g, t) {
        assert LogOk(s, g, t);
        var r := s.chans[g - 1].log[t - 1];
        assert r != x ==> s'.core.regs[r] == s.core.regs[r];
      }
    }
  }

  // ---- one message moves on ----------------------------------------------------

  /** A message's state may only move forward. */
  predicate Evolves(cfg: Config, e: Entry, e': Entry) {
    && e'.call == e.call && e'.id == e.id && e'.mandatory == e.mandatory
    && e'.key == e.key && e'.gen == e.gen && e'.tag == e.tag
    && e'.inFlight == e.inFlight && e'.retryCount == e.retryCount
    && (e'.claim == e.claim || (e.claim.Unclaimed? && e'.claim.Settled?))
    && (e'.work == e.work || (e.work.NoWork? && (e'.work.Cleanup? || (e'.work.RetryQueued? && ShouldRetry(cfg, e)))))
    && (e.confirmed ==> e'.confirmed)
    && (e.orphanDeferred ==> e'.orphanDeferred) && (e.timeoutDeferred ==> e'.timeoutDeferred)
  }

  /** Channels may differ only in what the readers have read; answers only to r's own tag. */
  predicate OnlyReads(ch: Channel, ch': Channel, r: RegId) {
    ch' == ch.(answersRead := ch'.answersRead, bouncedRead := ch'.bouncedRead)
    && ch.answersRead <= ch'.answersRead
    && (forall t | t in ch'.answersRead && t !in ch.answersRead :: 1 <= t <= |ch.log| && ch.log[t - 1] == r)
    && (forall t | t in ch'.answersRead :: t in ch.answers)
  }

  /** s' is s with message r rewritten to e', and with more frames read. */
  ghost predicate OneChanged(cfg: Config, s: State, s': State, r: RegId, e': Entry) {
    && IsReg(s, r)
    && s' == s.(core := Update(s.core, r, e'), chans := s'.chans)
    && |s'.chans| == |s.chans|
    && (forall g {:trigger s'.chans[g]} | 0 <= g < |s.chans| :: OnlyReads(s.chans[g], s'.chans[g], r))
    && Evolves(cfg, s.core.regs[r], e')
  }

  lemma ChannelKept(cfg: Config, s: State, s': State, r: RegId, e': Entry, g: nat)
    requires OneChanged(cfg, s, s', r, e') && ChannelOk(s, g)
    ensures ChannelOk(s', g)
  {
    assert OnlyReads(s.chans[g - 1], s'.chans[g - 1], r);
    forall t | 1 <= t <= |s'.chans[g - 1].log| ensures LogOk(s', g, t) {
      assert LogOk(s, g, t);
    }
  }

  lemma HolderKept(cfg: Config, s: State, s': State, r: RegId, e': Entry)
    requires OneChanged(cfg, s, s', r, e') && HolderOk(s)
    ensures HolderOk(s')
  {
    if HolderReg(s.holder) >= 0 {
      var g := s.core.regs[HolderReg(s.holder)].gen;
      assert OnlyReads(s.chans[g - 1], s'.chans[g - 1], r);
    }
  }

  lemma ChannelsKept(cfg: Config, s: State, s': State, r: RegId, e': Entry)
    requires ChannelsOk(s) && RefreshOk(s) && OneChanged(cfg, s, s', r, e')
    ensures ChannelsOk(s') && RefreshOk(s')
  {
    forall g | IsGen(s', g) ensures ChannelOk(s', g) {
      assert ChannelOk(s, g);
      ChannelKept(cfg, s, s', r, e', g);
    }
    forall g | 1 <= g < s'.core.current && s'.chans[g - 1].open ensures g in s'.toClose {
      assert OnlyReads(s.chans[g - 1], s'.chans[g - 1], r);
    }
  }

  lemma IndexStatsKept(cfg: Config, s: State, s': State, r: RegId, e': Entry)
    requires IndexOk(s) && StatsOk(s) && OneChanged(cfg, s, s', r, e')
    ensures IndexOk(s') && StatsOk(s')
  {
    CountUpdate(s.core.regs, r, e');
  }

  lemma CallsKept(cfg: Config, s: State, s': State, r: RegId, e': Entry)
    requires CallsOk(cfg, s) && OneChanged(cfg, s, s', r, e') && Around(s, s', r) && Advances(s, s', r)
    ensures CallsOk(cfg, s')
  {
    forall c | IsCall(s', c) ensures CallOk(cfg, s', c) {
      assert CallOk(cfg, s, c);
      AroundCall(cfg, s, s', r, c);
    }
  }

  lemma SweepsKept(cfg: Config, s: State, s': State, r: RegId, e': Entry)
    requires SweepsOk(cfg, s) && OneChanged(cfg, s, s', r, e') && Around(s, s', r) && Advances(s, s', r)
    ensures SweepsOk(cfg, s')
  {
    forall g | 0 <= g < |s.chans| ensures s'.chans[g].sweep == s.chans[g].sweep {
      assert OnlyReads(s.chans[g], s'.chans[g], r);
    }
    StillCovered(cfg, s, s', r);
    AroundSweeps(cfg, s, s', r);
  }

  lemma EvolvedEntry(cfg: Config, s: State, s': State, r: RegId, e': Entry)
    requires EntriesOk(cfg, s) && OneChanged(cfg, s, s', r, e')
    requires FlowOk(cfg, e', FactsOf(s', r))
    ensures EntryOk(cfg, s', r)
  {
    assert EntryOk(cfg, s, r) && s'.core.regs[r] == e';
  }

  lemma EvolvePreserves(cfg: Config, s: State, s': State, r: RegId, e': Entry)
    requires Inv(cfg, s) && OneChanged(cfg, s, s', r, e')
    requires FlowOk(cfg, e', FactsOf(s', r))
    ensures Inv(cfg, s')
  {
    EvolvedEntry(cfg, s, s', r, e');
    AroundEntries(cfg, s, s', r);
    CallsKept(cfg, s, s', r, e');
    AroundSignals(s, s', r);
    ChannelsKept(cfg, s, s', r, e');
    SweepsKept(cfg, s, s', r, e');
    IndexStatsKept(cfg, s, s', r, e');
    HolderKept(cfg, s, s', r, e');
  }

  lemma RewriteFacts(cfg: Config, s: State, r: RegId, e': Entry)
    requires ChannelsOk(s) && IsReg(s, r) && Evolves(cfg, s.core.regs[r], e')
    ensures var s' := s.(core := Update(s.core, r, e')); FactsOf(s', r) == FactsOf(s, r) && OneChanged(cfg, s, s', r, e')
  {
    var s' := s.(core := Update(s.core, r, e'));
    assert s'.core.regs[r] == e';
    assert Accepted(s', r) <==> Accepted(s, r);
    assert Filed(s', r) <==> Filed(s, r);
    forall g | 0 <= g < |s.chans| ensures OnlyReads(s.chans[g], s'.chans[g], r) {
      assert ChannelOk(s, g + 1);
    }
  }

  /** The common case: nothing but the message itself is touched. */
  lemma RewritePreserves(cfg: Config, s: State, r: RegId, e': Entry)
    requires Inv(cfg, s) && IsReg(s, r) && Evolves(cfg, s.core.regs[r], e')
    requires FlowOk(cfg, e', FactsOf(s, r))
    ensures Inv(cfg, s.(core := Update(s.core, r, e')))
  {
    RewriteFacts(cfg, s, r, e');
    EvolvePreserves(cfg, s, s.(core := Update(s.core, r, e')), r, e');
  }
}
