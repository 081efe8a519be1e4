/**
 The handlers keep the invariant: confirm and return readers, timers, and the sweep's
 settlement of one orphan. What a handler does to the message it finds is checked on
 that message alone; which message it finds is checked on the indexes.
 */
module PreserveHandlers {
  import opened DeliveryKeys
  import opened PendingMap
  import opened DeliveryCore
  import opened DeliverySystem
  import opened DeliveryInvariant
  import opened DeliveryPreservation

  // ---- what a handler does to a message ------------------------------------------

  lemma TimeOutFlow(cfg: Config, e: Entry, f: Facts, ran: bool)
    requires FlowOk(cfg, e, f) && f.filed && (ran || e.delivery.Spent? || f.misfired)
    ensures var e' := TimeOut(cfg, if ran then e.(delivery := Spent) else e);
            Evolves(cfg, e, e') && FlowOk(cfg, e', f)
  {
  }

  lemma GraceFlow(cfg: Config, e: Entry, f: Facts)
    requires FlowOk(cfg, e, f) && f.filed && !e.grace.NoTimer?
    ensures var e' := GraceExpired(cfg, e.(grace := Spent));
            Evolves(cfg, e, e') && FlowOk(cfg, e', f)
  {
  }

  /** An ack decides a plain message. */
  lemma PlainAckFlow(cfg: Config, e: Entry, f: Facts)
    requires FlowOk(cfg, e, f) && f.filed && f.accepted && !f.acked && !f.refused && !f.dead
    requires e.claim.Unclaimed? && !e.mandatory
    ensures var e' := TryFinalize(cfg, e.(confirmed := true));
            Evolves(cfg, e, e') && FlowOk(cfg, e', f.(acked := true))
  {
  }

  /** An ack starts the grace period of a mandatory one. */
  lemma MandatoryAckFlow(cfg: Config, e: Entry, f: Facts)
    requires FlowOk(cfg, e, f) && f.filed && f.accepted && !f.acked && !f.refused && !f.dead
    requires e.claim.Unclaimed? && e.mandatory
    ensures var e' := TryFinalize(cfg, e.(confirmed := true));
            Evolves(cfg, e, e') && FlowOk(cfg, e', f.(acked := true))
  {
  }

  lemma AckedFlow(cfg: Config, e: Entry, f: Facts)
    requires FlowOk(cfg, e, f) && f.filed && f.accepted && !f.acked && !f.refused && !f.dead
    ensures var e' := TryFinalize(cfg, e.(confirmed := true));
            Evolves(cfg, e, e') && FlowOk(cfg, e', f.(acked := true))
  {
    if e.Claimed() {
      assert TryFinalize(cfg, e.(confirmed := true)) == e.(confirmed := true);
    } else if e.mandatory {
      MandatoryAckFlow(cfg, e, f);
    } else {
      PlainAckFlow(cfg, e, f);
    }
  }

  /** What a refusal makes of an undecided message. */
  function Refused(cfg: Config, e: Entry): Entry {
    e.(nacked := true, claim := Settled(Nacked), work := if ShouldRetry(cfg, e) then RetryQueued else Cleanup,
       delivery := if e.grace.NoTimer? then e.delivery.Stop() else e.delivery, grace := e.grace.Stop())
  }

  lemma RefusedFlow(cfg: Config, e: Entry, f: Facts)
    requires FlowOk(cfg, e, f) && f.filed && f.accepted && !f.acked && !f.refused && e.claim.Unclaimed?
    ensures FlowOk(cfg, Refused(cfg, e), f.(refused := true))
  {
  }

  lemma RefusalFinalizes(cfg: Config, e: Entry)
    requires e.claim.Unclaimed? && e.work.NoWork?
    ensures TryFinalize(cfg, e.(nacked := true)) == Refused(cfg, e)
    ensures Evolves(cfg, e, Refused(cfg, e))
  {
  }

  lemma NackedFlow(cfg: Config, e: Entry, f: Facts)
    requires FlowOk(cfg, e, f) && f.filed && f.accepted && !f.acked && !f.refused && !f.dead
    ensures var e' := TryFinalize(cfg, e.(nacked := true));
            Evolves(cfg, e, e') && FlowOk(cfg, e', f.(refused := true))
  {
    if e.claim.Unclaimed? {
      RefusalFinalizes(cfg, e);
      RefusedFlow(cfg, e, f);
    } else {
      assert TryFinalize(cfg, e.(nacked := true)) == e.(nacked := true);
    }
  }

  /** The answer comes too late for the message to be found. */
  lemma LateFlow(cfg: Config, e: Entry, f: Facts, ack: bool)
    requires FlowOk(cfg, e, f) && !f.filed && f.accepted && !f.acked && !f.refused && !f.dead
    ensures Evolves(cfg, e, e) && FlowOk(cfg, e, f.(acked := ack, refused := !ack))
  {
  }

  /** A confirm is read for the first time: nothing was known about it before. */
  lemma ConfirmFlow(cfg: Config, e: Entry, f: Facts, ack: bool)
    requires FlowOk(cfg, e, f) && f.accepted && !f.acked && !f.refused && !f.dead
    ensures var e' := AfterConfirm(cfg, e, f.filed, ack);
            Evolves(cfg, e, e') && FlowOk(cfg, e', f.(acked := ack, refused := !ack))
  {
    if !f.filed {
      LateFlow(cfg, e, f, ack);
    } else if ack {
      AckedFlow(cfg, e, f);
      assert f.(acked := true) == f.(acked := ack, refused := !ack);
    } else {
      NackedFlow(cfg, e, f);
      assert f.(refused := true) == f.(acked := ack, refused := !ack);
    }
  }

  lemma ReturnFlow(cfg: Config, e: Entry, f: Facts)
    requires FlowOk(cfg, e, f) && f.filed && f.accepted && f.bounced && e.claim.Unclaimed?
    ensures var e' := TryFinalize(cfg, e.(returned := true));
            Evolves(cfg, e, e') && FlowOk(cfg, e', f)
  {
  }

  lemma OrphanFlow(cfg: Config, e: Entry, f: Facts)
    requires FlowOk(cfg, e, f) && f.dead
    ensures var e' := Orphan(cfg, e);
            Evolves(cfg, e, e') && FlowOk(cfg, e', f)
  {
  }

  // ---- which message a key leads to ------------------------------------------------

  /** The registration a key leads to is the one with that generation and tag. */
  lemma KeyFinds(cfg: Config, s: State, g: nat, t: nat)
    requires IndexOk(s) && EntriesOk(cfg, s)
    requires g < GENERATION_SPAN && t < TAG_SPAN && DeliveryKey(g, t) in s.core.index.byKey
    ensures var r := s.core.index.byKey[DeliveryKey(g, t)];
            IsReg(s, r) && Filed(s, r) && s.core.regs[r].gen == g && s.core.regs[r].tag == t
  {
    var r := s.core.index.byKey[DeliveryKey(g, t)];
    assert EntryOk(cfg, s, r);
    KeyInjective(g, t, s.core.regs[r].gen, s.core.regs[r].tag);
  }

  /** Tags within a channel's log respect the key layout, because each names a registration. */
  lemma LogNames(cfg: Config, s: State, g: nat, t: nat)
    requires EntriesOk(cfg, s) && ChannelsOk(s)
    requires IsGen(s, g) && 1 <= t <= |s.chans[g - 1].log|
    ensures t < TAG_SPAN && g < GENERATION_SPAN && Accepted(s, s.chans[g - 1].log[t - 1])
    ensures s.core.regs[s.chans[g - 1].log[t - 1]].gen == g && s.core.regs[s.chans[g - 1].log[t - 1]].tag == t
  {
    assert ChannelOk(s, g);
    assert LogOk(s, g, t);
    assert EntryOk(cfg, s, s.chans[g - 1].log[t - 1]);
  }

  /** The message an accepted tag's key leads to is the one the broker numbered with that tag. */
  lemma AcceptedKeyFinds(cfg: Config, s: State, g: nat, t: nat)
    requires IndexOk(s) && EntriesOk(cfg, s) && ChannelsOk(s) && HolderOk(s)
    requires IsGen(s, g) && 1 <= t <= |s.chans[g - 1].log| && DeliveryKey(g, t) in s.core.index.byKey
    ensures s.core.index.byKey[DeliveryKey(g, t)] == s.chans[g - 1].log[t - 1]
  {
    LogNames(cfg, s, g, t);
    KeyFinds(cfg, s, g, t);
    assert EntryOk(cfg, s, s.core.index.byKey[DeliveryKey(g, t)]);
  }

  // ---- timers -------------------------------------------------------------------

  /** A timeout under the key of r is r's own, or that of an attempt given up. */
  predicate TimeoutIsDue(s: State, r: RegId) {
    IsReg(s, r) && (s.core.regs[r].delivery.Spent? || s.core.regs[r].key in s.misfires)
  }

  lemma TimeOutPreserves(cfg: Config, s: State, r: RegId, ran: bool)
    requires Inv(cfg, s) && Filed(s, r) && (ran || TimeoutIsDue(s, r))
    ensures var e := if ran then s.core.regs[r].(delivery := Spent) else s.core.regs[r];
            Inv(cfg, s.(core := Update(s.core, r, TimeOut(cfg, e))))
  {
    assert EntryOk(cfg, s, r);
    TimeOutFlow(cfg, s.core.regs[r], FactsOf(s, r), ran);
    RewritePreserves(cfg, s, r, TimeOut(cfg, if ran then s.core.regs[r].(delivery := Spent) else s.core.regs[r]));
  }

  lemma StrayTimeoutPreserves(cfg: Config, s: State, key: nat)
    requires Inv(cfg, s) && IndexInRange(s.core)
    requires key in s.core.index.byKey ==> TimeoutIsDue(s, s.core.index.byKey[key])
    ensures Inv(cfg, s.(core := HandleTimeout(cfg, s.core, key)))
  {
    if key in s.core.index.byKey {
      TimeOutPreserves(cfg, s, s.core.index.byKey[key], false);
    } else {
      assert s.(core := s.core) == s;
    }
  }

  lemma FireFlow(cfg: Config, e: Entry, f: Facts, grace: bool)
    requires FlowOk(cfg, e, f) && if grace then e.grace.Armed? else e.delivery.Armed?
    ensures var e' := if grace then e.(grace := Fired) else e.(delivery := Fired);
            Evolves(cfg, e, e') && FlowOk(cfg, e', f)
  {
  }

  lemma FireTimerPreserves(cfg: Config, s: State, r: RegId, grace: bool)
    requires Inv(cfg, s) && IsReg(s, r)
    requires if grace then s.core.regs[r].grace.Armed? else s.core.regs[r].delivery.Armed?
    ensures var e := s.core.regs[r];
            Inv(cfg, s.(core := Update(s.core, r, if grace then e.(grace := Fired) else e.(delivery := Fired))))
  {
    var e := s.core.regs[r];
    assert EntryOk(cfg, s, r);
    FireFlow(cfg, e, FactsOf(s, r), grace);
    RewritePreserves(cfg, s, r, if grace then e.(grace := Fired) else e.(delivery := Fired));
  }

  /** e' differs from e in its timers; one that has run has run, and none is armed again. */
  predicate TimersSpent(e: Entry, e': Entry) {
    && e' == e.(delivery := e'.delivery, grace := e'.grace) && (e'.grace.NoTimer? <==> e.grace.NoTimer?)
    && (e.delivery.Spent? ==> e'.delivery.Spent?) && (e.grace.Spent? ==> e'.grace.Spent?)
    && (e'.delivery.Armed? ==> e.delivery.Armed?) && (e'.grace.Armed? ==> e.grace.Armed?)
  }

  lemma SpentFlow(cfg: Config, e: Entry, e': Entry, f: Facts)
    requires FlowOk(cfg, e, f) && TimersSpent(e, e') && (e.Claimed() || f.closed)
    ensures FlowOk(cfg, e', f) && Evolves(cfg, e, e')
  {
  }

  /** Once a message is claimed, or the publisher closed, its timers may fire and run. */
  lemma SpendTimerPreserves(cfg: Config, s: State, r: RegId, e': Entry)
    requires Inv(cfg, s) && IsReg(s, r) && TimersSpent(s.core.regs[r], e')
    requires s.core.regs[r].Claimed() || s.core.closed
    ensures Inv(cfg, s.(core := Update(s.core, r, e')))
  {
    assert EntryOk(cfg, s, r);
    SpentFlow(cfg, s.core.regs[r], e', FactsOf(s, r));
    RewritePreserves(cfg, s, r, e');
  }

  lemma UpdateTwice(c: Core, r: RegId, e: Entry, e': Entry)
    requires r < |c.regs| && e.claim == c.regs[r].claim
    ensures Update(Update(c, r, e), r, e') == Update(c, r, e')
  {
    assert c.regs[r := e][r := e'] == c.regs[r := e'];
  }

  /** A key that leads to another message than its own is that of a failed send. */
  lemma OthersKeyFailed(cfg: Config, s: State, r: RegId)
    requires Inv(cfg, s) && IsReg(s, r) && !Filed(s, r) && s.core.regs[r].key in s.core.index.byKey
    ensures s.core.regs[r].claim.SendFailed?
  {
    assert EntryOk(cfg, s, r);
    if s.core.regs[r].claim.Settled? { AcceptedKeyFinds(cfg, s, s.core.regs[r].gen, s.core.regs[r].tag); }
  }

  /** A timer that runs although its attempt has been given up touches no message by that alone. */
  lemma MisfirePreserves(cfg: Config, s: State, key: nat, strays: multiset<nat>)
    requires Inv(cfg, s)
    ensures Inv(cfg, s.(strays := strays, misfires := s.misfires + {key}))
  {
    var s' := s.(strays := strays, misfires := s.misfires + {key});
    AroundEntries(cfg, s, s', -1);
    forall c: nat | IsCall(s', c) ensures CallOk(cfg, s', c) {
      assert CallOk(cfg, s, c);
      AroundCall(cfg, s, s', -1, c);
    }
    AroundSignals(s, s', -1);
    AroundSweeps(cfg, s, s', -1);
    AroundChannels(s, s', -1);
  }

  lemma OwnTimeoutPreserves(cfg: Config, s: State, r: RegId)
    requires Inv(cfg, s) && WellFormed(s) && IsReg(s, r)
    requires s.core.regs[r].claim.SendFailed? ==> s.core.regs[r].key in s.misfires
    ensures Inv(cfg, s.(core := HandleTimeout(cfg, Update(s.core, r, s.core.regs[r].(delivery := Spent)), s.core.regs[r].key)))
  {
    var e := s.core.regs[r].(delivery := Spent);
    assert EntryOk(cfg, s, r);
    if Filed(s, r) {
      assert s.core.index.byKey[e.key] == r;
      TimeOutPreserves(cfg, s, r, true);
      UpdateTwice(s.core, r, e, TimeOut(cfg, e));
    } else {
      SpendTimerPreserves(cfg, s, r, e);
      var s1 := s.(core := Update(s.core, r, e));
      if e.key in s.core.index.byKey {
        OthersKeyFailed(cfg, s, r);
        assert EntryOk(cfg, s1, s1.core.index.byKey[e.key]);
      }
      StrayTimeoutPreserves(cfg, s1, e.key);
    }
  }

  lemma RunDeliveryPreserves(cfg: Config, s: State, r: RegId)
    requires Inv(cfg, s) && WellFormed(s) && TimerEnabled(s, RunDelivery(r))
    ensures Inv(cfg, TimerStep(cfg, s, RunDelivery(r)))
  {
    if s.core.regs[r].claim.SendFailed? {
      MisfirePreserves(cfg, s, s.core.regs[r].key, s.strays);
      OwnTimeoutPreserves(cfg, s.(misfires := s.misfires + {s.core.regs[r].key}), r);
    } else {
      OwnTimeoutPreserves(cfg, s, r);
    }
  }

  /** A grace timer's key leads back to its own message or to nothing. */
  lemma GraceKeyIsOwn(cfg: Config, s: State, r: RegId)
    requires IndexOk(s) && EntriesOk(cfg, s) && ChannelsOk(s) && HolderOk(s)
    requires IsReg(s, r) && !s.core.regs[r].grace.NoTimer?
    requires s.core.regs[r].key in s.core.index.byKey
    ensures Filed(s, r) && s.core.index.byKey[s.core.regs[r].key] == r
  {
    assert EntryOk(cfg, s, r);
    AcceptedKeyFinds(cfg, s, s.core.regs[r].gen, s.core.regs[r].tag);
  }

  lemma RunGracePreserves(cfg: Config, s: State, r: RegId)
    requires Inv(cfg, s) && WellFormed(s) && IsReg(s, r) && s.core.regs[r].grace.Fired?
    ensures Inv(cfg, s.(core := HandleGraceExpired(cfg, Update(s.core, r, s.core.regs[r].(grace := Spent)), s.core.regs[r].key)))
  {
    var e := s.core.regs[r].(grace := Spent);
    assert EntryOk(cfg, s, r);
    if e.key in s.core.index.byKey {
      GraceKeyIsOwn(cfg, s, r);
      GraceFlow(cfg, s.core.regs[r], FactsOf(s, r));
      RewritePreserves(cfg, s, r, GraceExpired(cfg, e));
      UpdateTwice(s.core, r, e, GraceExpired(cfg, e));
    } else {
      SpendTimerPreserves(cfg, s, r, e);
    }
  }

  lemma TimerPreserves(cfg: Config, s: State, a: TimerAction)
    requires Inv(cfg, s) && WellFormed(s) && TimerEnabled(s, a)
    ensures Inv(cfg, TimerStep(cfg, s, a))
  {
    match a
    case FireDelivery(r) => FireTimerPreserves(cfg, s, r, false);
    case FireGrace(r) => FireTimerPreserves(cfg, s, r, true);
    case RunDelivery(r) => RunDeliveryPreserves(cfg, s, r);
    case RunGrace(r) => RunGracePreserves(cfg, s, r);
    case StrayTimeout(key) =>
      MisfirePreserves(cfg, s, key, s.strays - multiset{key});
      var s1 := s.(strays := s.strays - multiset{key}, misfires := s.misfires + {key});
      if key in s1.core.index.byKey { assert EntryOk(cfg, s1, s1.core.index.byKey[key]); }
      StrayTimeoutPreserves(cfg, s1, key);
  }

  // ---- readers ------------------------------------------------------------------

  /** What is known of log[t - 1] once the answer to its tag has been read. */
  function Learnt(f: Facts, ack: bool): Facts {
    f.(acked := ack, refused := !ack)
  }

  predicate ReadsFrame(ch: Channel, ch': Channel, t: nat) {
    ch' == ch.(answersRead := ch.answersRead + {t}) && t in ch.answers
  }

  /** Reading the answer to tag t of channel g teaches something about log[t - 1] only. */
  lemma FactsAfterReading(cfg: Config, s: State, g: nat, t: nat, ch: Channel, e': Entry)
    requires EntriesOk(cfg, s) && ChannelsOk(s) && IsGen(s, g) && 1 <= t <= |s.chans[g - 1].log|
    requires IsReg(s, s.chans[g - 1].log[t - 1])
    requires ReadsFrame(s.chans[g - 1], ch, t)
    requires Evolves(cfg, s.core.regs[s.chans[g - 1].log[t - 1]], e')
    ensures var r := s.chans[g - 1].log[t - 1];
            FactsOf(s.(core := Update(s.core, r, e'), chans := SetChan(s, g, ch)), r) == Learnt(FactsOf(s, r), ch.answers[t])
  {
    var r := s.chans[g - 1].log[t - 1];
    var s' := s.(core := Update(s.core, r, e'), chans := SetChan(s, g, ch));
    LogNames(cfg, s, g, t);
    assert s'.core.regs[r] == e';
    assert Accepted(s', r);
    assert Filed(s', r) <==> Filed(s, r);
  }

  /** A message updated while the answer to its own tag is read. */
  lemma ReadPreserves(cfg: Config, s: State, g: nat, t: nat, ch: Channel, e': Entry)
    requires Inv(cfg, s) && IsGen(s, g) && 1 <= t <= |s.chans[g - 1].log| && IsReg(s, s.chans[g - 1].log[t - 1])
    requires ReadsFrame(s.chans[g - 1], ch, t)
    requires Evolves(cfg, s.core.regs[s.chans[g - 1].log[t - 1]], e')
    requires FlowOk(cfg, e', Learnt(FactsOf(s, s.chans[g - 1].log[t - 1]), ch.answers[t]))
    ensures var r := s.chans[g - 1].log[t - 1];
            Inv(cfg, s.(core := Update(s.core, r, e'), chans := SetChan(s, g, ch)))
  {
    var r := s.chans[g - 1].log[t - 1];
    var s' := s.(core := Update(s.core, r, e'), chans := SetChan(s, g, ch));
    FactsAfterReading(cfg, s, g, t, ch, e');
    forall h | 0 <= h < |s.chans| ensures OnlyReads(s.chans[h], s'.chans[h], r) {
      assert ChannelOk(s, h + 1);
    }
    EvolvePreserves(cfg, s, s', r, e');
  }

  function AfterConfirm(cfg: Config, e: Entry, filed: bool, ack: bool): Entry {
    if !filed then e else TryFinalize(cfg, if ack then e.(confirmed := true) else e.(nacked := true))
  }

  /** ReadConfirm moves exactly the message the broker numbered with this tag, if it is still pending. */
  lemma ConfirmStep(cfg: Config, s: State, g: nat, t: nat)
    requires IndexInRange(s.core) && IndexOk(s) && EntriesOk(cfg, s) && ChannelsOk(s) && HolderOk(s)
    requires IsGen(s, g) && 1 <= t <= |s.chans[g - 1].log| && t in s.chans[g - 1].answers
    ensures IsReg(s, s.chans[g - 1].log[t - 1])
    ensures var r := s.chans[g - 1].log[t - 1];
            var ch := s.chans[g - 1].(answersRead := s.chans[g - 1].answersRead + {t});
            DoReadConfirm(cfg, s, g, t)
            == s.(core := Update(s.core, r, AfterConfirm(cfg, s.core.regs[r], Filed(s, r), s.chans[g - 1].answers[t])),
                  chans := SetChan(s, g, ch))
  {
    var r := s.chans[g - 1].log[t - 1];
    LogNames(cfg, s, g, t);
    assert EntryOk(cfg, s, r);
    if DeliveryKey(g, t) in s.core.index.byKey {
      AcceptedKeyFinds(cfg, s, g, t);
    } else {
      assert s.core == Update(s.core, r, s.core.regs[r]);
    }
  }

  lemma ReadConfirmPreserves(cfg: Config, s: State, g: nat, t: nat)
    requires Inv(cfg, s) && IndexInRange(s.core) && IsGen(s, g) && s.chans[g - 1].sweep.NotStarted?
    requires t in s.chans[g - 1].answers && t !in s.chans[g - 1].answersRead
    ensures Inv(cfg, DoReadConfirm(cfg, s, g, t))
  {
    assert ChannelOk(s, g);
    LogNames(cfg, s, g, t);
    ConfirmStep(cfg, s, g, t);
    var r, ack := s.chans[g - 1].log[t - 1], s.chans[g - 1].answers[t];
    assert EntryOk(cfg, s, r);
    ConfirmFlow(cfg, s.core.regs[r], FactsOf(s, r), ack);
    ReadPreserves(cfg, s, g, t, s.chans[g - 1].(answersRead := s.chans[g - 1].answersRead + {t}),
                  AfterConfirm(cfg, s.core.regs[r], Filed(s, r), ack));
  }

  lemma BounceFacts(s: State, g: nat, t: nat, r: RegId, e': Entry, ch: Channel)
    requires IsGen(s, g) && IsReg(s, r) && e'.id == s.core.regs[r].id && e'.key == s.core.regs[r].key && e'.gen == s.core.regs[r].gen && e'.tag == s.core.regs[r].tag
    requires ch == s.chans[g - 1].(bouncedRead := ch.bouncedRead)
    ensures FactsOf(s.(core := Update(s.core, r, e'), chans := SetChan(s, g, ch)), r) == FactsOf(s, r)
  {
    var s' := s.(core := Update(s.core, r, e'), chans := SetChan(s, g, ch));
    assert s'.core.regs[r] == e';
    assert Accepted(s', r) <==> Accepted(s, r);
    assert Filed(s', r) <==> Filed(s, r);
  }

  /** Some message is rewritten while a return frame of channel g is read. */
  lemma BouncePreserves(cfg: Config, s: State, g: nat, t: nat, r: RegId, e': Entry)
    requires Inv(cfg, s) && IsGen(s, g) && IsReg(s, r)
    requires Evolves(cfg, s.core.regs[r], e') && FlowOk(cfg, e', FactsOf(s, r))
    ensures var ch := s.chans[g - 1].(bouncedRead := s.chans[g - 1].bouncedRead + {t});
            Inv(cfg, s.(core := Update(s.core, r, e'), chans := SetChan(s, g, ch)))
  {
    var ch := s.chans[g - 1].(bouncedRead := s.chans[g - 1].bouncedRead + {t});
    var s' := s.(core := Update(s.core, r, e'), chans := SetChan(s, g, ch));
    forall h | 0 <= h < |s.chans| ensures OnlyReads(s.chans[h], s'.chans[h], r) {
      assert ChannelOk(s, h + 1);
    }
    BounceFacts(s, g, t, r, e', ch);
    EvolvePreserves(cfg, s, s', r, e');
  }

  /** A registration that a call's caller was, or will be, told about by callback only. */
  ghost predicate LiveReg(s: State, c: nat, r: RegId) {
    IsReg(s, r) && s.core.regs[r].call == c && !s.core.regs[r].claim.SendFailed?
  }

  /** A call has at most one registration whose send did not fail. */
  lemma OneLiveReg(cfg: Config, s: State, c: nat, r: RegId, r': RegId)
    requires Inv(cfg, s) && LiveReg(s, c, r) && LiveReg(s, c, r')
    ensures r == r'
  {
    assert EntryOk(cfg, s, r) && EntryOk(cfg, s, r');
    assert CallOk(cfg, s, c);
  }

  /**
   Unless two calls share the message ID, matching by it finds the message the broker
   returned, or none that is undecided.
   */
  lemma UnsharedIsMeant(cfg: Config, s: State, g: nat, t: nat)
    requires Inv(cfg, s) && WellFormed(s) && IsGen(s, g) && t in s.chans[g - 1].bounced && t <= |s.chans[g - 1].log|
    ensures 1 <= t && IsReg(s, s.chans[g - 1].log[t - 1])
    ensures var id := s.core.regs[s.chans[g - 1].log[t - 1]].id; !IdIsShared(s, id) ==> ReturnIsMeant(s, id)
  {
    assert ChannelOk(s, g);
    LogNames(cfg, s, g, t);
    var r := s.chans[g - 1].log[t - 1];
    var id := s.core.regs[r].id;
    assert EntryOk(cfg, s, r);
    if !IdIsShared(s, id) && id in s.core.index.byId && s.core.regs[s.core.index.byId[id]].claim.Unclaimed? {
      var r' := s.core.index.byId[id];
      assert EntryOk(cfg, s, r');
      assert s.core.regs[r'].call == s.core.regs[r].call;
      OneLiveReg(cfg, s, s.core.regs[r].call, r, r');
    }
  }

  /** The message a return frame's ID leads to, and what handleReturn makes of it. */
  lemma ReturnStep(cfg: Config, s: State, g: nat, t: nat)
    requires WellFormed(s) && IsGen(s, g) && 1 <= t <= |s.chans[g - 1].log| && IsReg(s, s.chans[g - 1].log[t - 1])
    ensures var id := s.core.regs[s.chans[g - 1].log[t - 1]].id;
            var r := if id in s.core.index.byId then s.core.index.byId[id] else s.chans[g - 1].log[t - 1];
            var e := s.core.regs[r];
            var ch := s.chans[g - 1].(bouncedRead := s.chans[g - 1].bouncedRead + {t});
            DoReadReturn(cfg, s, g, t) ==
            s.(core := Update(s.core, r, if id in s.core.index.byId && e.claim.Unclaimed? then TryFinalize(cfg, e.(returned := true)) else e),
               chans := SetChan(s, g, ch))
  {
    var id := s.core.regs[s.chans[g - 1].log[t - 1]].id;
    var r := if id in s.core.index.byId then s.core.index.byId[id] else s.chans[g - 1].log[t - 1];
    assert s.core == Update(s.core, r, s.core.regs[r]);
  }

  lemma FoundPreserves(cfg: Config, s: State, g: nat, t: nat, r: RegId)
    requires Inv(cfg, s) && IsGen(s, g) && IsReg(s, r) && Filed(s, r) && s.core.regs[r].claim.Unclaimed? && WasReturned(s, r)
    ensures var ch := s.chans[g - 1].(bouncedRead := s.chans[g - 1].bouncedRead + {t});
            Inv(cfg, s.(core := Update(s.core, r, TryFinalize(cfg, s.core.regs[r].(returned := true))), chans := SetChan(s, g, ch)))
  {
    assert EntryOk(cfg, s, r);
    ReturnFlow(cfg, s.core.regs[r], FactsOf(s, r));
    BouncePreserves(cfg, s, g, t, r, TryFinalize(cfg, s.core.regs[r].(returned := true)));
  }

  lemma NotFoundPreserves(cfg: Config, s: State, g: nat, t: nat, r: RegId)
    requires Inv(cfg, s) && IsGen(s, g) && IsReg(s, r)
    ensures var ch := s.chans[g - 1].(bouncedRead := s.chans[g - 1].bouncedRead + {t});
            Inv(cfg, s.(core := Update(s.core, r, s.core.regs[r]), chans := SetChan(s, g, ch)))
  {
    assert EntryOk(cfg, s, r);
    BouncePreserves(cfg, s, g, t, r, s.core.regs[r]);
  }

  lemma ReadReturnPreserves(cfg: Config, s: State, g: nat, t: nat)
    requires Inv(cfg, s) && WellFormed(s) && IsGen(s, g)
    requires 1 <= t <= |s.chans[g - 1].log| && IsReg(s, s.chans[g - 1].log[t - 1])
    requires ReturnIsMeant(s, s.core.regs[s.chans[g - 1].log[t - 1]].id)
    ensures Inv(cfg, DoReadReturn(cfg, s, g, t))
  {
    ReturnStep(cfg, s, g, t);
    var id := s.core.regs[s.chans[g - 1].log[t - 1]].id;
    var r := if id in s.core.index.byId then s.core.index.byId[id] else s.chans[g - 1].log[t - 1];
    if id in s.core.index.byId && s.core.regs[r].claim.Unclaimed? {
      assert Filed(s, r);
      FoundPreserves(cfg, s, g, t, r);
    } else {
      NotFoundPreserves(cfg, s, g, t, r);
    }
  }

  // ---- settling one orphan ----------------------------------------------------------

  lemma SettleOrphanPreserves(cfg: Config, s: State, r: RegId)
    requires Inv(cfg, s) && IsReg(s, r) && FactsOf(s, r).dead
    ensures Inv(cfg, s.(core := SettleOrphan(cfg, s.core, r)))
    ensures Swept(s.(core := SettleOrphan(cfg, s.core, r)), r)
  {
    assert EntryOk(cfg, s, r);
    OrphanFlow(cfg, s.core.regs[r], FactsOf(s, r));
    RewritePreserves(cfg, s, r, Orphan(cfg, s.core.regs[r]));
  }
}
