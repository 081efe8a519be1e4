/**
 The publisher's own objects, updated in place: pending messages, statistics, confirm
 channel generations and the sharded pending map. Each method is one of publisher.go's
 critical sections or a whole call made of them, and is proved to do to the objects
 exactly what DeliveryCore says it does to their value.
 */
module Publisher {
  import opened DeliveryKeys
  import opened PendingMap
  import opened DeliveryCore
  import opened DeliverySystem
  import opened DeliveryInvariant
  import opened DeliveryPreservation

  /** One publish attempt's mutable record. */
  class PendingMessage {
    const call: nat
    const messageId: MessageId
    const mandatory: bool
    const key: nat
    const generation: nat
    const brokerTag: nat
    var inFlight: bool
    var orphanDeferred: bool
    var timeoutDeferred: bool
    var confirmed: bool
    var nacked: bool
    var returned: bool
    var claim: Claim
    var retryCount: nat
    var deliveryTimer: Timer
    var graceTimer: Timer
    var work: Work

    constructor (call: nat, messageId: MessageId, mandatory: bool, generation: nat, tag: nat, retryCount: nat)
      ensures View() == NewEntry(call, messageId, mandatory, generation, tag, retryCount)
    {
      this.call, this.messageId, this.mandatory := call, messageId, mandatory;
      this.key, this.generation, this.brokerTag := DeliveryKey(generation, tag), generation, tag;
      this.inFlight, this.orphanDeferred, this.timeoutDeferred := true, false, false;
      this.confirmed, this.nacked, this.returned := false, false, false;
      this.claim, this.retryCount, this.work := Unclaimed, retryCount, NoWork;
      this.deliveryTimer, this.graceTimer := Armed, NoTimer;
    }

    function View(): Entry
      reads this
    {
      Entry(call, messageId, mandatory, key, generation, brokerTag, inFlight, orphanDeferred, timeoutDeferred,
            confirmed, nacked, returned, claim, retryCount, deliveryTimer, graceTimer, work)
    }

    method StopTimer()
      modifies this
      ensures View() == old(View()).StopTimer()
    {
      if graceTimer.NoTimer? {
        deliveryTimer := deliveryTimer.Stop();
      } else {
        graceTimer := graceTimer.Stop();
      }
    }
  }

  /** Nobody has left anything to the sender of this message. */
  predicate IsNew(m: PendingMessage)
    reads m
  {
    !m.orphanDeferred && !m.timeoutDeferred
  }

  /** The send has returned: read the deferral flags and, if it failed, claim the message for the caller. */
  method SendIsBack(m: PendingMessage, ok: bool) returns (orphan: bool, timeout: bool)
    modifies m
    ensures var e := old(m.View()).(inFlight := false); m.View() == if ok then e else e.(claim := SendFailed)
    ensures orphan == old(m.orphanDeferred) && timeout == DeferredTimeout(old(m.View()))
  {
    m.inFlight := false;
    orphan := m.orphanDeferred;
    timeout := m.timeoutDeferred && !m.confirmed && !m.nacked && !m.returned;
    if !ok {
      m.claim := SendFailed;
    }
  }

  class DeliveryStats {
    var published: int
    var confirmed: int
    var returned: int
    var nacked: int
    var timedOut: int
    var orphaned: int

    constructor ()
      ensures View() == Stats(0, 0, 0, 0, 0, 0)
    {
      published, confirmed, returned, nacked, timedOut, orphaned := 0, 0, 0, 0, 0, 0;
    }

    function View(): Stats
      reads this
    {
      Stats(published, confirmed, returned, nacked, timedOut, orphaned)
    }

    method Count(v: Verdict)
      modifies this
      ensures View() == old(View()).Add(v)
    {
      match v
      case Confirmed => confirmed := confirmed + 1;
      case Returned => returned := returned + 1;
      case Nacked => nacked := nacked + 1;
      case TimedOut => timedOut := timedOut + 1;
      case Orphaned => orphaned := orphaned + 1;
    }
  }

  class ConfirmGeneration {
    var published: nat
    var dead: bool

    constructor ()
      ensures View() == Generation(0, false)
    {
      published, dead := 0, false;
    }

    function View(): Generation
      reads this
    {
      Generation(published, dead)
    }
  }

  /** Claiming an outcome books it, once. */
  function Booked(stats: Stats, e: Entry, e': Entry): Stats {
    if e.claim.Unclaimed? && e'.claim.Settled? then stats.Add(e'.claim.verdict) else stats
  }

  // ---- sections under one message's lock ----------------------------------------------------

  /** Mark the outcome, book it, and start the goroutine that finishes the message. */
  method ClaimFor(cfg: Config, m: PendingMessage, stats: DeliveryStats, v: Verdict)
    requires m.claim.Unclaimed?
    modifies m, stats
    ensures m.View() == Settle(cfg, old(m.View()), v)
    ensures stats.View() == old(stats.View()).Add(v)
  {
    m.claim := Settled(v);
    stats.Count(v);
    if v == Nacked && cfg.autoRetries && m.retryCount < cfg.maxRetryAttempts {
      m.work := RetryQueued;
    } else {
      m.work := Cleanup;
    }
  }

  /** Claim the message and stop whichever timer it has. */
  method Finalize(cfg: Config, m: PendingMessage, stats: DeliveryStats, v: Verdict)
    requires m.claim.Unclaimed?
    modifies m, stats
    ensures m.View() == Settle(cfg, old(m.View()), v).StopTimer()
    ensures stats.View() == old(stats.View()).Add(v)
  {
    ClaimFor(cfg, m, stats, v);
    m.StopTimer();
  }

  method StartGrace(m: PendingMessage)
    modifies m
    ensures m.View() == old(m.View()).StopTimer().(grace := Armed)
  {
    m.StopTimer();
    m.graceTimer := Armed;
  }

  method TryFinalizeMessage(cfg: Config, m: PendingMessage, stats: DeliveryStats)
    modifies m, stats
    ensures m.View() == TryFinalize(cfg, old(m.View()))
    ensures stats.View() == Booked(old(stats.View()), old(m.View()), m.View())
  {
    if !m.claim.Unclaimed? {
      return;
    }
    if m.nacked {
      Finalize(cfg, m, stats, Nacked);
    } else if m.returned {
      Finalize(cfg, m, stats, Returned);
    } else if m.confirmed && !m.mandatory {
      Finalize(cfg, m, stats, Confirmed);
    } else if m.confirmed {
      StartGrace(m);
    }
  }

  /** Record a broker answer and finalize if that decides the message. */
  method ConfirmMessage(cfg: Config, m: PendingMessage, stats: DeliveryStats, ack: bool)
    modifies m, stats
    ensures m.View() == TryFinalize(cfg, if ack then old(m.View()).(confirmed := true) else old(m.View()).(nacked := true))
    ensures stats.View() == Booked(old(stats.View()), old(m.View()), m.View())
  {
    if ack {
      m.confirmed := true;
    } else {
      m.nacked := true;
    }
    TryFinalizeMessage(cfg, m, stats);
  }

  method ReturnMessage(cfg: Config, m: PendingMessage, stats: DeliveryStats)
    modifies m, stats
    ensures m.View() == if old(m.claim.Unclaimed?) then TryFinalize(cfg, old(m.View()).(returned := true)) else old(m.View())
    ensures stats.View() == Booked(old(stats.View()), old(m.View()), m.View())
  {
    if m.claim.Unclaimed? {
      m.returned := true;
      TryFinalizeMessage(cfg, m, stats);
    }
  }

  method TimeOutMessage(cfg: Config, m: PendingMessage, stats: DeliveryStats)
    modifies m, stats
    ensures m.View() == TimeOut(cfg, old(m.View()))
    ensures stats.View() == Booked(old(stats.View()), old(m.View()), m.View())
  {
    if !m.claim.Unclaimed? {
      return;
    }
    if m.inFlight {
      m.timeoutDeferred := true;
      return;
    }
    ClaimFor(cfg, m, stats, TimedOut);
  }

  method ExpireGrace(cfg: Config, m: PendingMessage, stats: DeliveryStats)
    modifies m, stats
    ensures m.View() == GraceExpired(cfg, old(m.View()))
    ensures stats.View() == Booked(old(stats.View()), old(m.View()), m.View())
  {
    if !m.claim.Unclaimed? || m.returned {
      return;
    }
    ClaimFor(cfg, m, stats, Confirmed);
  }

  method OrphanMessage(cfg: Config, m: PendingMessage, stats: DeliveryStats)
    modifies m, stats
    ensures m.View() == Orphan(cfg, old(m.View()))
    ensures stats.View() == Booked(old(stats.View()), old(m.View()), m.View())
  {
    if !m.claim.Unclaimed? || m.confirmed || m.nacked || m.returned {
      return;
    }
    if m.inFlight {
      m.orphanDeferred := true;
      return;
    }
    ClaimFor(cfg, m, stats, Orphaned);
    m.StopTimer();
  }

  /** Being orphaned twice is being orphaned once. */
  lemma OrphanIdempotent(cfg: Config, e: Entry)
    ensures Orphan(cfg, Orphan(cfg, e)) == Orphan(cfg, e)
  {
  }

  /** Counted outcomes plus undecided messages. */
  ghost function Account(c: Core): int {
    c.stats.Outcomes() + CountUnclaimed(c.regs)
  }

  /** Orphaning a message, decided or not, keeps the account. */
  lemma OrphanKeepsAccount(cfg: Config, c: Core, r: RegId)
    requires r < |c.regs|
    ensures Account(DeliveryCore.SettleOrphan(cfg, c, r)) == Account(c)
  {
    CountUpdate(c.regs, r, Orphan(cfg, c.regs[r]));
  }

  /** What has become of the bookkeeping once the messages in `done` have been orphaned, and no others. */
  ghost predicate OrphanedSoFar(cfg: Config, before: Core, after: Core, done: seq<RegId>) {
    && after == before.(regs := after.regs, stats := after.stats)
    && |after.regs| == |before.regs|
    && (forall r {:trigger after.regs[r]} | 0 <= r < |before.regs| ::
          after.regs[r] == if r in done then Orphan(cfg, before.regs[r]) else before.regs[r])
    && Account(after) == Account(before)
  }

  lemma OrphanedStep(cfg: Config, before: Core, after: Core, done: seq<RegId>, r: RegId)
    requires OrphanedSoFar(cfg, before, after, done) && r < |before.regs|
    ensures OrphanedSoFar(cfg, before, DeliveryCore.SettleOrphan(cfg, after, r), done + [r])
  {
    OrphanIdempotent(cfg, before.regs[r]);
    OrphanKeepsAccount(cfg, after, r);
  }

  // ---- one attempt, start to end ------------------------------------------------------------

  datatype AttemptResult = Delivered(reg: RegId) | Rejected(error: AttemptError)

  /** What one publish attempt meets: the channel, the context, the wire, and the wait before the next attempt. */
  datatype Weather = Weather(channelOpen: bool, contextDone: bool, sendOk: bool, channelError: bool,
                             cancelled: bool, policyAllows: bool, cancelledInDelay: bool, refreshed: bool)

  /** The record of an accepted send: waiting for its confirm, its timer running. */
  function SentEntry(call: nat, id: MessageId, mandatory: bool, gen: nat, tag: nat, retryCount: nat): Entry {
    NewEntry(call, id, mandatory, gen, tag, retryCount).(inFlight := false)
  }

  /** The bookkeeping after an accepted send: one more message filed, published and numbered. */
  function WithSent(c: Core, call: nat, id: MessageId, mandatory: bool, retryCount: nat): Core
    requires 1 <= c.current <= |c.gens|
  {
    var tag := c.gens[c.current - 1].published + 1;
    c.(regs := c.regs + [SentEntry(call, id, mandatory, c.current, tag, retryCount)],
       index := Index(c.index.byId[id := |c.regs|], c.index.byKey[DeliveryKey(c.current, tag) := |c.regs|]),
       stats := c.stats.(published := c.stats.published + 1),
       gens := c.gens[c.current - 1 := c.gens[c.current - 1].(published := tag)])
  }

  /** Record r is claimed for its caller, filed nowhere, its timer stopped. */
  predicate IsDebris(c: Core, r: RegId) {
    r < |c.regs| && c.regs[r].claim.SendFailed? && !c.regs[r].delivery.Armed?
  }

  /** Generation g is alive and has accepted nothing yet. */
  predicate IsFresh(c: Core, g: nat) {
    1 <= g <= |c.gens| && c.gens[g - 1] == Generation(0, false)
  }

  /** An attempt that came to nothing left no more than records nobody points at. */
  ghost predicate OnlyDebris(c: Core, c': Core) {
    && c' == c.(regs := c'.regs)
    && c.regs <= c'.regs
    && forall r: RegId {:trigger IsDebris(c', r)} | |c.regs| <= r < |c'.regs| :: IsDebris(c', r)
  }

  /** publishTracked's sections from TotalPublished++ on, one after the other. */
  ghost function AfterAttempt(c: Core, reg: RegId, gen: nat, ok: bool): Core
    requires reg < |c.regs| && 1 <= gen <= |c.gens|
  {
    var sent := AfterSend(CountPublished(c, 1), reg, ok);
    if ok then CountAccepted(sent, gen) else CountPublished(StopTimerOf(Deregister(sent, reg), reg), -1)
  }

  /** Registering and sending adds up to WithSent. */
  lemma SentAddsUp(c: Core, call: nat, id: MessageId, mandatory: bool, retryCount: nat)
    requires 1 <= c.current <= |c.gens| && !c.gens[c.current - 1].dead && id !in c.index.byId
    ensures AfterAttempt(DeliveryCore.Register(c, call, id, mandatory, c.current, retryCount).0, |c.regs|, c.current, true)
            == WithSent(c, call, id, mandatory, retryCount)
  {
    var tag := c.gens[c.current - 1].published + 1;
    var e := NewEntry(call, id, mandatory, c.current, tag, retryCount);
    assert (c.regs + [e])[|c.regs| := e.(inFlight := false)] == c.regs + [e.(inFlight := false)];
  }

  /** Registering and failing to send adds up to nothing: map, statistics and numbering are as before. */
  lemma FailedAddsUp(c: Core, call: nat, id: MessageId, mandatory: bool, retryCount: nat)
    requires FutureKeysFree(c) && !c.gens[c.current - 1].dead && id !in c.index.byId
    requires c.current < GENERATION_SPAN && c.gens[c.current - 1].published + 1 < TAG_SPAN
    ensures OnlyDebris(c, AfterAttempt(DeliveryCore.Register(c, call, id, mandatory, c.current, retryCount).0, |c.regs|, c.current, false))
  {
    var tag := c.gens[c.current - 1].published + 1;
    var key := DeliveryKey(c.current, tag);
    assert KeyFree(c, c.current, tag);
    assert c.index.byId[id := |c.regs|] - {id} == c.index.byId;
    assert c.index.byKey[key := |c.regs|] - {key} == c.index.byKey;
  }

  /** Whether publishTracked can register: not on a dead generation, and not twice under one message ID. */
  function RegistrationOf(c: Core, id: MessageId, gen: nat): Registration
    requires 1 <= gen <= |c.gens|
  {
    if c.gens[gen - 1].dead then GenerationDead
    else if id in c.index.byId then Duplicate
    else Registered(|c.regs|)
  }

  /** What an attempt that gets past publishTracked's first checks leaves behind. */
  ghost function Attempted(c: Core, call: nat, id: MessageId, mandatory: bool, retryCount: nat, ok: bool): Core
    requires 1 <= c.current <= |c.gens|
  {
    if RegistrationOf(c, id, c.current).Registered?
    then AfterAttempt(DeliveryCore.Register(c, call, id, mandatory, c.current, retryCount).0, |c.regs|, c.current, ok)
    else c
  }

  /** Either exactly one message more, or nothing at all. */
  lemma AttemptedAddsUp(c: Core, call: nat, id: MessageId, mandatory: bool, retryCount: nat, ok: bool)
    requires FutureKeysFree(c) && c.current < GENERATION_SPAN && c.gens[c.current - 1].published + 1 < TAG_SPAN
    ensures var c' := Attempted(c, call, id, mandatory, retryCount, ok);
            if ok && !c.gens[c.current - 1].dead && id !in c.index.byId then c' == WithSent(c, call, id, mandatory, retryCount)
            else OnlyDebris(c, c')
  {
    if !c.gens[c.current - 1].dead && id !in c.index.byId {
      if ok {
        SentAddsUp(c, call, id, mandatory, retryCount);
      } else {
        FailedAddsUp(c, call, id, mandatory, retryCount);
      }
    }
  }

  /** What an attempt comes to once it has tried to register. */
  function VerdictOf(registration: Registration, w: Weather): AttemptResult {
    match registration
    case GenerationDead => Rejected(ChannelClosed)
    case Duplicate => Rejected(DuplicateId)
    case Registered(reg) => if w.sendOk then Delivered(reg) else Rejected(SendError(w.channelError))
  }

  /** What an attempt comes to, check by check. */
  function AttemptVerdict(c: Core, id: MessageId, w: Weather): AttemptResult
    requires 1 <= c.current <= |c.gens|
  {
    if c.closed then Rejected(PublisherClosed)
    else if !w.channelOpen then Rejected(ChannelClosed)
    else if w.contextDone then Rejected(ContextDone)
    else VerdictOf(RegistrationOf(c, id, c.current), w)
  }

  /**
   An attempt's result, by what it found: a closed publisher, a closed channel, a context
   that is done, a dead generation, a message ID already taken; else by what the wire did.
   */
  lemma VerdictByCases(c: Core, id: MessageId, w: Weather)
    requires 1 <= c.current <= |c.gens|
    ensures var v, passes := AttemptVerdict(c, id, w), !c.closed && w.channelOpen && !w.contextDone;
            var dead, taken := c.gens[c.current - 1].dead, id in c.index.byId;
            && (v == Rejected(PublisherClosed) <==> c.closed)
            && (v == Rejected(ChannelClosed) <==> (!c.closed && !w.channelOpen) || (passes && dead))
            && (v == Rejected(ContextDone) <==> !c.closed && w.channelOpen && w.contextDone)
            && (v == Rejected(DuplicateId) <==> passes && !dead && taken)
            && (v == Rejected(SendError(w.channelError)) <==> passes && !dead && !taken && !w.sendOk)
            && (v == Delivered(|c.regs|) <==> passes && !dead && !taken && w.sendOk)
  {
  }

  /** The interleaved system refuses an attempt for the same reasons, and files it in the same place. */
  lemma VerdictIsTheSystems(s: State, c: nat, w: Weather, fired: bool)
    requires s.holder.Free? && IsCall(s, c) && s.calls[c].state.Ready? && IsGen(s, s.core.current) && |s.core.gens| == |s.chans|
    requires s.chans[s.core.current - 1].open == w.channelOpen
    ensures var v, s1 := AttemptVerdict(s.core, s.calls[c].id, w), Begin(s, c, w.contextDone);
            if s1.holder.Free? then s1.calls[c].state.AttemptFailed? && v == Rejected(s1.calls[c].state.error)
            else
              var s2 := DoRegister(s1, fired);
              if s2.holder.Free? then s2.calls[c].state.AttemptFailed? && v == Rejected(s2.calls[c].state.error)
              else s2.holder.Stored? && v == if w.sendOk then Delivered(s2.holder.reg) else Rejected(SendError(w.channelError))
  {
  }

  /** After such an attempt's failure the call waits, refreshes the channel and tries again. */
  predicate MayGoOn(cfg: Config, w: Weather) {
    cfg.autoReconnect && !w.cancelled && w.policyAllows && !w.cancelledInDelay
  }

  /** Failed attempts and channel replacements left no more than records nobody points at, and new, empty generations. */
  ghost predicate OnlyReplacements(c: Core, c': Core) {
    && c'.index == c.index && c'.stats == c.stats && c'.closed == c.closed
    && c.regs <= c'.regs
    && (forall r: RegId {:trigger IsDebris(c', r)} | |c.regs| <= r < |c'.regs| :: IsDebris(c', r))
    && c.gens <= c'.gens
    && (forall g: nat {:trigger IsFresh(c', g)} | |c.gens| < g <= |c'.gens| :: IsFresh(c', g))
  }

  /** The key layout has room for what the next `n` attempts may use. */
  ghost predicate HasRoom(c: Core, n: nat) {
    && FutureKeysFree(c)
    && c.genCounter == |c.gens| && |c.gens| + n < GENERATION_SPAN
    && c.gens[c.current - 1].published + 1 < TAG_SPAN
  }

  /** Where the retry loop stands with `n` attempts left: nothing has come of it so far, and there is room for them. */
  ghost predicate Standing(start: Core, now: Core, n: nat) {
    OnlyReplacements(start, now) && HasRoom(now, n)
  }

  lemma DebrisThenReplacement(c0: Core, c: Core, c': Core, n: nat)
    requires Standing(c0, c, n + 1) && OnlyDebris(c, c')
    ensures Standing(c0, c', n) && Standing(c0, DeliveryCore.Install(c'), n)
  {
    var c2 := DeliveryCore.Install(c');
    forall g: nat, t: nat | IsFuture(c, g, t) ensures KeyFree(c', g, t) && KeyFree(c2, g, t) {
      assert KeyFree(c, g, t);
    }
    forall g: nat, t: nat | IsFuture(c2, g, t) ensures KeyFree(c2, g, t) {
      assert IsFuture(c, g, t);
    }
    forall r: RegId | |c0.regs| <= r < |c'.regs| ensures IsDebris(c', r) && IsDebris(c2, r) {
      if r < |c.regs| { assert IsDebris(c, r); } else { assert IsDebris(c', r); }
    }
    forall g: nat | |c0.gens| < g <= |c2.gens| ensures IsFresh(c2, g) && (g <= |c'.gens| ==> IsFresh(c', g)) {
      if g <= |c.gens| { assert IsFresh(c, g); }
    }
  }

  /** A rejected turn, with or without a refresh, leaves the loop standing. */
  lemma RejectedTurn(c0: Core, c: Core, c': Core, n: nat)
    requires Standing(c0, c, n + 1)
    requires exists d :: OnlyDebris(c, d) && (c' == d || c' == DeliveryCore.Install(d))
    ensures Standing(c0, c', n)
  {
    var d :| OnlyDebris(c, d) && (c' == d || c' == DeliveryCore.Install(d));
    DebrisThenReplacement(c0, c, d, n);
  }

  lemma LessRoom(c0: Core, c: Core, n: nat)
    requires Standing(c0, c, n + 1)
    ensures Standing(c0, c, n)
  {
  }

  /** The last attempt was accepted and added exactly one message, or it left nothing. */
  ghost predicate Leaves(before: Core, now: Core, result: AttemptResult, call: nat, id: MessageId, mandatory: bool, retryCount: nat) {
    if result.Delivered? then 1 <= before.current <= |before.gens| && now == WithSent(before, call, id, mandatory, retryCount)
    else now == before
  }

  /** One attempt of a call: what it found and what came of it. */
  datatype Attempt = Attempt(before: Core, result: AttemptResult)

  /** After this result another attempt may follow: the channel was at fault, and nothing forbids it. */
  predicate Retriable(cfg: Config, result: AttemptResult, w: Weather) {
    result.Rejected? && ChannelError(result.error) && MayGoOn(cfg, w)
  }

  /** The k-th attempt found nothing left behind by the earlier ones, and came to what its checks and the world say. */
  ghost predicate Tried(start: Core, id: MessageId, world: seq<Weather>, k: nat, t: Attempt) {
    k < |world| && Standing(start, t.before, |world| - k) && t.result == AttemptVerdict(t.before, id, world[k])
  }

  /** The retry loop has made these attempts, each after a retriable failure of the one before, and may or may not go on. */
  ghost predicate LoopMay(cfg: Config, start: Core, id: MessageId, world: seq<Weather>, trail: seq<Attempt>, goOn: bool) {
    && |trail| <= |world|
    && (cfg.maxConnectionRetries > 0 ==> |trail| <= 1 + cfg.maxConnectionRetries)
    && (forall k | 0 <= k < |trail| :: Tried(start, id, world, k, trail[k]))
    && (forall k | 0 <= k < |trail| - 1 :: Retriable(cfg, trail[k].result, world[k]))
    && (goOn <==> trail == [] || Retriable(cfg, trail[|trail| - 1].result, world[|trail| - 1]))
  }

  lemma LoopTurn(cfg: Config, start: Core, id: MessageId, world: seq<Weather>, trail: seq<Attempt>, t: Attempt, goOn: bool)
    requires LoopMay(cfg, start, id, world, trail, true) && Tried(start, id, world, |trail|, t)
    requires cfg.maxConnectionRetries > 0 ==> |trail| <= cfg.maxConnectionRetries
    requires goOn <==> Retriable(cfg, t.result, world[|trail|])
    ensures LoopMay(cfg, start, id, world, trail + [t], goOn)
  {
  }

  /** What is being published, and for whom. */
  datatype Publication = Publication(call: nat, id: MessageId, mandatory: bool, retryCount: nat)

  /**
   Where the loop stands between two turns: what it has tried, what came of the last try,
   and the bookkeeping `now`, which differs from `before` by the message accepted, if one was.
   */
  ghost predicate LoopInv(cfg: Config, start: Core, p: Publication, world: seq<Weather>, trail: seq<Attempt>,
                          result: AttemptResult, goOn: bool, before: Core, now: Core)
  {
    && LoopMay(cfg, start, p.id, world, trail, goOn)
    && (if trail == [] then result.Rejected? else result == trail[|trail| - 1].result)
    && Standing(start, before, |world| - |trail|)
    && Leaves(before, now, result, p.call, p.id, p.mandatory, p.retryCount)
  }

  /** The retry loop has ended: by success, by a failure that may not be retried, at the limit, or with the world. */
  ghost predicate LoopRan(cfg: Config, start: Core, id: MessageId, world: seq<Weather>, trail: seq<Attempt>) {
    && trail != []
    && (LoopMay(cfg, start, id, world, trail, false)
        || (LoopMay(cfg, start, id, world, trail, true)
            && (|trail| == |world| || (cfg.maxConnectionRetries > 0 && |trail| == 1 + cfg.maxConnectionRetries))))
  }

  /** The attempt failed because of its channel, and nothing forbids another. */
  predicate MayFollow(cfg: Config, t: Attempt, w: Weather) {
    && (t.result == Rejected(ChannelClosed) || t.result == Rejected(SendError(true)))
    && cfg.autoReconnect && !w.cancelled && w.policyAllows && !w.cancelledInDelay
  }

  /** Each attempt but the last was such a one. */
  ghost predicate TriedForAReason(cfg: Config, world: seq<Weather>, trail: seq<Attempt>) {
    |trail| <= |world| && forall k {:trigger trail[k]} | 0 <= k < |trail| - 1 :: MayFollow(cfg, trail[k], world[k])
  }

  /**
   The last attempt was accepted, failed for a reason that may not be retried, or was not
   allowed another; and its result says what it found.
   */
  ghost predicate EndedForAReason(cfg: Config, id: MessageId, world: seq<Weather>, trail: seq<Attempt>) {
    && 0 < |trail| <= |world|
    && var (last, w) := (trail[|trail| - 1], world[|trail| - 1]);
    && 1 <= last.before.current <= |last.before.gens|
    && (MayFollow(cfg, last, w) ==> |trail| == |world| || (cfg.maxConnectionRetries > 0 && |trail| == 1 + cfg.maxConnectionRetries))
    && (last.result == Rejected(PublisherClosed) <==> last.before.closed)
    && (last.result == Rejected(DuplicateId) ==> id in last.before.index.byId)
    && (last.result.Delivered? ==>
          id !in last.before.index.byId && !last.before.gens[last.before.current - 1].dead && w.channelOpen && !w.contextDone && w.sendOk)
  }

  lemma LoopIsExplained(cfg: Config, start: Core, id: MessageId, world: seq<Weather>, trail: seq<Attempt>)
    requires LoopRan(cfg, start, id, world, trail)
    ensures TriedForAReason(cfg, world, trail) && EndedForAReason(cfg, id, world, trail)
  {
    var n := |trail| - 1;
    forall k | 0 <= k < n ensures MayFollow(cfg, trail[k], world[k]) {
      assert Retriable(cfg, trail[k].result, world[k]);
    }
    assert Tried(start, id, world, n, trail[n]);
    VerdictByCases(trail[n].before, id, world[n]);
  }

  /** The configuration and the world allow another turn. */
  predicate MayTurn(cfg: Config, world: seq<Weather>, attempts: nat, goOn: bool) {
    goOn && attempts < |world| && (cfg.maxConnectionRetries == 0 || attempts <= cfg.maxConnectionRetries)
  }

  /** One more turn, from the bookkeeping `found` to `left`. */
  lemma TurnMade(cfg: Config, start: Core, p: Publication, world: seq<Weather>, trail: seq<Attempt>, last: AttemptResult, since: Core,
                 found: Core, result: AttemptResult, goOn: bool, left: Core)
    requires LoopInv(cfg, start, p, world, trail, last, true, since, found) && MayTurn(cfg, world, |trail|, true)
    requires HasRoom(found, 1) && result == AttemptVerdict(found, p.id, world[|trail|])
    requires result.Delivered? ==> left == WithSent(found, p.call, p.id, p.mandatory, p.retryCount)
    requires goOn <==> Retriable(cfg, result, world[|trail|])
    requires result.Rejected? ==> exists c :: OnlyDebris(found, c) && (left == c || left == DeliveryCore.Install(c))
    ensures LoopInv(cfg, start, p, world, trail + [Attempt(found, result)], result, goOn, if result.Rejected? then left else found, left)
  {
    LoopTurn(cfg, start, p.id, world, trail, Attempt(found, result), goOn);
    if result.Rejected? {
      RejectedTurn(start, found, left, |world| - |trail| - 1);
    } else {
      LessRoom(start, found, |world| - |trail| - 1);
    }
  }

  lemma LoopStarts(cfg: Config, start: Core, p: Publication, world: seq<Weather>, error: AttemptError)
    requires HasRoom(start, |world|)
    ensures LoopInv(cfg, start, p, world, [], Rejected(error), true, start, start)
  {
  }

  lemma LoopEnds(cfg: Config, start: Core, p: Publication, world: seq<Weather>, trail: seq<Attempt>,
                 result: AttemptResult, goOn: bool, before: Core, now: Core)
    requires LoopInv(cfg, start, p, world, trail, result, goOn, before, now) && world != [] && !MayTurn(cfg, world, |trail|, goOn)
    ensures LoopRan(cfg, start, p.id, world, trail) && result == trail[|trail| - 1].result
    ensures Standing(start, before, |world| - |trail|) && Leaves(before, now, result, p.call, p.id, p.mandatory, p.retryCount)
  {
  }

  // ---- the publisher ------------------------------------------------------------------------

  class DeliveryPublisher {
    const cfg: Config
    const pending: ShardedPendingMap
    const stats: DeliveryStats
    var messages: seq<PendingMessage>     // every attempt's record; the pending map names them by position
    var gens: seq<ConfirmGeneration>      // generation g is gens[g - 1]
    var genCounter: nat
    var current: nat
    var closed: bool
    ghost var repr: set<object>           // every object the publisher owns

    ghost predicate Valid()
      reads this, pending, pending.byMessageId, pending.byDeliveryTag
    {
      && pending.Valid()
      && {pending, pending.byMessageId, pending.byDeliveryTag, stats} <= repr && this !in repr
      && (forall i | 0 <= i < |messages| :: messages[i] in repr)
      && (forall i | 0 <= i < |gens| :: gens[i] in repr)
      && (forall i, j | 0 <= i < j < |messages| :: messages[i] != messages[j])
      && (forall i, j | 0 <= i < j < |gens| :: gens[i] != gens[j])
      && (forall id | id in pending.index.byId :: pending.index.byId[id] < |messages|)
      && (forall k | k in pending.index.byKey :: pending.index.byKey[k] < |messages|)
    }

    ghost function Entries(): (es: seq<Entry>)
      reads this, messages
      ensures |es| == |messages|
      ensures forall i | 0 <= i < |es| :: es[i] == messages[i].View()
    {
      seq(|messages|, i requires 0 <= i < |messages| reads this, messages => messages[i].View())
    }

    ghost function Generations(): (gs: seq<Generation>)
      reads this, gens
      ensures |gs| == |gens|
      ensures forall i | 0 <= i < |gs| :: gs[i] == gens[i].View()
    {
      seq(|gens|, i requires 0 <= i < |gens| reads this, gens => gens[i].View())
    }

    /** The value of the publisher's bookkeeping. */
    ghost function View(): Core
      reads this, pending, stats, messages, gens
    {
      Core(Entries(), pending.index, stats.View(), Generations(), genCounter, current, closed)
    }

    constructor (cfg: Config)
      ensures this.cfg == cfg && Valid() && fresh(repr)
      ensures View() == Core([], EMPTY_INDEX, Stats(0, 0, 0, 0, 0, 0), [Generation(0, false)], 1, 1, false)
    {
      this.cfg := cfg;
      var pending := new ShardedPendingMap(cfg.hash);
      var stats := new DeliveryStats();
      var first := new ConfirmGeneration();
      this.pending, this.stats := pending, stats;
      messages, gens, genCounter, current, closed := [], [first], 1, 1, false;
      repr := {pending, pending.byMessageId, pending.byDeliveryTag, stats, first};
    }

    /** Two states between which only message r and the statistics were written. */
    twostate lemma MovedOne(r: nat)
      requires old(Valid()) && r < |old(messages)| && unchanged(this) && unchanged(pending)
      requires forall i | 0 <= i < |old(messages)| && i != r :: unchanged(old(messages)[i])
      requires forall i | 0 <= i < |old(gens)| :: unchanged(old(gens)[i])
      ensures View() == old(View()).(regs := old(View()).regs[r := messages[r].View()], stats := stats.View())
    {
      assert Generations() == old(Generations());
      assert Entries() == old(Entries())[r := messages[r].View()];
    }

    /** A confirm frame was read on generation `generation`. */
    method HandleConfirmation(generation: nat, tag: nat, ack: bool)
      requires Valid()
      modifies stats, messages
      ensures Valid()
      ensures View() == DeliveryCore.HandleConfirmation(cfg, old(View()), generation, tag, ack)
    {
      var reg, exists_ := pending.LoadByDeliveryTag(DeliveryKey(generation, tag));
      if !exists_ {
        return;
      }
      ConfirmMessage(cfg, messages[reg], stats, ack);
      MovedOne(reg);
    }

    /** A return frame was read; it carries a message ID and no tag. */
    method HandleReturn(id: MessageId)
      requires Valid()
      modifies stats, messages
      ensures Valid()
      ensures View() == DeliveryCore.HandleReturn(cfg, old(View()), id)
    {
      var reg, exists_ := pending.LoadByMessageID(id);
      if !exists_ {
        return;
      }
      ReturnMessage(cfg, messages[reg], stats);
      MovedOne(reg);
    }

    method HandleTimeout(key: nat)
      requires Valid()
      modifies stats, messages
      ensures Valid()
      ensures View() == DeliveryCore.HandleTimeout(cfg, old(View()), key)
    {
      var reg, exists_ := pending.LoadByDeliveryTag(key);
      if !exists_ {
        return;
      }
      TimeOutMessage(cfg, messages[reg], stats);
      MovedOne(reg);
    }

    method HandleMandatoryGracePeriodExpired(key: nat)
      requires Valid()
      modifies stats, messages
      ensures Valid()
      ensures View() == HandleGraceExpired(cfg, old(View()), key)
    {
      var reg, exists_ := pending.LoadByDeliveryTag(key);
      if !exists_ {
        return;
      }
      ExpireGrace(cfg, messages[reg], stats);
      MovedOne(reg);
    }

    method SettleOrphan(reg: RegId)
      requires Valid() && reg < |messages|
      modifies stats, messages
      ensures Valid()
      ensures View() == DeliveryCore.SettleOrphan(cfg, old(View()), reg)
    {
      OrphanMessage(cfg, messages[reg], stats);
      MovedOne(reg);
    }

    // ---- failOrphans ----------------------------------------------------------------------

    /** Mark the generation dead: nothing can be registered on it from here on. */
    method MarkDead(generation: nat)
      requires Valid() && 1 <= generation <= |gens|
      modifies gens
      ensures Valid()
      ensures View() == DeliveryCore.MarkDead(old(View()), generation)
    {
      gens[generation - 1].dead := true;
      assert Entries() == old(Entries());
      assert Generations() == old(Generations())[generation - 1 := gens[generation - 1].View()];
    }

    /** The registration is filed in the pending map and belongs to the generation. */
    ghost predicate IsOrphan(generation: nat, reg: RegId)
      requires Valid()
      reads this, pending, pending.byMessageId, pending.byDeliveryTag, messages
    {
      reg < |messages| && messages[reg].generation == generation && reg in pending.index.byId.Values
    }

    /** Walk the shards and collect the generation's entries, all of them and nothing else. */
    method CollectOrphans(generation: nat) returns (orphans: seq<RegId>)
      requires Valid()
      ensures forall r :: r in orphans <==> IsOrphan(generation, r)
    {
      var visited, stopped;
      ghost var ids;
      var always := (_: RegId) => true;
      visited, stopped, ids := pending.Range(always);
      StopsForAReason(visited, stopped, always);
      orphans := [];
      var i := 0;
      while i < |visited|
        invariant 0 <= i <= |visited|
        invariant forall r :: r in orphans <==> r in visited[..i] && r < |messages| && messages[r].generation == generation
      {
        if messages[visited[i]].generation == generation {
          orphans := orphans + [visited[i]];
        }
        i := i + 1;
      }
      assert visited[..i] == visited;
      forall r | r in pending.index.byId.Values ensures r in visited {
        var id :| id in pending.index.byId && pending.index.byId[id] == r;
        assert id in ids;
      }
    }

    /** The next orphan of a sweep that began in `start` and has settled those in `done`. */
    method SettleNext(ghost start: Core, ghost done: seq<RegId>, reg: RegId)
      requires Valid() && reg < |messages| && OrphanedSoFar(cfg, start, View(), done)
      modifies stats, messages
      ensures Valid() && OrphanedSoFar(cfg, start, View(), done + [reg])
    {
      OrphanedStep(cfg, start, View(), done, reg);
      SettleOrphan(reg);
    }

    method SettleOrphans(orphans: seq<RegId>)
      requires Valid() && forall r | r in orphans :: r < |messages|
      modifies stats, messages
      ensures Valid()
      ensures OrphanedSoFar(cfg, old(View()), View(), orphans)
    {
      var i := 0;
      ghost var start, done: seq<RegId> := View(), [];
      while i < |orphans|
        invariant 0 <= i <= |orphans| && Valid()
        invariant done == orphans[..i] && OrphanedSoFar(cfg, start, View(), done)
      {
        assert orphans[i] in orphans;
        assert orphans[..i + 1] == orphans[..i] + [orphans[i]];
        SettleNext(start, done, orphans[i]);
        done := done + [orphans[i]];
        i := i + 1;
      }
    }

    /**
     failOrphans with nothing interfering: every entry of the generation is settled or
     deferred, nothing else is touched, and each message settled is counted once.
     */
    method FailOrphans(generation: nat) returns (orphans: seq<RegId>)
      requires Valid() && 1 <= generation <= |gens|
      modifies gens, stats, messages
      ensures Valid()
      ensures forall r :: r in orphans <==> old(IsOrphan(generation, r))
      ensures OrphanedSoFar(cfg, DeliveryCore.MarkDead(old(View()), generation), View(), orphans)
    {
      MarkDead(generation);
      orphans := CollectOrphans(generation);
      SettleOrphans(orphans);
    }

    // ---- publishTracked's sections --------------------------------------------------------------

    /** A record has been appended, and nothing else written but the pending map. */
    twostate lemma Appended(new m: PendingMessage)
      requires messages == old(messages) + [m] && gens == old(gens)
      requires forall i | 0 <= i < |old(messages)| :: unchanged(old(messages)[i])
      requires forall i | 0 <= i < |old(gens)| :: unchanged(old(gens)[i])
      ensures Entries() == old(Entries()) + [m.View()] && Generations() == old(Generations())
    {
    }

    /** File a new record under its message ID and key, unless the ID is taken. */
    method File(m: PendingMessage) returns (stored: bool)
      requires Valid() && m !in messages
      modifies this`messages, this`repr, pending`index, pending.byMessageId, pending.byDeliveryTag
      ensures Valid()
      ensures (pending.index, stored) == StoreIn(old(pending.index), m.messageId, m.key, |old(messages)|)
      ensures messages == if stored then old(messages) + [m] else old(messages)
      ensures repr == if stored then old(repr) + {m} else old(repr)
    {
      stored := pending.Store(m.messageId, m.key, |messages|);
      if stored {
        messages := messages + [m];
        repr := repr + {m};
      }
    }

    method FileAttempt(call: nat, id: MessageId, mandatory: bool, generation: nat, tag: nat, retryCount: nat) returns (stored: bool)
      requires Valid()
      modifies this`messages, this`repr, pending`index, pending.byMessageId, pending.byDeliveryTag
      ensures Valid()
      ensures stored == (id !in old(pending.index.byId))
      ensures View() == if !stored then old(View())
                        else old(View()).(regs := old(View()).regs + [NewEntry(call, id, mandatory, generation, tag, retryCount)],
                                          index := StoreIn(old(pending.index), id, DeliveryKey(generation, tag), |old(messages)|).0)
      ensures fresh(repr - old(repr)) && (stored ==> |messages| == |old(messages)| + 1 && IsNew(messages[|old(messages)|]))
    {
      var m := new PendingMessage(call, id, mandatory, generation, tag, retryCount);
      stored := File(m);
      if stored {
        Appended(m);
      } else {
        assert Entries() == old(Entries()) && Generations() == old(Generations());
      }
    }

    method Register(call: nat, id: MessageId, mandatory: bool, generation: nat, retryCount: nat) returns (result: Registration)
      requires Valid() && 1 <= generation <= |gens|
      modifies this`messages, this`repr, pending`index, pending.byMessageId, pending.byDeliveryTag
      ensures Valid()
      ensures result == RegistrationOf(old(View()), id, generation)
      ensures View() == if result.Registered? then DeliveryCore.Register(old(View()), call, id, mandatory, generation, retryCount).0
                        else old(View())
      ensures fresh(repr - old(repr)) && (result.Registered? ==> |messages| == |old(messages)| + 1 && IsNew(messages[|old(messages)|]))
    {
      if gens[generation - 1].dead {
        return GenerationDead;
      }
      var stored := FileAttempt(call, id, mandatory, generation, gens[generation - 1].published + 1, retryCount);
      result := if stored then Registered(|messages| - 1) else Duplicate;
    }

    /** TotalPublished++ for a registration, TotalPublished-- for a send that failed. */
    method CountPublished(delta: int)
      requires Valid()
      modifies stats
      ensures Valid()
      ensures View() == DeliveryCore.CountPublished(old(View()), delta)
    {
      stats.published := stats.published + delta;
      assert Entries() == old(Entries()) && Generations() == old(Generations());
    }

    method SendReturned(reg: RegId, ok: bool) returns (orphan: bool, timeout: bool)
      requires Valid() && reg < |messages|
      modifies messages
      ensures Valid()
      ensures View() == AfterSend(old(View()), reg, ok)
      ensures orphan == old(messages[reg].orphanDeferred) && timeout == DeferredTimeout(old(messages[reg].View()))
    {
      orphan, timeout := SendIsBack(messages[reg], ok);
      MovedOne(reg);
    }

    method StopTimerOf(reg: RegId)
      requires Valid() && reg < |messages|
      modifies messages
      ensures Valid()
      ensures View() == DeliveryCore.StopTimerOf(old(View()), reg)
    {
      messages[reg].StopTimer();
      MovedOne(reg);
    }

    method Deregister(reg: RegId)
      requires Valid() && reg < |messages|
      modifies pending`index, pending.byMessageId, pending.byDeliveryTag
      ensures Valid()
      ensures View() == DeliveryCore.Deregister(old(View()), reg)
    {
      pending.Delete(messages[reg].messageId, messages[reg].key);
      assert Entries() == old(Entries()) && Generations() == old(Generations());
    }

    method CountAccepted(generation: nat)
      requires Valid() && 1 <= generation <= |gens|
      modifies gens
      ensures Valid()
      ensures View() == DeliveryCore.CountAccepted(old(View()), generation)
    {
      gens[generation - 1].published := gens[generation - 1].published + 1;
      assert Entries() == old(Entries());
      assert Generations() == old(Generations())[generation - 1 := gens[generation - 1].View()];
    }

    /** A generation has been appended, and nothing else written but the publisher's own fields. */
    twostate lemma GenerationAppended(new g: ConfirmGeneration)
      requires gens == old(gens) + [g] && messages == old(messages)
      requires forall i | 0 <= i < |old(messages)| :: unchanged(old(messages)[i])
      requires forall i | 0 <= i < |old(gens)| :: unchanged(old(gens)[i])
      ensures Generations() == old(Generations()) + [g.View()] && Entries() == old(Entries())
    {
    }

    method Install()
      requires Valid()
      modifies this`gens, this`genCounter, this`current, this`repr
      ensures Valid()
      ensures View() == DeliveryCore.Install(old(View()))
      ensures fresh(repr - old(repr))
    {
      var next := new ConfirmGeneration();
      gens := gens + [next];
      repr := repr + {next};
      genCounter := genCounter + 1;
      current := genCounter;
      GenerationAppended(next);
    }

    /** After an accepted send, settle what was left to it: an orphaned message first, else a timeout. */
    method SettleDeferred(reg: RegId, orphan: bool, timeout: bool)
      requires Valid() && reg < |messages|
      modifies stats, messages
      ensures Valid()
      ensures View() == if orphan then DeliveryCore.SettleOrphan(cfg, old(View()), reg)
                        else if timeout then DeliveryCore.HandleTimeout(cfg, old(View()), old(messages[reg].key))
                        else old(View())
    {
      if orphan {
        SettleOrphan(reg);
      } else if timeout {
        HandleTimeout(messages[reg].key);
      }
    }

    /** The failed send's entry and timer are removed again and its count taken back. */
    method Forget(reg: RegId)
      requires Valid() && reg < |messages|
      modifies pending`index, pending.byMessageId, pending.byDeliveryTag, messages, stats
      ensures Valid()
      ensures View() == DeliveryCore.CountPublished(DeliveryCore.StopTimerOf(DeliveryCore.Deregister(old(View()), reg), reg), -1)
    {
      Deregister(reg);
      StopTimerOf(reg);
      CountPublished(-1);
    }

    /** The channel took the send; nothing can be left to settle, for nothing interfered. */
    method Accept(reg: RegId)
      requires Valid() && reg < |messages| && 1 <= current <= |gens|
      modifies stats, messages, gens
      ensures Valid()
      ensures old(IsNew(messages[reg])) ==>
                View() == DeliveryCore.CountAccepted(AfterSend(old(View()), reg, true), current)
    {
      var orphan, timeout := SendReturned(reg, true);
      CountAccepted(current);
      SettleDeferred(reg, orphan, timeout);
    }

    method Refuse(reg: RegId)
      requires Valid() && reg < |messages|
      modifies pending`index, pending.byMessageId, pending.byDeliveryTag, messages, stats
      ensures Valid()
      ensures View() == DeliveryCore.CountPublished(DeliveryCore.StopTimerOf(DeliveryCore.Deregister(
                          AfterSend(old(View()), reg, false), reg), reg), -1)
    {
      var _, _ := SendReturned(reg, false);
      Forget(reg);
    }

    /** The part of publishTracked from TotalPublished++ on. */
    method SendRegistered(reg: RegId, w: Weather) returns (result: AttemptResult)
      requires Valid() && reg < |messages| && 1 <= current <= |gens|
      requires IsNew(messages[reg])
      modifies pending`index, pending.byMessageId, pending.byDeliveryTag, stats, messages, gens
      ensures Valid()
      ensures result == if w.sendOk then Delivered(reg) else Rejected(SendError(w.channelError))
      ensures View() == AfterAttempt(old(View()), reg, current, w.sendOk)
    {
      CountPublished(1);
      if w.sendOk {
        Accept(reg);
        result := Delivered(reg);
      } else {
        Refuse(reg);
        result := Rejected(SendError(w.channelError));
      }
    }

    /** publishTracked once it has tried to register: send, or say why not. */
    method AfterRegistering(registration: Registration, w: Weather) returns (result: AttemptResult)
      requires Valid() && 1 <= current <= |gens|
      requires registration.Registered? ==>
                 registration.reg < |messages| && IsNew(messages[registration.reg])
      modifies pending`index, pending.byMessageId, pending.byDeliveryTag, stats, messages, gens
      ensures Valid()
      ensures View() == if registration.Registered? then AfterAttempt(old(View()), registration.reg, current, w.sendOk) else old(View())
      ensures result == VerdictOf(registration, w)
    {
      match registration {
        case GenerationDead => result := Rejected(ChannelClosed);
        case Duplicate => result := Rejected(DuplicateId);
        case Registered(reg) => result := SendRegistered(reg, w);
      }
    }

    /** publishTracked past its first checks. */
    method AttemptOnCurrent(call: nat, id: MessageId, mandatory: bool, retryCount: nat, w: Weather) returns (result: AttemptResult)
      requires Valid() && 1 <= current <= |gens|
      modifies this`messages, this`repr, repr
      ensures Valid()
      ensures View() == Attempted(old(View()), call, id, mandatory, retryCount, w.sendOk)
      ensures result == VerdictOf(RegistrationOf(old(View()), id, old(current)), w)
      ensures fresh(repr - old(repr))
    {
      var registration := Register(call, id, mandatory, current, retryCount);
      result := AfterRegistering(registration, w);
    }

    /** publishTracked with nothing interfering: it sends, or it leaves everything as it was, and says which. */
    method PublishTracked(call: nat, id: MessageId, mandatory: bool, retryCount: nat, w: Weather) returns (result: AttemptResult)
      requires Valid() && FutureKeysFree(View()) && current < GENERATION_SPAN && gens[current - 1].published + 1 < TAG_SPAN
      modifies this`messages, this`repr, repr
      ensures Valid()
      ensures result == AttemptVerdict(old(View()), id, w)
      ensures result.Delivered? ==> View() == WithSent(old(View()), call, id, mandatory, retryCount)
      ensures result.Rejected? ==> OnlyDebris(old(View()), View())
      ensures fresh(repr - old(repr))
    {
      if closed {
        return Rejected(PublisherClosed);
      }
      if !w.channelOpen {
        return Rejected(ChannelClosed);
      }
      if w.contextDone {
        return Rejected(ContextDone);
      }
      result := AttemptOnCurrent(call, id, mandatory, retryCount, w);
      AttemptedAddsUp(old(View()), call, id, mandatory, retryCount, w.sendOk);
    }

    /** refreshConfirmChannel with nothing interfering. */
    method RefreshConfirmChannel(failed: nat, opens: bool)
      requires Valid()
      modifies this`gens, this`genCounter, this`current, this`repr
      ensures Valid()
      ensures View() == if !closed && old(current) == failed && opens then DeliveryCore.Install(old(View())) else old(View())
      ensures fresh(repr - old(repr))
    {
      if closed || current != failed || !opens {
        return;
      }
      Install();
    }

    /** One turn of the retry loop: an attempt and, if it may be retried, a refresh. */
    method Turn(call: nat, id: MessageId, mandatory: bool, retryCount: nat, w: Weather) returns (result: AttemptResult, goOn: bool)
      requires Valid() && HasRoom(View(), 1)
      modifies this`messages, this`gens, this`genCounter, this`current, this`repr, repr
      ensures Valid() && fresh(repr - old(repr))
      ensures result == AttemptVerdict(old(View()), id, w)
      ensures result.Delivered? ==> View() == WithSent(old(View()), call, id, mandatory, retryCount)
      ensures goOn <==> Retriable(cfg, result, w)
      ensures result.Rejected? ==> exists c :: OnlyDebris(old(View()), c) && (View() == c || View() == DeliveryCore.Install(c))
    {
      var failed := current;
      result := PublishTracked(call, id, mandatory, retryCount, w);
      ghost var c := View();
      goOn := result.Rejected? && ChannelError(result.error) && cfg.autoReconnect && !w.cancelled && w.policyAllows && !w.cancelledInDelay;
      if goOn {
        RefreshConfirmChannel(failed, w.refreshed);
      }
      assert result.Rejected? ==> OnlyDebris(old(View()), c) && (View() == c || View() == DeliveryCore.Install(c));
    }

    /** The turn that follows the attempts in `trail`. */
    method TurnSince(ghost start: Core, p: Publication, world: seq<Weather>, attempts: nat, ghost trail: seq<Attempt>,
                     ghost last: AttemptResult, ghost since: Core)
      returns (result: AttemptResult, goOn: bool, ghost before: Core, ghost longer: seq<Attempt>)
      requires Valid() && LoopInv(cfg, start, p, world, trail, last, true, since, View())
      requires attempts == |trail| && MayTurn(cfg, world, attempts, true)
      modifies this`messages, this`gens, this`genCounter, this`current, this`repr, repr
      ensures Valid() && fresh(repr - old(repr))
      ensures |longer| == |trail| + 1 && LoopInv(cfg, start, p, world, longer, result, goOn, before, View())
    {
      before := View();
      result, goOn := Turn(p.call, p.id, p.mandatory, p.retryCount, world[attempts]);
      longer := trail + [Attempt(before, result)];
      TurnMade(cfg, start, p, world, trail, last, since, before, result, goOn, View());
      before := if result.Rejected? then View() else before;
    }

    /**
     publishWithDeliveryAssurance's retry loop with nothing interfering, the world being
     what its attempts meet one after the other. Either the last attempt was accepted, and
     exactly one message was added, or nothing was; earlier attempts leave nothing behind.
     The number of attempts respects the configured limit, and each attempt but the first
     follows a failure of the channel: none follows a failure that may not be retried, and
     one that may be is followed by another unless the limit is reached or the world ends.
     */
    method PublishWithDeliveryAssurance(p: Publication, world: seq<Weather>)
      returns (result: AttemptResult, attempts: nat, ghost before: Core, ghost trail: seq<Attempt>)
      requires Valid() && |world| > 0 && HasRoom(View(), |world|)
      modifies this`messages, this`gens, this`genCounter, this`current, this`repr, repr
      ensures Valid()
      ensures LoopRan(cfg, old(View()), p.id, world, trail)
      ensures attempts == |trail| && result == trail[attempts - 1].result
      ensures Standing(old(View()), before, |world| - attempts)
      ensures Leaves(before, View(), result, p.call, p.id, p.mandatory, p.retryCount)
      ensures TriedForAReason(cfg, world, trail) && EndedForAReason(cfg, p.id, world, trail)
    {
      ghost var start := View();
      var goOn;
      LoopStarts(cfg, start, p, world, PublisherClosed);
      result, attempts, goOn, before, trail := Turns(start, p, world);
      LoopEnds(cfg, start, p, world, trail, result, goOn, before, View());
      LoopIsExplained(cfg, start, p.id, world, trail);
    }

    /** The loop itself. */
    method Turns(ghost start: Core, p: Publication, world: seq<Weather>)
      returns (result: AttemptResult, attempts: nat, goOn: bool, ghost before: Core, ghost trail: seq<Attempt>)
      requires Valid() && LoopInv(cfg, start, p, world, [], Rejected(PublisherClosed), true, start, View())
      modifies this`messages, this`gens, this`genCounter, this`current, this`repr, repr
      ensures Valid() && attempts == |trail| && !MayTurn(cfg, world, attempts, goOn)
      ensures LoopInv(cfg, start, p, world, trail, result, goOn, before, View())
    {
      before, trail := start, [];
      result, attempts, goOn := Rejected(PublisherClosed), 0, true;
      while MayTurn(cfg, world, attempts, goOn)
        invariant Valid() && fresh(repr - old(repr)) && attempts == |trail|
        invariant LoopInv(cfg, start, p, world, trail, result, goOn, before, View())
        decreases |world| - attempts
      {
        result, goOn, before, trail := TurnSince(start, p, world, attempts, trail, result, before);
        attempts := attempts + 1;
      }
    }
  }
}
