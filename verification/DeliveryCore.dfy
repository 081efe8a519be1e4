/**
 The bookkeeping of a publisher with delivery assurance, and what each
 lock-delimited section of publisher.go does to it. Everything here is a function
 of that bookkeeping; DeliverySystem interleaves these functions with the broker,
 the timers and each other, and Publisher implements them on mutable objects.
 */
module DeliveryCore {
  import opened DeliveryKeys
  import opened PendingMap

  /** Which counter a terminal outcome is booked under. */
  datatype Verdict = Confirmed | Returned | Nacked | TimedOut | Orphaned

  /** What the user's callback is told. */
  datatype Outcome = DeliverySuccess | DeliveryFailed | DeliveryNacked | DeliveryTimeout

  function OutcomeOf(v: Verdict): Outcome {
    match v
    case Confirmed => DeliverySuccess
    case Returned => DeliveryFailed
    case Nacked => DeliveryNacked
    case TimedOut => DeliveryTimeout
    case Orphaned => DeliveryFailed
  }

  /** CallbackFired, split by who claimed the message: a failed send, or a terminal outcome. */
  datatype Claim = Unclaimed | SendFailed | Settled(verdict: Verdict)

  /** A timer that has fired but whose function has not run yet can no longer be stopped; once it has, it is spent. */
  datatype Timer = NoTimer | Armed | Stopped | Fired | Spent {
    function Stop(): Timer { if Armed? then Stopped else this }

    predicate Live() { Armed? || Fired? }
  }

  /** The goroutine started for a claimed message: finishAsync's, or retryMessage's. */
  datatype Work =
    | NoWork
    | Cleanup             // finishAsync: about to delete the pending entry
    | Callback            // finishAsync: about to run the callback
    | Done(signal: nat)   // the callback has run; `signal` is its place in the history
    | RetryQueued         // retryMessage has been started
    | RetryWaiting        // retryMessage is sleeping out the retry delay
    | Retried(call: nat)  // retryMessage deleted the entry and republished as `call`

  /** One registration: a pendingMessage and the goroutines and timers hanging off it. */
  datatype Entry = Entry(
    call: nat, id: MessageId, mandatory: bool, key: nat, gen: nat, tag: nat,
    inFlight: bool, orphanDeferred: bool, timeoutDeferred: bool,
    confirmed: bool, nacked: bool, returned: bool,
    claim: Claim, retryCount: nat, delivery: Timer, grace: Timer, work: Work)
  {
    predicate Claimed() { !claim.Unclaimed? }

    /** TimeoutTimer points at the grace timer once there is one. */
    function StopTimer(): Entry {
      this.(delivery := if grace.NoTimer? then delivery.Stop() else delivery, grace := grace.Stop())
    }
  }

  datatype Stats = Stats(published: int, confirmed: int, returned: int, nacked: int, timedOut: int, orphaned: int) {
    function Add(v: Verdict): Stats {
      match v
      case Confirmed => this.(confirmed := confirmed + 1)
      case Returned => this.(returned := returned + 1)
      case Nacked => this.(nacked := nacked + 1)
      case TimedOut => this.(timedOut := timedOut + 1)
      case Orphaned => this.(orphaned := orphaned + 1)
    }

    /** All terminal outcomes together. */
    function Outcomes(): int { confirmed + returned + nacked + timedOut + orphaned }
  }

  /** A confirm channel generation: accepted sends as the publisher counted them, and the dead flag. */
  datatype Generation = Generation(published: nat, dead: bool)

  datatype Config = Config(hash: Hash, autoRetries: bool, maxRetryAttempts: nat,
                           autoReconnect: bool, maxConnectionRetries: nat)

  /** A nacked message may be published again. */
  predicate Retries(cfg: Config) {
    cfg.autoRetries && cfg.maxRetryAttempts > 0
  }

  /** Generations are numbered from 1; generation g is gens[g - 1]. */
  datatype Core = Core(regs: seq<Entry>, index: Index, stats: Stats,
                       gens: seq<Generation>, genCounter: nat, current: nat, closed: bool)

  /** The index only names registrations that exist. */
  ghost predicate IndexInRange(c: Core) {
    && (forall id | id in c.index.byId :: c.index.byId[id] < |c.regs|)
    && (forall k | k in c.index.byKey :: c.index.byKey[k] < |c.regs|)
  }

  /** Write back one message's state; claiming an outcome and counting it are one step. */
  function Update(c: Core, r: RegId, e: Entry): Core
    requires r < |c.regs|
  {
    c.(regs := c.regs[r := e],
       stats := if c.regs[r].claim.Unclaimed? && e.claim.Settled? then c.stats.Add(e.claim.verdict) else c.stats)
  }

  /** A nack is retried while automatic retries are on and attempts are left. */
  predicate ShouldRetry(cfg: Config, e: Entry) {
    cfg.autoRetries && e.retryCount < cfg.maxRetryAttempts
  }

  /** Claim the message for `v` and start the goroutine that finishes it. */
  function Settle(cfg: Config, e: Entry, v: Verdict): Entry {
    e.(claim := Settled(v), work := if v == Nacked && ShouldRetry(cfg, e) then RetryQueued else Cleanup)
  }

  /** tryFinalizeMessage. */
  function TryFinalize(cfg: Config, e: Entry): Entry {
    if e.Claimed() then e
    else if e.nacked then Settle(cfg, e, Nacked).StopTimer()
    else if e.returned then Settle(cfg, e, Returned).StopTimer()
    else if e.confirmed && !e.mandatory then Settle(cfg, e, Confirmed).StopTimer()
    else if e.confirmed then e.StopTimer().(grace := Armed)
    else e
  }

  /** handleConfirmation. */
  function HandleConfirmation(cfg: Config, c: Core, gen: nat, tag: nat, ack: bool): Core
    requires IndexInRange(c)
  {
    var key := DeliveryKey(gen, tag);
    if key !in c.index.byKey then c
    else
      var e := c.regs[c.index.byKey[key]];
      Update(c, c.index.byKey[key], TryFinalize(cfg, if ack then e.(confirmed := true) else e.(nacked := true)))
  }

  /** handleReturn: matched by message ID only. */
  function HandleReturn(cfg: Config, c: Core, id: MessageId): Core
    requires IndexInRange(c)
  {
    if id !in c.index.byId || c.regs[c.index.byId[id]].Claimed() then c
    else Update(c, c.index.byId[id], TryFinalize(cfg, c.regs[c.index.byId[id]].(returned := true)))
  }

  /** What handleTimeout does to the message it finds. */
  function TimeOut(cfg: Config, e: Entry): Entry {
    if e.Claimed() then e
    else if e.inFlight then e.(timeoutDeferred := true)
    else Settle(cfg, e, TimedOut)
  }

  /** handleTimeout. */
  function HandleTimeout(cfg: Config, c: Core, key: nat): Core
    requires IndexInRange(c)
  {
    if key !in c.index.byKey then c
    else Update(c, c.index.byKey[key], TimeOut(cfg, c.regs[c.index.byKey[key]]))
  }

  /** What handleMandatoryGracePeriodExpired does to the message it finds. */
  function GraceExpired(cfg: Config, e: Entry): Entry {
    if e.Claimed() || e.returned then e else Settle(cfg, e, Confirmed)
  }

  /** handleMandatoryGracePeriodExpired. */
  function HandleGraceExpired(cfg: Config, c: Core, key: nat): Core
    requires IndexInRange(c)
  {
    if key !in c.index.byKey then c
    else Update(c, c.index.byKey[key], GraceExpired(cfg, c.regs[c.index.byKey[key]]))
  }

  /** settleOrphan. */
  function Orphan(cfg: Config, e: Entry): Entry {
    if e.Claimed() || e.confirmed || e.nacked || e.returned then e
    else if e.inFlight then e.(orphanDeferred := true)
    else Settle(cfg, e, Orphaned).StopTimer()
  }

  function SettleOrphan(cfg: Config, c: Core, r: RegId): Core
    requires r < |c.regs|
  {
    Update(c, r, Orphan(cfg, c.regs[r]))
  }

  /** The pendingMessage publishTracked builds for one attempt: in flight, timer armed, nothing decided. */
  function NewEntry(call: nat, id: MessageId, mandatory: bool, gen: nat, tag: nat, retryCount: nat): Entry {
    Entry(call, id, mandatory, DeliveryKey(gen, tag), gen, tag, true, false, false, false, false, false,
          Unclaimed, retryCount, Armed, NoTimer, NoWork)
  }

  datatype Registration = GenerationDead | Duplicate | Registered(reg: RegId)

  /** publishTracked's section under gen.mu: check dead, then Store. */
  function Register(c: Core, call: nat, id: MessageId, mandatory: bool, gen: nat, retryCount: nat): (Core, Registration)
    requires 1 <= gen <= |c.gens|
  {
    var tag := c.gens[gen - 1].published + 1;
    if c.gens[gen - 1].dead then (c, GenerationDead)
    else
      var (index, stored) := StoreIn(c.index, id, DeliveryKey(gen, tag), |c.regs|);
      if !stored then (c, Duplicate)
      else (c.(regs := c.regs + [NewEntry(call, id, mandatory, gen, tag, retryCount)], index := index),
            Registered(|c.regs|))
  }

  /** TotalPublished++ and, for a failed send, TotalPublished--. */
  function CountPublished(c: Core, delta: int): Core {
    c.(stats := c.stats.(published := c.stats.published + delta))
  }

  /** A deferred timeout counts only if nothing else has decided the message. */
  function DeferredTimeout(e: Entry): bool {
    e.timeoutDeferred && !e.confirmed && !e.nacked && !e.returned
  }

  /** publishTracked's section under pending.mu once the send has returned. */
  function AfterSend(c: Core, r: RegId, ok: bool): Core
    requires r < |c.regs|
  {
    var e := c.regs[r].(inFlight := false);
    c.(regs := c.regs[r := if ok then e else e.(claim := SendFailed)])
  }

  /** Drop the pending entry of registration r (publishTracked, finishAsync and retryMessage all do). */
  function Deregister(c: Core, r: RegId): Core
    requires r < |c.regs|
  {
    c.(index := DeleteFrom(c.index, c.regs[r].id, c.regs[r].key))
  }

  function StopTimerOf(c: Core, r: RegId): Core
    requires r < |c.regs|
  {
    c.(regs := c.regs[r := c.regs[r].StopTimer()])
  }

  /** gen.published++. */
  function CountAccepted(c: Core, gen: nat): Core
    requires 1 <= gen <= |c.gens|
  {
    c.(gens := c.gens[gen - 1 := c.gens[gen - 1].(published := c.gens[gen - 1].published + 1)])
  }

  /** failOrphans marks the generation dead before it sweeps. */
  function MarkDead(c: Core, gen: nat): Core
    requires 1 <= gen <= |c.gens|
  {
    c.(gens := c.gens[gen - 1 := c.gens[gen - 1].(dead := true)])
  }

  /** failOrphans' walk over one shard: the generation's entries found there. */
  ghost function OrphansInShard(cfg: Config, c: Core, gen: nat, shard: nat): set<RegId>
    requires IndexInRange(c)
  {
    set id | id in c.index.byId && ShardOfId(cfg.hash, id) == shard && c.regs[c.index.byId[id]].gen == gen :: c.index.byId[id]
  }

  /** installConfirmGenerationLocked. */
  function Install(c: Core): Core {
    c.(gens := c.gens + [Generation(0, false)], genCounter := c.genCounter + 1, current := c.genCounter + 1)
  }

  /** What one message's state says after finishAsync or retryMessage moved on. */
  function SetWork(c: Core, r: RegId, work: Work): Core
    requires r < |c.regs|
  {
    c.(regs := c.regs[r := c.regs[r].(work := work)])
  }

  /** retryMessage's section under pending.mu: count the attempt, or give up. */
  function BeginRetry(cfg: Config, c: Core, r: RegId): Core
    requires r < |c.regs|
  {
    var e := c.regs[r].(retryCount := c.regs[r].retryCount + 1);
    c.(regs := c.regs[r := e.(work := if e.retryCount > cfg.maxRetryAttempts then Cleanup else RetryWaiting)])
  }

  /** A future publish may use tag t of generation g. */
  predicate IsFuture(c: Core, g: nat, t: nat) {
    1 <= g < GENERATION_SPAN && t < TAG_SPAN && (if g <= |c.gens| then t > c.gens[g - 1].published else t > 0)
  }

  predicate KeyFree(c: Core, g: nat, t: nat) {
    DeliveryKey(g, t) !in c.index.byKey
  }

  /** No key that a future publish of this publisher will use is taken. */
  ghost predicate FutureKeysFree(c: Core) {
    && 1 <= c.current <= |c.gens|
    && forall g: nat, t: nat {:trigger KeyFree(c, g, t)} | IsFuture(c, g, t) :: KeyFree(c, g, t)
  }
}
