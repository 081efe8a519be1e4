/**
 What holds between any two steps of the delivery system.
 */
module DeliveryInvariant {
  import opened DeliveryKeys
  import opened PendingMap
  import opened DeliveryCore
  import opened DeliverySystem

  // ---- vocabulary -------------------------------------------------------------

  /** The registration the holder of publishMu is working on, or -1. */
  function HolderReg(h: Holder): int {
    match h
    case Free => -1
    case Checked(_, _) => -1
    case Stored(r) => r
    case Counted(r) => r
    case Sent(r, _) => r
    case FailDelete(r, _) => r
    case FailStop(r, _) => r
    case FailUncount(r, _) => r
    case SendOk(r, _, _) => r
    case Deferred(r, _, _) => r
  }

  /** The call that holds publishMu, or -1. */
  function HolderCall(s: State): int {
    if s.holder.Checked? then s.holder.call
    else if 0 <= HolderReg(s.holder) < |s.core.regs| then s.core.regs[HolderReg(s.holder)].call
    else -1
  }

  /** The send of r has not returned. */
  predicate InSend(h: Holder, r: RegId) {
    (h.Stored? || h.Counted? || h.Sent?) && HolderReg(h) == r
  }

  /** The send of r has not been accepted by the channel, and has not been given up either. */
  predicate NotSent(h: Holder, r: RegId) {
    (h.Stored? || h.Counted? || (h.Sent? && !h.ok)) && HolderReg(h) == r
  }

  predicate Failing(h: Holder) {
    h.FailDelete? || h.FailStop? || h.FailUncount?
  }

  /** publishTracked has read the deferral flags of r and will settle it itself. */
  predicate WillSettle(h: Holder, r: RegId) {
    (h.SendOk? || h.Deferred?) && h.reg == r && (h.orphan || h.timeout)
  }

  /** Everything the rest of the system knows that bears on one registration. */
  datatype Facts = Facts(
    inSend: bool, notSent: bool, deleting: bool, willSettle: bool,             // where the holder of publishMu is
    accepted: bool, acked: bool, refused: bool, bounced: bool, dead: bool,     // what happened on its channel
    misfired: bool, filed: bool, closed: bool)

  ghost function FactsOf(s: State, r: RegId): Facts
    requires IsReg(s, r)
  {
    Facts(InSend(s.holder, r), NotSent(s.holder, r), s.holder.FailDelete? && s.holder.reg == r, WillSettle(s.holder, r),
          Accepted(s, r), Answered(s, r, true), Answered(s, r, false), WasReturned(s, r),
          1 <= s.core.regs[r].gen <= |s.core.gens| && s.core.gens[s.core.regs[r].gen - 1].dead,
          s.core.regs[r].key in s.misfires, Filed(s, r), s.core.closed)
  }

  /** Something is still going to decide the message. */
  predicate Covered(e: Entry, f: Facts) {
    if e.confirmed then e.grace.Live() else e.delivery.Live() || (e.inFlight && e.timeoutDeferred) || f.willSettle
  }

  /** The pending map must hold the message exactly in these cases. */
  predicate ShouldBeFiled(e: Entry, f: Facts) {
    match e.claim
    case Unclaimed => true
    case SendFailed => f.deleting
    case Settled(_) => e.work.Cleanup? || e.work.RetryQueued? || e.work.RetryWaiting?
  }

  /** The sweep of r's generation has nothing more to do for r. */
  ghost predicate Swept(s: State, r: RegId)
    requires IsReg(s, r)
  {
    var e := s.core.regs[r];
    e.Claimed() || e.confirmed || (e.orphanDeferred && (e.inFlight || ((s.holder.SendOk? || s.holder.Deferred?) && s.holder.reg == r && s.holder.orphan)))
  }

  predicate Retrying(w: Work) { w.RetryQueued? || w.RetryWaiting? || w.Retried? }

  /** The number of registrations with this claim. */
  function CountOf(regs: seq<Entry>, claim: Claim): nat {
    if regs == [] then 0
    else CountOf(regs[..|regs| - 1], claim) + if regs[|regs| - 1].claim == claim then 1 else 0
  }

  /** The number of registrations nobody has claimed. */
  function CountUnclaimed(regs: seq<Entry>): nat { CountOf(regs, Unclaimed) }

  // ---- the invariant, by part ---------------------------------------------------

  /** Registration r is filed under its message ID and under its key. */
  ghost predicate FiledTwice(regs: seq<Entry>, index: Index, r: RegId) {
    && r < |regs|
    && regs[r].id in index.byId && index.byId[regs[r].id] == r
    && regs[r].key in index.byKey && index.byKey[regs[r].key] == r
  }

  /** Both indexes hold exactly the same entries: the pending map is one map. */
  ghost predicate Consistent(regs: seq<Entry>, index: Index) {
    && (forall id | id in index.byId :: FiledTwice(regs, index, index.byId[id]) && regs[index.byId[id]].id == id)
    && (forall k | k in index.byKey :: FiledTwice(regs, index, index.byKey[k]) && regs[index.byKey[k]].key == k)
  }

  ghost predicate IndexOk(s: State) {
    Consistent(s.core.regs, s.core.index)
  }

  /** Filing a new registration under an unused ID and an unused key keeps the two indexes one map. */
  lemma StoreKeepsConsistent(regs: seq<Entry>, index: Index, e: Entry)
    requires Consistent(regs, index) && e.id !in index.byId && e.key !in index.byKey
    ensures Consistent(regs + [e], StoreIn(index, e.id, e.key, |regs|).0)
  {
    var regs', index' := regs + [e], StoreIn(index, e.id, e.key, |regs|).0;
    forall r: RegId | FiledTwice(regs, index, r) ensures FiledTwice(regs', index', r) && regs'[r] == regs[r] {
    }
    assert FiledTwice(regs', index', |regs|);
  }

  /** What never changes about a registration. */
  ghost predicate IdentityOk(s: State, r: RegId)
    requires IsReg(s, r)
  {
    var e := s.core.regs[r];
    && IsGen(s, e.gen) && e.gen < GENERATION_SPAN
    && 1 <= e.tag < TAG_SPAN
    && e.key == DeliveryKey(e.gen, e.tag)
    && IsCall(s, e.call) && e.id == s.calls[e.call].id && e.mandatory == s.calls[e.call].mandatory
  }

  /** How far the send has got. */
  predicate SendOk(e: Entry, f: Facts) {
    && (f.notSent ==> f.inSend)
    && (f.acked || f.refused || f.bounced ==> f.accepted)
    && (e.inFlight <==> f.inSend)
    && (f.notSent ==> e.claim.Unclaimed? && !f.accepted)
    && (e.claim.SendFailed? ==> !f.accepted && !e.confirmed && !e.nacked && !e.returned)
    && (!e.claim.SendFailed? ==> f.accepted || f.notSent)
  }

  /** What the message has heard is what the broker said; and an undecided one has heard all of it. */
  predicate HeardOk(e: Entry, f: Facts) {
    && (e.confirmed ==> f.acked)
    && (e.nacked ==> f.refused)
    && (e.returned ==> f.bounced)
    && (e.claim.Unclaimed? ==> !e.nacked && !e.returned && !f.refused && (f.acked ==> e.confirmed))
  }

  /** What a claim means. */
  predicate ClaimOk(cfg: Config, e: Entry, f: Facts) {
    && (e.claim.Unclaimed? ==> (e.confirmed ==> e.mandatory))
    && (e.claim == Settled(Confirmed) ==> e.confirmed && (e.mandatory ==> e.grace.Spent?))
    && (e.claim == Settled(Nacked) ==> e.nacked)
    && (e.claim == Settled(Returned) <==> e.returned)
    && (e.claim == Settled(Orphaned) ==> !f.acked && !f.refused)
    && (e.claim == Settled(Orphaned) || e.orphanDeferred ==> f.dead)
    && (e.claim == Settled(TimedOut) || e.timeoutDeferred ==> e.delivery.Spent? || f.misfired)
  }

  /** The goroutine of a claimed message: a nack is retried as long as attempts are left. */
  predicate GoroutineOk(cfg: Config, e: Entry) {
    && (e.claim.Settled? <==> !e.work.NoWork?)
    && (Retrying(e.work) ==> e.claim == Settled(Nacked) && cfg.autoRetries)
    && (e.claim == Settled(Nacked) && !Retrying(e.work) ==> !cfg.autoRetries || e.retryCount >= cfg.maxRetryAttempts)
  }

  /** There is one timer at a time, and none once the message is decided, but for one that timed it out. */
  predicate TimersOk(e: Entry, f: Facts) {
    && (!e.grace.NoTimer? ==> e.confirmed && !e.delivery.Armed?)
    && (e.claim.Settled? && e.claim != Settled(TimedOut) ==> !e.delivery.Armed? && !e.grace.Armed?)
    && (!f.closed && e.claim.Unclaimed? ==> Covered(e, f))
  }

  /** Flags, claim, timers and goroutine of a message agree with each other and with what happened. */
  predicate FlowOk(cfg: Config, e: Entry, f: Facts) {
    && SendOk(e, f) && HeardOk(e, f) && ClaimOk(cfg, e, f) && GoroutineOk(cfg, e) && TimersOk(e, f)
    && (f.filed <==> ShouldBeFiled(e, f))
  }

  /** How a registration hangs together with its call, its successor and its callback. */
  ghost predicate LinksOk(cfg: Config, s: State, r: RegId)
    requires IsReg(s, r) && IsCall(s, s.core.regs[r].call)
  {
    var e := s.core.regs[r];
    var call := s.calls[e.call];
    && (!e.claim.SendFailed? ==> call.state == ReturnedNil(r) || HolderReg(s.holder) == r)
    && e.retryCount == call.retry + (if e.work.RetryWaiting? || e.work.Retried? then 1 else 0)
    && (Retrying(e.work) ==> call.retry < cfg.maxRetryAttempts)
    && (e.work.Retried? ==> IsCall(s, e.work.call) && s.calls[e.work.call].parent == r)
    && (e.work.Done? ==> e.work.signal < |s.signals| && s.signals[e.work.signal].source == FromReg(r))
  }

  ghost predicate EntryOk(cfg: Config, s: State, r: RegId) {
    && IsReg(s, r)
    && IdentityOk(s, r)
    && FlowOk(cfg, s.core.regs[r], FactsOf(s, r))
    && LinksOk(cfg, s, r)
  }

  ghost predicate HolderOk(s: State) {
    && (s.holder.Checked? ==> IsCall(s, s.holder.call) && s.holder.gen == s.core.current)
    && (HolderReg(s.holder) >= 0 ==>
          && IsReg(s, HolderReg(s.holder))
          && var e := s.core.regs[HolderReg(s.holder)];
          && IsGen(s, e.gen)
          && e.gen == s.core.current
          && (NotSent(s.holder, s.holder.reg) ==> e.tag == |s.chans[e.gen - 1].log| + 1)
          && ((s.holder.Sent? && s.holder.ok) || s.holder.SendOk? || s.holder.Deferred? ==>
                Accepted(s, s.holder.reg) && e.tag == |s.chans[e.gen - 1].log|)
          && (Failing(s.holder) ==> e.claim.SendFailed? && e.tag == |s.chans[e.gen - 1].log| + 1)
          && ((s.holder.SendOk? || s.holder.Deferred?) && s.holder.orphan ==> e.orphanDeferred)
          && ((s.holder.SendOk? || s.holder.Deferred?) && s.holder.timeout ==> e.timeoutDeferred))
  }

  ghost predicate CallOk(cfg: Config, s: State, c: nat) {
    && IsCall(s, c)
    && var call := s.calls[c];
    && (call.state.InAttempt? <==> HolderCall(s) == c)
    && (call.state.ReturnedNil? ==> IsReg(s, call.state.reg) && s.core.regs[call.state.reg].call == c
                                    && !s.core.regs[call.state.reg].claim.SendFailed?)
    && (call.IsRoot() ==> call.root == c && call.retry == 0)
    && (!call.IsRoot() ==>
          && IsReg(s, call.parent)
          && var p := s.core.regs[call.parent];
          && p.work == Retried(c)
          && p.call < c
          && call.root == s.calls[p.call].root
          && call.id == s.calls[p.call].id && call.mandatory == s.calls[p.call].mandatory && call.ownCallback == s.calls[p.call].ownCallback
          && call.retry == s.calls[p.call].retry + 1
          && call.retry <= cfg.maxRetryAttempts)
    && (call.state.ErrorSignalled? ==> !call.IsRoot() && call.state.signal < |s.signals|
                                       && s.signals[call.state.signal].source == FromCall(c))
    && (call.state.ErrorSignalled? ==> call.ownCallback)
    && (call.state.ErrorSilent? ==> !call.IsRoot() && !call.ownCallback)
    && (cfg.maxConnectionRetries > 0 ==> call.attempts <= cfg.maxConnectionRetries)
  }

  /** Every callback that ran belongs to a source that remembers it, so no source has two. */
  ghost predicate SignalOk(s: State, i: nat) {
    && i < |s.signals|
    && var sig := s.signals[i];
    match sig.source
    case FromReg(r) =>
      && IsReg(s, r)
      && var e := s.core.regs[r];
      && e.work == Done(i) && e.claim.Settled? && sig.outcome == OutcomeOf(e.claim.verdict)
      && IsCall(s, e.call) && sig.root == s.calls[e.call].root
    case FromCall(c) =>
      && IsCall(s, c)
      && s.calls[c].state == ErrorSignalled(i) && sig.root == s.calls[c].root && sig.outcome == DeliveryFailed
  }

  ghost predicate LogOk(s: State, g: nat, t: nat)
    requires IsGen(s, g) && 1 <= t <= |s.chans[g - 1].log|
  {
    var r := s.chans[g - 1].log[t - 1];
    IsReg(s, r) && s.core.regs[r].gen == g && s.core.regs[r].tag == t
  }

  ghost predicate ChannelOk(s: State, g: nat) {
    && IsGen(s, g) && |s.core.gens| == |s.chans|
    && var ch := s.chans[g - 1];
    && (forall t {:trigger LogOk(s, g, t)} | 1 <= t <= |ch.log| :: LogOk(s, g, t))
    && (forall t | t in ch.answers :: 1 <= t <= |ch.log|)
    && (forall t | t in ch.answersRead :: t in ch.answers)
    && (forall t | t in ch.bounced :: 1 <= t <= |ch.log|)
    && |ch.log| == s.core.gens[g - 1].published +
         (if ((s.holder.Sent? && s.holder.ok) || s.holder.SendOk?) && g == s.core.current then 1 else 0)
    && (s.core.gens[g - 1].dead ==> !ch.open && !ch.sweep.NotStarted?)
    && (ch.sweep.Sweeping? ==> s.core.gens[g - 1].dead)
  }

  /** The walk has either found a filed entry of its generation, or need not. */
  ghost predicate SweepCovers(cfg: Config, s: State, g: nat, r: RegId)
    requires IsGen(s, g)
  {
    var sw := s.chans[g - 1].sweep;
    sw.Sweeping? && Filed(s, r) && s.core.regs[r].gen == g && ShardOfId(cfg.hash, s.core.regs[r].id) < sw.next ==>
      r in sw.found || Swept(s, r)
  }

  predicate OnGeneration(s: State, g: nat, r: RegId) {
    IsReg(s, r) && s.core.regs[r].gen == g
  }

  ghost predicate SweepOk(cfg: Config, s: State, g: nat) {
    && IsGen(s, g)
    && (s.chans[g - 1].sweep.Sweeping? ==>
          && s.chans[g - 1].sweep.next <= NUM_SHARDS
          && (forall r | r in s.chans[g - 1].sweep.found :: OnGeneration(s, g, r)))
    && forall r | IsReg(s, r) :: SweepCovers(cfg, s, g, r)
  }

  ghost predicate RefreshOk(s: State) {
    && s.core.genCounter == s.core.current == |s.core.gens| == |s.chans|
    && 1 <= s.core.genCounter < GENERATION_SPAN
    && (!s.refresher.NoRefresh? ==> s.refresher.failed == s.core.current)
    && s.overtakes == 0
    && s.opens == s.core.genCounter - 1 + s.discards + (if s.refresher.Opened? || s.refresher.Prepared? then 1 else 0)
    && (forall g | g in s.toClose :: 1 <= g < s.core.current)
    && (forall g | 1 <= g < s.core.current :: s.chans[g - 1].open ==> g in s.toClose)
  }

  /** Each counter counts the messages claimed for its outcome. */
  predicate CountersOk(stats: Stats, regs: seq<Entry>) {
    && stats.confirmed == CountOf(regs, Settled(Confirmed))
    && stats.returned == CountOf(regs, Settled(Returned))
    && stats.nacked == CountOf(regs, Settled(Nacked))
    && stats.timedOut == CountOf(regs, Settled(TimedOut))
    && stats.orphaned == CountOf(regs, Settled(Orphaned))
  }

  /** Published minus terminal outcomes is what is still undecided, up to the send in progress. */
  ghost predicate StatsOk(s: State) {
    && CountersOk(s.core.stats, s.core.regs)
    && s.core.stats.published + (if s.holder.Stored? then 1 else 0)
       == s.core.stats.Outcomes() + CountUnclaimed(s.core.regs) + (if Failing(s.holder) then 1 else 0)
  }

  ghost predicate EntriesOk(cfg: Config, s: State) {
    forall r {:trigger EntryOk(cfg, s, r)} | IsReg(s, r) :: EntryOk(cfg, s, r)
  }

  ghost predicate CallsOk(cfg: Config, s: State) {
    forall c {:trigger CallOk(cfg, s, c)} | IsCall(s, c) :: CallOk(cfg, s, c)
  }

  ghost predicate SignalsOk(s: State) {
    forall i {:trigger SignalOk(s, i)} | 0 <= i < |s.signals| :: SignalOk(s, i)
  }

  ghost predicate ChannelsOk(s: State) {
    forall g {:trigger ChannelOk(s, g)} | IsGen(s, g) :: ChannelOk(s, g)
  }

  ghost predicate SweepsOk(cfg: Config, s: State) {
    forall g {:trigger SweepOk(cfg, s, g)} | IsGen(s, g) :: SweepOk(cfg, s, g)
  }

  ghost predicate BarrierOk(s: State) {
    s.barrier ==> s.core.closed && s.holder.Free?
  }

  ghost predicate Inv(cfg: Config, s: State) {
    && RefreshOk(s)
    && IndexOk(s)
    && HolderOk(s)
    && EntriesOk(cfg, s)
    && CallsOk(cfg, s)
    && SignalsOk(s)
    && ChannelsOk(s)
    && SweepsOk(cfg, s)
    && StatsOk(s)
    && BarrierOk(s)
  }

  lemma NothingYet(cfg: Config, s: State)
    requires s == Init()
    ensures EntriesOk(cfg, s) && CallsOk(cfg, s) && SignalsOk(s) && StatsOk(s) && IndexOk(s)
  {
  }

  lemma FirstChannel(cfg: Config, s: State)
    requires s == Init()
    ensures ChannelsOk(s) && SweepsOk(cfg, s) && RefreshOk(s)
  {
  }

  lemma InvInit(cfg: Config)
    ensures Inv(cfg, Init())
  {
    NothingYet(cfg, Init());
    FirstChannel(cfg, Init());
  }
}
