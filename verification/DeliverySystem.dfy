/**
 Every interleaving of a publisher with its broker: one action per lock-delimited
 section of publisher.go, per goroutine step, per timer event and per broker event.
 History (what the channel accepted, what the broker answered, which callbacks ran)
 is kept beside the publisher's own bookkeeping so that its claims can be checked
 against what really happened.
 */
module DeliverySystem {
  import opened DeliveryKeys
  import opened PendingMap
  import opened DeliveryCore

  /** failOrphans: not begun, or walking from shard `next` with `found` still to be settled. */
  datatype Sweep = NotStarted | Sweeping(next: nat, found: set<RegId>)

  /**
   The broker's side of one confirm channel. `log` lists the registrations whose
   send the channel accepted; the broker numbers them 1, 2, 3, ... itself.
   */
  datatype Channel = Channel(open: bool, log: seq<RegId>,
                             answers: map<nat, bool>, answersRead: set<nat>,
                             bounced: set<nat>, bouncedRead: set<nat>, sweep: Sweep)

  const FRESH_CHANNEL := Channel(true, [], map[], {}, {}, {}, NotStarted)

  datatype AttemptError = PublisherClosed | ChannelClosed | ContextDone | DuplicateId | SendError(channelError: bool)

  /** Where one call of publishWithDeliveryAssurance stands in its retry loop. */
  datatype CallState =
    | Ready
    | InAttempt
    | AttemptFailed(error: AttemptError)
    | ReturnedNil(reg: RegId)
    | ReturnedError
    | ErrorSignalled(signal: nat)   // a failed retry republish told options.Callback
    | ErrorSilent                   // a failed retry republish had no options.Callback to tell

  /** `parent` is the nacked registration a retry republishes; a user's own call has none. */
  datatype Call = Call(root: nat, parent: int, id: MessageId, mandatory: bool, ownCallback: bool,
                       retry: nat, attempts: nat, state: CallState)
  {
    predicate IsRoot() { parent < 0 }
  }

  /** Who ran a callback, for which user call, and with what outcome. */
  datatype Source = FromReg(reg: RegId) | FromCall(call: nat)
  datatype Signal = Signal(source: Source, root: nat, outcome: Outcome)

  /** The holder of publishMu, by position in publishTracked. */
  datatype Holder =
    | Free
    | Checked(call: nat, gen: nat)
    | Stored(reg: RegId)
    | Counted(reg: RegId)
    | Sent(reg: RegId, ok: bool)
    | FailDelete(reg: RegId, channelError: bool)
    | FailStop(reg: RegId, channelError: bool)
    | FailUncount(reg: RegId, channelError: bool)
    | SendOk(reg: RegId, orphan: bool, timeout: bool)
    | Deferred(reg: RegId, orphan: bool, timeout: bool)

  /** The holder of refreshMu, by position in refreshConfirmChannelOpt. */
  datatype Refresher = NoRefresh | Locked(failed: nat) | Opened(failed: nat) | Prepared(failed: nat)

  /**
   `strays` are the keys of refused attempts whose timers fired before they could be stopped
   and still have to run. `misfires` are the keys under which a timer has run although the
   attempt that armed it had been given up.
   */
  datatype State = State(core: Core, chans: seq<Channel>, holder: Holder, refresher: Refresher, toClose: set<nat>,
                         calls: seq<Call>, signals: seq<Signal>, strays: multiset<nat>, misfires: set<nat>,
                         opens: nat, discards: nat, overtakes: nat, barrier: bool)

  /** publishWithDeliveryAssurance and publishTracked. */
  datatype PublishAction =
    | NewCall(id: MessageId, mandatory: bool, ownCallback: bool)
    | BeginAttempt(call: nat, contextDone: bool)
    | RegisterAttempt(fired: bool)   // whether the attempt's timer fired before a refusal could stop it
    | CountAttempt
    | WireSend(ok: bool)
    | SendReturned(channelError: bool)
    | DeleteFailed
    | StopFailed
    | UncountFailed
    | CountSent
    | SettleDeferred
    | RetryAttempt(call: nat)
    | ReturnError(call: nat)

  /** The broker, the wire, and the two readers of a generation. */
  datatype BrokerAction =
    | ChannelDies(gen: nat)
    | BrokerAnswers(gen: nat, tag: nat, ack: bool)
    | BrokerReturns(gen: nat, tag: nat)
    | ReadConfirm(gen: nat, tag: nat)
    | ReadReturn(gen: nat, tag: nat)

  /** Timers firing and their functions running. A stray timeout is one of a refused attempt. */
  datatype TimerAction =
    | FireDelivery(reg: RegId)
    | FireGrace(reg: RegId)
    | RunDelivery(reg: RegId)
    | RunGrace(reg: RegId)
    | StrayTimeout(key: nat)

  /** failOrphans. */
  datatype SweepAction =
    | StartSweep(gen: nat)
    | SweepShard(gen: nat)
    | SweepSettle(gen: nat, reg: RegId)

  /** finishAsync and retryMessage. */
  datatype FinishAction =
    | RunCleanup(reg: RegId)
    | RunCallback(reg: RegId)
    | RunRetry(reg: RegId)
    | Republish(reg: RegId)
    | RetryErrorCallback(call: nat)

  /** refreshConfirmChannelOpt and Close. */
  datatype ChannelAction =
    | LockRefresh(failed: nat)
    | OpenChannel(ok: bool)
    | PrepareChannel(ok: bool)
    | InstallChannel
    | CloseOld(gen: nat)
    | BeginClose
    | PassBarrier
    | StopTimerOnClose(reg: RegId)

  datatype Action =
    | Publishing(publish: PublishAction)
    | Broker(broker: BrokerAction)
    | Timers(timer: TimerAction)
    | Orphans(sweep: SweepAction)
    | Finishing(finish: FinishAction)
    | Channels(channel: ChannelAction)

  /** initDeliveryAssurance leaves one open generation and nothing else. */
  function Init(): State {
    State(Core([], EMPTY_INDEX, Stats(0, 0, 0, 0, 0, 0), [Generation(0, false)], 1, 1, false),
          [FRESH_CHANNEL], Free, NoRefresh, {}, [], [], multiset{}, {}, 0, 0, 0, false)
  }

  predicate IsReg(s: State, r: RegId) { r < |s.core.regs| }
  predicate IsGen(s: State, g: nat) { 1 <= g <= |s.chans| }
  predicate IsCall(s: State, c: nat) { c < |s.calls| }

  // ---- what really happened to a registration --------------------------------------

  /** Registration r is filed in the pending map. */
  ghost predicate Filed(s: State, r: RegId) {
    && IsReg(s, r)
    && s.core.regs[r].id in s.core.index.byId
    && s.core.index.byId[s.core.regs[r].id] == r
  }

  /** The channel accepted r's send, under exactly the tag r was registered with. */
  ghost predicate Accepted(s: State, r: RegId) {
    && IsReg(s, r)
    && var e := s.core.regs[r];
    && IsGen(s, e.gen)
    && 1 <= e.tag <= |s.chans[e.gen - 1].log|
    && s.chans[e.gen - 1].log[e.tag - 1] == r
  }

  /** The broker answered r's own tag on r's own channel with `ack`, and the reader has read it. */
  ghost predicate Answered(s: State, r: RegId, ack: bool) {
    && Accepted(s, r)
    && var e := s.core.regs[r];
    && var ch := s.chans[e.gen - 1];
    && e.tag in ch.answers && ch.answers[e.tag] == ack && e.tag in ch.answersRead
  }

  ghost predicate WasReturned(s: State, r: RegId) {
    && Accepted(s, r)
    && s.core.regs[r].tag in s.chans[s.core.regs[r].gen - 1].bounced
  }

  predicate ChannelError(e: AttemptError) {
    e.ChannelClosed? || (e.SendError? && e.channelError)
  }

  /** The publisher's own tables are in step with the channels. */
  ghost predicate WellFormed(s: State) {
    IndexInRange(s.core) && |s.core.gens| == |s.chans|
  }

  ghost predicate PublishEnabled(cfg: Config, s: State, a: PublishAction) {
    match a
    case NewCall(_, _, _) => true
    case BeginAttempt(c, _) => IsCall(s, c) && s.calls[c].state.Ready? && s.holder.Free? && IsGen(s, s.core.current)
    case RegisterAttempt(_) => s.holder.Checked? && IsCall(s, s.holder.call) && IsGen(s, s.holder.gen)
    case CountAttempt => s.holder.Stored?
    case WireSend(ok) => s.holder.Counted? && IsReg(s, s.holder.reg) && IsGen(s, s.core.regs[s.holder.reg].gen)
                         && (ok ==> s.chans[s.core.regs[s.holder.reg].gen - 1].open)
    case SendReturned(_) => s.holder.Sent? && IsReg(s, s.holder.reg)
    case DeleteFailed => s.holder.FailDelete? && IsReg(s, s.holder.reg)
    case StopFailed => s.holder.FailStop? && IsReg(s, s.holder.reg)
    case UncountFailed => s.holder.FailUncount? && IsReg(s, s.holder.reg) && IsCall(s, s.core.regs[s.holder.reg].call)
    case CountSent => s.holder.SendOk? && IsReg(s, s.holder.reg) && IsGen(s, s.core.regs[s.holder.reg].gen)
    case SettleDeferred => s.holder.Deferred? && IsReg(s, s.holder.reg) && IsCall(s, s.core.regs[s.holder.reg].call)
    case RetryAttempt(c) => IsCall(s, c) && s.calls[c].state.AttemptFailed? && ChannelError(s.calls[c].state.error)
                            && cfg.autoReconnect
                            && (cfg.maxConnectionRetries == 0 || s.calls[c].attempts < cfg.maxConnectionRetries)
    case ReturnError(c) => IsCall(s, c) && s.calls[c].state.AttemptFailed?
  }

  ghost predicate BrokerEnabled(s: State, a: BrokerAction) {
    match a
    case ChannelDies(g) => IsGen(s, g)
    case BrokerAnswers(g, t, _) => IsGen(s, g) && 1 <= t <= |s.chans[g - 1].log| && t !in s.chans[g - 1].answers
    case BrokerReturns(g, t) => IsGen(s, g) && 1 <= t <= |s.chans[g - 1].log| && IsReg(s, s.chans[g - 1].log[t - 1])
                                && s.core.regs[s.chans[g - 1].log[t - 1]].mandatory
    case ReadConfirm(g, t) => IsGen(s, g) && t in s.chans[g - 1].answers && t !in s.chans[g - 1].answersRead
                              && s.chans[g - 1].sweep.NotStarted?
    case ReadReturn(g, t) => IsGen(s, g) && t in s.chans[g - 1].bounced && t !in s.chans[g - 1].bouncedRead
                             && s.chans[g - 1].sweep.NotStarted?
                             && 1 <= t <= |s.chans[g - 1].log| && IsReg(s, s.chans[g - 1].log[t - 1])
                             && s.core.regs[s.chans[g - 1].log[t - 1]].mandatory
  }

  ghost predicate TimerEnabled(s: State, a: TimerAction) {
    match a
    case FireDelivery(r) => IsReg(s, r) && s.core.regs[r].delivery.Armed?
    case FireGrace(r) => IsReg(s, r) && s.core.regs[r].grace.Armed?
    case RunDelivery(r) => IsReg(s, r) && s.core.regs[r].delivery.Fired?
    case RunGrace(r) => IsReg(s, r) && s.core.regs[r].grace.Fired?
    case StrayTimeout(key) => key in s.strays
  }

  ghost predicate SweepEnabled(s: State, a: SweepAction) {
    match a
    case StartSweep(g) => IsGen(s, g) && s.chans[g - 1].sweep.NotStarted? && !s.chans[g - 1].open && !s.core.closed
    case SweepShard(g) => IsGen(s, g) && s.chans[g - 1].sweep.Sweeping? && s.chans[g - 1].sweep.next < NUM_SHARDS
    case SweepSettle(g, r) => IsGen(s, g) && IsReg(s, r) && s.chans[g - 1].sweep.Sweeping?
                              && s.chans[g - 1].sweep.next == NUM_SHARDS && r in s.chans[g - 1].sweep.found
  }

  ghost predicate FinishEnabled(s: State, a: FinishAction) {
    match a
    case RunCleanup(r) => IsReg(s, r) && s.core.regs[r].work.Cleanup?
    case RunCallback(r) => IsReg(s, r) && s.core.regs[r].work.Callback? && IsCall(s, s.core.regs[r].call)
                           && s.core.regs[r].claim.Settled?
    case RunRetry(r) => IsReg(s, r) && s.core.regs[r].work.RetryQueued?
    case Republish(r) => IsReg(s, r) && s.core.regs[r].work.RetryWaiting? && IsCall(s, s.core.regs[r].call)
    case RetryErrorCallback(c) => IsCall(s, c) && s.calls[c].state.ReturnedError? && !s.calls[c].IsRoot()
  }

  ghost predicate ChannelEnabled(s: State, a: ChannelAction) {
    match a
    case LockRefresh(failed) => s.refresher.NoRefresh? && !s.core.closed && s.core.current == failed
    case OpenChannel(_) => s.refresher.Locked?
    case PrepareChannel(_) => s.refresher.Opened?
    case InstallChannel => s.refresher.Prepared? && s.holder.Free?
    case CloseOld(g) => IsGen(s, g) && g in s.toClose
    case BeginClose => true
    case PassBarrier => s.core.closed && s.holder.Free?
    case StopTimerOnClose(r) => s.core.closed && IsReg(s, r)
  }

  /** Only what the program's own control flow and the broker's numbering demand. */
  ghost predicate Enabled(cfg: Config, s: State, a: Action) {
    && WellFormed(s)
    && match a
    case Publishing(p) => PublishEnabled(cfg, s, p)
    case Broker(x) => BrokerEnabled(s, x)
    case Timers(x) => TimerEnabled(s, x)
    case Orphans(x) => SweepEnabled(s, x)
    case Finishing(x) => FinishEnabled(s, x)
    case Channels(x) => ChannelEnabled(s, x)
  }

  /** The key layout's limits: 2^24 generations, 2^40 publishes on each. */
  ghost predicate WithinLimits(s: State, a: Action) {
    match a
    case Publishing(RegisterAttempt(_)) =>
      s.holder.Checked? && 1 <= s.holder.gen <= |s.core.gens| ==> s.core.gens[s.holder.gen - 1].published + 1 < TAG_SPAN
    case Channels(InstallChannel) => s.core.genCounter + 1 < GENERATION_SPAN
    case _ => true
  }

  /** Two calls, counting those a retry makes, use this message ID. */
  ghost predicate IdIsShared(s: State, id: MessageId) {
    exists c: nat, c': nat :: IsCall(s, c) && IsCall(s, c') && c != c' && s.calls[c].id == id == s.calls[c'].id
  }

  /** If an undecided message is filed under this ID, the broker did return that message. */
  ghost predicate ReturnIsMeant(s: State, id: MessageId)
    requires WellFormed(s)
  {
    id in s.core.index.byId && s.core.regs[s.core.index.byId[id]].claim.Unclaimed? ==> WasReturned(s, s.core.index.byId[id])
  }

  /** A return frame carries a message ID only. If that ID is shared, it means the message now filed under it. */
  ghost predicate ReturnsAreMeant(s: State, a: Action)
    requires WellFormed(s)
  {
    match a
    case Broker(ReadReturn(g, t)) =>
      IsGen(s, g) && 1 <= t <= |s.chans[g - 1].log| && IsReg(s, s.chans[g - 1].log[t - 1]) ==>
        var id := s.core.regs[s.chans[g - 1].log[t - 1]].id;
        IdIsShared(s, id) ==> ReturnIsMeant(s, id)
    case _ => true
  }

  ghost predicate Environment(s: State, a: Action)
    requires WellFormed(s)
  {
    WithinLimits(s, a) && ReturnsAreMeant(s, a)
  }

  function SetCall(s: State, c: nat, st: CallState): seq<Call>
    requires IsCall(s, c)
  {
    s.calls[c := s.calls[c].(state := st)]
  }

  function SetChan(s: State, g: nat, ch: Channel): seq<Channel>
    requires IsGen(s, g)
  {
    s.chans[g - 1 := ch]
  }

  /** publishTracked up to its last check before registering. */
  function Begin(s: State, c: nat, contextDone: bool): State
    requires IsCall(s, c) && IsGen(s, s.core.current)
  {
    if s.core.closed then s.(calls := SetCall(s, c, AttemptFailed(PublisherClosed)))
    else if !s.chans[s.core.current - 1].open then s.(calls := SetCall(s, c, AttemptFailed(ChannelClosed)))
    else if contextDone then s.(calls := SetCall(s, c, AttemptFailed(ContextDone)))
    else s.(calls := SetCall(s, c, InAttempt), holder := Checked(c, s.core.current))
  }

  /** The attempt is refused and its timer stopped, unless it has fired already. */
  function Refuse(s: State, error: AttemptError, fired: bool): State
    requires s.holder.Checked? && IsCall(s, s.holder.call) && 1 <= s.holder.gen <= |s.core.gens|
  {
    s.(holder := Free, calls := SetCall(s, s.holder.call, AttemptFailed(error)),
       strays := if fired then s.strays + multiset{DeliveryKey(s.holder.gen, s.core.gens[s.holder.gen - 1].published + 1)} else s.strays)
  }

  function DoRegister(s: State, fired: bool): State
    requires s.holder.Checked? && IsCall(s, s.holder.call) && 1 <= s.holder.gen <= |s.core.gens|
  {
    var c := s.holder.call;
    var call := s.calls[c];
    match Register(s.core, c, call.id, call.mandatory, s.holder.gen, call.retry)
    case (_, GenerationDead) => Refuse(s, ChannelClosed, fired)
    case (_, Duplicate) => Refuse(s, DuplicateId, fired)
    case (core, Registered(r)) => s.(core := core, holder := Stored(r))
  }

  function DoSendReturned(s: State, channelError: bool): State
    requires s.holder.Sent? && IsReg(s, s.holder.reg)
  {
    var r := s.holder.reg;
    var e := s.core.regs[r];
    s.(core := AfterSend(s.core, r, s.holder.ok),
       holder := if s.holder.ok then SendOk(r, e.orphanDeferred, DeferredTimeout(e)) else FailDelete(r, channelError))
  }

  function DoSettleDeferred(cfg: Config, s: State): State
    requires IndexInRange(s.core)
    requires s.holder.Deferred? && IsReg(s, s.holder.reg) && IsCall(s, s.core.regs[s.holder.reg].call)
  {
    var r := s.holder.reg;
    var core := if s.holder.orphan then SettleOrphan(cfg, s.core, r)
                else if s.holder.timeout then HandleTimeout(cfg, s.core, s.core.regs[r].key)
                else s.core;
    s.(core := core, holder := Free, calls := SetCall(s, s.core.regs[r].call, ReturnedNil(r)))
  }

  function DoReadConfirm(cfg: Config, s: State, g: nat, t: nat): State
    requires IndexInRange(s.core) && IsGen(s, g) && t in s.chans[g - 1].answers
  {
    var ch := s.chans[g - 1];
    s.(core := HandleConfirmation(cfg, s.core, g, t, ch.answers[t]),
       chans := SetChan(s, g, ch.(answersRead := ch.answersRead + {t})))
  }

  function DoReadReturn(cfg: Config, s: State, g: nat, t: nat): State
    requires IndexInRange(s.core) && IsGen(s, g)
    requires 1 <= t <= |s.chans[g - 1].log| && IsReg(s, s.chans[g - 1].log[t - 1])
  {
    var ch := s.chans[g - 1];
    s.(core := HandleReturn(cfg, s.core, s.core.regs[ch.log[t - 1]].id),
       chans := SetChan(s, g, ch.(bouncedRead := ch.bouncedRead + {t})))
  }

  function DoInstall(s: State): State
    requires s.refresher.Prepared?
  {
    if s.core.closed then s.(refresher := NoRefresh, discards := s.discards + 1)
    else if s.core.current != s.refresher.failed then
      s.(refresher := NoRefresh, discards := s.discards + 1, overtakes := s.overtakes + 1)
    else s.(core := Install(s.core), chans := s.chans + [FRESH_CHANNEL], refresher := NoRefresh,
            toClose := s.toClose + {s.core.current})
  }

  function DoRepublish(s: State, r: RegId): State
    requires IsReg(s, r) && IsCall(s, s.core.regs[r].call)
  {
    var e := s.core.regs[r];
    var prior := s.calls[e.call];
    s.(core := SetWork(Deregister(s.core, r), r, Retried(|s.calls|)),
       calls := s.calls + [Call(prior.root, r, prior.id, prior.mandatory, prior.ownCallback, e.retryCount, 0, Ready)])
  }

  ghost function PublishStep(cfg: Config, s: State, a: PublishAction): State
    requires WellFormed(s) && PublishEnabled(cfg, s, a)
  {
    match a
    case NewCall(id, mandatory, own) =>
      s.(calls := s.calls + [Call(|s.calls|, -1, id, mandatory, own, 0, 0, Ready)])
    case BeginAttempt(c, contextDone) => Begin(s, c, contextDone)
    case RegisterAttempt(fired) => DoRegister(s, fired)
    case CountAttempt => s.(core := CountPublished(s.core, 1), holder := Counted(s.holder.reg))
    case WireSend(ok) =>
      var g := s.core.regs[s.holder.reg].gen;
      var s' := s.(holder := Sent(s.holder.reg, ok));
      if ok then s'.(chans := SetChan(s, g, s.chans[g - 1].(log := s.chans[g - 1].log + [s.holder.reg]))) else s'
    case SendReturned(channelError) => DoSendReturned(s, channelError)
    case DeleteFailed => s.(core := Deregister(s.core, s.holder.reg), holder := FailStop(s.holder.reg, s.holder.channelError))
    case StopFailed => s.(core := StopTimerOf(s.core, s.holder.reg), holder := FailUncount(s.holder.reg, s.holder.channelError))
    case UncountFailed =>
      s.(core := CountPublished(s.core, -1), holder := Free,
         calls := SetCall(s, s.core.regs[s.holder.reg].call, AttemptFailed(SendError(s.holder.channelError))))
    case CountSent =>
      s.(core := CountAccepted(s.core, s.core.regs[s.holder.reg].gen),
         holder := Deferred(s.holder.reg, s.holder.orphan, s.holder.timeout))
    case SettleDeferred => DoSettleDeferred(cfg, s)
    case RetryAttempt(c) => s.(calls := s.calls[c := s.calls[c].(state := Ready, attempts := s.calls[c].attempts + 1)])
    case ReturnError(c) => s.(calls := SetCall(s, c, ReturnedError))
  }

  ghost function BrokerStep(cfg: Config, s: State, a: BrokerAction): State
    requires WellFormed(s) && BrokerEnabled(s, a)
  {
    match a
    case ChannelDies(g) => s.(chans := SetChan(s, g, s.chans[g - 1].(open := false)))
    case BrokerAnswers(g, t, ack) =>
      s.(chans := SetChan(s, g, s.chans[g - 1].(answers := s.chans[g - 1].answers[t := ack])))
    case BrokerReturns(g, t) => s.(chans := SetChan(s, g, s.chans[g - 1].(bounced := s.chans[g - 1].bounced + {t})))
    case ReadConfirm(g, t) => DoReadConfirm(cfg, s, g, t)
    case ReadReturn(g, t) => DoReadReturn(cfg, s, g, t)
  }

  ghost function TimerStep(cfg: Config, s: State, a: TimerAction): State
    requires WellFormed(s) && TimerEnabled(s, a)
  {
    match a
    case FireDelivery(r) => s.(core := Update(s.core, r, s.core.regs[r].(delivery := Fired)))
    case FireGrace(r) => s.(core := Update(s.core, r, s.core.regs[r].(grace := Fired)))
    case RunDelivery(r) =>
      s.(core := HandleTimeout(cfg, Update(s.core, r, s.core.regs[r].(delivery := Spent)), s.core.regs[r].key),
         misfires := if s.core.regs[r].claim.SendFailed? then s.misfires + {s.core.regs[r].key} else s.misfires)
    case RunGrace(r) =>
      s.(core := HandleGraceExpired(cfg, Update(s.core, r, s.core.regs[r].(grace := Spent)), s.core.regs[r].key))
    case StrayTimeout(key) =>
      s.(core := HandleTimeout(cfg, s.core, key), strays := s.strays - multiset{key}, misfires := s.misfires + {key})
  }

  ghost function SweepStep(cfg: Config, s: State, a: SweepAction): State
    requires WellFormed(s) && SweepEnabled(s, a)
  {
    match a
    case StartSweep(g) =>
      s.(core := MarkDead(s.core, g), chans := SetChan(s, g, s.chans[g - 1].(sweep := Sweeping(0, {}))))
    case SweepShard(g) =>
      var sw := s.chans[g - 1].sweep;
      s.(chans := SetChan(s, g, s.chans[g - 1].(
           sweep := Sweeping(sw.next + 1, sw.found + OrphansInShard(cfg, s.core, g, sw.next)))))
    case SweepSettle(g, r) =>
      var sw := s.chans[g - 1].sweep;
      s.(core := SettleOrphan(cfg, s.core, r),
         chans := SetChan(s, g, s.chans[g - 1].(sweep := sw.(found := sw.found - {r}))))
  }

  ghost function FinishStep(cfg: Config, s: State, a: FinishAction): State
    requires WellFormed(s) && FinishEnabled(s, a)
  {
    match a
    case RunCleanup(r) => s.(core := SetWork(Deregister(s.core, r), r, Callback))
    case RunCallback(r) =>
      var e := s.core.regs[r];
      s.(core := SetWork(s.core, r, Done(|s.signals|)),
         signals := s.signals + [Signal(FromReg(r), s.calls[e.call].root, OutcomeOf(e.claim.verdict))])
    case RunRetry(r) => s.(core := BeginRetry(cfg, s.core, r))
    case Republish(r) => DoRepublish(s, r)
    case RetryErrorCallback(c) =>
      if s.calls[c].ownCallback then
        s.(calls := SetCall(s, c, ErrorSignalled(|s.signals|)),
           signals := s.signals + [Signal(FromCall(c), s.calls[c].root, DeliveryFailed)])
      else s.(calls := SetCall(s, c, ErrorSilent))
  }

  ghost function ChannelStep(cfg: Config, s: State, a: ChannelAction): State
    requires WellFormed(s) && ChannelEnabled(s, a)
  {
    match a
    case LockRefresh(failed) => s.(refresher := Locked(failed))
    case OpenChannel(ok) =>
      if ok then s.(refresher := Opened(s.refresher.failed), opens := s.opens + 1) else s.(refresher := NoRefresh)
    case PrepareChannel(ok) =>
      if s.core.closed || !ok then s.(refresher := NoRefresh, discards := s.discards + 1)
      else s.(refresher := Prepared(s.refresher.failed))
    case InstallChannel => DoInstall(s)
    case CloseOld(g) => s.(chans := SetChan(s, g, s.chans[g - 1].(open := false)), toClose := s.toClose - {g})
    case BeginClose => s.(core := s.core.(closed := true))
    case PassBarrier => s.(barrier := true)
    case StopTimerOnClose(r) => s.(core := StopTimerOf(s.core, r))
  }

  ghost function Step(cfg: Config, s: State, a: Action): State
    requires Enabled(cfg, s, a)
  {
    match a
    case Publishing(x) => PublishStep(cfg, s, x)
    case Broker(x) => BrokerStep(cfg, s, x)
    case Timers(x) => TimerStep(cfg, s, x)
    case Orphans(x) => SweepStep(cfg, s, x)
    case Finishing(x) => FinishStep(cfg, s, x)
    case Channels(x) => ChannelStep(cfg, s, x)
  }

  /** An execution: each state follows from the one before by an enabled action, within the limits of the keys. */
  ghost predicate IsExecution(cfg: Config, run: seq<State>, acts: seq<Action>) {
    && |run| == |acts| + 1
    && run[0] == Init()
    && forall i {:trigger acts[i]} | 0 <= i < |acts| ::
         Enabled(cfg, run[i], acts[i]) && WithinLimits(run[i], acts[i]) && run[i + 1] == Step(cfg, run[i], acts[i])
  }

  /**
   A run: an execution in which return frames are meant wherever message IDs are shared.
   Callers can make every execution a run: see CallerDiscipline.CarefulIsRun.
   */
  ghost predicate IsRun(cfg: Config, run: seq<State>, acts: seq<Action>) {
    && IsExecution(cfg, run, acts)
    && forall i {:trigger acts[i]} | 0 <= i < |acts| :: ReturnsAreMeant(run[i], acts[i])
  }
}
