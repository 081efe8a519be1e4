/**
 A publisher left to itself comes to rest: every sequence of its own actions is finite, and
 where it cannot be continued nothing is running, armed or waiting.
 */
module DeliveryProgress {
  import opened PendingMap
  import opened DeliveryCore
  import opened DeliverySystem
  import opened DeliveryInvariant
  import opened DeliveryTheorems
  import opened PreservePublish
  import opened PreserveRest

  /** A call does not try to reconnect for ever. */
  predicate ReconnectsAreBounded(cfg: Config) {
    cfg.autoReconnect ==> cfg.maxConnectionRetries > 0
  }

  // ---- how much is still to be done ----------------------------------------------------------

  function TimerWeight(t: Timer): nat {
    match t
    case Armed => 2
    case Fired => 1
    case _ => 0
  }

  /** The attempts a call has left after `used` of them. */
  function AttemptsLeft(cfg: Config, used: nat): nat {
    if cfg.autoReconnect && used < cfg.maxConnectionRetries then cfg.maxConnectionRetries - used else 0
  }

  function ReadyWeight(cfg: Config, used: nat): nat { 17 + 16 * AttemptsLeft(cfg, used) }

  function WorkWeight(cfg: Config, w: Work): nat {
    match w
    case NoWork => 3
    case Cleanup => 2
    case Callback => 1
    case Done(_) => 0
    case RetryQueued => ReadyWeight(cfg, 0) + 2
    case RetryWaiting => ReadyWeight(cfg, 0) + 1
    case Retried(_) => 0
  }

  function EntryWeight(cfg: Config, e: Entry): nat {
    TimerWeight(e.delivery) + TimerWeight(e.grace) + WorkWeight(cfg, e.work)
  }

  function CallWeight(cfg: Config, call: Call): nat {
    match call.state
    case Ready => ReadyWeight(cfg, call.attempts)
    case InAttempt => 2 + 16 * AttemptsLeft(cfg, call.attempts)
    case AttemptFailed(_) => 2 + 16 * AttemptsLeft(cfg, call.attempts)
    case ReturnedError => 1
    case _ => 0
  }

  function HolderWeight(h: Holder): nat {
    match h
    case Free => 0
    case Checked(_, _) => 14
    case Stored(_) => 8
    case Counted(_) => 7
    case Sent(_, _) => 6
    case FailDelete(_, _) => 5
    case FailStop(_, _) => 4
    case FailUncount(_, _) => 3
    case SendOk(_, _, _) => 5
    case Deferred(_, _, _) => 4
  }

  function EntriesWeight(cfg: Config, regs: seq<Entry>): nat {
    if regs == [] then 0 else EntriesWeight(cfg, regs[..|regs| - 1]) + EntryWeight(cfg, regs[|regs| - 1])
  }

  function CallsWeight(cfg: Config, calls: seq<Call>): nat {
    if calls == [] then 0 else CallsWeight(cfg, calls[..|calls| - 1]) + CallWeight(cfg, calls[|calls| - 1])
  }

  /** What messages, calls and the holder of publishMu have still to do. */
  function Errands(cfg: Config, s: State): nat {
    EntriesWeight(cfg, s.core.regs) + CallsWeight(cfg, s.calls) + HolderWeight(s.holder)
  }

  /** No more messages than this will ever have been registered, if nobody calls. */
  function Room(cfg: Config, s: State): nat { |s.core.regs| + Errands(cfg, s) }

  /** What a walk over n more shards may find, with `room` messages in all. */
  function ShardsWeight(n: nat, room: nat): nat {
    if n == 0 then 0 else ShardsWeight(n - 1, room) + room + 1
  }

  function SweepWeight(sw: Sweep, room: nat): nat {
    match sw
    case NotStarted => ShardsWeight(NUM_SHARDS, room) + 1
    case Sweeping(next, found) => ShardsWeight(if next < NUM_SHARDS then NUM_SHARDS - next else 0, room) + |found|
  }

  function SweepsWeight(chans: seq<Channel>, room: nat): nat {
    if chans == [] then 0 else SweepsWeight(chans[..|chans| - 1], room) + SweepWeight(chans[|chans| - 1].sweep, room)
  }

  function Weight(cfg: Config, s: State): nat {
    Errands(cfg, s) + |s.strays| + SweepsWeight(s.chans, Room(cfg, s))
  }

  lemma {:induction false} EntriesWeightUpdate(cfg: Config, regs: seq<Entry>, r: nat, e: Entry)
    requires r < |regs|
    ensures EntriesWeight(cfg, regs[r := e]) == EntriesWeight(cfg, regs) - EntryWeight(cfg, regs[r]) + EntryWeight(cfg, e)
  {
    var n := |regs| - 1;
    if r < n {
      assert regs[r := e][..n] == regs[..n][r := e];
      EntriesWeightUpdate(cfg, regs[..n], r, e);
    } else {
      assert regs[r := e][..n] == regs[..n];
    }
  }

  lemma {:induction false} CallsWeightUpdate(cfg: Config, calls: seq<Call>, c: nat, call: Call)
    requires c < |calls|
    ensures CallsWeight(cfg, calls[c := call]) == CallsWeight(cfg, calls) - CallWeight(cfg, calls[c]) + CallWeight(cfg, call)
  {
    var n := |calls| - 1;
    if c < n {
      assert calls[c := call][..n] == calls[..n][c := call];
      CallsWeightUpdate(cfg, calls[..n], c, call);
    } else {
      assert calls[c := call][..n] == calls[..n];
    }
  }

  lemma CallsWeightAppend(cfg: Config, calls: seq<Call>, call: Call)
    ensures CallsWeight(cfg, calls + [call]) == CallsWeight(cfg, calls) + CallWeight(cfg, call)
  {
    assert (calls + [call])[..|calls|] == calls;
  }

  lemma EntriesWeightAppend(cfg: Config, regs: seq<Entry>, e: Entry)
    ensures EntriesWeight(cfg, regs + [e]) == EntriesWeight(cfg, regs) + EntryWeight(cfg, e)
  {
    assert (regs + [e])[..|regs|] == regs;
  }

  // ---- every action of its own leaves less ---------------------------------------------------------

  /** An undecided message has no goroutine yet. */
  predicate IdleUntilClaimed(e: Entry) { e.claim.Unclaimed? ==> e.work.NoWork? }

  /** A timer's function adds no work, nor do the sweep's settlement and the stopping of a timer. */
  lemma HandlersAddNothing(cfg: Config, e: Entry)
    requires IdleUntilClaimed(e)
    ensures EntryWeight(cfg, TimeOut(cfg, e)) <= EntryWeight(cfg, e)
    ensures EntryWeight(cfg, GraceExpired(cfg, e)) <= EntryWeight(cfg, e)
  {
  }

  lemma OrphansAddNothing(cfg: Config, e: Entry)
    requires IdleUntilClaimed(e)
    ensures EntryWeight(cfg, Orphan(cfg, e)) <= EntryWeight(cfg, e)
    ensures EntryWeight(cfg, e.StopTimer()) <= EntryWeight(cfg, e)
  {
  }

  ghost predicate AllIdleUntilClaimed(regs: seq<Entry>) {
    forall r {:trigger regs[r]} | 0 <= r < |regs| :: IdleUntilClaimed(regs[r])
  }

  lemma InvIsIdle(cfg: Config, s: State)
    requires Inv(cfg, s)
    ensures AllIdleUntilClaimed(s.core.regs)
  {
    forall r | 0 <= r < |s.core.regs| ensures IdleUntilClaimed(s.core.regs[r]) {
      assert EntryOk(cfg, s, r);
    }
  }

  lemma TimeoutAddsNothing(cfg: Config, c: Core, key: nat)
    requires IndexInRange(c) && AllIdleUntilClaimed(c.regs)
    ensures EntriesWeight(cfg, HandleTimeout(cfg, c, key).regs) <= EntriesWeight(cfg, c.regs)
    ensures EntriesWeight(cfg, HandleGraceExpired(cfg, c, key).regs) <= EntriesWeight(cfg, c.regs)
  {
    if key in c.index.byKey {
      var r := c.index.byKey[key];
      HandlersAddNothing(cfg, c.regs[r]);
      EntriesWeightUpdate(cfg, c.regs, r, TimeOut(cfg, c.regs[r]));
      EntriesWeightUpdate(cfg, c.regs, r, GraceExpired(cfg, c.regs[r]));
    }
  }

  lemma FiringEnds(cfg: Config, s: State, a: TimerAction)
    requires WellFormed(s) && TimerEnabled(s, a) && (a.FireDelivery? || a.FireGrace?)
    ensures Errands(cfg, TimerStep(cfg, s, a)) < Errands(cfg, s)
  {
    var e := s.core.regs[a.reg];
    EntriesWeightUpdate(cfg, s.core.regs, a.reg, if a.FireDelivery? then e.(delivery := Fired) else e.(grace := Fired));
  }

  lemma RunningEnds(cfg: Config, s: State, a: TimerAction)
    requires WellFormed(s) && TimerEnabled(s, a) && (a.RunDelivery? || a.RunGrace?) && AllIdleUntilClaimed(s.core.regs)
    ensures Errands(cfg, TimerStep(cfg, s, a)) < Errands(cfg, s)
  {
    var e := s.core.regs[a.reg];
    var e' := if a.RunDelivery? then e.(delivery := Spent) else e.(grace := Spent);
    EntriesWeightUpdate(cfg, s.core.regs, a.reg, e');
    var c := Update(s.core, a.reg, e');
    assert AllIdleUntilClaimed(c.regs);
    TimeoutAddsNothing(cfg, c, e.key);
  }

  lemma CallStateEnds(cfg: Config, s: State, s': State, c: nat, st: CallState)
    requires IsCall(s, c) && s'.calls == s.calls[c := s.calls[c].(state := st)] && s'.core.regs == s.core.regs
    requires CallWeight(cfg, s.calls[c].(state := st)) + HolderWeight(s'.holder) < CallWeight(cfg, s.calls[c]) + HolderWeight(s.holder)
    ensures Errands(cfg, s') < Errands(cfg, s)
  {
    CallsWeightUpdate(cfg, s.calls, c, s.calls[c].(state := st));
  }

  lemma BeginningEnds(cfg: Config, s: State, c: nat, contextDone: bool)
    requires WellFormed(s) && PublishEnabled(cfg, s, BeginAttempt(c, contextDone))
    ensures Errands(cfg, Begin(s, c, contextDone)) < Errands(cfg, s)
  {
    CallStateEnds(cfg, s, Begin(s, c, contextDone), c, Begin(s, c, contextDone).calls[c].state);
  }

  lemma FailedAttemptEnds(cfg: Config, s: State, a: PublishAction)
    requires WellFormed(s) && PublishEnabled(cfg, s, a) && ReconnectsAreBounded(cfg) && (a.RetryAttempt? || a.ReturnError?)
    ensures Errands(cfg, PublishStep(cfg, s, a)) < Errands(cfg, s)
  {
    CallsWeightUpdate(cfg, s.calls, a.call, PublishStep(cfg, s, a).calls[a.call]);
  }

  lemma RefusingEnds(cfg: Config, s: State, error: AttemptError, fired: bool)
    requires s.holder.Checked? && IsCall(s, s.holder.call) && 1 <= s.holder.gen <= |s.core.gens| && s.calls[s.holder.call].state.InAttempt?
    ensures var s' := Refuse(s, error, fired);
            && Errands(cfg, s') + |s'.strays| < Errands(cfg, s) + |s.strays| && Room(cfg, s') <= Room(cfg, s)
  {
    CallsWeightUpdate(cfg, s.calls, s.holder.call, s.calls[s.holder.call].(state := AttemptFailed(error)));
  }

  lemma StoringEnds(cfg: Config, s: State, s': State, e: Entry)
    requires s.holder.Checked? && s'.holder.Stored? && s'.calls == s.calls && s'.core.regs == s.core.regs + [e]
    requires e.delivery.Armed? && e.grace.NoTimer? && e.work.NoWork?
    ensures Errands(cfg, s') < Errands(cfg, s) && Room(cfg, s') <= Room(cfg, s)
  {
    EntriesWeightAppend(cfg, s.core.regs, e);
  }

  lemma RegisteringEnds(cfg: Config, s: State, fired: bool)
    requires s.holder.Checked? && IsCall(s, s.holder.call) && 1 <= s.holder.gen <= |s.core.gens| && s.calls[s.holder.call].state.InAttempt?
    ensures var s' := DoRegister(s, fired);
            && Errands(cfg, s') + |s'.strays| < Errands(cfg, s) + |s.strays| && Room(cfg, s') <= Room(cfg, s)
  {
    var s' := DoRegister(s, fired);
    if s'.holder.Stored? {
      StoringEnds(cfg, s, s', s'.core.regs[|s.core.regs|]);
    } else {
      RefusingEnds(cfg, s, s'.calls[s.holder.call].state.error, fired);
    }
  }

  /** Steps of the send that touch neither message nor call. */
  predicate MovesOn(a: PublishAction) { a.CountAttempt? || a.WireSend? || a.DeleteFailed? || a.CountSent? }

  lemma MovingOnEnds(cfg: Config, s: State, a: PublishAction)
    requires WellFormed(s) && PublishEnabled(cfg, s, a) && MovesOn(a)
    ensures Errands(cfg, PublishStep(cfg, s, a)) < Errands(cfg, s)
  {
  }

  lemma ReturningEnds(cfg: Config, s: State, channelError: bool)
    requires s.holder.Sent? && IsReg(s, s.holder.reg)
    ensures Errands(cfg, DoSendReturned(s, channelError)) < Errands(cfg, s)
  {
    EntriesWeightUpdate(cfg, s.core.regs, s.holder.reg, DoSendReturned(s, channelError).core.regs[s.holder.reg]);
  }

  lemma StoppingEnds(cfg: Config, s: State)
    requires WellFormed(s) && PublishEnabled(cfg, s, StopFailed)
    ensures Errands(cfg, PublishStep(cfg, s, StopFailed)) < Errands(cfg, s)
  {
    EntriesWeightUpdate(cfg, s.core.regs, s.holder.reg, s.core.regs[s.holder.reg].StopTimer());
  }

  lemma UncountingEnds(cfg: Config, s: State)
    requires WellFormed(s) && PublishEnabled(cfg, s, UncountFailed) && s.calls[s.core.regs[s.holder.reg].call].state.InAttempt?
    ensures Errands(cfg, PublishStep(cfg, s, UncountFailed)) < Errands(cfg, s)
  {
    var c := s.core.regs[s.holder.reg].call;
    CallsWeightUpdate(cfg, s.calls, c, s.calls[c].(state := AttemptFailed(SendError(s.holder.channelError))));
  }

  /** What publishTracked settles itself adds no work. */
  lemma SettlingAddsNothing(cfg: Config, c: Core, r: RegId, orphan: bool, timeout: bool)
    requires IndexInRange(c) && AllIdleUntilClaimed(c.regs) && r < |c.regs|
    ensures EntriesWeight(cfg, SettledDeferred(cfg, c, r, orphan, timeout).regs) <= EntriesWeight(cfg, c.regs)
  {
    if orphan {
      OrphansAddNothing(cfg, c.regs[r]);
      EntriesWeightUpdate(cfg, c.regs, r, Orphan(cfg, c.regs[r]));
    } else if timeout {
      TimeoutAddsNothing(cfg, c, c.regs[r].key);
    }
  }

  lemma SettlingEnds(cfg: Config, s: State)
    requires WellFormed(s) && PublishEnabled(cfg, s, SettleDeferred) && AllIdleUntilClaimed(s.core.regs)
    ensures Errands(cfg, DoSettleDeferred(cfg, s)) < Errands(cfg, s)
  {
    var r := s.holder.reg;
    var c := s.core.regs[r].call;
    SettlingAddsNothing(cfg, s.core, r, s.holder.orphan, s.holder.timeout);
    CallsWeightUpdate(cfg, s.calls, c, s.calls[c].(state := ReturnedNil(r)));
  }

  lemma HolderIsInAttempt(cfg: Config, s: State)
    requires Inv(cfg, s) && HolderCall(s) >= 0
    ensures IsCall(s, HolderCall(s)) && s.calls[HolderCall(s)].state.InAttempt?
  {
    if HolderReg(s.holder) >= 0 { assert EntryOk(cfg, s, HolderReg(s.holder)); }
    assert CallOk(cfg, s, HolderCall(s));
  }

  lemma SendEnds(cfg: Config, s: State, a: PublishAction)
    requires Inv(cfg, s) && WellFormed(s) && PublishEnabled(cfg, s, a)
    requires a.SendReturned? || a.StopFailed? || a.UncountFailed? || a.SettleDeferred?
    ensures Errands(cfg, PublishStep(cfg, s, a)) < Errands(cfg, s)
  {
    InvIsIdle(cfg, s);
    HolderIsInAttempt(cfg, s);
    match a
    case SendReturned(channelError) => ReturningEnds(cfg, s, channelError);
    case StopFailed => StoppingEnds(cfg, s);
    case UncountFailed => UncountingEnds(cfg, s);
    case SettleDeferred => SettlingEnds(cfg, s);
  }

  /** What an action leaves to do when it moves no sweep: less, and no more to sweep. */
  ghost predicate LeavesLess(cfg: Config, s: State, s': State) {
    && Errands(cfg, s') + |s'.strays| < Errands(cfg, s) + |s.strays| && Room(cfg, s') <= Room(cfg, s)
    && SameSweeps(s.chans, s'.chans)
  }

  ghost predicate SameSweeps(chans: seq<Channel>, chans': seq<Channel>) {
    |chans'| == |chans| && forall g {:trigger chans'[g]} | 0 <= g < |chans| :: chans'[g].sweep == chans[g].sweep
  }

  /** No message is registered, no timer left behind, no sweep moved. */
  ghost predicate NothingElse(s: State, s': State) {
    |s'.core.regs| == |s.core.regs| && s'.strays == s.strays && SameSweeps(s.chans, s'.chans)
  }

  lemma SendMovesNothingElse(cfg: Config, s: State, a: PublishAction)
    requires WellFormed(s) && PublishEnabled(cfg, s, a) && !a.NewCall? && !a.RegisterAttempt? && !a.SettleDeferred?
    ensures NothingElse(s, PublishStep(cfg, s, a))
  {
  }

  lemma SettlingMovesNothingElse(cfg: Config, s: State)
    requires WellFormed(s) && PublishEnabled(cfg, s, SettleDeferred)
    ensures NothingElse(s, DoSettleDeferred(cfg, s))
  {
    TimersMoveNoMessage(cfg, s.core, s.core.regs[s.holder.reg].key);
  }

  lemma ErrandsEnd(cfg: Config, s: State, a: PublishAction)
    requires Inv(cfg, s) && WellFormed(s) && PublishEnabled(cfg, s, a) && ReconnectsAreBounded(cfg) && !a.NewCall? && !a.RegisterAttempt?
    ensures Errands(cfg, PublishStep(cfg, s, a)) < Errands(cfg, s)
  {
    match a
    case BeginAttempt(c, contextDone) => BeginningEnds(cfg, s, c, contextDone);
    case RetryAttempt(_) => FailedAttemptEnds(cfg, s, a);
    case ReturnError(_) => FailedAttemptEnds(cfg, s, a);
    case _ => if MovesOn(a) { MovingOnEnds(cfg, s, a); } else { SendEnds(cfg, s, a); }
  }

  lemma PublishingEnds(cfg: Config, s: State, a: PublishAction)
    requires Inv(cfg, s) && WellFormed(s) && PublishEnabled(cfg, s, a) && ReconnectsAreBounded(cfg) && !a.NewCall?
    ensures LeavesLess(cfg, s, PublishStep(cfg, s, a))
  {
    if a.RegisterAttempt? {
      HolderIsInAttempt(cfg, s);
      RegisteringEnds(cfg, s, a.fired);
    } else {
      ErrandsEnd(cfg, s, a);
      if a.SettleDeferred? { SettlingMovesNothingElse(cfg, s); } else { SendMovesNothingElse(cfg, s, a); }
    }
  }

  lemma TimersMoveNoMessage(cfg: Config, c: Core, key: nat)
    requires IndexInRange(c)
    ensures |HandleTimeout(cfg, c, key).regs| == |c.regs| == |HandleGraceExpired(cfg, c, key).regs|
  {
  }

  lemma GoroutineEnds(cfg: Config, s: State, s': State, r: RegId)
    requires IsReg(s, r) && IsReg(s', r) && s'.core.regs == s.core.regs[r := s.core.regs[r].(work := s'.core.regs[r].work, retryCount := s'.core.regs[r].retryCount)]
    requires WorkWeight(cfg, s'.core.regs[r].work) < WorkWeight(cfg, s.core.regs[r].work)
    requires s'.calls == s.calls && s'.holder == s.holder
    ensures Errands(cfg, s') < Errands(cfg, s)
  {
    EntriesWeightUpdate(cfg, s.core.regs, r, s'.core.regs[r]);
  }

  lemma RepublishingEnds(cfg: Config, s: State, r: RegId)
    requires WellFormed(s) && FinishEnabled(s, Republish(r))
    ensures Errands(cfg, DoRepublish(s, r)) < Errands(cfg, s)
  {
    EntriesWeightUpdate(cfg, s.core.regs, r, s.core.regs[r].(work := Retried(|s.calls|)));
    CallsWeightAppend(cfg, s.calls, DoRepublish(s, r).calls[|s.calls|]);
  }

  lemma ReportingEnds(cfg: Config, s: State, c: nat)
    requires WellFormed(s) && FinishEnabled(s, RetryErrorCallback(c))
    ensures Errands(cfg, FinishStep(cfg, s, RetryErrorCallback(c))) < Errands(cfg, s)
  {
    CallsWeightUpdate(cfg, s.calls, c, FinishStep(cfg, s, RetryErrorCallback(c)).calls[c]);
  }

  lemma FinishingEnds(cfg: Config, s: State, a: FinishAction)
    requires WellFormed(s) && FinishEnabled(s, a)
    ensures Errands(cfg, FinishStep(cfg, s, a)) < Errands(cfg, s)
  {
    match a
    case RetryErrorCallback(c) => ReportingEnds(cfg, s, c);
    case Republish(r) => RepublishingEnds(cfg, s, r);
    case RunCleanup(r) => GoroutineEnds(cfg, s, FinishStep(cfg, s, a), r);
    case RunCallback(r) => GoroutineEnds(cfg, s, FinishStep(cfg, s, a), r);
    case RunRetry(r) => GoroutineEnds(cfg, s, FinishStep(cfg, s, a), r);
  }

  // ---- sweeps -----------------------------------------------------------------------------------------

  lemma {:induction false} ShardsWeightGrows(n: nat, room: nat, room': nat)
    requires room' <= room
    ensures ShardsWeight(n, room') <= ShardsWeight(n, room)
  {
    if n > 0 { ShardsWeightGrows(n - 1, room, room'); }
  }

  lemma SweepWeightGrows(sw: Sweep, room: nat, room': nat)
    requires room' <= room
    ensures SweepWeight(sw, room') <= SweepWeight(sw, room)
  {
    ShardsWeightGrows(if sw.NotStarted? then NUM_SHARDS else if sw.next < NUM_SHARDS then NUM_SHARDS - sw.next else 0, room, room');
  }

  /** Sweeps that stay where they are weigh no more with less room. */
  lemma {:induction false} SweepsStay(chans: seq<Channel>, chans': seq<Channel>, room: nat, room': nat)
    requires room' <= room && SameSweeps(chans, chans')
    ensures SweepsWeight(chans', room') <= SweepsWeight(chans, room)
  {
    if chans != [] {
      var n := |chans| - 1;
      assert chans'[n].sweep == chans[n].sweep;
      SweepsStay(chans[..n], chans'[..n], room, room');
      SweepWeightGrows(chans[n].sweep, room, room');
    }
  }

  /** And if one of them moves on, less. */
  lemma {:induction false} OneSweepMoves(chans: seq<Channel>, g: nat, ch: Channel, room: nat, room': nat)
    requires room' <= room && g < |chans| && SweepWeight(ch.sweep, room) < SweepWeight(chans[g].sweep, room)
    ensures SweepsWeight(chans[g := ch], room') < SweepsWeight(chans, room)
  {
    var n := |chans| - 1;
    if g < n {
      assert chans[g := ch][..n] == chans[..n][g := ch];
      OneSweepMoves(chans[..n], g, ch, room, room');
      SweepWeightGrows(chans[n].sweep, room, room');
    } else {
      assert chans[g := ch][..n] == chans[..n];
      SweepsStay(chans[..n], chans[..n], room, room');
      SweepWeightGrows(ch.sweep, room, room');
    }
  }

  /** A walk over one shard finds no more entries than there are messages. */
  lemma ShardIsSmall(cfg: Config, c: Core, gen: nat, shard: nat)
    requires IndexInRange(c)
    ensures |OrphansInShard(cfg, c, gen, shard)| <= |c.regs|
  {
    NumberedBelow(OrphansInShard(cfg, c, gen, shard), (r: RegId) => r, |c.regs|);
  }

  lemma ShardWalked(cfg: Config, s: State, g: nat, room: nat)
    requires WellFormed(s) && SweepEnabled(s, SweepShard(g)) && |s.core.regs| <= room
    ensures var sw := s.chans[g - 1].sweep;
            SweepWeight(Sweeping(sw.next + 1, sw.found + OrphansInShard(cfg, s.core, g, sw.next)), room) < SweepWeight(sw, room)
  {
    var sw := s.chans[g - 1].sweep;
    var more := OrphansInShard(cfg, s.core, g, sw.next);
    ShardIsSmall(cfg, s.core, g, sw.next);
    assert sw.found + more == sw.found + (more - sw.found);
    assert |sw.found + more| <= |sw.found| + |more|;
  }

  lemma SweepMoves(cfg: Config, s: State, a: SweepAction, room: nat)
    requires WellFormed(s) && SweepEnabled(s, a) && |s.core.regs| <= room
    ensures IsGen(s, a.gen) && |SweepStep(cfg, s, a).chans| == |s.chans|
    ensures SweepStep(cfg, s, a).chans == s.chans[a.gen - 1 := SweepStep(cfg, s, a).chans[a.gen - 1]]
    ensures SweepWeight(SweepStep(cfg, s, a).chans[a.gen - 1].sweep, room) < SweepWeight(s.chans[a.gen - 1].sweep, room)
  {
    if a.SweepShard? { ShardWalked(cfg, s, a.gen, room); }
  }

  lemma SweepingEnds(cfg: Config, s: State, a: SweepAction)
    requires WellFormed(s) && SweepEnabled(s, a) && AllIdleUntilClaimed(s.core.regs)
    ensures Weight(cfg, SweepStep(cfg, s, a)) < Weight(cfg, s)
  {
    var s' := SweepStep(cfg, s, a);
    if a.SweepSettle? {
      OrphansAddNothing(cfg, s.core.regs[a.reg]);
      EntriesWeightUpdate(cfg, s.core.regs, a.reg, Orphan(cfg, s.core.regs[a.reg]));
    }
    assert Errands(cfg, s') <= Errands(cfg, s) && |s'.core.regs| == |s.core.regs| && s'.strays == s.strays;
    SweepMoves(cfg, s, a, Room(cfg, s));
    OneSweepMoves(s.chans, a.gen - 1, s'.chans[a.gen - 1], Room(cfg, s), Room(cfg, s'));
  }

  // ---- every internal action ------------------------------------------------------------------------------

  lemma LessIsLess(cfg: Config, s: State, s': State)
    requires LeavesLess(cfg, s, s')
    ensures Weight(cfg, s') < Weight(cfg, s)
  {
    SweepsStay(s.chans, s'.chans, Room(cfg, s), Room(cfg, s'));
  }

  lemma TimersEnd(cfg: Config, s: State, a: TimerAction)
    requires WellFormed(s) && TimerEnabled(s, a) && AllIdleUntilClaimed(s.core.regs)
    ensures LeavesLess(cfg, s, TimerStep(cfg, s, a))
  {
    match a
    case RunDelivery(r) =>
      RunningEnds(cfg, s, a);
      TimersMoveNoMessage(cfg, Update(s.core, r, s.core.regs[r].(delivery := Spent)), s.core.regs[r].key);
    case RunGrace(r) =>
      RunningEnds(cfg, s, a);
      TimersMoveNoMessage(cfg, Update(s.core, r, s.core.regs[r].(grace := Spent)), s.core.regs[r].key);
    case StrayTimeout(key) =>
      TimeoutAddsNothing(cfg, s.core, key);
      TimersMoveNoMessage(cfg, s.core, key);
    case _ => FiringEnds(cfg, s, a);
  }

  /** Every action of the publisher's own leaves it less to do. */
  lemma InternalEnds(cfg: Config, s: State, a: Action)
    requires Inv(cfg, s) && Enabled(cfg, s, a) && IsInternal(a) && ReconnectsAreBounded(cfg)
    ensures Weight(cfg, Step(cfg, s, a)) < Weight(cfg, s)
  {
    InvIsIdle(cfg, s);
    match a
    case Orphans(x) => SweepingEnds(cfg, s, x);
    case Publishing(x) =>
      PublishingEnds(cfg, s, x);
      LessIsLess(cfg, s, Step(cfg, s, a));
    case Timers(x) =>
      TimersEnd(cfg, s, x);
      LessIsLess(cfg, s, Step(cfg, s, a));
    case Finishing(x) =>
      FinishingEnds(cfg, s, x);
      LessIsLess(cfg, s, Step(cfg, s, a));
  }

  // ---- the publisher comes to rest -------------------------------------------------------------------

  /** Quiescent, with no timer of a refused attempt left to run, and every channel that has died swept. */
  ghost predicate AtRest(s: State) {
    && Quiescent(s) && s.strays == multiset{}
    && forall g {:trigger SweepIsOver(s, g)} | IsGen(s, g) :: SweepIsOver(s, g)
  }

  predicate SweepIsOver(s: State, g: nat) {
    IsGen(s, g) && match s.chans[g - 1].sweep
                   case NotStarted => s.chans[g - 1].open || s.core.closed
                   case Sweeping(next, found) => next == NUM_SHARDS && found == {}
  }

  lemma SweepCanMove(cfg: Config, s: State, g: nat) returns (a: SweepAction)
    requires SweepsOk(cfg, s) && IsGen(s, g) && !SweepIsOver(s, g)
    ensures SweepEnabled(s, a)
  {
    assert SweepOk(cfg, s, g);
    var sw := s.chans[g - 1].sweep;
    if sw.NotStarted? {
      a := StartSweep(g);
    } else if sw.next < NUM_SHARDS {
      a := SweepShard(g);
    } else {
      var r :| r in sw.found;
      assert OnGeneration(s, g, r);
      a := SweepSettle(g, r);
    }
  }

  /** A publisher that is not at rest can go on by itself, whatever the broker does. */
  lemma CanMove(cfg: Config, s: State) returns (a: Action)
    requires Inv(cfg, s) && !AtRest(s)
    ensures Enabled(cfg, s, a) && IsInternal(a)
  {
    if !Quiescent(s) {
      a := NotQuiescentCanMove(cfg, s);
    } else {
      InvIsWellFormed(cfg, s);
      if s.strays != multiset{} {
        var key :| key in s.strays;
        a := Timers(StrayTimeout(key));
      } else {
        var g: nat :| IsGen(s, g) && !SweepIsOver(s, g);
        var x := SweepCanMove(cfg, s, g);
        a := Orphans(x);
      }
    }
  }

  lemma InvIsWellFormed(cfg: Config, s: State)
    requires Inv(cfg, s)
    ensures WellFormed(s)
  {
  }

  /** The publisher acts on its own, the broker and its callers doing nothing new. */
  ghost predicate LeftAlone(cfg: Config, run: seq<State>, acts: seq<Action>) {
    && |run| == |acts| + 1
    && forall i {:trigger acts[i]} | 0 <= i < |acts| ::
         IsInternal(acts[i]) && Enabled(cfg, run[i], acts[i]) && Environment(run[i], acts[i]) && run[i + 1] == Step(cfg, run[i], acts[i])
  }

  lemma AllButLast(cfg: Config, run: seq<State>, acts: seq<Action>, n: nat)
    requires LeftAlone(cfg, run, acts) && |acts| == n + 1
    ensures LeftAlone(cfg, run[..n + 1], acts[..n])
  {
    forall i {:trigger acts[..n][i]} | 0 <= i < n
      ensures IsInternal(acts[..n][i]) && Enabled(cfg, run[..n + 1][i], acts[..n][i]) && Environment(run[..n + 1][i], acts[..n][i])
              && run[..n + 1][i + 1] == Step(cfg, run[..n + 1][i], acts[..n][i]) {
      assert acts[..n][i] == acts[i];
    }
  }

  lemma LastLightens(cfg: Config, run: seq<State>, acts: seq<Action>, n: nat)
    requires LeftAlone(cfg, run, acts) && |acts| == n + 1 && Inv(cfg, run[n]) && ReconnectsAreBounded(cfg)
    ensures Inv(cfg, run[n + 1]) && Weight(cfg, run[n + 1]) < Weight(cfg, run[n])
  {
    assert run[n + 1] == Step(cfg, run[n], acts[n]);
    InternalEnds(cfg, run[n], acts[n]);
    StepPreserves(cfg, run[n], acts[n]);
  }

  lemma AtRestOrMoves(cfg: Config, s: State)
    requires Inv(cfg, s)
    ensures AtRest(s) || exists a :: Enabled(cfg, s, a) && IsInternal(a)
  {
    if !AtRest(s) { var a := CanMove(cfg, s); }
  }

  /**
   Left to itself from any reachable state, the publisher makes no more than Weight actions;
   and as long as it is not at rest it can make another one.
   */
  lemma {:induction false} ComesToRest(cfg: Config, run: seq<State>, acts: seq<Action>)
    requires LeftAlone(cfg, run, acts) && Inv(cfg, run[0]) && ReconnectsAreBounded(cfg)
    ensures Inv(cfg, run[|acts|]) && |acts| + Weight(cfg, run[|acts|]) <= Weight(cfg, run[0])
    ensures AtRest(run[|acts|]) || exists a :: Enabled(cfg, run[|acts|], a) && IsInternal(a)
  {
    if acts != [] {
      var n := |acts| - 1;
      AllButLast(cfg, run, acts, n);
      ComesToRest(cfg, run[..n + 1], acts[..n]);
      LastLightens(cfg, run, acts, n);
    }
    AtRestOrMoves(cfg, run[|acts|]);
  }
}
