/**
 What the delivery system guarantees, in every state of every run.
 */
module DeliveryTheorems {
  import opened DeliveryKeys
  import opened PendingMap
  import opened DeliveryCore
  import opened DeliverySystem
  import opened DeliveryInvariant
  import opened PreserveHandlers

  // ---- the chain of calls behind one user call -------------------------------------------

  /** A call that has one is waiting for its send, or has returned nil because of it. */
  lemma LiveRegState(cfg: Config, s: State, c: nat, r: RegId)
    requires Inv(cfg, s) && LiveReg(s, c, r)
    ensures IsCall(s, c) && (s.calls[c].state.InAttempt? || s.calls[c].state == ReturnedNil(r))
  {
    assert EntryOk(cfg, s, r);
    assert CallOk(cfg, s, c);
  }

  /** The calls of one user call are told apart by how many retries they have spent. */
  lemma {:induction false} SameSlot(cfg: Config, s: State, c: nat, c': nat)
    requires Inv(cfg, s) && IsCall(s, c) && IsCall(s, c')
    requires s.calls[c].root == s.calls[c'].root && s.calls[c].retry == s.calls[c'].retry
    ensures c == c'
    decreases s.calls[c].retry
  {
    assert CallOk(cfg, s, c) && CallOk(cfg, s, c');
    if s.calls[c].retry > 0 {
      var p, p' := s.calls[c].parent, s.calls[c'].parent;
      assert EntryOk(cfg, s, p) && EntryOk(cfg, s, p');
      SameSlot(cfg, s, s.core.regs[p].call, s.core.regs[p'].call);
      OneLiveReg(cfg, s, s.core.regs[p].call, p, p');
    }
  }

  /** Below a call that has spent retries lies, at each lower count, a call whose registration was retried. */
  lemma {:induction false} Ancestor(cfg: Config, s: State, c: nat, k: nat) returns (a: nat, r: RegId)
    requires Inv(cfg, s) && IsCall(s, c) && k < s.calls[c].retry
    ensures IsCall(s, a) && s.calls[a].root == s.calls[c].root && s.calls[a].retry == k
    ensures LiveReg(s, a, r) && s.core.regs[r].work.Retried?
    decreases s.calls[c].retry
  {
    assert CallOk(cfg, s, c);
    r := s.calls[c].parent;
    assert EntryOk(cfg, s, r);
    a := s.core.regs[r].call;
    if k < s.calls[a].retry {
      a, r := Ancestor(cfg, s, a, k);
    }
  }

  /** The end of a chain: a call with no registration that was republished. */
  ghost predicate IsEnd(s: State, c: nat) {
    IsCall(s, c) && forall r: RegId | LiveReg(s, c, r) :: !s.core.regs[r].work.Retried?
  }

  lemma EndsAreOne(cfg: Config, s: State, c: nat, c': nat)
    requires Inv(cfg, s) && IsEnd(s, c) && IsEnd(s, c') && s.calls[c].root == s.calls[c'].root
    ensures c == c'
  {
    if s.calls[c].retry == s.calls[c'].retry {
      SameSlot(cfg, s, c, c');
    } else {
      var lo, hi := if s.calls[c].retry < s.calls[c'].retry then c else c', if s.calls[c].retry < s.calls[c'].retry then c' else c;
      var a, r := Ancestor(cfg, s, hi, s.calls[lo].retry);
      SameSlot(cfg, s, a, lo);
      assert false;
    }
  }

  /** The call on whose behalf a callback ran. */
  ghost function SourceCall(s: State, i: nat): nat
    requires i < |s.signals| && SignalOk(s, i)
  {
    match s.signals[i].source
    case FromReg(r) => s.core.regs[r].call
    case FromCall(c) => c
  }

  lemma SignalIsEnd(cfg: Config, s: State, i: nat)
    requires Inv(cfg, s) && i < |s.signals|
    ensures SignalOk(s, i) && IsEnd(s, SourceCall(s, i)) && s.calls[SourceCall(s, i)].root == s.signals[i].root
  {
    assert SignalOk(s, i);
    var c := SourceCall(s, i);
    forall r: RegId | LiveReg(s, c, r) ensures !s.core.regs[r].work.Retried? {
      match s.signals[i].source
      case FromReg(r') => OneLiveReg(cfg, s, c, r, r');
      case FromCall(_) => LiveRegState(cfg, s, c, r);
    }
  }

  // ---- exactly one signal -------------------------------------------------------------------

  /** At most one callback runs for one user call, over every retry the publisher makes of it. */
  lemma AtMostOneSignal(cfg: Config, s: State, i: nat, j: nat)
    requires Inv(cfg, s) && i < |s.signals| && j < |s.signals|
    requires s.signals[i].root == s.signals[j].root
    ensures i == j
  {
    SignalIsEnd(cfg, s, i);
    SignalIsEnd(cfg, s, j);
    var c := SourceCall(s, i);
    EndsAreOne(cfg, s, c, SourceCall(s, j));
    match (s.signals[i].source, s.signals[j].source)
    case (FromReg(r), FromReg(r')) => OneLiveReg(cfg, s, c, r, r');
    case (FromReg(r), FromCall(_)) => LiveRegState(cfg, s, c, r);
    case (FromCall(_), FromReg(r)) => LiveRegState(cfg, s, c, r);
    case (FromCall(_), FromCall(_)) =>
  }

  /** A user call that returned an error has run no callback, and none of its sends was accepted or is still filed. */
  lemma ErrorMeansSilence(cfg: Config, s: State, c: nat)
    requires Inv(cfg, s) && IsCall(s, c) && s.calls[c].IsRoot() && s.calls[c].state.ReturnedError?
    ensures forall i | 0 <= i < |s.signals| :: s.signals[i].root != c
    ensures forall r: RegId | IsReg(s, r) && s.core.regs[r].call == c :: !Accepted(s, r) && !Filed(s, r)
  {
    assert CallOk(cfg, s, c);
    forall r: RegId | IsReg(s, r) && s.core.regs[r].call == c
      ensures s.core.regs[r].claim.SendFailed? && !Accepted(s, r) && !Filed(s, r) {
      assert EntryOk(cfg, s, r);
      if LiveReg(s, c, r) { LiveRegState(cfg, s, c, r); }
    }
    forall i | 0 <= i < |s.signals| ensures s.signals[i].root != c {
      if s.signals[i].root == c {
        SignalIsEnd(cfg, s, i);
        assert IsEnd(s, c);
        EndsAreOne(cfg, s, c, SourceCall(s, i));
      }
    }
  }

  /** A call that returned nil had exactly one accepted send; every other attempt of it is deregistered. */
  lemma NilMeansOneAccepted(cfg: Config, s: State, c: nat)
    requires Inv(cfg, s) && IsCall(s, c) && s.calls[c].state.ReturnedNil?
    ensures Accepted(s, s.calls[c].state.reg) && s.core.regs[s.calls[c].state.reg].call == c
    ensures forall r: RegId | IsReg(s, r) && s.core.regs[r].call == c && r != s.calls[c].state.reg ::
              !Accepted(s, r) && !Filed(s, r)
  {
    assert CallOk(cfg, s, c);
    var r0 := s.calls[c].state.reg;
    assert EntryOk(cfg, s, r0);
    forall r: RegId | IsReg(s, r) && s.core.regs[r].call == c && r != r0
      ensures s.core.regs[r].claim.SendFailed? && !Accepted(s, r) && !Filed(s, r) {
      assert EntryOk(cfg, s, r);
      if LiveReg(s, c, r) { OneLiveReg(cfg, s, c, r, r0); }
    }
  }

  /**
   Once a message is claimed, no handler that still finds it changes its claim, its
   goroutine or its timers, nor counts anything: a handler may look a message up, lose the
   race for its lock, and run late without effect.
   */
  lemma ClaimedIsFinal(cfg: Config, c: Core, r: RegId, e': Entry)
    requires r < |c.regs| && c.regs[r].Claimed()
    requires var e := c.regs[r];
             e' in {TryFinalize(cfg, e.(confirmed := true)), TryFinalize(cfg, e.(nacked := true)), TimeOut(cfg, e), GraceExpired(cfg, e), Orphan(cfg, e)}
    ensures e' == c.regs[r].(confirmed := e'.confirmed, nacked := e'.nacked)
    ensures Update(c, r, e').stats == c.stats
  {
  }

  // ---- nothing gets stuck ---------------------------------------------------------------------

  /** While the publisher is open every undecided message has a live timer, or its own send still has to deal with it. */
  lemma NoStuckMessage(cfg: Config, s: State, r: RegId)
    requires Inv(cfg, s) && !s.core.closed && Filed(s, r) && s.core.regs[r].claim.Unclaimed?
    ensures s.core.regs[r].delivery.Live() || s.core.regs[r].grace.Live() || HolderReg(s.holder) == r
    ensures s.core.index.byKey[s.core.regs[r].key] == r
  {
    assert EntryOk(cfg, s, r);
  }

  /** Nothing is running, armed or waiting. */
  ghost predicate Quiescent(s: State) {
    && s.holder.Free?
    && (forall r: RegId | IsReg(s, r) ::
          var e := s.core.regs[r];
          !e.delivery.Live() && !e.grace.Live() && (e.work.NoWork? || e.work.Done? || e.work.Retried?))
    && (forall c: nat | IsCall(s, c) ::
          var st := s.calls[c].state;
          st.ReturnedNil? || (st.ReturnedError? && s.calls[c].IsRoot()) || st.ErrorSignalled? || st.ErrorSilent?)
  }

  /** Then the pending map is empty. */
  lemma QuiescentMapIsEmpty(cfg: Config, s: State)
    requires Inv(cfg, s) && !s.core.closed && Quiescent(s)
    ensures s.core.index == EMPTY_INDEX && CountUnclaimed(s.core.regs) == 0
    ensures s.core.stats.published == s.core.stats.Outcomes()
  {
    forall r: RegId | IsReg(s, r) ensures !Filed(s, r) && s.core.regs[r].Claimed() {
      assert EntryOk(cfg, s, r);
    }
    forall r | FiledTwice(s.core.regs, s.core.index, r) ensures Filed(s, r) {
    }
    NoneUnclaimed(s.core.regs);
  }

  lemma {:induction false} NoneUnclaimed(regs: seq<Entry>)
    requires forall r | 0 <= r < |regs| :: regs[r].Claimed()
    ensures CountOf(regs, Unclaimed) == 0
  {
    if regs != [] { NoneUnclaimed(regs[..|regs| - 1]); }
  }

  /** Actions of the publisher's own goroutines, timers, sweeps and callers under way; not new calls, the broker, refreshes or Close. */
  predicate IsInternal(a: Action) {
    (a.Publishing? && !a.publish.NewCall?) || a.Timers? || a.Orphans? || a.Finishing?
  }

  /** The holder of publishMu can always go on. */
  lemma HolderCanMove(cfg: Config, s: State) returns (a: PublishAction)
    requires Inv(cfg, s) && !s.holder.Free?
    ensures PublishEnabled(cfg, s, a) && !a.NewCall?
  {
    if HolderReg(s.holder) >= 0 { assert EntryOk(cfg, s, HolderReg(s.holder)); }
    match s.holder
    case Checked(_, _) => a := RegisterAttempt(false);
    case Stored(_) => a := CountAttempt;
    case Counted(_) => a := WireSend(false);
    case Sent(_, _) => a := SendReturned(false);
    case FailDelete(_, _) => a := DeleteFailed;
    case FailStop(_, _) => a := StopFailed;
    case FailUncount(_, _) => a := UncountFailed;
    case SendOk(_, _, _) => a := CountSent;
    case Deferred(_, _, _) => a := SettleDeferred;
  }

  /** A message with a live timer or a goroutine under way can always go on. */
  lemma MessageCanMove(cfg: Config, s: State, r: RegId) returns (a: Action)
    requires Inv(cfg, s) && WellFormed(s) && IsReg(s, r)
    requires var e := s.core.regs[r];
             e.delivery.Live() || e.grace.Live() || !(e.work.NoWork? || e.work.Done? || e.work.Retried?)
    ensures Enabled(cfg, s, a) && IsInternal(a)
  {
    var e := s.core.regs[r];
    assert EntryOk(cfg, s, r);
    if e.delivery.Live() {
      a := Timers(if e.delivery.Armed? then FireDelivery(r) else RunDelivery(r));
    } else if e.grace.Live() {
      a := Timers(if e.grace.Armed? then FireGrace(r) else RunGrace(r));
    } else {
      match e.work
      case Cleanup => a := Finishing(RunCleanup(r));
      case Callback => a := Finishing(RunCallback(r));
      case RetryQueued => a := Finishing(RunRetry(r));
      case RetryWaiting => a := Finishing(Republish(r));
    }
  }

  lemma CallCanMove(cfg: Config, s: State, c: nat) returns (a: Action)
    requires Inv(cfg, s) && WellFormed(s) && s.holder.Free? && IsCall(s, c)
    requires var st := s.calls[c].state;
             !(st.ReturnedNil? || (st.ReturnedError? && s.calls[c].IsRoot()) || st.ErrorSignalled? || st.ErrorSilent?)
    ensures Enabled(cfg, s, a) && IsInternal(a)
  {
    assert CallOk(cfg, s, c);
    match s.calls[c].state
    case Ready => a := Publishing(BeginAttempt(c, false));
    case AttemptFailed(_) => a := Publishing(ReturnError(c));
    case ReturnedError => a := Finishing(RetryErrorCallback(c));
  }

  /** A publisher that is not quiescent can always go on by itself, whatever the broker does. */
  lemma NotQuiescentCanMove(cfg: Config, s: State) returns (a: Action)
    requires Inv(cfg, s) && !Quiescent(s)
    ensures Enabled(cfg, s, a) && IsInternal(a)
  {
    if !s.holder.Free? {
      var p := HolderCanMove(cfg, s);
      a := Publishing(p);
    } else if r: RegId :| IsReg(s, r) && (var e := s.core.regs[r];
                e.delivery.Live() || e.grace.Live() || !(e.work.NoWork? || e.work.Done? || e.work.Retried?)) {
      a := MessageCanMove(cfg, s, r);
    } else {
      var c: nat :| IsCall(s, c) && (var st := s.calls[c].state;
                !(st.ReturnedNil? || (st.ReturnedError? && s.calls[c].IsRoot()) || st.ErrorSignalled? || st.ErrorSilent?));
      a := CallCanMove(cfg, s, c);
    }
  }

  /** Following the retries of an accepted call leads to its callback, or to a failed republish nobody was told about. */
  lemma {:induction false} ChainEnds(cfg: Config, s: State, c: nat) returns (e: nat)
    requires Inv(cfg, s) && !s.core.closed && Quiescent(s) && IsCall(s, c)
    requires s.calls[c].IsRoot() ==> s.calls[c].state.ReturnedNil?
    ensures IsCall(s, e) && s.calls[e].root == s.calls[c].root
    ensures s.calls[e].state.ErrorSilent? || exists i :: 0 <= i < |s.signals| && s.signals[i].root == s.calls[c].root
    decreases cfg.maxRetryAttempts - s.calls[c].retry
  {
    e := c;
    assert CallOk(cfg, s, c);
    if s.calls[c].state.ReturnedNil? {
      var r := s.calls[c].state.reg;
      assert EntryOk(cfg, s, r);
      if s.core.regs[r].work.Retried? {
        var c' := s.core.regs[r].work.call;
        assert CallOk(cfg, s, c');
        e := ChainEnds(cfg, s, c');
      } else {
        var i := s.core.regs[r].work.signal;
        assert SignalOk(s, i) && s.signals[i].root == s.calls[c].root;
      }
    } else if s.calls[c].state.ErrorSignalled? {
      var i := s.calls[c].state.signal;
      assert SignalOk(s, i) && s.signals[i].root == s.calls[c].root;
    }
  }

  lemma SilentIsEnd(cfg: Config, s: State, e: nat)
    requires Inv(cfg, s) && IsCall(s, e) && s.calls[e].state.ErrorSilent?
    ensures IsEnd(s, e)
  {
    forall r: RegId ensures !LiveReg(s, e, r) {
      if LiveReg(s, e, r) { LiveRegState(cfg, s, e, r); }
    }
  }

  /**
   A quiescent open publisher has run exactly one callback for an accepted user call,
   if and only if no retry of it failed to republish without a callback of its own to tell.
   */
  lemma ExactlyOneSignal(cfg: Config, s: State, c: nat)
    requires Inv(cfg, s) && !s.core.closed && Quiescent(s)
    requires IsCall(s, c) && s.calls[c].IsRoot() && s.calls[c].state.ReturnedNil?
    ensures (exists i :: 0 <= i < |s.signals| && s.signals[i].root == c) <==>
            !(exists e: nat :: IsCall(s, e) && s.calls[e].root == c && s.calls[e].state.ErrorSilent?)
  {
    assert CallOk(cfg, s, c);
    var e := ChainEnds(cfg, s, c);
    if (exists i :: 0 <= i < |s.signals| && s.signals[i].root == c)
       && (exists e: nat :: IsCall(s, e) && s.calls[e].root == c && s.calls[e].state.ErrorSilent?) {
      var i: nat :| i < |s.signals| && s.signals[i].root == c;
      var q: nat :| IsCall(s, q) && s.calls[q].root == c && s.calls[q].state.ErrorSilent?;
      SilentIsEnd(cfg, s, q);
      SignalIsEnd(cfg, s, i);
      EndsAreOne(cfg, s, q, SourceCall(s, i));
      assert SignalOk(s, i);
      if s.signals[i].source.FromReg? { LiveRegState(cfg, s, q, s.signals[i].source.reg); }
      assert false;
    }
  }

  /** Without automatic retries every call is a user's own. */
  lemma OnlyRootsWithoutRetries(cfg: Config, s: State, c: nat)
    requires Inv(cfg, s) && IsCall(s, c) && !Retries(cfg)
    ensures s.calls[c].IsRoot()
  {
    assert CallOk(cfg, s, c);
    var p := s.calls[c].parent;
    assert p >= 0 && IsReg(s, p) ==> EntryOk(cfg, s, p);
  }

  /** A retry is made with the callback and the mandatory flag its user gave. */
  lemma {:induction false} AsItsUserCalled(cfg: Config, s: State, c: nat)
    requires Inv(cfg, s) && IsCall(s, c)
    ensures var u := s.calls[c].root;
            && IsCall(s, u) && s.calls[u].IsRoot()
            && s.calls[c].ownCallback == s.calls[u].ownCallback && s.calls[c].mandatory == s.calls[u].mandatory
    decreases s.calls[c].retry
  {
    assert CallOk(cfg, s, c);
    if !s.calls[c].IsRoot() {
      var p := s.calls[c].parent;
      assert EntryOk(cfg, s, p);
      AsItsUserCalled(cfg, s, s.core.regs[p].call);
    }
  }

  /** A call made with a callback of its own, or with no retries to follow it, always gets its signal. */
  lemma SignalledIfHeard(cfg: Config, s: State, c: nat)
    requires Inv(cfg, s) && !s.core.closed && Quiescent(s)
    requires IsCall(s, c) && s.calls[c].IsRoot() && s.calls[c].state.ReturnedNil?
    requires s.calls[c].ownCallback || !Retries(cfg)
    ensures exists i :: 0 <= i < |s.signals| && s.signals[i].root == c
  {
    ExactlyOneSignal(cfg, s, c);
    forall e: nat | IsCall(s, e) && s.calls[e].root == c ensures !s.calls[e].state.ErrorSilent? {
      assert CallOk(cfg, s, e);
      AsItsUserCalled(cfg, s, e);
      if !Retries(cfg) { OnlyRootsWithoutRetries(cfg, s, e); }
    }
  }

  // ---- automatic retries are bounded --------------------------------------------------------------

  /** The accepted publishes made on behalf of one user call. */
  ghost function AcceptedFor(s: State, root: nat): set<RegId> {
    set r: RegId | 0 <= r < |s.core.regs| && Accepted(s, r) && IsCall(s, s.core.regs[r].call)
                   && s.calls[s.core.regs[r].call].root == root
  }

  /** Injectively numbered from below n, a set has at most n elements. */
  lemma {:induction false} NumberedBelow(xs: set<RegId>, number: RegId -> nat, n: nat)
    requires forall x | x in xs :: number(x) < n
    requires forall x, y | x in xs && y in xs && number(x) == number(y) :: x == y
    ensures |xs| <= n
  {
    if n > 0 {
      var top := set x | x in xs && number(x) == n - 1;
      if top == {} {
        forall x | x in xs ensures number(x) < n - 1 { assert x !in top; }
        NumberedBelow(xs, number, n - 1);
      } else {
        var t :| t in top;
        forall x | x in xs - {t} ensures number(x) < n - 1 { assert number(x) == n - 1 ==> x in top; }
        NumberedBelow(xs - {t}, number, n - 1);
      }
    } else {
      assert xs == {};
    }
  }

  /** Whatever the broker nacks, one user call causes at most 1 + maxRetryAttempts accepted publishes. */
  lemma RetriesAreBounded(cfg: Config, s: State, root: nat)
    requires Inv(cfg, s)
    ensures |AcceptedFor(s, root)| <= 1 + cfg.maxRetryAttempts
    ensures !Retries(cfg) ==> |AcceptedFor(s, root)| <= 1
  {
    var number: RegId -> nat := (r: RegId) => if IsReg(s, r) && IsCall(s, s.core.regs[r].call) then s.calls[s.core.regs[r].call].retry else 0;
    var xs := AcceptedFor(s, root);
    forall x, y | x in xs && y in xs && number(x) == number(y) ensures x == y {
      assert EntryOk(cfg, s, x) && EntryOk(cfg, s, y);
      SameSlot(cfg, s, s.core.regs[x].call, s.core.regs[y].call);
      OneLiveReg(cfg, s, s.core.regs[x].call, x, y);
    }
    forall x | x in xs ensures number(x) < 1 + if Retries(cfg) then cfg.maxRetryAttempts else 0 {
      assert EntryOk(cfg, s, x);
      var c := s.core.regs[x].call;
      assert CallOk(cfg, s, c);
      if !Retries(cfg) { OnlyRootsWithoutRetries(cfg, s, c); }
    }
    NumberedBelow(xs, number, 1 + if Retries(cfg) then cfg.maxRetryAttempts else 0);
  }

  /** One call makes at most 1 + maxConnectionRetries attempts, when that is limited at all. */
  lemma AttemptsAreBounded(cfg: Config, s: State, c: nat)
    requires Inv(cfg, s) && IsCall(s, c) && cfg.maxConnectionRetries > 0
    ensures s.calls[c].attempts <= cfg.maxConnectionRetries
  {
    assert CallOk(cfg, s, c);
  }

  // ---- outcomes mean what they say ------------------------------------------------------------------

  /** Generation g exists and failOrphans has marked it dead. */
  predicate IsDead(s: State, g: nat) {
    1 <= g <= |s.core.gens| && s.core.gens[g - 1].dead
  }

  /**
   What the callback of a message may say: success only if the broker acked the very tag
   under which the message's own channel accepted it, and a mandatory message has waited out
   its grace period; a nack only if the broker refused that tag, and no attempt is left; a
   failure only if the message was returned, or its channel died before the broker answered;
   a timeout only if its own timer ran out, or that of an attempt given up ran under its key.
   A failed retry says that it failed.
   */
  ghost predicate SoundSignal(cfg: Config, s: State, i: nat) {
    && i < |s.signals|
    && match s.signals[i].source
       case FromReg(r) =>
         && Accepted(s, r) && IsCall(s, s.core.regs[r].call)
         && var e, outcome := s.core.regs[r], s.signals[i].outcome;
         && (outcome == DeliverySuccess ==> Answered(s, r, true) && (e.mandatory ==> e.grace.Spent?))
         && (outcome == DeliveryNacked ==>
               Answered(s, r, false) && (!cfg.autoRetries || s.calls[e.call].retry >= cfg.maxRetryAttempts))
         && (outcome == DeliveryFailed ==>
               WasReturned(s, r) || (IsDead(s, e.gen) && !Answered(s, r, true) && !Answered(s, r, false)))
         && (outcome == DeliveryTimeout ==> e.delivery.Spent? || e.key in s.misfires)
       case FromCall(c) => s.signals[i].outcome == DeliveryFailed && IsCall(s, c) && !s.calls[c].IsRoot()
  }

  /** Every callback is sound in that sense. */
  lemma OutcomeIsSound(cfg: Config, s: State, i: nat)
    requires Inv(cfg, s) && i < |s.signals|
    ensures SoundSignal(cfg, s, i)
  {
    assert SignalOk(s, i);
    match s.signals[i].source
    case FromReg(r) => assert EntryOk(cfg, s, r);
    case FromCall(c) => assert CallOk(cfg, s, c);
  }

  /** A channel never gives a send another tag than the one it was registered under: rekeyPending is unreachable. */
  lemma TagIsTheOneRegistered(cfg: Config, s: State)
    requires Inv(cfg, s) && (s.holder.SendOk? || s.holder.Deferred?)
    ensures var r := s.holder.reg;
            && IsReg(s, r) && IsGen(s, s.core.regs[r].gen)
            && var ch := s.chans[s.core.regs[r].gen - 1];
            && |ch.log| == s.core.regs[r].tag && ch.log[|ch.log| - 1] == r
            && (s.holder.Deferred? ==> s.core.gens[s.core.regs[r].gen - 1].published == s.core.regs[r].tag)
  {
    assert EntryOk(cfg, s, s.holder.reg);
    assert ChannelOk(s, s.core.regs[s.holder.reg].gen);
  }

  /** A filed message's tag has been counted. */
  lemma FiledTagIsPast(cfg: Config, s: State, r: RegId)
    requires Inv(cfg, s) && s.holder.Free? && Filed(s, r)
    ensures !IsFuture(s.core, s.core.regs[r].gen, s.core.regs[r].tag)
  {
    assert EntryOk(cfg, s, r);
    assert ChannelOk(s, s.core.regs[r].gen);
  }

  /** Between two attempts no key a future attempt may use is taken, on any generation. */
  lemma FutureKeysAreFree(cfg: Config, s: State)
    requires Inv(cfg, s) && s.holder.Free?
    ensures FutureKeysFree(s.core)
  {
    forall g: nat, t: nat | IsFuture(s.core, g, t) ensures KeyFree(s.core, g, t) {
      if DeliveryKey(g, t) in s.core.index.byKey {
        KeyFinds(cfg, s, g, t);
        FiledTagIsPast(cfg, s, s.core.index.byKey[DeliveryKey(g, t)]);
      }
    }
  }

  // ---- the sweep is complete ------------------------------------------------------------------------------

  /** Once failOrphans has walked every shard and settled what it found, it has left nothing behind. */
  lemma SweepIsComplete(cfg: Config, s: State, g: nat, r: RegId)
    requires Inv(cfg, s) && IsGen(s, g) && s.chans[g - 1].sweep == Sweeping(NUM_SHARDS, {})
    requires Filed(s, r) && s.core.regs[r].gen == g
    ensures var e := s.core.regs[r];
            e.Claimed() || e.confirmed || (e.orphanDeferred && HolderReg(s.holder) == r)
    ensures s.core.gens[g - 1].dead
  {
    assert ChannelOk(s, g);
    assert SweepOk(cfg, s, g);
    assert SweepCovers(cfg, s, g, r);
    assert EntryOk(cfg, s, r);
  }

  // ---- conservation ------------------------------------------------------------------------------------------

  /** The registrations with this claim. */
  function ClaimedAs(regs: seq<Entry>, claim: Claim): set<RegId> {
    set r: RegId | 0 <= r < |regs| && regs[r].claim == claim
  }

  lemma ClaimedStep(regs: seq<Entry>, claim: Claim)
    requires regs != []
    ensures var n := |regs| - 1;
            |ClaimedAs(regs, claim)| == |ClaimedAs(regs[..n], claim)| + (if regs[n].claim == claim then 1 else 0)
  {
    var n := |regs| - 1;
    assert ClaimedAs(regs, claim) == ClaimedAs(regs[..n], claim) + (if regs[n].claim == claim then {n} else {});
  }

  lemma {:induction false} CountIsSize(regs: seq<Entry>, claim: Claim)
    ensures CountOf(regs, claim) == |ClaimedAs(regs, claim)|
  {
    if regs != [] {
      CountIsSize(regs[..|regs| - 1], claim);
      ClaimedStep(regs, claim);
    }
  }

  /** Each of the five counters is the number of messages that ended that way, no matter in what order. */
  lemma CountersAreExact(cfg: Config, s: State)
    requires Inv(cfg, s)
    ensures s.core.stats.confirmed == |ClaimedAs(s.core.regs, Settled(Confirmed))|
    ensures s.core.stats.returned == |ClaimedAs(s.core.regs, Settled(Returned))|
    ensures s.core.stats.nacked == |ClaimedAs(s.core.regs, Settled(Nacked))|
    ensures s.core.stats.timedOut == |ClaimedAs(s.core.regs, Settled(TimedOut))|
    ensures s.core.stats.orphaned == |ClaimedAs(s.core.regs, Settled(Orphaned))|
  {
    CountIsSize(s.core.regs, Settled(Confirmed));
    CountIsSize(s.core.regs, Settled(Returned));
    CountIsSize(s.core.regs, Settled(Nacked));
    CountIsSize(s.core.regs, Settled(TimedOut));
    CountIsSize(s.core.regs, Settled(Orphaned));
  }

  /** The IDs of the entries of the pending map that nobody has decided. */
  ghost function UndecidedIds(s: State): set<MessageId> {
    set id | id in s.core.index.byId && IsReg(s, s.core.index.byId[id]) && s.core.regs[s.core.index.byId[id]].claim.Unclaimed?
  }

  /** Looked up by their own IDs, as many entries are found as there are IDs. */
  lemma {:induction false} LookupsAreMany(ids: set<MessageId>, byId: map<MessageId, RegId>, regs: set<RegId>)
    requires (forall id | id in ids :: id in byId) && regs == set id | id in ids :: byId[id]
    requires forall id, id' | id in ids && id' in ids && byId[id] == byId[id'] :: id == id'
    ensures |ids| == |regs|
  {
    if ids != {} {
      var id :| id in ids;
      assert regs - {byId[id]} == set id' | id' in ids - {id} :: byId[id'];
      LookupsAreMany(ids - {id}, byId, regs - {byId[id]});
    }
  }

  /** Every undecided message is in the pending map. */
  lemma UndecidedAreFiled(cfg: Config, s: State)
    requires Inv(cfg, s)
    ensures |UndecidedIds(s)| == CountUnclaimed(s.core.regs)
  {
    var ids, byId := UndecidedIds(s), s.core.index.byId;
    forall r | r in ClaimedAs(s.core.regs, Unclaimed) ensures r in (set id | id in ids :: byId[id]) {
      assert EntryOk(cfg, s, r);
      assert byId[s.core.regs[r].id] == r;
    }
    forall id, id' | id in ids && id' in ids && byId[id] == byId[id'] ensures id == id' {
      assert FiledTwice(s.core.regs, s.core.index, byId[id]);
    }
    LookupsAreMany(ids, byId, ClaimedAs(s.core.regs, Unclaimed));
    CountIsSize(s.core.regs, Unclaimed);
  }

  /** Between handlers, everything published has had exactly one outcome counted or is in the pending map, undecided. */
  lemma OutcomesAreConserved(cfg: Config, s: State)
    requires Inv(cfg, s) && !s.holder.Stored? && !Failing(s.holder)
    ensures s.core.stats.published ==
            s.core.stats.confirmed + s.core.stats.returned + s.core.stats.nacked + s.core.stats.timedOut + s.core.stats.orphaned
            + |UndecidedIds(s)|
  {
    UndecidedAreFiled(cfg, s);
  }

  // ---- the pending map is one map ------------------------------------------------------------------------------

  /** Both lookups agree, and the two indexes are the same size. */
  lemma LookupsAgree(cfg: Config, s: State)
    requires Inv(cfg, s)
    ensures forall id | id in s.core.index.byId ::
              var r := s.core.index.byId[id]; IsReg(s, r) && s.core.index.byKey[s.core.regs[r].key] == r
    ensures forall k | k in s.core.index.byKey ::
              var r := s.core.index.byKey[k]; IsReg(s, r) && s.core.index.byId[s.core.regs[r].id] == r
    ensures s.core.index.byId.Values == s.core.index.byKey.Values
  {
    forall r | r in s.core.index.byId.Values ensures r in s.core.index.byKey.Values {
      var id :| id in s.core.index.byId && s.core.index.byId[id] == r;
      assert FiledTwice(s.core.regs, s.core.index, r);
      assert s.core.index.byKey[s.core.regs[r].key] == r;
    }
    forall r | r in s.core.index.byKey.Values ensures r in s.core.index.byId.Values {
      var k :| k in s.core.index.byKey && s.core.index.byKey[k] == r;
      assert FiledTwice(s.core.regs, s.core.index, r);
      assert s.core.index.byId[s.core.regs[r].id] == r;
    }
  }
}
