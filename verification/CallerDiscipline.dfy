/**
 What callers can see to themselves: which message IDs they use. If no mandatory message
 shares its ID with another, a return frame can mean one message only, and nothing has to
 be assumed of return frames at all.
 */
module CallerDiscipline {
  import opened PendingMap
  import opened DeliveryCore
  import opened DeliverySystem
  import opened DeliveryInvariant
  import opened PreserveRest
  import opened DeliveryTheorems

  /** One call of PublishWithDeliveryAssurance, as its caller makes it. */
  datatype Request = Request(id: MessageId, mandatory: bool, ownCallback: bool)

  function RequestsOf(a: Action): seq<Request> {
    match a
    case Publishing(NewCall(id, mandatory, own)) => [Request(id, mandatory, own)]
    case _ => []
  }

  /** The calls made in the course of these actions, in order. */
  function Requests(acts: seq<Action>): seq<Request> {
    if acts == [] then [] else Requests(acts[..|acts| - 1]) + RequestsOf(acts[|acts| - 1])
  }

  /**
   A mandatory message shares its ID with no other, and is never republished under it. A
   caller can check this against its configuration and its own earlier calls.
   */
  predicate Careful(cfg: Config, requests: seq<Request>) {
    && (forall i, j | 0 <= i < j < |requests| && requests[i].id == requests[j].id :: !requests[i].mandatory && !requests[j].mandatory)
    && (Retries(cfg) ==> forall i | 0 <= i < |requests| :: !requests[i].mandatory)
  }

  // ---- requests and calls ---------------------------------------------------------------

  function RequestOf(call: Call): Request {
    Request(call.id, call.mandatory, call.ownCallback)
  }

  /** The requests behind the calls that are not retries. */
  function UserCalls(calls: seq<Call>): seq<Request> {
    if calls == [] then []
    else
      var last := calls[|calls| - 1];
      UserCalls(calls[..|calls| - 1]) + (if last.IsRoot() then [RequestOf(last)] else [])
  }

  predicate SameRequest(call: Call, call': Call) {
    RequestOf(call') == RequestOf(call) && call'.parent == call.parent
  }

  /** Calls keep what was asked of them; a new one is a user's exactly if the action is a user's call. */
  ghost predicate CallsGrow(s: State, s': State, a: Action) {
    && |s.calls| <= |s'.calls|
    && (forall c {:trigger s'.calls[c]} | 0 <= c < |s.calls| :: SameRequest(s.calls[c], s'.calls[c]))
    && (if |s'.calls| == |s.calls| then RequestsOf(a) == []
        else |s'.calls| == |s.calls| + 1
             && RequestsOf(a) == if s'.calls[|s.calls|].IsRoot() then [RequestOf(s'.calls[|s.calls|])] else [])
  }

  lemma CallsStay(s: State, s': State, a: Action)
    requires s'.calls == s.calls && RequestsOf(a) == []
    ensures CallsGrow(s, s', a)
  {
  }

  lemma CallMovesOn(s: State, s': State, a: Action, c: nat)
    requires IsCall(s, c) && |s'.calls| == |s.calls| && RequestsOf(a) == []
    requires s'.calls == s.calls[c := s.calls[c].(state := s'.calls[c].state, attempts := s'.calls[c].attempts)]
    ensures CallsGrow(s, s', a)
  {
  }

  lemma SendGrowsNoCalls(cfg: Config, s: State, a: PublishAction)
    requires WellFormed(s) && PublishEnabled(cfg, s, a)
    requires a.CountAttempt? || a.WireSend? || a.SendReturned? || a.DeleteFailed? || a.StopFailed? || a.CountSent?
    ensures CallsGrow(s, PublishStep(cfg, s, a), Publishing(a))
  {
    CallsStay(s, PublishStep(cfg, s, a), Publishing(a));
  }

  lemma AttemptGrowsNoCalls(cfg: Config, s: State, a: PublishAction)
    requires WellFormed(s) && PublishEnabled(cfg, s, a)
    requires a.BeginAttempt? || a.RetryAttempt? || a.ReturnError? || a.UncountFailed? || a.SettleDeferred?
    ensures CallsGrow(s, PublishStep(cfg, s, a), Publishing(a))
  {
    var c := if a.UncountFailed? || a.SettleDeferred? then s.core.regs[s.holder.reg].call else a.call;
    CallMovesOn(s, PublishStep(cfg, s, a), Publishing(a), c);
  }

  lemma RegisterGrowsNoCalls(s: State, fired: bool)
    requires s.holder.Checked? && IsCall(s, s.holder.call) && 1 <= s.holder.gen <= |s.core.gens|
    ensures CallsGrow(s, DoRegister(s, fired), Publishing(RegisterAttempt(fired)))
  {
    var s' := DoRegister(s, fired);
    if s'.holder.Free? {
      CallMovesOn(s, s', Publishing(RegisterAttempt(fired)), s.holder.call);
    } else {
      CallsStay(s, s', Publishing(RegisterAttempt(fired)));
    }
  }

  lemma PublishGrows(cfg: Config, s: State, a: PublishAction)
    requires WellFormed(s) && PublishEnabled(cfg, s, a)
    ensures CallsGrow(s, PublishStep(cfg, s, a), Publishing(a))
  {
    match a
    case NewCall(_, _, _) =>
    case RegisterAttempt(fired) => RegisterGrowsNoCalls(s, fired);
    case BeginAttempt(_, _) => AttemptGrowsNoCalls(cfg, s, a);
    case RetryAttempt(_) => AttemptGrowsNoCalls(cfg, s, a);
    case ReturnError(_) => AttemptGrowsNoCalls(cfg, s, a);
    case UncountFailed => AttemptGrowsNoCalls(cfg, s, a);
    case SettleDeferred => AttemptGrowsNoCalls(cfg, s, a);
    case _ => SendGrowsNoCalls(cfg, s, a);
  }

  lemma FinishGrows(cfg: Config, s: State, a: FinishAction)
    requires WellFormed(s) && FinishEnabled(s, a)
    ensures CallsGrow(s, FinishStep(cfg, s, a), Finishing(a))
  {
    match a
    case Republish(_) =>
    case RetryErrorCallback(c) => CallMovesOn(s, FinishStep(cfg, s, a), Finishing(a), c);
    case _ => CallsStay(s, FinishStep(cfg, s, a), Finishing(a));
  }

  lemma StepGrowsCalls(cfg: Config, s: State, a: Action)
    requires Enabled(cfg, s, a)
    ensures CallsGrow(s, Step(cfg, s, a), a)
  {
    match a
    case Publishing(x) => PublishGrows(cfg, s, x);
    case Finishing(x) => FinishGrows(cfg, s, x);
    case _ => CallsStay(s, Step(cfg, s, a), a);
  }

  lemma {:induction false} SameUserCalls(calls: seq<Call>, calls': seq<Call>)
    requires |calls| == |calls'| && forall c {:trigger calls'[c]} | 0 <= c < |calls| :: SameRequest(calls[c], calls'[c])
    ensures UserCalls(calls) == UserCalls(calls')
  {
    if calls != [] {
      var n := |calls| - 1;
      assert SameRequest(calls[n], calls'[n]);
      SameUserCalls(calls[..n], calls'[..n]);
    }
  }

  lemma UserCallsStep(cfg: Config, s: State, a: Action)
    requires Enabled(cfg, s, a)
    ensures UserCalls(Step(cfg, s, a).calls) == UserCalls(s.calls) + RequestsOf(a)
  {
    var calls' := Step(cfg, s, a).calls;
    StepGrowsCalls(cfg, s, a);
    SameUserCalls(s.calls, calls'[..|s.calls|]);
    if |calls'| == |s.calls| { assert calls'[..|s.calls|] == calls'; }
  }

  /** The user's calls in a state are the requests made on the way to it. */
  lemma {:induction false} CallsAreRequests(cfg: Config, run: seq<State>, acts: seq<Action>, i: nat)
    requires IsExecution(cfg, run, acts) && i < |run|
    ensures UserCalls(run[i].calls) == Requests(acts[..i])
  {
    if i > 0 {
      CallsAreRequests(cfg, run, acts, i - 1);
      assert acts[..i][..i - 1] == acts[..i - 1] && acts[..i][i - 1] == acts[i - 1];
      UserCallsStep(cfg, run[i - 1], acts[i - 1]);
    }
  }

  /** Where a user's call stands among the requests. */
  lemma {:induction false} UserCallAt(calls: seq<Call>, c: nat) returns (k: nat)
    requires c < |calls| && calls[c].IsRoot()
    ensures k == |UserCalls(calls[..c])| < |UserCalls(calls)| && UserCalls(calls)[k] == RequestOf(calls[c])
  {
    var n := |calls| - 1;
    if c < n {
      assert calls[..n][..c] == calls[..c];
      k := UserCallAt(calls[..n], c);
    } else {
      k := |UserCalls(calls[..n])|;
    }
  }

  lemma UserCallsDiffer(calls: seq<Call>, c: nat, c': nat) returns (k: nat, k': nat)
    requires c < c' < |calls| && calls[c].IsRoot() && calls[c'].IsRoot()
    ensures k < k' < |UserCalls(calls)| && UserCalls(calls)[k] == RequestOf(calls[c]) && UserCalls(calls)[k'] == RequestOf(calls[c'])
  {
    k' := UserCallAt(calls, c');
    var j := UserCallAt(calls[..c'], c);
    assert calls[..c'][..c] == calls[..c];
    k := UserCallAt(calls, c);
  }

  // ---- careful callers need no assumption about return frames --------------------------------

  /** If callers are careful, a mandatory message's ID is its own. */
  lemma CarefulMeansUnshared(cfg: Config, s: State, c: nat)
    requires Inv(cfg, s) && Careful(cfg, UserCalls(s.calls)) && IsCall(s, c) && s.calls[c].mandatory
    ensures !IdIsShared(s, s.calls[c].id)
  {
    if Retries(cfg) {
      AsItsUserCalled(cfg, s, c);
      var k := UserCallAt(s.calls, s.calls[c].root);
      assert false;
    } else if d: nat :| IsCall(s, d) && d != c && s.calls[d].id == s.calls[c].id {
      OnlyRootsWithoutRetries(cfg, s, c);
      OnlyRootsWithoutRetries(cfg, s, d);
      var k, k' := UserCallsDiffer(s.calls, if c < d then c else d, if c < d then d else c);
      assert false;
    }
  }

  lemma CarefulReturn(cfg: Config, s: State, a: Action)
    requires Inv(cfg, s) && Enabled(cfg, s, a) && Careful(cfg, UserCalls(s.calls))
    ensures ReturnsAreMeant(s, a)
  {
    if a.Broker? && a.broker.ReadReturn? {
      MandatoryIsUnshared(cfg, s, s.chans[a.broker.gen - 1].log[a.broker.tag - 1]);
    }
  }

  lemma MandatoryIsUnshared(cfg: Config, s: State, r: RegId)
    requires Inv(cfg, s) && Careful(cfg, UserCalls(s.calls)) && IsReg(s, r) && s.core.regs[r].mandatory
    ensures !IdIsShared(s, s.core.regs[r].id)
  {
    assert EntryOk(cfg, s, r);
    CarefulMeansUnshared(cfg, s, s.core.regs[r].call);
  }

  lemma {:induction false} RequestsOfPrefix(acts: seq<Action>, i: nat)
    requires i <= |acts|
    ensures Requests(acts[..i]) <= Requests(acts)
    decreases |acts|
  {
    if i < |acts| {
      var n := |acts| - 1;
      assert acts[..n][..i] == acts[..i];
      RequestsOfPrefix(acts[..n], i);
    } else {
      assert acts[..i] == acts;
    }
  }

  lemma NextReturn(cfg: Config, run: seq<State>, acts: seq<Action>, i: nat)
    requires IsExecution(cfg, run, acts) && i < |acts| && Careful(cfg, Requests(acts)) && Inv(cfg, run[i])
    ensures ReturnsAreMeant(run[i], acts[i])
  {
    CallsAreRequests(cfg, run, acts, i);
    RequestsOfPrefix(acts, i);
    CarefulReturn(cfg, run[i], acts[i]);
  }

  lemma NextInvariant(cfg: Config, run: seq<State>, acts: seq<Action>, i: nat)
    requires IsExecution(cfg, run, acts) && i < |acts| && Careful(cfg, Requests(acts)) && Inv(cfg, run[i])
    ensures Inv(cfg, run[i + 1])
  {
    NextReturn(cfg, run, acts, i);
    assert run[i + 1] == Step(cfg, run[i], acts[i]);
    StepPreserves(cfg, run[i], acts[i]);
  }

  /** Careful callers keep the invariant whatever frames the broker sends back when. */
  lemma {:induction false} CarefulInvariant(cfg: Config, run: seq<State>, acts: seq<Action>, i: nat)
    requires IsExecution(cfg, run, acts) && i < |run| && Careful(cfg, Requests(acts))
    ensures Inv(cfg, run[i])
  {
    if i == 0 {
      InvInit(cfg);
    } else {
      CarefulInvariant(cfg, run, acts, i - 1);
      NextInvariant(cfg, run, acts, i - 1);
    }
  }

  /** If callers are careful with message IDs every execution is a run, whatever frames the broker sends back when. */
  lemma CarefulIsRun(cfg: Config, run: seq<State>, acts: seq<Action>)
    requires IsExecution(cfg, run, acts) && Careful(cfg, Requests(acts))
    ensures IsRun(cfg, run, acts)
  {
    forall i | 0 <= i < |acts| ensures ReturnsAreMeant(run[i], acts[i]) {
      CarefulInvariant(cfg, run, acts, i);
      NextReturn(cfg, run, acts, i);
    }
  }
}
