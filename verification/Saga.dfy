/**
 Saga bookkeeping on values: what one store update, one step message and one compensation
 message do to a saga and which messages they publish.
 */
module SagaCore {
  import opened Wrappers

  /** Step IDs, and the names of actions and compensations; only their equality matters. */
  type Id = nat
  type Name = nat

  datatype State = Started | Completed | Failed | Compensating | Compensated

  datatype Step = Step(id: Id, action: Name, compensation: Name, status: State)

  datatype Saga = Saga(state: State, steps: seq<Step>)

  /** Which actions and compensations have a registered handler. */
  datatype Config = Config(actions: set<Name>, compensations: set<Name>)

  /** How a handler that is called ends. */
  datatype Outcome = Ok | Err | Panic

  predicate DistinctIds(steps: seq<Step>) {
    forall i, j | 0 <= i < j < |steps| :: steps[i].id != steps[j].id
  }

  /** Where a step ID is found first; |steps| if nowhere. */
  function IndexOf(steps: seq<Step>, id: Id): (i: nat)
    ensures i <= |steps|
    ensures i < |steps| ==> steps[i].id == id
    ensures forall j | 0 <= j < i :: steps[j].id != id
  {
    if steps == [] then 0
    else if steps[0].id == id then 0
    else 1 + IndexOf(steps[1..], id)
  }

  predicate AnyFailed(steps: seq<Step>) { exists i :: 0 <= i < |steps| && steps[i].status.Failed? }

  predicate AllCompleted(steps: seq<Step>) { forall i | 0 <= i < |steps| :: steps[i].status.Completed? }

  predicate AnyCompleted(steps: seq<Step>) { exists i :: 0 <= i < |steps| && steps[i].status.Completed? }

  /** The saga state that UpdateSagaStep derives from the steps. */
  function Derived(state: State, steps: seq<Step>): State {
    if AnyFailed(steps) then Failed else if AllCompleted(steps) then Completed else state
  }

  /** UpdateSagaStep: the first step with that ID is changed, and the saga's state derived anew. */
  function Update(s: Saga, id: Id, status: State): Option<Saga> {
    var i := IndexOf(s.steps, id);
    if i == |s.steps| then None
    else
      var steps := s.steps[i := s.steps[i].(status := status)];
      Some(Saga(Derived(s.state, steps), steps))
  }

  /** GetNextStep: the first step still to be executed. */
  function NextStep(steps: seq<Step>): (i: nat)
    ensures i <= |steps|
    ensures i < |steps| ==> steps[i].status.Started?
    ensures forall j | 0 <= j < i :: !steps[j].status.Started?
  {
    if steps == [] then 0
    else if steps[0].status.Started? then 0
    else 1 + NextStep(steps[1..])
  }

  /** The steps Compensate publishes: the completed ones, last first. */
  function CompletedBackwards(steps: seq<Step>): seq<Step> {
    if steps == [] then []
    else
      var last := steps[|steps| - 1];
      (if last.status.Completed? then [last] else []) + CompletedBackwards(steps[..|steps| - 1])
  }

  /** What a message's handling leaves: the saga, and the steps published to be executed and to be compensated. */
  datatype Effect = Effect(saga: Saga, execute: seq<Step>, compensate: seq<Step>)

  /** Mark the step failed, then the saga, then start compensating. */
  function FailStep(s: Saga, id: Id): Effect {
    var s' := match Update(s, id, Failed) case Some(u) => u case None => s;
    Effect(s'.(state := Compensating), [], CompletedBackwards(s'.steps))
  }

  /** Mark the step completed and publish the next one, or complete the saga. */
  function CompleteStep(s: Saga, id: Id): Effect {
    match Update(s, id, Completed)
    case None => Effect(s, [], [])
    case Some(u) =>
      var next := NextStep(u.steps);
      if next < |u.steps| then Effect(u, [u.steps[next]], []) else Effect(u.(state := Completed), [], [])
  }

  /** handleStepMessage for a message naming step `id`, which carries that step's action. */
  function HandleStep(cfg: Config, s: Saga, id: Id, action: Name, outcome: Outcome): Effect {
    if action !in cfg.actions then FailStep(s, id)
    else if outcome.Panic? then Effect(s, [], [])
    else if outcome.Err? then
      if Update(s, id, Failed).None? then Effect(s, [], []) else FailStep(s, id)
    else CompleteStep(s, id)
  }

  /** handleCompensationMessage. */
  function HandleCompensation(cfg: Config, s: Saga, id: Id, compensation: Name, outcome: Outcome): Saga {
    if compensation in cfg.compensations && outcome.Panic? then s
    else
      var s' := match Update(s, id, Compensated) case Some(u) => u case None => s;
      if compensation in cfg.compensations && !AnyCompleted(s'.steps) then s'.(state := Compensated) else s'
  }

  /** A message naming a step the saga does not have changes nothing, unless nobody knows its action: then the saga is compensated. */
  lemma UnknownStep(cfg: Config, s: Saga, id: Id, action: Name, outcome: Outcome)
    requires forall i | 0 <= i < |s.steps| :: s.steps[i].id != id
    ensures HandleStep(cfg, s, id, action, outcome) ==
            if action in cfg.actions then Effect(s, [], []) else Effect(s.(state := Compensating), [], CompletedBackwards(s.steps))
  {
    assert IndexOf(s.steps, id) == |s.steps|;
  }
}

/** One saga from Start until its queues are drained, each message handled once and one at a time. */
module SagaRuns {
  import opened SagaCore
  import opened Wrappers

  /** What a message tells its handler: a step's ID, and the action or the compensation to call. */
  datatype Message = Message(id: Id, name: Name)

  function ToExecute(step: Step): Message { Message(step.id, step.action) }

  function ToCompensate(step: Step): Message { Message(step.id, step.compensation) }

  function ExecuteMessages(steps: seq<Step>): seq<Message> {
    if steps == [] then [] else [ToExecute(steps[0])] + ExecuteMessages(steps[1..])
  }

  function CompensateMessages(steps: seq<Step>): seq<Message> {
    if steps == [] then [] else [ToCompensate(steps[0])] + CompensateMessages(steps[1..])
  }

  /**
   The saga, its two queues, the steps whose handlers have been called so far (`ran`), which
   compensation messages were published (`sent`) and which of their handlers called (`undone`).
   */
  datatype World = World(saga: Saga, executeQueue: seq<Message>, compensateQueue: seq<Message>,
                         ran: seq<Id>, sent: seq<Message>, undone: seq<Message>)

  /** Deliver the next message of one of the queues; `outcome` is what its handler will do. */
  datatype Turn = ExecuteNext(outcome: Outcome) | CompensateNext(outcome: Outcome)

  /** Start: every step is set to Started, and the first is published. */
  function StartWorld(steps: seq<Step>): World {
    var begun := seq(|steps|, i requires 0 <= i < |steps| => steps[i].(status := Started));
    World(Saga(Started, begun), if steps == [] then [] else [ToExecute(steps[0])], [], [], [], [])
  }

  /** One turn; a turn of an empty queue is nothing. */
  function Take(cfg: Config, w: World, turn: Turn): World {
    match turn
    case ExecuteNext(outcome) =>
      if w.executeQueue == [] then w
      else
        var m := w.executeQueue[0];
        var e := HandleStep(cfg, w.saga, m.id, m.name, outcome);
        World(e.saga, w.executeQueue[1..] + ExecuteMessages(e.execute), w.compensateQueue + CompensateMessages(e.compensate),
              if m.name in cfg.actions then w.ran + [m.id] else w.ran, w.sent + CompensateMessages(e.compensate), w.undone)
    case CompensateNext(outcome) =>
      if w.compensateQueue == [] then w
      else
        var m := w.compensateQueue[0];
        w.(saga := HandleCompensation(cfg, w.saga, m.id, m.name, outcome),
           compensateQueue := w.compensateQueue[1..],
           undone := if m.name in cfg.compensations then w.undone + [m] else w.undone)
  }

  function Run(cfg: Config, w: World, turns: seq<Turn>): World {
    if turns == [] then w else Take(cfg, Run(cfg, w, turns[..|turns| - 1]), turns[|turns| - 1])
  }

  // ---- the shape of every reachable world -----------------------------------------------------

  /**
   Forward: `k` steps have completed, and none has failed; `stuck` once a handler panicked,
   which leaves no message behind. Undoing: step `k` failed, `c` of the compensations have
   been handled, those of the steps in `panicked` without effect.
   */
  datatype Phase = Forward(k: nat, stuck: bool) | Undoing(k: nat, c: nat, panicked: set<nat>)

  /** The messages to compensate steps j - 1 down to 0. */
  function Backwards(steps: seq<Step>, j: nat): seq<Message>
    requires j <= |steps|
  {
    if j == 0 then [] else [ToCompensate(steps[j - 1])] + Backwards(steps, j - 1)
  }

  /** The IDs of the first n steps. */
  function Ids(steps: seq<Step>, n: nat): seq<Id>
    requires n <= |steps|
  {
    if n == 0 then [] else Ids(steps, n - 1) + [steps[n - 1].id]
  }

  /** The status step i must have. */
  function StatusIn(p: Phase, i: nat): State {
    match p
    case Forward(k, _) => if i < k then Completed else Started
    case Undoing(k, c, panicked) =>
      if i > k then Started
      else if i == k then Failed
      else if i + c < k || i in panicked then Completed
      else Compensated
  }

  predicate Registered(cfg: Config, w: World, i: nat) {
    i < |w.saga.steps| && w.saga.steps[i].compensation in cfg.compensations
  }

  /** The first k steps all have a compensation handler. */
  predicate AllRegistered(cfg: Config, steps: seq<Step>, k: nat) {
    forall i | 0 <= i < k && i < |steps| :: steps[i].compensation in cfg.compensations
  }

  predicate StatusesOk(steps: seq<Step>, p: Phase) {
    forall i {:trigger steps[i]} | 0 <= i < |steps| :: steps[i].status == StatusIn(p, i)
  }

  /** The first k steps all have a handler. */
  predicate AllHandled(cfg: Config, steps: seq<Step>, k: nat) {
    forall i | 0 <= i < k && i < |steps| :: steps[i].action in cfg.actions
  }

  /** Before any failure. */
  ghost predicate ForwardOk(cfg: Config, w: World, k: nat, stuck: bool) {
    var steps, n := w.saga.steps, |w.saga.steps|;
    && k <= n && (stuck ==> k < n)
    && w.executeQueue == (if k < n && !stuck then [ToExecute(steps[k])] else [])
    && w.compensateQueue == []
    && w.saga.state == (if k == n && n > 0 then Completed else Started)
    && w.ran == Ids(steps, if stuck then k + 1 else k)
    && AllHandled(cfg, steps, k)
    && w.sent == [] && w.undone == []
  }

  /** After step k failed: what was sent is exactly the reverse of what had completed, and c of it has been handled. */
  ghost predicate UndoQueues(cfg: Config, w: World, k: nat, c: nat) {
    var steps := w.saga.steps;
    && k < |steps| && c <= k
    && w.executeQueue == []
    && w.compensateQueue == Backwards(steps, k - c)
    && (w.ran == Ids(steps, k) || w.ran == Ids(steps, k + 1))
    && w.sent == Backwards(steps, k)
    && (AllRegistered(cfg, steps, k) ==> w.undone + w.compensateQueue == w.sent)
  }

  ghost predicate UndoState(cfg: Config, w: World, k: nat, c: nat, panicked: set<nat>) {
    && (forall i | i in panicked :: k <= i + c && i < k)
    && (c == 0 ==> w.saga.state == Compensating)
    && (w.saga.state == Compensated <==> c == k && k > 0 && panicked == {} && Registered(cfg, w, 0))
    && w.saga.state != Started && w.saga.state != Completed
  }

  ghost predicate Shape(cfg: Config, w: World, p: Phase) {
    && DistinctIds(w.saga.steps) && StatusesOk(w.saga.steps, p)
    && match p
       case Forward(k, stuck) => ForwardOk(cfg, w, k, stuck)
       case Undoing(k, c, panicked) => UndoQueues(cfg, w, k, c) && UndoState(cfg, w, k, c, panicked)
  }

  lemma StartShape(cfg: Config, steps: seq<Step>)
    requires DistinctIds(steps)
    ensures Shape(cfg, StartWorld(steps), Forward(0, false))
  {
  }

  /** With distinct IDs an ID finds its own step. */
  lemma {:induction false} FindsItself(steps: seq<Step>, i: nat)
    requires DistinctIds(steps) && i < |steps|
    ensures IndexOf(steps, steps[i].id) == i
  {
    if i > 0 {
      assert steps[0].id != steps[i].id;
      FindsItself(steps[1..], i - 1);
    }
  }

  lemma {:induction false} BackwardsOfPrefix(steps: seq<Step>, prefix: seq<Step>, k: nat)
    requires k <= |prefix| <= |steps| && forall i | 0 <= i < k :: ToCompensate(prefix[i]) == ToCompensate(steps[i])
    ensures Backwards(prefix, k) == Backwards(steps, k)
  {
    if k > 0 { BackwardsOfPrefix(steps, prefix, k - 1); }
  }

  /** Exactly the completed prefix is published for compensation, last step first. */
  lemma {:induction false} CompletedPrefix(steps: seq<Step>, k: nat)
    requires k <= |steps| && forall i | 0 <= i < |steps| :: steps[i].status.Completed? <==> i < k
    ensures CompensateMessages(CompletedBackwards(steps)) == Backwards(steps, k)
  {
    if steps != [] {
      var prefix := steps[..|steps| - 1];
      if k == |steps| {
        CompletedPrefix(prefix, k - 1);
        BackwardsOfPrefix(steps, prefix, k - 1);
        var last := steps[|steps| - 1];
        assert ([last] + CompletedBackwards(prefix))[1..] == CompletedBackwards(prefix);
      } else {
        CompletedPrefix(prefix, k);
        BackwardsOfPrefix(steps, prefix, k);
        assert [] + CompletedBackwards(prefix) == CompletedBackwards(prefix);
      }
    }
  }

  lemma UpdatesItself(s: Saga, i: nat, status: State)
    requires DistinctIds(s.steps) && i < |s.steps|
    ensures var steps' := s.steps[i := s.steps[i].(status := status)];
            Update(s, s.steps[i].id, status) == Some(Saga(Derived(s.state, steps'), steps')) && DistinctIds(steps')
  {
    FindsItself(s.steps, i);
  }

  /** A step fails, for want of a handler or because its handler does: everything before it is to be undone, last first. */
  lemma FailingTurn(cfg: Config, w: World, k: nat)
    requires Shape(cfg, w, Forward(k, false)) && k < |w.saga.steps|
    ensures var e := FailStep(w.saga, w.saga.steps[k].id);
            var steps' := w.saga.steps[k := w.saga.steps[k].(status := Failed)];
            && e.saga == Saga(Compensating, steps') && e.execute == [] && CompensateMessages(e.compensate) == Backwards(steps', k)
            && DistinctIds(steps')
  {
    var steps' := w.saga.steps[k := w.saga.steps[k].(status := Failed)];
    UpdatesItself(w.saga, k, Failed);
    CompletedPrefix(steps', k);
  }

  /** A step succeeds: the next one is published, or the saga is complete. */
  lemma SucceedingTurn(cfg: Config, w: World, k: nat)
    requires Shape(cfg, w, Forward(k, false)) && k < |w.saga.steps|
    ensures var u := Update(w.saga, w.saga.steps[k].id, Completed);
            var steps' := w.saga.steps[k := w.saga.steps[k].(status := Completed)];
            && u == Some(Saga(if k + 1 == |steps'| then Completed else Started, steps')) && DistinctIds(steps')
            && NextStep(steps') == k + 1
  {
    var steps' := w.saga.steps[k := w.saga.steps[k].(status := Completed)];
    UpdatesItself(w.saga, k, Completed);
    if k + 1 < |steps'| { assert !steps'[k + 1].status.Completed?; }
  }

  function WithStatus(steps: seq<Step>, i: nat, status: State): seq<Step>
    requires i < |steps|
  {
    steps[i := steps[i].(status := status)]
  }

  /** A change of status changes no ID. */
  lemma {:induction false} SameIds(steps: seq<Step>, j: nat, status: State, n: nat)
    requires j < |steps| && n <= |steps|
    ensures Ids(WithStatus(steps, j, status), n) == Ids(steps, n)
    ensures Backwards(WithStatus(steps, j, status), n) == Backwards(steps, n)
  {
    if n > 0 { SameIds(steps, j, status, n - 1); }
  }

  function Called(w: World, id: Id, called: bool): seq<Id> { if called then w.ran + [id] else w.ran }

  /** The world once step k has failed. */
  function AfterFailure(w: World, k: nat, called: bool): World
    requires k < |w.saga.steps|
  {
    var steps' := WithStatus(w.saga.steps, k, Failed);
    World(Saga(Compensating, steps'), [], Backwards(steps', k), Called(w, w.saga.steps[k].id, called), Backwards(steps', k), w.undone)
  }

  lemma FailureShape(cfg: Config, w: World, k: nat, called: bool)
    requires Shape(cfg, w, Forward(k, false)) && k < |w.saga.steps|
    ensures Shape(cfg, AfterFailure(w, k, called), Undoing(k, 0, {}))
  {
    SameIds(w.saga.steps, k, Failed, k);
    SameIds(w.saga.steps, k, Failed, k + 1);
  }

  /** The world once step k has succeeded. */
  function AfterSuccess(w: World, k: nat): World
    requires k < |w.saga.steps|
  {
    var steps' := WithStatus(w.saga.steps, k, Completed);
    var last := k + 1 == |steps'|;
    World(Saga(if last then Completed else Started, steps'), if last then [] else [ToExecute(steps'[k + 1])], [], w.ran + [steps'[k].id], w.sent, w.undone)
  }

  lemma SuccessShape(cfg: Config, w: World, k: nat)
    requires Shape(cfg, w, Forward(k, false)) && k < |w.saga.steps| && w.saga.steps[k].action in cfg.actions
    ensures Shape(cfg, AfterSuccess(w, k), Forward(k + 1, false))
  {
    SameIds(w.saga.steps, k, Completed, k + 1);
  }

  lemma PanicShape(cfg: Config, w: World, k: nat)
    requires Shape(cfg, w, Forward(k, false)) && k < |w.saga.steps|
    ensures Shape(cfg, w.(executeQueue := [], ran := w.ran + [w.saga.steps[k].id]), Forward(k, true))
  {
  }

  /** What a turn of the execute queue does, case by case. */
  lemma ExecuteTakes(cfg: Config, w: World, k: nat, outcome: Outcome)
    requires Shape(cfg, w, Forward(k, false)) && k < |w.saga.steps|
    ensures Take(cfg, w, ExecuteNext(outcome)) ==
            if w.saga.steps[k].action !in cfg.actions then AfterFailure(w, k, false)
            else if outcome.Panic? then w.(executeQueue := [], ran := w.ran + [w.saga.steps[k].id])
            else if outcome.Err? then AfterFailure(w, k, true)
            else AfterSuccess(w, k)
  {
    FindsItself(w.saga.steps, k);
    FailingTurn(cfg, w, k);
    SucceedingTurn(cfg, w, k);
    UpdatesItself(w.saga, k, Failed);
    assert w.executeQueue[1..] == [];
    var steps' := WithStatus(w.saga.steps, k, Completed);
    if k + 1 < |steps'| { assert ExecuteMessages([steps'[k + 1]]) == [ToExecute(steps'[k + 1])]; }
  }

  /** How many messages can still be handled. */
  function Left(n: nat, p: Phase): int {
    match p
    case Forward(k, stuck) => if stuck || k == n then 0 else 2 * n - k
    case Undoing(k, c, _) => k - c
  }

  /** The turn finds a message. */
  predicate Finds(w: World, turn: Turn) {
    if turn.ExecuteNext? then w.executeQueue != [] else w.compensateQueue != []
  }

  /** How many of the turns found a message. */
  function Handled(cfg: Config, steps: seq<Step>, turns: seq<Turn>): nat {
    if turns == [] then 0
    else
      var before := turns[..|turns| - 1];
      Handled(cfg, steps, before) + if Finds(Run(cfg, StartWorld(steps), before), turns[|turns| - 1]) then 1 else 0
  }

  lemma ExecuteTurn(cfg: Config, w: World, p: Phase, outcome: Outcome) returns (p': Phase)
    requires Shape(cfg, w, p)
    ensures Shape(cfg, Take(cfg, w, ExecuteNext(outcome)), p') && (p' == p || p'.Forward? || p'.panicked == {})
    ensures w.executeQueue != [] ==> Left(|w.saga.steps|, p') < Left(|w.saga.steps|, p)
    ensures w.executeQueue == [] ==> p' == p
    ensures |Take(cfg, w, ExecuteNext(outcome)).saga.steps| == |w.saga.steps|
  {
    p' := p;
    if w.executeQueue != [] {
      var k := p.k;
      ExecuteTakes(cfg, w, k, outcome);
      if w.saga.steps[k].action !in cfg.actions || outcome.Err? {
        FailureShape(cfg, w, k, w.saga.steps[k].action in cfg.actions);
        p' := Undoing(k, 0, {});
      } else if outcome.Panic? {
        PanicShape(cfg, w, k);
        p' := Forward(k, true);
      } else {
        SuccessShape(cfg, w, k);
        p' := Forward(k + 1, false);
      }
    }
  }

  lemma UndoneStep(cfg: Config, w: World, k: nat, c: nat)
    requires DistinctIds(w.saga.steps) && UndoQueues(cfg, w, k, c) && c < k
    ensures var j := k - 1 - c;
            var steps := w.saga.steps;
            && w.compensateQueue[0] == ToCompensate(steps[j]) && IndexOf(steps, steps[j].id) == j
            && w.compensateQueue[1..] == Backwards(steps, j)
  {
    FindsItself(w.saga.steps, k - 1 - c);
    var queue := Backwards(w.saga.steps, k - c);
    assert queue[1..] == Backwards(w.saga.steps, k - 1 - c);
  }

  /** The steps and state after a compensation that took effect. */
  lemma CompensatingTurn(cfg: Config, w: World, p: Phase)
    requires Shape(cfg, w, p) && p.Undoing? && p.c < p.k
    ensures var j := p.k - 1 - p.c;
            var steps' := w.saga.steps[j := w.saga.steps[j].(status := Compensated)];
            && Update(w.saga, w.saga.steps[j].id, Compensated) == Some(Saga(Failed, steps')) && DistinctIds(steps')
            && (AnyCompleted(steps') <==> !(p.c + 1 == p.k && p.panicked == {}))
            && Backwards(steps', j) == Backwards(w.saga.steps, j)
  {
    var j := p.k - 1 - p.c;
    var steps' := w.saga.steps[j := w.saga.steps[j].(status := Compensated)];
    UpdatesItself(w.saga, j, Compensated);
    assert steps'[p.k].status.Failed?;
    BackwardsOfPrefix(w.saga.steps, steps', j);
    if p.c + 1 < p.k {
      assert steps'[0].status.Completed?;
    } else if p.panicked != {} {
      var i :| i in p.panicked;
      assert i != j && steps'[i].status.Completed?;
    }
  }

  /** The world once the compensation of step j has been handled. */
  function AfterUndo(w: World, j: nat, state: State, called: bool): World
    requires j < |w.saga.steps|
  {
    World(Saga(state, WithStatus(w.saga.steps, j, Compensated)), w.executeQueue, Backwards(w.saga.steps, j), w.ran, w.sent,
          if called then w.undone + [ToCompensate(w.saga.steps[j])] else w.undone)
  }

  /** The next message moves from the queue to the list of those handled. */
  lemma HandedOver(cfg: Config, steps: seq<Step>, k: nat, j: nat, undone: seq<Message>, queue: seq<Message>, sent: seq<Message>, called: bool)
    requires queue != [] && j < k <= |steps| && (called <==> steps[j].compensation in cfg.compensations)
    requires AllRegistered(cfg, steps, k) ==> undone + queue == sent
    ensures AllRegistered(cfg, steps, k) ==> (if called then undone + [queue[0]] else undone) + queue[1..] == sent
  {
    assert undone + queue == undone + [queue[0]] + queue[1..];
    assert AllRegistered(cfg, steps, k) ==> steps[j].compensation in cfg.compensations;
  }

  lemma SameRegistered(cfg: Config, steps: seq<Step>, j: nat, status: State, k: nat)
    requires j < |steps|
    ensures AllRegistered(cfg, WithStatus(steps, j, status), k) <==> AllRegistered(cfg, steps, k)
  {
    var steps' := WithStatus(steps, j, status);
    assert forall i | 0 <= i < |steps| :: steps'[i].compensation == steps[i].compensation;
  }

  lemma UndoQueuesKept(cfg: Config, w: World, k: nat, c: nat, state: State, called: bool)
    requires DistinctIds(w.saga.steps) && UndoQueues(cfg, w, k, c) && c < k && (called <==> Registered(cfg, w, k - 1 - c))
    ensures UndoQueues(cfg, AfterUndo(w, k - 1 - c, state, called), k, c + 1)
  {
    var j, steps := k - 1 - c, w.saga.steps;
    UndoneStep(cfg, w, k, c);
    HandedOver(cfg, steps, k, j, w.undone, w.compensateQueue, w.sent, called);
    SameIds(steps, j, Compensated, j);
    SameIds(steps, j, Compensated, k);
    SameIds(steps, j, Compensated, k + 1);
    SameRegistered(cfg, steps, j, Compensated, k);
  }

  lemma UndoShape(cfg: Config, w: World, p: Phase, state: State, called: bool)
    requires Shape(cfg, w, p) && p.Undoing? && p.c < p.k
    requires state == Failed || state == Compensated
    requires state == Compensated <==> p.c + 1 == p.k && p.panicked == {} && Registered(cfg, w, p.k - 1 - p.c)
    requires called <==> Registered(cfg, w, p.k - 1 - p.c)
    ensures Shape(cfg, AfterUndo(w, p.k - 1 - p.c, state, called), Undoing(p.k, p.c + 1, p.panicked))
  {
    UndoQueuesKept(cfg, w, p.k, p.c, state, called);
  }

  /** The world once the compensation handler of step j has panicked. */
  function AfterPanic(w: World, j: nat): World
    requires j < |w.saga.steps| && w.compensateQueue != []
  {
    w.(compensateQueue := w.compensateQueue[1..], undone := w.undone + [ToCompensate(w.saga.steps[j])])
  }

  lemma UndoPanicQueues(cfg: Config, w: World, k: nat, c: nat)
    requires DistinctIds(w.saga.steps) && UndoQueues(cfg, w, k, c) && c < k && Registered(cfg, w, k - 1 - c)
    ensures w.compensateQueue != [] && UndoQueues(cfg, AfterPanic(w, k - 1 - c), k, c + 1)
  {
    UndoneStep(cfg, w, k, c);
    HandedOver(cfg, w.saga.steps, k, k - 1 - c, w.undone, w.compensateQueue, w.sent, true);
  }

  lemma UndoPanicShape(cfg: Config, w: World, p: Phase)
    requires Shape(cfg, w, p) && p.Undoing? && p.c < p.k && Registered(cfg, w, p.k - 1 - p.c)
    ensures w.compensateQueue != []
    ensures Shape(cfg, AfterPanic(w, p.k - 1 - p.c), Undoing(p.k, p.c + 1, p.panicked + {p.k - 1 - p.c}))
  {
    UndoPanicQueues(cfg, w, p.k, p.c);
  }

  /** What a turn of the compensate queue does: if its handler panics, nothing but calling it. */
  lemma CompensatePanics(cfg: Config, w: World, p: Phase)
    requires Shape(cfg, w, p) && p.Undoing? && p.c < p.k && Registered(cfg, w, p.k - 1 - p.c)
    ensures w.compensateQueue != [] && Take(cfg, w, CompensateNext(Panic)) == AfterPanic(w, p.k - 1 - p.c)
  {
    UndoneStep(cfg, w, p.k, p.c);
  }

  lemma CompensationHandled(cfg: Config, w: World, p: Phase, outcome: Outcome)
    requires Shape(cfg, w, p) && p.Undoing? && p.c < p.k
    requires !(outcome.Panic? && Registered(cfg, w, p.k - 1 - p.c))
    ensures var j := p.k - 1 - p.c;
            var finished := Registered(cfg, w, j) && p.c + 1 == p.k && p.panicked == {};
            HandleCompensation(cfg, w.saga, w.saga.steps[j].id, w.saga.steps[j].compensation, outcome)
            == Saga(if finished then Compensated else Failed, WithStatus(w.saga.steps, j, Compensated))
  {
    CompensatingTurn(cfg, w, p);
  }

  /** A turn of the compensate queue hands its first message over. */
  lemma TakesNext(cfg: Config, w: World, j: nat, outcome: Outcome)
    requires w.compensateQueue != [] && j < |w.saga.steps|
    requires w.compensateQueue[0] == ToCompensate(w.saga.steps[j]) && IndexOf(w.saga.steps, w.saga.steps[j].id) == j
    ensures Take(cfg, w, CompensateNext(outcome)) ==
            w.(saga := HandleCompensation(cfg, w.saga, w.saga.steps[j].id, w.saga.steps[j].compensation, outcome),
               compensateQueue := w.compensateQueue[1..],
               undone := if Registered(cfg, w, j) then w.undone + [ToCompensate(w.saga.steps[j])] else w.undone)
  {
  }

  /** And otherwise the step is compensated, and perhaps the saga. */
  lemma CompensateTakes(cfg: Config, w: World, p: Phase, outcome: Outcome)
    requires Shape(cfg, w, p) && p.Undoing? && p.c < p.k
    requires !(outcome.Panic? && Registered(cfg, w, p.k - 1 - p.c))
    ensures var j := p.k - 1 - p.c;
            var registered := Registered(cfg, w, j);
            var finished := registered && p.c + 1 == p.k && p.panicked == {};
            Take(cfg, w, CompensateNext(outcome)) == AfterUndo(w, j, if finished then Compensated else Failed, registered)
  {
    UndoneStep(cfg, w, p.k, p.c);
    TakesNext(cfg, w, p.k - 1 - p.c, outcome);
    CompensationHandled(cfg, w, p, outcome);
  }

  lemma CompensateTurn(cfg: Config, w: World, p: Phase, outcome: Outcome) returns (p': Phase)
    requires Shape(cfg, w, p)
    ensures Shape(cfg, Take(cfg, w, CompensateNext(outcome)), p')
    ensures p' == p || (p.Undoing? && p'.Undoing? && (!outcome.Panic? ==> p'.panicked == p.panicked))
    ensures w.compensateQueue != [] ==> Left(|w.saga.steps|, p') < Left(|w.saga.steps|, p)
    ensures w.compensateQueue == [] ==> p' == p
    ensures |Take(cfg, w, CompensateNext(outcome)).saga.steps| == |w.saga.steps|
  {
    p' := p;
    if w.compensateQueue != [] {
      var j := p.k - 1 - p.c;
      var registered := Registered(cfg, w, j);
      if registered && outcome.Panic? {
        CompensatePanics(cfg, w, p);
        UndoPanicShape(cfg, w, p);
        p' := Undoing(p.k, p.c + 1, p.panicked + {j});
      } else {
        CompensateTakes(cfg, w, p, outcome);
        UndoShape(cfg, w, p, if registered && p.c + 1 == p.k && p.panicked == {} then Compensated else Failed, registered);
        p' := Undoing(p.k, p.c + 1, p.panicked);
      }
    }
  }

  /** No turn is a compensation handler that panics. */
  predicate NoPanics(turns: seq<Turn>) {
    forall i | 0 <= i < |turns| :: turns[i] != CompensateNext(Panic)
  }

  predicate Quiet(p: Phase) { p.Undoing? ==> p.panicked == {} }

  lemma OneTurn(cfg: Config, w: World, p: Phase, turn: Turn) returns (p': Phase)
    requires Shape(cfg, w, p)
    ensures Shape(cfg, Take(cfg, w, turn), p')
    ensures Quiet(p) && turn != CompensateNext(Panic) ==> Quiet(p')
    ensures Left(|w.saga.steps|, p') + (if Finds(w, turn) then 1 else 0) <= Left(|w.saga.steps|, p)
    ensures |Take(cfg, w, turn).saga.steps| == |w.saga.steps|
  {
    match turn
    case ExecuteNext(outcome) => p' := ExecuteTurn(cfg, w, p, outcome);
    case CompensateNext(outcome) => p' := CompensateTurn(cfg, w, p, outcome);
  }

  lemma {:induction false} RunShape(cfg: Config, steps: seq<Step>, turns: seq<Turn>) returns (p: Phase)
    requires DistinctIds(steps)
    ensures Shape(cfg, Run(cfg, StartWorld(steps), turns), p)
    ensures NoPanics(turns) ==> Quiet(p)
    ensures |Run(cfg, StartWorld(steps), turns).saga.steps| == |steps|
    ensures 0 <= Left(|steps|, p) <= 2 * |steps| - Handled(cfg, steps, turns)
  {
    if turns == [] {
      StartShape(cfg, steps);
      p := Forward(0, false);
    } else {
      var before := turns[..|turns| - 1];
      p := RunShape(cfg, steps, before);
      assert NoPanics(turns) ==> NoPanics(before) && turns[|turns| - 1] != CompensateNext(Panic);
      p := OneTurn(cfg, Run(cfg, StartWorld(steps), before), p, turns[|turns| - 1]);
    }
  }

  // ---- forward order ---------------------------------------------------------------------------

  /** The first k steps have completed and the others are still to be executed. */
  predicate CompletedThenStarted(steps: seq<Step>, k: nat) {
    k <= |steps| && forall i | 0 <= i < |steps| :: steps[i].status == if i < k then Completed else Started
  }

  /**
   While no step has failed, the statuses are a completed prefix followed by steps not yet
   executed; at most one execute message is outstanding, and it names the first step after
   the prefix. Once a step has failed nothing is published forward any more. The step
   handlers that ran are those of the first steps, in order.
   */
  lemma ForwardOrder(cfg: Config, steps: seq<Step>, turns: seq<Turn>)
    requires DistinctIds(steps)
    ensures var w := Run(cfg, StartWorld(steps), turns);
            && (if AnyFailed(w.saga.steps) then w.executeQueue == []
                else exists k: nat :: CompletedThenStarted(w.saga.steps, k)
                                      && (w.executeQueue == [] || (k < |w.saga.steps| && w.executeQueue == [ToExecute(w.saga.steps[k])])))
            && exists m: nat :: m <= |w.saga.steps| && w.ran == Ids(w.saga.steps, m)
  {
    var p := RunShape(cfg, steps, turns);
    var w := Run(cfg, StartWorld(steps), turns);
    match p
    case Forward(k, stuck) => assert CompletedThenStarted(w.saga.steps, k);
    case Undoing(k, _, _) => assert w.saga.steps[k].status.Failed?;
  }

  /** When a step's handler is called every earlier step has completed. */
  lemma CalledInOrder(cfg: Config, steps: seq<Step>, turns: seq<Turn>)
    requires DistinctIds(steps)
    requires var w := Run(cfg, StartWorld(steps), turns); w.executeQueue != []
    ensures var w := Run(cfg, StartWorld(steps), turns);
            var i := IndexOf(w.saga.steps, w.executeQueue[0].id);
            CompletedThenStarted(w.saga.steps, i) && i < |w.saga.steps|
  {
    var p := RunShape(cfg, steps, turns);
    FindsItself(Run(cfg, StartWorld(steps), turns).saga.steps, p.k);
  }

  /** A saga with steps is completed exactly when all of them are; one without never is. */
  lemma CompletedExactly(cfg: Config, steps: seq<Step>, turns: seq<Turn>)
    requires DistinctIds(steps)
    ensures var s := Run(cfg, StartWorld(steps), turns).saga;
            s.state == Completed <==> AllCompleted(s.steps) && s.steps != []
  {
    var p := RunShape(cfg, steps, turns);
    var s := Run(cfg, StartWorld(steps), turns).saga;
    match p
    case Forward(k, _) => if k < |s.steps| { assert !s.steps[k].status.Completed?; }
    case Undoing(k, _, _) => assert !s.steps[k].status.Completed?;
  }

  // ---- compensation ---------------------------------------------------------------------------

  /** Step k is the one that failed. */
  predicate FailedAt(w: World, k: nat) {
    k < |w.saga.steps| && w.saga.steps[k].status.Failed?
  }

  /** If step k failed, compensation was published once for each of the steps k - 1 down to 0, and for no other. */
  lemma CompensationIsReverse(cfg: Config, steps: seq<Step>, turns: seq<Turn>, k: nat)
    requires DistinctIds(steps)
    ensures var w := Run(cfg, StartWorld(steps), turns);
            && (FailedAt(w, k) ==> w.sent == Backwards(w.saga.steps, k) && |w.ran| <= k + 1)
            && (!AnyFailed(w.saga.steps) ==> w.sent == [])
            && (FailedAt(w, k) && AllRegistered(cfg, w.saga.steps, k) ==> w.undone + w.compensateQueue == w.sent)
  {
    var p := RunShape(cfg, steps, turns);
    var w := Run(cfg, StartWorld(steps), turns);
    if p.Undoing? {
      assert w.saga.steps[p.k].status.Failed?;
      IdsLength(w.saga.steps, p.k);
      IdsLength(w.saga.steps, p.k + 1);
    }
  }

  lemma {:induction false} IdsLength(steps: seq<Step>, n: nat)
    requires n <= |steps|
    ensures |Ids(steps, n)| == n
  {
    if n > 0 { IdsLength(steps, n - 1); }
  }

  lemma {:induction false} BackwardsLength(steps: seq<Step>, n: nat)
    requires n <= |steps|
    ensures |Backwards(steps, n)| == n
  {
    if n > 0 { BackwardsLength(steps, n - 1); }
  }

  /** A saga counts as compensated only when no step is still completed. */
  lemma CompensatedMeansUndone(cfg: Config, steps: seq<Step>, turns: seq<Turn>)
    requires DistinctIds(steps)
    ensures var s := Run(cfg, StartWorld(steps), turns).saga;
            s.state == Compensated ==> !AnyCompleted(s.steps) && AnyFailed(s.steps)
  {
    var p := RunShape(cfg, steps, turns);
    var s := Run(cfg, StartWorld(steps), turns).saga;
    if s.state == Compensated { assert s.steps[p.k].status.Failed?; }
  }

  /**
   Once step k has failed and the compensations are drained, the saga ends as compensated
   exactly when it was not its first step that failed, the first step has a compensation
   handler, and no step is left completed; and none is, unless a compensation handler panicked.
   */
  lemma CompensatedExactly(cfg: Config, steps: seq<Step>, turns: seq<Turn>, k: nat)
    requires DistinctIds(steps)
    requires var w := Run(cfg, StartWorld(steps), turns); FailedAt(w, k) && w.compensateQueue == []
    ensures var w := Run(cfg, StartWorld(steps), turns);
            w.saga.state == Compensated <==> k > 0 && Registered(cfg, w, 0) && !AnyCompleted(w.saga.steps)
    ensures NoPanics(turns) ==> !AnyCompleted(Run(cfg, StartWorld(steps), turns).saga.steps)
  {
    var p := RunShape(cfg, steps, turns);
    var w := Run(cfg, StartWorld(steps), turns);
    BackwardsLength(w.saga.steps, p.k - p.c);
    if p.panicked != {} {
      var i :| i in p.panicked;
      assert w.saga.steps[i].status.Completed?;
    }
  }

  // ---- the queues drain ---------------------------------------------------------------------------

  /** However the turns fall, no more than two messages per step are ever handled. */
  lemma FewMessages(cfg: Config, steps: seq<Step>, turns: seq<Turn>)
    requires DistinctIds(steps)
    ensures Handled(cfg, steps, turns) <= 2 * |steps|
  {
    var p := RunShape(cfg, steps, turns);
  }

  // ---- which sagas complete --------------------------------------------------------------------------

  /** Handlers change statuses; what the steps are stays as it was. */
  predicate SameDefinitions(steps: seq<Step>, steps': seq<Step>) {
    |steps'| == |steps| && forall i {:trigger steps'[i]} | 0 <= i < |steps| :: steps'[i] == steps[i].(status := steps'[i].status)
  }

  lemma TakeKeepsDefinitions(cfg: Config, w: World, turn: Turn)
    ensures SameDefinitions(w.saga.steps, Take(cfg, w, turn).saga.steps)
  {
    match turn
    case ExecuteNext(outcome) =>
      if w.executeQueue != [] { HandlingKeepsDefinitions(cfg, w.saga, w.executeQueue[0], outcome); }
    case CompensateNext(outcome) =>
      if w.compensateQueue != [] { UndoingKeepsDefinitions(cfg, w.saga, w.compensateQueue[0], outcome); }
  }

  lemma HandlingKeepsDefinitions(cfg: Config, s: Saga, m: Message, outcome: Outcome)
    ensures SameDefinitions(s.steps, HandleStep(cfg, s, m.id, m.name, outcome).saga.steps)
  {
  }

  lemma UndoingKeepsDefinitions(cfg: Config, s: Saga, m: Message, outcome: Outcome)
    ensures SameDefinitions(s.steps, HandleCompensation(cfg, s, m.id, m.name, outcome).steps)
  {
  }

  lemma {:induction false} RunKeepsDefinitions(cfg: Config, steps: seq<Step>, turns: seq<Turn>)
    ensures SameDefinitions(steps, Run(cfg, StartWorld(steps), turns).saga.steps)
  {
    if turns != [] {
      RunKeepsDefinitions(cfg, steps, turns[..|turns| - 1]);
      TakeKeepsDefinitions(cfg, Run(cfg, StartWorld(steps), turns[..|turns| - 1]), turns[|turns| - 1]);
    }
  }

  /** Step j shares its ID with an earlier one, i, and is still to be executed. */
  predicate Hidden(s: Saga, i: nat, j: nat) {
    i < j < |s.steps| && s.steps[i].id == s.steps[j].id && s.steps[j].status.Started? && s.state != Completed
  }

  /** No update reaches a step hidden behind an earlier one. */
  lemma UpdateMissesHidden(s: Saga, i: nat, j: nat, id: Id, status: State)
    requires Hidden(s, i, j)
    ensures var u := Update(s, id, status); u.Some? ==> Hidden(u.value, i, j) && NextStep(u.value.steps) < |u.value.steps|
  {
    var k := IndexOf(s.steps, id);
    if k < |s.steps| {
      var steps := s.steps[k := s.steps[k].(status := status)];
      assert k != j;
      assert steps[j].status.Started?;
    }
  }

  lemma StaysHidden(cfg: Config, w: World, turn: Turn, i: nat, j: nat)
    requires Hidden(w.saga, i, j)
    ensures Hidden(Take(cfg, w, turn).saga, i, j)
  {
    match turn
    case ExecuteNext(_) =>
      if w.executeQueue != [] {
        UpdateMissesHidden(w.saga, i, j, w.executeQueue[0].id, Failed);
        UpdateMissesHidden(w.saga, i, j, w.executeQueue[0].id, Completed);
      }
    case CompensateNext(_) =>
      if w.compensateQueue != [] { UpdateMissesHidden(w.saga, i, j, w.compensateQueue[0].id, Compensated); }
  }

  lemma {:induction false} HiddenForever(cfg: Config, steps: seq<Step>, turns: seq<Turn>, i: nat, j: nat)
    requires i < j < |steps| && steps[i].id == steps[j].id
    ensures Hidden(Run(cfg, StartWorld(steps), turns).saga, i, j)
  {
    if turns != [] {
      HiddenForever(cfg, steps, turns[..|turns| - 1], i, j);
      StaysHidden(cfg, Run(cfg, StartWorld(steps), turns[..|turns| - 1]), turns[|turns| - 1], i, j);
    }
  }

  /** A saga in which two steps share an ID never completes, whatever its handlers do and however its messages fall. */
  lemma SharedIdNeverCompletes(cfg: Config, steps: seq<Step>, turns: seq<Turn>)
    requires !DistinctIds(steps)
    ensures Run(cfg, StartWorld(steps), turns).saga.state != Completed
  {
    var i, j :| 0 <= i < j < |steps| && steps[i].id == steps[j].id;
    HiddenForever(cfg, steps, turns, i, j);
  }

  function AllOk(n: nat): seq<Turn> { seq(n, _ => ExecuteNext(Ok)) }

  /** While all handlers succeed, one step completes with each message. */
  lemma {:induction false} OkAdvances(cfg: Config, steps: seq<Step>, k: nat)
    requires DistinctIds(steps) && AllHandled(cfg, steps, |steps|) && k <= |steps|
    ensures Shape(cfg, Run(cfg, StartWorld(steps), AllOk(k)), Forward(k, false))
    ensures |Run(cfg, StartWorld(steps), AllOk(k)).saga.steps| == |steps|
  {
    if k == 0 {
      StartShape(cfg, steps);
    } else {
      var turns := AllOk(k);
      assert turns[..k - 1] == AllOk(k - 1);
      OkAdvances(cfg, steps, k - 1);
      RunKeepsDefinitions(cfg, steps, AllOk(k - 1));
      var w := Run(cfg, StartWorld(steps), AllOk(k - 1));
      ExecuteTakes(cfg, w, k - 1, Ok);
      SuccessShape(cfg, w, k - 1);
    }
  }

  /** Some outcomes of the handlers, in some order, complete the saga. */
  ghost predicate CanComplete(cfg: Config, steps: seq<Step>) {
    exists turns :: Run(cfg, StartWorld(steps), turns).saga.state == Completed
  }

  /** A saga can complete if and only if it has steps, their IDs differ, and each has a handler. */
  lemma CanCompleteExactly(cfg: Config, steps: seq<Step>)
    ensures CanComplete(cfg, steps) <==> steps != [] && DistinctIds(steps) && AllHandled(cfg, steps, |steps|)
  {
    if DistinctIds(steps) {
      if steps != [] && AllHandled(cfg, steps, |steps|) { OkAdvances(cfg, steps, |steps|); }
      forall turns | Run(cfg, StartWorld(steps), turns).saga.state == Completed
        ensures steps != [] && AllHandled(cfg, steps, |steps|) {
        CompletedIsHandled(cfg, steps, turns);
      }
    } else {
      forall turns ensures Run(cfg, StartWorld(steps), turns).saga.state != Completed {
        SharedIdNeverCompletes(cfg, steps, turns);
      }
    }
  }

  lemma CompletedIsHandled(cfg: Config, steps: seq<Step>, turns: seq<Turn>)
    requires DistinctIds(steps) && Run(cfg, StartWorld(steps), turns).saga.state == Completed
    ensures steps != [] && AllHandled(cfg, steps, |steps|)
  {
    CompletedExactly(cfg, steps, turns);
    var p := RunShape(cfg, steps, turns);
    var w := Run(cfg, StartWorld(steps), turns);
    RunKeepsDefinitions(cfg, steps, turns);
    forall i | 0 <= i < |steps| ensures steps[i].action in cfg.actions {
      assert w.saga.steps[i].action == steps[i].action;
    }
  }
}
