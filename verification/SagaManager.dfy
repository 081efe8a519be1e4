/**
 The in-memory saga store and the manager on top of it, updating stored sagas in place.
 Each method is proved to do to the stored saga what SagaCore says.
 */
module SagaManager {
  import opened SagaCore

  class SagaRecord {
    const id: nat
    var state: State
    var steps: seq<Step>

    constructor (id: nat, steps: seq<Step>)
      ensures this.id == id && View() == Saga(Started, steps)
    {
      this.id := id;
      this.state, this.steps := Started, steps;
    }

    function View(): Saga
      reads this
    {
      Saga(state, steps)
    }

    /** GetNextStep. */
    method GetNextStep() returns (i: nat)
      ensures i == NextStep(steps)
    {
      i := 0;
      while i < |steps| && !steps[i].status.Started?
        invariant i <= |steps|
        invariant NextStep(steps) == i + NextStep(steps[i..])
      {
        assert steps[i..][1..] == steps[i + 1..];
        i := i + 1;
      }
    }

    /** Where a step ID is found first. */
    method Find(stepId: Id) returns (i: nat)
      ensures i == IndexOf(steps, stepId)
    {
      i := 0;
      while i < |steps| && steps[i].id != stepId
        invariant i <= |steps|
        invariant IndexOf(steps, stepId) == i + IndexOf(steps[i..], stepId)
      {
        assert steps[i..][1..] == steps[i + 1..];
        i := i + 1;
      }
    }

    /** The pass over the steps that decides the saga's state; it stops at the first failed one. */
    method DeriveState()
      modifies this`state
      ensures state == Derived(old(state), steps)
    {
      var allCompleted, anyFailed := true, false;
      var i := 0;
      while i < |steps| && !anyFailed
        invariant 0 <= i <= |steps|
        invariant anyFailed ==> AnyFailed(steps)
        invariant !anyFailed ==> forall j | 0 <= j < i :: !steps[j].status.Failed?
        invariant !anyFailed ==> (allCompleted <==> forall j | 0 <= j < i :: steps[j].status.Completed?)
      {
        if steps[i].status.Failed? {
          anyFailed := true;
        } else if !steps[i].status.Completed? {
          allCompleted := false;
        }
        i := i + 1;
      }
      if anyFailed {
        state := Failed;
      } else if allCompleted {
        state := Completed;
      }
    }
  }

  class InMemoryStore {
    var sagas: map<nat, SagaRecord>

    constructor ()
      ensures sagas == map[]
    {
      sagas := map[];
    }

    function Stored(sagaId: nat): set<object>
      reads this
    {
      if sagaId in sagas then {sagas[sagaId]} else {}
    }

    method SaveSaga(saga: SagaRecord)
      modifies this
      ensures sagas == old(sagas)[saga.id := saga]
    {
      sagas := sagas[saga.id := saga];
    }

    /** UpdateSagaStep: null stands for its two errors, saga not found and step not found. */
    method UpdateSagaStep(sagaId: nat, stepId: Id, status: State) returns (saga: SagaRecord?)
      modifies Stored(sagaId)
      ensures saga != null <==> sagaId in sagas && Update(old(sagas[sagaId].View()), stepId, status).Some?
      ensures saga != null ==> saga == sagas[sagaId] && saga.View() == Update(old(sagas[sagaId].View()), stepId, status).value
      ensures saga == null && sagaId in sagas ==> sagas[sagaId].View() == old(sagas[sagaId].View())
    {
      if sagaId !in sagas {
        return null;
      }
      saga := sagas[sagaId];
      var i := saga.Find(stepId);
      if i == |saga.steps| {
        return null;
      }
      saga.steps := saga.steps[i := saga.steps[i].(status := status)];
      saga.DeriveState();
    }

    method UpdateSagaState(sagaId: nat, state: State) returns (found: bool)
      modifies Stored(sagaId)
      ensures found == (sagaId in sagas)
      ensures found ==> sagas[sagaId].View() == old(sagas[sagaId].View()).(state := state)
    {
      found := sagaId in sagas;
      if found {
        sagas[sagaId].state := state;
      }
    }
  }

  /** A message carries its saga's ID and a copy of its step. */
  datatype Message = Message(sagaId: nat, step: Step)

  function Messages(sagaId: nat, steps: seq<Step>): (ms: seq<Message>)
    ensures |ms| == |steps| && forall i | 0 <= i < |ms| :: ms[i] == Message(sagaId, steps[i])
  {
    seq(|steps|, i requires 0 <= i < |steps| => Message(sagaId, steps[i]))
  }

  lemma MessagesStep(sagaId: nat, steps: seq<Step>, step: Step)
    ensures Messages(sagaId, steps + [step]) == Messages(sagaId, steps) + [Message(sagaId, step)]
  {
  }

  /** Compensate's loop moves one step from what is left to what is published. */
  lemma BackwardsStep(steps: seq<Step>, i: nat, published: seq<Step>)
    requires i < |steps|
    ensures published + CompletedBackwards(steps[..i + 1]) ==
            (if steps[i].status.Completed? then published + [steps[i]] else published) + CompletedBackwards(steps[..i])
  {
    assert steps[..i + 1][..i] == steps[..i];
  }

  class Manager {
    const cfg: Config
    const store: InMemoryStore
    var executeQueue: seq<Message>
    var compensateQueue: seq<Message>

    constructor (cfg: Config, store: InMemoryStore)
      ensures this.cfg == cfg && this.store == store && executeQueue == compensateQueue == []
    {
      this.cfg, this.store := cfg, store;
      executeQueue, compensateQueue := [], [];
    }

    /** Start: every step starts afresh, the saga is saved, and its first step, if any, is published. */
    method Start(id: nat, steps: seq<Step>) returns (saga: SagaRecord)
      modifies this`executeQueue, store
      ensures fresh(saga) && saga.id == id && store.sagas == old(store.sagas)[id := saga]
      ensures saga.state == Started && |saga.steps| == |steps|
      ensures forall i | 0 <= i < |steps| :: saga.steps[i] == steps[i].(status := Started)
      ensures executeQueue == old(executeQueue) + if steps == [] then [] else [Message(id, saga.steps[0])]
    {
      saga := new SagaRecord(id, steps);
      var i := 0;
      while i < |saga.steps|
        invariant 0 <= i <= |saga.steps| == |steps| && saga.state == Started && unchanged(this) && unchanged(store)
        invariant forall j | 0 <= j < |steps| :: saga.steps[j] == if j < i then steps[j].(status := Started) else steps[j]
      {
        saga.steps := saga.steps[i := saga.steps[i].(status := Started)];
        i := i + 1;
      }
      store.SaveSaga(saga);
      if |saga.steps| > 0 {
        executeQueue := executeQueue + [Message(id, saga.steps[0])];
      }
    }

    /** Compensate: publish every completed step, the last one first. */
    method Compensate(sagaId: nat)
      requires sagaId in store.sagas
      modifies this`compensateQueue, store.sagas[sagaId]
      ensures store.sagas[sagaId].View() == old(store.sagas[sagaId].View()).(state := Compensating)
      ensures compensateQueue == old(compensateQueue) + Messages(sagaId, CompletedBackwards(store.sagas[sagaId].steps))
    {
      var saga := store.sagas[sagaId];
      saga.state := Compensating;
      var i := |saga.steps|;
      ghost var published: seq<Step> := [];
      assert saga.steps[..i] == saga.steps;
      while i > 0
        invariant 0 <= i <= |saga.steps| && saga.View() == old(saga.View()).(state := Compensating)
        invariant published + CompletedBackwards(saga.steps[..i]) == CompletedBackwards(saga.steps)
        invariant compensateQueue == old(compensateQueue) + Messages(sagaId, published)
      {
        i := i - 1;
        BackwardsStep(saga.steps, i, published);
        if saga.steps[i].status == Completed {
          MessagesStep(sagaId, published, saga.steps[i]);
          compensateQueue := compensateQueue + [Message(sagaId, saga.steps[i])];
          published := published + [saga.steps[i]];
        }
      }
      assert published + CompletedBackwards([]) == published;
    }

    /** Mark the step failed, then the saga, then start compensating. */
    method FailStepOf(sagaId: nat, stepId: Id)
      requires sagaId in store.sagas
      modifies this`compensateQueue, store.sagas[sagaId]
      ensures var e := FailStep(old(store.sagas[sagaId].View()), stepId);
              store.sagas[sagaId].View() == e.saga && compensateQueue == old(compensateQueue) + Messages(sagaId, e.compensate)
    {
      var _ := store.UpdateSagaStep(sagaId, stepId, Failed);
      var _ := store.UpdateSagaState(sagaId, Failed);
      Compensate(sagaId);
    }

    /** The three effects of a handled step message on its saga and on the two queues. */
    twostate predicate Did(sagaId: nat, e: Effect)
      reads this, store, store.Stored(sagaId)
    {
      && sagaId in store.sagas && store.sagas[sagaId].View() == e.saga
      && executeQueue == old(executeQueue) + Messages(sagaId, e.execute)
      && compensateQueue == old(compensateQueue) + Messages(sagaId, e.compensate)
    }

    /** The last part of handleStepMessage: the step has succeeded. */
    method StepSucceeded(sagaId: nat, stepId: Id)
      requires sagaId in store.sagas
      modifies this`executeQueue, store.sagas[sagaId]
      ensures Did(sagaId, CompleteStep(old(store.sagas[sagaId].View()), stepId))
    {
      var updated := store.UpdateSagaStep(sagaId, stepId, Completed);
      if updated == null {
        return;
      }
      var next := updated.GetNextStep();
      if next < |updated.steps| {
        executeQueue := executeQueue + [Message(sagaId, updated.steps[next])];
      } else {
        var _ := store.UpdateSagaState(sagaId, Completed);
      }
    }

    /** handleStepMessage; a saga that is not in the store is only logged. */
    method HandleStepMessage(m: Message, outcome: Outcome)
      modifies this`executeQueue, this`compensateQueue, store.Stored(m.sagaId)
      ensures m.sagaId in store.sagas ==>
                Did(m.sagaId, HandleStep(cfg, old(store.sagas[m.sagaId].View()), m.step.id, m.step.action, outcome))
      ensures m.sagaId !in store.sagas ==> executeQueue == old(executeQueue) && compensateQueue == old(compensateQueue)
    {
      if m.sagaId !in store.sagas {
        return;
      }
      if m.step.action !in cfg.actions {
        FailStepOf(m.sagaId, m.step.id);
        return;
      }
      match outcome {
        case Panic =>
        case Err =>
          var updated := store.UpdateSagaStep(m.sagaId, m.step.id, Failed);
          if updated == null {
            return;
          }
          var _ := store.UpdateSagaState(m.sagaId, Failed);
          Compensate(m.sagaId);
        case Ok =>
          StepSucceeded(m.sagaId, m.step.id);
      }
    }

    /** The check whether any step is still completed. */
    method AllUndone(saga: SagaRecord) returns (all: bool)
      ensures all == !AnyCompleted(saga.steps)
    {
      all := true;
      var i := 0;
      while i < |saga.steps|
        invariant 0 <= i <= |saga.steps| && all
        invariant forall j | 0 <= j < i :: !saga.steps[j].status.Completed?
      {
        if saga.steps[i].status == Completed && saga.steps[i].status != Compensated {
          return false;
        }
        i := i + 1;
      }
    }

    /** handleCompensationMessage. */
    method HandleCompensationMessage(m: Message, outcome: Outcome)
      modifies store.Stored(m.sagaId)
      ensures m.sagaId in store.sagas ==>
                store.sagas[m.sagaId].View() == HandleCompensation(cfg, old(store.sagas[m.sagaId].View()), m.step.id, m.step.compensation, outcome)
    {
      if m.step.compensation !in cfg.compensations {
        var _ := store.UpdateSagaStep(m.sagaId, m.step.id, Compensated);
        return;
      }
      if outcome.Panic? {
        return;
      }
      var _ := store.UpdateSagaStep(m.sagaId, m.step.id, Compensated);
      if m.sagaId !in store.sagas {
        return;
      }
      var all := AllUndone(store.sagas[m.sagaId]);
      if all {
        var _ := store.UpdateSagaState(m.sagaId, Compensated);
      }
    }
  }
}
