/**
 Exactly when the publisher keeps its promise: in terms of what a caller decides before the
 call, over all executions, in both directions.
 */
module DeliveryPromise {
  import opened DeliveryCore
  import opened DeliverySystem
  import opened DeliveryTheorems
  import opened DeliveryHistory
  import opened PreserveRest
  import opened CallerDiscipline
  import opened Scenarios

  // ---- errors, callbacks and what they say ----------------------------------------------------

  /**
   No call that returned an error has had a callback, none has had two, and every success,
   nack and failure reported did happen. Of a timeout this says only that some timer ran
   under the message's key: see DeliveryTimeouts for whether it was the message's own.
   */
  ghost predicate PromiseKept(cfg: Config, s: State) {
    && (forall c: nat {:trigger Rejected(s, c)} | Rejected(s, c) :: SignalsFor(s, c) == {})
    && (forall c: nat {:trigger SignalsFor(s, c)} :: |SignalsFor(s, c)| <= 1)
    && (forall i: nat {:trigger SoundSignal(cfg, s, i)} | i < |s.signals| :: SoundSignal(cfg, s, i))
  }

  /** It is kept throughout every execution in which these calls are made. */
  ghost predicate AlwaysKept(cfg: Config, requests: seq<Request>) {
    forall run: seq<State>, acts: seq<Action> {:trigger IsExecution(cfg, run, acts)} |
      IsExecution(cfg, run, acts) && Requests(acts) == requests ::
      forall i {:trigger run[i]} | 0 <= i < |run| :: PromiseKept(cfg, run[i])
  }

  lemma RunKeepsPromise(cfg: Config, run: seq<State>, acts: seq<Action>, i: nat)
    requires IsRun(cfg, run, acts) && i < |run|
    ensures PromiseKept(cfg, run[i])
  {
    RunInvariant(cfg, run, acts, i);
    forall c: nat ensures (Rejected(run[i], c) ==> SignalsFor(run[i], c) == {}) && |SignalsFor(run[i], c)| <= 1 {
      DeliveryContract(cfg, run, acts, i, i, c);
    }
    forall k: nat | k < |run[i].signals| ensures SoundSignal(cfg, run[i], k) {
      OutcomeIsSound(cfg, run[i], k);
    }
  }

  /** Careful callers get what they were promised, with nothing assumed of return frames. */
  lemma CarefulIsKept(cfg: Config, requests: seq<Request>)
    requires Careful(cfg, requests)
    ensures AlwaysKept(cfg, requests)
  {
    forall run: seq<State>, acts: seq<Action> | IsExecution(cfg, run, acts) && Requests(acts) == requests
      ensures forall i {:trigger run[i]} | 0 <= i < |run| :: PromiseKept(cfg, run[i]) {
      CarefulIsRun(cfg, run, acts);
      forall i | 0 <= i < |run| ensures PromiseKept(cfg, run[i]) {
        RunKeepsPromise(cfg, run, acts, i);
      }
    }
  }

  /** A return frame that comes late makes a callback say what is not true. */
  lemma MisreportIsUnsound(cfg: Config, s: State, o: nat)
    requires Poised(s, o)
    ensures !PromiseKept(cfg, Misreported(s, o))
  {
    assert !SoundSignal(cfg, Misreported(s, o), 0);
  }

  lemma UnkeptOnce(cfg: Config, requests: seq<Request>, s: State)
    requires Reachable(cfg, requests, false, s) && !PromiseKept(cfg, s)
    ensures !AlwaysKept(cfg, requests)
  {
    var run, acts :| LeadsTo(cfg, requests, false, run, acts, s);
    assert IsExecution(cfg, run, acts) && !PromiseKept(cfg, run[|run| - 1]);
  }

  /** The first message has expired, and another call may reuse its ID. */
  lemma SharedIsPoised(cfg: Config, requests: seq<Request>, m: nat, o: nat) returns (s: State)
    requires m < |requests| && o < |requests| && m != o && requests[m].mandatory && requests[m].id == requests[o].id
    ensures Reachable(cfg, requests, false, s) && Poised(s, o) && s.calls[o] == UserCall(o, requests[o])
  {
    var s0 := ReachPending(cfg, requests, false, m);
    ReachExpired(cfg, requests, false, s0, m);
    s := Expired(s0);
  }

  /** The first message has been refused, and its retry reuses its ID. */
  lemma RetriedIsPoised(cfg: Config, requests: seq<Request>, m: nat) returns (s: State)
    requires m < |requests| && requests[m].mandatory && Retries(cfg)
    ensures Reachable(cfg, requests, false, s) && Poised(s, |requests|)
  {
    var s0 := ReachPending(cfg, requests, false, m);
    ReachRepublished(cfg, requests, false, s0, m);
    s := Republished(s0, m);
  }

  lemma CarelessIsUnkept(cfg: Config, requests: seq<Request>)
    requires !Careful(cfg, requests)
    ensures !AlwaysKept(cfg, requests)
  {
    var s: State, o: nat;
    if Retries(cfg) && exists i :: 0 <= i < |requests| && requests[i].mandatory {
      var m: nat :| m < |requests| && requests[m].mandatory;
      o := |requests|;
      s := RetriedIsPoised(cfg, requests, m);
    } else {
      var i, j :| 0 <= i < j < |requests| && requests[i].id == requests[j].id && (requests[i].mandatory || requests[j].mandatory);
      var m := if requests[i].mandatory then i else j;
      o := if requests[i].mandatory then j else i;
      s := SharedIsPoised(cfg, requests, m, o);
    }
    ReachMisreported(cfg, requests, s, o);
    MisreportIsUnsound(cfg, s, o);
    UnkeptOnce(cfg, requests, Misreported(s, o));
  }

  /**
   For every configuration and all calls ever made of a publisher: it keeps its promise in
   every execution if and only if no mandatory message shares its ID with another, nor is
   ever retried under it.
   */
  lemma KeptExactly(cfg: Config, requests: seq<Request>)
    ensures AlwaysKept(cfg, requests) <==> Careful(cfg, requests)
  {
    if Careful(cfg, requests) {
      CarefulIsKept(cfg, requests);
    } else {
      CarelessIsUnkept(cfg, requests);
    }
  }

  /**
   If a mandatory message does share its ID with another, a call can return an error after
   its callback has run: one of the two calls gets both.
   */
  lemma SharedIdBreaksContract(cfg: Config, requests: seq<Request>, m: nat, o: nat) returns (s: State)
    requires m < |requests| && o < |requests| && m != o && requests[m].mandatory && requests[m].id == requests[o].id
    ensures Reachable(cfg, requests, false, s)
    ensures Rejected(s, o) && |SignalsFor(s, o)| == 1 && s.signals[0].outcome == DeliveryFailed
  {
    var s0 := SharedIsPoised(cfg, requests, m, o);
    s := ReachBroken(cfg, requests, s0, o);
    assert SignalsFor(s, o) == {0};
  }

  // ---- accepted means one callback --------------------------------------------------------------

  /** In every run, a call made with this request that is accepted has had exactly one callback once nothing more happens. */
  ghost predicate AlwaysCalledBack(cfg: Config, q: Request) {
    forall run: seq<State>, acts: seq<Action> {:trigger IsRun(cfg, run, acts)} | IsRun(cfg, run, acts) ::
      forall i: nat, c: nat {:trigger AcceptedAndQuiet(run[i], c)} |
        i < |run| && AcceptedAndQuiet(run[i], c) && RequestOf(run[i].calls[c]) == q :: |SignalsFor(run[i], c)| == 1
  }

  lemma UnheardIsQuiet(q: Request, s: State)
    requires Pending(s, 0) && s.calls == [UserCall(0, q).(state := ReturnedNil(0))]
    ensures AcceptedAndQuiet(Unheard(s, 0), 0) && SignalsFor(Unheard(s, 0), 0) == {}
    ensures RequestOf(Unheard(s, 0).calls[0]) == q
  {
  }

  /**
   For every configuration and every call: nil means exactly one callback if and only if the
   call brings a callback of its own or nothing is retried automatically.
   */
  lemma CalledBackExactly(cfg: Config, q: Request)
    ensures AlwaysCalledBack(cfg, q) <==> q.ownCallback || !Retries(cfg)
  {
    if q.ownCallback || !Retries(cfg) {
      forall run: seq<State>, acts: seq<Action>, i: nat, c: nat |
        IsRun(cfg, run, acts) && i < |run| && AcceptedAndQuiet(run[i], c) && RequestOf(run[i].calls[c]) == q
        ensures |SignalsFor(run[i], c)| == 1 {
        AcceptedMeansOneSignal(cfg, run, acts, i, c);
      }
    } else {
      var s := ReachPending(cfg, [q], true, 0);
      assert s.calls == [UserCall(0, q).(state := ReturnedNil(0))];
      ReachUnheard(cfg, [q], true, s, 0);
      UnheardIsQuiet(q, s);
      var run, acts :| LeadsTo(cfg, [q], true, run, acts, Unheard(s, 0));
      assert IsRun(cfg, run, acts) && AcceptedAndQuiet(run[|run| - 1], 0);
    }
  }
}
