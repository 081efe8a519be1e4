/**
 Topology self-healing: the registry, an abstract broker, and the three phases that bring
 the broker to what the registry records. Only existence is modelled: which exchanges,
 queues and bindings there are, not their arguments.
 */
module Topology {
  /** Names of exchanges, queues and routing keys; 0 is the empty name. */
  type Name = nat

  datatype Binding = Binding(queue: Name, exchange: Name, key: Name)

  // ---- what a pass does to the sets of exchanges and queues ----------------------------------

  /** Restoring the bindings of an exchange fails exactly when one of their queues is missing. */
  predicate Restorable(bindings: set<Binding>, exchange: Name, queues: set<Name>) {
    forall b | b in bindings && b.exchange == exchange :: b.queue in queues
  }

  datatype Existing = Existing(exchanges: set<Name>, queues: set<Name>)

  /** Phase 2 for one queue: its dead-letter exchange first; if restoring that one's bindings fails, the queue has to wait. */
  function RecreateOne(bindings: set<Binding>, deadLetters: map<Name, Name>, e: Existing, queue: Name): Existing
    requires queue in deadLetters
  {
    var dlx := deadLetters[queue];
    if queue in e.queues then e
    else if dlx == 0 || dlx in e.exchanges then Existing(e.exchanges, e.queues + {queue})
    else if Restorable(bindings, dlx, e.queues) then Existing(e.exchanges + {dlx}, e.queues + {queue})
    else Existing(e.exchanges + {dlx}, e.queues)
  }

  function RecreateQueues(bindings: set<Binding>, deadLetters: map<Name, Name>, e: Existing, order: seq<Name>): Existing
    requires forall q | q in order :: q in deadLetters
    decreases |order|
  {
    if order == [] then e
    else RecreateQueues(bindings, deadLetters, RecreateOne(bindings, deadLetters, e, order[0]), order[1..])
  }

  /** An order in which a map or set may be listed. */
  ghost predicate IsListing<T(!new)>(order: seq<T>, all: set<T>) {
    && (forall x :: x in order <==> x in all)
    && forall i, j | 0 <= i < j < |order| :: order[i] != order[j]
  }

  /** A missing queue that a pass can recreate whatever else is missing. */
  predicate Recreatable(bindings: set<Binding>, deadLetters: map<Name, Name>, e: Existing, queue: Name)
    requires queue in deadLetters
  {
    queue in e.queues || deadLetters[queue] == 0 || deadLetters[queue] in e.exchanges || Restorable(bindings, deadLetters[queue], e.queues)
  }

  predicate AllRecreatable(bindings: set<Binding>, deadLetters: map<Name, Name>, e: Existing) {
    forall q | q in deadLetters :: Recreatable(bindings, deadLetters, e, q)
  }

  /** Nothing that exists goes away, and only listed queues are added. */
  lemma {:induction false} RecreatingOnlyAdds(bindings: set<Binding>, deadLetters: map<Name, Name>, e: Existing, order: seq<Name>)
    requires forall q | q in order :: q in deadLetters
    ensures var e' := RecreateQueues(bindings, deadLetters, e, order);
            e.exchanges <= e'.exchanges && e.queues <= e'.queues && forall q | q in e'.queues :: q in e.queues || q in order
    decreases |order|
  {
    if order != [] {
      RecreatingOnlyAdds(bindings, deadLetters, RecreateOne(bindings, deadLetters, e, order[0]), order[1..]);
    }
  }

  /** If each missing queue can be recreated, one pass over them in any order recreates all. */
  lemma {:induction false} AnyOrderRecreates(bindings: set<Binding>, deadLetters: map<Name, Name>, e: Existing, order: seq<Name>)
    requires (forall q | q in order :: q in deadLetters) && AllRecreatable(bindings, deadLetters, e)
    ensures forall q | q in order :: q in RecreateQueues(bindings, deadLetters, e, order).queues
    decreases |order|
  {
    if order != [] {
      var e1 := RecreateOne(bindings, deadLetters, e, order[0]);
      forall q | q in deadLetters ensures Recreatable(bindings, deadLetters, e1, q) {
        assert Recreatable(bindings, deadLetters, e, q);
      }
      assert Recreatable(bindings, deadLetters, e, order[0]);
      AnyOrderRecreates(bindings, deadLetters, e1, order[1..]);
      RecreatingOnlyAdds(bindings, deadLetters, e1, order[1..]);
    }
  }

  lemma {:induction false} SomeListing(all: set<Name>) returns (order: seq<Name>)
    ensures IsListing(order, all)
  {
    if all == {} {
      order := [];
    } else {
      var x :| x in all;
      var rest := SomeListing(all - {x});
      order := [x] + rest;
    }
  }

  /** A queue that cannot be recreated is left missing by a pass that comes to it first. */
  lemma FirstIsLeft(bindings: set<Binding>, deadLetters: map<Name, Name>, e: Existing, queue: Name) returns (order: seq<Name>)
    requires queue in deadLetters && !Recreatable(bindings, deadLetters, e, queue)
    ensures IsListing(order, deadLetters.Keys) && queue !in RecreateQueues(bindings, deadLetters, e, order).queues
  {
    var rest := SomeListing(deadLetters.Keys - {queue});
    order := [queue] + rest;
    assert order[1..] == rest;
    RecreatingOnlyAdds(bindings, deadLetters, RecreateOne(bindings, deadLetters, e, queue), rest);
  }

  /** Every order in which the queues may be listed recreates all of them. */
  ghost predicate EveryOrderRecreates(bindings: set<Binding>, deadLetters: map<Name, Name>, e: Existing) {
    forall order | IsListing(order, deadLetters.Keys) :: deadLetters.Keys <= RecreateQueues(bindings, deadLetters, e, order).queues
  }

  /**
   Phase 2 recreates every registered queue whatever the listing order if and only if no
   missing queue dead-letters to an exchange that is itself missing by then and has a
   registered binding to a missing queue.
   */
  lemma OnePassExactly(bindings: set<Binding>, deadLetters: map<Name, Name>, e: Existing)
    ensures EveryOrderRecreates(bindings, deadLetters, e) <==> AllRecreatable(bindings, deadLetters, e)
  {
    if AllRecreatable(bindings, deadLetters, e) {
      forall order | IsListing(order, deadLetters.Keys)
        ensures deadLetters.Keys <= RecreateQueues(bindings, deadLetters, e, order).queues {
        AnyOrderRecreates(bindings, deadLetters, e, order);
      }
    } else {
      var q :| q in deadLetters && !Recreatable(bindings, deadLetters, e, q);
      var order := FirstIsLeft(bindings, deadLetters, e, q);
      assert q in deadLetters.Keys;
    }
  }

  /** After one pass every dead-letter exchange a missing queue was waiting for exists. */
  lemma {:induction false} WaitingIsOver(bindings: set<Binding>, deadLetters: map<Name, Name>, e: Existing, order: seq<Name>)
    requires forall q | q in order :: q in deadLetters
    ensures var e' := RecreateQueues(bindings, deadLetters, e, order);
            forall q | q in order :: q in e'.queues || deadLetters[q] in e'.exchanges
    decreases |order|
  {
    if order != [] {
      var e1 := RecreateOne(bindings, deadLetters, e, order[0]);
      WaitingIsOver(bindings, deadLetters, e1, order[1..]);
      RecreatingOnlyAdds(bindings, deadLetters, e1, order[1..]);
    }
  }

  /** So a second pass recreates every queue, whatever the first one found. */
  lemma TwoPassesRecreate(bindings: set<Binding>, deadLetters: map<Name, Name>, e: Existing, first: seq<Name>, second: seq<Name>, more: set<Name>)
    requires IsListing(first, deadLetters.Keys) && IsListing(second, deadLetters.Keys)
    ensures var e1 := RecreateQueues(bindings, deadLetters, e, first);
            deadLetters.Keys <= RecreateQueues(bindings, deadLetters, Existing(e1.exchanges + more, e1.queues), second).queues
  {
    var e1 := RecreateQueues(bindings, deadLetters, e, first);
    WaitingIsOver(bindings, deadLetters, e, first);
    AnyOrderRecreates(bindings, deadLetters, Existing(e1.exchanges + more, e1.queues), second);
  }

  // ---- the broker and the registry ---------------------------------------------------------------

  /** The broker: it takes every declaration, and a binding whose exchange and queue both exist. */
  class Broker {
    var exchanges: set<Name>
    var queues: set<Name>
    var bindings: set<Binding>
    var declarations: nat

    constructor ()
      ensures exchanges == {} && queues == {} && bindings == {} && declarations == 0
    {
      exchanges, queues, bindings, declarations := {}, {}, {}, 0;
    }

    function Now(): Existing
      reads this
    {
      Existing(exchanges, queues)
    }

    predicate Accepts(b: Binding)
      reads this
    {
      b.exchange != 0 && b.exchange in exchanges && b.queue in queues
    }

    method DeclareExchange(x: Name)
      modifies this`exchanges, this`declarations
      ensures exchanges == old(exchanges) + {x} && declarations == old(declarations) + 1
    {
      exchanges, declarations := exchanges + {x}, declarations + 1;
    }

    method DeclareQueue(q: Name)
      modifies this`queues, this`declarations
      ensures queues == old(queues) + {q} && declarations == old(declarations) + 1
    {
      queues, declarations := queues + {q}, declarations + 1;
    }

    method BindQueue(b: Binding) returns (ok: bool)
      modifies this`bindings
      ensures ok == Accepts(b) && bindings == if ok then old(bindings) + {b} else old(bindings)
    {
      ok := Accepts(b);
      if ok {
        bindings := bindings + {b};
      }
    }
  }

  /** List a set in some order. */
  method List<T(==,!new)>(all: set<T>) returns (order: seq<T>)
    ensures IsListing(order, all)
  {
    order := [];
    var left := all;
    while left != {}
      invariant left <= all
      invariant IsListing(order, all - left)
    {
      var x :| x in left;
      order := order + [x];
      left := left - {x};
      assert all - left == (all - left - {x}) + {x};
    }
    assert all - left == all;
  }

  class Registry {
    var exchanges: set<Name>
    var deadLetters: map<Name, Name>   // the registered queues, each with its dead-letter exchange or 0
    var bindings: set<Binding>

    constructor ()
      ensures exchanges == {} && deadLetters == map[] && bindings == {}
    {
      exchanges, deadLetters, bindings := {}, map[], {};
    }

    method RegisterExchange(x: Name)
      modifies this`exchanges
      ensures exchanges == old(exchanges) + {x}
    {
      exchanges := exchanges + {x};
    }

    method RegisterQueue(q: Name, dlx: Name)
      modifies this`deadLetters
      ensures deadLetters == old(deadLetters)[q := dlx]
    {
      deadLetters := deadLetters[q := dlx];
    }
  }

  class Validator {
    const registry: Registry
    const broker: Broker

    constructor (registry: Registry, broker: Broker)
      ensures this.registry == registry && this.broker == broker
    {
      this.registry, this.broker := registry, broker;
    }

    /** Exchanges are only ever added, to the registry as to the broker, and none nameless. */
    twostate predicate RegistersOnlyMade()
      reads registry, broker
    {
      && old(broker.exchanges) <= broker.exchanges && old(registry.exchanges) <= registry.exchanges
      && forall x | x in registry.exchanges :: x in old(registry.exchanges) || (x != 0 && x in broker.exchanges)
    }

    /** No binding is lost, and none made that is not registered. */
    twostate predicate BindsOnlyRegistered()
      reads registry, broker
    {
      old(broker.bindings) <= broker.bindings <= old(broker.bindings) + registry.bindings
    }

    /** Restore the given bindings one by one, stopping at the first that fails. */
    method RestoreBindings(bindings: seq<Binding>) returns (ok: bool)
      requires forall b | b in bindings :: b in registry.bindings
      modifies broker`bindings
      ensures ok <==> forall b | b in bindings :: broker.Accepts(b)
      ensures BindsOnlyRegistered()
      ensures ok ==> forall b | b in bindings :: b in broker.bindings
    {
      var i := 0;
      while i < |bindings|
        invariant 0 <= i <= |bindings|
        invariant forall j | 0 <= j < i :: broker.Accepts(bindings[j]) && bindings[j] in broker.bindings
        invariant BindsOnlyRegistered()
      {
        var bound := broker.BindQueue(bindings[i]);
        if !bound {
          return false;
        }
        i := i + 1;
      }
      ok := true;
    }

    /** recreateExchangeBindings. */
    method RecreateExchangeBindings(x: Name) returns (ok: bool)
      requires x != 0 && x in broker.exchanges
      modifies broker`bindings
      ensures ok <==> Restorable(registry.bindings, x, broker.queues)
      ensures BindsOnlyRegistered()
      ensures ok ==> forall b | b in registry.bindings && b.exchange == x :: b in broker.bindings
    {
      var own := set b | b in registry.bindings && b.exchange == x;
      var order := List(own);
      ok := RestoreBindings(order);
      assert forall b :: b in order <==> b in registry.bindings && b.exchange == x;
    }

    /** recreateQueueBindings; its result is only logged. */
    method RecreateQueueBindings(q: Name)
      modifies broker`bindings
      ensures BindsOnlyRegistered()
      ensures (forall b | b in registry.bindings && b.queue == q :: broker.Accepts(b)) ==>
                forall b | b in registry.bindings && b.queue == q :: b in broker.bindings
    {
      var order := List(set b | b in registry.bindings && b.queue == q);
      var _ := RestoreBindings(order);
    }

    /** recreateExchange: declared and registered whatever becomes of its bindings. */
    method RecreateExchange(x: Name) returns (ok: bool)
      requires x != 0
      modifies broker`exchanges, broker`declarations, broker`bindings, registry`exchanges
      ensures broker.exchanges == old(broker.exchanges) + {x} && registry.exchanges == old(registry.exchanges) + {x}
      ensures broker.declarations == old(broker.declarations) + 1
      ensures ok <==> Restorable(registry.bindings, x, broker.queues)
      ensures BindsOnlyRegistered()
      ensures ok ==> forall b | b in registry.bindings && b.exchange == x :: b in broker.bindings
    {
      broker.DeclareExchange(x);
      registry.RegisterExchange(x);
      ok := RecreateExchangeBindings(x);
    }

    /** ensureExchangeExists: an exchange nobody registered is created with the default configuration. */
    method EnsureExchangeExists(x: Name) returns (ok: bool)
      modifies broker`exchanges, broker`declarations, broker`bindings, registry`exchanges
      ensures broker.exchanges == if x == 0 then old(broker.exchanges) else old(broker.exchanges) + {x}
      ensures registry.exchanges == if x == 0 || x in old(broker.exchanges) then old(registry.exchanges) else old(registry.exchanges) + {x}
      ensures broker.declarations == old(broker.declarations) + if x == 0 || x in old(broker.exchanges) then 0 else 1
      ensures ok <==> x == 0 || x in old(broker.exchanges) || Restorable(registry.bindings, x, broker.queues)
      ensures BindsOnlyRegistered()
    {
      if x == 0 {
        return true;
      }
      if x in broker.exchanges {
        return true;
      }
      ok := RecreateExchange(x);
    }

    /** recreateQueue, after its dead-letter exchange has been ensured. */
    method RecreateQueue(q: Name)
      requires q in registry.deadLetters
      modifies broker`queues, broker`declarations, broker`bindings, registry`deadLetters
      ensures broker.queues == old(broker.queues) + {q} && registry.deadLetters == old(registry.deadLetters)
      ensures broker.declarations == old(broker.declarations) + 1
      ensures BindsOnlyRegistered()
    {
      broker.DeclareQueue(q);
      registry.RegisterQueue(q, registry.deadLetters[q]);
      RecreateQueueBindings(q);
    }

    /** Phase 1: every registered exchange. */
    method RecreateExchanges()
      requires 0 !in registry.exchanges
      modifies broker`exchanges, broker`declarations, broker`bindings, registry`exchanges
      ensures broker.exchanges == old(broker.exchanges) + registry.exchanges && registry.exchanges == old(registry.exchanges)
      ensures BindsOnlyRegistered()
      ensures registry.exchanges <= old(broker.exchanges) ==> broker.declarations == old(broker.declarations)
    {
      var order := List(registry.exchanges);
      var i := 0;
      while i < |order|
        invariant 0 <= i <= |order| && registry.exchanges == old(registry.exchanges)
        invariant broker.exchanges == old(broker.exchanges) + set x | x in order[..i]
        invariant BindsOnlyRegistered()
        invariant registry.exchanges <= old(broker.exchanges) ==> broker.declarations == old(broker.declarations)
      {
        assert order[..i + 1] == order[..i] + [order[i]];
        assert order[i] in registry.exchanges;
        if order[i] !in broker.exchanges {
          var _ := RecreateExchange(order[i]);
        }
        i := i + 1;
      }
      assert order[..i] == order;
    }

    /** One turn of phase 2. */
    method RecreateOneQueue(q: Name)
      requires q in registry.deadLetters
      modifies broker, registry`exchanges, registry`deadLetters
      ensures registry.deadLetters == old(registry.deadLetters)
      ensures broker.Now() == RecreateOne(registry.bindings, registry.deadLetters, old(broker.Now()), q)
      ensures RegistersOnlyMade()
      ensures BindsOnlyRegistered()
      ensures q in old(broker.queues) ==> broker.declarations == old(broker.declarations)
    {
      if q in broker.queues {
        return;
      }
      var ok := EnsureExchangeExists(registry.deadLetters[q]);
      if ok {
        RecreateQueue(q);
      }
    }

    /** Phase 2: every registered queue, in the order the registry happens to list them. */
    method RecreateMissingQueues() returns (order: seq<Name>)
      modifies broker, registry`exchanges, registry`deadLetters
      ensures IsListing(order, registry.deadLetters.Keys)
      ensures broker.Now() == RecreateQueues(registry.bindings, registry.deadLetters, old(broker.Now()), order)
      ensures registry.deadLetters == old(registry.deadLetters)
      ensures RegistersOnlyMade()
      ensures BindsOnlyRegistered()
      ensures registry.deadLetters.Keys <= old(broker.queues) ==> broker.declarations == old(broker.declarations)
    {
      order := List(registry.deadLetters.Keys);
      var i := 0;
      assert order[0..] == order;
      while i < |order|
        invariant 0 <= i <= |order| && registry.deadLetters == old(registry.deadLetters)
        invariant RecreateQueues(registry.bindings, registry.deadLetters, broker.Now(), order[i..])
               == RecreateQueues(registry.bindings, registry.deadLetters, old(broker.Now()), order)
        invariant RegistersOnlyMade()
        invariant BindsOnlyRegistered() && old(broker.queues) <= broker.queues
        invariant registry.deadLetters.Keys <= old(broker.queues) ==> broker.declarations == old(broker.declarations)
      {
        assert order[i..][1..] == order[i + 1..];
        RecreateOneQueue(order[i]);
        i := i + 1;
      }
    }

    /** One turn of phase 3. */
    method RestoreOneBinding(b: Binding)
      requires b in registry.bindings
      modifies broker`exchanges, broker`declarations, broker`bindings, registry`exchanges
      ensures broker.exchanges == if b.exchange == 0 then old(broker.exchanges) else old(broker.exchanges) + {b.exchange}
      ensures RegistersOnlyMade()
      ensures BindsOnlyRegistered()
      ensures b.exchange != 0 && b.queue in broker.queues && (b.exchange in old(broker.exchanges) || Restorable(registry.bindings, b.exchange, broker.queues)) ==>
                b in broker.bindings
      ensures b.exchange == 0 || b.exchange in old(broker.exchanges) ==> broker.declarations == old(broker.declarations)
    {
      var ok := EnsureExchangeExists(b.exchange);
      if ok && b.queue in broker.queues {
        var _ := broker.BindQueue(b);
      }
    }

    /** Phase 3: every registered binding. */
    method RestoreAllBindings()
      modifies broker`exchanges, broker`declarations, broker`bindings, registry`exchanges
      ensures forall b | b in registry.bindings && b.exchange != 0 :: b.exchange in broker.exchanges
      ensures RegistersOnlyMade()
      ensures BindsOnlyRegistered()
      ensures forall b | b in registry.bindings && b.exchange != 0 && b.queue in broker.queues
                         && (b.exchange in old(broker.exchanges) || Restorable(registry.bindings, b.exchange, broker.queues)) :: b in broker.bindings
      ensures (forall b | b in registry.bindings :: b.queue in broker.queues) ==>
                forall b | b in registry.bindings && b.exchange != 0 :: b in broker.bindings
      ensures (forall b | b in registry.bindings :: b.exchange == 0 || b.exchange in old(broker.exchanges)) ==>
                broker.declarations == old(broker.declarations)
    {
      var order := List(registry.bindings);
      var i := 0;
      while i < |order|
        invariant 0 <= i <= |order|
        invariant forall j | 0 <= j < i && order[j].exchange != 0 :: order[j].exchange in broker.exchanges
        invariant BindsOnlyRegistered()
        invariant RegistersOnlyMade()
        invariant forall j | 0 <= j < i && order[j].exchange != 0 && order[j].queue in broker.queues
                             && (order[j].exchange in old(broker.exchanges) || Restorable(registry.bindings, order[j].exchange, broker.queues)) ::
                    order[j] in broker.bindings
        invariant (forall b | b in registry.bindings :: b.exchange == 0 || b.exchange in old(broker.exchanges)) ==>
                    broker.declarations == old(broker.declarations)
      {
        assert order[i] in registry.bindings;
        RestoreOneBinding(order[i]);
        i := i + 1;
      }
    }

    /** Everything the registry names exists. */
    predicate Converged()
      reads registry, broker
    {
      && registry.exchanges <= broker.exchanges && registry.deadLetters.Keys <= broker.queues
      && forall b | b in registry.bindings && b.exchange != 0 :: b.exchange in broker.exchanges && b in broker.bindings
    }

    /** Every registered binding is on a queue that is registered or exists. */
    predicate BindingsComplete()
      reads registry, broker
    {
      forall b | b in registry.bindings :: b.queue in registry.deadLetters || b.queue in broker.queues
    }

    /** What exists once the registered exchanges do. */
    function AfterPhase1(): Existing
      reads registry, broker
    {
      Existing(broker.exchanges + registry.exchanges, broker.queues)
    }

    /** No missing queue has to wait for its dead-letter exchange. */
    predicate NoneWaits()
      reads registry, broker
    {
      AllRecreatable(registry.bindings, registry.deadLetters, AfterPhase1())
    }

    /**
     performBackgroundValidation. One pass loses nothing and makes every registered exchange
     exist; it makes every queue exist whatever the listing order, if none of them has to
     wait for its dead-letter exchange; and then every binding as well. A pass over a broker
     that has everything declares nothing.
     */
    method PerformBackgroundValidation() returns (order: seq<Name>)
      requires 0 !in registry.exchanges
      modifies broker, registry`exchanges, registry`deadLetters
      ensures registry.deadLetters == old(registry.deadLetters) && old(registry.exchanges) <= registry.exchanges <= broker.exchanges && 0 !in registry.exchanges
      ensures old(broker.exchanges) <= broker.exchanges && old(broker.queues) <= broker.queues && BindsOnlyRegistered()
      ensures IsListing(order, registry.deadLetters.Keys)
      ensures var e := RecreateQueues(registry.bindings, registry.deadLetters, old(AfterPhase1()), order);
              broker.queues == e.queues && e.exchanges <= broker.exchanges
      ensures old(NoneWaits()) && old(BindingsComplete()) ==> Converged()
      ensures old(Converged()) ==> broker.declarations == old(broker.declarations)
    {
      RecreateExchanges();
      ghost var e := broker.Now();
      order := RecreateMissingQueues();
      RecreatingOnlyAdds(registry.bindings, registry.deadLetters, e, order);
      if AllRecreatable(registry.bindings, registry.deadLetters, e) {
        AnyOrderRecreates(registry.bindings, registry.deadLetters, e, order);
      }
      RestoreAllBindings();
    }

    /** Two passes make everything exist whatever was missing and however the registry lists it. */
    method ValidateTwice()
      requires 0 !in registry.exchanges
      modifies broker, registry`exchanges, registry`deadLetters
      ensures registry.deadLetters == old(registry.deadLetters) && old(registry.exchanges) <= registry.exchanges <= broker.exchanges && 0 !in registry.exchanges
      ensures registry.deadLetters.Keys <= broker.queues
      ensures old(BindingsComplete()) ==> Converged()
    {
      ghost var e := AfterPhase1();
      var first := PerformBackgroundValidation();
      ghost var e1 := RecreateQueues(registry.bindings, registry.deadLetters, e, first);
      ghost var more := broker.exchanges;
      assert AfterPhase1() == Existing(e1.exchanges + more, e1.queues);
      WaitingIsOver(registry.bindings, registry.deadLetters, e, first);
      var second := PerformBackgroundValidation();
      TwoPassesRecreate(registry.bindings, registry.deadLetters, e, first, second, more);
    }

    /** And a third pass then declares nothing. */
    method ValidateThrice() returns (declared: int)
      requires 0 !in registry.exchanges
      modifies broker, registry`exchanges, registry`deadLetters
      ensures old(BindingsComplete()) ==> Converged() && declared == 0
      ensures registry.deadLetters.Keys <= broker.queues && registry.exchanges <= broker.exchanges
    {
      ValidateTwice();
      var before := broker.declarations;
      var _ := PerformBackgroundValidation();
      declared := broker.declarations - before;
    }
  }

  /** Each dead-letter exchange is none, is registered, or has no registered binding. */
  predicate NeverWaits(bindings: set<Binding>, deadLetters: map<Name, Name>, registered: set<Name>) {
    forall q | q in deadLetters ::
      deadLetters[q] == 0 || deadLetters[q] in registered || forall b | b in bindings :: b.exchange != deadLetters[q]
  }

  /** Phase 2 recreates every queue in every listing order, whatever the broker has lost, once phase 1 has made the registered exchanges. */
  ghost predicate OnePassIsAlwaysEnough(bindings: set<Binding>, deadLetters: map<Name, Name>, registered: set<Name>) {
    forall e: Existing :: EveryOrderRecreates(bindings, deadLetters, Existing(e.exchanges + registered, e.queues))
  }

  /** A broker that has lost everything leaves a queue to wait whose dead-letter exchange is bound but not registered. */
  lemma NothingLeftWaits(bindings: set<Binding>, deadLetters: map<Name, Name>, registered: set<Name>)
    requires !NeverWaits(bindings, deadLetters, registered)
    ensures !AllRecreatable(bindings, deadLetters, Existing(registered, {}))
  {
    var q :| q in deadLetters && !(deadLetters[q] == 0 || deadLetters[q] in registered || forall b | b in bindings :: b.exchange != deadLetters[q]);
    assert !Recreatable(bindings, deadLetters, Existing(registered, {}), q);
  }

  /**
   For every registry: one pass is enough whatever was missing if and only if each
   dead-letter exchange is none, is registered, or has no registered binding.
   */
  lemma OnePassIsAlwaysEnoughExactly(bindings: set<Binding>, deadLetters: map<Name, Name>, registered: set<Name>)
    ensures OnePassIsAlwaysEnough(bindings, deadLetters, registered) <==> NeverWaits(bindings, deadLetters, registered)
  {
    if NeverWaits(bindings, deadLetters, registered) {
      forall e: Existing ensures EveryOrderRecreates(bindings, deadLetters, Existing(e.exchanges + registered, e.queues)) {
        OnePassExactly(bindings, deadLetters, Existing(e.exchanges + registered, e.queues));
      }
    } else {
      var nothing := Existing({}, {});
      NothingLeftWaits(bindings, deadLetters, registered);
      assert nothing.exchanges + registered == registered;
      OnePassExactly(bindings, deadLetters, Existing(registered, {}));
      assert !EveryOrderRecreates(bindings, deadLetters, Existing(nothing.exchanges + registered, nothing.queues));
    }
  }

  /** A pass of such a registry makes everything exist, see PerformBackgroundValidation. */
  lemma RegisteredNeverWaits(v: Validator)
    requires NeverWaits(v.registry.bindings, v.registry.deadLetters, v.registry.exchanges)
    ensures v.NoneWaits()
  {
    var e := v.AfterPhase1();
    forall q | q in v.registry.deadLetters ensures Recreatable(v.registry.bindings, v.registry.deadLetters, e, q) {
    }
  }

  /** One pass is not always enough: queue 1 dead-letters to exchange 9, which is not registered and has a binding to queue 2. */
  lemma OnePassCanFail()
    ensures var bindings, deadLetters, nothing := {Binding(2, 9, 0)}, map[1 := 9, 2 := 0], Existing({}, {});
            && RecreateQueues(bindings, deadLetters, nothing, [1, 2]) == Existing({9}, {2})
            && !EveryOrderRecreates(bindings, deadLetters, nothing)
  {
    var bindings: set<Binding>, deadLetters: map<Name, Name>, nothing := {Binding(2, 9, 0)}, map[1 := 9, 2 := 0], Existing({}, {});
    assert Binding(2, 9, 0) in bindings && !Restorable(bindings, 9, {});
    var order: seq<Name> := [1, 2];
    var e1 := RecreateOne(bindings, deadLetters, nothing, 1);
    assert e1 == Existing({9}, {});
    assert order[1..] == [2] && [2][1..] == [];
    assert RecreateOne(bindings, deadLetters, e1, 2) == Existing({9}, {2});
    assert IsListing(order, deadLetters.Keys);
    assert 1 in deadLetters.Keys;
  }
}
