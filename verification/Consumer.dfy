/** Settling a delivery: the gate that lets one Ack, Nack or Reject through, and the wire it goes to. */
module Settlement {

  datatype Settle = Acked | Nacked(requeue: bool) | Rejected(requeue: bool)

  /** What has been handed to the channel, per delivery tag. */
  class Wire {
    var ops: map<nat, seq<Settle>>

    constructor ()
      ensures ops == map[]
    {
      ops := map[];
    }

    function Of(tag: nat): seq<Settle>
      reads this
    {
      if tag in ops then ops[tag] else []
    }

    method Send(tag: nat, op: Settle)
      modifies this
      ensures ops == old(ops)[tag := old(Of(tag)) + [op]]
    {
      ops := ops[tag := Of(tag) + [op]];
    }
  }

  class SettleGate {
    var settled: bool

    constructor ()
      ensures !settled
    {
      settled := false;
    }

    /** Compare-and-swap from false to true. */
    method Claim() returns (won: bool)
      modifies this
      ensures won == !old(settled) && settled
    {
      won := !settled;
      settled := true;
    }
  }

  /** A delivery value; copies of it share the gate. Without a gate every settlement goes through. */
  datatype Delivery = Delivery(tag: nat, gate: SettleGate?)
  {
    function Gates(): set<object> {
      if gate == null then {} else {gate}
    }

    predicate IsSettled()
      reads Gates()
    {
      gate != null && gate.settled
    }
  }

  method NewDelivery(tag: nat) returns (d: Delivery)
    ensures d.tag == tag && d.gate != null && fresh(d.gate) && !d.gate.settled
  {
    var gate := new SettleGate();
    d := Delivery(tag, gate);
  }

  /** Ack, Nack and Reject alike: the first to claim the gate goes to the wire, every later one is dropped. */
  method SettleWith(d: Delivery, wire: Wire, op: Settle)
    modifies wire, d.Gates()
    ensures wire.ops == if old(d.IsSettled()) then old(wire.ops) else old(wire.ops)[d.tag := old(wire.Of(d.tag)) + [op]]
    ensures d.gate != null ==> d.gate.settled
  {
    var won := true;
    if d.gate != null {
      won := d.gate.Claim();
    }
    if won {
      wire.Send(d.tag, op);
    }
  }

  /**
   Rivals: however many parties settle a delivery, and in whatever order their attempts
   fall, exactly the first attempt reaches the wire.
   */
  method SettleAll(d: Delivery, wire: Wire, attempts: seq<Settle>)
    requires d.gate != null
    modifies wire, d.gate
    ensures wire.ops == if old(d.gate.settled) || attempts == [] then old(wire.ops)
                        else old(wire.ops)[d.tag := old(wire.Of(d.tag)) + [attempts[0]]]
    ensures d.gate.settled == (old(d.gate.settled) || attempts != [])
  {
    var i := 0;
    while i < |attempts|
      invariant 0 <= i <= |attempts|
      invariant wire.ops == if old(d.gate.settled) || i == 0 then old(wire.ops)
                            else old(wire.ops)[d.tag := old(wire.Of(d.tag)) + [attempts[0]]]
      invariant d.gate.settled == (old(d.gate.settled) || i > 0)
    {
      SettleWith(d, wire, attempts[i]);
      i := i + 1;
    }
  }
}

/** processMessage and its retry decision. */
module MessageProcessing {
  import opened Settlement
  import opened Wrappers

  /** The header values getRetryCount understands, and any other. */
  datatype HeaderValue = Int(n: int) | Other

  datatype Headers = Headers(deliveryCount: Option<HeaderValue>, retryCount: Option<HeaderValue>)

  datatype QueueType = Quorum | Classic

  datatype Config = Config(autoAck: bool, maxRetries: nat, queueType: QueueType, rejectRequeue: bool)

  datatype Error = RejectError(requeue: bool) | OtherError

  /** How the handler ends: it may have settled the delivery itself before that. */
  datatype HandlerEnd = Succeeds | Fails(error: Error) | Panics

  datatype Behaviour = Behaviour(settles: seq<Settle>, end: HandlerEnd)

  /** getRetryCount. */
  function RetryCount(h: Headers): int {
    if h.deliveryCount.Some? && h.deliveryCount.value.Int? then h.deliveryCount.value.n - 1
    else if h.retryCount.Some? && h.retryCount.value.Int? then h.retryCount.value.n
    else 0
  }

  /** A delivery count that is a number comes first, and starts at 1; else a retry count that is a number; else nothing has been counted. */
  lemma RetryCountByHeader(h: Headers)
    ensures forall n :: h.deliveryCount == Some(Int(n)) ==> RetryCount(h) == n - 1
    ensures forall n :: (h.deliveryCount == None || h.deliveryCount == Some(Other)) && h.retryCount == Some(Int(n)) ==> RetryCount(h) == n
    ensures (h.deliveryCount == None || h.deliveryCount == Some(Other)) && (h.retryCount == None || h.retryCount == Some(Other)) ==> RetryCount(h) == 0
  {
  }

  /** How a failure that nobody has settled yet is settled, and the retry count of the copy republished first, if any. */
  datatype Decision = Decision(settle: Settle, republish: Option<int>)

  function Decide(cfg: Config, h: Headers, error: Error, republishOk: bool): Decision {
    if error.RejectError? then Decision(Nacked(error.requeue), None)
    else if cfg.maxRetries == 0 then Decision(Nacked(cfg.rejectRequeue), None)
    else if RetryCount(h) >= cfg.maxRetries then Decision(Nacked(false), None)
    else if cfg.queueType.Quorum? then Decision(Nacked(true), None)
    else if republishOk then Decision(Acked, Some(RetryCount(h) + 1))
    else Decision(Nacked(false), None)
  }

  /** The republished copies, in order. */
  class Outbox {
    var copies: seq<(nat, int)>

    constructor ()
      ensures copies == []
    {
      copies := [];
    }

    method Publish(tag: nat, retryCount: int)
      modifies this
      ensures copies == old(copies) + [(tag, retryCount)]
    {
      copies := copies + [(tag, retryCount)];
    }
  }

  method HandleProcessingError(cfg: Config, d: Delivery, h: Headers, error: Error, republishOk: bool, wire: Wire, outbox: Outbox)
    requires d.gate != null
    modifies wire, d.gate, outbox
    ensures cfg.autoAck || old(d.gate.settled) ==>
              wire.ops == old(wire.ops) && outbox.copies == old(outbox.copies) && d.gate.settled == old(d.gate.settled)
    ensures !cfg.autoAck && !old(d.gate.settled) ==>
              var decision := Decide(cfg, h, error, republishOk);
              && d.gate.settled
              && wire.ops == old(wire.ops)[d.tag := old(wire.Of(d.tag)) + [decision.settle]]
              && outbox.copies == old(outbox.copies) + if decision.republish.Some? then [(d.tag, decision.republish.value)] else []
    ensures !cfg.autoAck && !old(d.gate.settled) ==>
              var sent, count := old(wire.Of(d.tag)), RetryCount(h);
              && (error.RejectError? ==> wire.Of(d.tag) == sent + [Nacked(error.requeue)])
              && (error.OtherError? && cfg.maxRetries == 0 ==> wire.Of(d.tag) == sent + [Nacked(cfg.rejectRequeue)])
              && (error.OtherError? && cfg.maxRetries > 0 && count >= cfg.maxRetries ==> wire.Of(d.tag) == sent + [Nacked(false)])
              && (error.OtherError? && count < cfg.maxRetries && cfg.queueType.Quorum? && cfg.maxRetries > 0 ==> wire.Of(d.tag) == sent + [Nacked(true)])
              && (error.OtherError? && count < cfg.maxRetries && cfg.queueType.Classic? && cfg.maxRetries > 0 ==>
                    wire.Of(d.tag) == sent + [if republishOk then Acked else Nacked(false)])
              && outbox.copies == old(outbox.copies) +
                   if error.OtherError? && cfg.maxRetries > 0 && count < cfg.maxRetries && cfg.queueType.Classic? && republishOk
                   then [(d.tag, count + 1)] else []
  {
    if cfg.autoAck || d.gate.settled {
      return;
    }
    if error.RejectError? {
      SettleWith(d, wire, Nacked(error.requeue));
      return;
    }
    if cfg.maxRetries > 0 {
      var retryCount := RetryCount(h);
      if retryCount < cfg.maxRetries {
        if cfg.queueType != Classic {
          SettleWith(d, wire, Nacked(true));
        } else {
          if !republishOk {
            SettleWith(d, wire, Nacked(false));
            return;
          }
          outbox.Publish(d.tag, retryCount + 1);
          SettleWith(d, wire, Acked);
        }
        return;
      }
      SettleWith(d, wire, Nacked(false));
      return;
    }
    SettleWith(d, wire, Nacked(cfg.rejectRequeue));
  }

  /** How a delivery ends whose handling failed for no stated reason. */
  function AfterFailure(cfg: Config, count: int, republishOk: bool): Settle {
    if cfg.maxRetries > 0 && count < cfg.maxRetries then (if cfg.queueType.Quorum? then Nacked(true) else if republishOk then Acked else Nacked(false))
    else Nacked(cfg.maxRetries == 0 && cfg.rejectRequeue)
  }

  /** The one settlement a delivery must end with, with AutoAck off. */
  function FinalSettle(cfg: Config, h: Headers, b: Behaviour, decoded: bool, republishOk: bool): Settle {
    if decoded && b.settles != [] then b.settles[0]
    else if !decoded then Decide(cfg, h, OtherError, republishOk).settle
    else match b.end
      case Succeeds => Acked
      case Fails(error) => Decide(cfg, h, error, republishOk).settle
      case Panics => Decide(cfg, h, OtherError, republishOk).settle
  }

  /**
   processMessage: with AutoAck off the delivery reaches the wire exactly once by the time
   it returns, whatever the handler does: settle by hand (however often), return an error,
   or panic. With AutoAck on the library itself settles nothing.
   */
  method ProcessMessage(cfg: Config, tag: nat, h: Headers, b: Behaviour, decoded: bool, republishOk: bool, wire: Wire, outbox: Outbox)
    requires wire.Of(tag) == []
    modifies wire, outbox
    ensures !cfg.autoAck ==> wire.ops == old(wire.ops)[tag := [FinalSettle(cfg, h, b, decoded, republishOk)]]
    ensures cfg.autoAck ==> wire.ops == if decoded && b.settles != [] then old(wire.ops)[tag := [b.settles[0]]] else old(wire.ops)
    ensures outbox.copies == old(outbox.copies) || (|outbox.copies| == |old(outbox.copies)| + 1 && wire.Of(tag) == [Acked])
    ensures !cfg.autoAck && decoded && b.settles != [] ==> wire.Of(tag) == [b.settles[0]] && outbox.copies == old(outbox.copies)
    ensures !cfg.autoAck && decoded && b.settles == [] && b.end.Succeeds? ==> wire.Of(tag) == [Acked] && outbox.copies == old(outbox.copies)
    ensures !cfg.autoAck && decoded && b.settles == [] && b.end.Fails? && b.end.error.RejectError? ==>
              wire.Of(tag) == [Nacked(b.end.error.requeue)] && outbox.copies == old(outbox.copies)
    ensures !cfg.autoAck && (!decoded || (b.settles == [] && (b.end.Panics? || b.end == Fails(OtherError)))) ==>
              wire.Of(tag) == [AfterFailure(cfg, RetryCount(h), republishOk)]
  {
    ghost var final := FinalSettle(cfg, h, b, decoded, republishOk);
    assert [] + [final] == [final] && (b.settles != [] ==> [] + [b.settles[0]] == [b.settles[0]]);
    var d := NewDelivery(tag);
    if !decoded {
      HandleProcessingError(cfg, d, h, OtherError, republishOk, wire, outbox);
      return;
    }
    SettleAll(d, wire, b.settles);
    var error := match b.end case Succeeds => None case Fails(e) => Some(e) case Panics => Some(OtherError);
    if error.None? {
      if !cfg.autoAck {
        SettleWith(d, wire, Acked);
      }
    } else {
      HandleProcessingError(cfg, d, h, error.value, republishOk, wire, outbox);
    }
  }
}

/** How often a message whose handling always fails is delivered before it is dead-lettered. */
module RetryTermination {
  import opened MessageProcessing
  import opened Wrappers

  /** A message in its queue: its headers as the next delivery shows them, and its routing key. */
  datatype Queued = Queued(headers: Headers, routingKey: string)

  /** Where the message is after a delivery was settled. */
  datatype Fate = InQueue(message: Queued) | DeadLettered | Gone

  const NO_HEADERS := Headers(None, None)

  /** A quorum queue counts requeues in x-delivery-count, absent before the first; a classic queue counts nothing. */
  function Requeued(actual: QueueType, m: Queued): Queued {
    if actual.Classic? then m
    else
      var count := if m.headers.deliveryCount.Some? && m.headers.deliveryCount.value.Int? then m.headers.deliveryCount.value.n + 1 else 1;
      m.(headers := m.headers.(deliveryCount := Some(Int(count))))
  }

  /** A republished copy carries the retry count and goes to the queue through the default exchange. */
  function Republished(m: Queued, queue: string, retryCount: int): Queued {
    Queued(m.headers.(retryCount := Some(Int(retryCount))), queue)
  }

  /** One delivery of m to a consumer whose handler fails, settled as processMessage settles it. */
  function Deliver(cfg: Config, actual: QueueType, queue: string, m: Queued, republishOk: bool): Fate {
    var d := Decide(cfg, m.headers, OtherError, republishOk);
    if d.republish.Some? then InQueue(Republished(m, queue, d.republish.value))
    else match d.settle
      case Acked => Gone
      case Nacked(requeue) => if requeue then InQueue(Requeued(actual, m)) else DeadLettered
      case Rejected(requeue) => if requeue then InQueue(Requeued(actual, m)) else DeadLettered
  }

  /** The fate of m after n deliveries, every republish succeeding. */
  function After(cfg: Config, actual: QueueType, queue: string, m: Queued, n: nat): Fate {
    if n == 0 then InQueue(m)
    else match After(cfg, actual, queue, m, n - 1)
      case InQueue(m') => Deliver(cfg, actual, queue, m', true)
      case fate => fate
  }

  /** The message is delivered exactly n times, the last of which dead-letters it. */
  predicate DeadAfterExactly(cfg: Config, actual: QueueType, queue: string, m: Queued, n: nat) {
    && n > 0
    && After(cfg, actual, queue, m, n).DeadLettered?
    && forall k | 0 <= k < n :: After(cfg, actual, queue, m, k).InQueue?
  }

  function First(key: string): Queued { Queued(NO_HEADERS, key) }

  /** A consumer that declares a classic queue counts in x-retry-count, whatever the queue really is. */
  lemma {:induction false} ClassicCounts(cfg: Config, actual: QueueType, queue: string, key: string, n: nat)
    requires cfg.queueType.Classic? && cfg.maxRetries >= 1 && n <= cfg.maxRetries
    ensures After(cfg, actual, queue, First(key), n) ==
            InQueue(if n == 0 then First(key) else Queued(Headers(None, Some(Int(n))), queue))
  {
    if n > 0 { ClassicCounts(cfg, actual, queue, key, n - 1); }
  }

  /** Declared classic: exactly MaxRetries + 1 deliveries. */
  lemma ClassicTerminates(cfg: Config, actual: QueueType, queue: string, key: string)
    requires cfg.queueType.Classic? && cfg.maxRetries >= 1
    ensures DeadAfterExactly(cfg, actual, queue, First(key), cfg.maxRetries + 1)
  {
    forall k | 0 <= k <= cfg.maxRetries ensures After(cfg, actual, queue, First(key), k).InQueue? {
      ClassicCounts(cfg, actual, queue, key, k);
    }
    ClassicCounts(cfg, actual, queue, key, cfg.maxRetries);
  }

  /** A quorum queue declared as one counts by itself, one delivery late, and keeps the routing key. */
  lemma {:induction false} QuorumCounts(cfg: Config, queue: string, key: string, n: nat)
    requires cfg.queueType.Quorum? && cfg.maxRetries >= 1 && n <= cfg.maxRetries + 1
    ensures After(cfg, Quorum, queue, First(key), n) ==
            InQueue(Queued(Headers(if n == 0 then None else Some(Int(n)), None), key))
  {
    if n > 0 { QuorumCounts(cfg, queue, key, n - 1); }
  }

  /** Declared quorum and really quorum: exactly MaxRetries + 2 deliveries. */
  lemma QuorumTerminates(cfg: Config, queue: string, key: string)
    requires cfg.queueType.Quorum? && cfg.maxRetries >= 1
    ensures DeadAfterExactly(cfg, Quorum, queue, First(key), cfg.maxRetries + 2)
  {
    forall k | 0 <= k <= cfg.maxRetries + 1 ensures After(cfg, Quorum, queue, First(key), k).InQueue? {
      QuorumCounts(cfg, queue, key, k);
    }
    QuorumCounts(cfg, queue, key, cfg.maxRetries + 1);
  }

  /** A classic queue treated as quorum: the count never advances and the retries never end. */
  lemma {:induction false} ClassicTreatedAsQuorumNeverEnds(cfg: Config, queue: string, key: string, n: nat)
    requires cfg.queueType.Quorum? && cfg.maxRetries >= 1
    ensures After(cfg, Classic, queue, First(key), n) == InQueue(First(key))
  {
    if n > 0 { ClassicTreatedAsQuorumNeverEnds(cfg, queue, key, n - 1); }
  }

  lemma {:induction false} FateIsFinal(cfg: Config, actual: QueueType, queue: string, m: Queued, n: nat, k: nat)
    requires n <= k && !After(cfg, actual, queue, m, n).InQueue?
    ensures After(cfg, actual, queue, m, k) == After(cfg, actual, queue, m, n)
    decreases k
  {
    if n < k { FateIsFinal(cfg, actual, queue, m, n, k - 1); }
  }

  predicate Dead(cfg: Config, actual: QueueType, queue: string, m: Queued, n: nat) {
    After(cfg, actual, queue, m, n).DeadLettered?
  }

  // ---- which messages are ever dead-lettered ---------------------------------------------------

  /** The message carries a delivery count, which is then what getRetryCount goes by. */
  predicate CarriesDeliveryCount(h: Headers) {
    h.deliveryCount.Some? && h.deliveryCount.value.Int?
  }

  /**
   The retries of a message with these headers end: with MaxRetries unset only if failures
   are not requeued; otherwise if the count they start from is used up already, or advances,
   which in a republished copy is x-retry-count, and in a requeued message what a quorum
   queue, but no classic one, writes into x-delivery-count.
   */
  predicate RetriesEnd(cfg: Config, actual: QueueType, h: Headers) {
    if cfg.maxRetries == 0 then !cfg.rejectRequeue
    else
      || RetryCount(h) >= cfg.maxRetries
      || (if cfg.queueType.Classic? then !CarriesDeliveryCount(h) else actual.Quorum?)
  }

  /** A delivery more to begin with. */
  lemma {:induction false} OneDeliveryMore(cfg: Config, actual: QueueType, queue: string, m: Queued, n: nat)
    requires n > 0 && Deliver(cfg, actual, queue, m, true).InQueue?
    ensures After(cfg, actual, queue, m, n) == After(cfg, actual, queue, Deliver(cfg, actual, queue, m, true).message, n - 1)
  {
    if n > 1 {
      OneDeliveryMore(cfg, actual, queue, m, n - 1);
    } else {
      assert After(cfg, actual, queue, m, 0) == InQueue(m);
    }
  }

  /** How far the count is from MaxRetries; the first requeue of a quorum queue may set it back. */
  lemma {:induction false} EndsAfterSome(cfg: Config, actual: QueueType, queue: string, m: Queued) returns (n: nat)
    requires RetriesEnd(cfg, actual, m.headers)
    ensures Dead(cfg, actual, queue, m, n)
    decreases !CarriesDeliveryCount(m.headers) && cfg.queueType.Quorum?, cfg.maxRetries - RetryCount(m.headers)
  {
    var fate := Deliver(cfg, actual, queue, m, true);
    assert After(cfg, actual, queue, m, 0) == InQueue(m) && After(cfg, actual, queue, m, 1) == fate;
    if fate.DeadLettered? {
      n := 1;
    } else {
      n := EndsAfterSome(cfg, actual, queue, fate.message);
      n := n + 1;
      OneDeliveryMore(cfg, actual, queue, m, n);
    }
  }

  /** Otherwise each delivery leaves the message as far from its end as it was. */
  lemma {:induction false} NeverEnds(cfg: Config, actual: QueueType, queue: string, m: Queued, n: nat)
    requires !RetriesEnd(cfg, actual, m.headers)
    ensures After(cfg, actual, queue, m, n).InQueue?
    ensures !RetriesEnd(cfg, actual, After(cfg, actual, queue, m, n).message.headers)
  {
    if n > 0 { NeverEnds(cfg, actual, queue, m, n - 1); }
  }

  /**
   For every consumer, every kind of queue and every message: a message that always fails is
   dead-lettered in the end if and only if RetriesEnd, and otherwise delivered again for ever.
   */
  lemma RetriesEndExactly(cfg: Config, actual: QueueType, queue: string, m: Queued)
    ensures (exists n: nat :: Dead(cfg, actual, queue, m, n)) <==> RetriesEnd(cfg, actual, m.headers)
    ensures !RetriesEnd(cfg, actual, m.headers) ==> forall n: nat :: After(cfg, actual, queue, m, n).InQueue?
  {
    if RetriesEnd(cfg, actual, m.headers) {
      var n := EndsAfterSome(cfg, actual, queue, m);
    } else {
      forall n: nat ensures After(cfg, actual, queue, m, n).InQueue? && !Dead(cfg, actual, queue, m, n) {
        NeverEnds(cfg, actual, queue, m, n);
      }
    }
  }

  /**
   A message that comes with a delivery count, from a quorum queue for instance, is never
   dead-lettered by a consumer of a classic queue that is declared as one: its copies carry
   that count along, and it hides the one that advances.
   */
  lemma {:induction false} CarriedCountNeverEnds(cfg: Config, queue: string, key: string, n: nat)
    requires cfg.queueType.Classic? && cfg.maxRetries >= 1
    ensures After(cfg, Classic, queue, Queued(Headers(Some(Int(1)), None), key), n) ==
            InQueue(if n == 0 then Queued(Headers(Some(Int(1)), None), key) else Queued(Headers(Some(Int(1)), Some(Int(1))), queue))
  {
    if n > 0 { CarriedCountNeverEnds(cfg, queue, key, n - 1); }
  }
}

/** ConsumeBatch: collecting deliveries into batches and settling every one of them. */
module BatchConsumption {
  import opened Settlement

  datatype BatchEnd = Errors(failed: seq<bool>) | Panics

  /** What a batch handler does: settle some of its deliveries by hand, then return its errors or panic. */
  datatype BatchBehaviour = BatchBehaviour(settles: seq<(nat, Settle)>, end: BatchEnd)

  /** Whether delivery i of n counts as failed: missing errors read as success, surplus ones are dropped. */
  function FailedAt(b: BatchBehaviour, i: nat): bool {
    b.end.Panics? || (i < |b.end.failed| && b.end.failed[i])
  }

  /** The first settlement made by hand for delivery i, if any. */
  function ByHand(settles: seq<(nat, Settle)>, i: nat): seq<Settle> {
    if settles == [] then []
    else if ByHand(settles[..|settles| - 1], i) != [] then ByHand(settles[..|settles| - 1], i)
    else if settles[|settles| - 1].0 == i then [settles[|settles| - 1].1]
    else []
  }

  /** What delivery i of a batch has on the wire once the batch is processed. */
  function FinalOps(b: BatchBehaviour, i: nat, requeue: bool, autoAck: bool): seq<Settle> {
    if autoAck || ByHand(b.settles, i) != [] then ByHand(b.settles, i)
    else if FailedAt(b, i) then [Rejected(requeue)] else [Acked]
  }

  /** With AutoAck off that is exactly one operation, whatever the handler does. */
  lemma {:induction false} ExactlyOne(b: BatchBehaviour, i: nat, requeue: bool)
    ensures |FinalOps(b, i, requeue, false)| == 1
  {
    AtMostOneByHand(b.settles, i);
  }

  lemma {:induction false} AtMostOneByHand(settles: seq<(nat, Settle)>, i: nat)
    ensures |ByHand(settles, i)| <= 1
  {
    if settles != [] { AtMostOneByHand(settles[..|settles| - 1], i); }
  }

  /** The handler settled nothing by hand of delivery i. */
  predicate LeftAlone(settles: seq<(nat, Settle)>, i: nat) {
    forall k | 0 <= k < |settles| :: settles[k].0 != i
  }

  /** The k-th settlement by hand is the first of delivery i. */
  predicate FirstByHand(settles: seq<(nat, Settle)>, i: nat, k: nat) {
    k < |settles| && settles[k].0 == i && forall j | 0 <= j < k :: settles[j].0 != i
  }

  /**
   What delivery i must have on the wire after its batch: the first thing the handler did to
   it by hand; if it did nothing, and AutoAck is off, an Ack if the handler returned and left
   no error in its place, and otherwise a Reject.
   */
  predicate PlaceSettled(b: BatchBehaviour, i: nat, requeue: bool, autoAck: bool, ops: seq<Settle>) {
    && (forall k | 0 <= k < |b.settles| && FirstByHand(b.settles, i, k) :: ops == [b.settles[k].1])
    && (LeftAlone(b.settles, i) ==>
          ops == if autoAck then []
                 else if b.end.Errors? && (i >= |b.end.failed| || !b.end.failed[i]) then [Acked]
                 else [Rejected(requeue)])
  }

  lemma {:induction false} ByHandIsFirst(settles: seq<(nat, Settle)>, i: nat)
    ensures LeftAlone(settles, i) ==> ByHand(settles, i) == []
    ensures forall k | 0 <= k < |settles| && FirstByHand(settles, i, k) :: ByHand(settles, i) == [settles[k].1]
  {
    if settles != [] {
      var n := |settles| - 1;
      ByHandIsFirst(settles[..n], i);
      forall k | 0 <= k < |settles| && FirstByHand(settles, i, k) ensures ByHand(settles, i) == [settles[k].1] {
        if k < n { assert FirstByHand(settles[..n], i, k); } else { assert LeftAlone(settles[..n], i); }
      }
    }
  }

  /** FinalOps is what it must be. */
  lemma FinalOpsSettle(b: BatchBehaviour, i: nat, requeue: bool, autoAck: bool)
    ensures PlaceSettled(b, i, requeue, autoAck, FinalOps(b, i, requeue, autoAck))
  {
    ByHandIsFirst(b.settles, i);
  }

  /** Deliveries of one batch: each with a gate and a tag of its own. */
  predicate Distinct(batch: seq<Delivery>) {
    && (forall i | 0 <= i < |batch| :: batch[i].gate != null)
    && (forall i, j | 0 <= i < j < |batch| :: batch[i].tag != batch[j].tag && batch[i].gate != batch[j].gate)
  }

  function GatesOf(batch: seq<Delivery>): set<object> {
    set i | 0 <= i < |batch| && batch[i].gate != null :: batch[i].gate
  }

  predicate HasTag(batch: seq<Delivery>, tag: nat) {
    exists i :: 0 <= i < |batch| && batch[i].tag == tag
  }

  /** Delivery d has just these operations on the wire, and its gate shows whether it has any. */
  predicate Has(d: Delivery, wire: Wire, ops: seq<Settle>)
    reads wire, d.Gates()
  {
    d.gate != null && wire.Of(d.tag) == ops && (d.gate.settled <==> ops != [])
  }

  /** Delivery i of the batch has ops[i] on the wire. */
  ghost predicate Stands(batch: seq<Delivery>, wire: Wire, ops: seq<seq<Settle>>)
    reads wire, GatesOf(batch)
  {
    |ops| == |batch| && Distinct(batch) && forall i | 0 <= i < |batch| :: Has(batch[i], wire, ops[i])
  }

  /** Nothing was sent for deliveries outside the batch. */
  twostate predicate OnlyTheirs(batch: seq<Delivery>, wire: Wire)
    reads wire
  {
    forall tag | !HasTag(batch, tag) :: wire.Of(tag) == old(wire.Of(tag))
  }

  /** A settlement of one delivery goes through if it is that delivery's first, and touches no other. */
  method SettleOne(batch: seq<Delivery>, i: nat, wire: Wire, op: Settle, ghost ops: seq<seq<Settle>>)
    requires Stands(batch, wire, ops) && i < |batch|
    modifies wire, GatesOf(batch)
    ensures Stands(batch, wire, ops[i := if ops[i] == [] then [op] else ops[i]])
    ensures OnlyTheirs(batch, wire)
  {
    assert HasTag(batch, batch[i].tag) && Has(batch[i], wire, ops[i]);
    SettleWith(batch[i], wire, op);
    var ops' := ops[i := if ops[i] == [] then [op] else ops[i]];
    assert ops[i] == [] ==> ops[i] + [op] == [op];
    forall j | 0 <= j < |batch| ensures Has(batch[j], wire, ops'[j]) {
      assert old(Has(batch[j], wire, ops[j]));
    }
  }

  function HandOps(settles: seq<(nat, Settle)>, n: nat): (ops: seq<seq<Settle>>)
    ensures |ops| == n && forall i | 0 <= i < n :: ops[i] == ByHand(settles, i)
  {
    seq(n, i requires 0 <= i < n => ByHand(settles, i))
  }

  lemma HandOpsStep(settles: seq<(nat, Settle)>, k: nat, n: nat)
    requires k < |settles|
    ensures var (i, op) := settles[k];
            var before := HandOps(settles[..k], n);
            HandOps(settles[..k + 1], n) == if i < n then before[i := if before[i] == [] then [op] else before[i]] else before
  {
    var (i, op) := settles[k];
    var before, after := HandOps(settles[..k], n), HandOps(settles[..k + 1], n);
    assert settles[..k + 1][..k] == settles[..k] && settles[..k + 1][k] == settles[k];
    forall j | 0 <= j < n ensures after[j] == if j == i && before[j] == [] then [op] else before[j] {
      AtMostOneByHand(settles[..k], j);
    }
    if i < n {
      assert after == before[i := if before[i] == [] then [op] else before[i]];
    } else {
      assert after == before;
    }
  }

  /** The handler runs: it settles what it likes. */
  method RunHandler(batch: seq<Delivery>, settles: seq<(nat, Settle)>, wire: Wire)
    requires Stands(batch, wire, HandOps([], |batch|))
    modifies wire, GatesOf(batch)
    ensures Stands(batch, wire, HandOps(settles, |batch|))
    ensures OnlyTheirs(batch, wire)
  {
    var k := 0;
    assert settles[..0] == [];
    while k < |settles|
      invariant 0 <= k <= |settles|
      invariant Stands(batch, wire, HandOps(settles[..k], |batch|))
      invariant OnlyTheirs(batch, wire)
    {
      HandOpsStep(settles, k, |batch|);
      if settles[k].0 < |batch| {
        SettleOne(batch, settles[k].0, wire, settles[k].1, HandOps(settles[..k], |batch|));
      }
      k := k + 1;
    }
    assert settles[..k] == settles;
  }

  /** processBatch's error slice: padded with nil or cut to the batch's length, all errors after a panic. */
  method ErrorSlice(b: BatchBehaviour, n: nat) returns (failed: seq<bool>)
    ensures |failed| == n && forall i | 0 <= i < n :: failed[i] == FailedAt(b, i)
    ensures forall i | 0 <= i < n :: !failed[i] <==> b.end.Errors? && (i >= |b.end.failed| || !b.end.failed[i])
  {
    if b.end.Panics? {
      failed := seq(n, _ => true);
    } else {
      failed := b.end.failed;
    }
    if |failed| < n {
      failed := failed + seq(n - |failed|, _ => false);
    } else {
      failed := failed[..n];
    }
  }

  /** The wire once the first k deliveries of the batch have been acknowledged or rejected. */
  function OpsUpTo(b: BatchBehaviour, n: nat, k: nat, requeue: bool, autoAck: bool): (ops: seq<seq<Settle>>)
    ensures |ops| == n
    ensures forall i | 0 <= i < n :: ops[i] == if i < k then FinalOps(b, i, requeue, autoAck) else ByHand(b.settles, i)
  {
    seq(n, i requires 0 <= i < n => if i < k then FinalOps(b, i, requeue, autoAck) else ByHand(b.settles, i))
  }

  /** Acknowledge or reject every delivery of the batch; those settled by hand are left alone. */
  method SettleBatch(batch: seq<Delivery>, b: BatchBehaviour, requeue: bool, wire: Wire)
    requires Stands(batch, wire, HandOps(b.settles, |batch|))
    modifies wire, GatesOf(batch)
    ensures Stands(batch, wire, OpsUpTo(b, |batch|, |batch|, requeue, false))
    ensures forall i | 0 <= i < |batch| :: PlaceSettled(b, i, requeue, false, wire.Of(batch[i].tag))
    ensures OnlyTheirs(batch, wire)
  {
    var failed := ErrorSlice(b, |batch|);
    var i := 0;
    assert OpsUpTo(b, |batch|, 0, requeue, false) == HandOps(b.settles, |batch|);
    while i < |batch|
      invariant 0 <= i <= |batch|
      invariant Stands(batch, wire, OpsUpTo(b, |batch|, i, requeue, false))
      invariant OnlyTheirs(batch, wire)
    {
      ghost var ops := OpsUpTo(b, |batch|, i, requeue, false);
      var op := if failed[i] then Rejected(requeue) else Acked;
      SettleOne(batch, i, wire, op, ops);
      assert OpsUpTo(b, |batch|, i + 1, requeue, false) == ops[i := if ops[i] == [] then [op] else ops[i]];
      i := i + 1;
    }
    PlacesSettle(batch, b, requeue, false, wire);
  }

  lemma PlacesSettle(batch: seq<Delivery>, b: BatchBehaviour, requeue: bool, autoAck: bool, wire: Wire)
    requires Stands(batch, wire, OpsUpTo(b, |batch|, |batch|, requeue, autoAck))
    ensures forall i | 0 <= i < |batch| :: PlaceSettled(b, i, requeue, autoAck, wire.Of(batch[i].tag))
  {
    forall i | 0 <= i < |batch| ensures PlaceSettled(b, i, requeue, autoAck, wire.Of(batch[i].tag)) {
      assert Has(batch[i], wire, OpsUpTo(b, |batch|, |batch|, requeue, autoAck)[i]);
      FinalOpsSettle(b, i, requeue, autoAck);
    }
  }

  /** processBatch. */
  method ProcessBatch(batch: seq<Delivery>, b: BatchBehaviour, requeue: bool, autoAck: bool, wire: Wire)
    requires Stands(batch, wire, HandOps([], |batch|))
    modifies wire, GatesOf(batch)
    ensures Stands(batch, wire, OpsUpTo(b, |batch|, |batch|, requeue, autoAck))
    ensures forall i | 0 <= i < |batch| :: PlaceSettled(b, i, requeue, autoAck, wire.Of(batch[i].tag))
    ensures OnlyTheirs(batch, wire)
  {
    assert autoAck ==> OpsUpTo(b, |batch|, |batch|, requeue, autoAck) == HandOps(b.settles, |batch|);
    if |batch| == 0 {
      return;
    }
    RunHandler(batch, b.settles, wire);
    if !autoAck {
      SettleBatch(batch, b, requeue, wire);
    }
    PlacesSettle(batch, b, requeue, autoAck, wire);
  }

  // ---- the select loop ------------------------------------------------------------------------

  datatype Event =
    | ContextDone
    | StopSignal
    | Received(tag: nat, decoded: bool)
    | ChannelClosed
    | TimerFired

  predicate IsExit(e: Event) { e.ContextDone? || e.StopSignal? || e.ChannelClosed? }

  /** The tags of the deliveries taken and decoded, in order. */
  function Decoded(events: seq<Event>): seq<nat> {
    if events == [] then []
    else
      var before := Decoded(events[..|events| - 1]);
      var last := events[|events| - 1];
      if last.Received? && last.decoded then before + [last.tag] else before
  }

  function Flat(batches: seq<seq<nat>>): seq<nat> {
    if batches == [] then [] else Flat(batches[..|batches| - 1]) + batches[|batches| - 1]
  }

  function Tags(batch: seq<Delivery>): (tags: seq<nat>)
    ensures |tags| == |batch| && forall i | 0 <= i < |tags| :: tags[i] == batch[i].tag
  {
    seq(|batch|, i requires 0 <= i < |batch| => batch[i].tag)
  }

  /** The broker gives every delivery of a channel its own tag. */
  predicate TagsDiffer(events: seq<Event>) {
    forall i, j | 0 <= i < j < |events| && events[i].Received? && events[j].Received? :: events[i].tag != events[j].tag
  }

  /** No delivery of the first n events has this tag. */
  predicate Unseen(events: seq<Event>, n: nat, tag: nat) {
    forall i | 0 <= i < n && i < |events| && events[i].Received? :: events[i].tag != tag
  }

  type Ops = map<nat, seq<Settle>>

  function OpsOf(ops: Ops, tag: nat): seq<Settle> {
    if tag in ops then ops[tag] else []
  }

  /** How ConsumeBatch is run: the handler's k-th call behaves as handler(k). */
  datatype Setup = Setup(events: seq<Event>, handler: nat -> BatchBehaviour, batchSize: int, requeue: bool, autoAck: bool)
  {
    /** A batch size that is not positive means the default. */
    function Size(): nat { if batchSize <= 0 then 100 else batchSize }
  }

  /** Batch b, with these tags, is settled the way its handler run calls for. */
  predicate BatchSettled(c: Setup, b: nat, tags: seq<nat>, ops: Ops) {
    0 < |tags| <= c.Size() && forall i | 0 <= i < |tags| :: OpsOf(ops, tags[i]) == FinalOps(c.handler(b), i, c.requeue, c.autoAck)
  }

  /** Delivery i could not be decoded, and was rejected at once. */
  predicate RejectSettled(c: Setup, i: nat, ops: Ops) {
    i < |c.events| && (c.events[i].Received? && !c.events[i].decoded ==>
                         OpsOf(ops, c.events[i].tag) == if c.autoAck then [] else [Rejected(c.requeue)])
  }

  /** Event i is none that could still change what tag has on the wire. */
  predicate Apart(c: Setup, waiting: seq<nat>, n: nat, tag: nat) {
    tag !in waiting && !Unseen(c.events, n, tag)
  }

  /** Where the loop stands after n events: what it handed over in batches, and what is waiting in the current one. */
  ghost predicate LoopOk(c: Setup, n: nat, waiting: seq<nat>, batches: seq<seq<nat>>, ops: Ops) {
    && n <= |c.events|
    && Decoded(c.events[..n]) == Flat(batches) + waiting
    && (forall b {:trigger batches[b]} | 0 <= b < |batches| :: BatchSettled(c, b, batches[b], ops)
                                                             && forall tag | tag in batches[b] :: Apart(c, waiting, n, tag))
    && (forall i: nat {:trigger RejectSettled(c, i, ops)} | i < n :: RejectSettled(c, i, ops))
    && (forall i {:trigger c.events[i]} | 0 <= i < n && c.events[i].Received? && !c.events[i].decoded :: c.events[i].tag !in waiting)
    && (forall tag | tag in waiting :: OpsOf(ops, tag) == [] && !Unseen(c.events, n, tag))
    && (forall tag | Unseen(c.events, n, tag) :: OpsOf(ops, tag) == [])
  }

  lemma DecodedStep(events: seq<Event>, n: nat)
    requires n < |events|
    ensures Decoded(events[..n + 1]) ==
            if events[n].Received? && events[n].decoded then Decoded(events[..n]) + [events[n].tag] else Decoded(events[..n])
  {
    assert events[..n + 1][..n] == events[..n];
  }

  lemma NewTag(c: Setup, n: nat)
    requires TagsDiffer(c.events) && n < |c.events| && c.events[n].Received?
    ensures Unseen(c.events, n, c.events[n].tag) && !Unseen(c.events, n + 1, c.events[n].tag)
  {
  }

  /** An event that takes no delivery. */
  lemma LoopSkips(c: Setup, n: nat, waiting: seq<nat>, batches: seq<seq<nat>>, ops: Ops)
    requires LoopOk(c, n, waiting, batches, ops) && n < |c.events| && !c.events[n].Received?
    ensures LoopOk(c, n + 1, waiting, batches, ops)
  {
    DecodedStep(c.events, n);
    forall tag ensures Unseen(c.events, n + 1, tag) <==> Unseen(c.events, n, tag) {
    }
    assert RejectSettled(c, n, ops);
  }

  /** Operations on a tag not seen before concern no batch and no earlier reject. */
  lemma NewTagIsApart(c: Setup, n: nat, waiting: seq<nat>, batches: seq<seq<nat>>, ops: Ops, b: nat)
    requires LoopOk(c, n, waiting, batches, ops) && n < |c.events| && c.events[n].Received? && TagsDiffer(c.events) && b < |batches|
    ensures BatchSettled(c, b, batches[b], ops) && c.events[n].tag !in batches[b]
    ensures forall tag | tag in batches[b] :: Apart(c, waiting, n, tag)
  {
    NewTag(c, n);
    assert BatchSettled(c, b, batches[b], ops);
    assert c.events[n].tag in batches[b] ==> Apart(c, waiting, n, c.events[n].tag);
  }

  lemma ApartLater(c: Setup, waiting: seq<nat>, n: nat, tag: nat)
    requires Apart(c, waiting, n, tag)
    ensures Apart(c, waiting, n + 1, tag)
  {
  }

  /** A delivery that cannot be decoded. */
  lemma LoopRejects(c: Setup, n: nat, waiting: seq<nat>, batches: seq<seq<nat>>, ops: Ops, ops': Ops)
    requires LoopOk(c, n, waiting, batches, ops) && n < |c.events| && c.events[n].Received? && !c.events[n].decoded && TagsDiffer(c.events)
    requires forall tag :: OpsOf(ops', tag) == if tag == c.events[n].tag && !c.autoAck then [Rejected(c.requeue)] else OpsOf(ops, tag)
    ensures LoopOk(c, n + 1, waiting, batches, ops')
  {
    DecodedStep(c.events, n);
    NewTag(c, n);
    forall b: nat | b < |batches| ensures BatchSettled(c, b, batches[b], ops') && forall tag | tag in batches[b] :: Apart(c, waiting, n + 1, tag) {
      NewTagIsApart(c, n, waiting, batches, ops, b);
      forall tag | tag in batches[b] ensures Apart(c, waiting, n + 1, tag) { ApartLater(c, waiting, n, tag); }
      assert forall i | 0 <= i < |batches[b]| :: batches[b][i] in batches[b];
    }
    forall i: nat | i < n + 1 ensures RejectSettled(c, i, ops') {
      if i < n { assert RejectSettled(c, i, ops); }
    }
  }

  /** A batch handed over has nothing to do with the delivery that comes now. */
  lemma BatchStaysApart(c: Setup, n: nat, waiting: seq<nat>, batches: seq<seq<nat>>, ops: Ops, b: nat)
    requires LoopOk(c, n, waiting, batches, ops) && n < |c.events| && c.events[n].Received? && TagsDiffer(c.events) && b < |batches|
    ensures forall tag | tag in batches[b] :: Apart(c, waiting + [c.events[n].tag], n + 1, tag)
  {
    NewTagIsApart(c, n, waiting, batches, ops, b);
    forall tag | tag in batches[b] ensures Apart(c, waiting + [c.events[n].tag], n + 1, tag) {
      ApartLater(c, waiting, n, tag);
    }
  }

  /** A delivery that joins the waiting ones has not been seen, nor will any of them be again. */
  lemma WaitingIsFresh(c: Setup, n: nat, waiting: seq<nat>, batches: seq<seq<nat>>, ops: Ops)
    requires LoopOk(c, n, waiting, batches, ops) && n < |c.events| && c.events[n].Received? && TagsDiffer(c.events)
    ensures forall tag | tag in waiting + [c.events[n].tag] :: OpsOf(ops, tag) == [] && !Unseen(c.events, n + 1, tag)
  {
    NewTag(c, n);
  }

  lemma BatchesStayApart(c: Setup, n: nat, waiting: seq<nat>, batches: seq<seq<nat>>, ops: Ops)
    requires LoopOk(c, n, waiting, batches, ops) && n < |c.events| && c.events[n].Received? && TagsDiffer(c.events)
    ensures forall b {:trigger batches[b]} | 0 <= b < |batches| ::
              forall tag | tag in batches[b] :: Apart(c, waiting + [c.events[n].tag], n + 1, tag)
  {
    forall b {:trigger batches[b]} | 0 <= b < |batches|
      ensures forall tag | tag in batches[b] :: Apart(c, waiting + [c.events[n].tag], n + 1, tag) {
      BatchStaysApart(c, n, waiting, batches, ops, b);
    }
  }

  lemma RejectsStay(c: Setup, n: nat, waiting: seq<nat>, batches: seq<seq<nat>>, ops: Ops)
    requires LoopOk(c, n, waiting, batches, ops) && n < |c.events| && c.events[n].Received? && c.events[n].decoded && TagsDiffer(c.events)
    ensures forall i: nat {:trigger RejectSettled(c, i, ops)} | i < n + 1 :: RejectSettled(c, i, ops)
    ensures forall i {:trigger c.events[i]} | 0 <= i < n + 1 && c.events[i].Received? && !c.events[i].decoded ::
              c.events[i].tag !in waiting + [c.events[n].tag]
  {
    forall i: nat | i < n + 1 ensures RejectSettled(c, i, ops) {
      if i < n { assert RejectSettled(c, i, ops); }
    }
  }

  /** A delivery that joins the current batch. */
  lemma LoopTakes(c: Setup, n: nat, waiting: seq<nat>, batches: seq<seq<nat>>, ops: Ops)
    requires LoopOk(c, n, waiting, batches, ops) && n < |c.events| && c.events[n].Received? && c.events[n].decoded && TagsDiffer(c.events)
    ensures LoopOk(c, n + 1, waiting + [c.events[n].tag], batches, ops)
  {
    var t := c.events[n].tag;
    DecodedStep(c.events, n);
    NewTag(c, n);
    WaitingIsFresh(c, n, waiting, batches, ops);
    assert Flat(batches) + waiting + [t] == Flat(batches) + (waiting + [t]);
    BatchesStayApart(c, n, waiting, batches, ops);
    RejectsStay(c, n, waiting, batches, ops);
  }

  /** The current batch is handed over. */
  lemma LoopProcesses(c: Setup, n: nat, waiting: seq<nat>, batches: seq<seq<nat>>, ops: Ops, ops': Ops)
    requires LoopOk(c, n, waiting, batches, ops) && 0 < |waiting| <= c.Size()
    requires forall i | 0 <= i < |waiting| :: OpsOf(ops', waiting[i]) == FinalOps(c.handler(|batches|), i, c.requeue, c.autoAck)
    requires forall tag | tag !in waiting :: OpsOf(ops', tag) == OpsOf(ops, tag)
    ensures LoopOk(c, n, [], batches + [waiting], ops')
  {
    var batches' := batches + [waiting];
    assert batches'[..|batches|] == batches;
    assert Flat(batches') + [] == Flat(batches) + waiting;
    forall b | 0 <= b < |batches'| ensures BatchSettled(c, b, batches'[b], ops') && forall tag | tag in batches'[b] :: Apart(c, [], n, tag) {
      if b < |batches| {
        assert batches'[b] == batches[b] && BatchSettled(c, b, batches[b], ops);
        forall tag | tag in batches[b] ensures tag !in waiting && Apart(c, [], n, tag) { assert Apart(c, waiting, n, tag); }
        assert forall i | 0 <= i < |batches[b]| :: batches[b][i] in batches[b];
      }
    }
    forall i: nat | i < n ensures RejectSettled(c, i, ops') {
      assert RejectSettled(c, i, ops);
    }
  }

  lemma {:induction false} FlatHolds(batches: seq<seq<nat>>, tag: nat)
    requires tag in Flat(batches)
    ensures exists b :: 0 <= b < |batches| && tag in batches[b]
  {
    if batches != [] && tag !in batches[|batches| - 1] { FlatHolds(batches[..|batches| - 1], tag); }
  }

  lemma {:induction false} DecodedHolds(events: seq<Event>, i: nat)
    requires i < |events| && events[i].Received? && events[i].decoded
    ensures events[i].tag in Decoded(events)
  {
    if i < |events| - 1 { DecodedHolds(events[..|events| - 1], i); }
  }

  /** With AutoAck off and nothing waiting, every delivery taken has exactly one operation on the wire. */
  lemma AllSettledOnce(c: Setup, n: nat, batches: seq<seq<nat>>, ops: Ops, i: nat)
    requires LoopOk(c, n, [], batches, ops) && !c.autoAck && i < n && c.events[i].Received?
    ensures |OpsOf(ops, c.events[i].tag)| == 1
  {
    var tag := c.events[i].tag;
    if c.events[i].decoded {
      assert c.events[..n][i] == c.events[i];
      DecodedHolds(c.events[..n], i);
      FlatHolds(batches, tag);
      var b :| 0 <= b < |batches| && tag in batches[b];
      assert BatchSettled(c, b, batches[b], ops);
      var k :| 0 <= k < |batches[b]| && batches[b][k] == tag;
      ExactlyOne(c.handler(b), k, c.requeue);
    } else {
      assert RejectSettled(c, i, ops);
    }
  }

  /** Every delivery taken reached the wire exactly once. */
  ghost predicate OneOpEach(c: Setup, n: nat, ops: Ops) {
    forall i: nat | i < n && i < |c.events| && c.events[i].Received? :: |OpsOf(ops, c.events[i].tag)| == 1
  }

  lemma AllSettled(c: Setup, n: nat, batches: seq<seq<nat>>, ops: Ops)
    requires LoopOk(c, n, [], batches, ops)
    ensures !c.autoAck ==> OneOpEach(c, n, ops)
  {
    forall i: nat | i < n && c.events[i].Received? && !c.autoAck ensures |OpsOf(ops, c.events[i].tag)| == 1 {
      AllSettledOnce(c, n, batches, ops, i);
    }
  }

  lemma TagIsListed(batch: seq<Delivery>, tag: nat)
    ensures HasTag(batch, tag) <==> tag in Tags(batch)
  {
    if HasTag(batch, tag) {
      var i :| 0 <= i < |batch| && batch[i].tag == tag;
      assert Tags(batch)[i] == tag;
    }
  }

  /** Hand the current batch over. */
  method Flush(c: Setup, ghost n: nat, batch: seq<Delivery>, batches: seq<seq<nat>>, wire: Wire) returns (batches': seq<seq<nat>>)
    requires LoopOk(c, n, Tags(batch), batches, wire.ops) && 0 < |batch| <= c.Size()
    requires Stands(batch, wire, HandOps([], |batch|))
    modifies wire, GatesOf(batch)
    ensures batches' == batches + [Tags(batch)] && LoopOk(c, n, [], batches', wire.ops)
  {
    ghost var before := wire.ops;
    ProcessBatch(batch, c.handler(|batches|), c.requeue, c.autoAck, wire);
    batches' := batches + [Tags(batch)];
    forall i | 0 <= i < |batch| ensures OpsOf(wire.ops, Tags(batch)[i]) == FinalOps(c.handler(|batches|), i, c.requeue, c.autoAck) {
      assert Has(batch[i], wire, OpsUpTo(c.handler(|batches|), |batch|, |batch|, c.requeue, c.autoAck)[i]);
    }
    forall tag | tag !in Tags(batch) ensures OpsOf(wire.ops, tag) == OpsOf(before, tag) {
      TagIsListed(batch, tag);
      assert wire.Of(tag) == old(wire.Of(tag));
    }
    LoopProcesses(c, n, Tags(batch), batches, before, wire.ops);
  }

  /** Take one more delivery into the batch. */
  method Take(c: Setup, ghost n: nat, batch: seq<Delivery>, ghost batches: seq<seq<nat>>, tag: nat, wire: Wire) returns (batch': seq<Delivery>)
    requires TagsDiffer(c.events) && LoopOk(c, n, Tags(batch), batches, wire.ops) && Stands(batch, wire, HandOps([], |batch|))
    requires n < |c.events| && c.events[n] == Received(tag, true)
    ensures |batch'| == |batch| + 1 && batch'[..|batch|] == batch && fresh(batch'[|batch|].gate)
    ensures LoopOk(c, n + 1, Tags(batch'), batches, wire.ops) && Stands(batch', wire, HandOps([], |batch'|))
  {
    var d := NewDelivery(tag);
    batch' := batch + [d];
    assert Tags(batch') == Tags(batch) + [tag];
    NewTag(c, n);
    forall i | 0 <= i < |batch| ensures batch[i].tag != tag && Has(batch[i], wire, []) {
      assert Tags(batch)[i] in Tags(batch);
      assert Has(batch[i], wire, HandOps([], |batch|)[i]);
    }
    LoopTakes(c, n, Tags(batch), batches, wire.ops);
  }

  /** The head of the select loop: the batch is never full there, and nothing waiting has been settled. */
  ghost predicate Ready(c: Setup, n: nat, batch: seq<Delivery>, batches: seq<seq<nat>>, wire: Wire)
    reads wire, GatesOf(batch)
  {
    && TagsDiffer(c.events)
    && |batch| < c.Size() && LoopOk(c, n, Tags(batch), batches, wire.ops)
    && Stands(batch, wire, HandOps([], |batch|))
  }

  /** Gates of the new batch are those of the old one, or new. */
  twostate predicate GatesKnown(batch: seq<Delivery>, new batch': seq<Delivery>) {
    forall i | 0 <= i < |batch'| :: batch'[i].gate != null && (batch'[i].gate in GatesOf(batch) || fresh(batch'[i].gate))
  }

  /** The arm that receives a delivery. */
  method OnDelivery(c: Setup, ghost n: nat, batch: seq<Delivery>, batches: seq<seq<nat>>, tag: nat, decoded: bool, wire: Wire)
    returns (batch': seq<Delivery>, batches': seq<seq<nat>>)
    requires Ready(c, n, batch, batches, wire) && n < |c.events| && c.events[n] == Received(tag, decoded)
    modifies wire, GatesOf(batch)
    ensures Ready(c, n + 1, batch', batches', wire) && GatesKnown(batch, batch')
  {
    batch', batches' := batch, batches;
    if !decoded {
      ghost var before := wire.ops;
      NewTag(c, n);
      if !c.autoAck {
        var d := NewDelivery(tag);
        SettleWith(d, wire, Rejected(c.requeue));
      }
      assert OpsOf(before, tag) + [Rejected(c.requeue)] == [Rejected(c.requeue)];
      LoopRejects(c, n, Tags(batch), batches, before, wire.ops);
      forall i | 0 <= i < |batch| ensures Has(batch[i], wire, []) {
        assert Tags(batch)[i] in Tags(batch);
        assert old(Has(batch[i], wire, HandOps([], |batch|)[i]));
      }
      return;
    }
    batch' := Take(c, n, batch, batches, tag, wire);
    if |batch'| >= c.Size() {
      batches' := Flush(c, n + 1, batch', batches, wire);
      batch' := [];
    }
  }

  /** Every other arm hands over what is waiting. */
  method OnSignal(c: Setup, ghost n: nat, batch: seq<Delivery>, batches: seq<seq<nat>>, wire: Wire) returns (batches': seq<seq<nat>>)
    requires Ready(c, n, batch, batches, wire) && n < |c.events| && !c.events[n].Received?
    modifies wire, GatesOf(batch)
    ensures Ready(c, n + 1, [], batches', wire)
  {
    batches' := batches;
    LoopSkips(c, n, Tags(batch), batches, wire.ops);
    if |batch| > 0 {
      batches' := Flush(c, n + 1, batch, batches, wire);
    }
  }

  /** One turn of the select loop; the exit arms leave nothing waiting. */
  method OnEvent(c: Setup, n: nat, batch: seq<Delivery>, batches: seq<seq<nat>>, wire: Wire)
    returns (batch': seq<Delivery>, batches': seq<seq<nat>>)
    requires n < |c.events| && Ready(c, n, batch, batches, wire)
    modifies wire, GatesOf(batch)
    ensures Ready(c, n + 1, batch', batches', wire) && GatesKnown(batch, batch')
    ensures IsExit(c.events[n]) ==> batch' == []
  {
    match c.events[n] {
      case Received(tag, decoded) =>
        batch', batches' := OnDelivery(c, n, batch, batches, tag, decoded, wire);
      case _ =>
        batches' := OnSignal(c, n, batch, batches, wire);
        batch' := [];
    }
  }

  lemma LoopStarts(c: Setup, ops: Ops)
    requires ops == map[]
    ensures LoopOk(c, 0, [], [], ops)
  {
    assert c.events[..0] == [];
  }

  predicate NoExitIn(events: seq<Event>, n: int) {
    forall i | 0 <= i < n && i < |events| :: !IsExit(events[i])
  }

  /**
   Whatever was handed over in a batch is settled as its handler run calls for, and what
   could not be decoded was rejected.
   */
  ghost predicate SettledAsCalledFor(c: Setup, taken: nat, batches: seq<seq<nat>>, ops: Ops) {
    && (forall b, i {:trigger batches[b][i]} | 0 <= b < |batches| && 0 <= i < |batches[b]| ::
          PlaceSettled(c.handler(b), i, c.requeue, c.autoAck, OpsOf(ops, batches[b][i])))
    && forall i | 0 <= i < taken && i < |c.events| && c.events[i].Received? && !c.events[i].decoded ::
         OpsOf(ops, c.events[i].tag) == if c.autoAck then [] else [Rejected(c.requeue)]
  }

  lemma LoopSettles(c: Setup, n: nat, batches: seq<seq<nat>>, ops: Ops)
    requires LoopOk(c, n, [], batches, ops)
    ensures SettledAsCalledFor(c, n, batches, ops)
  {
    forall b, i | 0 <= b < |batches| && 0 <= i < |batches[b]|
      ensures PlaceSettled(c.handler(b), i, c.requeue, c.autoAck, OpsOf(ops, batches[b][i])) {
      assert BatchSettled(c, b, batches[b], ops);
      FinalOpsSettle(c.handler(b), i, c.requeue, c.autoAck);
    }
    forall i: nat | i < n && c.events[i].Received? && !c.events[i].decoded
      ensures OpsOf(ops, c.events[i].tag) == if c.autoAck then [] else [Rejected(c.requeue)] {
      assert RejectSettled(c, i, ops);
    }
  }

  lemma LoopEnds(c: Setup, n: nat, batches: seq<seq<nat>>, ops: Ops)
    requires LoopOk(c, n, [], batches, ops)
    ensures Decoded(c.events[..n]) == Flat(batches) && SettledAsCalledFor(c, n, batches, ops) && (!c.autoAck ==> OneOpEach(c, n, ops))
  {
    assert Flat(batches) + [] == Flat(batches);
    LoopSettles(c, n, batches, ops);
    AllSettled(c, n, batches, ops);
  }

  /**
   ConsumeBatch from its first event to the exit arm it leaves by. Every delivery taken is
   handed to the handler in order, in batches no larger than the batch size, or rejected at
   once because it could not be decoded; and each of them is settled as LoopOk says, for
   any handler and any exit arm.
   */
  method ConsumeBatch(c: Setup, wire: Wire) returns (taken: nat, batches: seq<seq<nat>>)
    requires TagsDiffer(c.events) && wire.ops == map[]
    requires exists i :: 0 <= i < |c.events| && IsExit(c.events[i])
    modifies wire
    ensures 0 < taken <= |c.events| && IsExit(c.events[taken - 1]) && NoExitIn(c.events, taken - 1)
    ensures LoopOk(c, taken, [], batches, wire.ops)
    ensures Decoded(c.events[..taken]) == Flat(batches) && forall b | b in batches :: 0 < |b| <= if c.batchSize <= 0 then 100 else c.batchSize
    ensures SettledAsCalledFor(c, taken, batches, wire.ops)
    ensures !c.autoAck ==> OneOpEach(c, taken, wire.ops)
  {
    ghost var last :| 0 <= last < |c.events| && IsExit(c.events[last]);
    var batch: seq<Delivery>;
    batch, taken, batches := [], 0, [];
    LoopStarts(c, wire.ops);
    var exit := false;
    while !exit
      invariant taken <= last + 1 && NoExitIn(c.events, if exit then taken - 1 else taken)
      invariant exit ==> 0 < taken && IsExit(c.events[taken - 1]) && batch == []
      invariant Ready(c, taken, batch, batches, wire) && GatesKnown([], batch)
      decreases last + 1 - taken
    {
      exit := IsExit(c.events[taken]);
      batch, batches := OnEvent(c, taken, batch, batches, wire);
      taken := taken + 1;
    }
    LoopEnds(c, taken, batches, wire.ops);
  }
}
