/**
 The locks of delivery assurance: every call acquires them in one order, so calls that
 run concurrently, however many and however interleaved, never block each other for good.
 Readers' and writers' locks are all treated as exclusive.
 */
module LockOrder {
  import opened PendingMap

  type ShardIndex = i: nat | i < NUM_SHARDS

  datatype Lock =
    | RefreshMu
    | PublishMu
    | GenMu(gen: nat)
    | PendingMu(reg: nat)
    | StatsMutex
    | ShardMu(shard: ShardIndex)
  {
    /** The order: locks of equal rank are never held together. */
    function Rank(): nat {
      match this
      case RefreshMu => 1
      case PublishMu => 2
      case GenMu(_) => 3
      case PendingMu(_) => 3
      case StatsMutex => 4
      case ShardMu(i) => 5 + i
    }
  }

  // ---- what a call does with locks ------------------------------------------------------

  /** A critical section and the sections nested in it. */
  datatype Section = Section(lock: Lock, inner: seq<Section>)

  function With(l: Lock, inner: seq<Section>): seq<Section> { [Section(l, inner)] }

  /** Everything acquired here ranks above `floor`, and what is nested in it ranks above it, at every depth. */
  predicate Nested(call: seq<Section>, floor: nat) {
    call == [] || (floor < call[0].lock.Rank() && Nested(call[0].inner, call[0].lock.Rank()) && Nested(call[1..], floor))
  }

  lemma {:induction false} NestedConcat(a: seq<Section>, b: seq<Section>, floor: nat)
    requires Nested(a, floor) && Nested(b, floor)
    ensures Nested(a + b, floor)
  {
    if a == [] {
      assert a + b == b;
    } else {
      assert (a + b)[1..] == a[1..] + b;
      NestedConcat(a[1..], b, floor);
    }
  }

  lemma NestedConcat4(a: seq<Section>, b: seq<Section>, c: seq<Section>, d: seq<Section>, floor: nat)
    requires Nested(a, floor) && Nested(b, floor) && Nested(c, floor) && Nested(d, floor)
    ensures Nested(a + b + c + d, floor)
  {
    NestedConcat(a, b, floor);
    NestedConcat(a + b, c, floor);
    NestedConcat(a + b + c, d, floor);
  }

  lemma {:induction false} NestedLower(a: seq<Section>, floor: nat, floor': nat)
    requires Nested(a, floor) && floor' <= floor
    ensures Nested(a, floor')
  {
    if a != [] { NestedLower(a[1..], floor, floor'); }
  }

  lemma NestedWith(l: Lock, inner: seq<Section>, floor: nat)
    requires floor < l.Rank() && Nested(inner, l.Rank())
    ensures Nested(With(l, inner), floor)
  {
  }

  /** One shard after the other, none while holding another (Count, Range). */
  function EachShard(from: nat): seq<Section>
    requires from <= NUM_SHARDS
    decreases NUM_SHARDS - from
  {
    if from == NUM_SHARDS then [] else With(ShardMu(from), []) + EachShard(from + 1)
  }

  /** Both shards of an entry, the lower first (Store, Delete). */
  function TwoShards(msg: ShardIndex, tag: ShardIndex): seq<Section> {
    if msg == tag then With(ShardMu(msg), [])
    else if msg < tag then With(ShardMu(msg), With(ShardMu(tag), []))
    else With(ShardMu(tag), With(ShardMu(msg), []))
  }

  function Load(shard: ShardIndex): seq<Section> { With(ShardMu(shard), []) }

  /** A handler under a message's own lock; it counts an outcome or does not. */
  function Handle(reg: nat, counts: bool): seq<Section> {
    With(PendingMu(reg), if counts then With(StatsMutex, []) else [])
  }

  /** What became of one publish attempt. */
  datatype Attempt =
    | NotStarted
    | FoundDead
    | FoundDuplicate
    | SendFailed
    | Sent
    | SentOrphan(counts: bool)
    | SentTimeout(counts: bool)

  /** publishTracked once the send has returned. */
  function AfterSend(a: Attempt, reg: nat, msg: ShardIndex, tag: ShardIndex): seq<Section> {
    match a
    case SendFailed => TwoShards(msg, tag) + With(StatsMutex, EachShard(0))
    case SentOrphan(counts) => Handle(reg, counts)
    case SentTimeout(counts) => Load(tag) + Handle(reg, counts)
    case _ => []
  }

  /** Re-keying an entry to another tag. */
  function Rekey(reg: nat, msg: ShardIndex, tag: ShardIndex, tag': ShardIndex): seq<Section> {
    With(PendingMu(reg), TwoShards(msg, tag) + TwoShards(msg, tag'))
  }

  /** Store under gen.mu, then Count. */
  function Registering(gen: nat, msg: ShardIndex, tag: ShardIndex): seq<Section> {
    With(GenMu(gen), TwoShards(msg, tag)) + EachShard(0)
  }

  /** TotalPublished++ before the send, the message's flags after it. */
  function Counting(reg: nat): seq<Section> {
    With(StatsMutex, []) + With(PendingMu(reg), [])
  }

  /** publishTracked with publishMu held. */
  function Tracked(a: Attempt, gen: nat, reg: nat, msg: ShardIndex, tag: ShardIndex, rekeyed: bool, tag': ShardIndex): seq<Section> {
    if a.NotStarted? then []
    else if a.FoundDead? then With(GenMu(gen), [])
    else if a.FoundDuplicate? then With(GenMu(gen), TwoShards(msg, tag))
    else
      Registering(gen, msg, tag) + Counting(reg) + AfterSend(a, reg, msg, tag)
      + (if rekeyed then Rekey(reg, msg, tag, tag') else [])
  }

  /** A refresh that gives up early, or one that installs. */
  function Refresh(installs: bool): seq<Section> {
    With(RefreshMu, if installs then With(PublishMu, []) else [])
  }

  /** failOrphans: mark dead, walk the shards, then settle each orphan. */
  function FailOrphans(gen: nat, orphans: seq<(nat, bool)>): seq<Section> {
    With(GenMu(gen), []) + EachShard(0) + SettleEach(orphans)
  }

  function SettleEach(orphans: seq<(nat, bool)>): seq<Section> {
    if orphans == [] then [] else Handle(orphans[0].0, orphans[0].1) + SettleEach(orphans[1..])
  }

  /** DeliveryHealth: it inspects the entries only after it has let go of the shards. */
  function Snapshot(gen: nat, entries: seq<(nat, bool)>): seq<Section> {
    EachShard(0) + With(GenMu(gen), []) + EachShard(0) + SettleEach(entries) + With(StatsMutex, [])
  }

  datatype Call =
    | Publishing(a: Attempt, gen: nat, reg: nat, msg: ShardIndex, tag: ShardIndex, rekeyed: bool, tag': ShardIndex)
    | Refreshing(installs: bool)
    | ReadingConfirm(tag: ShardIndex, reg: nat, counts: bool)      // also a timer's function
    | ReadingReturn(msg: ShardIndex, reg: nat, counts: bool)
    | Sweeping(gen: nat, orphans: seq<(nat, bool)>)
    | Finishing(msg: ShardIndex, tag: ShardIndex)
    | Retrying(reg: nat, msg: ShardIndex, tag: ShardIndex)
    | Inspecting(gen: nat, entries: seq<(nat, bool)>)
    | PassingBarrier
    | ReadingStats

  function Locks(c: Call): seq<Section> {
    match c
    case Publishing(a, gen, reg, msg, tag, rekeyed, tag') => With(PublishMu, Tracked(a, gen, reg, msg, tag, rekeyed, tag'))
    case Refreshing(installs) => Refresh(installs)
    case ReadingConfirm(tag, reg, counts) => Load(tag) + Handle(reg, counts)
    case ReadingReturn(msg, reg, counts) => Load(msg) + EachShard(0) + Handle(reg, counts)
    case Sweeping(gen, orphans) => FailOrphans(gen, orphans)
    case Finishing(msg, tag) => TwoShards(msg, tag) + EachShard(0) + With(StatsMutex, [])
    case Retrying(reg, msg, tag) => With(PendingMu(reg), []) + TwoShards(msg, tag)
    case Inspecting(gen, entries) => Snapshot(gen, entries)
    case PassingBarrier => EachShard(0) + With(PublishMu, []) + EachShard(0)
    case ReadingStats => With(StatsMutex, [])
  }

  /** A goroutine's calls, one after the other (the retry loop of a publish, a reader's frames). */
  function AllLocks(calls: seq<Call>): seq<Section> {
    if calls == [] then [] else Locks(calls[0]) + AllLocks(calls[1..])
  }

  lemma {:induction false} EachShardNested(from: nat)
    requires from <= NUM_SHARDS
    ensures Nested(EachShard(from), 4)
    decreases NUM_SHARDS - from
  {
    if from < NUM_SHARDS {
      EachShardNested(from + 1);
      NestedWith(ShardMu(from), [], 4);
      NestedConcat(With(ShardMu(from), []), EachShard(from + 1), 4);
    }
  }

  /** The lower shard is taken first. */
  lemma TwoShardsNested(msg: ShardIndex, tag: ShardIndex)
    ensures Nested(TwoShards(msg, tag), 4)
  {
    var lo, hi := if msg < tag then msg else tag, if msg < tag then tag else msg;
    NestedWith(ShardMu(hi), [], if lo < hi then 5 + lo else 4);
    if lo < hi { NestedWith(ShardMu(lo), With(ShardMu(hi), []), 4); }
  }

  lemma HandleNested(reg: nat, counts: bool)
    ensures Nested(Handle(reg, counts), 2)
  {
    NestedWith(StatsMutex, [], 3);
    NestedWith(PendingMu(reg), if counts then With(StatsMutex, []) else [], 2);
  }

  lemma {:induction false} SettleEachNested(orphans: seq<(nat, bool)>)
    ensures Nested(SettleEach(orphans), 2)
  {
    if orphans != [] {
      SettleEachNested(orphans[1..]);
      HandleNested(orphans[0].0, orphans[0].1);
      NestedConcat(Handle(orphans[0].0, orphans[0].1), SettleEach(orphans[1..]), 2);
    }
  }

  lemma LoadNested(shard: ShardIndex)
    ensures Nested(Load(shard), 4)
  {
    NestedWith(ShardMu(shard), [], 4);
  }

  lemma AfterSendNested(a: Attempt, reg: nat, msg: ShardIndex, tag: ShardIndex)
    ensures Nested(AfterSend(a, reg, msg, tag), 2)
  {
    match a
    case SendFailed =>
      EachShardNested(0);
      NestedWith(StatsMutex, EachShard(0), 2);
      TwoShardsNested(msg, tag);
      NestedLower(TwoShards(msg, tag), 4, 2);
      NestedConcat(TwoShards(msg, tag), With(StatsMutex, EachShard(0)), 2);
    case SentOrphan(counts) =>
      HandleNested(reg, counts);
    case SentTimeout(counts) =>
      HandleNested(reg, counts);
      LoadNested(tag);
      NestedLower(Load(tag), 4, 2);
      NestedConcat(Load(tag), Handle(reg, counts), 2);
    case _ =>
  }

  lemma RekeyNested(reg: nat, msg: ShardIndex, tag: ShardIndex, tag': ShardIndex)
    ensures Nested(Rekey(reg, msg, tag, tag'), 2)
  {
    TwoShardsNested(msg, tag);
    TwoShardsNested(msg, tag');
    NestedConcat(TwoShards(msg, tag), TwoShards(msg, tag'), 4);
    NestedLower(TwoShards(msg, tag) + TwoShards(msg, tag'), 4, 3);
    NestedWith(PendingMu(reg), TwoShards(msg, tag) + TwoShards(msg, tag'), 2);
  }

  lemma ShardsBelow(msg: ShardIndex, tag: ShardIndex, floor: nat)
    requires floor <= 4
    ensures Nested(TwoShards(msg, tag), floor) && Nested(EachShard(0), floor) && Nested(Load(tag), floor)
  {
    TwoShardsNested(msg, tag);
    EachShardNested(0);
    LoadNested(tag);
    NestedLower(TwoShards(msg, tag), 4, floor);
    NestedLower(EachShard(0), 4, floor);
    NestedLower(Load(tag), 4, floor);
  }

  lemma FiledNested(gen: nat, msg: ShardIndex, tag: ShardIndex)
    ensures Nested(With(GenMu(gen), TwoShards(msg, tag)), 2) && Nested(With(GenMu(gen), []), 2)
  {
    ShardsBelow(msg, tag, 3);
    NestedWith(GenMu(gen), TwoShards(msg, tag), 2);
    NestedWith(GenMu(gen), [], 2);
  }

  lemma RegisteringNested(gen: nat, msg: ShardIndex, tag: ShardIndex)
    ensures Nested(Registering(gen, msg, tag), 2)
  {
    FiledNested(gen, msg, tag);
    ShardsBelow(msg, tag, 2);
    NestedConcat(With(GenMu(gen), TwoShards(msg, tag)), EachShard(0), 2);
  }

  lemma CountingNested(reg: nat)
    ensures Nested(Counting(reg), 2)
  {
    NestedWith(StatsMutex, [], 2);
    NestedWith(PendingMu(reg), [], 2);
    NestedConcat(With(StatsMutex, []), With(PendingMu(reg), []), 2);
  }

  lemma TrackedNested(a: Attempt, gen: nat, reg: nat, msg: ShardIndex, tag: ShardIndex, rekeyed: bool, tag': ShardIndex)
    ensures Nested(Tracked(a, gen, reg, msg, tag, rekeyed, tag'), 2)
  {
    FiledNested(gen, msg, tag);
    RegisteringNested(gen, msg, tag);
    CountingNested(reg);
    AfterSendNested(a, reg, msg, tag);
    RekeyNested(reg, msg, tag, tag');
    NestedConcat4(Registering(gen, msg, tag), Counting(reg), AfterSend(a, reg, msg, tag), if rekeyed then Rekey(reg, msg, tag, tag') else [], 2);
  }

  /** Concatenating three calls' sections. */
  lemma NestedConcat3(a: seq<Section>, b: seq<Section>, c: seq<Section>)
    requires Nested(a, 0) && Nested(b, 0) && Nested(c, 0)
    ensures Nested(a + b + c, 0)
  {
    NestedConcat(a, b, 0);
    NestedConcat(a + b, c, 0);
  }

  /** A lock taken and let go. */
  lemma PlainNested(l: Lock, floor: nat)
    requires floor < l.Rank()
    ensures Nested(With(l, []), floor)
  {
    NestedWith(l, [], floor);
  }

  lemma HandleBelow(reg: nat, counts: bool, entries: seq<(nat, bool)>)
    ensures Nested(Handle(reg, counts), 0) && Nested(SettleEach(entries), 0)
  {
    HandleNested(reg, counts);
    NestedLower(Handle(reg, counts), 2, 0);
    SettleEachNested(entries);
    NestedLower(SettleEach(entries), 2, 0);
  }

  lemma SweepingNested(gen: nat, orphans: seq<(nat, bool)>)
    ensures Nested(FailOrphans(gen, orphans), 0)
  {
    PlainNested(GenMu(gen), 0);
    ShardsBelow(0, 0, 0);
    HandleBelow(0, false, orphans);
    NestedConcat3(With(GenMu(gen), []), EachShard(0), SettleEach(orphans));
  }

  lemma InspectingNested(gen: nat, entries: seq<(nat, bool)>)
    ensures Nested(Snapshot(gen, entries), 0)
  {
    PlainNested(GenMu(gen), 0);
    PlainNested(StatsMutex, 0);
    ShardsBelow(0, 0, 0);
    HandleBelow(0, false, entries);
    NestedConcat3(EachShard(0), With(GenMu(gen), []), EachShard(0));
    NestedConcat3(EachShard(0) + With(GenMu(gen), []) + EachShard(0), SettleEach(entries), With(StatsMutex, []));
  }

  lemma ReadingNested(shard: ShardIndex, reg: nat, counts: bool)
    ensures Nested(Load(shard) + Handle(reg, counts), 0) && Nested(Load(shard) + EachShard(0) + Handle(reg, counts), 0)
  {
    ShardsBelow(0, shard, 0);
    HandleBelow(reg, counts, []);
    NestedConcat(Load(shard), Handle(reg, counts), 0);
    NestedConcat3(Load(shard), EachShard(0), Handle(reg, counts));
  }

  lemma FinishingNested(msg: ShardIndex, tag: ShardIndex)
    ensures Nested(TwoShards(msg, tag) + EachShard(0) + With(StatsMutex, []), 0)
  {
    ShardsBelow(msg, tag, 0);
    PlainNested(StatsMutex, 0);
    NestedConcat3(TwoShards(msg, tag), EachShard(0), With(StatsMutex, []));
  }

  lemma RetryingNested(reg: nat, msg: ShardIndex, tag: ShardIndex)
    ensures Nested(With(PendingMu(reg), []) + TwoShards(msg, tag), 0)
  {
    ShardsBelow(msg, tag, 0);
    PlainNested(PendingMu(reg), 0);
    NestedConcat(With(PendingMu(reg), []), TwoShards(msg, tag), 0);
  }

  lemma BarrierNested()
    ensures Nested(EachShard(0) + With(PublishMu, []) + EachShard(0), 0)
  {
    ShardsBelow(0, 0, 0);
    PlainNested(PublishMu, 0);
    NestedConcat3(EachShard(0), With(PublishMu, []), EachShard(0));
  }

  lemma PublishingNested(a: Attempt, gen: nat, reg: nat, msg: ShardIndex, tag: ShardIndex, rekeyed: bool, tag': ShardIndex, installs: bool)
    ensures Nested(With(PublishMu, Tracked(a, gen, reg, msg, tag, rekeyed, tag')), 0) && Nested(Refresh(installs), 0)
  {
    TrackedNested(a, gen, reg, msg, tag, rekeyed, tag');
    NestedWith(PublishMu, Tracked(a, gen, reg, msg, tag, rekeyed, tag'), 0);
    PlainNested(PublishMu, 1);
    NestedWith(RefreshMu, if installs then With(PublishMu, []) else [], 0);
  }

  /** Every call acquires its locks in the one order. */
  lemma CallNested(c: Call)
    ensures Nested(Locks(c), 0)
  {
    match c
    case Publishing(a, gen, reg, msg, tag, rekeyed, tag') => PublishingNested(a, gen, reg, msg, tag, rekeyed, tag', false);
    case Refreshing(installs) => PublishingNested(NotStarted, 0, 0, 0, 0, false, 0, installs);
    case ReadingConfirm(tag, reg, counts) => ReadingNested(tag, reg, counts);
    case ReadingReturn(msg, reg, counts) => ReadingNested(msg, reg, counts);
    case Sweeping(gen, orphans) => SweepingNested(gen, orphans);
    case Finishing(msg, tag) => FinishingNested(msg, tag);
    case Retrying(reg, msg, tag) => RetryingNested(reg, msg, tag);
    case Inspecting(gen, entries) => InspectingNested(gen, entries);
    case PassingBarrier => BarrierNested();
    case ReadingStats => PlainNested(StatsMutex, 0);
  }

  lemma {:induction false} CallsNested(calls: seq<Call>)
    ensures Nested(AllLocks(calls), 0)
  {
    if calls != [] {
      CallNested(calls[0]);
      CallsNested(calls[1..]);
      NestedConcat(Locks(calls[0]), AllLocks(calls[1..]), 0);
    }
  }

  // ---- the goroutines together -----------------------------------------------------------

  datatype Op = Acquire(lock: Lock) | Release(lock: Lock)

  /** The acquisitions and releases of nested sections, in order. */
  function Flatten(call: seq<Section>): seq<Op> {
    if call == [] then []
    else [Acquire(call[0].lock)] + Flatten(call[0].inner) + [Release(call[0].lock)] + Flatten(call[1..])
  }

  /** A goroutine: the locks it holds, innermost last, and what it still has to do. */
  datatype Thread = Thread(held: seq<Lock>, rest: seq<Op>)

  function Top(held: seq<Lock>): nat {
    if held == [] then 0 else held[|held| - 1].Rank()
  }

  /** From here on the goroutine acquires in rank order, releases what it holds, and ends holding nothing. */
  predicate Runs(held: seq<Lock>, rest: seq<Op>)
    decreases |rest|
  {
    if rest == [] then held == []
    else match rest[0]
      case Acquire(l) => Top(held) < l.Rank() && Runs(held + [l], rest[1..])
      case Release(l) => held != [] && held[|held| - 1] == l && Runs(held[..|held| - 1], rest[1..])
  }

  /** Held locks are in increasing rank. */
  predicate Ascending(held: seq<Lock>) {
    forall i, j | 0 <= i < j < |held| :: held[i].Rank() < held[j].Rank()
  }

  type System = seq<Thread>

  predicate Holds(threads: System, i: nat, l: Lock) {
    i < |threads| && l in threads[i].held
  }

  /** Next for goroutine i: acquire a free lock, or release one. */
  predicate CanStep(threads: System, i: nat) {
    && i < |threads| && threads[i].rest != []
    && (threads[i].rest[0].Acquire? ==> forall j: nat | j < |threads| :: !Holds(threads, j, threads[i].rest[0].lock))
    && (threads[i].rest[0].Release? ==> threads[i].held != [])
  }

  function StepThread(t: Thread): Thread
    requires t.rest != [] && (t.rest[0].Release? ==> t.held != [])
  {
    match t.rest[0]
    case Acquire(l) => Thread(t.held + [l], t.rest[1..])
    case Release(_) => Thread(t.held[..|t.held| - 1], t.rest[1..])
  }

  function Step(threads: System, i: nat): System
    requires CanStep(threads, i)
  {
    threads[i := StepThread(threads[i])]
  }

  ghost predicate Inv(threads: System) {
    && (forall i | 0 <= i < |threads| :: Runs(threads[i].held, threads[i].rest) && Ascending(threads[i].held))
    && (forall i: nat, j: nat, l {:trigger Holds(threads, i, l), Holds(threads, j, l)} |
          Holds(threads, i, l) && Holds(threads, j, l) :: i == j)
  }

  /** Goroutines about to make these calls. */
  function Start(work: seq<seq<Call>>): System {
    seq(|work|, i requires 0 <= i < |work| => Thread([], Flatten(AllLocks(work[i]))))
  }

  lemma FlattenParts(call: seq<Section>, rest: seq<Op>)
    requires call != []
    ensures Flatten(call) + rest ==
            [Acquire(call[0].lock)] + (Flatten(call[0].inner) + ([Release(call[0].lock)] + (Flatten(call[1..]) + rest)))
  {
  }

  /** Nested sections, entered with only lower locks held, can be run before anything that can follow them. */
  lemma {:induction false} FlattenRuns(call: seq<Section>, held: seq<Lock>, rest: seq<Op>)
    requires Nested(call, Top(held)) && Runs(held, rest)
    ensures Runs(held, Flatten(call) + rest)
    decreases call
  {
    if call == [] {
      assert Flatten(call) + rest == rest;
    } else {
      var l, inner, more := call[0].lock, call[0].inner, call[1..];
      FlattenRuns(more, held, rest);
      FlattenRuns(inner, held + [l], [Release(l)] + (Flatten(more) + rest));
      FlattenParts(call, rest);
    }
  }

  lemma StartInv(work: seq<seq<Call>>)
    ensures Inv(Start(work))
  {
    forall i | 0 <= i < |work| ensures Runs(Start(work)[i].held, Start(work)[i].rest) {
      CallsNested(work[i]);
      var ops := Flatten(AllLocks(work[i]));
      FlattenRuns(AllLocks(work[i]), [], []);
      assert ops + [] == ops;
    }
  }

  lemma StepInv(threads: System, i: nat)
    requires Inv(threads) && CanStep(threads, i)
    ensures Inv(Step(threads, i))
  {
    var threads' := Step(threads, i);
    var t, t' := threads[i], threads'[i];
    assert Runs(t.held, t.rest) && Ascending(t.held);
    forall j: nat, k: nat, l | Holds(threads', j, l) && Holds(threads', k, l) ensures j == k {
      if t.rest[0] == Acquire(l) {
        assert !Holds(threads, j, l) && !Holds(threads, k, l);
      } else {
        assert Holds(threads, j, l) && Holds(threads, k, l);
      }
    }
  }

  /** The goroutine blocked on the lock of highest rank is blocked by one that is not blocked. */
  lemma {:induction false} FollowBlockers(threads: System, i: nat) returns (free: nat)
    requires Inv(threads) && i < |threads| && threads[i].rest != []
    ensures CanStep(threads, free)
    decreases if threads[i].rest[0].Acquire? then 5 + NUM_SHARDS - threads[i].rest[0].lock.Rank() else 0
  {
    assert Runs(threads[i].held, threads[i].rest);
    if CanStep(threads, i) {
      free := i;
    } else {
      var l := threads[i].rest[0].lock;
      var j: nat :| j < |threads| && Holds(threads, j, l);
      if threads[j].rest[0].Release? {
        free := j;
      } else {
        free := FollowBlockers(threads, j);
      }
    }
  }

  /** What all goroutines together still have to do. */
  function Remaining(threads: System): nat {
    if threads == [] then 0 else |threads[0].rest| + Remaining(threads[1..])
  }

  lemma {:induction false} RemainingUpdate(threads: System, i: nat, t: Thread)
    requires i < |threads|
    ensures Remaining(threads[i := t]) == Remaining(threads) - |threads[i].rest| + |t.rest|
  {
    if i == 0 {
      assert threads[0 := t][1..] == threads[1..];
    } else {
      RemainingUpdate(threads[1..], i - 1, t);
      assert threads[i := t][1..] == threads[1..][i - 1 := t];
    }
  }

  predicate AllDone(threads: System) {
    forall i | 0 <= i < |threads| :: threads[i].rest == []
  }

  /** An interleaving of the calls: goroutine steps[k] moves k-th. */
  predicate IsInterleaving(work: seq<seq<Call>>, run: seq<System>, steps: seq<nat>) {
    && |run| == |steps| + 1
    && run[0] == Start(work)
    && forall k | 0 <= k < |steps| :: CanStep(run[k], steps[k]) && run[k + 1] == Step(run[k], steps[k])
  }

  /**
   Deadlock freedom: whatever calls run concurrently and however they have interleaved so
   far, either all have finished or one of them can go on; and an interleaving is never
   longer than the calls' lock operations together.
   */
  lemma {:induction false} NoDeadlock(work: seq<seq<Call>>, run: seq<System>, steps: seq<nat>, k: nat)
    requires IsInterleaving(work, run, steps) && k < |run|
    ensures Inv(run[k])
    ensures AllDone(run[k]) || exists i :: CanStep(run[k], i)
    ensures k + Remaining(run[k]) == Remaining(Start(work))
    decreases k
  {
    if k == 0 {
      StartInv(work);
    } else {
      NoDeadlock(work, run, steps, k - 1);
      var i := steps[k - 1];
      assert CanStep(run[k - 1], i) && run[k] == Step(run[k - 1], i);
      StepInv(run[k - 1], i);
      RemainingUpdate(run[k - 1], i, StepThread(run[k - 1][i]));
    }
    if !AllDone(run[k]) {
      var i :| 0 <= i < |run[k]| && run[k][i].rest != [];
      var free := FollowBlockers(run[k], i);
    }
  }

  /** So a longest interleaving has finished every call. */
  lemma CallsFinish(work: seq<seq<Call>>, run: seq<System>, steps: seq<nat>)
    requires IsInterleaving(work, run, steps) && |steps| == Remaining(Start(work))
    ensures AllDone(run[|steps|])
  {
    NoDeadlock(work, run, steps, |steps|);
    NothingRemains(run[|steps|]);
  }

  lemma {:induction false} NothingRemains(threads: System)
    requires Remaining(threads) == 0
    ensures AllDone(threads)
  {
    if threads != [] {
      NothingRemains(threads[1..]);
      forall i | 0 <= i < |threads| ensures threads[i].rest == [] {
        if i > 0 { assert threads[i] == threads[1..][i - 1]; }
      }
    }
  }

  // ---- why DeliveryHealth collects first and inspects afterwards -----------------------------

  /** Inspecting an entry while its shard is still locked would invert the order of a re-key. */
  function InspectInside(shard: ShardIndex, reg: nat): seq<Section> {
    With(ShardMu(shard), With(PendingMu(reg), []))
  }

  lemma FlattenPair(outer: Lock, inner: Lock, more: seq<Section>)
    ensures Flatten(With(outer, With(inner, []) + more))[..2] == [Acquire(outer), Acquire(inner)]
  {
    var body := With(inner, []) + more;
    assert Flatten(body)[0] == Acquire(inner);
    assert Flatten(With(outer, body)) == [Acquire(outer)] + Flatten(body) + [Release(outer)] + Flatten([]);
  }

  /** And the two could block each other for good: each has taken its first lock and waits for the other's. */
  lemma InspectInsideDeadlocks(shard: ShardIndex, reg: nat)
    ensures var inspecting, rekeying := Flatten(InspectInside(shard, reg)), Flatten(Rekey(reg, shard, shard, shard));
            && |inspecting| > 1 && inspecting[0] == Acquire(ShardMu(shard))
            && |rekeying| > 1 && rekeying[0] == Acquire(PendingMu(reg))
            && var threads := [Thread([ShardMu(shard)], inspecting[1..]), Thread([PendingMu(reg)], rekeying[1..])];
            forall i :: !CanStep(threads, i)
  {
    FlattenPair(ShardMu(shard), PendingMu(reg), []);
    FlattenPair(PendingMu(reg), ShardMu(shard), TwoShards(shard, shard));
    assert With(PendingMu(reg), []) + [] == With(PendingMu(reg), []);
    var inspecting, rekeying := Flatten(InspectInside(shard, reg)), Flatten(Rekey(reg, shard, shard, shard));
    assert inspecting[..2][1] == Acquire(PendingMu(reg)) && rekeying[..2][1] == Acquire(ShardMu(shard));
    var threads := [Thread([ShardMu(shard)], inspecting[1..]), Thread([PendingMu(reg)], rekeying[1..])];
    assert Holds(threads, 1, PendingMu(reg)) && Holds(threads, 0, ShardMu(shard));
  }
}
