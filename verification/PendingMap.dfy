/**
 The sharded pending map of pending_map.go: 32 shards, each holding a map by
 message ID and a map by delivery key. An entry's two halves usually sit in two
 different shards. The ghost field `index` is the single two-index map that the
 shards together represent.
 */
module PendingMap {

  type MessageId = seq<bv8>

  type RegId = nat

  const NUM_SHARDS: nat := 32

  /** What the sharded map stands for: one map, indexed twice. */
  datatype Index = Index(byId: map<MessageId, RegId>, byKey: map<nat, RegId>)

  const EMPTY_INDEX := Index(map[], map[])

  /** Store on the abstract index: refused when the message ID is already present. */
  function StoreIn(index: Index, id: MessageId, key: nat, reg: RegId): (r: (Index, bool)) {
    if id in index.byId then (index, false)
    else (Index(index.byId[id := reg], index.byKey[key := reg]), true)
  }

  /** Delete on the abstract index: both halves go, whatever they hold. */
  function DeleteFrom(index: Index, id: MessageId, key: nat): (r: Index) {
    Index(index.byId - {id}, index.byKey - {key})
  }

  /** How message IDs are hashed. Nothing below depends on which hash it is; see Fnv1a. */
  type Hash = MessageId -> nat

  function ShardOfId(hash: Hash, id: MessageId): (shard: nat)
    ensures shard < NUM_SHARDS
  {
    hash(id) % NUM_SHARDS
  }

  function ShardOfKey(key: nat): (shard: nat)
    ensures shard < NUM_SHARDS
  {
    key % NUM_SHARDS
  }

  /** The message IDs that live in shards below `bound`. */
  ghost function IdsBelow(hash: Hash, ids: set<MessageId>, bound: nat): set<MessageId> {
    set id | id in ids && ShardOfId(hash, id) < bound
  }

  /** The message IDs of one shard. */
  ghost function IdsAt(hash: Hash, ids: set<MessageId>, shard: nat): set<MessageId> {
    set id | id in ids && ShardOfId(hash, id) == shard
  }

  lemma IdsBelowSplit(hash: Hash, ids: set<MessageId>, bound: nat)
    ensures IdsBelow(hash, ids, bound + 1) == IdsBelow(hash, ids, bound) + IdsAt(hash, ids, bound)
    ensures |IdsBelow(hash, ids, bound + 1)| == |IdsBelow(hash, ids, bound)| + |IdsAt(hash, ids, bound)|
  {
    assert IdsBelow(hash, ids, bound + 1) == IdsBelow(hash, ids, bound) + IdsAt(hash, ids, bound);
    assert IdsBelow(hash, ids, bound) !! IdsAt(hash, ids, bound);
  }

  lemma IdsBelowEnds(hash: Hash, ids: set<MessageId>)
    ensures IdsBelow(hash, ids, 0) == {}
    ensures IdsBelow(hash, ids, NUM_SHARDS) == ids
  {
  }

  class ShardedPendingMap {
    const hash: Hash
    const byMessageId: array<map<MessageId, RegId>>
    const byDeliveryTag: array<map<nat, RegId>>
    ghost var index: Index

    /** Every half sits in the shard it hashes to, and the shards hold exactly `index`. */
    ghost predicate Valid()
      reads this, byMessageId, byDeliveryTag
    {
      && byMessageId.Length == NUM_SHARDS
      && byDeliveryTag.Length == NUM_SHARDS
      && (forall i | 0 <= i < NUM_SHARDS :: byMessageId[i].Keys == IdsAt(hash, index.byId.Keys, i))
      && (forall i | 0 <= i < NUM_SHARDS :: forall id | id in byMessageId[i] :: byMessageId[i][id] == index.byId[id])
      && (forall i | 0 <= i < NUM_SHARDS :: forall k | k in byDeliveryTag[i] ::
            ShardOfKey(k) == i && k in index.byKey && byDeliveryTag[i][k] == index.byKey[k])
      && (forall k | k in index.byKey :: k in byDeliveryTag[ShardOfKey(k)])
    }

    constructor (hash: Hash)
      ensures this.hash == hash
      ensures Valid() && index == EMPTY_INDEX
      ensures fresh(byMessageId) && fresh(byDeliveryTag)
    {
      this.hash := hash;
      byMessageId := new map<MessageId, RegId>[NUM_SHARDS](_ => map[]);
      byDeliveryTag := new map<nat, RegId>[NUM_SHARDS](_ => map[]);
      index := EMPTY_INDEX;
    }

    /** One Store call; both shards are held for the whole of it. */
    method Store(id: MessageId, key: nat, reg: RegId) returns (stored: bool)
      requires Valid()
      modifies this`index, byMessageId, byDeliveryTag
      ensures Valid()
      ensures (index, stored) == StoreIn(old(index), id, key, reg)
    {
      var msgShard, tagShard := ShardOfId(hash, id), ShardOfKey(key);
      if id in byMessageId[msgShard] {
        return false;
      }
      byMessageId[msgShard] := byMessageId[msgShard][id := reg];
      byDeliveryTag[tagShard] := byDeliveryTag[tagShard][key := reg];
      index := Index(index.byId[id := reg], index.byKey[key := reg]);
      stored := true;
    }

    method Delete(id: MessageId, key: nat)
      requires Valid()
      modifies this`index, byMessageId, byDeliveryTag
      ensures Valid()
      ensures index == DeleteFrom(old(index), id, key)
    {
      var msgShard, tagShard := ShardOfId(hash, id), ShardOfKey(key);
      byMessageId[msgShard] := byMessageId[msgShard] - {id};
      byDeliveryTag[tagShard] := byDeliveryTag[tagShard] - {key};
      index := DeleteFrom(index, id, key);
    }

    method LoadByMessageID(id: MessageId) returns (reg: RegId, exists_: bool)
      requires Valid()
      ensures exists_ <==> id in index.byId
      ensures exists_ ==> reg == index.byId[id]
    {
      var shard := ShardOfId(hash, id);
      exists_ := id in byMessageId[shard];
      reg := if exists_ then byMessageId[shard][id] else 0;
    }

    method LoadByDeliveryTag(key: nat) returns (reg: RegId, exists_: bool)
      requires Valid()
      ensures exists_ <==> key in index.byKey
      ensures exists_ ==> reg == index.byKey[key]
    {
      var shard := ShardOfKey(key);
      exists_ := key in byDeliveryTag[shard];
      reg := if exists_ then byDeliveryTag[shard][key] else 0;
    }

    /** The per-shard lengths add up to the size of the one abstract map. */
    method Count() returns (count: nat)
      requires Valid()
      ensures count == |index.byId|
    {
      IdsBelowEnds(hash, index.byId.Keys);
      count := 0;
      var i := 0;
      while i < NUM_SHARDS
        invariant 0 <= i <= NUM_SHARDS
        invariant count == |IdsBelow(hash, index.byId.Keys, i)|
      {
        IdsBelowSplit(hash, index.byId.Keys, i);
        assert byMessageId[i].Keys == IdsAt(hash, index.byId.Keys, i);
        count := count + |byMessageId[i]|;
        i := i + 1;
      }
    }

    /** One shard's part of Range: the entries it holds, each once, in some order, up to one the callback stops at. */
    method RangeShard(shard: nat, goOn: RegId -> bool) returns (visited: seq<RegId>, stopped: bool, ghost ids: seq<MessageId>)
      requires Valid() && shard < NUM_SHARDS
      ensures |ids| == |visited|
      ensures forall j | 0 <= j < |ids| :: ids[j] in index.byId && index.byId[ids[j]] == visited[j]
      ensures forall j | 0 <= j < |ids| :: ShardOfId(hash, ids[j]) == shard
      ensures forall j, k | 0 <= j < k < |ids| :: ids[j] != ids[k]
      ensures VisitsUntil(visited, stopped, goOn)
      ensures !stopped ==> forall id | id in index.byId && ShardOfId(hash, id) == shard :: id in ids
    {
      var left := byMessageId[shard].Keys;
      visited, ids, stopped := [], [], false;
      while left != {} && !stopped
        invariant left <= byMessageId[shard].Keys
        invariant |ids| == |visited|
        invariant forall j | 0 <= j < |ids| :: ids[j] in byMessageId[shard] && ids[j] !in left
        invariant forall j | 0 <= j < |ids| :: byMessageId[shard][ids[j]] == visited[j]
        invariant forall j, k | 0 <= j < k < |ids| :: ids[j] != ids[k]
        invariant forall id | id in byMessageId[shard] && id !in left :: id in ids
        invariant VisitsUntil(visited, stopped, goOn)
        decreases |left|
      {
        var id :| id in left;
        visited := visited + [byMessageId[shard][id]];
        ids := ids + [id];
        left := left - {id};
        stopped := !goOn(byMessageId[shard][id]);
      }
    }

    /** Range: each entry is visited at most once; all of them are, unless the callback stops the walk, and then nothing after. */
    method Range(goOn: RegId -> bool) returns (visited: seq<RegId>, stopped: bool, ghost ids: seq<MessageId>)
      requires Valid()
      ensures |ids| == |visited|
      ensures forall j | 0 <= j < |ids| :: ids[j] in index.byId && index.byId[ids[j]] == visited[j]
      ensures forall j, k | 0 <= j < k < |ids| :: ids[j] != ids[k]
      ensures VisitsUntil(visited, stopped, goOn)
      ensures !stopped ==> |visited| == |index.byId| && forall id | id in index.byId :: id in ids
    {
      visited, ids, stopped := [], [], false;
      var i := 0;
      while i < NUM_SHARDS && !stopped
        invariant 0 <= i <= NUM_SHARDS
        invariant Walked(hash, index.byId, ids, visited, 0, i)
        invariant VisitsUntil(visited, stopped, goOn)
        invariant !stopped ==> WalkedAll(hash, index.byId, ids, 0, i)
      {
        ghost var shardIds;
        var part;
        part, stopped, shardIds := RangeShard(i, goOn);
        WalkGoesOn(hash, index.byId, ids, visited, shardIds, part, i);
        VisitsGoOn(visited, part, stopped, goOn);
        visited := visited + part;
        ids := ids + shardIds;
        i := i + 1;
      }
      if !stopped {
        AllWalked(hash, index.byId, ids, visited);
      }
    }
  }

  /** A listing of entries of shards from..to, none of them twice. */
  ghost predicate Walked(hash: Hash, byId: map<MessageId, RegId>, ids: seq<MessageId>, visited: seq<RegId>, from: nat, to: nat) {
    && |ids| == |visited|
    && (forall j | 0 <= j < |ids| :: ids[j] in byId && byId[ids[j]] == visited[j] && from <= ShardOfId(hash, ids[j]) < to)
    && forall j, k | 0 <= j < k < |ids| :: ids[j] != ids[k]
  }

  /** And none of them is missing. */
  ghost predicate WalkedAll(hash: Hash, byId: map<MessageId, RegId>, ids: seq<MessageId>, from: nat, to: nat) {
    forall id | id in byId && from <= ShardOfId(hash, id) < to :: id in ids
  }

  /** The next shard's entries follow those of the shards before it. */
  lemma WalkGoesOn(hash: Hash, byId: map<MessageId, RegId>, ids: seq<MessageId>, visited: seq<RegId>, more: seq<MessageId>, part: seq<RegId>, shard: nat)
    requires Walked(hash, byId, ids, visited, 0, shard) && Walked(hash, byId, more, part, shard, shard + 1)
    ensures Walked(hash, byId, ids + more, visited + part, 0, shard + 1)
    ensures WalkedAll(hash, byId, ids, 0, shard) && WalkedAll(hash, byId, more, shard, shard + 1) ==> WalkedAll(hash, byId, ids + more, 0, shard + 1)
  {
  }

  lemma AllWalked(hash: Hash, byId: map<MessageId, RegId>, ids: seq<MessageId>, visited: seq<RegId>)
    requires Walked(hash, byId, ids, visited, 0, NUM_SHARDS) && WalkedAll(hash, byId, ids, 0, NUM_SHARDS)
    ensures |visited| == |byId| && forall id | id in byId :: id in ids
  {
    assert byId.Keys == set id | id in ids;
    DistinctLength(ids, byId.Keys);
  }

  /** The callback wanted to go on after every entry but the last, and after that too unless it stopped the walk. */
  predicate VisitsUntil(visited: seq<RegId>, stopped: bool, goOn: RegId -> bool) {
    && (stopped ==> visited != [])
    && forall j | 0 <= j < |visited| :: goOn(visited[j]) == !(stopped && j == |visited| - 1)
  }

  lemma VisitsGoOn(visited: seq<RegId>, more: seq<RegId>, stopped: bool, goOn: RegId -> bool)
    requires VisitsUntil(visited, false, goOn) && VisitsUntil(more, stopped, goOn)
    ensures VisitsUntil(visited + more, stopped, goOn)
  {
  }

  lemma StopsForAReason(visited: seq<RegId>, stopped: bool, goOn: RegId -> bool)
    requires VisitsUntil(visited, stopped, goOn)
    ensures stopped ==> exists r :: !goOn(r)
  {
    if stopped { assert !goOn(visited[|visited| - 1]); }
  }

  /** 32-bit FNV-1a over the message ID's bytes, the hash the program uses. */
  function Fnv1a(bytes: MessageId): (h: bv32) {
    if bytes == [] then 2166136261
    else (Fnv1a(bytes[..|bytes| - 1]) ^ (bytes[|bytes| - 1] as bv32)) * 16777619
  }

  method NewShardedPendingMap() returns (m: ShardedPendingMap)
    ensures fresh(m) && fresh(m.byMessageId) && fresh(m.byDeliveryTag)
    ensures m.Valid() && m.index == EMPTY_INDEX
  {
    m := new ShardedPendingMap(id => Fnv1a(id) as nat);
  }

  /** A listing without repetition is as long as the set it lists. */
  lemma {:induction false} DistinctLength(ids: seq<MessageId>, all: set<MessageId>)
    requires forall j, k | 0 <= j < k < |ids| :: ids[j] != ids[k]
    requires all == set id | id in ids
    ensures |ids| == |all|
  {
    if ids == [] {
      assert all == {};
    } else {
      var last := ids[|ids| - 1];
      var rest := ids[..|ids| - 1];
      assert ids == rest + [last];
      assert all - {last} == set id | id in rest;
      DistinctLength(rest, all - {last});
    }
  }
}
