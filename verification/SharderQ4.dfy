/**
 First stage of query 4 (src/worker/strategy/sharder_q4/sharder.go): every transfer goes
 to the shard of its source account and to the shard of its destination account.
 */
module SharderQ4 {
  import opened Common
  import opened AccountKeys
  import opened AccountGraphs
  import opened Sharding

  datatype Transfer = Transfer(from: Account, to: Account)

  function Outputs(hash: string -> U32, shards: nat, t: Transfer): seq<Routed<ShardedTx>> {
    [Routed(Shard(hash, EncodeAccount(t.from), shards), ShardedTx(t.from, t.to, true)),
     Routed(Shard(hash, EncodeAccount(t.to), shards), ShardedTx(t.from, t.to, false))]
  }

  class Sharder {
    const hash: string -> U32
    const kSuspiciousFilters: nat
    var perShard: map<nat, U64>
    ghost var sent: seq<Routed<ShardedTx>>

    constructor (hash: string -> U32, kSuspiciousFilters: nat)
      ensures Valid() && this.hash == hash && this.kSuspiciousFilters == kSuspiciousFilters && sent == []
    {
      this.hash, this.kSuspiciousFilters := hash, kSuspiciousFilters;
      perShard, sent := map[], [];
    }

    ghost predicate Valid()
      reads this
    {
      forall i: nat :: ValueAt(perShard, i) == Wrap64(|SentTo(sent, i)|)
    }

    method ProcessMessage(t: Transfer) returns (outs: seq<Routed<ShardedTx>>)
      requires Valid()
      modifies this
      ensures Valid() && outs == Outputs(hash, kSuspiciousFilters, t) && sent == old(sent) + outs
    {
      outs := Outputs(hash, kSuspiciousFilters, t);
      Count(outs[0]);
      Count(outs[1]);
      assert old(sent) + [outs[0]] + [outs[1]] == old(sent) + outs;
    }

    method Count(out: Routed<ShardedTx>)
      requires Valid()
      modifies this
      ensures Valid() && sent == old(sent) + [out]
    {
      forall i: nat
        ensures ValueAt(perShard[out.shard := Wrap64(ValueAt(perShard, out.shard) + 1)], i) == Wrap64(|SentTo(sent + [out], i)|)
      {
        SentOneMore(sent, out, i);
        WrapAdds(|SentTo(sent, out.shard)|, 1);
      }
      perShard := perShard[out.shard := Wrap64(ValueAt(perShard, out.shard) + 1)];
      sent := sent + [out];
    }

    /** Each filter is told how many messages this replica sent it. */
    method BuildEOFEmits() returns (totals: seq<U32>)
      requires Valid()
      ensures |totals| == kSuspiciousFilters
      ensures forall i :: 0 <= i < kSuspiciousFilters ==> totals[i] == Low32(|SentTo(sent, i)|)
    {
      totals := [];
      for i := 0 to kSuspiciousFilters
        invariant |totals| == i && forall k :: 0 <= k < i ==> totals[k] == Low32(|SentTo(sent, k)|)
      {
        LowOfWrap(|SentTo(sent, i)|);
        totals := totals + [Low32(ValueAt(perShard, i))];
      }
    }
  }

  /** Everything the stage sends for a list of transfers, whichever replica handles which. */
  function AllOutputs(hash: string -> U32, shards: nat, ts: seq<Transfer>): seq<Routed<ShardedTx>> {
    if ts == [] then [] else AllOutputs(hash, shards, ts[..|ts| - 1]) + Outputs(hash, shards, ts[|ts| - 1])
  }

  /** A filter's traffic: the transfers whose source it owns, and those whose destination it owns. */
  lemma {:induction false} SharderMeans(hash: string -> U32, shards: nat, ts: seq<Transfer>, i: nat, x: ShardedTx)
    ensures Routed(i, x) in AllOutputs(hash, shards, ts) <==>
      Transfer(x.from, x.to) in ts && i == Shard(hash, EncodeAccount(KeyOf(x)), shards)
  {
    if ts != [] {
      var front, last := ts[..|ts| - 1], ts[|ts| - 1];
      assert ts == front + [last];
      SharderMeans(hash, shards, front, i, x);
    }
  }
}
