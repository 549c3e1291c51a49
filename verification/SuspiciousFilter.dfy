/**
 Second stage of query 4 (src/worker/strategy/suspicious_filter/suspicious_filter.go):
 an account with enough distinct receivers or senders passes its edges on, to the shard
 of the account in the middle.
 */
module SuspiciousFilters {
  import opened Common
  import opened AccountKeys
  import opened AccountGraphs
  import opened Sharding
  import opened SortedKeys

  /** buildOutput: an incoming edge travels by its source, an outgoing one by its destination. */
  function Output(hash: string -> U32, shards: nat, key: Account, peer: Account, incoming: bool): Routed<ShardedTx> {
    Routed(Shard(hash, EncodeAccount(peer), shards), if incoming then ShardedTx(peer, key, true) else ShardedTx(key, peer, false))
  }

  function PeerOutputs(hash: string -> U32, shards: nat, key: Account, peers: seq<Account>, incoming: bool): seq<Routed<ShardedTx>> {
    seq(|peers|, i requires 0 <= i < |peers| => Output(hash, shards, key, peers[i], incoming))
  }

  ghost function DirectionOutputs(hash: string -> U32, shards: nat, threshold: nat, g: Graph, key: Account, incoming: bool): seq<Routed<ShardedTx>> {
    AccountsAreOrdered();
    var peers := Towards(At(g, key), !incoming);
    if |peers| >= threshold then PeerOutputs(hash, shards, key, Sorted(peers, Less), incoming) else []
  }

  ghost function KeyOutputs(hash: string -> U32, shards: nat, threshold: nat, g: Graph, keys: seq<Account>): seq<Routed<ShardedTx>> {
    if keys == [] then []
    else
      var last := keys[|keys| - 1];
      KeyOutputs(hash, shards, threshold, g, keys[..|keys| - 1])
      + DirectionOutputs(hash, shards, threshold, g, last, false)
      + DirectionOutputs(hash, shards, threshold, g, last, true)
  }

  /** buildSuspiciousOutputs, as a function of the graph alone. */
  ghost function SuspiciousOutputs(hash: string -> U32, shards: nat, threshold: nat, g: Graph): seq<Routed<ShardedTx>> {
    AccountsAreOrdered();
    KeyOutputs(hash, shards, threshold, g, Sorted(g.Keys, Less))
  }

  class SuspiciousFilter {
    const hash: string -> U32
    const threshold: nat
    const kPathFinders: nat
    const state: AccountGraph

    constructor (hash: string -> U32, threshold: nat, kPathFinders: nat)
      ensures this.hash == hash && this.threshold == threshold && this.kPathFinders == kPathFinders
      ensures fresh(state) && state.accounts == map[]
    {
      this.hash, this.threshold, this.kPathFinders := hash, threshold, kPathFinders;
      state := new AccountGraph();
    }

    method BuildSuspiciousOutputs() returns (outputs: seq<Routed<ShardedTx>>, perShard: map<nat, U32>)
      ensures outputs == SuspiciousOutputs(hash, kPathFinders, threshold, state.accounts)
      ensures Tallied(perShard, outputs)
    {
      AccountsAreOrdered();
      var keys := SortKeys(state.accounts.Keys, Less);
      outputs, perShard := [], map[];
      for i := 0 to |keys|
        invariant outputs == KeyOutputs(hash, kPathFinders, threshold, state.accounts, keys[..i])
        invariant Tallied(perShard, outputs)
      {
        var key := keys[i];
        assert key in SetOf(keys);
        assert keys[..i + 1][..i] == keys[..i];
        var account := state.accounts[key];
        outputs, perShard := EmitPeers(key, account.outs, false, outputs, perShard);
        outputs, perShard := EmitPeers(key, account.ins, true, outputs, perShard);
      }
      assert keys[..|keys|] == keys;
    }

    method EmitPeers(key: Account, peers: set<Account>, incoming: bool, before: seq<Routed<ShardedTx>>, counts: map<nat, U32>)
      returns (outputs: seq<Routed<ShardedTx>>, perShard: map<nat, U32>)
      requires Tallied(counts, before)
      requires StrictOrder(Less)
      ensures outputs == before + if |peers| >= threshold then PeerOutputs(hash, kPathFinders, key, Sorted(peers, Less), incoming) else []
      ensures Tallied(perShard, outputs)
    {
      outputs, perShard := before, counts;
      if |peers| >= threshold {
        var sorted := SortKeys(peers, Less);
        for i := 0 to |sorted|
          invariant outputs == before + PeerOutputs(hash, kPathFinders, key, sorted[..i], incoming)
          invariant Tallied(perShard, outputs)
        {
          var out := Output(hash, kPathFinders, key, sorted[i], incoming);
          TallyOneMore(perShard, outputs, out);
          perShard := perShard[out.shard := Low32(ValueAt(perShard, out.shard) + 1)];
          outputs := outputs + [out];
          assert PeerOutputs(hash, kPathFinders, key, sorted[..i + 1], incoming) == PeerOutputs(hash, kPathFinders, key, sorted[..i], incoming) + [out];
        }
        assert sorted[..|sorted|] == sorted;
      }
    }

    /** The EOF of each path finder carries the number of edges routed to it. */
    method BuildEOFEmits(perShard: map<nat, U32>, ghost outputs: seq<Routed<ShardedTx>>) returns (totals: seq<U32>)
      requires Tallied(perShard, outputs)
      ensures |totals| == kPathFinders
      ensures forall i :: 0 <= i < kPathFinders ==> totals[i] == Low32(|SentTo(outputs, i)|)
    {
      totals := [];
      for i := 0 to kPathFinders
        invariant |totals| == i && forall k :: 0 <= k < i ==> totals[k] == Low32(|SentTo(outputs, k)|)
      {
        totals := totals + [ValueAt(perShard, i)];
      }
    }
  }

  // ---- what passes the filter -------------------------------------------------

  /** The edge is known to its keyed account, and that account is suspicious in that direction. */
  ghost predicate Passes(threshold: nat, g: Graph, x: ShardedTx) {
    if x.bySource then Has(g, x.to, x.from, false) && |g[x.to].ins| >= threshold
    else Has(g, x.from, x.to, true) && |g[x.from].outs| >= threshold
  }

  lemma DirectionMeans(hash: string -> U32, shards: nat, threshold: nat, g: Graph, key: Account, incoming: bool, i: nat, x: ShardedTx)
    requires key in g
    ensures Routed(i, x) in DirectionOutputs(hash, shards, threshold, g, key, incoming) <==>
      && x.bySource == incoming && key == (if incoming then x.to else x.from)
      && i == Shard(hash, EncodeAccount(KeyOf(x)), shards) && Passes(threshold, g, x)
  {
    AccountsAreOrdered();
    var peers := Towards(g[key], !incoming);
    var outs := PeerOutputs(hash, shards, key, Sorted(peers, Less), incoming);
    if |peers| >= threshold {
      var peer := if incoming then x.from else x.to;
      if peer in peers {
        assert peer in SetOf(Sorted(peers, Less));
        var k :| 0 <= k < |Sorted(peers, Less)| && Sorted(peers, Less)[k] == peer;
        assert outs[k] == Output(hash, shards, key, peer, incoming);
      }
      forall k | 0 <= k < |outs| ensures Sorted(peers, Less)[k] in peers {
        assert Sorted(peers, Less)[k] in SetOf(Sorted(peers, Less));
      }
    }
  }

  lemma {:induction false} KeyOutputsMean(hash: string -> U32, shards: nat, threshold: nat, g: Graph, keys: seq<Account>, i: nat, x: ShardedTx)
    requires forall k :: k in keys ==> k in g
    ensures Routed(i, x) in KeyOutputs(hash, shards, threshold, g, keys) <==>
      && (if x.bySource then x.to else x.from) in keys
      && i == Shard(hash, EncodeAccount(KeyOf(x)), shards) && Passes(threshold, g, x)
  {
    if keys != [] {
      var front, last := keys[..|keys| - 1], keys[|keys| - 1];
      assert keys == front + [last];
      KeyOutputsMean(hash, shards, threshold, g, front, i, x);
      DirectionMeans(hash, shards, threshold, g, last, false, i, x);
      DirectionMeans(hash, shards, threshold, g, last, true, i, x);
    }
  }

  /** Exactly the edges of suspicious accounts leave the stage, each for the shard of its middle account. */
  lemma SuspiciousMeans(hash: string -> U32, shards: nat, threshold: nat, g: Graph, i: nat, x: ShardedTx)
    ensures Routed(i, x) in SuspiciousOutputs(hash, shards, threshold, g) <==>
      i == Shard(hash, EncodeAccount(KeyOf(x)), shards) && Passes(threshold, g, x)
  {
    AccountsAreOrdered();
    var keys := Sorted(g.Keys, Less);
    assert forall k :: k in keys <==> k in SetOf(keys);
    KeyOutputsMean(hash, shards, threshold, g, keys, i, x);
  }
}
