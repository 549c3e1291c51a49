/**
 How the two per-bank stages of query 2 emit (outcomeFor in src/worker/strategy/max_q2/max_q2.go
 and src/worker/strategy/bank_aggregator/bank_aggregator.go): banks in ascending order,
 each to the shard of client and bank, with a total per shard.
 */
module BankOutputs {
  import opened Common
  import opened AccountKeys
  import opened Sharding
  import opened SortedKeys

  predicate BankLess(a: U32, b: U32) {
    a < b
  }

  lemma BanksAreOrdered()
    ensures StrictOrder(BankLess)
  {
  }

  datatype Entry<V> = Entry(bank: U32, value: V)

  function RoutingShard(hash: string -> U32, shards: nat, client: string, bank: U32): nat {
    Shard(hash, client + "-" + Decimal(bank), shards)
  }

  function InOrder<V>(hash: string -> U32, shards: nat, client: string, m: map<U32, V>, banks: seq<U32>): seq<Routed<Entry<V>>>
    requires forall b :: b in banks ==> b in m
  {
    seq(|banks|, i requires 0 <= i < |banks| => Routed(RoutingShard(hash, shards, client, banks[i]), Entry(banks[i], m[banks[i]])))
  }

  /** The messages of a finished stage, as a function of its map alone. */
  ghost function Emitted<V>(hash: string -> U32, shards: nat, client: string, m: map<U32, V>): seq<Routed<Entry<V>>> {
    BanksAreOrdered();
    assert forall b :: b in Sorted(m.Keys, BankLess) ==> b in SetOf(Sorted(m.Keys, BankLess));
    InOrder(hash, shards, client, m, Sorted(m.Keys, BankLess))
  }

  method Emit<V>(hash: string -> U32, shards: nat, client: string, m: map<U32, V>)
    returns (outputs: seq<Routed<Entry<V>>>, totals: seq<U32>)
    ensures outputs == Emitted(hash, shards, client, m)
    ensures |totals| == shards && forall i :: 0 <= i < shards ==> totals[i] == Low32(|SentTo(outputs, i)|)
  {
    hide Tallied, SentTo, RoutingShard, StrictOrder, Ascending;
    BanksAreOrdered();
    var banks := SortKeys(m.Keys, BankLess);
    assert forall b :: b in banks ==> b in SetOf(banks);
    outputs := [];
    var perShard: map<nat, U32> := map[];
    NothingTallied<Entry<V>>();
    for i := 0 to |banks|
      invariant outputs == InOrder(hash, shards, client, m, banks[..i])
      invariant Tallied(perShard, outputs)
    {
      var out := Routed(RoutingShard(hash, shards, client, banks[i]), Entry(banks[i], m[banks[i]]));
      TallyOneMore(perShard, outputs, out);
      perShard := perShard[out.shard := Low32(ValueAt(perShard, out.shard) + 1)];
      outputs := outputs + [out];
    }
    assert banks[..|banks|] == banks;
    totals := [];
    for i := 0 to shards
      invariant |totals| == i && forall k :: 0 <= k < i ==> totals[k] == Low32(|SentTo(outputs, k)|)
    {
      TallyAt(perShard, outputs, i);
      totals := totals + [ValueAt(perShard, i)];
    }
  }

  /** One message per bank, at the shard of that bank. */
  lemma EachBankOnce<V>(hash: string -> U32, shards: nat, client: string, m: map<U32, V>)
    ensures Distinct(Emitted(hash, shards, client, m))
    ensures forall out :: out in Emitted(hash, shards, client, m) <==>
      out.body.bank in m && out == Routed(RoutingShard(hash, shards, client, out.body.bank), Entry(out.body.bank, m[out.body.bank]))
  {
    BanksAreOrdered();
    var banks, outs := Sorted(m.Keys, BankLess), Emitted(hash, shards, client, m);
    assert forall b :: b in banks <==> b in SetOf(banks);
    forall out: Routed<Entry<V>>
      | out.body.bank in m && out == Routed(RoutingShard(hash, shards, client, out.body.bank), Entry(out.body.bank, m[out.body.bank]))
      ensures out in outs
    {
      var i :| 0 <= i < |banks| && banks[i] == out.body.bank;
      assert outs[i] == out;
    }
  }
}
