/**
 Routing by hash (src/common/hashing/fnv.go) and the totals a stage declares per
 routing key. A routing key is the decimal text of a shard index; the index stands for it.
 */
module Sharding {
  import opened Common

  datatype Routed<T> = Routed(shard: nat, body: T)

  function Shard(hash: string -> U32, key: string, shards: nat): (i: nat)
    ensures shards > 0 ==> i < shards
  {
    if shards <= 1 then 0 else hash(key) % shards
  }

  /** Dividing h by n gives q with remainder i, as far as i is below n. */
  ghost predicate Splits(h: nat, n: nat, q: nat, i: nat) {
    h == q * n + i
  }

  /** With several shards the index is the hash's residue, so a key keeps its shard and every shard has its hashes. */
  lemma ShardIsResidue(hash: string -> U32, key: string, shards: nat, i: nat)
    requires shards > 1 && i < shards
    ensures Shard(hash, key, shards) == i <==> exists q: nat :: Splits(hash(key), shards, q, i)
  {
    hide Splits;
    var h := hash(key);
    var p := Quotient(h, shards);
    if q: nat :| Splits(h, shards, q, i) {
      SplitsOnce(h, shards, q, i, p, Shard(hash, key, shards));
    }
  }

  lemma Quotient(h: nat, n: nat) returns (q: nat)
    requires n > 0
    ensures Splits(h, n, q, h % n)
  {
    q := h / n;
  }

  lemma {:induction false} SplitsOnce(h: nat, n: nat, q: nat, i: nat, p: nat, r: nat)
    requires i < n && r < n && Splits(h, n, q, i) && Splits(h, n, p, r)
    ensures q == p && i == r
  {
    if p > 0 && q > 0 {
      SplitsOnce(h - n, n, q - 1, i, p - 1, r);
    }
  }

  /** The messages of a stage that go to one shard, in order. */
  function SentTo<T>(outs: seq<Routed<T>>, i: nat): seq<T> {
    if |outs| == 0 then []
    else
      var rest, last := SentTo(outs[..|outs| - 1], i), outs[|outs| - 1];
      if last.shard == i then rest + [last.body] else rest
  }

  lemma SentOneMore<T>(outs: seq<Routed<T>>, out: Routed<T>, i: nat)
    ensures SentTo(outs + [out], i) == SentTo(outs, i) + if out.shard == i then [out.body] else []
  {
    assert (outs + [out])[..|outs|] == outs;
  }

  lemma {:induction false} SentMembers<T>(outs: seq<Routed<T>>, i: nat, x: T)
    ensures x in SentTo(outs, i) <==> Routed(i, x) in outs
  {
    if |outs| > 0 {
      var front := outs[..|outs| - 1];
      assert outs == front + [outs[|outs| - 1]];
      SentMembers(front, i, x);
    }
  }

  /** 32-bit counters per shard that agree with the messages sent so far. */
  ghost predicate Tallied<T>(counts: map<nat, U32>, outs: seq<Routed<T>>) {
    forall i: nat :: ValueAt(counts, i) == Low32(|SentTo(outs, i)|)
  }

  lemma NothingTallied<T>()
    ensures Tallied<T>(map[], [])
  {
  }

  lemma TallyAt<T>(counts: map<nat, U32>, outs: seq<Routed<T>>, i: nat)
    requires Tallied(counts, outs)
    ensures ValueAt(counts, i) == Low32(|SentTo(outs, i)|)
  {
  }

  lemma TallyOneMore<T>(counts: map<nat, U32>, outs: seq<Routed<T>>, out: Routed<T>)
    requires Tallied(counts, outs)
    ensures Tallied(counts[out.shard := Low32(ValueAt(counts, out.shard) + 1)], outs + [out])
  {
    forall i: nat
      ensures ValueAt(counts[out.shard := Low32(ValueAt(counts, out.shard) + 1)], i) == Low32(|SentTo(outs + [out], i)|)
    {
      SentOneMore(outs, out, i);
      LowAdds(|SentTo(outs, out.shard)|, 1);
    }
  }

  // ---- two lists of the same messages declare the same totals ---------------------

  lemma {:induction false} SizeOfDistinct<T>(xs: seq<T>)
    requires Distinct(xs)
    ensures |SetOf(xs)| == |xs|
  {
    if |xs| > 0 {
      var front, last := xs[..|xs| - 1], xs[|xs| - 1];
      SizeOfDistinct(front);
      assert SetOf(xs) == SetOf(front) + {last};
      assert last !in SetOf(front);
    }
  }

  lemma {:induction false} SentDistinct<T>(outs: seq<Routed<T>>, i: nat)
    requires Distinct(outs)
    ensures Distinct(SentTo(outs, i))
  {
    if |outs| > 0 {
      var front, last := outs[..|outs| - 1], outs[|outs| - 1];
      SentDistinct(front, i);
      assert last !in front;
      SentMembers(front, i, last.body);
    }
  }

  lemma SameTotals<T>(a: seq<Routed<T>>, b: seq<Routed<T>>, i: nat)
    requires Distinct(a) && Distinct(b) && SetOf(a) == SetOf(b)
    ensures |SentTo(a, i)| == |SentTo(b, i)|
  {
    SentDistinct(a, i);
    SentDistinct(b, i);
    SizeOfDistinct(SentTo(a, i));
    SizeOfDistinct(SentTo(b, i));
    forall x ensures x in SetOf(SentTo(a, i)) <==> x in SetOf(SentTo(b, i)) {
      SentMembers(a, i, x);
      SentMembers(b, i, x);
      assert Routed(i, x) in SetOf(a) <==> Routed(i, x) in SetOf(b);
    }
    assert SetOf(SentTo(a, i)) == SetOf(SentTo(b, i));
  }
}
