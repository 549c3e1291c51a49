/**
 Query 4 end to end: sharder, suspicious filters, path finders and counters, however many
 of each, whatever the hash and whatever the order of arrival at every shard, against the
 join written down directly (ref_q4 in compare_results.py).
 */
module ScatterGather {
  import opened Common
  import opened AccountKeys
  import opened AccountGraphs
  import opened Sharding
  import opened SharderQ4
  import SuspiciousFilters
  import opened PathFinders
  import opened PairCounters

  datatype Deployment = Deployment(
    hash: string -> U32, filters: nat, finders: nat, counters: nat, threshold: nat, min: nat)

  /** What each shard of each stage received, in the order it did. */
  datatype Arrivals = Arrivals(
    toFilter: seq<seq<ShardedTx>>, toFinder: seq<seq<ShardedTx>>, toCounter: seq<seq<Path>>)

  ghost predicate Configured(d: Deployment) {
    d.filters > 0 && d.finders > 0 && d.counters > 0 && d.threshold > 0 && d.min > 0
  }

  // ---- the run ----------------------------------------------------------------

  ghost function FromFilters(d: Deployment, run: Arrivals): seq<Routed<ShardedTx>> {
    Flatten(seq(|run.toFilter|, i requires 0 <= i < |run.toFilter| =>
      SuspiciousFilters.SuspiciousOutputs(d.hash, d.finders, d.threshold, AddAll(map[], run.toFilter[i]))))
  }

  ghost function FromFinders(d: Deployment, run: Arrivals): seq<Routed<Path>> {
    Flatten(seq(|run.toFinder|, j requires 0 <= j < |run.toFinder| =>
      CrossProduct(d.hash, d.counters, AddAll(map[], run.toFinder[j]))))
  }

  /** Every message reaches its shard once, in any order. */
  ghost predicate Delivered<T>(arrivals: seq<seq<T>>, shards: nat, sent: seq<Routed<T>>) {
    |arrivals| == shards && forall i :: 0 <= i < shards ==> multiset(arrivals[i]) == multiset(SentTo(sent, i))
  }

  ghost predicate Completes(d: Deployment, ts: seq<Transfer>, run: Arrivals) {
    && Delivered(run.toFilter, d.filters, AllOutputs(d.hash, d.filters, ts))
    && Delivered(run.toFinder, d.finders, FromFilters(d, run))
    && Delivered(run.toCounter, d.counters, FromFinders(d, run))
  }

  /** Counter c publishes the pair. */
  ghost predicate PublishedBy(d: Deployment, run: Arrivals, c: nat, k: Pair) {
    c < |run.toCounter| && k in Qualified(LearnAll(d.min, map[], run.toCounter[c]))
  }

  // ---- the specification ------------------------------------------------------

  function Receivers(ts: seq<Transfer>, a: Account): set<Account> {
    set t | t in ts && t.from == a :: t.to
  }

  function Senders(ts: seq<Transfer>, b: Account): set<Account> {
    set t | t in ts && t.to == b :: t.from
  }

  function Mids(ts: seq<Transfer>, k: Pair): set<Account> {
    set m | m in Receivers(ts, k.source) && m in Senders(ts, k.dest)
  }

  /** Scatter-gather: enough distinct accounts between two different ones. */
  ghost predicate Naive(ts: seq<Transfer>, min: nat, k: Pair) {
    k.source != k.dest && |Mids(ts, k)| >= min
  }

  ghost predicate NotPruned(ts: seq<Transfer>, threshold: nat, k: Pair) {
    |Receivers(ts, k.source)| >= threshold && |Senders(ts, k.dest)| >= threshold
  }

  // ---- stage by stage ---------------------------------------------------------

  lemma Arrived<T>(arrivals: seq<seq<T>>, shards: nat, sent: seq<Routed<T>>, i: nat, x: T)
    requires Delivered(arrivals, shards, sent) && i < shards
    ensures x in arrivals[i] <==> Routed(i, x) in sent
  {
    SentMembers(sent, i, x);
    assert x in arrivals[i] <==> x in multiset(arrivals[i]);
    assert x in SentTo(sent, i) <==> x in multiset(SentTo(sent, i));
  }

  /** A filter knows all transfers of the accounts it owns, and nothing of the others. */
  lemma FilterKnows(d: Deployment, ts: seq<Transfer>, run: Arrivals, i: nat, key: Account, peer: Account, out: bool)
    requires Configured(d) && Completes(d, ts, run) && i < d.filters
    ensures Has(AddAll(map[], run.toFilter[i]), key, peer, out) <==>
      i == Shard(d.hash, EncodeAccount(key), d.filters) && (if out then Transfer(key, peer) else Transfer(peer, key)) in ts
  {
    var x := if out then ShardedTx(key, peer, true) else ShardedTx(peer, key, false);
    GraphMeans(map[], run.toFilter[i], key, peer, out);
    Arrived(run.toFilter, d.filters, AllOutputs(d.hash, d.filters, ts), i, x);
    SharderMeans(d.hash, d.filters, ts, i, x);
  }

  /** The edge belongs to an account with enough counterparties on that side. */
  ghost predicate Suspicious(ts: seq<Transfer>, threshold: nat, x: ShardedTx) {
    && Transfer(x.from, x.to) in ts
    && if x.bySource then |Senders(ts, x.to)| >= threshold else |Receivers(ts, x.from)| >= threshold
  }

  lemma FilterPasses(d: Deployment, ts: seq<Transfer>, run: Arrivals, i: nat, x: ShardedTx)
    requires Configured(d) && Completes(d, ts, run) && i < d.filters
    ensures SuspiciousFilters.Passes(d.threshold, AddAll(map[], run.toFilter[i]), x) <==>
      i == Shard(d.hash, EncodeAccount(if x.bySource then x.to else x.from), d.filters) && Suspicious(ts, d.threshold, x)
  {
    var g := AddAll(map[], run.toFilter[i]);
    var key, peer, out := if x.bySource then x.to else x.from, if x.bySource then x.from else x.to, !x.bySource;
    FilterKnows(d, ts, run, i, key, peer, out);
    if Has(g, key, peer, out) {
      forall p ensures p in Towards(g[key], out) <==> p in if out then Receivers(ts, key) else Senders(ts, key) {
        FilterKnows(d, ts, run, i, key, p, out);
      }
      assert Towards(g[key], out) == if out then Receivers(ts, key) else Senders(ts, key);
    }
  }

  lemma FinderReceives(d: Deployment, ts: seq<Transfer>, run: Arrivals, j: nat, x: ShardedTx)
    requires Configured(d) && Completes(d, ts, run) && j < d.finders
    ensures x in run.toFinder[j] <==>
      j == Shard(d.hash, EncodeAccount(KeyOf(x)), d.finders) && Suspicious(ts, d.threshold, x)
  {
    Arrived(run.toFinder, d.finders, FromFilters(d, run), j, x);
    var lists := seq(|run.toFilter|, i requires 0 <= i < |run.toFilter| =>
      SuspiciousFilters.SuspiciousOutputs(d.hash, d.finders, d.threshold, AddAll(map[], run.toFilter[i])));
    InFlatten(lists, Routed(j, x));
    forall i | 0 <= i < d.filters
      ensures Routed(j, x) in lists[i] <==>
        && j == Shard(d.hash, EncodeAccount(KeyOf(x)), d.finders)
        && i == Shard(d.hash, EncodeAccount(if x.bySource then x.to else x.from), d.filters) && Suspicious(ts, d.threshold, x)
    {
      SuspiciousFilters.SuspiciousMeans(d.hash, d.finders, d.threshold, AddAll(map[], run.toFilter[i]), j, x);
      FilterPasses(d, ts, run, i, x);
    }
    assert |lists| == d.filters;
    var owner := Shard(d.hash, EncodeAccount(if x.bySource then x.to else x.from), d.filters);
    assert Routed(j, x) in lists[owner] <==> j == Shard(d.hash, EncodeAccount(KeyOf(x)), d.finders) && Suspicious(ts, d.threshold, x);
  }

  /** A two-step path between different accounts whose ends were not pruned. */
  ghost predicate IsPathOf(ts: seq<Transfer>, threshold: nat, p: Path) {
    && p.source != p.dest && Transfer(p.source, p.mid) in ts && Transfer(p.mid, p.dest) in ts
    && NotPruned(ts, threshold, PairOf(p))
  }

  lemma FinderFinds(d: Deployment, ts: seq<Transfer>, run: Arrivals, j: nat, p: Path)
    requires Configured(d) && Completes(d, ts, run) && j < d.finders
    ensures IsPath(AddAll(map[], run.toFinder[j]), p) <==>
      j == Shard(d.hash, EncodeAccount(p.mid), d.finders) && IsPathOf(ts, d.threshold, p)
  {
    GraphMeans(map[], run.toFinder[j], p.mid, p.source, false);
    GraphMeans(map[], run.toFinder[j], p.mid, p.dest, true);
    FinderReceives(d, ts, run, j, ShardedTx(p.source, p.mid, false));
    FinderReceives(d, ts, run, j, ShardedTx(p.mid, p.dest, true));
  }

  lemma CounterReceives(d: Deployment, ts: seq<Transfer>, run: Arrivals, c: nat, p: Path)
    requires Configured(d) && Completes(d, ts, run) && c < d.counters
    ensures p in run.toCounter[c] <==>
      c == Shard(d.hash, PairKey(p.source, p.dest), d.counters) && IsPathOf(ts, d.threshold, p)
  {
    Arrived(run.toCounter, d.counters, FromFinders(d, run), c, p);
    var lists := seq(|run.toFinder|, j requires 0 <= j < |run.toFinder| =>
      CrossProduct(d.hash, d.counters, AddAll(map[], run.toFinder[j])));
    InFlatten(lists, Routed(c, p));
    forall j | 0 <= j < d.finders
      ensures Routed(c, p) in lists[j] <==>
        && c == Shard(d.hash, PairKey(p.source, p.dest), d.counters)
        && j == Shard(d.hash, EncodeAccount(p.mid), d.finders) && IsPathOf(ts, d.threshold, p)
    {
      CrossProductMeans(d.hash, d.counters, AddAll(map[], run.toFinder[j]), Routed(c, p));
      FinderFinds(d, ts, run, j, p);
    }
    assert |lists| == d.finders;
    var owner := Shard(d.hash, EncodeAccount(p.mid), d.finders);
    assert Routed(c, p) in lists[owner] <==> c == Shard(d.hash, PairKey(p.source, p.dest), d.counters) && IsPathOf(ts, d.threshold, p);
  }

  lemma CounterSees(d: Deployment, ts: seq<Transfer>, run: Arrivals, c: nat, k: Pair)
    requires Configured(d) && Completes(d, ts, run) && c < d.counters
    ensures MidsIn(run.toCounter[c], k) ==
      if c == Shard(d.hash, PairKey(k.source, k.dest), d.counters) && k.source != k.dest && NotPruned(ts, d.threshold, k)
      then Mids(ts, k) else {}
  {
    forall m: Account
      ensures m in MidsIn(run.toCounter[c], k) <==>
        c == Shard(d.hash, PairKey(k.source, k.dest), d.counters) && IsPathOf(ts, d.threshold, Path(k.source, m, k.dest))
      ensures m in Mids(ts, k) <==> Transfer(k.source, m) in ts && Transfer(m, k.dest) in ts
    {
      CounterReceives(d, ts, run, c, Path(k.source, m, k.dest));
    }
  }

  // ---- the theorem ------------------------------------------------------------

  /**
   Whatever the transfers, the number of shards, the hash and the order of arrival: a pair
   is published exactly when it qualifies and its ends were not pruned, and by its own
   counter only.
   */
  lemma PipelineComputes(d: Deployment, ts: seq<Transfer>, run: Arrivals, k: Pair)
    requires Configured(d) && Completes(d, ts, run)
    ensures (exists c :: PublishedBy(d, run, c, k)) <==> Naive(ts, d.min, k) && NotPruned(ts, d.threshold, k)
    ensures forall c :: PublishedBy(d, run, c, k) ==> c == Shard(d.hash, PairKey(k.source, k.dest), d.counters)
  {
    forall c: nat | c < d.counters
      ensures PublishedBy(d, run, c, k) <==>
        c == Shard(d.hash, PairKey(k.source, k.dest), d.counters) && Naive(ts, d.min, k) && NotPruned(ts, d.threshold, k)
    {
      CounterMeans(d.min, run.toCounter[c], k);
      CounterSees(d, ts, run, c, k);
    }
    assert PublishedBy(d, run, Shard(d.hash, PairKey(k.source, k.dest), d.counters), k) <==>
      Naive(ts, d.min, k) && NotPruned(ts, d.threshold, k);
  }

  /** With the threshold no higher than the minimum, pruning loses nothing. */
  lemma PruningIsSafe(ts: seq<Transfer>, threshold: nat, min: nat, k: Pair)
    requires threshold <= min && Naive(ts, min, k)
    ensures NotPruned(ts, threshold, k)
  {
    SubsetSize(Mids(ts, k), Receivers(ts, k.source));
    SubsetSize(Mids(ts, k), Senders(ts, k.dest));
  }

  /** ... so the pipeline answers the query. */
  lemma PipelineAnswersTheQuery(d: Deployment, ts: seq<Transfer>, run: Arrivals, k: Pair)
    requires Configured(d) && Completes(d, ts, run) && d.threshold <= d.min
    ensures (exists c :: PublishedBy(d, run, c, k)) <==> Naive(ts, d.min, k)
  {
    PipelineComputes(d, ts, run, k);
    if Naive(ts, d.min, k) {
      PruningIsSafe(ts, d.threshold, d.min, k);
    }
  }

  // ---- and no higher ----------------------------------------------------------

  function Mid(i: nat): Account {
    Account(0, seq(i, _ => 'x'))
  }

  const HUB := Pair(Account(1, ""), Account(2, ""))

  /** n middle accounts between two ends, and nothing else. */
  function Fan(n: nat): seq<Transfer> {
    if n == 0 then [] else Fan(n - 1) + [Transfer(HUB.source, Mid(n - 1)), Transfer(Mid(n - 1), HUB.dest)]
  }

  lemma MidsDiffer(i: nat, j: nat)
    requires i != j
    ensures Mid(i) != Mid(j)
  {
    assert |Mid(i).name| == i && |Mid(j).name| == j;
  }

  lemma {:induction false} FanShape(n: nat)
    ensures |Receivers(Fan(n), HUB.source)| == n
    ensures Mids(Fan(n), HUB) == Receivers(Fan(n), HUB.source)
    ensures forall m :: m in Receivers(Fan(n), HUB.source) ==> exists i :: 0 <= i < n && m == Mid(i)
  {
    hide Fan, Receivers, Mids, Mid;
    if n == 0 {
      NoFan();
    } else {
      FanShape(n - 1);
      FanGrows(n);
      forall i: nat | i < n - 1 ensures Mid(i) != Mid(n - 1) {
        MidsDiffer(i, n - 1);
      }
    }
  }

  lemma NoFan()
    ensures Receivers(Fan(0), HUB.source) == {} && Mids(Fan(0), HUB) == {}
  {
  }

  /** One more middle account is one more receiver and one more in the middle. */
  lemma FanGrows(n: nat)
    requires n > 0
    ensures Receivers(Fan(n), HUB.source) == Receivers(Fan(n - 1), HUB.source) + {Mid(n - 1)}
    ensures Mids(Fan(n), HUB) == Mids(Fan(n - 1), HUB) + {Mid(n - 1)}
  {
    var m := Mid(n - 1);
    assert m.bank == 0;
    hide Mid, Fan;
    assert Fan(n) == Fan(n - 1) + [Transfer(HUB.source, m), Transfer(m, HUB.dest)] by { FanStep(n); }
    TwoMoreTransfers(Fan(n - 1), HUB, m);
  }

  lemma FanStep(n: nat)
    requires n > 0
    ensures Fan(n) == Fan(n - 1) + [Transfer(HUB.source, Mid(n - 1)), Transfer(Mid(n - 1), HUB.dest)]
  {
  }

  lemma TwoMoreTransfers(ts: seq<Transfer>, k: Pair, m: Account)
    requires m != k.source && m != k.dest
    ensures var all := ts + [Transfer(k.source, m), Transfer(m, k.dest)];
      && Receivers(all, k.source) == Receivers(ts, k.source) + {m}
      && Mids(all, k) == Mids(ts, k) + {m}
  {
    var out, back := Transfer(k.source, m), Transfer(m, k.dest);
    var all := ts + [out, back];
    assert all[|ts|] == out && all[|ts| + 1] == back;
    forall x ensures x in Receivers(all, k.source) <==> x in Receivers(ts, k.source) || x == m {
      assert x in Receivers(ts, k.source) ==> Transfer(k.source, x) in ts;
    }
    forall x ensures x in Senders(all, k.dest) <==> x in Senders(ts, k.dest) || x == m {
      assert x in Senders(ts, k.dest) ==> Transfer(x, k.dest) in ts;
    }
  }

  /** Pruning is harmless on every input if and only if the threshold does not exceed the minimum. */
  lemma PruningIsSafeIff(threshold: nat, min: nat)
    ensures (forall ts, k :: Naive(ts, min, k) ==> NotPruned(ts, threshold, k)) <==> threshold <= min
  {
    if threshold <= min {
      forall ts, k | Naive(ts, min, k) ensures NotPruned(ts, threshold, k) {
        PruningIsSafe(ts, threshold, min, k);
      }
    } else {
      FanShape(min);
      assert Naive(Fan(min), min, HUB) && !NotPruned(Fan(min), threshold, HUB);
    }
  }
}
