/**
 What the logged stages hold after any run with crashes, once every batch published to
 them has been acked: the exactly-once guarantee of the runtime, the delta laws of the
 strategies and what their checkpoint files keep, together.
 */
module LoggedStages {
  import opened Common
  import opened CheckpointMaps
  import opened ClientRuntime
  import opened DeltaStrategies
  import opened ExactlyOnce
  import Graphs = AccountGraphs
  import Counters = PairCounters
  import Paths = PathFinders
  import Maxes = MaxQ2
  import Banks = BankAggregators
  import opened AccountKeys

  /** No data batch is waiting for an ack. */
  ghost predicate Settled<S, C, D>(s: System<S, C, D>) {
    forall d :: d in s.inbox ==> !d.Data?
  }

  /** In a settled state the disk holds the fold over all published batches, each once, in some order. */
  lemma AllPublishedOnce<S(!new), B(!new), D, C(!new)>(su: Setup<S, B, D, C>, inv: S -> bool, steps: seq<Step<C>>)
    returns (ks: seq<Key>)
    requires Lawful(su, inv) && Settled(Run(su, steps))
    ensures var s := Run(su, steps);
      && Distinct(ks) && (forall k :: k in ks <==> Waiting(s.published, k))
      && RecoveredCore(su, s.disk).data == ProcessAll(su.strategy, su.strategy.init, BatchesOf(su, ks))
      && RecoveredCore(su, s.disk).items == ItemSum(su, ks)
  {
    ExactlyOnceOnDisk(su, inv, steps);
    var s := Run(su, steps);
    ks :|
      && Distinct(ks)
      && RecoveredCore(su, s.disk) ==
           Core(ProcessAll(su.strategy, su.strategy.init, BatchesOf(su, ks)), SetOf(ks), ItemSum(su, ks))
      && (forall k :: k in ks ==> Waiting(s.published, k))
      && (forall d :: d in s.published && d.Data? ==> d.key in ks || Waiting(s.inbox, d.key));
    forall k | Waiting(s.published, k) ensures k in ks {
      var d :| d in s.published && d.Data? && d.key == k;
    }
  }

  /** The item is in a batch that was published. */
  ghost predicate Received<S, T(!new), D, C>(su: Setup<S, seq<T>, D, C>, published: set<Delivery>, x: T) {
    exists d :: d in published && d.Data? && x in su.batchOf(d.key)
  }

  lemma ItemsOfBatches<S, T(!new), D, C>(su: Setup<S, seq<T>, D, C>, published: set<Delivery>, ks: seq<Key>, x: T)
    requires forall k :: k in ks <==> Waiting(published, k)
    ensures x in Flatten(BatchesOf(su, ks)) <==> Received(su, published, x)
  {
    InFlatten(BatchesOf(su, ks), x);
    if Received(su, published, x) {
      var d :| d in published && d.Data? && x in su.batchOf(d.key);
      assert Waiting(published, d.key);
      var i :| 0 <= i < |ks| && ks[i] == d.key;
      assert x in BatchesOf(su, ks)[i];
    }
    if i :| 0 <= i < |BatchesOf(su, ks)| && x in BatchesOf(su, ks)[i] {
      assert ks[i] in ks;
      var d :| d in published && d.Data? && d.key == ks[i];
    }
  }

  // ---- suspicious filter and path finder ----------------------------------------

  lemma {:induction false} AddAllAppends(g: Graphs.Graph, xs: seq<Graphs.ShardedTx>, ys: seq<Graphs.ShardedTx>)
    ensures Graphs.AddAll(g, xs + ys) == Graphs.AddAll(Graphs.AddAll(g, xs), ys)
    decreases xs
  {
    if xs == [] {
      assert xs + ys == ys;
    } else {
      AddAllAppends(Graphs.Add(g, Graphs.KeyOf(xs[0]), Graphs.PeerOf(xs[0]), xs[0].bySource), xs[1..], ys);
      assert (xs + ys)[1..] == xs[1..] + ys;
    }
  }

  lemma {:induction false} GraphFold(bs: seq<seq<Graphs.ShardedTx>>)
    ensures ProcessAll(Graphs.GraphStrategy(), map[], bs) == Graphs.AddAll(map[], Flatten(bs))
  {
    if bs != [] {
      GraphFold(bs[..|bs| - 1]);
      AddAllAppends(map[], Flatten(bs[..|bs| - 1]), bs[|bs| - 1]);
    }
  }

  /** Whatever crashed and whenever: the recovered graph holds exactly the transfers received. */
  lemma GraphSurvivesCrashes<C(!new)>(su: Setup<Graphs.Graph, seq<Graphs.ShardedTx>, seq<Graphs.EdgeRecord>, C>,
                                      steps: seq<Step<C>>, key: Account, peer: Account, out: bool)
    requires su.strategy == Graphs.GraphStrategy() && Settled(Run(su, steps))
    requires forall g :: CanReturn(Graphs.GraphFormat(), g, su.restored(g))
    ensures Graphs.Has(RecoveredCore(su, Run(su, steps).disk).data, key, peer, out) <==>
      Received(su, Run(su, steps).published, if out then Graphs.ShardedTx(key, peer, true) else Graphs.ShardedTx(peer, key, false))
  {
    Graphs.GraphDeltaAgrees();
    forall g ensures su.restored(g) == g {
      Graphs.GraphReturns(g, su.restored(g));
    }
    LawfulIf(su, Graphs.AnyGraph);
    var ks := AllPublishedOnce(su, Graphs.AnyGraph, steps);
    GraphFold(BatchesOf(su, ks));
    Graphs.GraphMeans(map[], Flatten(BatchesOf(su, ks)), key, peer, out);
    ItemsOfBatches(su, Run(su, steps).published, ks,
                   if out then Graphs.ShardedTx(key, peer, true) else Graphs.ShardedTx(peer, key, false));
  }

  // ---- counter ------------------------------------------------------------------

  lemma {:induction false} LearnAllAppends(min: nat, ps: Counters.Pairs, xs: seq<Paths.Path>, ys: seq<Paths.Path>)
    ensures Counters.LearnAll(min, ps, xs + ys) == Counters.LearnAll(min, Counters.LearnAll(min, ps, xs), ys)
    decreases xs
  {
    hide Counters.Observe;
    if xs == [] {
      assert xs + ys == ys;
    } else {
      LearnAllAppends(min, Counters.Observe(min, ps, xs[0]), xs[1..], ys);
      assert (xs + ys)[1..] == xs[1..] + ys;
    }
  }

  lemma {:induction false} CounterFold(min: nat, bs: seq<seq<Paths.Path>>)
    ensures ProcessAll(Counters.CounterStrategy(min), map[], bs) == Counters.LearnAll(min, map[], Flatten(bs))
  {
    if bs != [] {
      CounterFold(min, bs[..|bs| - 1]);
      LearnAllAppends(min, map[], Flatten(bs[..|bs| - 1]), bs[|bs| - 1]);
    }
  }

  // A counter comes back from its checkpoint only without arrows in its source names, so the
  // batches that count are those that arrive: the others are taken as empty.

  function Restrict<S, T, D, C>(su: Setup<S, seq<T>, D, C>, keys: set<Key>): Setup<S, seq<T>, D, C> {
    su.(batchOf := (k: Key) => if k in keys then su.batchOf(k) else [])
  }

  lemma {:induction false} RestrictedReplay<S, T, D, C>(su: Setup<S, seq<T>, D, C>, keys: set<Key>, core: Core<S>, rs: seq<Record<D>>)
    ensures ReplayAll(Restrict(su, keys), core, rs) == ReplayAll(su, core, rs)
  {
    if rs != [] {
      RestrictedReplay(su, keys, core, rs[..|rs| - 1]);
    }
  }

  lemma RestrictedRecovery<S, T, D, C>(su: Setup<S, seq<T>, D, C>, keys: set<Key>, disk: Disk<S, C, D>)
    ensures RecoveredCore(Restrict(su, keys), disk) == RecoveredCore(su, disk)
    ensures Recovered(Restrict(su, keys), disk) == Recovered(su, disk)
  {
    if disk.snapshot.Some? {
      var snap := disk.snapshot.value;
      RestrictedReplay(su, keys, ReadCore(su, snap.core), SegmentOf(disk, snap.gen));
    }
  }

  lemma RestrictedNext<S, T, D, C>(su: Setup<S, seq<T>, D, C>, keys: set<Key>, s: System<S, C, D>, step: Step<C>)
    requires s.inbox <= s.published && forall d :: d in s.published && d.Data? ==> d.key in keys
    ensures Next(Restrict(su, keys), s, step) == Next(su, s, step)
  {
    hide RecoveredCore, Recovered, WrittenBy, WriteAll, CompactionOps, OpenOps, AppendOps;
    match step
    case Crash(compact, n, k, m) =>
      var ops := CheckpointOps(su, s.vol, compact);
      if n <= |ops| {
        RestrictedRecovery(su, keys, WrittenBy(s.disk, ops, n, k));
      }
    case CrashIdle => RestrictedRecovery(su, keys, s.disk);
    case _ =>
  }

  lemma PublishedGrows<S, B, D, C>(su: Setup<S, B, D, C>, s: System<S, C, D>, step: Step<C>)
    ensures s.published <= Next(su, s, step).published
    ensures s.inbox <= s.published ==> Next(su, s, step).inbox <= Next(su, s, step).published
  {
    hide Recovered, WrittenBy, WriteAll, CheckpointOps, Checkpointed, Accept;
  }

  /** Batches that never arrive make no difference. */
  lemma {:induction false} RestrictedRun<S, T, D, C>(su: Setup<S, seq<T>, D, C>, keys: set<Key>, steps: seq<Step<C>>)
    requires forall d :: d in Run(su, steps).published && d.Data? ==> d.key in keys
    ensures Run(Restrict(su, keys), steps) == Run(su, steps)
    ensures Run(su, steps).inbox <= Run(su, steps).published
  {
    hide Next;
    if steps != [] {
      var front, last := steps[..|steps| - 1], steps[|steps| - 1];
      PublishedGrows(su, Run(su, front), last);
      RestrictedRun(su, keys, front);
      RestrictedNext(su, keys, Run(su, front), last);
    } else {
      RestrictedRecovery(su, keys, Initial(su).disk);
    }
  }

  lemma {:induction false} LearnAllKeepsNames(min: nat, ps: Counters.Pairs, xs: seq<Paths.Path>)
    requires Counters.NoArrows(ps) && forall x :: x in xs ==> ARROW !in x.source.name
    ensures Counters.NoArrows(Counters.LearnAll(min, ps, xs))
    decreases xs
  {
    if xs != [] {
      LearnAllKeepsNames(min, Counters.Observe(min, ps, xs[0]), xs[1..]);
    }
  }

  ghost predicate CounterFile<B, D, C>(su: Setup<Counters.Pairs, B, D, C>) {
    forall ps :: CanReturn(Counters.PairFormat(), ps, su.restored(ps))
  }

  lemma CounterIsLawful<C>(min: nat, su: Setup<Counters.Pairs, seq<Paths.Path>, seq<Counters.MidRecord>, C>)
    requires min > 0 && su.strategy == Counters.CounterStrategy(min) && CounterFile(su)
    requires forall k: Key, x :: x in su.batchOf(k) ==> ARROW !in x.source.name
    ensures Lawful(su, ps => Counters.Sound(min, ps) && Counters.NoArrows(ps))
  {
    hide Counters.Sound, Counters.NoArrows, Counters.CounterStrategy, CanReturn;
    Counters.CounterDeltaAgrees(min);
    CounterProcess(min);
    forall ps, k: Key | Counters.NoArrows(ps) ensures Counters.NoArrows(Counters.LearnAll(min, ps, su.batchOf(k))) {
      LearnAllKeepsNames(min, ps, su.batchOf(k));
    }
    forall ps | Counters.NoArrows(ps) ensures su.restored(ps) == ps {
      Counters.PairsReturnIff(ps, su.restored(ps));
    }
    NoPairs(min);
  }

  lemma NoPairs(min: nat)
    ensures Counters.Sound(min, map[]) && Counters.NoArrows(map[]) && Counters.CounterStrategy(min).init == map[]
  {
  }

  lemma CounterProcess(min: nat)
    ensures forall ps, xs :: Counters.CounterStrategy(min).process(ps, xs) == Counters.LearnAll(min, ps, xs)
  {
  }

  /**
   Whatever crashed and whenever: with no arrow in the name of a source account received, a
   pair qualifies after recovery iff enough middle accounts were received.
   */
  lemma CounterSurvivesCrashes<C(!new)>(min: nat, su: Setup<Counters.Pairs, seq<Paths.Path>, seq<Counters.MidRecord>, C>,
                                        steps: seq<Step<C>>, k: Pair, mids: set<Account>)
    requires min > 0 && su.strategy == Counters.CounterStrategy(min) && CounterFile(su) && Settled(Run(su, steps))
    requires forall x :: Received(su, Run(su, steps).published, x) ==> ARROW !in x.source.name
    requires forall m :: m in mids <==> Received(su, Run(su, steps).published, Paths.Path(k.source, m, k.dest))
    ensures k in Counters.Qualified(RecoveredCore(su, Run(su, steps).disk).data) <==> |mids| >= min
  {
    var s := Run(su, steps);
    var keys := set d | d in s.published && d.Data? :: d.key;
    var only := Restrict(su, keys);
    RestrictedRun(su, keys, steps);
    RestrictedRecovery(su, keys, s.disk);
    forall key: Key, x | x in only.batchOf(key) ensures ARROW !in x.source.name {
      assert Received(su, s.published, x);
    }
    CounterIsLawful(min, only);
    var ks := AllPublishedOnce(only, ps => Counters.Sound(min, ps) && Counters.NoArrows(ps), steps);
    var xs := Flatten(BatchesOf(only, ks));
    CounterFold(min, BatchesOf(only, ks));
    Counters.CounterMeans(min, xs, k);
    forall m ensures m in Counters.MidsIn(xs, k) <==> m in mids {
      var x := Paths.Path(k.source, m, k.dest);
      ItemsOfBatches(only, s.published, ks, x);
      RestrictedReceived(su, keys, s.published, x);
      assert m in Counters.MidsIn(xs, k) <==> x in xs;
    }
    assert Counters.MidsIn(xs, k) == mids;
  }

  lemma RestrictedReceived<S, T(!new), D, C>(su: Setup<S, seq<T>, D, C>, keys: set<Key>, published: set<Delivery>, x: T)
    requires forall d :: d in published && d.Data? ==> d.key in keys
    ensures Received(Restrict(su, keys), published, x) <==> Received(su, published, x)
  {
    if Received(su, published, x) {
      var d :| d in published && d.Data? && x in su.batchOf(d.key);
      assert x in Restrict(su, keys).batchOf(d.key);
    }
    if Received(Restrict(su, keys), published, x) {
      var d :| d in published && d.Data? && x in Restrict(su, keys).batchOf(d.key);
      assert x in su.batchOf(d.key);
    }
  }

  lemma LearnAtPair(min: nat, ps: Counters.Pairs, qs: Counters.Pairs, p: Pair, m: Account, k: Pair)
    requires Counters.At(ps, k) == Counters.At(qs, k)
    ensures Counters.At(Counters.Learn(min, ps, p, m), k) == Counters.At(Counters.Learn(min, qs, p, m), k)
  {
  }

  lemma {:induction false} ReplayAtPair(min: nat, ps: Counters.Pairs, qs: Counters.Pairs, rs: seq<Counters.MidRecord>, k: Pair)
    requires Counters.At(ps, k) == Counters.At(qs, k)
    ensures Counters.At(Counters.Replay(min, ps, rs).0, k) == Counters.At(Counters.Replay(min, qs, rs).0, k)
    decreases rs
  {
    hide Counters.At, Counters.Learn, Counters.Decode, Counters.PairOf;
    if rs != [] && Counters.Decode(rs[0]).Ok? {
      var x := Counters.Decode(rs[0]).value;
      LearnAtPair(min, ps, qs, Counters.PairOf(x), x.mid, k);
      ReplayAtPair(min, Counters.Learn(min, ps, Counters.PairOf(x), x.mid), Counters.Learn(min, qs, Counters.PairOf(x), x.mid), rs[1..], k);
    }
  }

  lemma {:induction false} LogAtPair<C>(min: nat, su: Setup<Counters.Pairs, seq<Paths.Path>, seq<Counters.MidRecord>, C>,
                                        a: Core<Counters.Pairs>, b: Core<Counters.Pairs>, rs: seq<Record<seq<Counters.MidRecord>>>, k: Pair)
    requires su.strategy == Counters.CounterStrategy(min) && Counters.At(a.data, k) == Counters.At(b.data, k)
    ensures Counters.At(ReplayAll(su, a, rs).data, k) == Counters.At(ReplayAll(su, b, rs).data, k)
  {
    hide Counters.At, Counters.Replay;
    if rs != [] {
      var front, last := rs[..|rs| - 1], rs[|rs| - 1];
      LogAtPair(min, su, a, b, front, k);
      if last.delta.Some? {
        ReplayAtPair(min, ReplayAll(su, a, front).data, ReplayAll(su, b, front).data, last.delta.value, k);
      }
    }
  }

  /** The records a restart replays. */
  function Replayed<S, B, D, C>(su: Setup<S, B, D, C>, disk: Disk<S, C, D>): seq<Record<D>> {
    if su.walEnabled && disk.snapshot.Some? then SegmentOf(disk, disk.snapshot.value.gen) else []
  }

  /**
   From any disk, a pair with an arrow in its source name gets back what the current log
   segment says of it and nothing else, as if there had been no checkpoint.
   */
  lemma ArrowPairsKeepTheLogOnly<C>(min: nat, su: Setup<Counters.Pairs, seq<Paths.Path>, seq<Counters.MidRecord>, C>,
                                    disk: Disk<Counters.Pairs, C, seq<Counters.MidRecord>>, k: Pair)
    requires su.strategy == Counters.CounterStrategy(min) && CounterFile(su) && ARROW in k.source.name
    ensures Counters.At(RecoveredCore(su, disk).data, k) == Counters.At(ReplayAll(su, FreshCore(su), Replayed(su, disk)).data, k)
  {
    hide CanReturn, Counters.PairFormat;
    if disk.snapshot.Some? {
      var core := disk.snapshot.value.core;
      Counters.PairsReturnIff(core.data, su.restored(core.data));
      LogAtPair(min, su, ReadCore(su, core), FreshCore(su), Replayed(su, disk), k);
    }
  }

  lemma {:induction false} LearnAllKeys(min: nat, ps: Counters.Pairs, xs: seq<Paths.Path>, k: Pair)
    ensures k in Counters.LearnAll(min, ps, xs) <==> k in ps || exists x :: x in xs && Counters.PairOf(x) == k
    decreases xs
  {
    if xs != [] {
      LearnAllKeys(min, Counters.Observe(min, ps, xs[0]), xs[1..], k);
      assert xs == [xs[0]] + xs[1..];
    }
  }

  lemma FirstCheckpointHolds<S, B, D, C>(su: Setup<S, B, D, C>, d: Delivery)
    returns (steps: seq<Step<C>>)
    requires d.Data? && d.key.seqID != 0
    ensures steps == [Publish(d), Deliver(d), Checkpoint(false), CrashIdle]
    ensures Run(su, steps).inbox == {}
    ensures RecoveredCore(su, Run(su, steps).disk) == ReadCore(su, Process(su, FreshCore(su), d.key))
  {
    hide Process, ReadCore;
    steps := [Publish(d), Deliver(d), Checkpoint(false), CrashIdle];
    FourSteps(su, steps);
    var s := Next(su, Next(su, Initial(su), Publish(d)), Deliver(d));
    if su.walEnabled {
      FirstCheckpoint(su, s.disk, s.vol);
    } else {
      WriteOne(s.disk, WriteSnapshot(SnapshotOf(s.vol, s.vol.gen)));
    }
  }

  /**
   One batch, checkpointed and acked, and a crash: the worker has its state back exactly if no
   source account of the batch has an arrow in its name; the pairs of those that do are gone.
   */
  lemma ArrowPairsAreForgotten<C>(min: nat, su: Setup<Counters.Pairs, seq<Paths.Path>, seq<Counters.MidRecord>, C>, d: Delivery)
    returns (steps: seq<Step<C>>)
    requires su.strategy == Counters.CounterStrategy(min) && CounterFile(su)
    requires d.Data? && d.key.seqID != 0
    ensures steps == [Publish(d), Deliver(d), Checkpoint(false), CrashIdle] && Run(su, steps).inbox == {}
    ensures var data, xs := RecoveredCore(su, Run(su, steps).disk).data, su.batchOf(d.key);
      && (data == Counters.LearnAll(min, map[], xs) <==> forall x :: x in xs ==> ARROW !in x.source.name)
      && (forall x :: x in xs && ARROW in x.source.name ==> Counters.PairOf(x) !in data)
  {
    hide CanReturn, Counters.PairFormat, Counters.LearnAll, RecoveredCore, Run;
    steps := FirstCheckpointHolds(su, d);
    var xs := su.batchOf(d.key);
    var ps := Counters.LearnAll(min, map[], xs);
    Counters.PairsReturnIff(ps, su.restored(ps));
    forall k ensures k in ps <==> exists x :: x in xs && Counters.PairOf(x) == k {
      LearnAllKeys(min, map[], xs, k);
    }
    forall x | x in xs ensures Counters.PairOf(x) in ps {
    }
  }

  // ---- maxima -------------------------------------------------------------------

  lemma {:induction false} OfferAllAppends(m: Maxes.Maxes, xs: seq<Maxes.Payment>, ys: seq<Maxes.Payment>)
    ensures Maxes.OfferAll(m, xs + ys) == Maxes.OfferAll(Maxes.OfferAll(m, xs), ys)
    decreases xs
  {
    if xs == [] {
      assert xs + ys == ys;
    } else {
      OfferAllAppends(Maxes.Offer(m, xs[0]), xs[1..], ys);
      assert (xs + ys)[1..] == xs[1..] + ys;
    }
  }

  lemma {:induction false} MaxFold(bs: seq<seq<Maxes.Payment>>)
    ensures ProcessAll(Maxes.MaxStrategy(), map[], bs) == Maxes.OfferAll(map[], Flatten(bs))
  {
    if bs != [] {
      MaxFold(bs[..|bs| - 1]);
      OfferAllAppends(map[], Flatten(bs[..|bs| - 1]), bs[|bs| - 1]);
    }
  }

  /** Whatever crashed and whenever: the recovered maxima are those of the payments received, in some order. */
  lemma MaximaSurviveCrashes<C(!new)>(su: Setup<Maxes.Maxes, seq<Maxes.Payment>, seq<Maxes.Payment>, C>, steps: seq<Step<C>>)
    returns (ps: seq<Maxes.Payment>)
    requires su.strategy == Maxes.MaxStrategy() && Settled(Run(su, steps))
    requires forall m :: CanReturn(Maxes.MaxFormat(), m, su.restored(m))
    ensures forall p :: p in ps <==> Received(su, Run(su, steps).published, p)
    ensures Maxes.KeepsMaxima(RecoveredCore(su, Run(su, steps).disk).data, ps)
  {
    Maxes.MaxDeltaAgrees();
    forall m ensures su.restored(m) == m {
      Maxes.MaximaReturn(m, su.restored(m));
    }
    LawfulIf(su, Maxes.AnyMaxes);
    var ks := AllPublishedOnce(su, Maxes.AnyMaxes, steps);
    ps := Flatten(BatchesOf(su, ks));
    MaxFold(BatchesOf(su, ks));
    Maxes.MaximaOfAllPayments(ps);
    forall p ensures p in ps <==> Received(su, Run(su, steps).published, p) {
      ItemsOfBatches(su, Run(su, steps).published, ks, p);
    }
  }

  // ---- bank names ---------------------------------------------------------------

  lemma {:induction false} LastNamesAppend(xs: seq<Banks.NamedBank>, ys: seq<Banks.NamedBank>)
    ensures Banks.LastNames(xs + ys) == Banks.LastNames(xs) + Banks.LastNames(ys)
  {
    if ys == [] {
      assert xs + ys == xs;
    } else {
      var front := ys[..|ys| - 1];
      LastNamesAppend(xs, front);
      assert (xs + ys)[..|xs + ys| - 1] == xs + front;
    }
  }

  lemma {:induction false} LoggedIsLast(bs: seq<seq<Banks.NamedBank>>)
    ensures Banks.Logged(bs) == Banks.LastNames(Flatten(bs))
  {
    if bs != [] {
      LoggedIsLast(bs[..|bs| - 1]);
      LastNamesAppend(Flatten(bs[..|bs| - 1]), bs[|bs| - 1]);
    }
  }

  ghost predicate NamesFile<B, D, C>(su: Setup<Banks.Names, B, D, C>) {
    forall names :: CanReturn(Banks.NameFormat(), names, su.restored(names))
  }

  lemma NamesAreLawful<C>(su: Setup<Banks.Names, seq<Banks.NamedBank>, Banks.Names, C>)
    requires su.strategy == Banks.BankStrategy() && NamesFile(su)
    ensures Lawful(su, Banks.AnyNames)
  {
    hide CanReturn;
    Banks.BankDeltaAgrees();
    forall names ensures su.restored(names) == names {
      Banks.NamesReturn(names, su.restored(names));
    }
    LawfulIf(su, Banks.AnyNames);
  }

  /** Whatever crashed and whenever: each bank has the last name received for it, in some order of the batches. */
  lemma NamesSurviveCrashes<C(!new)>(su: Setup<Banks.Names, seq<Banks.NamedBank>, Banks.Names, C>, steps: seq<Step<C>>)
    returns (xs: seq<Banks.NamedBank>)
    requires su.strategy == Banks.BankStrategy() && NamesFile(su) && Settled(Run(su, steps))
    ensures forall x :: x in xs <==> Received(su, Run(su, steps).published, x)
    ensures RecoveredCore(su, Run(su, steps).disk).data == Banks.LastNames(xs)
  {
    NamesAreLawful(su);
    var ks := AllPublishedOnce(su, Banks.AnyNames, steps);
    xs := Flatten(BatchesOf(su, ks));
    Banks.ProcessedNames(map[], BatchesOf(su, ks));
    LoggedIsLast(BatchesOf(su, ks));
    assert map[] + Banks.LastNames(xs) == Banks.LastNames(xs);
    forall x ensures x in xs <==> Received(su, Run(su, steps).published, x) {
      ItemsOfBatches(su, Run(su, steps).published, ks, x);
    }
  }

  /** In a reachable state the segment is the log of some batches after which only the pending ones came. */
  lemma SegmentThenPending<S(!new), B(!new), D, C(!new)>(su: Setup<S, B, D, C>, inv: S -> bool, steps: seq<Step<C>>)
    returns (from: S)
    requires Lawful(su, inv)
    ensures var s := Run(su, steps);
      var logged := BatchesOf(su, KeysIn(Segment(su, s)));
      && DeltasIn(Segment(su, s)) == DeltasOf(su.strategy, from, logged)
      && s.vol.core.data ==
           ProcessAll(su.strategy, ProcessAll(su.strategy, from, logged), BatchesOf(su, DataKeys(s.vol.pending)))
  {
    hide Run, Traffic, Lawful;
    var s := Run(su, steps);
    var ks := EveryRunIsExplained(su, inv, steps);
    var pk := DataKeys(s.vol.pending);
    var cut: nat :| BackedAt(su, s.disk, ks, cut);
    var at := if su.walEnabled && s.disk.snapshot.Some? then cut else |ks|;
    var base := CoreOf(su, ks[..at]);
    from := base.data;
    assert ks[..|ks|] == ks && ks[|ks|..] == [];
    assert Segment(su, s) == RecordsFor(su, base, ks[at..]);
    RecordsMean(su, base, ks[at..]);
    CoreSplits(su, ks, at, pk);
    ProcessKeysAppend(su, base, ks[at..], pk);
    ProcessedData(su, base, ks[at..]);
    ProcessedData(su, ProcessKeys(su, base, ks[at..]), pk);
  }

  /**
   A crash right after completeClient's snapshot, in any reachable state: the names come back
   right exactly if no bank named in the current segment is renamed by a batch still pending.
   */
  lemma NamesKeptAtCompletionIff<C(!new)>(su: Setup<Banks.Names, seq<Banks.NamedBank>, Banks.Names, C>, steps: seq<Step<C>>)
    requires su.strategy == Banks.BankStrategy() && NamesFile(su)
    ensures var s := Run(su, steps);
      var logged := Banks.Logged(BatchesOf(su, KeysIn(Segment(su, s))));
      var later := Banks.Logged(BatchesOf(su, DataKeys(s.vol.pending)));
      RecoveredCore(su, CompletionDisk<Banks.Names, seq<Banks.NamedBank>, Banks.Names, C>(s)).data == s.vol.core.data <==>
        forall b :: b in logged && b in later ==> later[b] == logged[b]
  {
    hide Run, RecoveredCore, CompletionDisk, Segment, ApplyAll, ProcessAll, DeltasOf, Banks.Logged;
    NamesAreLawful(su);
    CompletionRecounts(su, Banks.AnyNames, steps);
    var from := SegmentThenPending(su, Banks.AnyNames, steps);
    var s := Run(su, steps);
    Banks.NewerStateKeptIff(from, BatchesOf(su, KeysIn(Segment(su, s))), BatchesOf(su, DataKeys(s.vol.pending)));
  }

  lemma OneDelivered<S, B, D, C>(su: Setup<S, B, D, C>, s: System<S, C, D>, d: Delivery)
    requires d.Data? && d.key.seqID != 0 && d !in s.published && d.key !in s.vol.core.seen && s.vol.pending == []
    ensures var t := Next(su, Next(su, s, Publish(d)), Deliver(d)); t.vol.pending == [d] && Segment(su, t) == Segment(su, s)
  {
    hide Process, RecordOf;
  }

  lemma OneMoreDelivered<S, B, D, C>(su: Setup<S, B, D, C>, front: seq<Step<C>>, d: Delivery)
    returns (steps: seq<Step<C>>)
    requires d.Data? && d.key.seqID != 0 && d !in Run(su, front).published && d.key !in Run(su, front).vol.core.seen
    requires Run(su, front).vol.pending == []
    ensures DataKeys(Run(su, steps).vol.pending) == [d.key] && Segment(su, Run(su, steps)) == Segment(su, Run(su, front))
  {
    hide Run, Next, Segment;
    steps := front + [Publish(d)] + [Deliver(d)];
    OneStepMore(su, front, Publish(d));
    OneStepMore(su, front + [Publish(d)], Deliver(d));
    OneDelivered(su, Run(su, front), d);
    DataKeysAppend([], d);
    assert [] + [d] == [d];
  }

  lemma OneName<C>(su: Setup<Banks.Names, seq<Banks.NamedBank>, Banks.Names, C>, key: Key, x: Banks.NamedBank)
    requires su.batchOf(key) == [x]
    ensures Banks.Logged(BatchesOf(su, [key])) == map[x.bank := x.name]
  {
    var bs := BatchesOf(su, [key]);
    assert bs == [[x]] && bs[..0] == [] && [x][..0] == [];
    assert Banks.LastNames([x]) == map[x.bank := x.name];
  }

  /** A run of a log-mode worker after which completing the client brings an old name back. */
  lemma OldNameAtCompletion<C(!new)>(su: Setup<Banks.Names, seq<Banks.NamedBank>, Banks.Names, C>, first: Key, second: Key, third: Key)
    returns (steps: seq<Step<C>>)
    requires su.strategy == Banks.BankStrategy() && NamesFile(su) && su.walEnabled
    requires first.seqID != 0 && second.seqID != 0 && third.seqID != 0
    requires first != second && third != first && third != second
    requires su.batchOf(second) == [Banks.NamedBank(1, "old")] && su.batchOf(third) == [Banks.NamedBank(1, "new")]
    ensures RecoveredCore(su, CompletionDisk<Banks.Names, seq<Banks.NamedBank>, Banks.Names, C>(Run(su, steps))).data != Run(su, steps).vol.core.data
  {
    hide RecoveredCore, CompletionDisk, Run, Segment, NamesFile, Banks.Logged, Banks.BankStrategy;
    var front := LoggedSecondBatch(su, first, second);
    steps := OneMoreDelivered(su, front, Data(3, third));
    NamesKeptAtCompletionIff(su, steps);
    assert KeysIn(Segment(su, Run(su, steps))) == [second];
    OneName(su, second, Banks.NamedBank(1, "old"));
    OneName(su, third, Banks.NamedBank(1, "new"));
    var bank: U32 := 1;
    assert "old"[0] != "new"[0] && bank in map[bank := "old"] && bank in map[bank := "new"];
  }
}
