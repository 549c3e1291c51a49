/**
 Every run of one client on one worker, with crashes between any two disk writes:
 each published batch ends up counted exactly once, and none is ever lost.
 */
module ExactlyOnce {
  import opened Common
  import opened DeltaStrategies
  import opened ClientRuntime
  import Wal

  // ---- the system: broker, memory and disk ------------------------------------

  datatype System<S, C, D> = System(
    disk: Disk<S, C, D>,
    vol: Volatile<S, C, D>,
    published: set<Delivery>,
    inbox: set<Delivery>)            // published and not acked

  datatype Step<C> =
    | Publish(d: Delivery)
    | Deliver(d: Delivery)
    | Coordinate(d: Delivery, coord: C)          // an EOF or ring token changes the coordinator
    | Checkpoint(compact: bool)
    | Crash(compact: bool, writes: nat, records: nat, acks: nat)  // how far a checkpoint got before dying
    | CrashIdle

  /** The first n writes, and of the next one, if it is an append, the first k records. */
  function WrittenBy<S, C, D>(disk: Disk<S, C, D>, ops: seq<DiskOp<S, C, D>>, n: nat, k: nat): Disk<S, C, D>
    requires n <= |ops|
  {
    var done := WriteAll(disk, ops[..n]);
    if n < |ops| && ops[n].AppendRecords? && k <= |ops[n].records|
    then Write(done, ops[n].(records := ops[n].records[..k]))
    else done
  }

  /** Restart: memory is rebuilt from disk and every unacked delivery is back in the queue. */
  function Restart<S, B, D, C>(su: Setup<S, B, D, C>, s: System<S, C, D>, disk: Disk<S, C, D>): System<S, C, D> {
    s.(disk := disk, vol := Recovered(su, disk))
  }

  function Next<S, B, D, C>(su: Setup<S, B, D, C>, s: System<S, C, D>, step: Step<C>): System<S, C, D> {
    match step
    case Publish(d) =>
      if d in s.published || (d.Data? && d.key.seqID == 0) then s
      else s.(published := s.published + {d}, inbox := s.inbox + {d})
    case Deliver(d) =>
      if d !in s.inbox || d in s.vol.pending || !d.Data? then s
      else if d.key in s.vol.core.seen then s.(inbox := s.inbox - {d})
      else s.(vol := Accept(su, s.vol, d))
    case Coordinate(d, c) =>
      if d !in s.inbox || d in s.vol.pending || !d.Control? then s
      else s.(vol := s.vol.(coord := c, pending := s.vol.pending + [d]))
    case Checkpoint(compact) =>
      if s.vol.pending == [] then s
      else s.(disk := WriteAll(s.disk, CheckpointOps(su, s.vol, compact)),
              vol := Checkpointed(su, s.vol, compact),
              inbox := s.inbox - SetOf(s.vol.pending))
    case Crash(compact, n, k, m) =>
      var ops := CheckpointOps(su, s.vol, compact);
      if s.vol.pending == [] || n > |ops| || m > |s.vol.pending| || (m > 0 && n < |ops|) then s
      else Restart(su, s.(inbox := s.inbox - SetOf(s.vol.pending[..m])), WrittenBy(s.disk, ops, n, k))
    case CrashIdle => Restart(su, s, s.disk)
  }

  function Initial<S, B, D, C>(su: Setup<S, B, D, C>): System<S, C, D> {
    var disk := Disk(None, map[]);
    System(disk, Recovered(su, disk), {}, {})
  }

  function Run<S, B, D, C>(su: Setup<S, B, D, C>, steps: seq<Step<C>>): System<S, C, D> {
    if steps == [] then Initial(su) else Next(su, Run(su, steps[..|steps| - 1]), steps[|steps| - 1])
  }

  // ---- the specification: a fold over batches ---------------------------------

  function ProcessKeys<S, B, D, C>(su: Setup<S, B, D, C>, core: Core<S>, ks: seq<Key>): Core<S> {
    if ks == [] then core else Process(su, ProcessKeys(su, core, ks[..|ks| - 1]), ks[|ks| - 1])
  }

  function CoreOf<S, B, D, C>(su: Setup<S, B, D, C>, ks: seq<Key>): Core<S> {
    ProcessKeys(su, FreshCore(su), ks)
  }

  function ItemSum<S, B, D, C>(su: Setup<S, B, D, C>, ks: seq<Key>): nat {
    if ks == [] then 0 else ItemSum(su, ks[..|ks| - 1]) + su.itemsOf(su.batchOf(ks[|ks| - 1]))
  }

  function BatchesOf<S, B, D, C>(su: Setup<S, B, D, C>, ks: seq<Key>): seq<B> {
    seq(|ks|, i requires 0 <= i < |ks| => su.batchOf(ks[i]))
  }

  /** CoreOf says: the strategy folded over the batches, their keys, and their item sum. */
  lemma {:induction false} CoreMeaning<S, B, D, C>(su: Setup<S, B, D, C>, ks: seq<Key>)
    requires forall i :: 0 <= i < |ks| ==> ks[i].seqID != 0
    ensures CoreOf(su, ks).data == ProcessAll(su.strategy, su.strategy.init, BatchesOf(su, ks))
    ensures CoreOf(su, ks).seen == SetOf(ks)
    ensures CoreOf(su, ks).items == ItemSum(su, ks)
  {
    if ks != [] {
      var front := ks[..|ks| - 1];
      CoreMeaning(su, front);
      assert ks == front + [ks[|ks| - 1]];
      assert BatchesOf(su, ks)[..|ks| - 1] == BatchesOf(su, front);
    }
  }

  lemma {:induction false} ProcessedData<S, B, D, C>(su: Setup<S, B, D, C>, core: Core<S>, ks: seq<Key>)
    ensures ProcessKeys(su, core, ks).data == ProcessAll(su.strategy, core.data, BatchesOf(su, ks))
  {
    if ks != [] {
      ProcessedData(su, core, ks[..|ks| - 1]);
      assert BatchesOf(su, ks)[..|ks| - 1] == BatchesOf(su, ks[..|ks| - 1]);
    }
  }

  lemma {:induction false} ProcessKeysAppend<S, B, D, C>(su: Setup<S, B, D, C>, core: Core<S>, ks: seq<Key>, more: seq<Key>)
    ensures ProcessKeys(su, core, ks + more) == ProcessKeys(su, ProcessKeys(su, core, ks), more)
  {
    hide Process;
    if more == [] {
      assert ks + more == ks;
    } else {
      ProcessKeysAppend(su, core, ks, more[..|more| - 1]);
      assert (ks + more)[..|ks + more| - 1] == ks + more[..|more| - 1];
    }
  }

  // ---- the log records of a run -----------------------------------------------

  function RecordsFor<S, B, D, C>(su: Setup<S, B, D, C>, core: Core<S>, ks: seq<Key>): (rs: seq<Record<D>>)
    ensures |rs| == |ks|
  {
    if ks == [] then []
    else
      var front := ks[..|ks| - 1];
      RecordsFor(su, core, front) + [RecordOf(su, ProcessKeys(su, core, front), ks[|ks| - 1])]
  }

  function KeysIn<D>(rs: seq<Record<D>>): seq<Key> {
    seq(|rs|, i requires 0 <= i < |rs| => rs[i].key)
  }

  function DeltasIn<D>(rs: seq<Record<D>>): seq<Option<D>> {
    seq(|rs|, i requires 0 <= i < |rs| => rs[i].delta)
  }

  /** The records carry the batches' keys and the strategy's deltas. */
  lemma {:induction false} RecordsMean<S, B, D, C>(su: Setup<S, B, D, C>, core: Core<S>, ks: seq<Key>)
    ensures KeysIn(RecordsFor(su, core, ks)) == ks
    ensures DeltasIn(RecordsFor(su, core, ks)) == DeltasOf(su.strategy, core.data, BatchesOf(su, ks))
  {
    if ks != [] {
      var front, last := ks[..|ks| - 1], ks[|ks| - 1];
      RecordsMean(su, core, front);
      ProcessedData(su, core, front);
      hide ProcessKeys;
      assert BatchesOf(su, ks)[..|ks| - 1] == BatchesOf(su, front);
      var r := RecordOf(su, ProcessKeys(su, core, front), last);
      assert KeysIn(RecordsFor(su, core, front) + [r]) == KeysIn(RecordsFor(su, core, front)) + [last];
      assert DeltasIn(RecordsFor(su, core, front) + [r]) == DeltasIn(RecordsFor(su, core, front)) + [r.delta];
    }
  }

  lemma {:induction false} RecordsForPrefix<S, B, D, C>(su: Setup<S, B, D, C>, core: Core<S>, ks: seq<Key>, k: nat)
    requires k <= |ks|
    ensures RecordsFor(su, core, ks)[..k] == RecordsFor(su, core, ks[..k])
  {
    if k < |ks| {
      var front := ks[..|ks| - 1];
      RecordsForPrefix(su, core, front, k);
      assert ks[..k] == front[..k];
    } else {
      assert ks[..k] == ks;
    }
  }

  /**
   On every state the batches can lead to, the delta of a batch carries the state over it,
   and a checkpoint gives the state back.
   */
  ghost predicate Lawful<S(!new), B, D, C>(su: Setup<S, B, D, C>, inv: S -> bool) {
    && inv(su.strategy.init)
    && (forall s: S, k: Key :: inv(s) ==>
      var b := su.batchOf(k);
      inv(su.strategy.process(s, b)) && ApplyDelta(su.strategy, s, su.strategy.delta(s, b)) == su.strategy.process(s, b))
    && (forall s: S :: inv(s) ==> su.restored(s) == s)
  }

  lemma LawfulIf<S(!new), B(!new), D, C>(su: Setup<S, B, D, C>, inv: S -> bool)
    requires DeltaAgrees(su.strategy, inv) && forall s :: inv(s) ==> su.restored(s) == s
    ensures Lawful(su, inv)
  {
    hide ApplyDelta;
  }

  lemma {:induction false} ProcessKeysKeeps<S(!new), B(!new), D, C>(su: Setup<S, B, D, C>, inv: S -> bool, core: Core<S>, ks: seq<Key>)
    requires Lawful(su, inv) && inv(core.data)
    ensures inv(ProcessKeys(su, core, ks).data)
  {
    if ks != [] {
      ProcessKeysKeeps(su, inv, core, ks[..|ks| - 1]);
    }
  }

  lemma {:induction false} ReplayRebuilds<S(!new), B(!new), D, C>(su: Setup<S, B, D, C>, inv: S -> bool, core: Core<S>, ks: seq<Key>)
    requires Lawful(su, inv) && inv(core.data)
    ensures ReplayAll(su, core, RecordsFor(su, core, ks)) == ProcessKeys(su, core, ks)
  {
    if ks != [] {
      var front := ks[..|ks| - 1];
      ReplayRebuilds(su, inv, core, front);
      ProcessKeysKeeps(su, inv, core, front);
      assert RecordsFor(su, core, ks)[..|ks| - 1] == RecordsFor(su, core, front);
    }
  }

  lemma {:induction false} ReplayAppend<S, B, D, C>(su: Setup<S, B, D, C>, core: Core<S>, rs: seq<Record<D>>, more: seq<Record<D>>)
    ensures ReplayAll(su, core, rs + more) == ReplayAll(su, ReplayAll(su, core, rs), more)
  {
    if more == [] {
      assert rs + more == rs;
    } else {
      ReplayAppend(su, core, rs, more[..|more| - 1]);
      assert (rs + more)[..|rs + more| - 1] == rs + more[..|more| - 1];
    }
  }

  // ---- the invariant ----------------------------------------------------------

  function DataKeys(ds: seq<Delivery>): seq<Key> {
    if ds == [] then []
    else
      var front := DataKeys(ds[..|ds| - 1]);
      if ds[|ds| - 1].Data? then front + [ds[|ds| - 1].key] else front
  }

  /** Memory and disk agree on the generation, and an open log is alone on disk. */
  ghost predicate DiskFits<S, B, D, C>(su: Setup<S, B, D, C>, disk: Disk<S, C, D>, v: Volatile<S, C, D>) {
    && (disk.snapshot.None? ==> !v.snapped && forall g :: g in disk.segments ==> disk.segments[g] == [])
    && (disk.snapshot.Some? ==> (su.walEnabled ==> v.snapped && v.gen == disk.snapshot.value.gen))
    && (v.log.Some? ==> su.walEnabled && v.log.value == v.gen && disk.segments.Keys == {v.gen})
  }

  /** The snapshot covers the first cut batches and the log segment records exactly the others. */
  ghost predicate BackedAt<S, B, D, C>(su: Setup<S, B, D, C>, disk: Disk<S, C, D>, ks: seq<Key>, cut: nat) {
    && cut <= |ks|
    && match disk.snapshot {
         case None => ks == []
         case Some(snap) =>
           && snap.core == CoreOf(su, ks[..cut])
           && (if su.walEnabled then SegmentOf(disk, snap.gen) == RecordsFor(su, CoreOf(su, ks[..cut]), ks[cut..])
               else cut == |ks|)
       }
  }

  ghost predicate Backed<S, B, D, C>(su: Setup<S, B, D, C>, disk: Disk<S, C, D>, ks: seq<Key>) {
    exists cut: nat :: BackedAt(su, disk, ks, cut)
  }

  /** What a worker that would restart from disk accounts for (ks) and what is only in memory (pk). */
  ghost predicate Accounts<S, B, D, C>(su: Setup<S, B, D, C>, disk: Disk<S, C, D>, v: Volatile<S, C, D>, ks: seq<Key>, pk: seq<Key>) {
    && RecoveredCore(su, disk) == CoreOf(su, ks)
    && Backed(su, disk, ks)
    && v.core == CoreOf(su, ks + pk)
    && v.pendingDeltas == (if su.walEnabled then RecordsFor(su, CoreOf(su, ks), pk) else [])
    && DiskFits(su, disk, v)
  }

  ghost predicate Waiting(inbox: set<Delivery>, key: Key) {
    exists d :: d in inbox && d.Data? && d.key == key
  }

  /** Nothing counted was not published, and every published batch is counted or still unacked. */
  ghost predicate Traffic<S, C, D>(s: System<S, C, D>, ks: seq<Key>) {
    && s.inbox <= s.published
    && (forall d :: d in s.vol.pending ==> d in s.inbox)
    && Distinct(s.vol.pending)
    && (forall k :: k in ks ==> Waiting(s.published, k))
    && (forall d :: d in s.published && d.Data? ==> d.key.seqID != 0 && (d.key in ks || Waiting(s.inbox, d.key)))
  }

  ghost predicate Explains<S, B, D, C>(su: Setup<S, B, D, C>, s: System<S, C, D>, ks: seq<Key>) {
    && Distinct(ks + DataKeys(s.vol.pending))
    && Accounts(su, s.disk, s.vol, ks, DataKeys(s.vol.pending))
    && Traffic(s, ks)
  }

  // ---- crash points of one checkpoint -----------------------------------------

  lemma WrittenBySplit<S, C, D>(disk: Disk<S, C, D>, a: seq<DiskOp<S, C, D>>, b: seq<DiskOp<S, C, D>>, n: nat, k: nat)
    requires n <= |a + b|
    ensures WrittenBy(disk, a + b, n, k) ==
      if n < |a| then WrittenBy(disk, a, n, k) else WrittenBy(WriteAll(disk, a), b, n - |a|, k)
  {
    if n < |a| {
      assert (a + b)[..n] == a[..n];
    } else {
      assert (a + b)[..n] == a + b[..n - |a|];
      WriteAllAppend(disk, a, b[..n - |a|]);
    }
  }

  lemma WrittenByAll<S, C, D>(disk: Disk<S, C, D>, ops: seq<DiskOp<S, C, D>>, k: nat)
    ensures WrittenBy(disk, ops, |ops|, k) == WriteAll(disk, ops)
  {
    assert ops[..|ops|] == ops;
  }

  // What the disk can look like when a checkpoint stops: the same snapshot with the first
  // j pending records appended, or a new snapshot of the memory with nothing logged on top.

  ghost predicate Grown<S, C, D>(disk: Disk<S, C, D>, v: Volatile<S, C, D>, d: Disk<S, C, D>, j: nat) {
    && j <= |v.pendingDeltas|
    && d.snapshot == disk.snapshot
    && match disk.snapshot {
         case None => j == 0 && forall g :: g in d.segments ==> d.segments[g] == []
         case Some(snap) => SegmentOf(d, snap.gen) == SegmentOf(disk, snap.gen) + v.pendingDeltas[..j]
       }
  }

  ghost predicate Renewed<S, B, D, C>(su: Setup<S, B, D, C>, v: Volatile<S, C, D>, d: Disk<S, C, D>) {
    && d.snapshot.Some?
    && d.snapshot.value == SnapshotOf(v, d.snapshot.value.gen)
    && (su.walEnabled ==> SegmentOf(d, d.snapshot.value.gen) == [])
  }

  lemma OpenShape<S, B, D, C>(su: Setup<S, B, D, C>, disk: Disk<S, C, D>, v: Volatile<S, C, D>, n: nat, k: nat)
    requires su.walEnabled && DiskFits(su, disk, v) && n <= |OpenOps(v)|
    ensures Grown(disk, v, WrittenBy(disk, OpenOps(v), n, k), 0)
    ensures n == |OpenOps(v)| ==> WrittenBy(disk, OpenOps(v), n, k).segments.Keys == {v.gen}
  {
    var ops := OpenOps(v);
    if ops != [] && n == 1 {
      assert ops[..1] == ops && ops[1..] == [];
      assert WriteAll(disk, ops) == Write(disk, OpenSegment(v.gen));
    } else {
      assert ops[..n] == [];
    }
  }

  lemma AppendShape<S, C, D>(disk: Disk<S, C, D>, v: Volatile<S, C, D>, n: nat, k: nat)
    returns (j: nat)
    requires n <= |AppendOps(v)|
    requires disk.snapshot.Some? && disk.snapshot.value.gen == v.gen && disk.segments.Keys == {v.gen}
    ensures var d := WrittenBy(disk, AppendOps(v), n, k);
      && Grown(disk, v, d, j) && d.segments.Keys == {v.gen}
      && (n == |AppendOps(v)| ==> j == |v.pendingDeltas|)
  {
    var ops := AppendOps(v);
    assert ops[..0] == [];
    if ops == [] {
      j := 0;
    } else {
      j := if n == 1 then |v.pendingDeltas| else if k <= |v.pendingDeltas| then k else 0;
      assert ops[1..] == [] && ops[..1] == ops && v.pendingDeltas[..|v.pendingDeltas|] == v.pendingDeltas;
      assert WriteAll(disk, ops) == Write(disk, ops[0]);
    }
  }

  /** Compaction: before its first write the old snapshot and log count, from then on the new snapshot. */
  lemma CompactionShape<S, B, D, C>(su: Setup<S, B, D, C>, disk: Disk<S, C, D>, v: Volatile<S, C, D>, n: nat, k: nat)
    requires n <= |CompactionOps(v)| && disk.segments.Keys == {v.gen}
    ensures var d := WrittenBy(disk, CompactionOps(v), n, k);
      && (if n == 0 then d == disk else Renewed(su, v, d))
      && (n == |CompactionOps(v)| ==>
        d.segments.Keys == {Wal.NextGen(v.gen)} && d.snapshot.value.gen == Wal.NextGen(v.gen))
  {
    var ops := CompactionOps(v);
    WriteThree(disk, ops);
    assert ops[..0] == [] && ops[..3] == ops;
  }

  /**
   Compaction is atomic to a crash: with the buffered records appended, a crash before,
   between or after its three writes recovers the same state, dedup sets and item count,
   exactly if the strategy's state survives a checkpoint file at all.
   */
  lemma CompactionIsAtomic<S, B, D, C>(su: Setup<S, B, D, C>, disk: Disk<S, C, D>, v: Volatile<S, C, D>, n: nat, k: nat)
    requires n <= |CompactionOps(v)| && disk.segments.Keys == {v.gen} && RecoveredCore(su, disk) == v.core
    ensures RecoveredCore(su, WrittenBy(disk, CompactionOps(v), n, k)) == v.core <==>
      n == 0 || su.restored(v.core.data) == v.core.data
  {
    CompactionShape(su, disk, v, n, k);
  }

  lemma LogShape<S, B, D, C>(su: Setup<S, B, D, C>, disk: Disk<S, C, D>, v: Volatile<S, C, D>, n: nat, k: nat)
    returns (j: nat)
    requires su.walEnabled && v.snapped && DiskFits(su, disk, v)
    requires n <= |OpenOps(v) + AppendOps(v)|
    ensures var d := WrittenBy(disk, OpenOps(v) + AppendOps(v), n, k);
      && Grown(disk, v, d, j)
      && (n == |OpenOps(v) + AppendOps(v)| ==> j == |v.pendingDeltas| && d.segments.Keys == {v.gen})
  {
    var open := OpenOps(v);
    WrittenBySplit(disk, open, AppendOps(v), n, k);
    WrittenByAll(disk, open, k);
    OpenShape(su, disk, v, if n < |open| then n else |open|, k);
    if n < |open| {
      j := 0;
    } else {
      j := AppendShape(WriteAll(disk, open), v, n - |open|, k);
    }
  }

  lemma FirstSnapshotShape<S, B, D, C>(su: Setup<S, B, D, C>, disk: Disk<S, C, D>, v: Volatile<S, C, D>, n: nat, k: nat)
    requires su.walEnabled && !v.snapped && DiskFits(su, disk, v)
    requires n <= |CheckpointOps(su, v, false)|
    ensures var d := WrittenBy(disk, CheckpointOps(su, v, false), n, k);
      && (Grown(disk, v, d, 0) || Renewed(su, v, d))
      && (n == |CheckpointOps(su, v, false)| ==>
        Renewed(su, v, d) && d.segments.Keys == {v.gen} && d.snapshot.value.gen == v.gen)
  {
    var open, snap := OpenOps(v), [WriteSnapshot(SnapshotOf(v, v.gen))];
    WrittenBySplit(disk, open, snap, n, k);
    WrittenByAll(disk, open, k);
    OpenShape(su, disk, v, if n < |open| then n else |open|, k);
    var ready := WriteAll(disk, open);
    if n >= |open| {
      assert snap[..0] == [] && snap[..1] == snap && snap[1..] == [];
      assert WriteAll(ready, snap) == Write(ready, snap[0]);
    }
  }

  /** Every place a checkpoint can stop, and what the disk then holds. */
  lemma CrashShape<S, B, D, C>(su: Setup<S, B, D, C>, disk: Disk<S, C, D>, v: Volatile<S, C, D>, compact: bool, n: nat, k: nat)
    returns (j: nat)
    requires DiskFits(su, disk, v) && n <= |CheckpointOps(su, v, compact)|
    requires !su.walEnabled ==> v.pendingDeltas == [] && v.log.None?
    ensures var d := WrittenBy(disk, CheckpointOps(su, v, compact), n, k);
      && (Grown(disk, v, d, j) || Renewed(su, v, d))
      && (n == |CheckpointOps(su, v, compact)| ==>
        && DiskFits(su, d, Checkpointed(su, v, compact))
        && ((su.walEnabled && j == |v.pendingDeltas| && Grown(disk, v, d, j)) || Renewed(su, v, d)))
  {
    j := 0;
    var ops := CheckpointOps(su, v, compact);
    if !su.walEnabled {
      assert ops[..0] == [] && ops[..1] == ops && ops[1..] == [];
      assert WriteAll(disk, ops) == Write(disk, ops[0]);
    } else if !v.snapped {
      FirstSnapshotShape(su, disk, v, n, k);
    } else {
      var log, rotate := OpenOps(v) + AppendOps(v), if compact then CompactionOps(v) else [];
      WrittenBySplit(disk, log, rotate, n, k);
      WrittenByAll(disk, log, k);
      j := LogShape(su, disk, v, if n < |log| then n else |log|, k);
      if compact && n >= |log| {
        CompactionShape(su, WriteAll(disk, log), v, n - |log|, k);
      } else if n >= |log| {
        assert rotate[..0] == [];
      }
    }
  }

  // ---- what a restart from such a disk accounts for ---------------------------

  /** The disk of a restarted worker accounts for ks. */
  ghost predicate Durable<S, B, D, C>(su: Setup<S, B, D, C>, disk: Disk<S, C, D>, ks: seq<Key>) {
    && RecoveredCore(su, disk) == CoreOf(su, ks)
    && Backed(su, disk, ks)
    && DiskFits(su, disk, Recovered(su, disk))
  }

  lemma {:induction false} RecordsForAppend<S, B, D, C>(su: Setup<S, B, D, C>, core: Core<S>, ks: seq<Key>, more: seq<Key>)
    ensures RecordsFor(su, core, ks + more) == RecordsFor(su, core, ks) + RecordsFor(su, ProcessKeys(su, core, ks), more)
  {
    hide RecordOf, Process;
    if more == [] {
      assert ks + more == ks;
    } else {
      var front, last := more[..|more| - 1], more[|more| - 1];
      RecordsForAppend(su, core, ks, front);
      ProcessKeysAppend(su, core, ks, front);
      assert ks + more == (ks + front) + [last];
      RecordsForExtend(su, core, ks + front, last);
    }
  }

  lemma CoreSplits<S, B, D, C>(su: Setup<S, B, D, C>, ks: seq<Key>, cut: nat, more: seq<Key>)
    requires cut <= |ks|
    ensures ProcessKeys(su, CoreOf(su, ks[..cut]), ks[cut..] + more) == CoreOf(su, ks + more)
  {
    ProcessKeysAppend(su, FreshCore(su), ks[..cut], ks[cut..] + more);
    assert ks[..cut] + (ks[cut..] + more) == ks + more;
  }

  lemma TailExtends<S, B, D, C>(su: Setup<S, B, D, C>, ks: seq<Key>, cut: nat, more: seq<Key>)
    requires cut <= |ks|
    ensures var base := CoreOf(su, ks[..cut]);
      && (ks + more)[..cut] == ks[..cut]
      && RecordsFor(su, base, (ks + more)[cut..]) == RecordsFor(su, base, ks[cut..]) + RecordsFor(su, CoreOf(su, ks), more)
  {
    assert (ks + more)[..cut] == ks[..cut] && (ks + more)[cut..] == ks[cut..] + more;
    RecordsForAppend(su, CoreOf(su, ks[..cut]), ks[cut..], more);
    CoreSplits(su, ks, cut, []);
    assert ks[cut..] + [] == ks[cut..] && ks + [] == ks;
  }

  lemma BackedExtends<S, B, D, C>(su: Setup<S, B, D, C>, disk: Disk<S, C, D>, d: Disk<S, C, D>, ks: seq<Key>, more: seq<Key>)
    requires su.walEnabled && Backed(su, disk, ks) && disk.snapshot.Some? && d.snapshot == disk.snapshot
    requires var gen := disk.snapshot.value.gen;
      SegmentOf(d, gen) == SegmentOf(disk, gen) + RecordsFor(su, CoreOf(su, ks), more)
    ensures Backed(su, d, ks + more)
  {
    var cut: nat :| BackedAt(su, disk, ks, cut);
    TailExtends(su, ks, cut, more);
    assert BackedAt(su, d, ks + more, cut);
  }

  lemma GrownIsDurable<S(!new), B(!new), D, C>(su: Setup<S, B, D, C>, inv: S -> bool, disk: Disk<S, C, D>, v: Volatile<S, C, D>, ks: seq<Key>, pk: seq<Key>, d: Disk<S, C, D>, j: nat)
    requires su.walEnabled && Lawful(su, inv) && Accounts(su, disk, v, ks, pk) && Grown(disk, v, d, j)
    requires disk.snapshot.Some?
    ensures Durable(su, d, ks + pk[..j])
  {
    var core, snap := CoreOf(su, ks), disk.snapshot.value;
    RecordsForPrefix(su, core, pk, j);
    ReplayAppend(su, ReadCore(su, snap.core), SegmentOf(disk, snap.gen), RecordsFor(su, core, pk[..j]));
    ProcessKeysKeeps(su, inv, FreshCore(su), ks);
    ReplayRebuilds(su, inv, core, pk[..j]);
    ProcessKeysAppend(su, FreshCore(su), ks, pk[..j]);
    BackedExtends(su, disk, d, ks, pk[..j]);
  }

  lemma UngrownIsDurable<S, B, D, C>(su: Setup<S, B, D, C>, disk: Disk<S, C, D>, v: Volatile<S, C, D>, ks: seq<Key>, pk: seq<Key>, d: Disk<S, C, D>)
    requires Accounts(su, disk, v, ks, pk) && Grown(disk, v, d, 0)
    requires !su.walEnabled || disk.snapshot.None?
    ensures Durable(su, d, ks)
  {
    var cut: nat :| BackedAt(su, disk, ks, cut);
    assert BackedAt(su, d, ks, cut);
  }

  lemma RenewedIsDurable<S(!new), B(!new), D, C>(su: Setup<S, B, D, C>, inv: S -> bool, v: Volatile<S, C, D>, all: seq<Key>, d: Disk<S, C, D>)
    requires Lawful(su, inv) && v.core == CoreOf(su, all) && Renewed(su, v, d)
    ensures Durable(su, d, all)
  {
    ProcessKeysKeeps(su, inv, FreshCore(su), all);
    assert all[..|all|] == all && all[|all|..] == [];
    assert BackedAt(su, d, all, |all|);
  }

  /** A restart from a durable disk has nothing pending. */
  lemma DurableAccounts<S, B, D, C>(su: Setup<S, B, D, C>, d: Disk<S, C, D>, ks: seq<Key>)
    requires Durable(su, d, ks)
    ensures Accounts(su, d, Recovered(su, d), ks, [])
  {
    assert ks + [] == ks;
  }

  /**
   Wherever a checkpoint is interrupted, a restart accounts for the old batches and a
   prefix of the pending ones, each once; after the last write, for all of them.
   */
  lemma CrashPoint<S(!new), B(!new), D, C>(su: Setup<S, B, D, C>, inv: S -> bool, disk: Disk<S, C, D>, v: Volatile<S, C, D>, ks: seq<Key>, pk: seq<Key>, compact: bool, n: nat, k: nat)
    returns (j: nat)
    requires Lawful(su, inv) && Accounts(su, disk, v, ks, pk)
    requires n <= |CheckpointOps(su, v, compact)|
    ensures var d := WrittenBy(disk, CheckpointOps(su, v, compact), n, k);
      && j <= |pk| && Durable(su, d, ks + pk[..j])
      && (n == |CheckpointOps(su, v, compact)| ==> j == |pk| && DiskFits(su, d, Checkpointed(su, v, compact)))
  {
    var d := WrittenBy(disk, CheckpointOps(su, v, compact), n, k);
    j := CrashShape(su, disk, v, compact, n, k);
    assert pk[..|pk|] == pk && ks + pk[..0] == ks;
    if Renewed(su, v, d) {
      j := |pk|;
      RenewedIsDurable(su, inv, v, ks + pk, d);
    } else if su.walEnabled && disk.snapshot.Some? {
      GrownIsDurable(su, inv, disk, v, ks, pk, d, j);
    } else {
      UngrownIsDurable(su, disk, v, ks, pk, d);
    }
  }

  // ---- every step keeps the invariant -----------------------------------------

  lemma {:induction false} DataKeysIn(ds: seq<Delivery>)
    ensures forall d :: d in ds && d.Data? ==> d.key in DataKeys(ds)
    ensures forall k :: k in DataKeys(ds) ==> exists d :: d in ds && d.Data? && d.key == k
  {
    if ds != [] {
      var front, last := ds[..|ds| - 1], ds[|ds| - 1];
      DataKeysIn(front);
      assert ds == front + [last];
      forall k | k in DataKeys(ds) ensures exists d :: d in ds && d.Data? && d.key == k {
        if k in DataKeys(front) {
          var d :| d in front && d.Data? && d.key == k;
          assert d in ds;
        } else {
          assert last in ds && last.Data? && last.key == k;
        }
      }
    }
  }

  lemma DataKeysAppend(ds: seq<Delivery>, d: Delivery)
    ensures DataKeys(ds + [d]) == if d.Data? then DataKeys(ds) + [d.key] else DataKeys(ds)
  {
    assert (ds + [d])[..|ds|] == ds;
  }

  lemma RecordsForExtend<S, B, D, C>(su: Setup<S, B, D, C>, core: Core<S>, ks: seq<Key>, key: Key)
    ensures RecordsFor(su, core, ks + [key]) == RecordsFor(su, core, ks) + [RecordOf(su, ProcessKeys(su, core, ks), key)]
    ensures ProcessKeys(su, core, ks + [key]) == Process(su, ProcessKeys(su, core, ks), key)
  {
    assert (ks + [key])[..|ks|] == ks;
  }

  lemma KeysAreNumbered<S, C, D>(s: System<S, C, D>, ks: seq<Key>)
    requires Traffic(s, ks)
    ensures forall k :: k in ks + DataKeys(s.vol.pending) ==> k.seqID != 0
  {
    DataKeysIn(s.vol.pending);
  }

  lemma CoreOfExtend<S, B, D, C>(su: Setup<S, B, D, C>, ks: seq<Key>, pk: seq<Key>, key: Key)
    ensures CoreOf(su, ks + (pk + [key])) == Process(su, CoreOf(su, ks + pk), key)
  {
    assert ks + (pk + [key]) == (ks + pk) + [key];
    RecordsForExtend(su, FreshCore(su), ks + pk, key);
  }

  lemma PendingRecordsExtend<S, B, D, C>(su: Setup<S, B, D, C>, ks: seq<Key>, pk: seq<Key>, key: Key)
    ensures RecordsFor(su, CoreOf(su, ks), pk + [key]) ==
      RecordsFor(su, CoreOf(su, ks), pk) + [RecordOf(su, CoreOf(su, ks + pk), key)]
  {
    RecordsForExtend(su, CoreOf(su, ks), pk, key);
    ProcessKeysAppend(su, FreshCore(su), ks, pk);
  }

  lemma AcceptAccounts<S, B, D, C>(su: Setup<S, B, D, C>, disk: Disk<S, C, D>, v: Volatile<S, C, D>, ks: seq<Key>, pk: seq<Key>, d: Delivery)
    requires Accounts(su, disk, v, ks, pk) && d.Data?
    ensures Accounts(su, disk, Accept(su, v, d), ks, pk + [d.key])
  {
    CoreOfExtend(su, ks, pk, d.key);
    PendingRecordsExtend(su, ks, pk, d.key);
  }

  /** Dropping a duplicate: another delivery of the same batch is counted or still waiting. */
  lemma DropKeepsTraffic<S, C, D>(s: System<S, C, D>, ks: seq<Key>, d: Delivery)
    requires Traffic(s, ks) && d in s.inbox && d.Data? && d !in s.vol.pending
    requires d.key in ks + DataKeys(s.vol.pending)
    ensures Traffic(s.(inbox := s.inbox - {d}), ks)
  {
    DataKeysIn(s.vol.pending);
    forall e | e in s.published && e.Data? ensures e.key in ks || Waiting(s.inbox - {d}, e.key) {
      if e.key !in ks {
        var w := if e.key == d.key
          then (var q :| q in s.vol.pending && q.Data? && q.key == d.key; q)
          else (var q :| q in s.inbox && q.Data? && q.key == e.key; q);
        assert w in s.inbox - {d};
      }
    }
  }

  lemma DistinctAppend<T>(a: seq<T>, x: T)
    requires Distinct(a) && x !in a
    ensures Distinct(a + [x])
  {
  }

  lemma AcceptKeeps<S, B, D, C>(su: Setup<S, B, D, C>, s: System<S, C, D>, ks: seq<Key>, d: Delivery)
    requires Explains(su, s, ks) && d in s.inbox && d !in s.vol.pending && d.Data?
    requires d.key !in ks + DataKeys(s.vol.pending)
    ensures Explains(su, s.(vol := Accept(su, s.vol, d)), ks)
  {
    hide Accounts, Waiting, Process, RecordOf, DataKeys;
    var pk := DataKeys(s.vol.pending);
    DataKeysAppend(s.vol.pending, d);
    AcceptAccounts(su, s.disk, s.vol, ks, pk, d);
    assert ks + (pk + [d.key]) == (ks + pk) + [d.key];
    DistinctAppend(ks + pk, d.key);
    DistinctAppend(s.vol.pending, d);
  }

  lemma DeliverKeeps<S, B, D, C>(su: Setup<S, B, D, C>, s: System<S, C, D>, ks: seq<Key>, d: Delivery)
    requires Explains(su, s, ks)
    ensures Explains(su, Next(su, s, Deliver(d)), ks)
  {
    hide Backed, RecoveredCore, RecordsFor, Waiting, DiskFits, Accept, Distinct;
    if d in s.inbox && d !in s.vol.pending && d.Data? {
      KeysAreNumbered(s, ks);
      CoreMeaning(su, ks + DataKeys(s.vol.pending));
      if d.key in s.vol.core.seen {
        DropKeepsTraffic(s, ks, d);
      } else {
        AcceptKeeps(su, s, ks, d);
      }
    }
  }

  lemma PublishKeeps<S, B, D, C>(su: Setup<S, B, D, C>, s: System<S, C, D>, ks: seq<Key>, d: Delivery)
    requires Explains(su, s, ks)
    ensures Explains(su, Next(su, s, Publish(d)), ks)
  {
    var t := Next(su, s, Publish(d));
    if t != s {
      forall k | k in ks ensures Waiting(t.published, k) {
        var e :| e in s.published && e.Data? && e.key == k;
        assert e in t.published;
      }
      forall e | e in t.published && e.Data? ensures e.key in ks || Waiting(t.inbox, e.key) {
        if e.key !in ks {
          var w := if e == d then d else (var q :| q in s.inbox && q.Data? && q.key == e.key; q);
          assert w in t.inbox;
        }
      }
    }
  }

  lemma CoordinateAccounts<S, B, D, C>(su: Setup<S, B, D, C>, disk: Disk<S, C, D>, v: Volatile<S, C, D>, ks: seq<Key>, pk: seq<Key>, d: Delivery, c: C)
    requires Accounts(su, disk, v, ks, pk)
    ensures Accounts(su, disk, v.(coord := c, pending := v.pending + [d]), ks, pk)
  {
    hide Backed, CoreOf, RecoveredCore;
  }

  lemma CoordinateKeeps<S, B, D, C>(su: Setup<S, B, D, C>, s: System<S, C, D>, ks: seq<Key>, d: Delivery, c: C)
    requires Explains(su, s, ks)
    ensures Explains(su, Next(su, s, Coordinate(d, c)), ks)
  {
    hide Accounts, Waiting, DataKeys;
    if d in s.inbox && d !in s.vol.pending && d.Control? {
      DataKeysAppend(s.vol.pending, d);
      DistinctAppend(s.vol.pending, d);
      CoordinateAccounts(su, s.disk, s.vol, ks, DataKeys(s.vol.pending), d, c);
    }
  }

  /** Acking some pending deliveries whose batches the disk already accounts for. */
  lemma AckKeepsTraffic<S, B, D, C>(s: System<S, C, D>, ks: seq<Key>, all: seq<Key>, acked: set<Delivery>, v: Volatile<S, C, D>)
    requires Traffic(s, ks) && v.pending == []
    requires forall k :: k in ks ==> k in all
    requires forall k :: k in all ==> k in ks || k in DataKeys(s.vol.pending)
    requires forall d :: d in acked && d.Data? ==> d.key in all
    ensures Traffic(s.(inbox := s.inbox - acked, vol := v), all)
  {
    DataKeysIn(s.vol.pending);
    forall k | k in all ensures Waiting(s.published, k) {
      if k !in ks {
        var d :| d in s.vol.pending && d.Data? && d.key == k;
        assert d in s.published;
      }
    }
    forall e | e in s.published && e.Data? ensures e.key in all || Waiting(s.inbox - acked, e.key) {
      if e.key !in all {
        var w :| w in s.inbox && w.Data? && w.key == e.key;
        assert w in s.inbox - acked;
      }
    }
  }

  lemma DistinctPrefix<T>(a: seq<T>, b: seq<T>, j: nat)
    requires Distinct(a + b) && j <= |b|
    ensures Distinct(a + b[..j])
  {
    assert a + b[..j] == (a + b)[..|a| + j];
  }

  lemma CheckpointKeeps<S(!new), B(!new), D, C>(su: Setup<S, B, D, C>, inv: S -> bool, s: System<S, C, D>, ks: seq<Key>, compact: bool)
    requires Lawful(su, inv) && Explains(su, s, ks) && s.vol.pending != []
    ensures Explains(su, Next(su, s, Checkpoint(compact)), ks + DataKeys(s.vol.pending))
  {
    hide Write, WriteAll, CompactionOps, OpenOps, AppendOps, Lawful, Waiting, BackedAt, RecoveredCore;
    var ops, pk := CheckpointOps(su, s.vol, compact), DataKeys(s.vol.pending);
    var j := CrashPoint(su, inv, s.disk, s.vol, ks, pk, compact, |ops|, 0);
    WrittenByAll(s.disk, ops, 0);
    assert pk[..j] == pk && (ks + pk) + [] == ks + pk;
    DataKeysIn(s.vol.pending);
    AckKeepsTraffic<S, B, D, C>(s, ks, ks + pk, SetOf(s.vol.pending), Checkpointed(su, s.vol, compact));
  }

  lemma CrashKeeps<S(!new), B(!new), D, C>(su: Setup<S, B, D, C>, inv: S -> bool, s: System<S, C, D>, ks: seq<Key>, compact: bool, n: nat, k: nat, m: nat)
    returns (ks': seq<Key>)
    requires Lawful(su, inv) && Explains(su, s, ks)
    ensures Explains(su, Next(su, s, Crash(compact, n, k, m)), ks')
    ensures forall x :: x in ks' ==> x in ks + DataKeys(s.vol.pending)
  {
    hide WrittenBy, CheckpointOps, Lawful, Waiting, Accounts, Durable, Recovered, DiskFits;
    var ops, pk := CheckpointOps(su, s.vol, compact), DataKeys(s.vol.pending);
    if s.vol.pending == [] || n > |ops| || m > |s.vol.pending| || (m > 0 && n < |ops|) {
      ks' := ks;
    } else {
      var j := CrashPoint(su, inv, s.disk, s.vol, ks, pk, compact, n, k);
      var d := WrittenBy(s.disk, ops, n, k);
      ks' := ks + pk[..j];
      DurableAccounts(su, d, ks');
      NothingPendingAfterRestart(su, d);
      assert ks' + [] == ks';
      DistinctPrefix(ks, pk, j);
      DataKeysIn(s.vol.pending);
      assert m > 0 ==> pk[..j] == pk;
      AckKeepsTraffic<S, B, D, C>(s, ks, ks', SetOf(s.vol.pending[..m]), Recovered(su, d));
    }
  }

  lemma NothingPendingAfterRestart<S, B, D, C>(su: Setup<S, B, D, C>, disk: Disk<S, C, D>)
    ensures Recovered(su, disk).pending == []
  {
  }

  lemma DiskIsDurable<S, B, D, C>(su: Setup<S, B, D, C>, disk: Disk<S, C, D>, v: Volatile<S, C, D>, ks: seq<Key>, pk: seq<Key>)
    requires Accounts(su, disk, v, ks, pk)
    ensures Durable(su, disk, ks)
  {
    hide Backed, CoreOf, RecoveredCore;
  }

  lemma CrashIdleKeeps<S, B, D, C>(su: Setup<S, B, D, C>, s: System<S, C, D>, ks: seq<Key>)
    requires Explains(su, s, ks)
    ensures Explains(su, Next(su, s, CrashIdle), ks)
  {
    hide Durable, Accounts, Recovered, Waiting;
    DiskIsDurable(su, s.disk, s.vol, ks, DataKeys(s.vol.pending));
    DurableAccounts(su, s.disk, ks);
    NothingPendingAfterRestart(su, s.disk);
    assert ks + DataKeys(s.vol.pending)[..0] == ks == ks + [];
    DistinctPrefix(ks, DataKeys(s.vol.pending), 0);
    AckKeepsTraffic<S, B, D, C>(s, ks, ks, {}, Recovered(su, s.disk));
    assert s.inbox - {} == s.inbox;
  }

  // ---- every run --------------------------------------------------------------

  lemma NothingToSave<S, B, D, C>(su: Setup<S, B, D, C>, s: System<S, C, D>, compact: bool)
    requires s.vol.pending == []
    ensures Next(su, s, Checkpoint(compact)) == s
  {
  }

  lemma NextKeeps<S(!new), B(!new), D, C(!new)>(su: Setup<S, B, D, C>, inv: S -> bool, s: System<S, C, D>, ks: seq<Key>, step: Step<C>)
    returns (ks': seq<Key>)
    requires Lawful(su, inv) && Explains(su, s, ks)
    ensures Explains(su, Next(su, s, step), ks')
    ensures forall x :: x in ks' ==> x in ks + DataKeys(s.vol.pending)
  {
    hide Next, Explains, Lawful;
    ks' := ks;
    match step
    case Publish(d) => PublishKeeps(su, s, ks, d);
    case Deliver(d) => DeliverKeeps(su, s, ks, d);
    case Coordinate(d, c) => CoordinateKeeps(su, s, ks, d, c);
    case Checkpoint(compact) =>
      if s.vol.pending == [] {
        NothingToSave(su, s, compact);
      } else {
        CheckpointKeeps(su, inv, s, ks, compact);
        ks' := ks + DataKeys(s.vol.pending);
      }
    case Crash(compact, n, k, m) => ks' := CrashKeeps(su, inv, s, ks, compact, n, k, m);
    case CrashIdle => CrashIdleKeeps(su, s, ks);
  }

  /** In every reachable state some list of batches explains memory, disk and broker. */
  lemma {:induction false} EveryRunIsExplained<S(!new), B(!new), D, C(!new)>(su: Setup<S, B, D, C>, inv: S -> bool, steps: seq<Step<C>>)
    returns (ks: seq<Key>)
    requires Lawful(su, inv)
    ensures Explains(su, Run(su, steps), ks)
  {
    if steps == [] {
      ks := [];
      assert BackedAt(su, Initial(su).disk, ks, 0);
    } else {
      ks := EveryRunIsExplained(su, inv, steps[..|steps| - 1]);
      ks := NextKeeps(su, inv, Run(su, steps[..|steps| - 1]), ks, steps[|steps| - 1]);
    }
  }

  /**
   Exactly once, over every run: what a restart rebuilds is the strategy folded over
   distinct published batches, with their item sum, and a published batch that is not
   among them still has an unacked delivery.
   */
  lemma ExactlyOnceOnDisk<S(!new), B(!new), D, C(!new)>(su: Setup<S, B, D, C>, inv: S -> bool, steps: seq<Step<C>>)
    requires Lawful(su, inv)
    ensures var s := Run(su, steps);
      exists ks ::
        && Distinct(ks)
        && RecoveredCore(su, s.disk) ==
             Core(ProcessAll(su.strategy, su.strategy.init, BatchesOf(su, ks)), SetOf(ks), ItemSum(su, ks))
        && (forall k :: k in ks ==> Waiting(s.published, k))
        && (forall d :: d in s.published && d.Data? ==> d.key in ks || Waiting(s.inbox, d.key))
  {
    var s := Run(su, steps);
    var ks := EveryRunIsExplained(su, inv, steps);
    KeysAreNumbered(s, ks);
    CoreMeaning(su, ks);
    DistinctPrefix(ks, DataKeys(s.vol.pending), 0);
    assert ks + DataKeys(s.vol.pending)[..0] == ks;
  }

  /** And in memory: the same, over distinct batches, durable or with their delivery still pending. */
  lemma ExactlyOnceInMemory<S(!new), B(!new), D, C(!new)>(su: Setup<S, B, D, C>, inv: S -> bool, steps: seq<Step<C>>)
    requires Lawful(su, inv)
    ensures var s := Run(su, steps);
      exists ks ::
        && Distinct(ks)
        && s.vol.core == Core(ProcessAll(su.strategy, su.strategy.init, BatchesOf(su, ks)), SetOf(ks), ItemSum(su, ks))
        && (forall k :: k in ks ==> k in RecoveredCore(su, s.disk).seen || k in DataKeys(s.vol.pending))
        && (forall d :: d in s.vol.pending ==> d in s.inbox)
  {
    var s := Run(su, steps);
    var ks := EveryRunIsExplained(su, inv, steps);
    KeysAreNumbered(s, ks);
    CoreMeaning(su, ks);
    CoreMeaning(su, ks + DataKeys(s.vol.pending));
  }

  // ---- what the log does not carry --------------------------------------------

  /**
   Coordinator state, coordination dedup and the output sequence reach the disk only
   inside a snapshot: a finished checkpoint has made them durable exactly in
   full-checkpoint mode, on the first checkpoint, on a compaction, or when they had
   not changed since the last snapshot.
   */
  lemma CoordinatorDurableIff<S, B, D, C>(su: Setup<S, B, D, C>, disk: Disk<S, C, D>, v: Volatile<S, C, D>, compact: bool)
    requires DiskFits(su, disk, v)
    ensures var d := WriteAll(disk, CheckpointOps(su, v, compact));
      Recovered(su, d).coord == v.coord <==>
        !su.walEnabled || !v.snapped || compact || disk.snapshot.value.coord == v.coord
  {
    var ops := CheckpointOps(su, v, compact);
    if !su.walEnabled {
      LastSnapshotWins(disk, [], ops[0], []);
      assert ops == ([] + [ops[0]]) + [];
    } else if !v.snapped {
      LastSnapshotWins(disk, OpenOps(v), WriteSnapshot(SnapshotOf(v, v.gen)), []);
      assert ops == (OpenOps(v) + [WriteSnapshot(SnapshotOf(v, v.gen))]) + [];
    } else if compact {
      var rotate := CompactionOps(v);
      LastSnapshotWins(disk, OpenOps(v) + AppendOps(v), rotate[0], rotate[1..]);
      assert ops == ((OpenOps(v) + AppendOps(v)) + [rotate[0]]) + rotate[1..];
    } else {
      NoSnapshotWritten(disk, ops);
    }
  }

  lemma {:induction false} NoSnapshotWritten<S, C, D>(disk: Disk<S, C, D>, ops: seq<DiskOp<S, C, D>>)
    requires forall i :: 0 <= i < |ops| ==> !ops[i].WriteSnapshot? && !ops[i].RemoveSnapshot?
    ensures WriteAll(disk, ops).snapshot == disk.snapshot
    decreases ops
  {
    if ops != [] {
      NoSnapshotWritten(Write(disk, ops[0]), ops[1..]);
    }
  }

  lemma LastSnapshotWins<S, C, D>(disk: Disk<S, C, D>, before: seq<DiskOp<S, C, D>>, op: DiskOp<S, C, D>, after: seq<DiskOp<S, C, D>>)
    requires op.WriteSnapshot?
    requires forall i :: 0 <= i < |after| ==> !after[i].WriteSnapshot? && !after[i].RemoveSnapshot?
    ensures WriteAll(disk, (before + [op]) + after).snapshot == Some(op.snap)
  {
    WriteAllAppend(disk, before + [op], after);
    WriteAllAppend(disk, before, [op]);
    assert [op][1..] == [];
    assert WriteAll(WriteAll(disk, before), [op]) == Write(WriteAll(disk, before), op);
    NoSnapshotWritten(WriteAll(disk, before + [op]), after);
  }

  /** A run in which a log-mode worker acks an EOF and has forgotten it after a crash. */
  lemma AckedEofForgotten<S, B, D, C>(su: Setup<S, B, D, C>, key: Key, coord: C)
    returns (steps: seq<Step<C>>, eof: Delivery)
    requires su.walEnabled && key.seqID != 0 && coord != su.freshCoord
    ensures var s := Run(su, steps);
      && eof.Control? && Coordinate(eof, coord) in steps
      && eof in s.published && eof !in s.inbox && s.vol.coord == su.freshCoord
  {
    var data := Data(0, key);
    eof := Control(1);
    var s0 := Initial(su);
    var s1 := Next(su, s0, Publish(data));
    var s2 := Next(su, s1, Deliver(data));
    var s3 := Next(su, s2, Checkpoint(false));
    var s4 := Next(su, s3, Publish(eof));
    var s5 := Next(su, s4, Coordinate(eof, coord));
    var s6 := Next(su, s5, Checkpoint(false));
    var s7 := Next(su, s6, CrashIdle);
    steps := [Publish(data), Deliver(data), Checkpoint(false), Publish(eof), Coordinate(eof, coord), Checkpoint(false), CrashIdle];
    CoordinatorDurableIff(su, s2.disk, s2.vol, false);
    assert CheckpointOps(su, s5.vol, false) == [];
    assert s3.vol.coord == su.freshCoord;
    assert s7.vol.coord == su.freshCoord;
    SevenSteps(su, steps);
  }

  /** Coordinator state, coordination dedup and output sequence at the last checkpoint that finished. */
  function LastSaved<S, B, D, C>(su: Setup<S, B, D, C>, steps: seq<Step<C>>): C {
    if steps == [] then su.freshCoord
    else
      var front, last := steps[..|steps| - 1], steps[|steps| - 1];
      var v := Run(su, front).vol;
      if v.pending != [] && Finishes(su, v, last) then v.coord else LastSaved(su, front)
  }

  /** The step is a checkpoint, or a crash after the last write of one. */
  predicate Finishes<S, B, D, C>(su: Setup<S, B, D, C>, v: Volatile<S, C, D>, step: Step<C>) {
    step.Checkpoint? || (step.Crash? && step.writes == |CheckpointOps(su, v, step.compact)| && step.acks <= |v.pending|)
  }

  /** What a restart would know is saved, and without unacked deliveries memory knows no more. */
  ghost predicate Saved<S, B, D, C>(su: Setup<S, B, D, C>, s: System<S, C, D>, saved: C) {
    Recovered(su, s.disk).coord == saved && (s.vol.pending == [] ==> s.vol.coord == saved)
  }

  lemma NextSaved<S, B, D, C>(su: Setup<S, B, D, C>, s: System<S, C, D>, step: Step<C>, saved: C)
    requires !su.walEnabled && Saved(su, s, saved)
    ensures Saved(su, Next(su, s, step), if s.vol.pending != [] && Finishes(su, s.vol, step) then s.vol.coord else saved)
  {
    hide CheckpointOps, WrittenBy, WriteAll, RecoveredCore, Process, RecordOf;
    match step
    case Checkpoint(compact) =>
      FullSnapshot(su, s.disk, s.vol, compact, 1, 0);
      WrittenByAll(s.disk, CheckpointOps(su, s.vol, compact), 0);
    case Crash(compact, n, k, m) =>
      FullSnapshot(su, s.disk, s.vol, compact, if n <= 1 then n else 0, k);
    case _ =>
  }

  /**
   In full-checkpoint mode, whatever the coordinator is and whatever it reads: after any run
   with crashes a restart finds its state, the coordination dedup and the output sequence as
   they were at the last finished checkpoint, and memory is ahead of that only by deliveries
   that are still unacked.
   */
  lemma {:induction false} CoordinatorIsLastSaved<S, B, D, C>(su: Setup<S, B, D, C>, steps: seq<Step<C>>)
    requires !su.walEnabled
    ensures var s := Run(su, steps);
      && Recovered(su, s.disk).coord == LastSaved(su, steps)
      && (s.vol.pending == [] ==> s.vol.coord == LastSaved(su, steps))
  {
    if steps != [] {
      var front := steps[..|steps| - 1];
      CoordinatorIsLastSaved(su, front);
      hide Next, Recovered, Finishes;
      NextSaved(su, Run(su, front), steps[|steps| - 1], LastSaved(su, front));
    }
  }

  // A coordinator that keeps the list of what it was told tells whether an input was lost.

  function ControlsIn(ds: seq<Delivery>): seq<Delivery> {
    if ds == [] then []
    else
      var front := ControlsIn(ds[..|ds| - 1]);
      if ds[|ds| - 1].Control? then front + [ds[|ds| - 1]] else front
  }

  lemma {:induction false} ControlsAreIn(ds: seq<Delivery>)
    ensures forall d :: d in ControlsIn(ds) <==> d in ds && d.Control?
  {
    if ds != [] {
      ControlsAreIn(ds[..|ds| - 1]);
      assert ds == ds[..|ds| - 1] + [ds[|ds| - 1]];
    }
  }

  /** Every EOF and token handled is added to the list. */
  ghost predicate Listing<S, B, D>(su: Setup<S, B, D, seq<Delivery>>, steps: seq<Step<seq<Delivery>>>) {
    && su.freshCoord == []
    && forall i :: 0 <= i < |steps| && steps[i].Coordinate? ==>
         steps[i].coord == Run(su, steps[..i]).vol.coord + [steps[i].d]
  }

  /** What is on disk is what memory was told, up to what is still unacked. */
  ghost predicate Remembers<S, B, D>(su: Setup<S, B, D, seq<Delivery>>, s: System<S, seq<Delivery>, D>) {
    && s.vol.coord == Recovered(su, s.disk).coord + ControlsIn(s.vol.pending)
    && forall d :: d in s.published && d.Control? ==> d in s.inbox || d in Recovered(su, s.disk).coord
  }

  lemma FullSnapshot<S, B, D, C>(su: Setup<S, B, D, C>, disk: Disk<S, C, D>, v: Volatile<S, C, D>, compact: bool, n: nat, k: nat)
    requires !su.walEnabled && n <= 1
    ensures |CheckpointOps(su, v, compact)| == 1
    ensures WrittenBy(disk, CheckpointOps(su, v, compact), n, k) ==
      if n == 0 then disk else disk.(snapshot := Some(SnapshotOf(v, v.gen)))
  {
    var ops := CheckpointOps(su, v, compact);
    WriteOne(disk, ops[0]);
    assert ops[..0] == [] && ops[..1] == ops;
  }

  lemma ControlsAppend(ds: seq<Delivery>, d: Delivery)
    ensures ControlsIn(ds + [d]) == ControlsIn(ds) + if d.Control? then [d] else []
  {
    assert (ds + [d])[..|ds|] == ds;
  }

  /** The steps that leave the disk alone. */
  lemma ArrivalRemembers<S, B, D>(su: Setup<S, B, D, seq<Delivery>>, s: System<S, seq<Delivery>, D>, step: Step<seq<Delivery>>)
    requires Remembers(su, s) && (step.Publish? || step.Deliver? || step.Coordinate?)
    requires step.Coordinate? ==> step.coord == s.vol.coord + [step.d]
    ensures Remembers(su, Next(su, s, step))
  {
    hide ControlsIn, Recovered, Process, RecordOf;
    ControlsAppend(s.vol.pending, step.d);
  }

  lemma CheckpointRemembers<S, B, D>(su: Setup<S, B, D, seq<Delivery>>, s: System<S, seq<Delivery>, D>, compact: bool)
    requires !su.walEnabled && Remembers(su, s)
    ensures Remembers(su, Next(su, s, Checkpoint(compact)))
  {
    hide CheckpointOps, WrittenBy, WriteAll, RecoveredCore;
    FullSnapshot(su, s.disk, s.vol, compact, 1, 0);
    WrittenByAll(s.disk, CheckpointOps(su, s.vol, compact), 0);
    ControlsAreIn(s.vol.pending);
  }

  lemma CrashRemembers<S, B, D>(su: Setup<S, B, D, seq<Delivery>>, s: System<S, seq<Delivery>, D>, step: Step<seq<Delivery>>)
    requires !su.walEnabled && Remembers(su, s) && step.Crash?
    ensures Remembers(su, Next(su, s, step))
  {
    hide CheckpointOps, WrittenBy, WriteAll, RecoveredCore;
    FullSnapshot(su, s.disk, s.vol, step.compact, if step.writes <= 1 then step.writes else 0, step.records);
    ControlsAreIn(s.vol.pending);
  }

  lemma IdleRemembers<S, B, D>(su: Setup<S, B, D, seq<Delivery>>, s: System<S, seq<Delivery>, D>)
    requires Remembers(su, s)
    ensures Remembers(su, Next(su, s, CrashIdle))
  {
    hide RecoveredCore;
  }

  lemma NextRemembers<S, B, D>(su: Setup<S, B, D, seq<Delivery>>, s: System<S, seq<Delivery>, D>, step: Step<seq<Delivery>>)
    requires !su.walEnabled && Remembers(su, s)
    requires step.Coordinate? ==> step.coord == s.vol.coord + [step.d]
    ensures Remembers(su, Next(su, s, step))
  {
    hide Next, Remembers;
    match step
    case Publish(_) => ArrivalRemembers(su, s, step);
    case Deliver(_) => ArrivalRemembers(su, s, step);
    case Coordinate(_, _) => ArrivalRemembers(su, s, step);
    case Checkpoint(compact) => CheckpointRemembers(su, s, compact);
    case Crash(_, _, _, _) => CrashRemembers(su, s, step);
    case CrashIdle => IdleRemembers(su, s);
  }

  /**
   In full-checkpoint mode no acked EOF or token is ever forgotten: after any run, with
   crashes anywhere, what a restart knows is all that memory was told except what is
   still unacked, and every EOF ever published is known to it or still in the queue.
   */
  lemma {:induction false} NoAckedEofForgotten<S, B, D>(su: Setup<S, B, D, seq<Delivery>>, steps: seq<Step<seq<Delivery>>>)
    requires !su.walEnabled && Listing(su, steps)
    ensures var s := Run(su, steps);
      && s.vol.coord == Recovered(su, s.disk).coord + ControlsIn(s.vol.pending)
      && forall d :: d in s.published && d.Control? ==> d in s.inbox || d in Recovered(su, s.disk).coord
  {
    if steps != [] {
      var front := steps[..|steps| - 1];
      forall i | 0 <= i < |front| && front[i].Coordinate?
        ensures front[i].coord == Run(su, front[..i]).vol.coord + [front[i].d]
      {
        assert front[..i] == steps[..i] && steps[i].Coordinate?;
      }
      NoAckedEofForgotten(su, front);
      NextRemembers(su, Run(su, front), steps[|steps| - 1]);
    }
  }

  lemma OneStepMore<S, B, D, C>(su: Setup<S, B, D, C>, front: seq<Step<C>>, step: Step<C>)
    ensures Run(su, front + [step]) == Next(su, Run(su, front), step)
  {
    hide Next;
    assert (front + [step])[..|front|] == front;
  }

  lemma FourSteps<S, B, D, C>(su: Setup<S, B, D, C>, st: seq<Step<C>>)
    requires |st| == 4
    ensures Run(su, st) == Next(su, Next(su, Next(su, Next(su, Initial(su), st[0]), st[1]), st[2]), st[3])
  {
    assert st[..3][..2] == st[..2] && st[..2][..1] == st[..1] && st[..1][..0] == [];
    assert Run(su, st[..1]) == Next(su, Run(su, []), st[0]);
    assert Run(su, st[..2]) == Next(su, Run(su, st[..1]), st[1]);
    assert Run(su, st[..3]) == Next(su, Run(su, st[..2]), st[2]);
  }

  lemma SixSteps<S, B, D, C>(su: Setup<S, B, D, C>, st: seq<Step<C>>)
    requires |st| == 6
    ensures Run(su, st) == Next(su, Next(su, Next(su, Next(su, Next(su, Next(su,
      Initial(su), st[0]), st[1]), st[2]), st[3]), st[4]), st[5])
  {
    FourSteps(su, st[..4]);
    assert st[..5][..4] == st[..4];
    assert Run(su, st[..5]) == Next(su, Run(su, st[..4]), st[4]);
  }

  lemma SevenSteps<S, B, D, C>(su: Setup<S, B, D, C>, st: seq<Step<C>>)
    requires |st| == 7
    ensures Run(su, st) == Next(su, Next(su, Next(su, Next(su, Next(su, Next(su, Next(su,
      Initial(su), st[0]), st[1]), st[2]), st[3]), st[4]), st[5]), st[6])
  {
    SixSteps(su, st[..6]);
  }

  /** The first checkpoint in log mode leaves a snapshot and an empty segment. */
  lemma FirstCheckpoint<S, B, D, C>(su: Setup<S, B, D, C>, disk: Disk<S, C, D>, v: Volatile<S, C, D>)
    requires su.walEnabled && !v.snapped && v.log.None?
    ensures WriteAll(disk, CheckpointOps(su, v, false)) ==
      Disk(Some(SnapshotOf(v, v.gen)), map[v.gen := SegmentOf(disk, v.gen)])
  {
    var ops := CheckpointOps(su, v, false);
    assert ops == [ops[0]] + [ops[1]];
    WriteOne(disk, ops[0]);
    WriteAfter(disk, [ops[0]], ops[1]);
  }

  /** A later one with one buffered record appends it. */
  lemma AppendCheckpoint<S, B, D, C>(su: Setup<S, B, D, C>, disk: Disk<S, C, D>, v: Volatile<S, C, D>)
    requires su.walEnabled && v.snapped && v.log.Some? && |v.pendingDeltas| == 1
    ensures WriteAll(disk, CheckpointOps(su, v, false)) ==
      disk.(segments := disk.segments[v.gen := SegmentOf(disk, v.gen) + v.pendingDeltas])
  {
    var ops := CheckpointOps(su, v, false);
    assert ops == [AppendRecords(v.gen, v.pendingDeltas)];
    WriteOne(disk, ops[0]);
  }

  // ---- the window inside completeClient ---------------------------------------

  function RecordItems<D>(rs: seq<Record<D>>): nat {
    if rs == [] then 0 else RecordItems(rs[..|rs| - 1]) + rs[|rs| - 1].items
  }

  /** completeClient writes the snapshot without starting a new log generation. */
  function CompletionDisk<S, B, D, C>(s: System<S, C, D>): Disk<S, C, D> {
    Write(s.disk, WriteSnapshot(SnapshotOf(s.vol, s.vol.gen)))
  }

  /** Replaying counts every record again and applies every delta again. */
  lemma {:induction false} ReplayMeans<S, B, D, C>(su: Setup<S, B, D, C>, core: Core<S>, rs: seq<Record<D>>)
    requires forall r :: r in rs ==> r.key in core.seen
    ensures ReplayAll(su, core, rs) ==
      Core(ApplyAll(su.strategy, core.data, DeltasIn(rs)), core.seen, core.items + RecordItems(rs))
  {
    if rs != [] {
      ReplayMeans(su, core, rs[..|rs| - 1]);
      assert DeltasIn(rs)[..|rs| - 1] == DeltasIn(rs[..|rs| - 1]);
    }
  }

  lemma {:induction false} SeenAfter<S, B, D, C>(su: Setup<S, B, D, C>, core: Core<S>, ks: seq<Key>)
    requires forall k :: k in ks ==> k.seqID != 0
    ensures ProcessKeys(su, core, ks).seen == core.seen + SetOf(ks)
  {
    if ks != [] {
      SeenAfter(su, core, ks[..|ks| - 1]);
      assert ks == ks[..|ks| - 1] + [ks[|ks| - 1]];
    }
  }

  lemma RecordsAreSeen<S, B, D, C>(su: Setup<S, B, D, C>, core: Core<S>, ks: seq<Key>, more: seq<Key>)
    requires forall k :: k in ks + more ==> k.seqID != 0
    ensures forall r :: r in RecordsFor(su, core, ks) ==> r.key in ProcessKeys(su, core, ks + more).seen
  {
    hide RecordsFor, ProcessKeys;
    SeenAfter(su, core, ks + more);
    RecordsMean(su, core, ks);
    var rs := RecordsFor(su, core, ks);
    forall r | r in rs ensures r.key in ks {
      var i :| 0 <= i < |rs| && rs[i] == r;
      assert KeysIn(rs)[i] == r.key;
    }
  }

  lemma SegmentIsSeen<S, B, D, C>(su: Setup<S, B, D, C>, disk: Disk<S, C, D>, ks: seq<Key>, pk: seq<Key>)
    requires su.walEnabled && disk.snapshot.Some? && Backed(su, disk, ks)
    requires forall k :: k in ks + pk ==> k.seqID != 0
    ensures forall r :: r in SegmentOf(disk, disk.snapshot.value.gen) ==> r.key in CoreOf(su, ks + pk).seen
  {
    var cut: nat :| BackedAt(su, disk, ks, cut);
    RecordsAreSeen(su, CoreOf(su, ks[..cut]), ks[cut..], pk);
    CoreSplits(su, ks, cut, pk);
  }

  /** What the current segment of a reachable state adds if it is replayed once more. */
  function Segment<S, B, D, C>(su: Setup<S, B, D, C>, s: System<S, C, D>): seq<Record<D>> {
    if su.walEnabled then SegmentOf(s.disk, s.vol.gen) else []
  }

  /**
   A crash right after completeClient's snapshot, in any reachable state and for any lawful
   strategy: dedup survives, every item recorded in the current segment counts a second
   time, and every delta recorded there is applied a second time, over the final state.
   */
  lemma CompletionRecounts<S(!new), B(!new), D, C(!new)>(su: Setup<S, B, D, C>, inv: S -> bool, steps: seq<Step<C>>)
    requires Lawful(su, inv)
    ensures var s := Run(su, steps);
      var r := RecoveredCore(su, CompletionDisk<S, B, D, C>(s));
      && r == Core(ApplyAll(su.strategy, s.vol.core.data, DeltasIn(Segment(su, s))), s.vol.core.seen,
                   s.vol.core.items + RecordItems(Segment(su, s)))
      && (r.items == s.vol.core.items <==> RecordItems(Segment(su, s)) == 0)
  {
    hide Run, Lawful, ReplayAll, Segment, ApplyAll, RecordItems, DeltasIn, Explains, CompletionDisk, RecoveredCore;
    var s := Run(su, steps);
    var ks := EveryRunIsExplained(su, inv, steps);
    FinalSegment(su, inv, s, ks);
    ReplayMeans(su, s.vol.core, Segment(su, s));
  }

  /** What a restart from the completion disk replays, over what, and that all of it was seen. */
  lemma FinalSegment<S(!new), B(!new), D, C(!new)>(su: Setup<S, B, D, C>, inv: S -> bool, s: System<S, C, D>, ks: seq<Key>)
    requires Lawful(su, inv) && Explains(su, s, ks)
    ensures RecoveredCore(su, CompletionDisk<S, B, D, C>(s)) == ReplayAll(su, s.vol.core, Segment(su, s))
    ensures forall r :: r in Segment(su, s) ==> r.key in s.vol.core.seen
  {
    hide ReplayAll, Distinct, Backed, RecordsFor, ProcessKeys, Waiting;
    var pk := DataKeys(s.vol.pending);
    ProcessKeysKeeps(su, inv, FreshCore(su), ks + pk);
    if su.walEnabled && s.disk.snapshot.Some? {
      KeysAreNumbered(s, ks);
      SegmentIsSeen(su, s.disk, ks, pk);
    }
    NothingReplayed(su, s.vol.core);
  }

  lemma NothingReplayed<S, B, D, C>(su: Setup<S, B, D, C>, core: Core<S>)
    ensures ReplayAll(su, core, []) == core
  {
  }

  lemma {:induction false} RecordsAbsorbed<S(!new), B(!new), D(!new), C>(su: Setup<S, B, D, C>, inv: S -> bool, core: Core<S>, ks: seq<Key>, more: seq<Key>)
    requires Lawful(su, inv) && Absorbing(su.strategy, inv) && inv(core.data)
    requires forall k :: k in ks ==> k.seqID != 0
    ensures var end := ProcessKeys(su, core, ks + more);
      forall r :: r in RecordsFor(su, core, ks) ==>
        r.key in end.seen && ApplyDelta(su.strategy, end.data, r.delta) == end.data
    decreases |ks + more|
  {
    if more != [] {
      var front := more[..|more| - 1];
      RecordsAbsorbed(su, inv, core, ks, front);
      ProcessKeysKeeps(su, inv, core, ks + front);
      assert ks + more == (ks + front) + [more[|more| - 1]];
      RecordsForExtend(su, core, ks + front, more[|more| - 1]);
    } else if ks != [] {
      var front := ks[..|ks| - 1];
      RecordsAbsorbed(su, inv, core, front, []);
      assert front + [] == front && ks + [] == ks;
      ProcessKeysKeeps(su, inv, core, front);
    }
  }

  /**
   For an absorbing strategy that is all: its data survives unchanged, and the whole core
   survives exactly when the segment records no items.
   */
  lemma CompletionWindow<S(!new), B(!new), D(!new), C(!new)>(su: Setup<S, B, D, C>, inv: S -> bool, steps: seq<Step<C>>)
    requires Lawful(su, inv) && Absorbing(su.strategy, inv)
    ensures var s := Run(su, steps);
      var again := RecordItems(Segment(su, s));
      && RecoveredCore(su, CompletionDisk<S, B, D, C>(s)) == s.vol.core.(items := s.vol.core.items + again)
      && (RecoveredCore(su, CompletionDisk<S, B, D, C>(s)) == s.vol.core <==> again == 0)
  {
    var s := Run(su, steps);
    var ks := EveryRunIsExplained(su, inv, steps);
    CompletionRecounts(su, inv, steps);
    if su.walEnabled && s.disk.snapshot.Some? {
      KeysAreNumbered(s, ks);
      SegmentAbsorbed(su, inv, s.disk, ks, DataKeys(s.vol.pending));
    }
    ApplyAllIdle(su.strategy, s.vol.core.data, DeltasIn(Segment(su, s)));
  }

  /** Two batches of a log-mode worker: the first makes the snapshot, the second is logged. */
  lemma LoggedSecondBatch<S, B, D, C>(su: Setup<S, B, D, C>, first: Key, second: Key)
    returns (steps: seq<Step<C>>)
    requires su.walEnabled && first.seqID != 0 && second.seqID != 0 && first != second
    ensures var s, core := Run(su, steps), Process(su, FreshCore(su), first);
      && s.vol.core == Process(su, core, second) && s.vol.pending == []
      && s.published == {Data(1, first), Data(2, second)}
      && Segment(su, s) == [RecordOf(su, core, second)]
  {
    var d1, d2 := Data(1, first), Data(2, second);
    steps := [Publish(d1), Deliver(d1), Checkpoint(false), Publish(d2), Deliver(d2), Checkpoint(false)];
    SixSteps(su, steps);
    var s1 := FirstBatchSaved(su, d1);
    SecondBatchLogged(su, s1, d2);
  }

  lemma FirstBatchSaved<S, B, D, C>(su: Setup<S, B, D, C>, d: Delivery)
    returns (s: System<S, C, D>)
    requires su.walEnabled && d.Data? && d.key.seqID != 0
    ensures s == Next(su, Next(su, Next(su, Initial(su), Publish(d)), Deliver(d)), Checkpoint(false))
    ensures s.vol == Volatile(Process(su, FreshCore(su), d.key), su.freshCoord, 0, Some(0), [], true, [])
    ensures s.published == {d} && s.inbox == {} && SegmentOf(s.disk, 0) == []
  {
    hide CheckpointOps, WriteAll, Process;
    var s2 := Next(su, Next(su, Initial(su), Publish(d)), Deliver(d));
    FirstCheckpoint(su, s2.disk, s2.vol);
    s := Next(su, s2, Checkpoint(false));
  }

  lemma SecondBatchLogged<S, B, D, C>(su: Setup<S, B, D, C>, s: System<S, C, D>, d: Delivery)
    requires su.walEnabled && d.Data? && d.key.seqID != 0 && d !in s.published && d.key !in s.vol.core.seen
    requires s.vol.snapped && s.vol.pending == [] && s.vol.pendingDeltas == []
    requires s.vol.gen == 0 && s.vol.log == Some(0) && SegmentOf(s.disk, 0) == []
    ensures var t := Next(su, Next(su, Next(su, s, Publish(d)), Deliver(d)), Checkpoint(false));
      && t.vol.core == Process(su, s.vol.core, d.key) && t.vol.pending == []
      && t.published == s.published + {d}
      && Segment(su, t) == [RecordOf(su, s.vol.core, d.key)]
  {
    hide CheckpointOps, WriteAll, Process, RecordOf;
    var t := Next(su, Next(su, s, Publish(d)), Deliver(d));
    AppendCheckpoint(su, t.disk, t.vol);
  }

  /** A run of a log-mode worker after which completing the client counts a batch twice. */
  lemma BatchRecounted<S(!new), B(!new), D, C(!new)>(su: Setup<S, B, D, C>, inv: S -> bool, first: Key, second: Key)
    returns (steps: seq<Step<C>>)
    requires Lawful(su, inv) && su.walEnabled && first.seqID != 0 && second.seqID != 0 && first != second
    requires su.itemsOf(su.batchOf(second)) > 0
    ensures var s := Run(su, steps);
      && s.vol.core.items == su.itemsOf(su.batchOf(first)) + su.itemsOf(su.batchOf(second))
      && RecoveredCore(su, CompletionDisk<S, B, D, C>(s)).items == s.vol.core.items + su.itemsOf(su.batchOf(second))
  {
    hide Run, Lawful, CompletionDisk, RecoveredCore, Segment;
    steps := LoggedSecondBatch(su, first, second);
    CompletionRecounts(su, inv, steps);
    var rs := Segment(su, Run(su, steps));
    assert rs[..|rs| - 1] == [];
  }

  lemma SegmentAbsorbed<S(!new), B(!new), D(!new), C>(su: Setup<S, B, D, C>, inv: S -> bool, disk: Disk<S, C, D>, ks: seq<Key>, pk: seq<Key>)
    requires su.walEnabled && disk.snapshot.Some? && Backed(su, disk, ks)
    requires Lawful(su, inv) && Absorbing(su.strategy, inv)
    requires forall k :: k in ks + pk ==> k.seqID != 0
    ensures var end := CoreOf(su, ks + pk);
      forall r :: r in SegmentOf(disk, disk.snapshot.value.gen) ==>
        r.key in end.seen && ApplyDelta(su.strategy, end.data, r.delta) == end.data
  {
    var cut: nat :| BackedAt(su, disk, ks, cut);
    ProcessKeysKeeps(su, inv, FreshCore(su), ks[..cut]);
    RecordsAbsorbed(su, inv, CoreOf(su, ks[..cut]), ks[cut..], pk);
    CoreSplits(su, ks, cut, pk);
  }
}
