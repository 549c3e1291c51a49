/**
 The worker's message handlers on its per-client maps (src/worker/runtime/runtime.go),
 proved to do to each client what the functions of ClientRuntime say and nothing to
 the others, and to keep the ack books straight.
 */
module WorkerRuntime {
  import opened Common
  import opened DeltaStrategies
  import opened ClientRuntime
  import opened AckLedger
  import Wal

  type Positive = x: nat | x > 0 witness 1

  const COMPACTION_FLOOR_BYTES: nat := 0x10_0000

  function Tagged<S, C, D>(c: ClientID, ops: seq<DiskOp<S, C, D>>): seq<(ClientID, DiskOp<S, C, D>)> {
    seq(|ops|, i requires 0 <= i < |ops| => (c, ops[i]))
  }

  /** What flushing does to one client: nothing without pending deliveries, else one checkpoint. */
  ghost predicate Flushed<S, B, D, C>(su: Setup<S, B, D, C>, v: Volatile<S, C, D>, d: Disk<S, C, D>, v': Volatile<S, C, D>, d': Disk<S, C, D>) {
    if v.pending == [] then v' == v && d' == d
    else exists compact :: CheckpointedTo(su, v, d, v', d', compact)
  }

  ghost predicate CheckpointedTo<S, B, D, C>(su: Setup<S, B, D, C>, v: Volatile<S, C, D>, d: Disk<S, C, D>, v': Volatile<S, C, D>, d': Disk<S, C, D>, compact: bool) {
    v' == Checkpointed(su, v, compact) && d' == WriteAll(d, CheckpointOps(su, v, compact))
  }

  /** The writes of a client's first checkpoint, made part by part. */
  lemma FirstInParts<S, B, D, C>(c: ClientID, su: Setup<S, B, D, C>, v: Volatile<S, C, D>, disk: Disk<S, C, D>)
    requires su.walEnabled && !v.snapped
    ensures var ops, snap := CheckpointOps(su, v, false), WriteSnapshot(SnapshotOf(v, v.gen));
      && WriteAll(disk, ops) == Write(WriteAll(disk, OpenOps(v)), snap)
      && Tagged(c, ops) == Tagged(c, OpenOps(v)) + [(c, snap)]
  {
    WriteAfter(disk, OpenOps(v), WriteSnapshot(SnapshotOf(v, v.gen)));
  }

  /** And those of a later one. */
  lemma LaterInParts<S, B, D, C>(c: ClientID, su: Setup<S, B, D, C>, v: Volatile<S, C, D>, disk: Disk<S, C, D>, compact: bool)
    requires su.walEnabled && v.snapped
    ensures var ops, rotate := CheckpointOps(su, v, compact), if compact then CompactionOps(v) else [];
      && WriteAll(disk, ops) == WriteAll(WriteAll(WriteAll(disk, OpenOps(v)), AppendOps(v)), rotate)
      && Tagged(c, ops) == (Tagged(c, OpenOps(v)) + Tagged(c, AppendOps(v))) + Tagged(c, rotate)
  {
    WriteAllAppend(disk, OpenOps(v), AppendOps(v));
    WriteAllAppend(disk, OpenOps(v) + AppendOps(v), if compact then CompactionOps(v) else []);
  }

  lemma CompletionInParts<S, B, D, C>(c: ClientID, su: Setup<S, B, D, C>, v: Volatile<S, C, D>, disk: Disk<S, C, D>)
    ensures WriteAll(disk, CompletionOps(su, v)) == WriteAll(Write(disk, WriteSnapshot(SnapshotOf(v, v.gen))), CleanupOps(su))
    ensures Tagged(c, CompletionOps(su, v)) == [(c, WriteSnapshot(SnapshotOf(v, v.gen)))] + Tagged(c, CleanupOps(su))
  {
    WriteAllAppend(disk, [WriteSnapshot(SnapshotOf(v, v.gen))], CleanupOps(su));
    WriteOne(disk, WriteSnapshot(SnapshotOf(v, v.gen)));
  }

  lemma CompactionInParts<S, C, D>(c: ClientID, v: Volatile<S, C, D>, disk: Disk<S, C, D>)
    ensures var next := Wal.NextGen(v.gen);
      var snap: DiskOp<S, C, D> := WriteSnapshot(SnapshotOf(v, next));
      && WriteAll(disk, CompactionOps(v)) == Write(Write(Write(disk, snap), CreateSegment(next)), RemoveSegment(v.gen))
      && Tagged(c, CompactionOps(v)) == [(c, snap), (c, CreateSegment(next)), (c, RemoveSegment(v.gen))]
  {
    WriteThree(disk, CompactionOps(v));
  }

  /** Opening the log changes neither what is appended nor how it is compacted. */
  lemma OpenedAlike<S, C, D>(v: Volatile<S, C, D>, w: Volatile<S, C, D>)
    requires w == v.(log := w.log)
    ensures AppendOps(w) == AppendOps(v) && CompactionOps(w) == CompactionOps(v)
  {
  }

  lemma CleanupInParts<S, B, D, C>(c: ClientID, su: Setup<S, B, D, C>, disk: Disk<S, C, D>)
    ensures if su.walEnabled then
        && WriteAll(disk, CleanupOps(su)) == Write(Write(disk, RemoveSegments), RemoveSnapshot)
        && Tagged(c, CleanupOps(su)) == [(c, RemoveSegments), (c, RemoveSnapshot)]
      else
        && WriteAll(disk, CleanupOps(su)) == Write(disk, RemoveSnapshot)
        && Tagged(c, CleanupOps(su)) == [(c, RemoveSnapshot)]
  {
    if su.walEnabled {
      WriteOne(disk, RemoveSegments);
      WriteAfter(disk, [RemoveSegments], RemoveSnapshot);
      assert CleanupOps(su) == [RemoveSegments] + [RemoveSnapshot];
    } else {
      WriteOne(disk, RemoveSnapshot);
      assert CleanupOps(su) == [RemoveSnapshot];
    }
  }

  lemma ClockKeys(m: map<ClientID, seq<Delivery>>, since: map<ClientID, nat>, total: nat)
    requires Balanced(m, since, total)
    ensures since.Keys == m.Keys
  {
  }

  lemma NothingYet()
    ensures Balanced(map[], map[], 0) && AckedOnce(map[], [])
  {
  }

  lemma NothingRecovered<S, B, D, C>(su: Setup<S, B, D, C>)
    ensures Recovered(su, Disk(None, map[])) == Volatile(FreshCore(su), su.freshCoord, 0, None, [], false, [])
    ensures forall d: Disk<S, C, D> :: Write(d, RemoveSnapshot) == d.(snapshot := None)
  {
  }

  lemma NothingToRemove<S, C, D>()
    ensures Write(Disk<S, C, D>.Disk(None, map[]), RemoveSnapshot) == Disk(None, map[])
  {
  }

  lemma AcceptIsAppend<S, B, D, C>(su: Setup<S, B, D, C>, v: Volatile<S, C, D>, d: Delivery)
    requires d.Data?
    ensures Accept(su, v, d).pending == v.pending + [d]
  {
  }

  /** A batch without a number is not remembered. */
  lemma SeenOnceProcessed<S, B, D, C>(su: Setup<S, B, D, C>, core: Core<S>, key: Key)
    ensures ClientRuntime.Process(su, core, key).seen == core.seen + (if key.seqID == 0 then {} else {key})
  {
  }

  lemma NothingPendingLeft<S, B, D, C>(su: Setup<S, B, D, C>, v: Volatile<S, C, D>, compact: bool)
    ensures Checkpointed(su, v, compact).(pending := v.pending).(pending := []) == Checkpointed(su, v, compact)
  {
  }

  lemma CleanedIgnoresPending<S, B, D, C>(su: Setup<S, B, D, C>, v: Volatile<S, C, D>)
    ensures Cleaned(su, v.(pending := [])) == Cleaned(su, v)
  {
  }

  lemma FreshAfterAck(m: map<ClientID, seq<Delivery>>, acked: seq<Delivery>, c: ClientID, d: Delivery)
    requires Fresh(m, acked, d)
    ensures Fresh(m - {c}, acked + Pending(m, c), d)
  {
  }

  lemma NoClock(m: map<ClientID, seq<Delivery>>, since: map<ClientID, nat>, total: nat, c: ClientID)
    requires Balanced(m, since, total) && c !in m
    ensures c !in since
  {
  }

  /** Log bookkeeping of one client: the open segment and its size, generation, buffered records. */
  datatype LogState<D> = LogState(open: Option<U64>, size: nat, gen: U64, pendingDeltas: seq<Record<D>>, lastSnapSize: nat)

  class Worker<S, B, D, C> {
    const NO_LOG: LogState<D> := LogState(None, 0, 0, [], 0)
    const su: Setup<S, B, D, C>
    const checkpointInterval: nat
    const prefetch: nat
    const compactionFactor: nat
    const recordSize: Record<D> -> nat
    const snapshotSize: Snapshot<S, C> -> Positive

    // The strategy's verdicts: has the batch completed its client; is an EOF or token a
    // duplicate; what one does to the coordinator, given the local item count.
    const completedBy: (S, B) -> bool
    const isDuplicate: (C, Delivery) -> bool
    const coordinate: (C, Delivery, nat) -> (C, bool)

    // Per client, where the source has one map per component and an absent key reads as zero:
    // strategy state with dedup set and item count, coordinator state, log bookkeeping.
    var cores: map<ClientID, Core<S>>
    var coord: map<ClientID, C>
    var logs: map<ClientID, LogState<D>>

    // deliveries waiting for a checkpoint
    var pendingAcks: map<ClientID, seq<Delivery>>
    var firstPendingAt: map<ClientID, nat>
    var totalPending: nat
    var acked: seq<Delivery>
    var tombstones: map<ClientID, nat>

    // the checkpoint directory, and every write made to it in order
    var disk: map<ClientID, Disk<S, C, D>>
    ghost var writes: seq<(ClientID, DiskOp<S, C, D>)>

    // ---- restart --------------------------------------------------------------

    /**
     loadCheckpoints: memory is rebuilt for every client that has a checkpoint file; a
     client that is known to be dead has its file removed instead.
     */
    constructor Load(su: Setup<S, B, D, C>, checkpointInterval: nat, prefetch: nat, compactionFactor: nat,
                     recordSize: Record<D> -> nat, snapshotSize: Snapshot<S, C> -> Positive,
                     completedBy: (S, B) -> bool, isDuplicate: (C, Delivery) -> bool,
                     coordinate: (C, Delivery, nat) -> (C, bool),
                     disk: map<ClientID, Disk<S, C, D>>, tombstones: map<ClientID, nat>)
      requires 0 < checkpointInterval <= prefetch
      ensures Valid() && totalPending == 0 && acked == [] && pendingAcks == map[]
      ensures this.su == su && this.checkpointInterval == checkpointInterval && this.prefetch == prefetch
      ensures this.tombstones == tombstones
      ensures forall c :: c !in tombstones ==>
        var d := if c in disk then disk[c] else NO_DISK;
        Slice(c) == Recovered(su, d) && DiskFor(c) == d
      ensures forall c :: c in tombstones ==>
        && Slice(c) == Volatile(FreshCore(su), su.freshCoord, 0, None, [], false, []) && DiskFor(c).snapshot.None?
        && DiskFor(c).segments == if c in disk then disk[c].segments else map[]
    {
      this.su, this.checkpointInterval, this.prefetch := su, checkpointInterval, prefetch;
      this.compactionFactor, this.recordSize, this.snapshotSize := compactionFactor, recordSize, snapshotSize;
      this.completedBy, this.isDuplicate, this.coordinate := completedBy, isDuplicate, coordinate;
      cores, coord, logs := map[], map[], map[];
      pendingAcks, firstPendingAt, totalPending, acked := map[], map[], 0, [];
      this.tombstones := tombstones;
      this.disk, writes := disk, [];
      new;
      hide Balanced, AckedOnce, Write, Recovered, LogTrue;
      assert Books() by { NothingYet(); }
      LoadAll(disk);
      NothingRecovered(su);
      forall c | c in tombstones
        ensures Slice(c) == Volatile(FreshCore(su), su.freshCoord, 0, None, [], false, []) && DiskFor(c).snapshot.None?
        ensures DiskFor(c).segments == if c in disk then disk[c].segments else map[]
      {
        assert Loaded(c, if c in disk then disk[c] else NO_DISK);
      }
    }

    method LoadAll(found: map<ClientID, Disk<S, C, D>>)
      requires disk == found
      requires forall c :: Slice(c) == Recovered(su, NO_DISK)
      modifies this`cores, this`coord, this`logs, this`disk, this`writes
      ensures LogsValid()
      ensures forall c :: Loaded(c, if c in found then found[c] else NO_DISK)
    {
      hide Write, Recovered, Slice, LogTrue;
      NothingToRemove<S, C, D>();
      forall c | c !in found ensures LogTrue(LogFor(c), DiskFor(c)) {
        NoFileNoLog(c);
      }
      var todo := found.Keys;
      while todo != {}
        invariant disk.Keys == found.Keys && todo <= found.Keys
        invariant forall c :: c !in todo ==> LogTrue(LogFor(c), DiskFor(c))
        invariant forall c :: c !in todo ==> Loaded(c, if c in found then found[c] else NO_DISK)
        invariant forall c :: c in todo ==> Slice(c) == Recovered(su, NO_DISK) && DiskFor(c) == found[c]
      {
        var c :| c in todo;
        LoadClient(c);
        todo := todo - {c};
      }
    }

    const NO_DISK: Disk<S, C, D> := Disk(None, map[])

    /** The client is as its checkpoint directory, d, tells it. */
    ghost predicate Loaded(c: ClientID, d: Disk<S, C, D>)
      reads this
    {
      if c in tombstones then Slice(c) == Recovered(su, NO_DISK) && DiskFor(c) == Write(d, RemoveSnapshot)
      else Slice(c) == Recovered(su, d) && DiskFor(c) == d
    }

    lemma NoFileNoLog(c: ClientID)
      requires Slice(c) == Recovered(su, NO_DISK) && DiskFor(c).snapshot.None?
      ensures LogTrue(LogFor(c), DiskFor(c))
    {
    }

    method LoadClient(c: ClientID)
      requires c in disk && Slice(c) == Recovered(su, NO_DISK)
      modifies this`cores, this`coord, this`logs, this`disk, this`writes
      ensures disk.Keys == old(disk).Keys
      ensures LogTrue(LogFor(c), DiskFor(c)) && forall x :: x != c ==> LogFor(x) == old(LogFor(x))
      ensures Loaded(c, old(disk[c]))
      ensures OthersKept(c)
    {
      hide ReplayAll, SegmentOf, ReadCore, SizeOf;
      var d := DiskFor(c);
      if c in tombstones {
        Perform(c, RemoveSnapshot);
      } else if d.snapshot.Some? {
        Rebuild(c, d.snapshot.value, SegmentOf(d, d.snapshot.value.gen));
      }
    }

    /** What loadCheckpoints does with one readable checkpoint file. */
    method Rebuild(c: ClientID, snap: Snapshot<S, C>, records: seq<Record<D>>)
      modifies this`cores, this`coord, this`logs
      ensures coord == old(coord)[c := snap.coord]
      ensures var core := ReadCore(su, snap.core);
        cores == old(cores)[c := if su.walEnabled then ReplayAll(su, core, records) else core]
      ensures logs == if su.walEnabled
        then old(logs)[c := old(LogFor(c)).(gen := snap.gen, lastSnapSize := snapshotSize(snap))] else old(logs)
    {
      hide ReplayAll, ReadCore;
      coord := coord[c := snap.coord];
      cores := cores[c := ReadCore(su, snap.core)];
      if su.walEnabled {
        ReplayWAL(c, records);
        logs := logs[c := LogFor(c).(gen := snap.gen, lastSnapSize := snapshotSize(snap))];
      }
    }

    /** replayWAL: every record of the segment is applied, marked as seen and counted. */
    method ReplayWAL(c: ClientID, records: seq<Record<D>>)
      modifies this`cores
      ensures CoreFor(c) == ReplayAll(su, old(CoreFor(c)), records)
      ensures cores == old(cores)[c := CoreFor(c)]
    {
      ghost var base, kept := CoreFor(c), cores;
      cores := cores[c := CoreFor(c)];
      for i := 0 to |records|
        invariant c in cores && cores[c] == ReplayAll(su, base, records[..i])
        invariant cores == kept[c := cores[c]]
      {
        assert records[..i + 1][..i] == records[..i];
        var rec, core := records[i], cores[c];
        var data := ApplyDelta(su.strategy, core.data, rec.delta);
        var seen := DedupAdd(core.seen, rec.key);
        cores := cores[c := Core(data, seen, core.items + rec.items)];
      }
      assert records[..|records|] == records;
    }

    // ---- one client's view ----------------------------------------------------

    function CoreFor(c: ClientID): Core<S>
      reads this`cores
    {
      if c in cores then cores[c] else FreshCore(su)
    }

    function CoordFor(c: ClientID): C
      reads this`coord
    {
      if c in coord then coord[c] else su.freshCoord
    }

    function LogFor(c: ClientID): LogState<D>
      reads this`logs
    {
      if c in logs then logs[c] else NO_LOG
    }

    function Slice(c: ClientID): Volatile<S, C, D>
      reads this`cores, this`coord, this`logs, this`pendingAcks
    {
      var log := LogFor(c);
      Volatile(CoreFor(c), CoordFor(c), log.gen, log.open, log.pendingDeltas, log.lastSnapSize != 0, Pending(pendingAcks, c))
    }

    function DiskFor(c: ClientID): Disk<S, C, D>
      reads this`disk
    {
      if c in disk then disk[c] else NO_DISK
    }

    ghost predicate Books()
      reads this
    {
      Balanced(pendingAcks, firstPendingAt, totalPending) && AckedOnce(pendingAcks, acked)
    }

    /**
     What a log's numbers stand for: an open log is the only segment on disk, of the current
     generation, and its size is that of the records in it; there is a snapshot on disk if
     and only if a snapshot's size is known, and that is its size.
     */
    ghost predicate LogTrue(log: LogState<D>, d: Disk<S, C, D>) {
      if su.walEnabled then
        && (log.open.Some? ==>
              log.open.value == log.gen && OneSegment(d, log.gen) && log.size == SizeOf(SegmentOf(d, log.gen)))
        && SnapshotTrue(log, d)
      else
        log.open.None? && log.lastSnapSize == 0 && log.gen == 0
    }

    ghost predicate OneSegment(d: Disk<S, C, D>, gen: U64) {
      d.segments.Keys == {gen}
    }

    ghost predicate SnapshotTrue(log: LogState<D>, d: Disk<S, C, D>) {
      && (log.lastSnapSize != 0 <==> d.snapshot.Some?)
      && (d.snapshot.Some? ==> d.snapshot.value.gen == log.gen && log.lastSnapSize == snapshotSize(d.snapshot.value))
    }

    ghost predicate LogsValid()
      reads this`logs, this`disk
    {
      forall c :: LogTrue(LogFor(c), DiskFor(c))
    }

    /** All of them but one, while a client's last snapshot is written and its files go. */
    ghost predicate LogsValidBut(c: ClientID)
      reads this`logs, this`disk
    {
      forall x :: (x == c && su.walEnabled) || LogTrue(LogFor(x), DiskFor(x))
    }

    ghost predicate Valid()
      reads this
    {
      Books() && LogsValid() && 0 < checkpointInterval <= prefetch
    }

    twostate predicate OthersKept(c: ClientID)
      reads this
    {
      forall x :: x != c ==> Slice(x) == old(Slice(x)) && DiskFor(x) == old(DiskFor(x))
    }

    // ---- disk writes ----------------------------------------------------------

    method Perform(c: ClientID, op: DiskOp<S, C, D>)
      modifies this`disk, this`writes
      ensures disk == old(disk)[c := Write(old(DiskFor(c)), op)]
      ensures writes == old(writes) + [(c, op)]
    {
      hide Write;
      disk := disk[c := Write(DiskFor(c), op)];
      writes := writes + [(c, op)];
    }

    /** walFor: opens the segment of the current generation on first use. */
    method WalFor(c: ClientID)
      requires LogsValid() && su.walEnabled
      modifies this`disk, this`writes, this`logs
      ensures LogsValid() && LogFor(c).(size := 0) == old(LogFor(c)).(open := Some(old(LogFor(c)).gen), size := 0)
      ensures logs == old(logs)[c := LogFor(c)]
      ensures disk == old(disk)[c := WriteAll(old(DiskFor(c)), OpenOps(old(Slice(c))))]
      ensures writes == old(writes) + Tagged(c, OpenOps(old(Slice(c))))
    {
      hide Balanced, AckedOnce, LogTrue, SizeOf, Write, SegmentOf;
      var log := LogFor(c);
      ghost var before := DiskFor(c);
      assert LogTrue(log, before);
      if log.open.None? {
        WriteOne(before, OpenSegment(log.gen));
        Opened(log, before);
        Perform(c, OpenSegment(log.gen));
        log := log.(open := Some(log.gen), size := SizeOf(SegmentOf(DiskFor(c), log.gen)));
      } else {
        OpenIsCurrent(log, before);
        disk := disk[c := DiskFor(c)];
      }
      logs := logs[c := log];
      StillTrue(c);
    }

    twostate lemma StillTrue(c: ClientID)
      requires old(LogsValid()) && LogTrue(LogFor(c), DiskFor(c))
      requires logs == old(logs)[c := LogFor(c)] && disk == old(disk)[c := DiskFor(c)]
      ensures LogsValid()
    {
      hide LogTrue;
      forall x ensures LogTrue(LogFor(x), DiskFor(x)) {
        assert x != c ==> LogTrue(old(LogFor(x)), old(DiskFor(x)));
      }
    }

    function SizeOf(rs: seq<Record<D>>): nat {
      if rs == [] then 0 else SizeOf(rs[..|rs| - 1]) + recordSize(rs[|rs| - 1])
    }

    lemma {:induction false} SizeOfAppended(a: seq<Record<D>>, b: seq<Record<D>>)
      ensures SizeOf(a + b) == SizeOf(a) + SizeOf(b)
    {
      if b == [] {
        assert a + b == a;
      } else {
        var front := b[..|b| - 1];
        SizeOfAppended(a, front);
        assert (a + b)[..|a + b| - 1] == a + front;
      }
    }

    /**
     Counted this way, the size of a log is the length of its segment, whatever the payloads
     are: each record takes its frame.
     */
    lemma {:induction false} SizeIsFramedLength(crc: Wal.Checksum, payload: Record<D> -> Wal.Payload, rs: seq<Record<D>>)
      requires forall r :: recordSize(r) == Wal.RECORD_HEADER_SIZE + |payload(r)|
      ensures SizeOf(rs) == |Wal.Frames(crc, seq(|rs|, i requires 0 <= i < |rs| => payload(rs[i])))|
    {
      var ps := seq(|rs|, i requires 0 <= i < |rs| => payload(rs[i]));
      if rs != [] {
        var rest := rs[1..];
        SizeIsFramedLength(crc, payload, rest);
        assert ps[1..] == seq(|rest|, i requires 0 <= i < |rest| => payload(rest[i]));
        assert [rs[0]][..0] == [] && SizeOf([rs[0]]) == recordSize(rs[0]);
        SizeOfAppended([rs[0]], rest);
        assert rs == [rs[0]] + rest;
      }
    }

    // ---- what each write does to a log's numbers --------------------------------

    lemma Opened(log: LogState<D>, d: Disk<S, C, D>)
      requires su.walEnabled && LogTrue(log, d) && log.open.None?
      ensures var d' := Write(d, OpenSegment(log.gen));
        LogTrue(log.(open := Some(log.gen), size := SizeOf(SegmentOf(d', log.gen))), d')
    {
      hide SizeOf;
    }

    lemma Appended(log: LogState<D>, d: Disk<S, C, D>, rs: seq<Record<D>>)
      requires su.walEnabled && LogTrue(log, d) && log.open.Some?
      ensures LogTrue(log.(size := log.size + SizeOf(rs), pendingDeltas := []), Write(d, AppendRecords(log.gen, rs)))
    {
      hide SizeOf, Write, SegmentOf, SnapshotTrue, OneSegment;
      SizeOfAppended(SegmentOf(d, log.gen), rs);
      OneSegmentGrows(d, log.gen, rs);
      var log' := log.(size := log.size + SizeOf(rs), pendingDeltas := []);
      SameSnapshot(log, d, log', Write(d, AppendRecords(log.gen, rs)));
    }

    lemma SameSnapshot(log: LogState<D>, d: Disk<S, C, D>, log': LogState<D>, d': Disk<S, C, D>)
      requires d'.snapshot == d.snapshot && log'.gen == log.gen && log'.lastSnapSize == log.lastSnapSize
      ensures SnapshotTrue(log', d') == SnapshotTrue(log, d)
    {
    }

    lemma OneSegmentGrows(d: Disk<S, C, D>, gen: U64, rs: seq<Record<D>>)
      ensures var d' := Write(d, AppendRecords(gen, rs));
        && d'.snapshot == d.snapshot && SegmentOf(d', gen) == SegmentOf(d, gen) + rs
        && (OneSegment(d, gen) ==> OneSegment(d', gen))
    {
    }

    lemma SnapshotWritten(log: LogState<D>, d: Disk<S, C, D>, snap: Snapshot<S, C>)
      requires su.walEnabled && LogTrue(log, d) && snap.gen == log.gen
      ensures LogTrue(log.(lastSnapSize := snapshotSize(snap), pendingDeltas := []), Write(d, WriteSnapshot(snap)))
    {
      hide SizeOf;
    }

    lemma Rotated(log: LogState<D>, d: Disk<S, C, D>, snap: Snapshot<S, C>)
      requires su.walEnabled && LogTrue(log, d) && log.open.Some? && snap.gen == Wal.NextGen(log.gen)
      ensures var d' := Write(Write(Write(d, WriteSnapshot(snap)), CreateSegment(snap.gen)), RemoveSegment(log.gen));
        LogTrue(log.(gen := snap.gen, open := Some(snap.gen), size := 0, lastSnapSize := snapshotSize(snap)), d')
    {
    }

    lemma DeltasDoNotCount(log: LogState<D>, d: Disk<S, C, D>, deltas: seq<Record<D>>)
      requires LogTrue(log, d)
      ensures LogTrue(log.(pendingDeltas := deltas), d)
    {
      hide SizeOf;
    }

    method WriteWALSnapshot(c: ClientID, gen: U64)
      modifies this`disk, this`writes, this`logs
      ensures logs == old(logs)[c := LogFor(c)]
      ensures LogFor(c) == old(LogFor(c)).(gen := gen, lastSnapSize := snapshotSize(SnapshotOf(old(Slice(c)), gen)))
      ensures disk == old(disk)[c := Write(old(DiskFor(c)), WriteSnapshot(SnapshotOf(old(Slice(c)), gen)))]
      ensures writes == old(writes) + [(c, WriteSnapshot(SnapshotOf(old(Slice(c)), gen)))]
    {
      var snap := Snapshot(CoreFor(c), CoordFor(c), gen);
      logs := logs[c := LogFor(c).(gen := gen)];
      Perform(c, WriteSnapshot(snap));
      logs := logs[c := LogFor(c).(lastSnapSize := snapshotSize(snap))];
    }

    /** compactWAL: snapshot for the next generation, then rotate the segment. */
    method CompactWAL(c: ClientID)
      requires LogsValid() && su.walEnabled && LogFor(c).open.Some?
      modifies this`disk, this`writes, this`logs
      ensures LogsValid()
      ensures var next := Wal.NextGen(old(LogFor(c)).gen);
        LogFor(c) == old(LogFor(c)).(gen := next, open := Some(next), size := 0, lastSnapSize := snapshotSize(SnapshotOf(old(Slice(c)), next)))
      ensures logs == old(logs)[c := LogFor(c)]
      ensures disk == old(disk)[c := WriteAll(old(DiskFor(c)), CompactionOps(old(Slice(c))))]
      ensures writes == old(writes) + Tagged(c, CompactionOps(old(Slice(c))))
    {
      hide Write, WriteAll, Tagged, CompactionOps, SnapshotOf, Wal.NextGen, LogTrue;
      CompactionInParts(c, Slice(c), DiskFor(c));
      OpenIsCurrent(LogFor(c), DiskFor(c));
      var gen := LogFor(c).open.value;
      var next := Wal.NextGen(gen);
      SnapshotGen(Slice(c), next);
      Rotated(LogFor(c), DiskFor(c), SnapshotOf(Slice(c), next));
      WriteWALSnapshot(c, next);
      Perform(c, CreateSegment(next));
      Perform(c, RemoveSegment(gen));
      logs := logs[c := LogFor(c).(open := Some(next), size := 0)];
      StillTrue(c);
    }

    lemma OpenIsCurrent(log: LogState<D>, d: Disk<S, C, D>)
      requires su.walEnabled && LogTrue(log, d) && log.open.Some?
      ensures log.open.value == log.gen && log.size == SizeOf(SegmentOf(d, log.gen))
    {
    }

    lemma SnapshotGen(v: Volatile<S, C, D>, gen: U64)
      ensures SnapshotOf(v, gen).gen == gen
    {
    }

    /** The append of walCheckpoint; with nothing buffered, nothing is written. */
    method AppendBuffered(c: ClientID)
      requires LogsValid() && su.walEnabled && LogFor(c).open.Some?
      modifies this`disk, this`writes, this`logs
      ensures LogsValid()
      ensures LogFor(c) == old(LogFor(c)).(pendingDeltas := [], size := old(LogFor(c)).size + SizeOf(old(LogFor(c)).pendingDeltas))
      ensures logs == old(logs)[c := LogFor(c)]
      ensures disk == old(disk)[c := WriteAll(old(DiskFor(c)), AppendOps(old(Slice(c))))]
      ensures writes == old(writes) + Tagged(c, AppendOps(old(Slice(c))))
    {
      hide LogTrue, Write;
      var log := LogFor(c);
      var recs := log.pendingDeltas;
      OpenIsCurrent(log, DiskFor(c));
      if |recs| > 0 {
        Appended(log, DiskFor(c), recs);
        WriteOne(DiskFor(c), AppendRecords(log.open.value, recs));
        Perform(c, AppendRecords(log.open.value, recs));
        log := log.(size := log.size + SizeOf(recs), pendingDeltas := []);
      } else {
        disk := disk[c := DiskFor(c)];
      }
      logs := logs[c := log];
      StillTrue(c);
    }

    /** The first checkpoint of a client is a snapshot; the log starts empty behind it. */
    method FirstSnapshot(c: ClientID)
      requires LogsValid() && su.walEnabled && LogFor(c).open.Some? && LogFor(c).lastSnapSize == 0
      modifies this`disk, this`writes, this`logs
      ensures LogsValid()
      ensures LogFor(c) == old(LogFor(c)).(pendingDeltas := [], lastSnapSize := snapshotSize(SnapshotOf(old(Slice(c)), old(LogFor(c)).gen)))
      ensures logs == old(logs)[c := LogFor(c)]
      ensures var snap := WriteSnapshot(SnapshotOf(old(Slice(c)), old(LogFor(c)).gen));
        disk == old(disk)[c := Write(old(DiskFor(c)), snap)] && writes == old(writes) + [(c, snap)]
    {
      hide Write, LogTrue, SnapshotOf;
      ghost var log := LogFor(c);
      OpenIsCurrent(log, DiskFor(c));
      SnapshotGen(Slice(c), log.gen);
      SnapshotWritten(log, DiskFor(c), SnapshotOf(Slice(c), log.gen));
      WriteWALSnapshot(c, LogFor(c).open.value);
      logs := logs[c := LogFor(c).(pendingDeltas := [])];
      StillTrue(c);
    }

    /** Every later checkpoint appends the buffered records and may compact. */
    method AppendAndCompact(c: ClientID)
      returns (ghost compact: bool)
      requires LogsValid() && su.walEnabled && LogFor(c).open.Some? && LogFor(c).lastSnapSize != 0
      modifies this`disk, this`writes, this`logs
      ensures LogsValid() && LogFor(c).lastSnapSize != 0
      ensures var size := old(LogFor(c)).size + SizeOf(old(LogFor(c)).pendingDeltas);
        compact <==> size >= compactionFactor * old(LogFor(c)).lastSnapSize && size >= COMPACTION_FLOOR_BYTES
      ensures var gen := if compact then Wal.NextGen(old(LogFor(c)).gen) else old(LogFor(c)).gen;
        && LogFor(c).gen == gen && LogFor(c).open == Some(gen) && LogFor(c).pendingDeltas == []
      ensures logs == old(logs)[c := LogFor(c)]
      ensures var v := old(Slice(c));
        var rotate := if compact then CompactionOps(v) else [];
        && disk == old(disk)[c := WriteAll(WriteAll(old(DiskFor(c)), AppendOps(v)), rotate)]
        && writes == old(writes) + Tagged(c, AppendOps(v)) + Tagged(c, rotate)
    {
      hide WriteAll, Tagged, LogTrue, SizeOf;
      AppendBuffered(c);
      OpenIsCurrent(LogFor(c), DiskFor(c));
      compact := CompactIfGrown(c);
    }

    /** walCheckpoint when the client has no snapshot yet. */
    method BeginLog(c: ClientID)
      requires LogsValid() && su.walEnabled && LogFor(c).lastSnapSize == 0
      modifies this`disk, this`writes, this`logs
      ensures LogsValid()
      ensures Slice(c) == Checkpointed(su, old(Slice(c)), false).(pending := old(Slice(c)).pending)
      ensures logs == old(logs)[c := LogFor(c)]
      ensures disk == old(disk)[c := WriteAll(old(DiskFor(c)), CheckpointOps(su, old(Slice(c)), false))]
      ensures writes == old(writes) + Tagged(c, CheckpointOps(su, old(Slice(c)), false))
    {
      hide WriteAll, Write, Tagged, OpenOps, CheckpointOps, LogTrue, SizeOf;
      FirstInParts(c, su, Slice(c), DiskFor(c));
      WalFor(c);
      FirstSnapshot(c);
    }

    /** walCheckpoint when it has one. */
    method ExtendLog(c: ClientID)
      returns (ghost compact: bool)
      requires LogsValid() && su.walEnabled && LogFor(c).lastSnapSize != 0
      modifies this`disk, this`writes, this`logs
      ensures LogsValid()
      ensures Slice(c) == Checkpointed(su, old(Slice(c)), compact).(pending := old(Slice(c)).pending)
      ensures logs == old(logs)[c := LogFor(c)]
      ensures disk == old(disk)[c := WriteAll(old(DiskFor(c)), CheckpointOps(su, old(Slice(c)), compact))]
      ensures writes == old(writes) + Tagged(c, CheckpointOps(su, old(Slice(c)), compact))
      ensures var d := old(DiskFor(c));
        && d.snapshot.Some?
        && var size := SizeOf(SegmentOf(d, d.snapshot.value.gen) + old(Slice(c)).pendingDeltas);
           (compact <==> size >= compactionFactor * snapshotSize(d.snapshot.value) && size >= COMPACTION_FLOOR_BYTES)
    {
      hide WriteAll, Write, Tagged, OpenOps, AppendOps, CompactionOps, CheckpointOps, Wal.NextGen, LogTrue, SizeOf, SegmentOf;
      ghost var v, before := Slice(c), DiskFor(c);
      SnapshotKnown(LogFor(c), before);
      SizeOfAppended(SegmentOf(before, v.gen), v.pendingDeltas);
      WalFor(c);
      OpenedSegment(before, v);
      OpenIsCurrent(LogFor(c), DiskFor(c));
      OpenedAlike(v, Slice(c));
      compact := AppendAndCompact(c);
      LaterInParts(c, su, v, before, compact);
    }

    lemma SnapshotKnown(log: LogState<D>, d: Disk<S, C, D>)
      requires su.walEnabled && LogTrue(log, d)
      ensures log.lastSnapSize != 0 <==> d.snapshot.Some?
      ensures d.snapshot.Some? ==> d.snapshot.value.gen == log.gen && log.lastSnapSize == snapshotSize(d.snapshot.value)
    {
    }

    lemma OpenedSegment(d: Disk<S, C, D>, v: Volatile<S, C, D>)
      ensures SegmentOf(WriteAll(d, OpenOps(v)), v.gen) == SegmentOf(d, v.gen)
    {
      if v.log.None? {
        WriteOne(d, OpenSegment(v.gen));
      }
    }

    /** A checkpoint of a client with a snapshot moves on to the next generation, or keeps the snapshot. */
    lemma GenerationAfter(v: Volatile<S, C, D>, d: Disk<S, C, D>, compact: bool)
      requires su.walEnabled && v.snapped && d.snapshot.Some? && d.snapshot.value.gen == v.gen
      ensures var d' := WriteAll(d, CheckpointOps(su, v, compact));
        d'.snapshot.Some? && (d'.snapshot.value.gen != v.gen <==> compact)
    {
      hide Tagged, Wal.NextGen;
      var afterOpen := WriteAll(d, OpenOps(v));
      var grown := WriteAll(afterOpen, AppendOps(v));
      LaterInParts("", su, v, d, compact);
      if v.log.None? {
        WriteOne(d, OpenSegment(v.gen));
      }
      if v.pendingDeltas != [] {
        WriteOne(afterOpen, AppendRecords(v.gen, v.pendingDeltas));
      }
      CompactionInParts("", v, grown);
    }

    /**
     walCheckpoint: the records reach the disk, and a client with a snapshot moves on to the
     next generation exactly when its segment has then grown to the last snapshot times a
     factor, and to a floor.
     */
    method WalCheckpoint(c: ClientID)
      returns (ghost compact: bool)
      requires LogsValid() && su.walEnabled
      modifies this`disk, this`writes, this`logs
      ensures LogsValid()
      ensures old(DiskFor(c)).snapshot.Some? ==>
        var d, d' := old(DiskFor(c)), DiskFor(c);
        var size := SizeOf(SegmentOf(d, d.snapshot.value.gen) + old(Slice(c)).pendingDeltas);
        && d'.snapshot.Some?
        && (d'.snapshot.value.gen != d.snapshot.value.gen <==>
              size >= compactionFactor * snapshotSize(d.snapshot.value) && size >= COMPACTION_FLOOR_BYTES)
      ensures Slice(c) == Checkpointed(su, old(Slice(c)), compact).(pending := old(Slice(c)).pending)
      ensures logs == old(logs)[c := LogFor(c)]
      ensures disk == old(disk)[c := WriteAll(old(DiskFor(c)), CheckpointOps(su, old(Slice(c)), compact))]
      ensures writes == old(writes) + Tagged(c, CheckpointOps(su, old(Slice(c)), compact))
    {
      hide Checkpointed, CheckpointOps, WriteAll, Tagged, LogTrue, SizeOf, SegmentOf, CoreFor, CoordFor;
      compact := false;
      SnapshotKnown(LogFor(c), DiskFor(c));
      if LogFor(c).lastSnapSize == 0 {
        BeginLog(c);
      } else {
        compact := ExtendLog(c);
        GenerationAfter(old(Slice(c)), old(DiskFor(c)), compact);
      }
    }

    /** Compacts once the segment is larger than the last snapshot times a factor, and than a floor. */
    method CompactIfGrown(c: ClientID)
      returns (ghost compact: bool)
      requires LogsValid() && su.walEnabled && LogFor(c).open.Some?
      modifies this`disk, this`writes, this`logs
      ensures LogsValid()
      ensures LogFor(c).(size := 0, lastSnapSize := 0) == (
        var log := old(LogFor(c)).(size := 0, lastSnapSize := 0);
        var next := Wal.NextGen(log.gen);
        if compact then log.(gen := next, open := Some(next)) else log)
      ensures old(LogFor(c)).lastSnapSize != 0 ==> LogFor(c).lastSnapSize != 0
      ensures logs == old(logs)[c := LogFor(c)]
      ensures var ops := if compact then CompactionOps(old(Slice(c))) else [];
        && disk == old(disk)[c := WriteAll(old(DiskFor(c)), ops)]
        && writes == old(writes) + Tagged(c, ops)
      ensures compact <==>
        old(LogFor(c)).size >= compactionFactor * old(LogFor(c)).lastSnapSize && old(LogFor(c)).size >= COMPACTION_FLOOR_BYTES
    {
      hide LogTrue, SizeOf, CompactionOps, SnapshotOf, Wal.NextGen;
      compact := false;
      var threshold := compactionFactor * LogFor(c).lastSnapSize;
      if threshold < COMPACTION_FLOOR_BYTES {
        threshold := COMPACTION_FLOOR_BYTES;
      }
      if LogFor(c).size >= threshold {
        compact := true;
        CompactWAL(c);
      } else {
        logs := logs[c := LogFor(c)];
        disk := disk[c := DiskFor(c)];
        StillTrue(c);
      }
    }

    /** The snapshot that replaces the log when write-ahead logging is off. */
    method FullCheckpoint(c: ClientID)
      requires LogsValid() && !su.walEnabled
      modifies this`disk, this`writes
      ensures LogsValid()
      ensures disk == old(disk)[c := WriteAll(old(DiskFor(c)), CheckpointOps(su, old(Slice(c)), false))]
      ensures writes == old(writes) + Tagged(c, CheckpointOps(su, old(Slice(c)), false))
    {
      var snap := Snapshot(CoreFor(c), CoordFor(c), LogFor(c).gen);
      WriteOne(DiskFor(c), WriteSnapshot(snap));
      Perform(c, WriteSnapshot(snap));
    }

    // ---- acks -----------------------------------------------------------------

    ghost function AllTaken(): set<Delivery>
      reads this
    {
      Taken(pendingAcks, acked)
    }

    method EnqueuePending(c: ClientID, d: Delivery, now: nat)
      requires Valid() && Fresh(pendingAcks, acked, d)
      modifies this`pendingAcks, this`firstPendingAt, this`totalPending
      ensures Valid() && totalPending == old(totalPending) + 1 && AllTaken() == old(AllTaken()) + {d}
      ensures pendingAcks == old(pendingAcks)[c := old(Slice(c)).pending + [d]]
      ensures Slice(c) == old(Slice(c)).(pending := old(Slice(c)).pending + [d]) && OthersKept(c)
      ensures DiskFor(c) == old(DiskFor(c))
    {
      hide Balanced, AckedOnce, Fresh, Taken, Distinct;
      Enqueued(pendingAcks, firstPendingAt, totalPending, acked, c, d, now);
      firstPendingAt := if c in firstPendingAt then firstPendingAt else firstPendingAt[c := now];
      pendingAcks := pendingAcks[c := Pending(pendingAcks, c) + [d]];
      totalPending := totalPending + 1;
    }

    method AckAllPending(c: ClientID)
      requires Books()
      modifies this`pendingAcks, this`firstPendingAt, this`totalPending, this`acked
      ensures Books() && totalPending == old(totalPending) - |old(Slice(c)).pending| && AllTaken() == old(AllTaken())
      ensures acked == old(acked) + old(Slice(c)).pending
      ensures pendingAcks == old(pendingAcks) - {c}
      ensures Slice(c) == old(Slice(c)).(pending := []) && OthersKept(c)
      ensures DiskFor(c) == old(DiskFor(c))
    {
      hide Balanced, AckedOnce, Taken, DiskFor, CoreFor, CoordFor, LogFor;
      var refs := Pending(pendingAcks, c);
      AllAcked(pendingAcks, firstPendingAt, totalPending, acked, c);
      acked := acked + refs;
      totalPending := totalPending - |refs|;
      pendingAcks := pendingAcks - {c};
      firstPendingAt := firstPendingAt - {c};
    }

    /** Acks a delivery that is never queued: a duplicate, or one that completes its client. */
    method Ack(d: Delivery)
      requires Books() && Fresh(pendingAcks, acked, d)
      modifies this`acked
      ensures Books() && acked == old(acked) + [d] && AllTaken() == old(AllTaken()) + {d}
    {
      hide Balanced, AckedOnce, Taken, Fresh;
      AckedNow(pendingAcks, acked, d);
      acked := acked + [d];
    }

    /** Makes everything pending for the client durable, then acks it; with nothing pending, does nothing. */
    method CheckpointAndAck(c: ClientID)
      returns (ghost compact: bool)
      requires Valid()
      modifies this`disk, this`writes, this`logs, this`pendingAcks, this`firstPendingAt, this`totalPending, this`acked
      ensures Valid() && OthersKept(c) && AllTaken() == old(AllTaken())
      ensures pendingAcks == old(pendingAcks) - {c}
      ensures totalPending == old(totalPending) - |old(Slice(c)).pending|
      ensures acked == old(acked) + old(Slice(c)).pending
      ensures var v := old(Slice(c));
        if v.pending == [] then Slice(c) == v && DiskFor(c) == old(DiskFor(c)) && writes == old(writes)
        else
          && CheckpointedTo(su, v, old(DiskFor(c)), Slice(c), DiskFor(c), compact)
          && writes == old(writes) + Tagged(c, CheckpointOps(su, v, compact))
      ensures su.walEnabled && old(Slice(c)).pending != [] && old(DiskFor(c)).snapshot.Some? ==>
        var d, d' := old(DiskFor(c)), DiskFor(c);
        var size := SizeOf(SegmentOf(d, d.snapshot.value.gen) + old(Slice(c)).pendingDeltas);
        && d'.snapshot.Some?
        && (d'.snapshot.value.gen != d.snapshot.value.gen <==>
              size >= compactionFactor * snapshotSize(d.snapshot.value) && size >= COMPACTION_FLOOR_BYTES)
    {
      hide AckedOnce, Taken, Total, WriteAll, Tagged, Write, CheckpointOps, CoreFor, CoordFor, LogTrue, SizeOf, SegmentOf;
      compact := false;
      if |Pending(pendingAcks, c)| == 0 {
        assert pendingAcks - {c} == pendingAcks && acked + [] == acked;
        return;
      }
      hide Slice, DiskFor, Checkpointed;
      compact := MakeDurable(c);
      AckAllPending(c);
      NothingPendingLeft(su, old(Slice(c)), compact);
    }

    /** The checkpoint itself, logged or full. */
    method MakeDurable(c: ClientID)
      returns (ghost compact: bool)
      requires Valid()
      modifies this`disk, this`writes, this`logs
      ensures Valid() && OthersKept(c)
      ensures var v := old(Slice(c));
        && Slice(c) == Checkpointed(su, v, compact).(pending := v.pending)
        && DiskFor(c) == WriteAll(old(DiskFor(c)), CheckpointOps(su, v, compact))
        && writes == old(writes) + Tagged(c, CheckpointOps(su, v, compact))
      ensures su.walEnabled && old(DiskFor(c)).snapshot.Some? ==>
        var d, d' := old(DiskFor(c)), DiskFor(c);
        var size := SizeOf(SegmentOf(d, d.snapshot.value.gen) + old(Slice(c)).pendingDeltas);
        && d'.snapshot.Some?
        && (d'.snapshot.value.gen != d.snapshot.value.gen <==>
              size >= compactionFactor * snapshotSize(d.snapshot.value) && size >= COMPACTION_FLOOR_BYTES)
    {
      hide Balanced, AckedOnce, WriteAll, Tagged, CheckpointOps, CoreFor, CoordFor, LogTrue, SizeOf, SegmentOf;
      if su.walEnabled {
        compact := WalCheckpoint(c);
      } else {
        FullCheckpoint(c);
        compact := false;
      }
    }

    /** Checkpoints every client that has pending deliveries. */
    method FlushAllPending()
      requires Valid()
      modifies this`disk, this`writes, this`logs, this`pendingAcks, this`firstPendingAt, this`totalPending, this`acked
      ensures Valid() && pendingAcks == map[] && totalPending == 0 && AllTaken() == old(AllTaken())
      ensures forall x :: Flushed(su, old(Slice(x)), old(DiskFor(x)), Slice(x), DiskFor(x))
    {
      FlushSome(pendingAcks.Keys);
      assert pendingAcks == map[];
      NothingPending(pendingAcks, firstPendingAt, totalPending);
    }

    method FlushSome(clients: set<ClientID>)
      requires Valid()
      modifies this`disk, this`writes, this`logs, this`pendingAcks, this`firstPendingAt, this`totalPending, this`acked
      ensures Valid() && AllTaken() == old(AllTaken()) && totalPending <= old(totalPending)
      ensures pendingAcks == old(pendingAcks) - clients
      ensures forall x :: if x in clients then Flushed(su, old(Slice(x)), old(DiskFor(x)), Slice(x), DiskFor(x))
        else Slice(x) == old(Slice(x)) && DiskFor(x) == old(DiskFor(x))
    {
      hide Balanced, AckedOnce, Taken, CheckpointedTo, Slice, DiskFor, LogTrue, SizeOf, CheckpointOps, Tagged;
      var todo := clients;
      while todo != {}
        invariant Valid() && todo <= clients && AllTaken() == old(AllTaken()) && totalPending <= old(totalPending)
        invariant pendingAcks == old(pendingAcks) - (clients - todo)
        invariant forall x :: if x in clients && x !in todo then Flushed(su, old(Slice(x)), old(DiskFor(x)), Slice(x), DiskFor(x))
          else Slice(x) == old(Slice(x)) && DiskFor(x) == old(DiskFor(x))
      {
        var c :| c in todo;
        label step:
        ghost var compact := CheckpointAndAck(c);
        todo := todo - {c};
        assert OthersKept@step(c);
      }
    }

    /** runMaintenance: flushes the clients whose oldest pending delivery is too old, forgets old tombstones. */
    method RunMaintenance(now: nat, maxPendingAge: nat, tombstoneTTL: nat)
      requires Valid()
      modifies this`disk, this`writes, this`logs, this`pendingAcks, this`firstPendingAt, this`totalPending, this`acked, this`tombstones
      ensures Valid() && AllTaken() == old(AllTaken()) && totalPending <= old(totalPending)
      ensures forall x :: x in pendingAcks <==> x in old(pendingAcks) && now - old(firstPendingAt[x]) <= maxPendingAge
      ensures forall x :: if x in old(pendingAcks) && now - old(firstPendingAt[x]) > maxPendingAge
        then Flushed(su, old(Slice(x)), old(DiskFor(x)), Slice(x), DiskFor(x))
        else Slice(x) == old(Slice(x)) && DiskFor(x) == old(DiskFor(x))
      ensures tombstones == map x | x in old(tombstones) && now - old(tombstones[x]) <= tombstoneTTL :: old(tombstones[x])
    {
      hide Balanced, AckedOnce, Taken, Flushed, Slice, DiskFor;
      ClockKeys(pendingAcks, firstPendingAt, totalPending);
      FlushSome(set x | x in firstPendingAt && now - firstPendingAt[x] > maxPendingAge);
      tombstones := map x | x in tombstones && now - tombstones[x] <= tombstoneTTL :: tombstones[x];
    }

    // ---- completion and abort -------------------------------------------------

    /** Nothing of the client is left, in memory or on disk. */
    ghost predicate Vanished(c: ClientID)
      reads this
    {
      && c !in cores && c !in coord && c !in pendingAcks && c !in firstPendingAt
      && DiskFor(c).snapshot.None?
      && (su.walEnabled ==> c !in logs && DiskFor(c).segments == map[])
    }

    /** cleanupClientState and the removal of the checkpoint file. */
    method Cleanup(c: ClientID)
      requires LogsValidBut(c) && c !in pendingAcks && c !in firstPendingAt
      modifies this`cores, this`coord, this`logs, this`disk, this`writes
      ensures LogsValid() && Vanished(c)
      ensures Slice(c) == Cleaned(su, old(Slice(c))) && OthersKept(c)
      ensures DiskFor(c) == WriteAll(old(DiskFor(c)), CleanupOps(su))
      ensures writes == old(writes) + Tagged(c, CleanupOps(su))
    {
      hide WriteAll, Tagged, CleanupOps, Slice, Cleaned, SizeOf, SegmentOf, LogTrue;
      CleanupInParts(c, su, DiskFor(c));
      ghost var log, before := LogFor(c), DiskFor(c);
      if su.walEnabled {
        Perform(c, RemoveSegments);
      }
      Forget(c);
      Perform(c, RemoveSnapshot);
      LogGone(log, before, LogFor(c), DiskFor(c));
    }

    lemma LogGone(log: LogState<D>, d: Disk<S, C, D>, log': LogState<D>, d': Disk<S, C, D>)
      requires if su.walEnabled then log' == NO_LOG && d'.snapshot.None? else LogTrue(log, d) && log' == log
      ensures LogTrue(log', d')
    {
    }

    method Forget(c: ClientID)
      requires c !in pendingAcks
      modifies this`cores, this`coord, this`logs
      ensures LogFor(c) == if su.walEnabled then NO_LOG else old(LogFor(c))
      ensures c !in cores && c !in coord && (su.walEnabled ==> c !in logs)
      ensures forall x :: x != c ==> LogFor(x) == old(LogFor(x))
      ensures Slice(c) == Cleaned(su, old(Slice(c)))
      ensures forall x :: x != c ==> Slice(x) == old(Slice(x))
    {
      if su.walEnabled {
        logs := logs - {c};
      }
      cores, coord := cores - {c}, coord - {c};
    }

    /** completeClient: the last delivery is acked with all pending ones, after a last snapshot. */
    method CompleteClient(c: ClientID, last: Delivery, now: nat)
      requires Valid() && Fresh(pendingAcks, acked, last)
      modifies this
      ensures Valid() && totalPending <= old(totalPending) && AllTaken() == old(AllTaken()) + {last}
      ensures acked == old(acked) + old(Slice(c)).pending + [last] && pendingAcks == old(pendingAcks) - {c}
      ensures tombstones == old(tombstones)[c := now] && Vanished(c)
      ensures Slice(c) == Cleaned(su, old(Slice(c))) && OthersKept(c)
      ensures DiskFor(c) == WriteAll(old(DiskFor(c)), CompletionOps(su, old(Slice(c))))
      ensures writes == old(writes) + Tagged(c, CompletionOps(su, old(Slice(c))))
    {
      hide Balanced, AckedOnce, Taken, Fresh, WriteAll, Write, Tagged, CompletionOps, CleanupOps, Cleaned, Slice, SnapshotOf, LogTrue;
      CompletionInParts(c, su, Slice(c), DiskFor(c));
      CleanedIgnoresPending(su, Slice(c));
      SaveLast(c);
      tombstones := tombstones[c := now];
      AckEverything(c, last);
      Cleanup(c);
    }

    method SaveLast(c: ClientID)
      requires LogsValid()
      modifies this`disk, this`writes
      ensures LogsValidBut(c)
      ensures var snap := WriteSnapshot(SnapshotOf(Slice(c), Slice(c).gen));
        disk == old(disk)[c := Write(old(DiskFor(c)), snap)] && writes == old(writes) + [(c, snap)]
    {
      hide Write;
      Perform(c, WriteSnapshot(Snapshot(CoreFor(c), CoordFor(c), LogFor(c).gen)));
    }

    method AckEverything(c: ClientID, last: Delivery)
      requires Books() && Fresh(pendingAcks, acked, last)
      modifies this`pendingAcks, this`firstPendingAt, this`totalPending, this`acked
      ensures Books() && totalPending <= old(totalPending) && AllTaken() == old(AllTaken()) + {last}
      ensures acked == old(acked) + old(Slice(c)).pending + [last] && pendingAcks == old(pendingAcks) - {c}
      ensures c !in firstPendingAt
      ensures Slice(c) == old(Slice(c)).(pending := []) && OthersKept(c)
    {
      hide Balanced, AckedOnce, Taken, Fresh;
      FreshAfterAck(pendingAcks, acked, c, last);
      AckAllPending(c);
      Ack(last);
      NoClock(pendingAcks, firstPendingAt, totalPending, c);
    }

    /** abortClient: everything pending is acked and the client is gone; nothing is saved. */
    method AbortClient(c: ClientID, now: nat)
      requires Valid()
      modifies this
      ensures Valid() && totalPending <= old(totalPending) && AllTaken() == old(AllTaken())
      ensures acked == old(acked) + old(Slice(c)).pending && pendingAcks == old(pendingAcks) - {c}
      ensures tombstones == old(tombstones)[c := now] && Vanished(c)
      ensures Slice(c) == Cleaned(su, old(Slice(c))) && OthersKept(c)
      ensures DiskFor(c) == WriteAll(old(DiskFor(c)), CleanupOps(su))
    {
      hide Balanced, AckedOnce, Taken, WriteAll, Tagged;
      tombstones := tombstones[c := now];
      AckAllPending(c);
      NoClock(pendingAcks, firstPendingAt, totalPending, c);
      Cleanup(c);
    }

    // ---- handlers -------------------------------------------------------------

    /** dedupAdd, the item count and bufferDelta, once the strategy has processed the batch. */
    method Process(c: ClientID, key: Key)
      requires LogsValid()
      modifies this`cores, this`logs
      ensures LogsValid()
      ensures CoreFor(c) == ClientRuntime.Process(su, old(CoreFor(c)), key)
      ensures cores == old(cores)[c := CoreFor(c)] && logs == old(logs)[c := LogFor(c)]
      ensures LogFor(c) == old(LogFor(c)).(pendingDeltas :=
        if su.walEnabled then old(LogFor(c)).pendingDeltas + [RecordOf(su, old(CoreFor(c)), key)]
        else old(LogFor(c)).pendingDeltas)
      ensures OthersKept(c)
      ensures forall d: Delivery :: d.Data? && d.key == key ==>
        Slice(c) == Accept(su, old(Slice(c)), d).(pending := old(Slice(c)).pending)
    {
      var core, batch := CoreFor(c), su.batchOf(key);
      var data, delta := su.strategy.process(core.data, batch), su.strategy.delta(core.data, batch);
      cores := cores[c := Core(data, DedupAdd(core.seen, key), core.items + su.itemsOf(batch))];
      var log := LogFor(c);
      if su.walEnabled {
        log := log.(pendingDeltas := log.pendingDeltas + [Record(key, su.itemsOf(batch), delta)]);
      }
      logs := logs[c := log];
    }

    /** What handleBatch does to client x, when c is the client the batch d belongs to. */
    twostate predicate BatchHandled(x: ClientID, c: ClientID, d: Delivery)
      requires d.Data?
      reads this
    {
      var v := if x == c then Accept(su, old(Slice(x)), d) else old(Slice(x));
      var mine := Accept(su, old(Slice(c)), d);
      if completedBy(old(CoreFor(c)).data, su.batchOf(d.key)) then
        if x == c then
          var w := mine.(pending := old(Slice(c)).pending);
          Slice(x) == Cleaned(su, w) && DiskFor(x) == WriteAll(old(DiskFor(x)), CompletionOps(su, w))
        else Slice(x) == v && DiskFor(x) == old(DiskFor(x))
      else if (x == c && |mine.pending| >= checkpointInterval)
           || (|mine.pending| < checkpointInterval && old(totalPending) + 1 >= prefetch) then
        Flushed(su, v, old(DiskFor(x)), Slice(x), DiskFor(x))
      else Slice(x) == v && DiskFor(x) == old(DiskFor(x))
    }

    method HandleBatch(c: ClientID, d: Delivery, now: nat)
      requires Valid() && d.Data? && Fresh(pendingAcks, acked, d)
      modifies this
      ensures Valid() && AllTaken() == old(AllTaken()) + {d}
      ensures old(totalPending) < prefetch ==> totalPending < prefetch
      ensures forall x :: BatchHandled(x, c, d)
      ensures tombstones == if completedBy(old(CoreFor(c)).data, su.batchOf(d.key)) then old(tombstones)[c := now] else old(tombstones)
      ensures completedBy(old(CoreFor(c)).data, su.batchOf(d.key)) ==> Vanished(c) && OthersKept(c)
      ensures !completedBy(old(CoreFor(c)).data, su.batchOf(d.key)) ==>
        CoreFor(c).seen == old(CoreFor(c)).seen + (if d.key.seqID == 0 then {} else {d.key})
      ensures var mine := old(Slice(c)).pending + [d];
        pendingAcks ==
          if completedBy(old(CoreFor(c)).data, su.batchOf(d.key)) || |mine| >= checkpointInterval then old(pendingAcks) - {c}
          else if old(totalPending) + 1 >= prefetch then map[]
          else old(pendingAcks)[c := mine]
    {
      hide Balanced, AckedOnce, Taken, Fresh, Total, WriteAll, Cleaned, CompletionOps, Flushed, ClientRuntime.Process, RecordOf;
      var completed := completedBy(CoreFor(c).data, su.batchOf(d.key));
      AcceptIsAppend(su, Slice(c), d);
      SeenOnceProcessed(su, CoreFor(c), d.key);
      Process(c, d.key);
      hide Slice, DiskFor, Accept;
      if completed {
        CompleteClient(c, d, now);
      } else {
        Keep(c, d, now);
      }
    }

    /** Queues the ack and flushes: the client if it has enough pending, everyone if the window is full. */
    method Keep(c: ClientID, d: Delivery, now: nat)
      requires Valid() && Fresh(pendingAcks, acked, d)
      modifies this`disk, this`writes, this`logs, this`pendingAcks, this`firstPendingAt, this`totalPending, this`acked
      ensures Valid() && AllTaken() == old(AllTaken()) + {d}
      ensures old(totalPending) < prefetch ==> totalPending < prefetch
      ensures var mine := old(Slice(c)).pending + [d];
        pendingAcks ==
          if |mine| >= checkpointInterval then old(pendingAcks) - {c}
          else if old(totalPending) + 1 >= prefetch then map[]
          else old(pendingAcks)[c := mine]
      ensures var mine := old(Slice(c)).(pending := old(Slice(c)).pending + [d]);
        forall x ::
          var v := if x == c then mine else old(Slice(x));
          if (x == c && |mine.pending| >= checkpointInterval)
             || (|mine.pending| < checkpointInterval && old(totalPending) + 1 >= prefetch)
          then Flushed(su, v, old(DiskFor(x)), Slice(x), DiskFor(x))
          else Slice(x) == v && DiskFor(x) == old(DiskFor(x))
    {
      hide Balanced, AckedOnce, Taken, Fresh, Total, Flushed;
      EnqueuePending(c, d, now);
      if |Pending(pendingAcks, c)| >= checkpointInterval {
        FlushOne(c);
        assert pendingAcks == old(pendingAcks) - {c};
      } else if totalPending >= prefetch {
        FlushAllPending();
      }
    }

    method FlushOne(c: ClientID)
      requires Valid()
      modifies this`disk, this`writes, this`logs, this`pendingAcks, this`firstPendingAt, this`totalPending, this`acked
      ensures Valid() && OthersKept(c) && AllTaken() == old(AllTaken())
      ensures totalPending == old(totalPending) - |old(Slice(c)).pending| && pendingAcks == old(pendingAcks) - {c}
      ensures Flushed(su, old(Slice(c)), old(DiskFor(c)), Slice(c), DiskFor(c))
    {
      hide Balanced, AckedOnce, Taken, CheckpointedTo;
      ghost var compact := CheckpointAndAck(c);
    }

    /** What an EOF or a ring token does to its client. */
    twostate predicate CoordinationHandled(c: ClientID, d: Delivery)
      reads this
    {
      var (coord', completed) := coordinate(old(CoordFor(c)), d, old(CoreFor(c)).items);
      var v := old(Slice(c)).(coord := coord');
      if completed then
        Slice(c) == Cleaned(su, v) && DiskFor(c) == WriteAll(old(DiskFor(c)), CompletionOps(su, v))
      else
        Flushed(su, v.(pending := v.pending + [d]), old(DiskFor(c)), Slice(c), DiskFor(c))
    }

    /** handleUpstreamEOF and handleRingToken: the coordinator decides, then the delivery is made durable at once. */
    method HandleCoordination(c: ClientID, d: Delivery, now: nat)
      requires Valid() && Fresh(pendingAcks, acked, d)
      modifies this
      ensures Valid() && AllTaken() == old(AllTaken()) + {d} && OthersKept(c)
      ensures totalPending <= old(totalPending)
      ensures CoordinationHandled(c, d)
      ensures tombstones ==
        if coordinate(old(CoordFor(c)), d, old(CoreFor(c)).items).1 then old(tombstones)[c := now] else old(tombstones)
      ensures pendingAcks == old(pendingAcks) - {c}
      ensures var (coord', completed) := coordinate(old(CoordFor(c)), d, old(CoreFor(c)).items);
        if completed then Vanished(c) else CoordFor(c) == coord'
    {
      hide Balanced, AckedOnce, Taken, Fresh, Total, WriteAll, Cleaned, CompletionOps, Flushed, LogTrue, SizeOf, DiskFor;
      var (newCoord, completed) := coordinate(CoordFor(c), d, CoreFor(c).items);
      coord := coord[c := newCoord];
      if completed {
        CompleteClient(c, d, now);
        return;
      }
      EnqueuePending(c, d, now);
      FlushOne(c);
      assert pendingAcks == old(pendingAcks) - {c};
    }

    /**
     handleInputMessage and handleRingMessage: whatever arrives ends up pending or acked,
     exactly once, and the broker's window never fills. A delivery for a dead client, a batch
     that was counted and an EOF or token that was taken are acked unread; all others are
     handled: what completes its client leaves nothing of it, an EOF or token leaves nothing of
     it pending, and a batch waits for its ack until the client or the worker has enough.
     */
    method HandleInput(c: ClientID, d: Delivery, now: nat)
      requires Valid() && Fresh(pendingAcks, acked, d)
      modifies this
      ensures Valid() && AllTaken() == old(AllTaken()) + {d}
      ensures old(totalPending) < prefetch ==> totalPending < prefetch
      ensures old(c in tombstones)
        || (d.Data? && d.key.seqID != 0 && d.key in old(CoreFor(c)).seen)
        || (d.Control? && isDuplicate(old(CoordFor(c)), d))
        ==> (acked == old(acked) + [d] && tombstones == old(tombstones)
             && forall x :: Slice(x) == old(Slice(x)) && DiskFor(x) == old(DiskFor(x)))
      ensures old(c !in tombstones) && d.Data? && (d.key.seqID == 0 || d.key !in old(CoreFor(c)).seen)
        ==> forall x :: BatchHandled(x, c, d)
      ensures old(c !in tombstones) && d.Control? && !isDuplicate(old(CoordFor(c)), d)
        ==> CoordinationHandled(c, d) && OthersKept(c)
      ensures tombstones == old(tombstones) || tombstones == old(tombstones)[c := now]
      ensures old(c !in tombstones) && d.Data? && (d.key.seqID == 0 || d.key !in old(CoreFor(c)).seen) ==>
        var mine := old(Slice(c)).pending + [d];
        if completedBy(old(CoreFor(c)).data, su.batchOf(d.key)) then
          Vanished(c) && OthersKept(c) && c in tombstones && pendingAcks == old(pendingAcks) - {c}
        else
          && tombstones == old(tombstones)
          && CoreFor(c).seen == old(CoreFor(c)).seen + (if d.key.seqID == 0 then {} else {d.key})
          && pendingAcks == (if |mine| >= checkpointInterval then old(pendingAcks) - {c}
                             else if old(totalPending) + 1 >= prefetch then map[]
                             else old(pendingAcks)[c := mine])
      ensures old(c !in tombstones) && d.Control? && !isDuplicate(old(CoordFor(c)), d) ==>
        var (coord', completed) := coordinate(old(CoordFor(c)), d, old(CoreFor(c)).items);
        && pendingAcks == old(pendingAcks) - {c}
        && if completed then Vanished(c) && c in tombstones else CoordFor(c) == coord' && tombstones == old(tombstones)
    {
      hide Balanced, AckedOnce, Taken, Fresh, BatchHandled, CoordinationHandled, LogTrue;
      if c in tombstones {
        Ack(d);
      } else if d.Data? {
        if d.key.seqID != 0 && d.key in CoreFor(c).seen {
          Ack(d);
        } else {
          HandleBatch(c, d, now);
        }
      } else if isDuplicate(CoordFor(c), d) {
        Ack(d);
      } else {
        HandleCoordination(c, d, now);
      }
    }
  }
}
