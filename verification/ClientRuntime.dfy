/**
 What the worker runtime keeps for one client, in memory and on disk, and what
 its handlers do to it (src/worker/runtime/runtime.go), as functions on values.
 The class in Worker.dfy is proved against these functions.
 */
module ClientRuntime {
  import opened Common
  import opened DeltaStrategies
  import Wal

  /** Identity of a data batch: its id space and its sequence number. */
  datatype Key = Key(space: string, seqID: U64)

  /** One delivery the broker waits an ack for: a data batch, or an EOF or ring token. */
  datatype Delivery = Data(tag: nat, key: Key) | Control(tag: nat)

  /** A log record: dedup key, item count and strategy delta, nothing else. */
  datatype Record<D> = Record(key: Key, items: nat, delta: Option<D>)

  /** The part of the client state a log record can rebuild. */
  datatype Core<S> = Core(data: S, seen: set<Key>, items: nat)

  /** The checkpoint file. C stands for coordinator state, coordination dedup and output sequence. */
  datatype Snapshot<S, C> = Snapshot(core: Core<S>, coord: C, gen: U64)

  datatype Disk<S, C, D> = Disk(snapshot: Option<Snapshot<S, C>>, segments: map<U64, seq<Record<D>>>)

  datatype Volatile<S, C, D> = Volatile(
    core: Core<S>,
    coord: C,
    gen: U64,
    log: Option<U64>,                // the open segment's generation
    pendingDeltas: seq<Record<D>>,
    snapped: bool,                   // lastSnapSize is not zero
    pending: seq<Delivery>)          // processed, not yet acked

  /**
   How a worker is set up, what batch each key stands for, and what the strategy's state
   is read back as after it went through a checkpoint file.
   */
  datatype Setup<!S, !B, !D, !C> = Setup(
    strategy: Strategy<S, B, D>,
    restored: S -> S,
    batchOf: Key -> B,
    itemsOf: B -> nat,
    freshCoord: C,
    walEnabled: bool)

  // ---- processing one batch ---------------------------------------------------

  /** dedupAdd: sequence number zero stays outside the sets. */
  function DedupAdd(seen: set<Key>, key: Key): set<Key> {
    if key.seqID == 0 then seen else seen + {key}
  }

  function Process<S, B, D, C>(su: Setup<S, B, D, C>, core: Core<S>, key: Key): Core<S> {
    var b := su.batchOf(key);
    Core(su.strategy.process(core.data, b), DedupAdd(core.seen, key), core.items + su.itemsOf(b))
  }

  /** bufferDelta. */
  function RecordOf<S, B, D, C>(su: Setup<S, B, D, C>, core: Core<S>, key: Key): Record<D> {
    var b := su.batchOf(key);
    Record(key, su.itemsOf(b), su.strategy.delta(core.data, b))
  }

  /** handleBatch for a new key, up to and including enqueuePending. */
  function Accept<S, B, D, C>(su: Setup<S, B, D, C>, v: Volatile<S, C, D>, d: Delivery): Volatile<S, C, D>
    requires d.Data?
  {
    v.(core := Process(su, v.core, d.key),
       pendingDeltas := if su.walEnabled then v.pendingDeltas + [RecordOf(su, v.core, d.key)] else v.pendingDeltas,
       pending := v.pending + [d])
  }

  // ---- checkpoints ------------------------------------------------------------

  /** The disk writes a checkpoint is made of; a crash may fall between any two. */
  datatype DiskOp<S, C, D> =
    | OpenSegment(gen: U64)
    | WriteSnapshot(snap: Snapshot<S, C>)
    | AppendRecords(gen: U64, records: seq<Record<D>>)
    | CreateSegment(gen: U64)
    | RemoveSegment(gen: U64)
    | RemoveSegments
    | RemoveSnapshot

  function SegmentOf<S, C, D>(disk: Disk<S, C, D>, gen: U64): seq<Record<D>> {
    if gen in disk.segments then disk.segments[gen] else []
  }

  function Write<S, C, D>(disk: Disk<S, C, D>, op: DiskOp<S, C, D>): Disk<S, C, D> {
    match op
    case OpenSegment(g) => disk.(segments := map[g := SegmentOf(disk, g)])
    case WriteSnapshot(s) => disk.(snapshot := Some(s))
    case AppendRecords(g, rs) => disk.(segments := disk.segments[g := SegmentOf(disk, g) + rs])
    case CreateSegment(g) => disk.(segments := disk.segments[g := SegmentOf(disk, g)])
    case RemoveSegment(g) => disk.(segments := disk.segments - {g})
    case RemoveSegments => disk.(segments := map[])
    case RemoveSnapshot => disk.(snapshot := None)
  }

  function WriteAll<S, C, D>(disk: Disk<S, C, D>, ops: seq<DiskOp<S, C, D>>): Disk<S, C, D>
    decreases ops
  {
    if ops == [] then disk else WriteAll(Write(disk, ops[0]), ops[1..])
  }

  lemma WriteOne<S, C, D>(disk: Disk<S, C, D>, op: DiskOp<S, C, D>)
    ensures WriteAll(disk, [op]) == Write(disk, op)
  {
    assert [op][1..] == [];
  }

  lemma {:induction false} WriteAllAppend<S, C, D>(disk: Disk<S, C, D>, a: seq<DiskOp<S, C, D>>, b: seq<DiskOp<S, C, D>>)
    ensures WriteAll(disk, a + b) == WriteAll(WriteAll(disk, a), b)
    decreases a
  {
    if a == [] {
      assert a + b == b;
    } else {
      WriteAllAppend(Write(disk, a[0]), a[1..], b);
      assert (a + b)[1..] == a[1..] + b;
    }
  }

  lemma WriteAfter<S, C, D>(disk: Disk<S, C, D>, before: seq<DiskOp<S, C, D>>, op: DiskOp<S, C, D>)
    ensures WriteAll(disk, before + [op]) == Write(WriteAll(disk, before), op)
  {
    WriteAllAppend(disk, before, [op]);
    WriteOne(WriteAll(disk, before), op);
  }

  lemma WriteThree<S, C, D>(disk: Disk<S, C, D>, ops: seq<DiskOp<S, C, D>>)
    requires |ops| == 3
    ensures WriteAll(disk, ops[..1]) == Write(disk, ops[0])
    ensures WriteAll(disk, ops[..2]) == Write(Write(disk, ops[0]), ops[1])
    ensures WriteAll(disk, ops) == Write(Write(Write(disk, ops[0]), ops[1]), ops[2])
  {
    assert ops[..1] == [ops[0]] && ops[..2] == ops[..1] + [ops[1]] && ops == ops[..2] + [ops[2]];
    WriteOne(disk, ops[0]);
    WriteAfter(disk, ops[..1], ops[1]);
    WriteAfter(disk, ops[..2], ops[2]);
  }

  function SnapshotOf<S, C, D>(v: Volatile<S, C, D>, gen: U64): Snapshot<S, C> {
    Snapshot(v.core, v.coord, gen)
  }

  /** compactWAL: snapshot for the next generation, then rotate. */
  function CompactionOps<S, C, D>(v: Volatile<S, C, D>): seq<DiskOp<S, C, D>> {
    var next := Wal.NextGen(v.gen);
    [WriteSnapshot(SnapshotOf(v, next)), CreateSegment(next), RemoveSegment(v.gen)]
  }

  function OpenOps<S, C, D>(v: Volatile<S, C, D>): seq<DiskOp<S, C, D>> {
    if v.log.None? then [OpenSegment(v.gen)] else []
  }

  function AppendOps<S, C, D>(v: Volatile<S, C, D>): seq<DiskOp<S, C, D>> {
    if v.pendingDeltas == [] then [] else [AppendRecords(v.gen, v.pendingDeltas)]
  }

  /** checkpointAndAck, the disk side; compact is whether the segment grew past the threshold. */
  function CheckpointOps<S, B, D, C>(su: Setup<S, B, D, C>, v: Volatile<S, C, D>, compact: bool): seq<DiskOp<S, C, D>> {
    if !su.walEnabled then [WriteSnapshot(SnapshotOf(v, v.gen))]
    else if !v.snapped then OpenOps(v) + [WriteSnapshot(SnapshotOf(v, v.gen))]
    else OpenOps(v) + AppendOps(v) + if compact then CompactionOps(v) else []
  }

  /** checkpointAndAck, the memory side, after ackAllPending. */
  function Checkpointed<S, B, D, C>(su: Setup<S, B, D, C>, v: Volatile<S, C, D>, compact: bool): Volatile<S, C, D> {
    if !su.walEnabled then v.(pending := [])
    else
      var gen := if v.snapped && compact then Wal.NextGen(v.gen) else v.gen;
      v.(pending := [], pendingDeltas := [], log := Some(gen), gen := gen, snapped := true)
  }

  /** cleanupClientState and the removal of the checkpoint file. */
  function CleanupOps<S, B, D, C>(su: Setup<S, B, D, C>): seq<DiskOp<S, C, D>> {
    (if su.walEnabled then [RemoveSegments] else []) + [RemoveSnapshot]
  }

  /** completeClient: a last snapshot of the current generation, then everything goes. */
  function CompletionOps<S, B, D, C>(su: Setup<S, B, D, C>, v: Volatile<S, C, D>): seq<DiskOp<S, C, D>> {
    [WriteSnapshot(SnapshotOf(v, v.gen))] + CleanupOps(su)
  }

  function Cleaned<S, B, D, C>(su: Setup<S, B, D, C>, v: Volatile<S, C, D>): Volatile<S, C, D> {
    if su.walEnabled then Volatile(FreshCore(su), su.freshCoord, 0, None, [], false, [])
    else v.(core := FreshCore(su), coord := su.freshCoord, pending := [])
  }

  // ---- recovery ---------------------------------------------------------------

  /** One step of replayWAL. */
  function ReplayRecord<S, B, D, C>(su: Setup<S, B, D, C>, core: Core<S>, r: Record<D>): Core<S> {
    Core(ApplyDelta(su.strategy, core.data, r.delta), DedupAdd(core.seen, r.key), core.items + r.items)
  }

  function ReplayAll<S, B, D, C>(su: Setup<S, B, D, C>, core: Core<S>, rs: seq<Record<D>>): Core<S> {
    if rs == [] then core else ReplayRecord(su, ReplayAll(su, core, rs[..|rs| - 1]), rs[|rs| - 1])
  }

  function FreshCore<S, B, D, C>(su: Setup<S, B, D, C>): Core<S> {
    Core(su.strategy.init, {}, 0)
  }

  /** UnmarshalClientState on the strategy's part of a snapshot. */
  function ReadCore<S, B, D, C>(su: Setup<S, B, D, C>, core: Core<S>): Core<S> {
    core.(data := su.restored(core.data))
  }

  /** The core loadCheckpoints rebuilds. */
  function RecoveredCore<S, B, D, C>(su: Setup<S, B, D, C>, disk: Disk<S, C, D>): Core<S> {
    match disk.snapshot
    case None => FreshCore(su)
    case Some(s) =>
      if su.walEnabled then ReplayAll(su, ReadCore(su, s.core), SegmentOf(disk, s.gen)) else ReadCore(su, s.core)
  }

  function Recovered<S, B, D, C>(su: Setup<S, B, D, C>, disk: Disk<S, C, D>): Volatile<S, C, D> {
    match disk.snapshot
    case None => Volatile(FreshCore(su), su.freshCoord, 0, None, [], false, [])
    case Some(s) => Volatile(RecoveredCore(su, disk), s.coord, if su.walEnabled then s.gen else 0, None, [], su.walEnabled, [])
  }
}
