/**
 The worker's handlers, seen from any one of its clients, are steps of the runs that the
 exactly-once theorems are about.
 */
module HandlerRuns {
  import opened Common
  import opened ClientRuntime
  import opened AckLedger
  import opened ExactlyOnce
  import opened WorkerRuntime

  function StepAll<S, B, D, C>(su: Setup<S, B, D, C>, s: System<S, C, D>, steps: seq<Step<C>>): System<S, C, D> {
    if steps == [] then s else Next(su, StepAll(su, s, steps[..|steps| - 1]), steps[|steps| - 1])
  }

  /** Steps taken from a state some run led to make a longer run. */
  lemma {:induction false} StepsContinueRun<S, B, D, C>(su: Setup<S, B, D, C>, before: seq<Step<C>>, steps: seq<Step<C>>)
    ensures StepAll(su, Run(su, before), steps) == Run(su, before + steps)
  {
    hide Next;
    if steps == [] {
      assert before + steps == before;
    } else {
      var front := steps[..|steps| - 1];
      StepsContinueRun(su, before, front);
      assert (before + steps)[..|before + steps| - 1] == before + front;
    }
  }

  /**
   One client of a running worker: queued is what the broker held for it when the worker
   started or took since, and taken is what the worker answers for, pending or acked.
   */
  function ViewOf<S, C, D>(disk: Disk<S, C, D>, v: Volatile<S, C, D>, published: set<Delivery>, queued: set<Delivery>, taken: set<Delivery>)
    : System<S, C, D>
  {
    System(disk, v, published, (queued - taken) + SetOf(v.pending))
  }

  ghost function View<S, B, D, C>(w: Worker<S, B, D, C>, x: ClientID, published: set<Delivery>, queued: set<Delivery>): System<S, C, D>
    reads w
  {
    ViewOf(w.DiskFor(x), w.Slice(x), published, queued, w.AllTaken())
  }

  // ---- one client's part of a handler -------------------------------------------

  /** A flush is a checkpoint, or nothing. */
  lemma FlushIsAStep<S, B, D, C>(su: Setup<S, B, D, C>, v: Volatile<S, C, D>, d: Disk<S, C, D>, v': Volatile<S, C, D>, d': Disk<S, C, D>,
                                 published: set<Delivery>, queued: set<Delivery>, taken: set<Delivery>)
    returns (steps: seq<Step<C>>)
    requires Flushed(su, v, d, v', d') && SetOf(v.pending) <= taken
    ensures steps == [] || (|steps| == 1 && steps[0].Checkpoint?)
    ensures StepAll(su, ViewOf(d, v, published, queued, taken), steps) == ViewOf(d', v', published, queued, taken)
  {
    hide CheckpointOps, WriteAll;
    if v.pending == [] {
      steps := [];
    } else {
      var compact :| CheckpointedTo(su, v, d, v', d', compact);
      steps := [Checkpoint(compact)];
      assert steps[..0] == [];
      assert (queued - taken) + SetOf(v.pending) - SetOf(v.pending) == (queued - taken) + SetOf(v'.pending);
    }
  }

  /** A batch that is new is delivered and counted; one that was counted is dropped. */
  lemma BatchIsAStep<S, B, D, C>(su: Setup<S, B, D, C>, v: Volatile<S, C, D>, disk: Disk<S, C, D>, d: Delivery,
                                 published: set<Delivery>, queued: set<Delivery>, taken: set<Delivery>)
    requires d.Data? && d in queued && d !in taken && SetOf(v.pending) <= taken
    ensures Next(su, ViewOf(disk, v, published, queued, taken), Deliver(d)) ==
      ViewOf(disk, if d.key in v.core.seen then v else Accept(su, v, d), published, queued, taken + {d})
  {
    hide Process, RecordOf;
    assert d !in v.pending;
    var rest := queued - (taken + {d});
    assert (queued - taken) + SetOf(v.pending) - {d} == rest + SetOf(v.pending);
    assert (queued - taken) + SetOf(v.pending) == rest + SetOf(v.pending + [d]);
  }

  lemma CoordinationIsAStep<S, B, D, C>(su: Setup<S, B, D, C>, v: Volatile<S, C, D>, disk: Disk<S, C, D>, d: Delivery, coord: C,
                                        published: set<Delivery>, queued: set<Delivery>, taken: set<Delivery>)
    requires d.Control? && d in queued && d !in taken && SetOf(v.pending) <= taken
    ensures Next(su, ViewOf(disk, v, published, queued, taken), Coordinate(d, coord)) ==
      ViewOf(disk, v.(coord := coord, pending := v.pending + [d]), published, queued, taken + {d})
  {
    assert d !in v.pending;
    assert (queued - taken) + SetOf(v.pending) == (queued - (taken + {d})) + SetOf(v.pending + [d]);
  }

  lemma StepsAfter<S, B, D, C>(su: Setup<S, B, D, C>, s: System<S, C, D>, step: Step<C>, more: seq<Step<C>>)
    requires |more| <= 1
    ensures StepAll(su, s, [step] + more) == StepAll(su, Next(su, s, step), more)
  {
    hide Next;
    assert [step][..0] == [] && StepAll(su, s, [step]) == Next(su, s, step);
    if more == [] {
      assert [step] + more == [step];
    } else {
      assert ([step] + more)[..1] == [step] && more[..0] == [];
    }
  }

  lemma PendingIsTaken(m: map<ClientID, seq<Delivery>>, acked: seq<Delivery>, c: ClientID)
    ensures SetOf(Pending(m, c)) <= Taken(m, acked)
  {
    if c in m {
      assert forall d :: d in m[c] ==> d in Taken(m, acked);
    }
  }

  lemma OthersUntouched<S, C, D>(disk: Disk<S, C, D>, v: Volatile<S, C, D>, published: set<Delivery>, queued: set<Delivery>,
                                 taken: set<Delivery>, d: Delivery)
    requires d !in queued
    ensures ViewOf(disk, v, published, queued, taken + {d}) == ViewOf(disk, v, published, queued, taken)
  {
    assert queued - (taken + {d}) == queued - taken;
  }

  // ---- two steps at most ----------------------------------------------------------

  /** At most two steps of the system lead from s to t. */
  ghost predicate InTwoSteps<S, B, D, C(!new)>(su: Setup<S, B, D, C>, s: System<S, C, D>, t: System<S, C, D>) {
    exists steps: seq<Step<C>> :: |steps| <= 2 && StepAll(su, s, steps) == t
  }

  lemma TwoSteps<S, B, D, C(!new)>(su: Setup<S, B, D, C>, s: System<S, C, D>, t: System<S, C, D>, steps: seq<Step<C>>)
    requires |steps| <= 2 && StepAll(su, s, steps) == t
    ensures InTwoSteps(su, s, t)
  {
    hide StepAll;
  }

  lemma OneStepThen<S, B, D, C(!new)>(su: Setup<S, B, D, C>, s: System<S, C, D>, step: Step<C>, more: seq<Step<C>>)
    requires |more| <= 1
    ensures InTwoSteps(su, s, StepAll(su, Next(su, s, step), more))
  {
    hide InTwoSteps, StepAll, Next;
    StepsAfter(su, s, step, more);
    TwoSteps(su, s, StepAll(su, Next(su, s, step), more), [step] + more);
  }

  /** A new batch: one delivery and at most one checkpoint. */
  lemma NewBatchIsARun<S, B, D, C(!new)>(su: Setup<S, B, D, C>, v: Volatile<S, C, D>, disk: Disk<S, C, D>, d: Delivery, flushed: bool,
                                         v': Volatile<S, C, D>, disk': Disk<S, C, D>,
                                         published: set<Delivery>, queued: set<Delivery>, taken: set<Delivery>)
    requires d.Data? && d in queued && d !in taken && SetOf(v.pending) <= taken && d.key !in v.core.seen
    requires if flushed then Flushed(su, Accept(su, v, d), disk, v', disk') else v' == Accept(su, v, d) && disk' == disk
    ensures InTwoSteps(su, ViewOf(disk, v, published, queued, taken), ViewOf(disk', v', published, queued, taken + {d}))
  {
    hide InTwoSteps, StepAll, Next, Flushed, Process, RecordOf;
    var before := ViewOf(disk, v, published, queued, taken);
    BatchIsAStep(su, v, disk, d, published, queued, taken);
    var more: seq<Step<C>> := [];
    if flushed {
      more := FlushIsAStep(su, Accept(su, v, d), disk, v', disk', published, queued, taken + {d});
    } else {
      NoSteps(su, ViewOf(disk', v', published, queued, taken + {d}));
    }
    OneStepThen(su, before, Deliver(d), more);
  }

  /** A batch that was counted before: dropped. */
  lemma KnownBatchIsARun<S, B, D, C(!new)>(su: Setup<S, B, D, C>, v: Volatile<S, C, D>, disk: Disk<S, C, D>, d: Delivery,
                                           published: set<Delivery>, queued: set<Delivery>, taken: set<Delivery>)
    requires d.Data? && d in queued && d !in taken && SetOf(v.pending) <= taken && d.key in v.core.seen
    ensures InTwoSteps(su, ViewOf(disk, v, published, queued, taken), ViewOf(disk, v, published, queued, taken + {d}))
  {
    hide InTwoSteps, StepAll, Next, Accept;
    BatchIsAStep(su, v, disk, d, published, queued, taken);
    NoSteps(su, ViewOf(disk, v, published, queued, taken + {d}));
    OneStepThen(su, ViewOf(disk, v, published, queued, taken), Deliver(d), []);
  }

  /** An EOF or a ring token: one coordination and one checkpoint. */
  lemma CoordinationIsARun<S, B, D, C(!new)>(su: Setup<S, B, D, C>, v: Volatile<S, C, D>, disk: Disk<S, C, D>, d: Delivery, coord: C,
                                             v': Volatile<S, C, D>, disk': Disk<S, C, D>,
                                             published: set<Delivery>, queued: set<Delivery>, taken: set<Delivery>)
    requires d.Control? && d in queued && d !in taken && SetOf(v.pending) <= taken
    requires Flushed(su, v.(coord := coord, pending := v.pending + [d]), disk, v', disk')
    ensures InTwoSteps(su, ViewOf(disk, v, published, queued, taken), ViewOf(disk', v', published, queued, taken + {d}))
  {
    hide InTwoSteps, StepAll, Next, Flushed;
    CoordinationIsAStep(su, v, disk, d, coord, published, queued, taken);
    var mid := v.(coord := coord, pending := v.pending + [d]);
    var more := FlushIsAStep(su, mid, disk, v', disk', published, queued, taken + {d});
    OneStepThen(su, ViewOf(disk, v, published, queued, taken), Coordinate(d, coord), more);
  }

  /** A client the delivery does not belong to: at most one checkpoint. */
  lemma OtherClientIsARun<S, B, D, C(!new)>(su: Setup<S, B, D, C>, v: Volatile<S, C, D>, disk: Disk<S, C, D>, d: Delivery,
                                            v': Volatile<S, C, D>, disk': Disk<S, C, D>,
                                            published: set<Delivery>, queued: set<Delivery>, taken: set<Delivery>)
    requires d !in queued && SetOf(v.pending) <= taken
    requires Flushed(su, v, disk, v', disk') || (v' == v && disk' == disk)
    ensures InTwoSteps(su, ViewOf(disk, v, published, queued, taken), ViewOf(disk', v', published, queued, taken + {d}))
  {
    hide InTwoSteps, StepAll, Flushed, ViewOf;
    OthersUntouched(disk', v', published, queued, taken, d);
    var steps: seq<Step<C>> := [];
    if Flushed(su, v, disk, v', disk') {
      steps := FlushIsAStep(su, v, disk, v', disk', published, queued, taken);
    } else {
      NoSteps(su, ViewOf(disk, v, published, queued, taken));
    }
    TwoSteps(su, ViewOf(disk, v, published, queued, taken), ViewOf(disk', v', published, queued, taken), steps);
  }

  lemma NoSteps<S, B, D, C>(su: Setup<S, B, D, C>, s: System<S, C, D>)
    ensures StepAll(su, s, []) == s
  {
  }

  // ---- the handlers ---------------------------------------------------------------

  /** The delivery completes its client, by the strategy's verdict. */
  ghost predicate Completes<S, B, D, C>(w: Worker<S, B, D, C>, c: ClientID, d: Delivery)
    reads w
  {
    if d.Data? then w.completedBy(w.CoreFor(c).data, w.su.batchOf(d.key))
    else w.coordinate(w.CoordFor(c), d, w.CoreFor(c).items).1
  }

  /** A delivery of a live client that carries a number and, if it coordinates, comes for the first time. */
  ghost predicate Ordinary<S, B, D, C>(w: Worker<S, B, D, C>, c: ClientID, d: Delivery)
    reads w
  {
    && c !in w.tombstones
    && (Completes(w, c, d) ==> d.Data? && d.key in w.CoreFor(c).seen)
    && (if d.Data? then d.key.seqID != 0 else !w.isDuplicate(w.CoordFor(c), d))
  }

  /**
   One delivery handled: for every client, what the broker, the memory and the disk hold for
   it moves by at most two steps of the system of ExactlyOnce.
   */
  method Serve<S, B, D, C(!new)>(w: Worker<S, B, D, C>, c: ClientID, d: Delivery, now: nat,
                                 ghost published: map<ClientID, set<Delivery>>, ghost queued: map<ClientID, set<Delivery>>)
    requires w.Valid() && Fresh(w.pendingAcks, w.acked, d) && Ordinary(w, c, d)
    requires c in queued && queued.Keys == published.Keys && forall x :: x in queued ==> (d in queued[x] <==> x == c)
    modifies w
    ensures w.Valid()
    ensures forall x :: x in queued ==>
      InTwoSteps(w.su, old(View(w, x, published[x], queued[x])), View(w, x, published[x], queued[x]))
  {
    hide Balanced, AckedOnce, Taken, InTwoSteps, Flushed, Accept, Fresh;
    FreshIsNew(w.pendingAcks, w.acked, d);
    w.HandleInput(c, d, now);
    forall x | x in queued
      ensures InTwoSteps(w.su, old(View(w, x, published[x], queued[x])), View(w, x, published[x], queued[x]))
    {
      var v, disk, v', disk' := old(w.Slice(x)), old(w.DiskFor(x)), w.Slice(x), w.DiskFor(x);
      var taken := old(w.AllTaken());
      PendingIsTaken(old(w.pendingAcks), old(w.acked), x);
      assert d.Data? && d.key !in old(w.CoreFor(c)).seen ==> w.BatchHandled(x, c, d);
      if x != c {
        OtherClientIsARun(w.su, v, disk, d, v', disk', published[x], queued[x], taken);
      } else if d.Control? {
        var coord := w.coordinate(old(w.CoordFor(c)), d, old(w.CoreFor(c)).items).0;
        CoordinationIsARun(w.su, v, disk, d, coord, v', disk', published[x], queued[x], taken);
      } else if d.key in v.core.seen {
        KnownBatchIsARun(w.su, v, disk, d, published[x], queued[x], taken);
      } else {
        var flushed := Flushed(w.su, Accept(w.su, v, d), disk, v', disk');
        NewBatchIsARun(w.su, v, disk, d, flushed, v', disk', published[x], queued[x], taken);
      }
    }
  }

  // ---- what a delivery can no longer do --------------------------------------------

  datatype Input = Input(client: ClientID, delivery: Delivery, now: nat)

  /** A client with a tombstone and nothing pending. */
  ghost predicate Dead<S, B, D, C>(w: Worker<S, B, D, C>, x: ClientID)
    reads w
  {
    x in w.tombstones && w.Slice(x).pending == []
  }

  lemma NothingToFlush<S, B, D, C>(su: Setup<S, B, D, C>, v: Volatile<S, C, D>, d: Disk<S, C, D>, v': Volatile<S, C, D>, d': Disk<S, C, D>)
    requires Flushed(su, v, d, v', d') && v.pending == []
    ensures v' == v && d' == d
  {
  }

  /** One delivery, for whichever client, leaves a dead client as it is. */
  method ServeBesideTheDead<S, B, D, C>(w: Worker<S, B, D, C>, input: Input)
    requires w.Valid() && Fresh(w.pendingAcks, w.acked, input.delivery)
    modifies w
    ensures w.Valid() && w.AllTaken() == old(w.AllTaken()) + {input.delivery}
    ensures forall x :: old(Dead(w, x)) ==> Dead(w, x) && w.Slice(x) == old(w.Slice(x)) && w.DiskFor(x) == old(w.DiskFor(x))
  {
    hide Balanced, AckedOnce, Taken, Fresh, Flushed, Accept, Total;
    var c, d := input.client, input.delivery;
    w.HandleInput(c, d, input.now);
    forall x | old(Dead(w, x))
      ensures w.Slice(x) == old(w.Slice(x)) && w.DiskFor(x) == old(w.DiskFor(x))
    {
      var v, disk, v', disk' := old(w.Slice(x)), old(w.DiskFor(x)), w.Slice(x), w.DiskFor(x);
      if Flushed(w.su, v, disk, v', disk') {
        NothingToFlush(w.su, v, disk, v', disk');
      }
      if x != c && old(c !in w.tombstones) && d.Data? && (d.key.seqID == 0 || d.key !in old(w.CoreFor(c)).seen) {
        assert w.BatchHandled(x, c, d);
      }
    }
  }

  /**
   A completed or aborted client never comes back: whatever is delivered, to it or to others,
   late batches included, its memory and its files stay as they were when it was buried.
   */
  method TheDeadStayDead<S, B, D, C>(w: Worker<S, B, D, C>, inputs: seq<Input>)
    requires w.Valid() && Distinct(seq(|inputs|, i requires 0 <= i < |inputs| => inputs[i].delivery))
    requires forall i :: 0 <= i < |inputs| ==> inputs[i].delivery !in w.AllTaken()
    modifies w
    ensures w.Valid()
    ensures forall x :: old(Dead(w, x)) ==> Dead(w, x) && w.Slice(x) == old(w.Slice(x)) && w.DiskFor(x) == old(w.DiskFor(x))
  {
    hide Balanced, AckedOnce, Taken, Fresh, Dead;
    ghost var ds := seq(|inputs|, i requires 0 <= i < |inputs| => inputs[i].delivery);
    for i := 0 to |inputs|
      invariant w.Valid() && w.AllTaken() == old(w.AllTaken()) + SetOf(ds[..i])
      invariant forall x :: old(Dead(w, x)) ==> Dead(w, x) && w.Slice(x) == old(w.Slice(x)) && w.DiskFor(x) == old(w.DiskFor(x))
    {
      assert ds[i] !in ds[..i];
      NewIsFresh(w.pendingAcks, w.acked, ds[i]);
      ServeBesideTheDead(w, inputs[i]);
      assert ds[..i + 1] == ds[..i] + [ds[i]];
    }
  }

  lemma NewIsFresh(m: map<ClientID, seq<Delivery>>, acked: seq<Delivery>, d: Delivery)
    requires d !in Taken(m, acked)
    ensures Fresh(m, acked, d)
  {
    assert forall c :: c in m && d in m[c] ==> d in Taken(m, acked);
  }

  /**
   The broker delivers a message a second time: the same numbered batch, or an EOF or token
   the coordinator knows once it has taken it.
   */
  ghost predicate Again<S, B, D, C(!new)>(w: Worker<S, B, D, C>, d: Delivery, e: Delivery)
    reads w
  {
    if d.Data? then e.Data? && e.key == d.key && d.key.seqID != 0
    else
      && e.Control?
      && (forall s: C :: w.isDuplicate(s, e) == w.isDuplicate(s, d))
      && (forall s: C, n: nat :: w.isDuplicate(w.coordinate(s, d, n).0, d))
  }

  /** A message delivered twice does what it does once, and its second delivery is acked at once. */
  method ServeTwice<S, B, D, C(!new)>(w: Worker<S, B, D, C>, c: ClientID, d: Delivery, e: Delivery, now: nat, later: nat)
    requires w.Valid() && Fresh(w.pendingAcks, w.acked, d) && Fresh(w.pendingAcks, w.acked, e) && e != d
    requires Again(w, d, e)
    modifies w
    ensures w.Valid() && w.AllTaken() == old(w.AllTaken()) + {d, e} && w.acked != [] && w.acked[|w.acked| - 1] == e
    ensures old(c !in w.tombstones) && d.Data? && d.key !in old(w.CoreFor(c)).seen ==> forall x :: w.BatchHandled(x, c, d)
    ensures old(c !in w.tombstones) && d.Control? && !w.isDuplicate(old(w.CoordFor(c)), d) ==>
      w.CoordinationHandled(c, d) && w.OthersKept(c)
  {
    hide Balanced, AckedOnce, Taken, Fresh, Flushed, Accept, Total, WriteAll, CompletionOps, Cleaned, Worker.LogTrue, Worker.Vanished;
    FreshIsNew(w.pendingAcks, w.acked, e);
    w.HandleInput(c, d, now);
    NewIsFresh(w.pendingAcks, w.acked, e);
    ghost var batch := if d.Data? then d else Data(0, Key("", 0));
    ghost var handled := iset x | w.BatchHandled(x, c, batch);
    w.HandleInput(c, e, later);
    if old(c !in w.tombstones) && d.Data? && d.key !in old(w.CoreFor(c)).seen {
      forall x ensures w.BatchHandled(x, c, d) {
        assert x in handled;
      }
    }
  }

  lemma FreshIsNew(m: map<ClientID, seq<Delivery>>, acked: seq<Delivery>, d: Delivery)
    requires Fresh(m, acked, d)
    ensures d !in Taken(m, acked)
  {
  }

  /** A worker that starts finds what a restart finds: everything unacked is queued again. */
  lemma LoadIsARestart<S, B, D, C>(su: Setup<S, B, D, C>, s: System<S, C, D>)
    ensures Next(su, s, CrashIdle) == ViewOf(s.disk, Recovered(su, s.disk), s.published, s.inbox, {})
  {
    NothingPendingAfterRestart(su, s.disk);
    hide Recovered;
    assert (s.inbox - {}) + SetOf<Delivery>([]) == s.inbox;
  }
}
