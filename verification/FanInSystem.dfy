/**
 One client at a fan-in joiner, over every interleaving of items, EOFs and retries,
 without crashes: it is finalised at most once and only when everything is in, and as
 long as it is not, the EOF that will do it is still on its way.
 */
module FanInSystem {
  import opened Common
  import opened FanInBarrier

  datatype Eof = Eof(sender: Sender, total: U32, seqID: U64)

  datatype System = System(
    declared: map<Sender, U32>,      // what each expected sender declares
    outputs: nat,                    // stages downstream
    queued: nat,                     // items on their way
    processed: nat,
    inFlight: seq<Eof>,
    barrier: Barrier,
    lastSeen: map<Sender, U64>,      // coordinationDedupSeen
    done: bool,                      // the client is completed
    finals: seq<EofEmit>,            // EOFs emitted downstream
    ignored: nat,                    // EOFs acked without effect
    halted: bool)                    // the worker has stopped with an error

  datatype Step = Process | Take(i: nat)

  function Without<T>(xs: seq<T>, i: nat): (ys: seq<T>)
    requires i < |xs|
    ensures |ys| == |xs| - 1
    ensures forall j :: 0 <= j < |ys| ==> ys[j] == xs[if j < i then j else j + 1]
  {
    xs[..i] + xs[i + 1..]
  }

  function LastSeen(s: System, sender: Sender): U64 {
    if sender in s.lastSeen then s.lastSeen[sender] else 0
  }

  ghost function Next(s: System, step: Step): System {
    match step
    case Process =>
      if s.halted || s.queued == 0 then s else s.(queued := s.queued - 1, processed := s.processed + 1)
    case Take(i) =>
      if s.halted || i >= |s.inFlight| then s else TakeEof(s, s.inFlight[i], Without(s.inFlight, i))
  }

  /** handleInputMessage and handleUpstreamEOF for one EOF; the others stay in flight. */
  ghost function TakeEof(s: System, e: Eof, rest: seq<Eof>): System {
    if s.done || !PassesDedup(e.seqID, LastSeen(s, e.sender)) then
      s.(inFlight := rest, ignored := s.ignored + 1)
    else
      var reply := Arrival(s.barrier, s.outputs, e.sender, e.total, Wrap64(s.processed));
      var s1 := s.(inFlight := rest, barrier := reply.barrier, lastSeen := s.lastSeen[e.sender := e.seqID]);
      match reply.action
      case Err(_) => s.(halted := true)
      case Ok(NoAction) => s1
      case Ok(ReenqueueUpstreamEOF) => (
        match RetrySeq(e.seqID, LastSeen(s, e.sender))
        case None => s.(halted := true)
        case Some(n) => s1.(inFlight := rest + [e.(seqID := n)]))
      case Ok(EmitEOFs(emits)) => s1.(done := true, finals := s.finals + emits)
  }

  /** Each expected sender has one EOF under way, for the items it declares; nothing is processed yet. */
  ghost predicate Initial(s: System) {
    && s.queued == SumOf(s.declared) < U32_SIZE && s.processed == 0
    && |s.inFlight| == |s.declared| && InFlightSound(s)
    && (forall k :: k in s.declared ==> Flying(s, k))
    && s.barrier == Barrier(map[], |s.declared|, false)
    && !s.done && s.finals == [] && s.ignored == 0 && !s.halted
  }

  ghost function Run(s: System, steps: seq<Step>): System {
    if steps == [] then s else Next(Run(s, steps[..|steps| - 1]), steps[|steps| - 1])
  }

  // ---- the invariant ----------------------------------------------------------

  ghost predicate Flying(s: System, k: Sender) {
    exists i :: 0 <= i < |s.inFlight| && s.inFlight[i].sender == k
  }

  /** EOFs in flight come from different senders, tell the truth, and will pass the duplicate check. */
  ghost predicate InFlightSound(s: System) {
    && (forall i, j :: 0 <= i < j < |s.inFlight| ==> s.inFlight[i].sender != s.inFlight[j].sender)
    && (forall i :: 0 <= i < |s.inFlight| ==> Sound(s, s.inFlight[i]))
  }

  ghost predicate Sound(s: System, e: Eof) {
    e.sender in s.declared && e.total == s.declared[e.sender] && PassesDedup(e.seqID, LastSeen(s, e.sender))
  }

  /** Everything recorded was declared. */
  ghost predicate RecordsSound(s: System) {
    forall k :: k in s.barrier.receivedFrom ==> k in s.declared && s.barrier.receivedFrom[k] == s.declared[k]
  }

  ghost predicate Open(s: System) {
    && !s.barrier.finalized && !s.done && s.finals == []
    && (forall k :: k in s.declared && k !in s.barrier.receivedFrom ==> Flying(s, k))
    && if s.barrier.receivedFrom == s.declared then |s.inFlight| == 1 || |s.declared| == 0
       else forall i :: 0 <= i < |s.inFlight| ==> s.inFlight[i].sender !in s.barrier.receivedFrom
  }

  ghost predicate Closed(s: System) {
    && s.barrier.finalized && s.done && s.finals == EofsTo(s.outputs, Low32(SumOf(s.declared)))
    && s.barrier.receivedFrom == s.declared && s.inFlight == [] && s.queued == 0
  }

  ghost predicate AtTheTop(s: System) {
    exists i :: 0 <= i < |s.inFlight| && RetrySeq(s.inFlight[i].seqID, LastSeen(s, s.inFlight[i].sender)).None?
  }

  ghost predicate Inv(s: System) {
    && s.queued + s.processed == SumOf(s.declared) < U32_SIZE
    && s.barrier.expected == |s.declared| && s.ignored == 0
    && InFlightSound(s) && RecordsSound(s)
    && (Open(s) || Closed(s))
    && (s.halted ==> AtTheTop(s))
  }

  /** Enough distinct senders are all the senders. */
  lemma AllMeansAll(s: System)
    requires RecordsSound(s)
    ensures |s.barrier.receivedFrom| >= |s.declared| <==> s.barrier.receivedFrom == s.declared
  {
    SubsetSize(s.barrier.receivedFrom.Keys, s.declared.Keys);
    assert |s.barrier.receivedFrom| == |s.barrier.receivedFrom.Keys| && |s.declared| == |s.declared.Keys|;
  }

  // ---- every step keeps it ----------------------------------------------------

  lemma InitialInv(s: System)
    requires Initial(s)
    ensures Inv(s)
  {
    if s.barrier.receivedFrom == s.declared {
      assert |s.declared| == 0;
    }
  }

  /** The state right after an EOF was recorded: whoever is still in flight is not yet recorded. */
  lemma Recorded(s: System, i: nat)
    requires Inv(s) && Open(s) && i < |s.inFlight|
    ensures var e, rest := s.inFlight[i], Without(s.inFlight, i);
      var received := s.barrier.receivedFrom[e.sender := e.total];
      && (e.sender in s.barrier.receivedFrom ==> s.barrier.receivedFrom[e.sender] == e.total)
      && (forall k :: k in received ==> k in s.declared && received[k] == s.declared[k])
      && (forall j :: 0 <= j < |rest| ==> rest[j] in s.inFlight && rest[j].sender !in received)
      && (|received| >= |s.declared| <==> received == s.declared)
      && (received == s.declared ==> rest == [])
  {
    hide Without;
    var e, rest := s.inFlight[i], Without(s.inFlight, i);
    assert Sound(s, e);
    var s1 := s.(barrier := s.barrier.(receivedFrom := s.barrier.receivedFrom[e.sender := e.total]));
    AllMeansAll(s1);
    forall j | 0 <= j < |rest| ensures rest[j] in s.inFlight && rest[j].sender !in s1.barrier.receivedFrom {
      var k := if j < i then j else j + 1;
      assert rest[j] == s.inFlight[k] && Sound(s, s.inFlight[k]);
    }
    assert rest != [] ==> Sound(s, rest[0]);
  }

  /** Taking one EOF out keeps the others in flight and sound. */
  lemma RestSound(s: System, i: nat, s': System)
    requires Inv(s) && Open(s) && i < |s.inFlight|
    requires s'.inFlight == Without(s.inFlight, i) && s'.declared == s.declared
    requires s'.lastSeen == s.lastSeen[s.inFlight[i].sender := s.inFlight[i].seqID]
    ensures InFlightSound(s')
  {
    hide Without, RecordsSound, Open, Flying, AtTheTop;
    var e, rest := s.inFlight[i], s'.inFlight;
    forall j | 0 <= j < |rest| ensures Sound(s', rest[j]) {
      var k := if j < i then j else j + 1;
      assert rest[j] == s.inFlight[k] && Sound(s, s.inFlight[k]);
    }
  }

  lemma StillFlying(s: System, i: nat, s': System, k: Sender)
    requires i < |s.inFlight| && s'.inFlight == Without(s.inFlight, i) && Flying(s, k) && k != s.inFlight[i].sender
    ensures Flying(s', k)
  {
    var j :| 0 <= j < |s.inFlight| && s.inFlight[j].sender == k;
    assert s'.inFlight[if j < i then j else j - 1].sender == k;
  }

  ghost function ReplyTo(s: System, e: Eof): Reply {
    Arrival(s.barrier, s.outputs, e.sender, e.total, Wrap64(s.processed))
  }

  lemma NotedState(s: System, i: nat)
    requires Inv(s) && Open(s) && !s.halted && i < |s.inFlight| && ReplyTo(s, s.inFlight[i]).action == Ok(NoAction)
    ensures var e := s.inFlight[i];
      var received := s.barrier.receivedFrom[e.sender := e.total];
      && Next(s, Take(i)) == s.(inFlight := Without(s.inFlight, i), barrier := s.barrier.(receivedFrom := received),
           lastSeen := s.lastSeen[e.sender := e.seqID])
      && |received| < |s.declared|
  {
    assert Sound(s, s.inFlight[i]);
    hide Without, Flying, AtTheTop;
  }

  lemma NotedOpen(s: System, i: nat, s': System)
    requires Inv(s) && Open(s) && i < |s.inFlight|
    requires var e := s.inFlight[i];
      && s'.inFlight == Without(s.inFlight, i) && s'.declared == s.declared && !s'.done && s'.finals == []
      && s'.barrier == s.barrier.(receivedFrom := s.barrier.receivedFrom[e.sender := e.total])
      && |s'.barrier.receivedFrom| < |s.declared|
    ensures Open(s') && RecordsSound(s')
  {
    Recorded(s, i);
    hide Without, Flying, AtTheTop, InFlightSound;
    forall k | k in s'.declared && k !in s'.barrier.receivedFrom ensures Flying(s', k) {
      StillFlying(s, i, s', k);
    }
  }

  /** Not everyone is recorded yet: the EOF is noted and gone. */
  lemma NotedKeeps(s: System, i: nat)
    requires Inv(s) && Open(s) && !s.halted && i < |s.inFlight| && ReplyTo(s, s.inFlight[i]).action == Ok(NoAction)
    ensures Inv(Next(s, Take(i)))
  {
    hide Without, Arrival, Next, InFlightSound, RecordsSound, ReplyTo, AtTheTop, Flying;
    NotedState(s, i);
    var s' := Next(s, Take(i));
    RestSound(s, i, s');
    NotedOpen(s, i, s');
  }

  /** Everyone is recorded but items are missing: the EOF goes round again, alone. */
  lemma RetryKeeps(s: System, i: nat)
    requires Inv(s) && Open(s) && !s.halted && i < |s.inFlight| && ReplyTo(s, s.inFlight[i]).action == Ok(ReenqueueUpstreamEOF)
    ensures Inv(Next(s, Take(i)))
  {
    var e, s' := s.inFlight[i], Next(s, Take(i));
    assert Sound(s, e);
    Recorded(s, i);
    hide Without, Flying;
    RetryPasses(e.seqID, LastSeen(s, e.sender));
    if s'.halted {
      assert AtTheTop(s');
    } else {
      assert s'.inFlight == [s'.inFlight[0]];
      assert Sound(s', s'.inFlight[0]);
    }
  }

  lemma FinaliseKeeps(s: System, i: nat)
    requires Inv(s) && Open(s) && !s.halted && i < |s.inFlight|
    requires var a := ReplyTo(s, s.inFlight[i]).action; a.Ok? && a.value.EmitEOFs?
    ensures Inv(Next(s, Take(i)))
  {
    assert Sound(s, s.inFlight[i]);
    Recorded(s, i);
    assert Closed(Next(s, Take(i)));
  }

  lemma TakeKeeps(s: System, i: nat)
    requires Inv(s)
    ensures Inv(Next(s, Take(i)))
  {
    if !s.halted && i < |s.inFlight| {
      assert Sound(s, s.inFlight[i]);
      match ReplyTo(s, s.inFlight[i]).action
      case Err(_) => assert false;
      case Ok(NoAction) => NotedKeeps(s, i);
      case Ok(ReenqueueUpstreamEOF) => RetryKeeps(s, i);
      case Ok(EmitEOFs(_)) => FinaliseKeeps(s, i);
    }
  }

  /** What is said about EOFs does not depend on the items. */
  lemma ItemsDoNotMatter(s: System, s': System)
    requires s' == s.(queued := s'.queued, processed := s'.processed)
    ensures InFlightSound(s) ==> InFlightSound(s')
    ensures Open(s) ==> Open(s')
    ensures AtTheTop(s) ==> AtTheTop(s')
  {
    assert forall k :: Flying(s, k) ==> Flying(s', k);
    hide Flying;
    assert InFlightSound(s) ==> forall i :: 0 <= i < |s.inFlight| ==> Sound(s, s.inFlight[i]) && Sound(s', s.inFlight[i]);
  }

  lemma ProcessKeeps(s: System)
    requires Inv(s)
    ensures Inv(Next(s, Process))
  {
    hide InFlightSound, Open, AtTheTop;
    ItemsDoNotMatter(s, Next(s, Process));
  }

  lemma NextKeeps(s: System, step: Step)
    requires Inv(s)
    ensures Inv(Next(s, step))
  {
    match step
    case Take(i) => TakeKeeps(s, i);
    case Process => ProcessKeeps(s);
  }

  lemma DeclaredKept(s: System, step: Step)
    ensures Next(s, step).declared == s.declared && Next(s, step).outputs == s.outputs
  {
  }

  lemma {:induction false} EveryRunKeeps(s: System, steps: seq<Step>)
    requires Initial(s)
    ensures Inv(Run(s, steps)) && Run(s, steps).declared == s.declared && Run(s, steps).outputs == s.outputs
  {
    hide Inv, Next, Initial;
    if steps == [] {
      InitialInv(s);
    } else {
      EveryRunKeeps(s, steps[..|steps| - 1]);
      NextKeeps(Run(s, steps[..|steps| - 1]), steps[|steps| - 1]);
      DeclaredKept(Run(s, steps[..|steps| - 1]), steps[|steps| - 1]);
    }
  }

  // ---- what it means ----------------------------------------------------------

  /**
   A client is finalised at most once, and only after every expected sender was recorded
   and every declared item was processed: over the whole run each output gets no EOF before
   that, and exactly one with it, for the sum of the totals; nothing else is sent.
   */
  lemma FinalisedOnceAndComplete(s: System, steps: seq<Step>)
    requires Initial(s)
    ensures var r := Run(s, steps);
      && (forall o: nat :: EofsFor(r.finals, o) == if r.done && o < s.outputs then 1 else 0)
      && (forall e :: e in r.finals ==> e.total == SumOf(s.declared))
      && (r.done ==> r.barrier.receivedFrom == s.declared && r.queued == 0 && r.processed == SumOf(s.declared))
  {
    EveryRunKeeps(s, steps);
    hide Run, Initial, InFlightSound, RecordsSound, Flying;
    var r := Run(s, steps);
    if r.done {
      OneForEachOutput(s.outputs, Low32(SumOf(s.declared)));
    } else {
      NoEofsYet();
    }
  }

  lemma FlyingMeansSome(r: System, k: Sender)
    requires Flying(r, k)
    ensures r.inFlight != []
  {
  }

  lemma InFlightPasses(r: System)
    requires InFlightSound(r)
    ensures forall i :: 0 <= i < |r.inFlight| ==> PassesDedup(r.inFlight[i].seqID, LastSeen(r, r.inFlight[i].sender))
  {
    assert forall i :: 0 <= i < |r.inFlight| ==> Sound(r, r.inFlight[i]);
  }

  /**
   No EOF is ever taken for a duplicate, and while the client is not finalised every
   sender without a record has its EOF in flight; once all have one, exactly one retry is.
   The worker stops only when a retry would need a sequence number past the last.
   */
  lemma EofNeverLost(s: System, steps: seq<Step>)
    requires Initial(s) && |s.declared| > 0
    ensures var r := Run(s, steps);
      && r.ignored == 0
      && (forall i :: 0 <= i < |r.inFlight| ==> PassesDedup(r.inFlight[i].seqID, LastSeen(r, r.inFlight[i].sender)))
      && (!r.done ==> r.inFlight != [])
      && (!r.done ==> forall k :: k in s.declared && k !in r.barrier.receivedFrom ==> Flying(r, k))
      && (!r.done && r.barrier.receivedFrom == s.declared ==> |r.inFlight| == 1)
      && (r.halted ==> AtTheTop(r))
  {
    hide Initial, Run, Next, Flying, AtTheTop;
    EveryRunKeeps(s, steps);
    var r := Run(s, steps);
    InFlightPasses(r);
    hide Sound, PassesDedup;
    var missing := s.declared.Keys - r.barrier.receivedFrom.Keys;
    AllMeansAll(r);
    assert |r.barrier.receivedFrom| == |r.barrier.receivedFrom.Keys| && |s.declared| == |s.declared.Keys|;
    assert r.barrier.receivedFrom.Keys <= s.declared.Keys;
    NothingMissing(r.barrier.receivedFrom.Keys, s.declared.Keys);
    if missing != {} && !r.done {
      var k :| k in missing;
      assert Flying(r, k);
      FlyingMeansSome(r, k);
    }
  }

  /**
   A copy of an EOF that was taken, or one with an earlier number of the same sender, is acked
   without effect.
   */
  lemma CopyIsIgnored(s: System, i: nat, j: nat)
    requires i < |s.inFlight| && !s.halted && !Next(s, Take(i)).halted && j < |Next(s, Take(i)).inFlight|
    requires var e, copy := s.inFlight[i], Next(s, Take(i)).inFlight[j];
      copy.sender == e.sender && 0 < copy.seqID <= e.seqID
    ensures var r := Next(s, Take(i));
      Next(r, Take(j)) == r.(inFlight := Without(r.inFlight, j), ignored := r.ignored + 1)
  {
    hide AllReceived, AggTotal, EofsTo;
  }

  /**
   The worker stops exactly at an EOF it cannot answer: one that declares another total than
   before, or one that has to be retried when there is no number left for it.
   */
  lemma StopsIff(s: System, i: nat)
    requires i < |s.inFlight| && !s.halted && !s.done && PassesDedup(s.inFlight[i].seqID, LastSeen(s, s.inFlight[i].sender))
    ensures var e, known := s.inFlight[i], s.barrier.receivedFrom;
      var received := known[e.sender := e.total];
      Next(s, Take(i)).halted <==>
        || (e.sender in known && known[e.sender] != e.total)
        || (!s.barrier.finalized && |received| >= s.barrier.expected && Wrap64(s.processed) < Wrap64(SumOf(received))
            && RetrySeq(e.seqID, LastSeen(s, e.sender)).None?)
  {
  }

  /**
   A worker that has not stopped always has a way to the end: once it has processed the items on
   their way, as many deliveries as there are EOFs in flight finalise the client.
   */
  lemma AlwaysFinishable(s: System, steps: seq<Step>)
    requires Initial(s) && |s.declared| > 0 && !Run(s, steps).halted
    ensures var r := Run(s, steps);
      Run(s, steps + seq(r.queued, _ => Process) + Deliveries(|r.inFlight|)).done
  {
    hide Initial;
    var r := Run(s, steps);
    ItemsProcessed(s, steps, r.queued);
    LastEofFinalises(s, steps + seq(r.queued, _ => Process), |r.inFlight|);
  }

  lemma {:induction false} ItemsProcessed(s: System, steps: seq<Step>, n: nat)
    requires n <= Run(s, steps).queued && !Run(s, steps).halted
    ensures var r := Run(s, steps);
      Run(s, steps + seq(n, _ => Process)) == r.(queued := r.queued - n, processed := r.processed + n)
  {
    hide TakeEof;
    var all := steps + seq(n, _ => Process);
    if n == 0 {
      assert all == steps;
    } else {
      ItemsProcessed(s, steps, n - 1);
      assert all[..|all| - 1] == steps + seq(n - 1, _ => Process);
    }
  }

  /** With all items processed, as many deliveries as there are EOFs in flight finalise the client. */
  lemma {:induction false} LastEofFinalises(s: System, steps: seq<Step>, k: nat)
    requires Initial(s) && |s.declared| > 0
    requires var r := Run(s, steps); r.queued == 0 && !r.halted && k == |r.inFlight|
    ensures Run(s, steps + Deliveries(k)).done
    decreases k
  {
    hide Inv, Next, Initial, Flying, PassesDedup;
    var r := Run(s, steps);
    if k == 0 {
      EofNeverLost(s, steps);
      assert steps + Deliveries(0) == steps;
    } else {
      var more := steps + [Take(0)];
      assert more[..|more| - 1] == steps;
      EveryRunKeeps(s, steps);
      FirstDelivery(r);
      assert steps + Deliveries(k) == more + Deliveries(k - 1);
      LastEofFinalises(s, more, k - 1);
    }
  }

  function Deliveries(k: nat): seq<Step> {
    seq(k, _ => Take(0))
  }

  lemma FirstDelivery(r: System)
    requires Inv(r) && r.queued == 0 && !r.halted && r.inFlight != []
    ensures var r' := Next(r, Take(0));
      !r'.halted && r'.queued == 0 && |r'.inFlight| == |r.inFlight| - 1
  {
    Recorded(r, 0);
    assert Sound(r, r.inFlight[0]);
  }
}
