/**
 One client on a ring of replicas, over every interleaving of item deliveries, upstream
 EOFs and token hops, without crashes: finalisation means that every item has been
 processed, exactly one baton is always alive, and each replica speaks once.
 */
module RingSystem {
  import opened Common
  import opened RingCoordination

  /** What a replica reports when it emits its EOFs. */
  datatype Emission = Emission(localMatched: U64, result: Totals)

  datatype System = System(
    total: U32,                        // items upstream declared
    queued: seq<nat>,                  // items on their way to each replica
    matched: seq<nat>,                 // processed by each replica, and published
    unmatched: seq<nat>,               // processed by each replica, and filtered out
    states: seq<Option<RingState>>,    // each replica's coordinator
    cached: seq<bool>,                 // the replica holds the upstream EOF for a retry
    done: seq<bool>,                   // the replica has completed the client
    emissions: seq<seq<Emission>>,
    eofs: nat,                         // upstream EOFs in the input queue
    tokens: seq<(nat, Token)>,         // destination and token
    dropped: nat)                      // messages that came to nothing

  datatype Step = Process(j: nat, matches: bool) | TakeEOF(j: nat) | Hop(i: nat)

  /** The ring queue of replica r leads to the next one. */
  function Following(r: nat, n: nat): nat {
    if r + 1 >= n then 0 else r + 1
  }

  function Size(s: System): nat {
    |s.queued|
  }

  function RingAt(s: System, broadcast: bool, j: nat): Ring {
    Ring(j, Size(s), broadcast)
  }

  /** applyAction at replica j, after its coordinator answered. */
  function Apply(s: System, j: nat, reply: Reply): System
    requires WellFormed(s) && j < Size(s)
  {
    var s1 := s.(states := s.states[j := reply.state]);
    var spoken := s1.(
      cached := s.cached[j := false],
      done := s.done[j := true],
      states := s.states[j := None],
      emissions := s.emissions[j := s.emissions[j] + [Emission(Wrap64(s.matched[j]), if reply.result.Some? then reply.result.value else Totals(0, 0))]]);
    match reply.action
    case NoAction => s1.(dropped := s.dropped + 1)
    case ForwardToken(t) => s1.(tokens := s.tokens + [(Following(j, Size(s)), t)])
    case EmitEOFs => spoken
    case EmitEOFsAndForwardToken(t) => spoken.(tokens := s.tokens + [(Following(j, Size(s)), t)])
    case ReenqueueUpstreamEOF =>
      if s.cached[j] then s1.(cached := s.cached[j := false], eofs := s.eofs + 1)
      else s1.(dropped := s.dropped + 1)     // the source stops with an error
  }

  function Next(s: System, broadcast: bool, step: Step): System
    requires WellFormed(s)
  {
    match step
    case Process(j, matches) =>
      if j >= Size(s) || s.queued[j] == 0 then s
      else if s.done[j] then s.(queued := s.queued[j := s.queued[j] - 1], dropped := s.dropped + 1)
      else if matches then s.(queued := s.queued[j := s.queued[j] - 1], matched := s.matched[j := s.matched[j] + 1])
      else s.(queued := s.queued[j := s.queued[j] - 1], unmatched := s.unmatched[j := s.unmatched[j] + 1])
    case TakeEOF(j) =>
      if j >= Size(s) || s.eofs == 0 then s
      else if s.done[j] then s.(eofs := s.eofs - 1, dropped := s.dropped + 1)
      else
        var s1 := s.(eofs := s.eofs - 1, cached := s.cached[j := true]);
        Apply(s1, j, UpstreamEOF(RingAt(s, broadcast, j), s.states[j], s.total, Wrap64(s.matched[j]), Wrap64(s.unmatched[j])))
    case Hop(i) =>
      if i >= |s.tokens| || s.tokens[i].0 >= Size(s) then s
      else
        var (j, t) := s.tokens[i];
        var s1 := s.(tokens := s.tokens[..i] + s.tokens[i + 1..]);
        if s.done[j] then s1.(dropped := s.dropped + 1)
        else Apply(s1, j, RingToken(RingAt(s, broadcast, j), s.states[j], t, Wrap64(s.matched[j]), Wrap64(s.unmatched[j])))
  }

  ghost predicate WellFormed(s: System) {
    && Size(s) > 0
    && |s.matched| == |s.unmatched| == |s.states| == |s.cached| == |s.done| == |s.emissions| == Size(s)
  }

  lemma ApplyWellFormed(s: System, j: nat, reply: Reply)
    requires WellFormed(s) && j < Size(s)
    ensures WellFormed(Apply(s, j, reply)) && Size(Apply(s, j, reply)) == Size(s)
    ensures Apply(s, j, reply).total == s.total
  {
  }

  lemma NextWellFormed(s: System, broadcast: bool, step: Step)
    requires WellFormed(s)
    ensures WellFormed(Next(s, broadcast, step)) && Size(Next(s, broadcast, step)) == Size(s)
    ensures Next(s, broadcast, step).total == s.total
  {
    forall s1: System, j: nat, reply | WellFormed(s1) && j < Size(s1)
      ensures WellFormed(Apply(s1, j, reply)) && Size(Apply(s1, j, reply)) == Size(s1) && Apply(s1, j, reply).total == s1.total
    {
      ApplyWellFormed(s1, j, reply);
    }
    hide Apply;
  }

  /** Every replica has its share of the declared items still ahead of it; the EOF follows them. */
  ghost predicate Initial(s: System) {
    && WellFormed(s)
    && Upto(s.queued, Size(s)) == s.total
    && s.eofs == 1 && s.tokens == [] && s.dropped == 0
    && forall j :: 0 <= j < Size(s) ==>
      s.matched[j] == 0 && s.unmatched[j] == 0 && s.states[j] == None && !s.cached[j] && !s.done[j] && s.emissions[j] == []
  }

  function Run(s: System, broadcast: bool, steps: seq<Step>): (r: System)
    requires WellFormed(s)
    ensures WellFormed(r) && Size(r) == Size(s) && r.total == s.total
  {
    if steps == [] then s
    else
      var before := Run(s, broadcast, steps[..|steps| - 1]);
      NextWellFormed(before, broadcast, steps[|steps| - 1]);
      Next(before, broadcast, steps[|steps| - 1])
  }

  // ---- sums -------------------------------------------------------------------

  function Upto(xs: seq<nat>, k: nat): nat
    requires k <= |xs|
  {
    if k == 0 then 0 else Upto(xs, k - 1) + xs[k - 1]
  }

  lemma {:induction false} UptoUpdate(xs: seq<nat>, i: nat, x: nat, k: nat)
    requires i < |xs| && k <= |xs|
    ensures Upto(xs[i := x], k) == Upto(xs, k) + (if i < k then x - xs[i] else 0)
  {
    if k > 0 {
      UptoUpdate(xs, i, x, k - 1);
    }
  }

  lemma {:induction false} UptoGrows(xs: seq<nat>, a: nat, b: nat)
    requires a <= b <= |xs|
    ensures Upto(xs, a) <= Upto(xs, b)
  {
    if a < b {
      UptoGrows(xs, a, b - 1);
    }
  }

  /** Summed over the replicas a token started by q has visited when it is on its way to j. */
  function Visited(xs: seq<nat>, q: nat, j: nat): nat
    requires q < |xs| && j < |xs|
  {
    UptoGrows(xs, q, |xs|);
    if q < j then UptoGrows(xs, q, j); Upto(xs, j) - Upto(xs, q)
    else Upto(xs, |xs|) - Upto(xs, q) + Upto(xs, j)
  }

  lemma VisitedNext(xs: seq<nat>, q: nat, j: nat)
    requires q < |xs| && j < |xs| && 1 < |xs|
    ensures j != q ==> Visited(xs, q, Following(j, |xs|)) == Visited(xs, q, j) + xs[j]
    ensures Visited(xs, q, Following(q, |xs|)) == xs[q]
    ensures Visited(xs, q, q) == Upto(xs, |xs|)
  {
  }

  lemma VisitedUpdate(xs: seq<nat>, i: nat, x: nat, q: nat, j: nat)
    requires i < |xs| && q < |xs| && j < |xs| && x >= xs[i]
    ensures Visited(xs[i := x], q, j) >= Visited(xs, q, j)
  {
    UptoUpdate(xs, i, x, j);
    UptoUpdate(xs, i, x, q);
    UptoUpdate(xs, i, x, |xs|);
  }

  lemma VisitedBounded(xs: seq<nat>, q: nat, j: nat)
    requires q < |xs| && j < |xs|
    ensures Visited(xs, q, j) <= Upto(xs, |xs|)
  {
    UptoGrows(xs, j, |xs|);
    if j <= q {
      UptoGrows(xs, j, q);
    }
  }

  lemma {:induction false} ZeroSum(xs: seq<nat>, k: nat)
    requires k <= |xs| && Upto(xs, k) == 0
    ensures forall j :: 0 <= j < k ==> xs[j] == 0
  {
    if k > 0 {
      ZeroSum(xs, k - 1);
    }
  }

  lemma {:induction false} PartOfSum(xs: seq<nat>, j: nat, k: nat)
    requires j < k <= |xs|
    ensures xs[j] <= Upto(xs, k)
  {
    if j < k - 1 {
      PartOfSum(xs, j, k - 1);
    }
  }

  // ---- the invariant ----------------------------------------------------------

  ghost predicate Conserved(s: System)
    requires WellFormed(s)
  {
    var n := Size(s);
    Upto(s.queued, n) + Upto(s.matched, n) + Upto(s.unmatched, n) == s.total
  }

  ghost predicate Silent(s: System, j: nat)
    requires WellFormed(s) && j < Size(s)
  {
    !s.done[j] && s.emissions[j] == []
  }

  /** Replica j has spoken, once, with the totals of a finished ring. */
  ghost predicate Spoken(s: System, j: nat)
    requires WellFormed(s) && j < Size(s)
  {
    && s.done[j] && s.states[j] == None && !s.cached[j]
    && s.matched[j] < U64_SIZE && Upto(s.matched, Size(s)) < U64_SIZE && Upto(s.unmatched, Size(s)) < U64_SIZE
    && s.emissions[j] == [Emission(s.matched[j], Totals(Upto(s.matched, Size(s)), Upto(s.unmatched, Size(s))))]
  }

  ghost predicate Idle(s: System, j: nat)
    requires WellFormed(s) && j < Size(s)
  {
    Silent(s, j) && s.states[j] == None && !s.cached[j]
  }

  /** Replica q has started a ring and holds the EOF in case it fails. */
  ghost predicate Leading(s: System, q: nat)
    requires WellFormed(s) && q < Size(s)
  {
    Silent(s, q) && s.cached[q] && s.states[q].Some? && s.states[q].value.isInitiator && s.states[q].value.upstreamTotal == s.total
  }

  /** All items are in and processed. */
  ghost predicate Drained(s: System)
    requires WellFormed(s)
  {
    Upto(s.queued, Size(s)) == 0
  }

  /** The upstream EOF waits in the queue. */
  ghost predicate Waiting(s: System)
    requires WellFormed(s)
  {
    s.eofs == 1 && s.tokens == [] && forall j :: 0 <= j < Size(s) ==> Idle(s, j)
  }

  /** One token is collecting: it has read no more than the replicas behind it now hold. */
  ghost predicate Collects(s: System)
    requires WellFormed(s)
  {
    && s.eofs == 0 && Size(s) > 1 && |s.tokens| == 1 && s.tokens[0].1.phase == Collecting
    && s.tokens[0].0 < Size(s) && s.tokens[0].1.initiator < Size(s)
    && var (j, t) := s.tokens[0];
      && Leading(s, t.initiator) && s.states[t.initiator].value.phase == t.phase
      && (forall i :: 0 <= i < Size(s) && i != t.initiator ==> Idle(s, i))
      && t.matched <= Visited(s.matched, t.initiator, j)
      && t.notMatched <= Visited(s.unmatched, t.initiator, j)
  }

  /** The replicas a token started by q has passed when it is on its way to j, q itself aside. */
  predicate Passed(q: nat, j: nat, i: nat) {
    if q < j then q < i < j else q < i || i < j
  }

  /** One token is closing: the replicas behind it have spoken, the others have not. */
  ghost predicate Closes(s: System)
    requires WellFormed(s)
  {
    && s.eofs == 0 && Size(s) > 1 && |s.tokens| == 1 && s.tokens[0].1.phase == Closing
    && s.tokens[0].0 < Size(s) && s.tokens[0].1.initiator < Size(s)
    && Drained(s)
    && var (j, t) := s.tokens[0];
      && t.matched == Upto(s.matched, Size(s)) && t.notMatched == Upto(s.unmatched, Size(s))
      && Leading(s, t.initiator) && s.states[t.initiator].value.phase == t.phase
      && forall i :: 0 <= i < Size(s) && i != t.initiator ==> if Passed(t.initiator, j, i) then Spoken(s, i) else Idle(s, i)
  }

  /** Nothing is under way: everyone has spoken, or, without broadcast, exactly one has. */
  ghost predicate Finished(s: System, broadcast: bool)
    requires WellFormed(s)
  {
    && s.eofs == 0 && s.tokens == [] && Drained(s)
    && if broadcast then forall j :: 0 <= j < Size(s) ==> Spoken(s, j)
       else exists q: nat :: SpeaksAlone(s, q)
  }

  ghost predicate SpeaksAlone(s: System, q: nat)
    requires WellFormed(s)
  {
    q < Size(s) && Spoken(s, q) && forall j :: 0 <= j < Size(s) && j != q ==> Idle(s, j)
  }

  ghost predicate Inv(s: System, broadcast: bool)
    requires WellFormed(s)
  {
    && Conserved(s) && s.dropped == 0
    && (Waiting(s) || Collects(s) || (broadcast && Closes(s)) || Finished(s, broadcast))
  }

  // ---- the invariant holds in every run ---------------------------------------

  lemma InitialInv(s: System, broadcast: bool)
    requires Initial(s)
    ensures Inv(s, broadcast)
  {
    NothingProcessed(s.matched, Size(s));
    NothingProcessed(s.unmatched, Size(s));
  }

  lemma {:induction false} NothingProcessed(xs: seq<nat>, k: nat)
    requires k <= |xs| && forall j :: 0 <= j < |xs| ==> xs[j] == 0
    ensures Upto(xs, k) == 0
  {
    if k > 0 {
      NothingProcessed(xs, k - 1);
    }
  }

  /** Every replica is idle, leads a ring, or has spoken because all items are in. */
  lemma EachIsKnown(s: System, broadcast: bool, j: nat)
    requires WellFormed(s) && Inv(s, broadcast) && j < Size(s)
    ensures Idle(s, j) || Leading(s, j) || (Spoken(s, j) && Drained(s))
  {
    if Finished(s, broadcast) && !broadcast {
      var q: nat :| SpeaksAlone(s, q);
      assert j == q || Idle(s, j);
    }
  }

  /** Processing an item moves it from the queue to the counts and touches nothing else. */
  lemma ProcessCounts(s: System, broadcast: bool, j: nat, matches: bool)
    requires WellFormed(s) && Conserved(s) && j < Size(s) && s.queued[j] > 0 && !s.done[j]
    ensures var s' := Next(s, broadcast, Process(j, matches));
      && WellFormed(s') && Conserved(s')
      && s' == s.(queued := s'.queued, matched := s'.matched, unmatched := s'.unmatched)
    ensures var s' := Next(s, broadcast, Process(j, matches));
      forall q: nat, i: nat :: q < Size(s) && i < Size(s) ==>
        Visited(s'.matched, q, i) >= Visited(s.matched, q, i) && Visited(s'.unmatched, q, i) >= Visited(s.unmatched, q, i)
  {
    var n, counts := Size(s), if matches then s.matched else s.unmatched;
    UptoUpdate(s.queued, j, s.queued[j] - 1, n);
    UptoUpdate(counts, j, counts[j] + 1, n);
    forall q: nat, i: nat | q < n && i < n ensures Visited(counts[j := counts[j] + 1], q, i) >= Visited(counts, q, i) {
      VisitedUpdate(counts, j, counts[j] + 1, q, i);
    }
  }

  lemma ProcessKeeps(s: System, broadcast: bool, j: nat, matches: bool)
    requires WellFormed(s) && Inv(s, broadcast)
    ensures var s' := Next(s, broadcast, Process(j, matches)); WellFormed(s') && Inv(s', broadcast)
  {
    if j < Size(s) && s.queued[j] > 0 {
      var s' := Next(s, broadcast, Process(j, matches));
      EachIsKnown(s, broadcast, j);
      PartOfSum(s.queued, j, Size(s));
      ProcessCounts(s, broadcast, j, matches);
      hide Next, Visited, Conserved;
      forall i | 0 <= i < Size(s) && Idle(s, i) ensures Idle(s', i) {
      }
      if Collects(s) {
        assert forall i :: 0 <= i < Size(s) && i != s.tokens[0].1.initiator ==> Idle(s, i);
        assert Collects(s');
      } else {
        assert forall i :: 0 <= i < Size(s) ==> Idle(s, i);
        assert Waiting(s');
      }
    }
  }

  /** The counts a replica reads fit the machine integers. */
  lemma CountsFit(s: System, j: nat)
    requires WellFormed(s) && Conserved(s) && j < Size(s)
    ensures s.matched[j] + s.unmatched[j] <= s.total
    ensures Wrap64(s.matched[j]) == s.matched[j] && Wrap64(s.unmatched[j]) == s.unmatched[j]
    ensures Upto(s.matched, Size(s)) + Upto(s.unmatched, Size(s)) <= s.total
  {
    PartOfSum(s.matched, j, Size(s));
    PartOfSum(s.unmatched, j, Size(s));
  }

  /** An agreement between the collected counts and the declared total means all items are in. */
  lemma AgreementMeansDrained(s: System, m: U64, nm: U64)
    requires WellFormed(s) && Conserved(s)
    requires m <= Upto(s.matched, Size(s)) && nm <= Upto(s.unmatched, Size(s))
    ensures Low32(Wrap64(m + nm)) == s.total <==>
      Drained(s) && m == Upto(s.matched, Size(s)) && nm == Upto(s.unmatched, Size(s))
  {
    assert m + nm <= s.total;
  }

  lemma TakeEOFKeeps(s: System, broadcast: bool, j: nat)
    requires WellFormed(s) && Inv(s, broadcast)
    ensures var s' := Next(s, broadcast, TakeEOF(j)); WellFormed(s') && Inv(s', broadcast)
  {
    NextWellFormed(s, broadcast, TakeEOF(j));
    if j < Size(s) && s.eofs == 1 {
      assert Waiting(s) && Idle(s, j);
      CountsFit(s, j);
      if Size(s) == 1 {
        assert Upto(s.matched, 1) == Upto(s.matched, 0) + s.matched[0] == s.matched[0];
        assert Upto(s.unmatched, 1) == Upto(s.unmatched, 0) + s.unmatched[0] == s.unmatched[0];
        AgreementMeansDrained(s, s.matched[0], s.unmatched[0]);
        var s' := Next(s, broadcast, TakeEOF(j));
        if s'.eofs == 1 {
          assert Waiting(s');
        } else {
          assert SpeaksAlone(s', 0);
          assert Finished(s', broadcast);
        }
      } else {
        VisitedNext(s.matched, j, j);
        VisitedNext(s.unmatched, j, j);
        var s' := Next(s, broadcast, TakeEOF(j));
        forall i | 0 <= i < Size(s) && i != j ensures Idle(s', i) {
          assert Idle(s, i);
        }
        assert Collects(s');
      }
    }
  }

  lemma CollectingHopKeeps(s: System, broadcast: bool)
    requires WellFormed(s) && Conserved(s) && s.dropped == 0 && Collects(s)
    ensures var s' := Next(s, broadcast, Hop(0));
      && WellFormed(s') && Inv(s', broadcast) && s'.queued == s.queued
      && var (j, t) := s.tokens[0];
        (j != t.initiator ==> Collects(s') && s'.tokens[0].0 == Following(j, Size(s)) && s'.tokens[0].1.initiator == t.initiator)
  {
    NextWellFormed(s, broadcast, Hop(0));
    var s' := Next(s, broadcast, Hop(0));
    var (j, t) := s.tokens[0];
    var n := Size(s);
    CountsFit(s, j);
    VisitedNext(s.matched, t.initiator, j);
    VisitedNext(s.unmatched, t.initiator, j);
    VisitedBounded(s.matched, t.initiator, Following(j, n));
    VisitedBounded(s.unmatched, t.initiator, Following(j, n));
    if j != t.initiator {
      assert Idle(s, j);
      forall i | 0 <= i < n && i != t.initiator ensures Idle(s', i) {
        assert Idle(s, i);
      }
      assert Collects(s');
    } else {
      AgreementMeansDrained(s, t.matched, t.notMatched);
      RingEnds(s, broadcast);
    }
  }

  /** The initiator gets its collecting token back. */
  lemma RingEnds(s: System, broadcast: bool)
    requires WellFormed(s) && Conserved(s) && s.dropped == 0 && Collects(s) && s.tokens[0].0 == s.tokens[0].1.initiator
    ensures var s' := Next(s, broadcast, Hop(0));
      && WellFormed(s') && s'.matched == s.matched && s'.unmatched == s.unmatched && s'.queued == s.queued && s'.dropped == 0
      && if !Drained(s) || s.tokens[0].1.matched != Upto(s.matched, Size(s)) || s.tokens[0].1.notMatched != Upto(s.unmatched, Size(s))
         then Waiting(s')
         else if broadcast then Closes(s') else Finished(s', broadcast)
  {
    NextWellFormed(s, broadcast, Hop(0));
    var s' := Next(s, broadcast, Hop(0));
    var (q, t) := s.tokens[0];
    CountsFit(s, q);
    VisitedNext(s.matched, q, q);
    VisitedNext(s.unmatched, q, q);
    AgreementMeansDrained(s, t.matched, t.notMatched);
    forall i | 0 <= i < Size(s) && i != q ensures Idle(s', i) {
      assert Idle(s, i);
    }
    if s'.eofs == 1 {
      assert Waiting(s');
    } else if broadcast {
      assert Closes(s');
    } else {
      assert SpeaksAlone(s', q);
    }
  }

  lemma ClosingHopKeeps(s: System)
    requires WellFormed(s) && Conserved(s) && s.dropped == 0 && Closes(s)
    ensures var s' := Next(s, true, Hop(0)); WellFormed(s') && Inv(s', true)
  {
    NextWellFormed(s, true, Hop(0));
    var s' := Next(s, true, Hop(0));
    var (j, t) := s.tokens[0];
    CountsFit(s, j);
    if j == t.initiator {
      forall i | 0 <= i < Size(s) ensures Spoken(s', i) {
        assert i != j ==> Passed(j, j, i) && Spoken(s, i);
      }
    } else {
      assert !Passed(t.initiator, j, j) && Idle(s, j);
      var k := Following(j, Size(s));
      forall i | 0 <= i < Size(s) && i != t.initiator
        ensures if Passed(t.initiator, k, i) then Spoken(s', i) else Idle(s', i)
      {
        assert if Passed(t.initiator, j, i) then Spoken(s, i) else Idle(s, i);
      }
      assert Closes(s');
    }
  }

  lemma NextKeeps(s: System, broadcast: bool, step: Step)
    requires WellFormed(s) && Inv(s, broadcast)
    ensures var s' := Next(s, broadcast, step); WellFormed(s') && Inv(s', broadcast)
  {
    match step
    case Process(j, matches) => ProcessKeeps(s, broadcast, j, matches);
    case TakeEOF(j) => TakeEOFKeeps(s, broadcast, j);
    case Hop(i) =>
      if Collects(s) && i == 0 {
        CollectingHopKeeps(s, broadcast);
      } else if broadcast && Closes(s) && i == 0 {
        ClosingHopKeeps(s);
      }
  }

  lemma {:induction false} EveryRunKeeps(s: System, broadcast: bool, steps: seq<Step>)
    requires Initial(s)
    ensures Inv(Run(s, broadcast, steps), broadcast)
  {
    if steps == [] {
      InitialInv(s, broadcast);
    } else {
      EveryRunKeeps(s, broadcast, steps[..|steps| - 1]);
      NextKeeps(Run(s, broadcast, steps[..|steps| - 1]), broadcast, steps[|steps| - 1]);
    }
  }

  // ---- what it means ----------------------------------------------------------

  /** A replica speaks only when every declared item has been processed, and then with the true totals. */
  lemma TerminationDetected(s: System, broadcast: bool, steps: seq<Step>, j: nat, k: nat)
    requires Initial(s)
    requires var r := Run(s, broadcast, steps); j < Size(r) && k < |r.emissions[j]|
    ensures var r := Run(s, broadcast, steps);
      && (forall i :: 0 <= i < Size(r) ==> r.queued[i] == 0)
      && Upto(r.matched, Size(r)) + Upto(r.unmatched, Size(r)) == r.total
      && r.emissions[j][k].result.matched == Upto(r.matched, Size(r))
      && r.emissions[j][k].result.notMatched == Upto(r.unmatched, Size(r))
  {
    EveryRunKeeps(s, broadcast, steps);
    var r := Run(s, broadcast, steps);
    EachIsKnown(r, broadcast, j);
    ZeroSum(r.queued, Size(r));
  }

  datatype Baton = EofQueued | Gathering | Announcing | Over

  ghost predicate Holds(s: System, broadcast: bool, b: Baton)
    requires WellFormed(s)
  {
    match b
    case EofQueued => s.eofs == 1 && s.tokens == []
    case Gathering => s.eofs == 0 && |s.tokens| == 1 && s.tokens[0].1.phase == Collecting
    case Announcing => s.eofs == 0 && |s.tokens| == 1 && s.tokens[0].1.phase == Closing
    case Over => s.eofs == 0 && s.tokens == [] && exists j :: 0 <= j < Size(s) && s.done[j]
  }

  /** The replica that started a round knows the phase its token is in. */
  lemma PhaseIsKnown(s: System, broadcast: bool, steps: seq<Step>)
    requires Initial(s)
    ensures var r := Run(s, broadcast, steps);
      forall k :: 0 <= k < |r.tokens| ==>
        var t := r.tokens[k].1;
        t.initiator < Size(r) && r.states[t.initiator].Some? && r.states[t.initiator].value.phase == t.phase
  {
    hide Idle, Spoken, Upto, Visited, Passed, Next;
    EveryRunKeeps(s, broadcast, steps);
  }

  /** In every reachable state there is exactly one baton, and no message ever came to nothing. */
  lemma OneBaton(s: System, broadcast: bool, steps: seq<Step>)
    requires Initial(s)
    ensures var r := Run(s, broadcast, steps);
      && r.dropped == 0
      && (exists b :: Holds(r, broadcast, b))
      && (forall a, b :: Holds(r, broadcast, a) && Holds(r, broadcast, b) ==> a == b)
  {
    EveryRunKeeps(s, broadcast, steps);
    var r := Run(s, broadcast, steps);
    if Waiting(r) {
      assert Holds(r, broadcast, EofQueued);
    } else if Collects(r) {
      assert Holds(r, broadcast, Gathering);
    } else if broadcast && Closes(r) {
      assert Holds(r, broadcast, Announcing);
    } else {
      if broadcast {
        assert Spoken(r, 0);
      } else {
        var q: nat :| SpeaksAlone(r, q);
        assert r.done[q];
      }
      assert Holds(r, broadcast, Over);
    }
  }

  function Declared(es: seq<seq<Emission>>): seq<nat> {
    seq(|es|, j requires 0 <= j < |es| => if es[j] == [] then 0 else Low32(es[j][0].localMatched))
  }

  lemma {:induction false} SameSums(xs: seq<nat>, ys: seq<nat>, k: nat)
    requires k <= |xs| && k <= |ys| && forall j :: 0 <= j < k ==> xs[j] == ys[j]
    ensures Upto(xs, k) == Upto(ys, k)
  {
    if k > 0 {
      SameSums(xs, ys, k - 1);
    }
  }

  /**
   When a broadcast ring is over, each replica has emitted exactly once, and the totals
   declared downstream add up to the token's matched count, the number of rows published.
   */
  lemma EachSpeaksOnce(s: System, steps: seq<Step>)
    requires Initial(s) && Holds(Run(s, true, steps), true, Over)
    ensures var r := Run(s, true, steps);
      && (forall j :: 0 <= j < Size(r) ==> |r.emissions[j]| == 1 && r.emissions[j][0].result.matched == Upto(r.matched, Size(r)))
      && Upto(Declared(r.emissions), Size(r)) == Upto(r.matched, Size(r))
  {
    EveryRunKeeps(s, true, steps);
    var r := Run(s, true, steps);
    assert Finished(r, true);
    forall j | 0 <= j < Size(r) ensures Declared(r.emissions)[j] == r.matched[j] {
      assert Spoken(r, j);
      CountsFit(r, j);
    }
    forall j | 0 <= j < Size(r) ensures |r.emissions[j]| == 1 && r.emissions[j][0].result.matched == Upto(r.matched, Size(r)) {
      assert Spoken(r, j);
    }
    SameSums(Declared(r.emissions), r.matched, Size(r));
  }

  /** Without broadcast exactly one replica speaks, once, for the whole ring. */
  lemma OneSpeaksForAll(s: System, steps: seq<Step>)
    returns (speaker: nat)
    requires Initial(s) && Holds(Run(s, false, steps), false, Over)
    ensures var r := Run(s, false, steps);
      && speaker < Size(r) && |r.emissions[speaker]| == 1
      && r.emissions[speaker][0].result.matched == Upto(r.matched, Size(r))
      && r.emissions[speaker][0].result.notMatched == Upto(r.unmatched, Size(r))
      && forall j :: 0 <= j < Size(r) && j != speaker ==> r.emissions[j] == []
  {
    EveryRunKeeps(s, false, steps);
    var r := Run(s, false, steps);
    var q: nat :| SpeaksAlone(r, q);
    speaker := q;
    forall j | 0 <= j < Size(r) && j != q ensures r.emissions[j] == [] {
      assert Idle(r, j);
    }
  }

  // ---- progress: once everything is processed, one more round is enough ---------

  /** The collecting token has read exactly what the replicas behind it hold. */
  ghost predicate Exact(s: System)
    requires WellFormed(s) && Collects(s)
  {
    var (j, t) := s.tokens[0];
    t.matched == Visited(s.matched, t.initiator, j) && t.notMatched == Visited(s.unmatched, t.initiator, j)
  }

  ghost predicate Concluding(s: System, broadcast: bool)
    requires WellFormed(s)
  {
    Inv(s, broadcast) && Drained(s) && ((Collects(s) && Exact(s)) || (broadcast && Closes(s)))
  }

  function Distance(q: nat, j: nat, n: nat): int {
    if j <= q then q - j else q + n - j
  }

  ghost function HopsLeft(s: System, broadcast: bool): int
    requires WellFormed(s) && Concluding(s, broadcast)
  {
    var (j, t) := s.tokens[0];
    Distance(t.initiator, j, Size(s)) + 1 + (if broadcast && t.phase == Collecting then Size(s) else 0)
  }

  lemma ConcludingHop(s: System, broadcast: bool)
    requires WellFormed(s) && Concluding(s, broadcast)
    ensures var s' := Next(s, broadcast, Hop(0));
      && WellFormed(s') && HopsLeft(s, broadcast) > 0
      && if HopsLeft(s, broadcast) == 1 then Finished(s', broadcast)
         else Concluding(s', broadcast) && HopsLeft(s', broadcast) == HopsLeft(s, broadcast) - 1
  {
    NextWellFormed(s, broadcast, Hop(0));
    NextKeeps(s, broadcast, Hop(0));
    if Collects(s) {
      GatheringHop(s, broadcast);
    } else {
      AnnouncingHop(s);
    }
  }

  lemma AnnouncingHop(s: System)
    requires WellFormed(s) && Conserved(s) && s.dropped == 0 && Closes(s)
    ensures var s' := Next(s, true, Hop(0));
      && WellFormed(s') && s'.queued == s.queued
      && if s.tokens[0].0 == s.tokens[0].1.initiator then s'.tokens == []
         else s'.tokens == [(Following(s.tokens[0].0, Size(s)), s.tokens[0].1)]
  {
    NextWellFormed(s, true, Hop(0));
    var (j, t) := s.tokens[0];
    if j != t.initiator {
      assert !Passed(t.initiator, j, j) && Idle(s, j);
    }
  }

  lemma GatheringHop(s: System, broadcast: bool)
    requires WellFormed(s) && Conserved(s) && s.dropped == 0 && Collects(s) && Exact(s) && Drained(s)
    ensures var s' := Next(s, broadcast, Hop(0));
      && WellFormed(s') && Drained(s')
      && var (j, t) := s.tokens[0];
        if j != t.initiator then
          && Collects(s') && Exact(s') && s'.tokens[0].0 == Following(j, Size(s)) && s'.tokens[0].1.initiator == t.initiator
        else if broadcast then
          Closes(s') && s'.tokens[0].0 == Following(j, Size(s)) && s'.tokens[0].1.initiator == j
        else Finished(s', broadcast)
  {
    CollectingHopKeeps(s, broadcast);
    var (j, t) := s.tokens[0];
    VisitedNext(s.matched, t.initiator, j);
    VisitedNext(s.unmatched, t.initiator, j);
    if j == t.initiator {
      RingEnds(s, broadcast);
    } else {
      assert Idle(s, j);
      CountsFit(s, j);
      VisitedBounded(s.matched, t.initiator, Following(j, Size(s)));
      VisitedBounded(s.unmatched, t.initiator, Following(j, Size(s)));
      hide Visited, Conserved;
    }
  }

  function Hops(k: nat): seq<Step> {
    seq(k, _ => Hop(0))
  }

  lemma {:induction false} Concludes(s: System, broadcast: bool, steps: seq<Step>, left: nat)
    requires WellFormed(s) && Concluding(Run(s, broadcast, steps), broadcast) && left == HopsLeft(Run(s, broadcast, steps), broadcast)
    ensures Finished(Run(s, broadcast, steps + Hops(left)), broadcast)
    decreases left
  {
    hide Concluding, HopsLeft, Finished, Next, Inv;
    var more := steps + [Hop(0)];
    assert more[..|more| - 1] == steps;
    ConcludingHop(Run(s, broadcast, steps), broadcast);
    if left == 1 {
      assert steps + Hops(1) == more;
    } else {
      Concludes(s, broadcast, more, left - 1);
      assert steps + Hops(left) == more + Hops(left - 1);
    }
  }

  /**
   A round started when every item has been processed does not fail: N hops later the
   ring is over, 2N with broadcast, none with a single replica.
   */
  lemma LastRoundFinishes(s: System, broadcast: bool, steps: seq<Step>, j: nat)
    requires Initial(s) && j < Size(s)
    requires Holds(Run(s, broadcast, steps), broadcast, EofQueued) && Drained(Run(s, broadcast, steps))
    ensures var n := Size(s);
      var hops := if n == 1 then 0 else if broadcast then n + n else n;
      Holds(Run(s, broadcast, steps + [TakeEOF(j)] + Hops(hops)), broadcast, Over)
  {
    EveryRunKeeps(s, broadcast, steps);
    hide Concluding, HopsLeft, Finished, Next, Inv;
    var more := steps + [TakeEOF(j)];
    assert more[..|more| - 1] == steps;
    QuietStart(Run(s, broadcast, steps), broadcast, j);
    var left := if Size(s) == 1 then 0 else if broadcast then Size(s) + Size(s) else Size(s);
    if Size(s) == 1 {
      assert more + Hops(0) == more;
    } else {
      Concludes(s, broadcast, more, left);
    }
    SomeoneSpoke(Run(s, broadcast, more + Hops(left)), broadcast);
  }

  lemma {:induction false} SomeQueue(xs: seq<nat>, k: nat) returns (j: nat)
    requires k <= |xs| && Upto(xs, k) > 0
    ensures j < k && xs[j] > 0
  {
    if xs[k - 1] > 0 {
      j := k - 1;
    } else {
      j := SomeQueue(xs, k - 1);
    }
  }

  /** Every item on its way can be processed. */
  lemma {:induction false} AllProcessed(s: System, broadcast: bool, steps: seq<Step>) returns (more: seq<Step>)
    requires Initial(s)
    ensures Drained(Run(s, broadcast, steps + more))
    decreases var r := Run(s, broadcast, steps); Upto(r.queued, Size(r))
  {
    var r := Run(s, broadcast, steps);
    if Drained(r) {
      more := [];
      assert steps + [] == steps;
    } else {
      var j := SomeQueue(r.queued, Size(r));
      UptoUpdate(r.queued, j, r.queued[j] - 1, Size(r));
      var on := steps + [Process(j, true)];
      assert on[..|on| - 1] == steps;
      var rest := AllProcessed(s, broadcast, on);
      more := [Process(j, true)] + rest;
      assert steps + more == on + rest;
    }
  }

  /** With everything processed, the token goes home and the ring ends, or ends with its next round. */
  lemma {:induction false} DrainedFinishes(s: System, broadcast: bool, steps: seq<Step>) returns (more: seq<Step>)
    requires Initial(s) && Drained(Run(s, broadcast, steps))
    ensures Holds(Run(s, broadcast, steps + more), broadcast, Over)
    decreases var r := Run(s, broadcast, steps); if Collects(r) then Distance(r.tokens[0].1.initiator, r.tokens[0].0, Size(r)) + 1 else 0
  {
    hide Next, Waiting, Collects, Closes, Finished, Conserved, Upto, Holds, Hops, Drained;
    EveryRunKeeps(s, broadcast, steps);
    var r := Run(s, broadcast, steps);
    if Collects(r) {
      HopHome(r, broadcast);
      var on := steps + [Hop(0)];
      assert on[..|on| - 1] == steps;
      var rest := DrainedFinishes(s, broadcast, on);
      more := [Hop(0)] + rest;
      assert steps + more == on + rest;
    } else if Waiting(r) {
      more := WaitingFinishes(s, broadcast, steps);
    } else if broadcast && Closes(r) {
      more := ClosingFinishes(s, broadcast, steps);
    } else {
      more := [];
      assert steps + [] == steps;
      SomeoneSpoke(r, broadcast);
    }
  }

  /** A collecting token comes one replica closer to its initiator, or ends its round there. */
  lemma HopHome(r: System, broadcast: bool)
    requires WellFormed(r) && Inv(r, broadcast) && Collects(r)
    ensures var r' := Next(r, broadcast, Hop(0));
      && WellFormed(r') && (Drained(r) ==> Drained(r'))
      && (Collects(r') ==>
            Distance(r'.tokens[0].1.initiator, r'.tokens[0].0, Size(r')) < Distance(r.tokens[0].1.initiator, r.tokens[0].0, Size(r)))
      && 0 <= Distance(r.tokens[0].1.initiator, r.tokens[0].0, Size(r))
  {
    hide Next, Upto, Spoken, Idle, Leading, Silent, Conserved, Visited;
    CollectingHopKeeps(r, broadcast);
    if r.tokens[0].0 == r.tokens[0].1.initiator {
      RingEnds(r, broadcast);
    }
  }

  lemma WaitingFinishes(s: System, broadcast: bool, steps: seq<Step>) returns (more: seq<Step>)
    requires Initial(s) && Drained(Run(s, broadcast, steps)) && Waiting(Run(s, broadcast, steps))
    ensures Holds(Run(s, broadcast, steps + more), broadcast, Over)
  {
    hide Next, Drained, Idle;
    var n := Size(s);
    var hops := if n == 1 then 0 else if broadcast then n + n else n;
    more := [TakeEOF(0)] + Hops(hops);
    LastRoundFinishes(s, broadcast, steps, 0);
    assert steps + more == steps + [TakeEOF(0)] + Hops(hops);
  }

  lemma ClosingFinishes(s: System, broadcast: bool, steps: seq<Step>) returns (more: seq<Step>)
    requires Initial(s) && broadcast && Closes(Run(s, broadcast, steps)) && Inv(Run(s, broadcast, steps), broadcast)
    ensures Holds(Run(s, broadcast, steps + more), broadcast, Over)
  {
    hide Next, Upto, Spoken, Idle, Leading, Conserved, Finished, Holds, Hops;
    var r := Run(s, broadcast, steps);
    more := Hops(HopsLeft(r, broadcast));
    Concludes(s, broadcast, steps, HopsLeft(r, broadcast));
    SomeoneSpoke(Run(s, broadcast, steps + more), broadcast);
  }

  /**
   No state is a dead end: whatever has happened, some further steps process all items and end
   the ring.
   */
  lemma AlwaysFinishable(s: System, broadcast: bool, steps: seq<Step>) returns (more: seq<Step>)
    requires Initial(s)
    ensures Holds(Run(s, broadcast, steps + more), broadcast, Over)
  {
    hide Holds, Next;
    var items := AllProcessed(s, broadcast, steps);
    var hops := DrainedFinishes(s, broadcast, steps + items);
    more := items + hops;
    assert steps + more == steps + items + hops;
  }

  lemma QuietStart(r: System, broadcast: bool, j: nat)
    requires WellFormed(r) && Inv(r, broadcast) && r.eofs == 1 && Drained(r) && j < Size(r)
    ensures var r' := Next(r, broadcast, TakeEOF(j));
      && WellFormed(r')
      && if Size(r) == 1 then Finished(r', broadcast)
         else Concluding(r', broadcast) && HopsLeft(r', broadcast) == (if broadcast then Size(r) + Size(r) else Size(r))
  {
    NextWellFormed(r, broadcast, TakeEOF(j));
    TakeEOFKeeps(r, broadcast, j);
    assert Waiting(r) && Idle(r, j);
    CountsFit(r, j);
    if Size(r) == 1 {
      assert Upto(r.matched, 1) == Upto(r.matched, 0) + r.matched[0] == r.matched[0];
      assert Upto(r.unmatched, 1) == Upto(r.unmatched, 0) + r.unmatched[0] == r.unmatched[0];
      AgreementMeansDrained(r, r.matched[0], r.unmatched[0]);
    } else {
      VisitedNext(r.matched, j, j);
      VisitedNext(r.unmatched, j, j);
    }
  }

  lemma SomeoneSpoke(s: System, broadcast: bool)
    requires WellFormed(s) && Finished(s, broadcast)
    ensures Holds(s, broadcast, Over)
  {
    if broadcast {
      assert Spoken(s, 0);
    } else {
      var q: nat :| SpeaksAlone(s, q);
      assert s.done[q];
    }
  }
}
