/**
 The sequence numbers of a ring's upstream EOF and tokens, along any run of RingSystem
 (isDuplicateCoordination, retryUpstreamEOFMessage and nextSeqID in
 src/worker/runtime/runtime.go): no replica ever takes one of them for a duplicate.
 */
module RingNumbers {
  import opened Common
  import opened RingCoordination
  import opened RingSystem
  import FanInBarrier

  datatype Numbers = Numbers(
    eof: nat,           // on the upstream EOF in the input queue
    token: nat,         // on the token under way
    held: seq<nat>,     // on the EOF each replica has cached
    seen: seq<nat>,     // the last each replica accepted from upstream
    heard: seq<nat>,    // the last each replica accepted from the replica before it
    sent: seq<nat>)     // each replica's output sequence

  /** The number of a retry, as long as the range lasts. */
  function Retried(seqID: nat, lastSeen: nat): nat {
    if lastSeen >= seqID + 1 then lastSeen + 1 else seqID + 1
  }

  lemma RetriedInRange(seqID: U64, lastSeen: U64)
    ensures var retry := FanInBarrier.RetrySeq(seqID, lastSeen);
      if retry.Some? then retry.value == Retried(seqID, lastSeen) else Retried(seqID, lastSeen) >= U64_SIZE
  {
  }

  ghost predicate Fits(s: System, m: Numbers) {
    |m.held| == |m.seen| == |m.heard| == |m.sent| == Size(s)
  }

  /** Replica j accepts the EOF: a token it starts gets its next number; a retry is numbered before the EOF is noted. */
  ghost function TakeNumbers(s: System, after: System, j: nat, others: nat, m: Numbers): Numbers
    requires Fits(s, m) && j < Size(s)
  {
    var sent := m.sent[j] + others + (if |after.tokens| > |s.tokens| then 1 else 0);
    m.(held := m.held[j := m.eof], seen := m.seen[j := m.eof], sent := m.sent[j := sent],
       token := if |after.tokens| > |s.tokens| then sent else m.token,
       eof := if after.eofs >= s.eofs then Retried(m.eof, m.seen[j]) else m.eof)
  }

  /** Replica j accepts the token and may pass it on, or put the EOF it holds back into the queue. */
  ghost function HopNumbers(s: System, after: System, j: nat, others: nat, m: Numbers): Numbers
    requires Fits(s, m) && j < Size(s)
  {
    var sent := m.sent[j] + others + (if |after.tokens| == |s.tokens| then 1 else 0);
    m.(heard := m.heard[j := m.token], sent := m.sent[j := sent],
       token := if |after.tokens| == |s.tokens| then sent else m.token,
       eof := if after.eofs > s.eofs then Retried(m.held[j], m.seen[j]) else m.eof)
  }

  /** The numbers after a step in which the replica also used up others of its own. */
  ghost function Renumbered(s: System, broadcast: bool, step: Step, others: nat, m: Numbers): (m': Numbers)
    requires WellFormed(s) && Fits(s, m)
    ensures Fits(s, m')
  {
    var after := Next(s, broadcast, step);
    match step
    case Process(_, _) => m
    case TakeEOF(j) => if j >= Size(s) || s.eofs == 0 || s.done[j] then m else TakeNumbers(s, after, j, others, m)
    case Hop(i) =>
      if i >= |s.tokens| || s.tokens[i].0 >= Size(s) || s.done[s.tokens[i].0] then m
      else HopNumbers(s, after, s.tokens[i].0, others, m)
  }

  ghost function Numbered(s: System, broadcast: bool, steps: seq<Step>, others: seq<nat>, m: Numbers): (m': Numbers)
    requires WellFormed(s) && Fits(s, m) && |others| == |steps|
    ensures Fits(s, m')
  {
    if steps == [] then m
    else
      var k := |steps| - 1;
      Renumbered(Run(s, broadcast, steps[..k]), broadcast, steps[k], others[k], Numbered(s, broadcast, steps[..k], others[..k], m))
  }

  /** Nothing was accepted yet, and the EOF carries a number. */
  ghost predicate Fresh(s: System, m: Numbers) {
    Fits(s, m) && m.eof > 0 && forall j :: 0 <= j < Size(s) ==> m.seen[j] == 0 && m.heard[j] == 0
  }

  // ---- the invariant ----------------------------------------------------------

  ghost predicate HeardWasSent(s: System, m: Numbers)
    requires Fits(s, m)
  {
    forall i :: 0 <= i < Size(s) ==> m.heard[Following(i, Size(s))] <= m.sent[i]
  }

  ghost predicate SeenUpTo(s: System, m: Numbers, bound: nat)
    requires Fits(s, m)
  {
    forall j :: 0 <= j < Size(s) ==> m.seen[j] <= bound
  }

  /** The token is newer than all its receiver heard, and was the last thing its sender numbered, or not the last. */
  ghost predicate TokenIsNew(s: System, m: Numbers, j: nat)
    requires Fits(s, m) && j < Size(s)
  {
    m.token > m.heard[j] && forall i :: 0 <= i < Size(s) && Following(i, Size(s)) == j ==> m.token <= m.sent[i]
  }

  ghost predicate NumbersInv(s: System, m: Numbers)
    requires WellFormed(s) && Fits(s, m)
  {
    && HeardWasSent(s, m)
    && (s.eofs > 0 ==> m.eof > 0 && SeenUpTo(s, m, m.eof - 1))
    && (Collects(s) ==> var q := s.tokens[0].1.initiator; m.held[q] > 0 && SeenUpTo(s, m, m.held[q]))
    && (|s.tokens| == 1 && s.tokens[0].0 < Size(s) ==> TokenIsNew(s, m, s.tokens[0].0))
  }

  // ---- what a step does to the batons -------------------------------------------

  lemma TakeShape(s: System, broadcast: bool, j: nat)
    requires WellFormed(s) && Inv(s, broadcast) && j < Size(s) && s.eofs > 0
    ensures !s.done[j] && s.eofs == 1 && s.tokens == []
    ensures var s' := Next(s, broadcast, TakeEOF(j));
      && (Size(s) == 1 ==> s'.tokens == [] && s'.eofs <= 1)
      && (Size(s) > 1 ==>
            && s'.eofs == 0 && |s'.tokens| == 1
            && s'.tokens[0].0 == Following(j, Size(s)) && s'.tokens[0].1.initiator == j)
  {
    assert Waiting(s) && Idle(s, j);
  }

  lemma HopShape(s: System, broadcast: bool)
    requires WellFormed(s) && Inv(s, broadcast) && |s.tokens| == 1
    ensures s.eofs == 0 && Size(s) > 1 && s.tokens[0].0 < Size(s)
    ensures var s', j := Next(s, broadcast, Hop(0)), s.tokens[0].0;
      && (s'.eofs > 0 ==> Collects(s) && j == s.tokens[0].1.initiator && s'.tokens == [])
      && |s'.tokens| <= 1
      && (|s'.tokens| == 1 ==> s'.tokens[0].0 == Following(j, Size(s)) && s'.tokens[0].1.initiator == s.tokens[0].1.initiator)
      && (|s'.tokens| == 1 && s'.tokens[0].1.phase == Collecting ==> Collects(s))
  {
    assert Collects(s) || Closes(s);
    hide Visited, Upto, Drained;
  }

  // ---- every step keeps it ------------------------------------------------------

  lemma FollowingOnce(i: nat, k: nat, n: nat)
    requires i < n && k < n && Following(i, n) == Following(k, n)
    ensures i == k
  {
  }

  lemma SentMore(s: System, m: Numbers, j: nat, more: nat, m': Numbers)
    requires Fits(s, m) && Fits(s, m') && j < Size(s) && HeardWasSent(s, m)
    requires m'.sent == m.sent[j := m.sent[j] + more] && m'.heard == m.heard
    ensures HeardWasSent(s, m')
  {
  }

  lemma NewToken(s: System, m: Numbers, j: nat)
    requires Fits(s, m) && j < Size(s) && m.token == m.sent[j]
    requires m.heard[Following(j, Size(s))] < m.token
    ensures TokenIsNew(s, m, Following(j, Size(s)))
  {
    forall i: nat | i < Size(s) && Following(i, Size(s)) == Following(j, Size(s)) ensures i == j {
      FollowingOnce(i, j, Size(s));
    }
  }

  lemma ProcessNumbers(s: System, broadcast: bool, j: nat, matches: bool, m: Numbers)
    requires WellFormed(s) && Fits(s, m) && NumbersInv(s, m) && Inv(s, broadcast)
    ensures var s' := Next(s, broadcast, Process(j, matches)); WellFormed(s') && Fits(s', m) && NumbersInv(s', m)
  {
    var s' := Next(s, broadcast, Process(j, matches));
    NextWellFormed(s, broadcast, Process(j, matches));
    assert s'.tokens == s.tokens && s'.eofs == s.eofs;
    assert Collects(s') ==> Collects(s) by {
      hide Visited, Next, Upto, Drained, Conserved;
    }
  }

  lemma TakeKeepsNumbers(s: System, broadcast: bool, j: nat, others: nat, m: Numbers)
    requires WellFormed(s) && Fits(s, m) && NumbersInv(s, m) && Inv(s, broadcast) && j < Size(s) && s.eofs > 0
    ensures var s' := Next(s, broadcast, TakeEOF(j));
      WellFormed(s') && Fits(s', m) && NumbersInv(s', TakeNumbers(s, s', j, others, m))
  {
    hide Next, Inv, Collects, HeardWasSent;
    TakeShape(s, broadcast, j);
    NextWellFormed(s, broadcast, TakeEOF(j));
    var s' := Next(s, broadcast, TakeEOF(j));
    var m' := TakeNumbers(s, s', j, others, m);
    SentMore(s, m, j, m'.sent[j] - m.sent[j], m');
    SameHeard(s, s', m');
    CollectsHasToken(s');
    if Size(s) > 1 {
      HeardFrom(s, m, j);
      NewToken(s, m', j);
    }
  }

  lemma HeardFrom(s: System, m: Numbers, j: nat)
    requires Fits(s, m) && HeardWasSent(s, m) && j < Size(s)
    ensures Following(j, Size(s)) < Size(s) && m.heard[Following(j, Size(s))] <= m.sent[j]
  {
  }

  lemma SameHeard(s: System, s': System, m: Numbers)
    requires Fits(s, m) && Size(s') == Size(s) && HeardWasSent(s, m)
    ensures Fits(s', m) && HeardWasSent(s', m)
  {
  }

  lemma CollectsHasToken(s: System)
    requires WellFormed(s)
    ensures Collects(s) ==>
      && |s.tokens| == 1 && s.eofs == 0 && s.tokens[0].1.phase == Collecting
      && s.tokens[0].0 < Size(s) && s.tokens[0].1.initiator < Size(s)
  {
  }

  lemma HopKeepsNumbers(s: System, broadcast: bool, others: nat, m: Numbers)
    requires WellFormed(s) && Fits(s, m) && NumbersInv(s, m) && Inv(s, broadcast) && |s.tokens| == 1
    ensures s.tokens[0].0 < Size(s)
    ensures var s' := Next(s, broadcast, Hop(0));
      WellFormed(s') && Fits(s', m) && NumbersInv(s', HopNumbers(s, s', s.tokens[0].0, others, m))
  {
    hide Next, Inv, Collects, HeardWasSent;
    HopShape(s, broadcast);
    NextWellFormed(s, broadcast, Hop(0));
    var s', j := Next(s, broadcast, Hop(0)), s.tokens[0].0;
    var m' := HopNumbers(s, s', j, others, m);
    HeardMore(s, m, j, m');
    SameHeard(s, s', m');
    CollectsHasToken(s);
    CollectsHasToken(s');
    if |s'.tokens| == 1 {
      HeardFrom(s, m, j);
      assert Following(j, Size(s)) != j;
      NewToken(s, m', j);
    }
  }

  lemma HeardMore(s: System, m: Numbers, j: nat, m': Numbers)
    requires Fits(s, m) && Fits(s, m') && j < Size(s) && HeardWasSent(s, m) && TokenIsNew(s, m, j)
    requires m'.heard == m.heard[j := m.token] && m'.sent[j] >= m.sent[j] && m'.sent == m.sent[j := m'.sent[j]]
    ensures HeardWasSent(s, m')
  {
  }

  lemma {:induction false} NumbersKept(s: System, broadcast: bool, steps: seq<Step>, others: seq<nat>, m: Numbers)
    requires Initial(s) && Fresh(s, m) && |others| == |steps|
    ensures NumbersInv(Run(s, broadcast, steps), Numbered(s, broadcast, steps, others, m))
  {
    hide Inv, Next, TakeNumbers, HopNumbers;
    if steps == [] {
      FreshNumbers(s, m);
    } else {
      var k := |steps| - 1;
      NumbersKept(s, broadcast, steps[..k], others[..k], m);
      EveryRunKeeps(s, broadcast, steps[..k]);
      NextNumbers(Run(s, broadcast, steps[..k]), broadcast, steps[k], others[k], Numbered(s, broadcast, steps[..k], others[..k], m));
    }
  }

  lemma FreshNumbers(s: System, m: Numbers)
    requires Initial(s) && Fresh(s, m)
    ensures NumbersInv(s, m)
  {
  }

  lemma NextNumbers(s: System, broadcast: bool, step: Step, others: nat, m: Numbers)
    requires WellFormed(s) && Fits(s, m) && NumbersInv(s, m) && Inv(s, broadcast)
    ensures var s' := Next(s, broadcast, step);
      WellFormed(s') && Fits(s', m) && NumbersInv(s', Renumbered(s, broadcast, step, others, m))
  {
    NextWellFormed(s, broadcast, step);
    match step
    case Process(j, matches) =>
      ProcessNumbers(s, broadcast, j, matches, m);
    case TakeEOF(j) =>
      if j < Size(s) && s.eofs > 0 {
        TakeShape(s, broadcast, j);
        TakeKeepsNumbers(s, broadcast, j, others, m);
      }
    case Hop(i) =>
      if i < |s.tokens| && s.tokens[i].0 < Size(s) {
        OneToken(s, broadcast);
        HopKeepsNumbers(s, broadcast, others, m);
      }
  }

  lemma OneToken(s: System, broadcast: bool)
    requires WellFormed(s) && Inv(s, broadcast) && s.tokens != []
    ensures |s.tokens| == 1 && s.tokens[0].0 < Size(s) && !s.done[s.tokens[0].0]
  {
    var (j, t) := s.tokens[0];
    if Collects(s) {
      assert j == t.initiator || Idle(s, j);
    } else {
      assert !Passed(t.initiator, j, j);
      assert j == t.initiator || Idle(s, j);
    }
    hide Visited, Upto, Drained, Conserved;
  }

  /**
   Every replica's duplicate check lets the upstream EOF pass whenever it is in the queue, be
   it the first or a retry and whoever takes it, and the receiver of a token lets the token
   pass: along every run, whatever else the replicas number in between.
   */
  lemma NeverADuplicate(s: System, broadcast: bool, steps: seq<Step>, others: seq<nat>, m: Numbers)
    requires Initial(s) && Fresh(s, m) && |others| == |steps|
    ensures var r, nums := Run(s, broadcast, steps), Numbered(s, broadcast, steps, others, m);
      && (r.eofs > 0 ==> forall j :: 0 <= j < Size(r) ==> FanInBarrier.PassesDedup(nums.eof, nums.seen[j]))
      && (forall k :: 0 <= k < |r.tokens| ==>
            r.tokens[k].0 < Size(r) && FanInBarrier.PassesDedup(nums.token, nums.heard[r.tokens[k].0]))
  {
    hide Inv, Run, Numbered, Fresh, Collects, HeardWasSent;
    NumbersKept(s, broadcast, steps, others, m);
    EveryRunKeeps(s, broadcast, steps);
    var r := Run(s, broadcast, steps);
    if r.tokens != [] {
      OneToken(r, broadcast);
    }
  }

  /** A second copy of the EOF or of the token does not pass where the first was accepted. */
  lemma CopiesAreRefused(s: System, broadcast: bool, j: nat, i: nat, others: nat, m: Numbers)
    requires WellFormed(s) && Fits(s, m)
    ensures j < Size(s) && s.eofs > 0 && !s.done[j] && m.eof > 0 ==>
      !FanInBarrier.PassesDedup(m.eof, Renumbered(s, broadcast, TakeEOF(j), others, m).seen[j])
    ensures i < |s.tokens| && s.tokens[i].0 < Size(s) && !s.done[s.tokens[i].0] && m.token > 0 ==>
      !FanInBarrier.PassesDedup(m.token, Renumbered(s, broadcast, Hop(i), others, m).heard[s.tokens[i].0])
  {
    hide Next;
  }
}
