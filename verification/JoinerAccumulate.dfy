/**
 The fan-in barrier (src/common/eof/joiner_accumulate.go) and the retry of an upstream
 EOF that arrived too early (retryUpstreamEOFMessage in src/worker/runtime/runtime.go).
 */
module FanInBarrier {
  import opened Common
  import opened AccountKeys

  type ClientID = string

  datatype Sender = Sender(stageType: U8, replicaID: U16)

  datatype Barrier = Barrier(receivedFrom: map<Sender, U32>, expected: nat, finalized: bool)

  /** One EOF for the stage behind one output. */
  datatype EofEmit = EofEmit(output: nat, total: U32)

  datatype Action = NoAction | ReenqueueUpstreamEOF | EmitEOFs(emits: seq<EofEmit>)

  /** The sender has already declared another total: the source panics. */
  datatype Refusal = TotalChanged

  datatype Reply = Reply(barrier: Barrier, action: Result<Action, Refusal>)

  predicate AllReceived(b: Barrier) {
    |b.receivedFrom| >= b.expected
  }

  ghost function AggTotal(b: Barrier): U64 {
    Wrap64(SumOf(b.receivedFrom))
  }

  ghost function EofsTo(outputs: nat, total: U32): seq<EofEmit> {
    seq(outputs, i requires 0 <= i < outputs => EofEmit(i, total))
  }

  /** How many of the EOFs go to an output. */
  ghost function EofsFor(emits: seq<EofEmit>, output: nat): nat {
    |set i | 0 <= i < |emits| && emits[i].output == output|
  }

  lemma OneForEachOutput(outputs: nat, total: U32)
    ensures var emits := EofsTo(outputs, total);
      && (forall o: nat :: EofsFor(emits, o) == if o < outputs then 1 else 0)
      && (forall e :: e in emits ==> e.total == total)
  {
    var emits := EofsTo(outputs, total);
    forall o: nat ensures EofsFor(emits, o) == if o < outputs then 1 else 0 {
      assert (set i | 0 <= i < |emits| && emits[i].output == o) == if o < outputs then {o} else {};
    }
  }

  lemma NoEofsYet()
    ensures forall o: nat :: EofsFor([], o) == 0
  {
    OneForEachOutput(0, 0);
    assert EofsTo(0, 0) == [];
  }

  ghost function Arrival(b: Barrier, outputs: nat, sender: Sender, total: U32, localCount: U64): Reply {
    if sender in b.receivedFrom && b.receivedFrom[sender] != total then Reply(b, Err(TotalChanged))
    else
      var b1 := b.(receivedFrom := b.receivedFrom[sender := total]);
      if b.finalized || !AllReceived(b1) then Reply(b1, Ok(NoAction))
      else if localCount < AggTotal(b1) then Reply(b1, Ok(ReenqueueUpstreamEOF))
      else Reply(b1.(finalized := true), Ok(EmitEOFs(EofsTo(outputs, Low32(AggTotal(b1))))))
  }

  /** Adds up the declared totals in whatever order the map yields them. */
  method AddTotals(totals: map<Sender, U32>) returns (sum: U64)
    ensures sum == Wrap64(SumOf(totals))
  {
    sum := 0;
    var todo := totals.Keys;
    assert totals - todo == map[];
    while todo != {}
      invariant todo <= totals.Keys
      invariant sum == Wrap64(SumOf(totals - todo))
    {
      var k :| k in todo;
      ghost var before := totals - todo;
      todo := todo - {k};
      SumOfUpdate(before, k, totals[k]);
      assert totals - todo == before[k := totals[k]];
      WrapAdds(SumOf(before), totals[k]);
      sum := Wrap64(sum + totals[k]);
    }
    assert totals - todo == totals;
  }

  class JoinerAccumulateCoordinator {
    const expectedEOFs: nat
    const outputCount: nat
    var state: map<ClientID, Barrier>

    constructor (expectedEOFs: nat, outputCount: nat)
      ensures this.expectedEOFs == expectedEOFs && this.outputCount == outputCount && state == map[]
    {
      this.expectedEOFs, this.outputCount, state := expectedEOFs, outputCount, map[];
    }

    function BarrierFor(client: ClientID): Barrier
      reads this
    {
      if client in state then state[client] else Barrier(map[], expectedEOFs, false)
    }

    twostate predicate OthersKept(client: ClientID)
      reads this
    {
      forall c :: c != client ==> BarrierFor(c) == old(BarrierFor(c))
    }

    method OnUpstreamEOF(client: ClientID, sender: Sender, total: U32, localCount: U64)
      returns (action: Result<Action, Refusal>)
      modifies this
      ensures Reply(BarrierFor(client), action) == Arrival(old(BarrierFor(client)), outputCount, sender, total, localCount)
      ensures action.Err? <==> (var known := old(BarrierFor(client)).receivedFrom; sender in known && known[sender] != total)
      ensures action.Ok? ==>
        var b, b' := old(BarrierFor(client)), BarrierFor(client);
        var declared := Wrap64(SumOf(b'.receivedFrom));
        var complete := !b.finalized && |b'.receivedFrom| >= b.expected;
        && b'.receivedFrom == b.receivedFrom[sender := total] && b'.expected == b.expected
        && (action.value.ReenqueueUpstreamEOF? <==> complete && localCount < declared)
        && (action.value.EmitEOFs? <==> complete && localCount >= declared)
        && b'.finalized == (b.finalized || action.value.EmitEOFs?)
        && (action.value.EmitEOFs? ==>
              && (forall o: nat :: EofsFor(action.value.emits, o) == if o < outputCount then 1 else 0)
              && (forall e :: e in action.value.emits ==> e.total == Low32(declared)))
      ensures OthersKept(client)
    {
      if client !in state {
        state := state[client := Barrier(map[], expectedEOFs, false)];
      }
      var recorded := RecordEOF(client, sender, total);
      if !recorded {
        return Err(TotalChanged);
      }
      var b := state[client];
      if b.finalized || !AllReceived(b) {
        return Ok(NoAction);
      }
      var aggTotal := AddTotals(b.receivedFrom);
      if aggTotal > 0 && localCount < aggTotal {
        return Ok(ReenqueueUpstreamEOF);
      }
      state := state[client := b.(finalized := true)];
      var emits: seq<EofEmit> := [];
      for i := 0 to outputCount
        invariant emits == EofsTo(i, Low32(aggTotal))
      {
        emits := emits + [EofEmit(i, Low32(aggTotal))];
      }
      OneForEachOutput(outputCount, Low32(aggTotal));
      return Ok(EmitEOFs(emits));
    }

    method RecordEOF(client: ClientID, sender: Sender, total: U32) returns (ok: bool)
      requires client in state
      modifies this
      ensures var b := old(state[client]);
        && (ok <==> (sender in b.receivedFrom ==> b.receivedFrom[sender] == total))
        && state == old(state)[client := if ok then b.(receivedFrom := b.receivedFrom[sender := total]) else b]
    {
      var b := state[client];
      if sender in b.receivedFrom {
        ok := b.receivedFrom[sender] == total;
        if ok {
          assert b.receivedFrom[sender := total] == b.receivedFrom;
        }
        return;
      }
      state := state[client := b.(receivedFrom := b.receivedFrom[sender := total])];
      ok := true;
    }

    method GetClientJACState(client: ClientID) returns (snap: Barrier)
      ensures snap == BarrierFor(client)
    {
      snap := if client in state then state[client] else Barrier(map[], expectedEOFs, false);
    }

    /** Restoring what was saved changes no later answer. */
    method RestoreClientJACState(client: ClientID, snap: Barrier)
      modifies this
      ensures BarrierFor(client) == snap && OthersKept(client)
    {
      state := state[client := snap];
    }

    method CleanupClient(client: ClientID)
      modifies this
      ensures BarrierFor(client) == Barrier(map[], expectedEOFs, false) && OthersKept(client)
    {
      state := state - {client};
    }
  }

  // ---- the text of a sender -----------------------------------------------------

  /** The source keys the totals by "stage:replica"; nothing ever reads such a text back. */
  function SenderText(s: Sender): string {
    Decimal(s.stageType) + ":" + Decimal(s.replicaID)
  }

  lemma SenderTextsDiffer(s: Sender, t: Sender)
    requires SenderText(s) == SenderText(t)
    ensures s == t
  {
    DecimalRoundTrip(s.stageType);
    DecimalRoundTrip(s.replicaID);
    DecimalRoundTrip(t.stageType);
    DecimalRoundTrip(t.replicaID);
    TextCuts(s);
    TextCuts(t);
  }

  lemma TextCuts(s: Sender)
    ensures var text, i := SenderText(s), IndexOf(SenderText(s), ':');
      i < |text| && text[..i] == Decimal(s.stageType) && text[i + 1..] == Decimal(s.replicaID)
  {
    var text, n := SenderText(s), |Decimal(s.stageType)|;
    DecimalRoundTrip(s.stageType);
    assert text[..n] == Decimal(s.stageType) && text[n] == ':' && text[n + 1..] == Decimal(s.replicaID);
    assert ':' !in text[..n];
    FirstIndex(text, ':', n);
  }

  ghost function Texts(totals: map<Sender, U32>): map<string, U32> {
    AllTextsDiffer();
    map s | s in totals :: SenderText(s) := totals[s]
  }

  lemma AllTextsDiffer()
    ensures forall s, t :: SenderText(s) == SenderText(t) ==> s == t
  {
    forall s, t | SenderText(s) == SenderText(t) ensures s == t {
      SenderTextsDiffer(s, t);
    }
  }

  lemma OneMoreText(totals: map<Sender, U32>, sender: Sender, total: U32)
    ensures SenderText(sender) in Texts(totals) <==> sender in totals
    ensures sender in totals ==> Texts(totals)[SenderText(sender)] == totals[sender]
    ensures Texts(totals[sender := total]) == Texts(totals)[SenderText(sender) := total]
  {
    hide SenderText;
    AllTextsDiffer();
  }

  lemma {:induction false} SameSum(totals: map<Sender, U32>)
    ensures |Texts(totals)| == |totals| && SumOf(Texts(totals)) == SumOf(totals)
    decreases totals.Keys
  {
    hide SenderText, Texts;
    NoTexts();
    if totals != map[] {
      var first :| first in totals;
      var rest := totals - {first};
      SameSum(rest);
      OneMoreText(rest, first, totals[first]);
      assert rest[first := totals[first]] == totals;
      SumOfUpdate(rest, first, totals[first]);
      SumOfUpdate(Texts(rest), SenderText(first), totals[first]);
    }
  }

  lemma NoTexts()
    ensures Texts(map[]) == map[]
  {
  }

  /** Everything the barrier asks of its totals has the same answer on texts as on senders. */
  lemma TextsAreSenders(totals: map<Sender, U32>, sender: Sender, total: U32)
    ensures SenderText(sender) in Texts(totals) <==> sender in totals
    ensures sender in totals ==> Texts(totals)[SenderText(sender)] == totals[sender]
    ensures Texts(totals[sender := total]) == Texts(totals)[SenderText(sender) := total]
    ensures |Texts(totals)| == |totals| && SumOf(Texts(totals)) == SumOf(totals)
  {
    OneMoreText(totals, sender, total);
    SameSum(totals);
  }

  // ---- retries ----------------------------------------------------------------

  /** isDuplicateCoordination: zero bypasses the check. */
  predicate PassesDedup(seqID: nat, lastSeen: nat) {
    seqID == 0 || seqID > lastSeen
  }

  /** The sequence number of the retry; none when the numbers are used up. */
  function RetrySeq(seqID: U64, lastSeen: U64): Option<U64> {
    if seqID + 1 == U64_SIZE then None
    else if lastSeen >= seqID + 1 then
      if lastSeen + 1 == U64_SIZE then None else Some(lastSeen + 1)
    else Some(seqID + 1)
  }

  /**
   Handling an accepted EOF leaves its own number as the last one seen, and the retry made
   on the way passes the check then. A retry is refused only at the very end of the numbers.
   */
  lemma RetryPasses(seqID: U64, lastSeen: U64)
    requires PassesDedup(seqID, lastSeen)
    ensures RetrySeq(seqID, lastSeen).Some? ==>
      RetrySeq(seqID, lastSeen).value > seqID && PassesDedup(RetrySeq(seqID, lastSeen).value, seqID)
    ensures RetrySeq(seqID, lastSeen).None? <==> seqID == U64_SIZE - 1 || (seqID == 0 && lastSeen == U64_SIZE - 1)
  {
  }
}
