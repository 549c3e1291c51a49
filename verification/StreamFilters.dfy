/**
 The filters that pass transactions on as they come: the generic one
 (src/worker/strategy/filter/filter.go), on a ring where one replica speaks for all, and
 the amount filter of query 1 (src/worker/strategy/filter_amount_lt_50/amount_lt_50.go),
 on a ring where each speaks for itself.
 */
module StreamFilters {
  import opened Common
  import opened Bytes
  import opened RingCoordination
  import opened TransactionCodec
  import RingSystem

  /** One encoded transaction for some of the outputs. */
  datatype Row = Row(outputs: seq<nat>, body: seq<Byte>)

  function RangeIndices(start: nat, end: nat): seq<nat> {
    if end <= start then [] else seq(end - start, i => start + i)
  }

  /** How many rows went to an output. */
  function RowsTo(sent: seq<Row>, output: nat): nat {
    if sent == [] then 0
    else RowsTo(sent[..|sent| - 1], output) + if output in sent[|sent| - 1].outputs then 1 else 0
  }

  lemma OneMoreRow(sent: seq<Row>, row: Row, output: nat)
    ensures RowsTo(sent + [row], output) == RowsTo(sent, output) + if output in row.outputs then 1 else 0
  {
    assert (sent + [row])[..|sent|] == sent;
  }

  /** The outputs from start up to end, each of them once. */
  lemma {:induction false} RangeMembers(start: nat, end: nat, i: nat)
    ensures multiset(RangeIndices(start, end))[i] == if start <= i < end then 1 else 0
    ensures i in RangeIndices(start, end) <==> start <= i < end
  {
    if start < end {
      RangeMembers(start, end - 1, i);
      assert RangeIndices(start, end) == RangeIndices(start, end - 1) + [end - 1];
    }
  }

  function DeclaredFor(matchCount: nat, totals: Totals, output: nat): U32 {
    if output < matchCount then Low32(totals.matched) else Low32(totals.notMatched)
  }

  /** The totals an emitted EOF declares, output by output. */
  function EofTotals(matchCount: nat, outputCount: nat, totals: Totals): (emits: seq<U32>)
    ensures |emits| == outputCount && forall i :: 0 <= i < outputCount ==> emits[i] == DeclaredFor(matchCount, totals, i)
  {
    if outputCount == 0 then []
    else EofTotals(matchCount, outputCount - 1, totals) + [DeclaredFor(matchCount, totals, outputCount - 1)]
  }

  /** A row for one side of the outputs counts once at each of them and nowhere else. */
  lemma SideCounted(matchCount: nat, outputCount: nat, sent: seq<Row>, row: Row, onMatch: bool)
    requires matchCount <= outputCount
    requires row.outputs == if onMatch then RangeIndices(0, matchCount) else RangeIndices(matchCount, outputCount)
    ensures forall i: nat :: i < outputCount ==>
      Wrap64(RowsTo(sent + [row], i)) == if (i < matchCount) == onMatch then Wrap64(Wrap64(RowsTo(sent, i)) + 1) else Wrap64(RowsTo(sent, i))
  {
    forall i: nat | i < outputCount
      ensures Wrap64(RowsTo(sent + [row], i)) ==
        if (i < matchCount) == onMatch then Wrap64(Wrap64(RowsTo(sent, i)) + 1) else Wrap64(RowsTo(sent, i))
    {
      OneMoreRow(sent, row, i);
      WrapAdds(RowsTo(sent, i), 1);
      RangeMembers(0, matchCount, i);
      RangeMembers(matchCount, outputCount, i);
    }
  }

  lemma ProjectNeverFails(tx: Transaction, proj: Option<Projection>, payload: seq<Byte>, inMask: Projection)
    requires Writable(tx, inMask)
    ensures Project(tx, proj, payload, inMask).Some?
  {
    if proj.Some? {
      MaskedIsWritable(tx, inMask, proj.value);
    }
  }

  class Filter {
    const passes: Transaction -> bool
    const matchCount: nat
    const outputCount: nat
    const matchProjection: Option<Projection>
    const noMatchProjection: Option<Projection>
    var matched: U64
    var notMatched: U64
    ghost var sent: seq<Row>

    constructor (passes: Transaction -> bool, matchCount: nat, outputCount: nat, onMatch: Option<Projection>, onNoMatch: Option<Projection>)
      requires matchCount <= outputCount
      ensures this.passes == passes && this.matchCount == matchCount && this.outputCount == outputCount
      ensures this.matchProjection == onMatch && this.noMatchProjection == onNoMatch
      ensures Valid() && matched == 0 && notMatched == 0 && sent == []
    {
      this.passes, this.matchCount, this.outputCount := passes, matchCount, outputCount;
      matchProjection, noMatchProjection := onMatch, onNoMatch;
      matched, notMatched, sent := 0, 0, [];
    }

    /** What was sent to each output is what was counted for its side. */
    ghost predicate Valid()
      reads this
    {
      && matchCount <= outputCount
      && (forall i: nat :: i < matchCount ==> matched == Wrap64(RowsTo(sent, i)))
      && (forall i: nat :: matchCount <= i < outputCount ==> notMatched == Wrap64(RowsTo(sent, i)))
    }

    /** tx is what the payload holds under its mask. */
    method ProcessMessage(tx: Transaction, inMask: Projection, payload: seq<Byte>) returns (row: Option<Row>)
      requires Valid() && Writable(tx, inMask)
      modifies this
      ensures Valid()
      ensures matched == (if passes(tx) then Wrap64(old(matched) + 1) else old(matched))
      ensures notMatched == (if passes(tx) then old(notMatched) else Wrap64(old(notMatched) + 1))
      ensures
        var outputs := if passes(tx) then RangeIndices(0, matchCount) else RangeIndices(matchCount, outputCount);
        var body := Project(tx, if passes(tx) then matchProjection else noMatchProjection, payload, inMask);
        && body.Some?
        && row == (if outputs == [] then None else Some(Row(outputs, body.value)))
        && sent == old(sent) + (if outputs == [] then [] else [Row(outputs, body.value)])
    {
      hide Project, Writable, RowsTo, Wrap64;
      ProjectNeverFails(tx, matchProjection, payload, inMask);
      ProjectNeverFails(tx, noMatchProjection, payload, inMask);
      if passes(tx) {
        matched := Wrap64(matched + 1);
        if matchCount == 0 {
          return None;
        }
        var body := Project(tx, matchProjection, payload, inMask);
        row := Some(Row(RangeIndices(0, matchCount), body.value));
      } else {
        notMatched := Wrap64(notMatched + 1);
        if outputCount == matchCount {
          return None;
        }
        var body := Project(tx, noMatchProjection, payload, inMask);
        row := Some(Row(RangeIndices(matchCount, outputCount), body.value));
      }
      SideCounted(matchCount, outputCount, sent, row.value, passes(tx));
      sent := sent + [row.value];
    }

    method BuildEOFEmits(totals: Totals) returns (emits: seq<U32>)
      requires Valid()
      ensures emits == EofTotals(matchCount, outputCount, totals)
    {
      emits := [];
      for i := 0 to matchCount
        invariant emits == EofTotals(matchCount, outputCount, totals)[..i]
      {
        emits := emits + [Low32(totals.matched)];
      }
      for i := matchCount to outputCount
        invariant emits == EofTotals(matchCount, outputCount, totals)[..i]
      {
        emits := emits + [Low32(totals.notMatched)];
      }
    }
  }

  /**
   When the ring is over, the one replica that speaks declares to every output the rows
   all replicas sent it: the matched ones to the first outputs, the others to the rest.
   */
  lemma FilterDeclaresTraffic(s: RingSystem.System, steps: seq<RingSystem.Step>, matchCount: nat, outputCount: nat)
    returns (speaker: nat)
    requires RingSystem.Initial(s) && RingSystem.Holds(RingSystem.Run(s, false, steps), false, RingSystem.Over)
    ensures var r := RingSystem.Run(s, false, steps);
      && speaker < RingSystem.Size(r) && |r.emissions[speaker]| == 1
      && forall i :: 0 <= i < outputCount ==>
        EofTotals(matchCount, outputCount, r.emissions[speaker][0].result)[i] ==
          RingSystem.Upto(if i < matchCount then r.matched else r.unmatched, RingSystem.Size(r))
  {
    speaker := RingSystem.OneSpeaksForAll(s, steps);
    RingSystem.EveryRunKeeps(s, false, steps);
    RingSystem.CountsFit(RingSystem.Run(s, false, steps), speaker);
    hide RingSystem.Run, RingSystem.Initial, RingSystem.Finished, RingSystem.Waiting, RingSystem.Collects, RingSystem.Closes, RingSystem.Upto;
  }

  // ---- the amount filter --------------------------------------------------------

  class AmountFilter {
    const threshold: real
    const ring: RingCoordinator
    var matchedCount: map<ClientID, U64>

    constructor (threshold: real, replicaID: nat, nReplicas: nat)
      ensures this.threshold == threshold && matchedCount == map[]
      ensures fresh(ring) && ring.ring == Ring(replicaID, nReplicas, true) && ring.state == map[]
    {
      this.threshold := threshold;
      ring := new RingCoordinator(replicaID, nReplicas, true);
      matchedCount := map[];
    }

    function Matched(client: ClientID): U64
      reads this
    {
      if client in matchedCount then matchedCount[client] else 0
    }

    /** A payment under the threshold is published, and counted. */
    method ProcessMessage(client: ClientID, amount: real) returns (published: bool)
      modifies this
      ensures published <==> amount < threshold
      ensures Matched(client) == if published then Wrap64(old(Matched(client)) + 1) else old(Matched(client))
      ensures forall c :: c != client ==> Matched(c) == old(Matched(c))
    {
      if amount >= threshold {
        return false;
      }
      matchedCount := matchedCount[client := Wrap64(Matched(client) + 1)];
      published := true;
    }

    /** The count not matched: machine subtraction from the number of items processed. */
    function NotMatched(client: ClientID, localCount: U64): (n: U64)
      reads this
      ensures Wrap64(Matched(client) + n) == localCount
    {
      if localCount >= Matched(client) then localCount - Matched(client) else localCount + U64_SIZE - Matched(client)
    }

    method OnUpstreamEOF(client: ClientID, total: U32, localCount: U64) returns (action: Action, declared: Option<U32>)
      modifies ring
      ensures var reply := UpstreamEOF(ring.ring, old(ring.StateOf(client)), total, Matched(client), NotMatched(client, localCount));
        ring.StateOf(client) == reply.state && action == reply.action
      ensures declared ==
        if action.EmitEOFs? || action.EmitEOFsAndForwardToken? then Some(Low32(Matched(client))) else None
    {
      var result;
      action, result := ring.OnUpstreamEOF(client, total, Matched(client), NotMatched(client, localCount));
      declared := OutcomeFor(client, action);
    }

    method OnRingToken(client: ClientID, token: Token, localCount: U64) returns (action: Action, declared: Option<U32>)
      modifies ring
      ensures var reply := RingToken(ring.ring, old(ring.StateOf(client)), token, Matched(client), NotMatched(client, localCount));
        ring.StateOf(client) == reply.state && action == reply.action
      ensures declared ==
        if action.EmitEOFs? || action.EmitEOFsAndForwardToken? then Some(Low32(Matched(client))) else None
    {
      var result;
      action, result := ring.OnRingToken(client, token, Matched(client), NotMatched(client, localCount));
      declared := OutcomeFor(client, action);
    }

    /** A replica that emits declares its own matches, and completes the client. */
    function OutcomeFor(client: ClientID, action: Action): Option<U32>
      reads this
    {
      if action.EmitEOFs? || action.EmitEOFsAndForwardToken? then Some(Low32(Matched(client))) else None
    }
  }

  /** When the ring is over each replica has declared, once, the number of rows it published itself. */
  lemma AmountFilterDeclaresTraffic(s: RingSystem.System, steps: seq<RingSystem.Step>, j: nat)
    requires RingSystem.Initial(s) && RingSystem.Holds(RingSystem.Run(s, true, steps), true, RingSystem.Over)
    requires j < RingSystem.Size(s)
    ensures var r := RingSystem.Run(s, true, steps);
      |r.emissions[j]| == 1 && Low32(r.emissions[j][0].localMatched) == r.matched[j]
  {
    RingSystem.EveryRunKeeps(s, true, steps);
    var r := RingSystem.Run(s, true, steps);
    assert RingSystem.Spoken(r, j);
    RingSystem.CountsFit(r, j);
  }
}
