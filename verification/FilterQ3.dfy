/**
 The two-mode filter of query 3 (src/worker/strategy/filter_q3/filter_q3.go): payments
 wait in a buffer until the averages are complete, and are filtered as they come
 afterwards; the later of the two end signals finalises the client.
 */
module FilterQ3 {
  import opened Common
  import opened Bytes
  import opened FanInBarrier
  import opened Q3Buffers

  datatype Setup = Setup(parse: Parser, pct: real, averagesSender: Sender)

  datatype State = State(
    averages: map<string, real>,
    averagesSeen: U64,
    averagesEOFReceived: bool,
    avgCoord: Barrier,
    p2EOFReceived: bool,
    p2Seen: U64,
    bufferedSeen: U64,
    bufferCount: U64,
    file: seq<Byte>)

  const FRESH := State(map[], 0, false, Barrier(map[], 1, false), false, 0, 0, 0, [])

  /** What the worker is told to emit when the client is complete. */
  datatype Final = Final(drained: seq<Row>, total: U32)

  function ItemCount(su: Setup, raw: Raw): nat {
    var m := su.parse(raw);
    if m.Batch? then |m.items| else 0
  }

  function BatchItems(su: Setup, raw: Raw): seq<Option<Payment>> {
    var m := su.parse(raw);
    if m.Batch? then m.items else []
  }

  function Buffer(su: Setup, st: State, raw: Raw): State {
    st.(file := st.file + Framed(raw), bufferCount := Wrap64(st.bufferCount + 1),
        p2Seen := Wrap64(st.p2Seen + ItemCount(su, raw)), bufferedSeen := Wrap64(st.bufferedSeen + ItemCount(su, raw)))
  }

  /** finalizeAndEmit. */
  function Finish(su: Setup, st: State): Final {
    var rows := RowsOf(st.averages, su.pct, ItemsIn(su.parse, st.file));
    Final(if st.bufferCount == 0 then [] else rows, Low32(|rows|))
  }

  ghost function AveragesEOF(su: Setup, st: State, total: U32): State {
    var reply := Arrival(st.avgCoord, 1, su.averagesSender, total, st.averagesSeen);
    st.(avgCoord := reply.barrier,
        averagesEOFReceived := st.averagesEOFReceived || (reply.action.Ok? && reply.action.value.EmitEOFs?))
  }

  /** Items seen, by a checkpoint that knew of so many buffered ones, or that is too old to tell. */
  function SeenNow(p2Seen: U64, knewOf: Option<U64>, items: U64): U64 {
    match knewOf
    case Some(n) => if items > n then Wrap64(p2Seen + (items - n)) else p2Seen
    case None => if items > p2Seen then items else p2Seen
  }

  /** UnmarshalClientState over the buffer found on disk. */
  ghost function Restored(su: Setup, saved: State, knewOf: Option<U64>, headerSize: nat, file: seq<Byte>): State {
    IntactFits(su.parse, headerSize, file);
    var raws := Intact(su.parse, headerSize, file);
    var items := Wrap64(|ItemsOf(su.parse, raws)|);
    saved.(file := file[..WireSize(raws)], bufferCount := Wrap64(|raws|), bufferedSeen := items,
           p2Seen := SeenNow(saved.p2Seen, knewOf, items))
  }

  class ClientState {
    const su: Setup
    const coordinator: JoinerAccumulateCoordinator
    var averages: map<string, real>
    var averagesSeen: U64
    var averagesEOFReceived: bool
    var p2EOFReceived: bool
    var p2Seen: U64
    var bufferedSeen: U64
    var bufferCount: U64
    var file: seq<Byte>

    const CLIENT := ""

    constructor (su: Setup)
      ensures this.su == su && Valid() && View() == FRESH && fresh(coordinator)
    {
      this.su := su;
      coordinator := new JoinerAccumulateCoordinator(1, 1);
      averages, averagesSeen, averagesEOFReceived := map[], 0, false;
      p2EOFReceived, p2Seen, bufferedSeen, bufferCount, file := false, 0, 0, 0, [];
    }

    ghost predicate Valid() {
      coordinator.expectedEOFs == 1 && coordinator.outputCount == 1
    }

    ghost function View(): State
      reads this, coordinator
    {
      State(averages, averagesSeen, averagesEOFReceived, coordinator.BarrierFor(CLIENT), p2EOFReceived, p2Seen, bufferedSeen, bufferCount, file)
    }

    /** Input 0: filters at once if the averages are complete, else buffers the raw message. */
    method ProcessRawBatch(raw: Raw, items: seq<Option<Payment>>) returns (rows: seq<Row>)
      requires Valid() && items == BatchItems(su, raw)
      modifies this
      ensures if old(averagesEOFReceived) then Filtered(old(averages), su.pct, items, rows) else rows == []
      ensures rows == if old(averagesEOFReceived) then RowsOf(old(averages), su.pct, items) else []
      ensures View() == if old(averagesEOFReceived)
        then old(View()).(p2Seen := Wrap64(old(p2Seen) + |items|)) else Buffer(su, old(View()), raw)
    {
      if averagesEOFReceived {
        rows := FilterItems(averages, su.pct, items);
        p2Seen := Wrap64(p2Seen + |items|);
        return;
      }
      file := file + Framed(raw);
      bufferCount := Wrap64(bufferCount + 1);
      p2Seen := Wrap64(p2Seen + |items|);
      bufferedSeen := Wrap64(bufferedSeen + |items|);
      rows := [];
    }

    /** Input 1. */
    method ProcessMessage(format: string, average: real)
      modifies this
      ensures View() == old(View()).(averages := old(averages)[format := average], averagesSeen := Wrap64(old(averagesSeen) + 1))
    {
      averages := averages[format := average];
      averagesSeen := Wrap64(averagesSeen + 1);
    }

    /**
     OnUpstreamEOF of input 1. An EOF that came too early is answered with no action at all;
     one with another total than before makes the barrier panic.
     */
    method OnAveragesEOF(total: U32) returns (final: Result<Option<Final>, Refusal>)
      requires Valid()
      modifies this, coordinator
      ensures View() == AveragesEOF(su, old(View()), total)
      ensures final.Err? <==> var known := old(coordinator.BarrierFor(CLIENT)).receivedFrom;
        su.averagesSender in known && known[su.averagesSender] != total
      ensures var took := !old(coordinator.BarrierFor(CLIENT)).finalized && coordinator.BarrierFor(CLIENT).finalized;
        final.Ok? ==> final.value == if took && p2EOFReceived then Some(Finish(su, View())) else None
    {
      var action := coordinator.OnUpstreamEOF(CLIENT, su.averagesSender, total, averagesSeen);
      if action.Err? {
        return Err(action.error);
      }
      if !action.value.EmitEOFs? {
        return Ok(None);
      }
      averagesEOFReceived := true;
      if p2EOFReceived {
        var f := FinalizeAndEmit();
        return Ok(Some(f));
      }
      return Ok(None);
    }

    /** handleRingAction for the two actions that end input 0. */
    method OnRingEnd() returns (final: Option<Final>)
      requires Valid()
      modifies this
      ensures View() == old(View()).(p2EOFReceived := true)
      ensures final == if averagesEOFReceived then Some(Finish(su, View())) else None
    {
      p2EOFReceived := true;
      final := None;
      if averagesEOFReceived {
        var f := FinalizeAndEmit();
        final := Some(f);
      }
    }

    method FinalizeAndEmit() returns (final: Final)
      ensures final == Finish(su, View())
    {
      var total := CountQ3Rows(su.parse, averages, su.pct, file);
      if bufferCount == 0 {
        return Final([], total);
      }
      var rows := Drain(su.parse, averages, su.pct, file);
      final := Final(rows, total);
    }

    /**
     UnmarshalClientState: what the buffer holds beyond the checkpoint has been seen too. A
     checkpoint of the older format, without the count of buffered items, makes the buffer a
     lower bound.
     */
    method Restore(saved: State, knewOf: Option<U64>, headerSize: nat) returns (headers: seq<string>)
      requires Valid()
      modifies this, coordinator
      ensures View() == Restored(su, saved, knewOf, headerSize, old(file))
      ensures headers == HeadersOf(su.parse, Intact(su.parse, headerSize, old(file)))
    {
      hide Intact, HeadersOf, ItemsOf, WireSize, Wrap64;
      averages, averagesSeen, averagesEOFReceived := saved.averages, saved.averagesSeen, saved.averagesEOFReceived;
      p2EOFReceived, p2Seen := saved.p2EOFReceived, saved.p2Seen;
      coordinator.RestoreClientJACState(CLIENT, saved.avgCoord);
      var kept, hs, count, items := RecoverBufferState(su.parse, headerSize, file);
      var recovered := Wrap64(items);
      headers := hs;
      file, bufferCount := kept, Wrap64(count);
      if knewOf.Some? {
        if recovered > knewOf.value {
          p2Seen := Wrap64(p2Seen + (recovered - knewOf.value));
        }
      } else if recovered > p2Seen {
        p2Seen := recovered;
      }
      bufferedSeen := recovered;
    }
  }

  // ---- one client over every order of events ------------------------------------

  datatype Event =
    | P2(raw: Raw)
    | Average(format: string, average: real)
    | AvgEOF(total: U32)
    | RingEnd

  /** done: completed, so that later deliveries are acked unread. */
  datatype Client = Client(st: State, online: seq<Row>, finals: seq<Final>, done: bool)

  ghost function Ended(su: Setup, c: Client): Client {
    if c.st.averagesEOFReceived && c.st.p2EOFReceived then c.(finals := c.finals + [Finish(su, c.st)], done := true) else c
  }

  ghost function Step(su: Setup, c: Client, e: Event): Client {
    if c.done then c
    else
      match e
      case P2(raw) =>
        if c.st.averagesEOFReceived then
          c.(online := c.online + RowsOf(c.st.averages, su.pct, BatchItems(su, raw)),
             st := c.st.(p2Seen := Wrap64(c.st.p2Seen + ItemCount(su, raw))))
        else c.(st := Buffer(su, c.st, raw))
      case Average(format, average) =>
        c.(st := c.st.(averages := c.st.averages[format := average], averagesSeen := Wrap64(c.st.averagesSeen + 1)))
      case AvgEOF(total) =>
        var c1 := c.(st := AveragesEOF(su, c.st, total));
        if !c.st.avgCoord.finalized && c1.st.avgCoord.finalized then Ended(su, c1) else c1
      case RingEnd => Ended(su, c.(st := c.st.(p2EOFReceived := true)))
  }

  ghost function After(su: Setup, events: seq<Event>): Client {
    if events == [] then Client(FRESH, [], [], false)
    else Step(su, After(su, events[..|events| - 1]), events[|events| - 1])
  }

  // ---- told from the events alone ---------------------------------------------

  function Averages(events: seq<Event>): map<string, real> {
    if events == [] then map[]
    else
      var rest, last := Averages(events[..|events| - 1]), events[|events| - 1];
      if last.Average? then rest[last.format := last.average] else rest
  }

  function AveragesIn(events: seq<Event>): nat {
    if events == [] then 0
    else AveragesIn(events[..|events| - 1]) + if events[|events| - 1].Average? then 1 else 0
  }

  /** An EOF of the averages that found them all in. */
  predicate AveragesEnded(total: U32, events: seq<Event>) {
    events != []
    && (AveragesEnded(total, events[..|events| - 1])
        || (events[|events| - 1].AvgEOF? && AveragesIn(events[..|events| - 1]) >= total))
  }

  predicate P2Ended(events: seq<Event>) {
    events != [] && (P2Ended(events[..|events| - 1]) || events[|events| - 1].RingEnd?)
  }

  /** The batches of input 0 that came before the averages were complete, or after. */
  function Batches(total: U32, events: seq<Event>, online: bool): seq<Raw> {
    if events == [] then []
    else
      var front, last := events[..|events| - 1], events[|events| - 1];
      if last.P2? && AveragesEnded(total, front) == online
      then Batches(total, front, online) + [last.raw] else Batches(total, front, online)
  }

  function AllBatches(events: seq<Event>): seq<Raw> {
    if events == [] then []
    else
      var front, last := events[..|events| - 1], events[|events| - 1];
      if last.P2? then AllBatches(front) + [last.raw] else AllBatches(front)
  }

  /**
   The senders keep their word: no more averages than declared, the same total in every
   EOF, and input 0 delivers readable batches, all before its ring ends, which it does once.
   */
  ghost predicate Honest(su: Setup, total: U32, events: seq<Event>) {
    events == [] ||
    var front, last := events[..|events| - 1], events[|events| - 1];
    && Honest(su, total, front)
    && AveragesIn(events) <= total && |AllBatches(events)| < U64_SIZE
    && (last.P2? ==> Bufferable(su.parse, last.raw) && !P2Ended(front))
    && (last.AvgEOF? ==> last.total == total)
    && (last.RingEnd? ==> !P2Ended(front))
  }

  lemma {:induction false} BatchesSplit(total: U32, events: seq<Event>)
    ensures AllBatches(events) == Batches(total, events, false) + Batches(total, events, true)
    ensures !AveragesEnded(total, events) ==> Batches(total, events, true) == []
  {
    if events != [] {
      BatchesSplit(total, events[..|events| - 1]);
    }
  }

  lemma {:induction false} BufferedAreBufferable(su: Setup, total: U32, events: seq<Event>)
    requires Honest(su, total, events)
    ensures AllBufferable(su.parse, Batches(total, events, false))
  {
    if events != [] {
      BufferedAreBufferable(su, total, events[..|events| - 1]);
    }
  }

  lemma {:induction false} NoMoreAverages(total: U32, events: seq<Event>)
    requires AveragesIn(events) <= total && AveragesEnded(total, events)
    ensures AveragesIn(events) == total
  {
    if !AveragesEnded(total, events[..|events| - 1]) {
    } else {
      NoMoreAverages(total, events[..|events| - 1]);
    }
  }

  // ---- the invariant ----------------------------------------------------------

  ghost predicate Explained(su: Setup, total: U32, events: seq<Event>) {
    var c := After(su, events);
    var ended, rows := AveragesEnded(total, events), RowsOf(Averages(events), su.pct, ItemsOf(su.parse, Batches(total, events, false)));
    && c.st.averages == Averages(events) && c.st.averagesSeen == AveragesIn(events)
    && c.st.averagesEOFReceived == ended && c.st.avgCoord.finalized == ended
    && c.st.avgCoord.expected == 1 && BarrierOf(su, total, c.st.avgCoord)
    && c.st.p2EOFReceived == P2Ended(events)
    && c.st.p2Seen == Wrap64(|ItemsOf(su.parse, AllBatches(events))|)
    && c.st.bufferedSeen == Wrap64(|ItemsOf(su.parse, Batches(total, events, false))|)
    && c.st.file == Frames(Batches(total, events, false)) && c.st.bufferCount == |Batches(total, events, false)|
    && c.online == RowsOf(Averages(events), su.pct, ItemsOf(su.parse, Batches(total, events, true)))
    && c.done == (ended && P2Ended(events))
    && c.finals == if c.done then [Final(rows, Low32(|rows|))] else []
  }

  ghost predicate BarrierOf(su: Setup, total: U32, b: Barrier) {
    b.receivedFrom == map[] || b.receivedFrom == map[su.averagesSender := total]
  }

  lemma SeenGrows(su: Setup, raws: seq<Raw>, raw: Raw)
    ensures Wrap64(|ItemsOf(su.parse, raws + [raw])|) == Wrap64(Wrap64(|ItemsOf(su.parse, raws)|) + ItemCount(su, raw))
  {
    assert (raws + [raw])[..|raws|] == raws;
    WrapAdds(|ItemsOf(su.parse, raws)|, ItemCount(su, raw));
  }

  lemma OneMoreBatch(su: Setup, averages: map<string, real>, raws: seq<Raw>, raw: Raw)
    ensures Frames(raws + [raw]) == Frames(raws) + Framed(raw)
    ensures RowsOf(averages, su.pct, ItemsOf(su.parse, raws + [raw])) ==
      RowsOf(averages, su.pct, ItemsOf(su.parse, raws)) + RowsOf(averages, su.pct, BatchItems(su, raw))
  {
    hide RowsOf, Framed;
    assert (raws + [raw])[..|raws|] == raws;
    RowsAppend(averages, su.pct, ItemsOf(su.parse, raws), BatchItems(su, raw));
  }

  lemma P2Explained(su: Setup, total: U32, events: seq<Event>)
    requires events != [] && events[|events| - 1].P2? && Honest(su, total, events) && Explained(su, total, events[..|events| - 1])
    ensures Explained(su, total, events)
  {
    hide Explained, Honest;
    if AveragesEnded(total, events[..|events| - 1]) {
      OnlineExplained(su, total, events);
    } else {
      BufferedExplained(su, total, events);
    }
  }

  lemma OnlineExplained(su: Setup, total: U32, events: seq<Event>)
    requires events != [] && events[|events| - 1].P2? && Honest(su, total, events) && Explained(su, total, events[..|events| - 1])
    requires AveragesEnded(total, events[..|events| - 1])
    ensures Explained(su, total, events)
  {
    hide RowsOf, Framed, Frames, Wrap64, ItemCount, ItemsOf, BatchItems, Low32;
    var front, raw := events[..|events| - 1], events[|events| - 1].raw;
    OneMoreBatch(su, Averages(front), Batches(total, front, true), raw);
    SeenGrows(su, AllBatches(front), raw);
  }

  lemma BufferedExplained(su: Setup, total: U32, events: seq<Event>)
    requires events != [] && events[|events| - 1].P2? && Honest(su, total, events) && Explained(su, total, events[..|events| - 1])
    requires !AveragesEnded(total, events[..|events| - 1])
    ensures Explained(su, total, events)
  {
    hide RowsOf, Framed, Frames, Wrap64, ItemCount, ItemsOf, BatchItems, Low32;
    var front, raw := events[..|events| - 1], events[|events| - 1].raw;
    BatchesSplit(total, front);
    var batches := Batches(total, front, false);
    OneMoreBatch(su, Averages(front), batches, raw);
    SeenGrows(su, AllBatches(front), raw);
    SeenGrows(su, batches, raw);
    CountGrows(|batches|);
  }

  lemma CountGrows(n: nat)
    ensures n + 1 < U64_SIZE ==> Wrap64(n + 1) == n + 1
  {
  }

  lemma AverageExplained(su: Setup, total: U32, events: seq<Event>)
    requires events != [] && events[|events| - 1].Average? && Honest(su, total, events) && Explained(su, total, events[..|events| - 1])
    ensures Explained(su, total, events)
  {
    var front := events[..|events| - 1];
    if AveragesEnded(total, front) {
      NoMoreAverages(total, front);
      assert false;
    }
    BatchesSplit(total, front);
    BatchesSplit(total, events);
  }

  lemma OneTotal(k: Sender, v: U32)
    ensures SumOf(map[k := v]) == v
  {
    SumOfUpdate(map[], k, v);
    assert map[][k := v] == map[k := v];
  }

  /** The barrier of one sender opens on the first EOF that finds all averages in. */
  lemma AveragesArrive(su: Setup, total: U32, st: State)
    requires BarrierOf(su, total, st.avgCoord) && st.avgCoord.expected == 1
    ensures var st' := AveragesEOF(su, st, total);
      && st' == st.(avgCoord := st'.avgCoord, averagesEOFReceived := st'.averagesEOFReceived)
      && BarrierOf(su, total, st'.avgCoord) && st'.avgCoord.expected == 1
      && st'.avgCoord.finalized == (st.avgCoord.finalized || st.averagesSeen >= total)
      && st'.averagesEOFReceived == (st.averagesEOFReceived || (!st.avgCoord.finalized && st.averagesSeen >= total))
  {
    OneTotal(su.averagesSender, total);
    assert map[][su.averagesSender := total] == map[su.averagesSender := total];
    assert map[su.averagesSender := total][su.averagesSender := total] == map[su.averagesSender := total];
  }

  lemma FinishIs(su: Setup, total: U32, events: seq<Event>, st: State)
    requires Honest(su, total, events)
    requires st.averages == Averages(events) && st.file == Frames(Batches(total, events, false))
    requires st.bufferCount == |Batches(total, events, false)|
    ensures var rows := RowsOf(Averages(events), su.pct, ItemsOf(su.parse, Batches(total, events, false)));
      Finish(su, st) == Final(rows, Low32(|rows|))
  {
    BufferedAreBufferable(su, total, events);
    BufferedIsRead(su.parse, Batches(total, events, false));
  }

  lemma AvgEOFExplained(su: Setup, total: U32, events: seq<Event>)
    requires events != [] && events[|events| - 1].AvgEOF? && Honest(su, total, events) && Explained(su, total, events[..|events| - 1])
    ensures Explained(su, total, events)
  {
    var front := events[..|events| - 1];
    var c := After(su, front);
    AveragesArrive(su, total, c.st);
    FinishIs(su, total, events, AveragesEOF(su, c.st, total));
    hide Finish, RowsOf, AveragesEOF;
  }

  lemma RingEndExplained(su: Setup, total: U32, events: seq<Event>)
    requires events != [] && events[|events| - 1].RingEnd? && Honest(su, total, events) && Explained(su, total, events[..|events| - 1])
    ensures Explained(su, total, events)
  {
    var front := events[..|events| - 1];
    var c := After(su, front);
    FinishIs(su, total, events, c.st.(p2EOFReceived := true));
    hide Finish, RowsOf;
  }

  lemma {:induction false} EveryRunIsExplained(su: Setup, total: U32, events: seq<Event>)
    requires Honest(su, total, events)
    ensures Explained(su, total, events)
  {
    if events != [] {
      EveryRunIsExplained(su, total, events[..|events| - 1]);
      match events[|events| - 1]
      case P2(_) => P2Explained(su, total, events);
      case Average(_, _) => AverageExplained(su, total, events);
      case AvgEOF(_) => AvgEOFExplained(su, total, events);
      case RingEnd => RingEndExplained(su, total, events);
    }
  }

  // ---- what it means ----------------------------------------------------------

  /**
   For every interleaving: the client is finalised once, as soon as both ends have come;
   the rows drained and the rows filtered online are together, in order of arrival, the
   payments under threshold, each once; the declared total counts the drain; and the items
   counted as seen, of which the ring is told, are those of all batches.
   */
  lemma TwoModesOneResult(su: Setup, total: U32, events: seq<Event>)
    requires Honest(su, total, events)
    ensures var c := After(su, events);
      && (c.done <==> AveragesEnded(total, events) && P2Ended(events))
      && |c.finals| == (if c.done then 1 else 0)
      && (c.done ==>
            && Filtered(Averages(events), su.pct, ItemsOf(su.parse, AllBatches(events)), c.finals[0].drained + c.online)
            && c.finals[0].total == Low32(|c.finals[0].drained|))
      && c.st.p2Seen == Wrap64(|ItemsOf(su.parse, AllBatches(events))|)
  {
    RowsMean(Averages(events), su.pct, ItemsOf(su.parse, AllBatches(events)));
    hide Filtered;
    EveryRunIsExplained(su, total, events);
    BatchesSplit(total, events);
    ItemsAppend(su.parse, Batches(total, events, false), Batches(total, events, true));
    RowsAppend(Averages(events), su.pct, ItemsOf(su.parse, Batches(total, events, false)), ItemsOf(su.parse, Batches(total, events, true)));
  }

  /** Every payment that can be read has no average, or is at its threshold or above. */
  ghost predicate NoneUnder(averages: map<string, real>, pct: real, items: seq<Option<Payment>>) {
    forall i :: 0 <= i < |items| ==> !Under(averages, pct, items[i])
  }

  lemma {:induction false} NoRowsIff(averages: map<string, real>, pct: real, items: seq<Option<Payment>>)
    ensures RowsOf(averages, pct, items) == [] <==> NoneUnder(averages, pct, items)
  {
    hide Under, Passes;
    if items != [] {
      var front, last := items[..|items| - 1], items[|items| - 1];
      NoRowsIff(averages, pct, front);
      UnderPasses(averages, pct, last);
      assert items == front + [last];
      assert NoneUnder(averages, pct, items) <==> NoneUnder(averages, pct, front) && !Under(averages, pct, last) by {
        assert forall i :: 0 <= i < |front| ==> items[i] == front[i];
      }
    }
  }

  /** A payment at its threshold or above leaves in neither mode: nothing at all does exactly when all are. */
  lemma NothingLeavesIff(su: Setup, total: U32, events: seq<Event>)
    requires Honest(su, total, events) && AveragesEnded(total, events) && P2Ended(events)
    ensures var c := After(su, events);
      && |c.finals| == 1
      && (c.finals[0].drained == [] && c.online == [] <==>
            NoneUnder(Averages(events), su.pct, ItemsOf(su.parse, AllBatches(events))))
  {
    hide NoneUnder, Filtered, RowsOf, After, Honest;
    TwoModesOneResult(su, total, events);
    var c, items := After(su, events), ItemsOf(su.parse, AllBatches(events));
    FilteredIff(Averages(events), su.pct, items, c.finals[0].drained + c.online);
    NoRowsIff(Averages(events), su.pct, items);
  }

  lemma FitsIff(n: nat, more: nat)
    ensures Low32(n) == n + more <==> more == 0 && n < U32_SIZE
  {
  }

  /**
   The total declared downstream is the number of rows sent exactly when no payment of a batch
   that came after the averages had ended is under its format's threshold, and the rows of the
   earlier batches fit 32 bits.
   */
  lemma DeclaredMatchesTrafficIff(su: Setup, total: U32, events: seq<Event>)
    requires Honest(su, total, events) && AveragesEnded(total, events) && P2Ended(events)
    ensures var c := After(su, events);
      var early, late := ItemsOf(su.parse, Batches(total, events, false)), ItemsOf(su.parse, Batches(total, events, true));
      && |c.finals| == 1
      && (c.finals[0].total == |c.finals[0].drained| + |c.online| <==>
            && NoneUnder(Averages(events), su.pct, late)
            && |PlacesUnder(Averages(events), su.pct, early)| < U32_SIZE)
  {
    hide RowsOf, NoneUnder, PlacesUnder, ItemsOf, After, Averages, Batches, Honest, AveragesEnded, P2Ended, Low32;
    EveryRunIsExplained(su, total, events);
    NoRowsIff(Averages(events), su.pct, ItemsOf(su.parse, Batches(total, events, true)));
    AsManyRows(Averages(events), su.pct, ItemsOf(su.parse, Batches(total, events, false)));
    var c := After(su, events);
    assert c.online == RowsOf(Averages(events), su.pct, ItemsOf(su.parse, Batches(total, events, true)));
    assert |c.online| == 0 <==> c.online == [];
    FitsIff(|RowsOf(Averages(events), su.pct, ItemsOf(su.parse, Batches(total, events, false)))|, |c.online|);
  }

  lemma OneMoreEvent(su: Setup, total: U32, front: seq<Event>, e: Event)
    ensures var events := front + [e];
      && AveragesIn(events) == AveragesIn(front) + (if e.Average? then 1 else 0)
      && (AveragesEnded(total, events) <==> AveragesEnded(total, front) || (e.AvgEOF? && AveragesIn(front) >= total))
      && (P2Ended(events) <==> P2Ended(front) || e.RingEnd?)
      && AllBatches(events) == (if e.P2? then AllBatches(front) + [e.raw] else AllBatches(front))
      && (Honest(su, total, events) <==>
            && Honest(su, total, front) && AveragesIn(events) <= total && |AllBatches(events)| < U64_SIZE
            && (e.P2? ==> Bufferable(su.parse, e.raw) && !P2Ended(front))
            && (e.AvgEOF? ==> e.total == total) && (e.RingEnd? ==> !P2Ended(front)))
    ensures var events := front + [e];
      && Averages(events) == (if e.Average? then Averages(front)[e.format := e.average] else Averages(front))
      && forall online :: Batches(total, events, online) ==
           if e.P2? && AveragesEnded(total, front) == online then Batches(total, front, online) + [e.raw] else Batches(total, front, online)
  {
    assert (front + [e])[..|front|] == front;
  }

  /** A run in which one row is sent and none declared: the payment came after the averages had ended. */
  lemma LateRowUndeclared(su: Setup, raw: Raw, p: Payment, average: real)
    requires su.parse(raw) == Batch("", [Some(p)]) && |raw| < U32_SIZE && p.amount < average * su.pct
    ensures var events := [Average(p.format, average), AvgEOF(1), P2(raw), RingEnd];
      var c := After(su, events);
      && Honest(su, 1, events) && c.online == [Row(p.bank, p.account, p.amount)]
      && c.finals == [Final([], 0)]
  {
    hide After, Averages, AveragesIn, AveragesEnded, P2Ended, AllBatches, Batches, Honest, ItemsOf, RowsOf;
    var events := [Average(p.format, average), AvgEOF(1), P2(raw), RingEnd];
    NothingYet(su, 1);
    OneMoreEvent(su, 1, [], events[0]);
    OneMoreEvent(su, 1, [] + [events[0]], events[1]);
    OneMoreEvent(su, 1, [] + [events[0]] + [events[1]], events[2]);
    OneMoreEvent(su, 1, [] + [events[0]] + [events[1]] + [events[2]], events[3]);
    assert events == [] + [events[0]] + [events[1]] + [events[2]] + [events[3]];
    EveryRunIsExplained(su, 1, events);
    OneRow(su, Averages(events), raw, p);
    assert [] + [raw] == [raw];
  }

  lemma OneRow(su: Setup, averages: map<string, real>, raw: Raw, p: Payment)
    requires su.parse(raw) == Batch("", [Some(p)]) && Passes(averages, su.pct, p)
    ensures RowsOf(averages, su.pct, ItemsOf(su.parse, [raw])) == [Row(p.bank, p.account, p.amount)]
    ensures RowsOf(averages, su.pct, ItemsOf(su.parse, [])) == []
  {
    OneBatch(su.parse, raw);
    var items := [Some(p)];
    assert items[..0] == [];
    hide ItemsOf;
    RowsOfNone(averages, su.pct);
  }

  lemma OneBatch(parse: Parser, raw: Raw)
    requires parse(raw).Batch?
    ensures ItemsOf(parse, [raw]) == parse(raw).items && ItemsOf(parse, []) == []
  {
    assert [raw][..0] == [];
  }

  lemma NothingYet(su: Setup, total: U32)
    requires total > 0
    ensures Averages([]) == map[] && AveragesIn([]) == 0 && !AveragesEnded(total, []) && !P2Ended([])
    ensures AllBatches([]) == [] && Honest(su, total, []) && forall online :: Batches(total, [], online) == []
  {
  }

  predicate NoAvgEOF(events: seq<Event>) {
    forall i :: 0 <= i < |events| ==> !events[i].AvgEOF?
  }

  lemma {:induction false} NeverEnded(total: U32, pre: seq<Event>, post: seq<Event>)
    requires NoAvgEOF(pre) && NoAvgEOF(post) && AveragesIn(pre) < total
    ensures !AveragesEnded(total, pre) && !AveragesEnded(total, pre + [AvgEOF(total)] + post)
    decreases |pre| + |post|
  {
    var events := pre + [AvgEOF(total)] + post;
    if post != [] {
      NeverEnded(total, pre, post[..|post| - 1]);
      assert events[..|events| - 1] == pre + [AvgEOF(total)] + post[..|post| - 1];
    } else {
      assert events[..|events| - 1] == pre;
      if pre != [] {
        NeverEnded(total, pre[..|pre| - 1], []);
      }
    }
  }

  /** An averages EOF that overtakes an average is never retried: without another, the client never finishes. */
  lemma EarlyAveragesEofIsLost(su: Setup, total: U32, pre: seq<Event>, post: seq<Event>)
    requires Honest(su, total, pre + [AvgEOF(total)] + post)
    requires NoAvgEOF(pre) && NoAvgEOF(post) && AveragesIn(pre) < total
    ensures !After(su, pre + [AvgEOF(total)] + post).done
  {
    NeverEnded(total, pre, post);
    EveryRunIsExplained(su, total, pre + [AvgEOF(total)] + post);
  }

  /** Such a run: everything comes in the end, and the client still never finishes. */
  lemma EarlyEofRun(su: Setup, format: string, average: real)
    ensures var events := [AvgEOF(1), Average(format, average), RingEnd];
      Honest(su, 1, events) && AveragesIn(events) == 1 && P2Ended(events) && !After(su, events).done
  {
    hide After, Averages, AveragesIn, AveragesEnded, P2Ended, AllBatches, Batches, Honest;
    var events := [AvgEOF(1), Average(format, average), RingEnd];
    NothingYet(su, 1);
    OneMoreEvent(su, 1, [], events[0]);
    OneMoreEvent(su, 1, [] + [events[0]], events[1]);
    OneMoreEvent(su, 1, [] + [events[0]] + [events[1]], events[2]);
    assert events == [] + [events[0]] + [events[1]] + [events[2]];
    assert events == [] + [AvgEOF(1)] + [Average(format, average), RingEnd];
    EarlyAveragesEofIsLost(su, 1, [], [Average(format, average), RingEnd]);
  }

  // ---- crashes ----------------------------------------------------------------

  lemma RestoredFrom(su: Setup, saved: State, knewOf: Option<U64>, headerSize: nat, kept: seq<Raw>, file: seq<Byte>)
    requires Intact(su.parse, headerSize, file) == kept && |Frames(kept)| <= |file| && Frames(kept) == file[..|Frames(kept)|]
    requires |kept| < U64_SIZE && |ItemsOf(su.parse, kept)| < U64_SIZE
    ensures Restored(su, saved, knewOf, headerSize, file) ==
      saved.(file := Frames(kept), bufferCount := |kept|, bufferedSeen := |ItemsOf(su.parse, kept)|,
             p2Seen := SeenNow(saved.p2Seen, knewOf, |ItemsOf(su.parse, kept)|))
  {
    hide Intact, ItemsOf, Frames, WireSize;
    FramesSize(kept);
  }

  /**
   Restoring a checkpoint over a buffer that grew since and was then cut at any byte: of the
   batches appended after it exactly those that lie wholly before the cut are kept and
   counted, each once, and the headers of all that is kept are handed to the duplicate check.
   */
  lemma RestoreCountsOnce(su: Setup, saved: State, headerSize: nat, before: seq<Raw>, more: seq<Raw>, k: nat)
    returns (n: nat)
    requires Recoverable(su.parse, headerSize, before + more) && |Frames(before)| <= k <= |Frames(before + more)|
    requires saved.bufferedSeen == |ItemsOf(su.parse, before)| && saved.p2Seen + |ItemsOf(su.parse, before + more)| < U64_SIZE
    requires |before + more| < U64_SIZE
    ensures n <= |more| && WholeBefore(before + more, k, |before| + n)
    ensures var file := Frames(before + more)[..k];
      var r := Restored(su, saved, Some(saved.bufferedSeen), headerSize, file);
      && r.file == Frames(before + more[..n]) && r.bufferCount == |before| + n
      && r.p2Seen == saved.p2Seen + |ItemsOf(su.parse, more[..n])|
      && r.bufferedSeen == |ItemsOf(su.parse, before + more[..n])|
      && HeadersOf(su.parse, Intact(su.parse, headerSize, file)) == HeadersOf(su.parse, before + more[..n])
  {
    hide Intact, ItemsOf, Frames, HeadersOf, Restored;
    n := CutBehind(su.parse, headerSize, before, more, k);
    var kept := before + more[..n];
    ItemsAppend(su.parse, before, more[..n]);
    ItemsAppend(su.parse, kept, more[n..]);
    assert kept + more[n..] == before + more;
    RestoredFrom(su, saved, Some(saved.bufferedSeen), headerSize, kept, Frames(before + more)[..k]);
  }

  lemma CutBehind(parse: Parser, headerSize: nat, before: seq<Raw>, more: seq<Raw>, k: nat)
    returns (n: nat)
    requires Recoverable(parse, headerSize, before + more) && |Frames(before)| <= k <= |Frames(before + more)|
    ensures n <= |more| && WholeBefore(before + more, k, |before| + n)
    ensures Intact(parse, headerSize, Frames(before + more)[..k]) == before + more[..n]
    ensures |Frames(before + more[..n])| <= k && Frames(before + more[..n]) == Frames(before + more)[..|Frames(before + more[..n])|]
  {
    hide Intact, Frames;
    var all := before + more;
    var m := RecoveryKeepsWholeBatches(parse, headerSize, all, k);
    if m < |before| {
      var rest := before[m + 1..];
      assert all[..m + 1] + rest == before;
      FramesAppend(all[..m + 1], rest);
    }
    n := m - |before|;
    assert all[..m] == before + more[..n];
  }

  /**
   A checkpoint of the older format counts right exactly if only buffered items had been seen
   when it was made, or none were buffered since.
   */
  lemma OldCheckpointCountsIff(su: Setup, saved: State, headerSize: nat, before: seq<Raw>, more: seq<Raw>)
    requires Recoverable(su.parse, headerSize, before + more) && |before + more| < U64_SIZE
    requires saved.p2Seen >= |ItemsOf(su.parse, before)| && saved.p2Seen + |ItemsOf(su.parse, before + more)| < U64_SIZE
    ensures Restored(su, saved, None, headerSize, Frames(before + more)).p2Seen == saved.p2Seen + |ItemsOf(su.parse, more)| <==>
      saved.p2Seen == |ItemsOf(su.parse, before)| || ItemsOf(su.parse, more) == []
  {
    hide Intact, ItemsOf, Frames, Restored;
    var file := Frames(before + more);
    RecoveryOfTorn(su.parse, headerSize, before + more, []);
    NothingIsTorn();
    assert file + [] == file;
    ItemsAppend(su.parse, before, more);
    RestoredFrom(su, saved, None, headerSize, before + more, file);
  }

  function BufferAll(su: Setup, st: State, raws: seq<Raw>): State {
    if raws == [] then st else Buffer(su, BufferAll(su, st, raws[..|raws| - 1]), raws[|raws| - 1])
  }

  lemma {:induction false} BufferedFile(su: Setup, st: State, raws: seq<Raw>)
    ensures BufferAll(su, st, raws).file == st.file + Frames(raws)
  {
    hide Framed, ItemCount, Wrap64;
    if raws == [] {
      assert st.file + [] == st.file;
    } else {
      var front, last := raws[..|raws| - 1], raws[|raws| - 1];
      BufferedFile(su, st, front);
      assert (st.file + Frames(front)) + Framed(last) == st.file + (Frames(front) + Framed(last));
    }
  }

  /**
   A crash before the client's first checkpoint leaves the buffer file but no state that
   knows of it; the unacked batches come again and are appended again. The drain then
   reads every item once exactly when there were none.
   */
  lemma NoCheckpointBuffersTwice(su: Setup, raws: seq<Raw>)
    requires AllBufferable(su.parse, raws)
    ensures var again := BufferAll(su, FRESH.(file := BufferAll(su, FRESH, raws).file), raws);
      && ItemsIn(su.parse, again.file) == ItemsOf(su.parse, raws) + ItemsOf(su.parse, raws)
      && (ItemsIn(su.parse, again.file) == ItemsOf(su.parse, raws) <==> ItemsOf(su.parse, raws) == [])
  {
    BufferedFile(su, FRESH, raws);
    assert FRESH.file + Frames(raws) == Frames(raws);
    BufferedFile(su, FRESH.(file := Frames(raws)), raws);
    FramesRead(su.parse, raws, Frames(raws));
    BufferedIsRead(su.parse, raws);
  }

  /** One payment, one crash, and the drain sees the payment twice. */
  lemma OnePaymentTwice(su: Setup, raw: Raw, p: Payment)
    requires su.parse(raw) == Batch("", [Some(p)]) && |raw| < U32_SIZE
    ensures ItemsIn(su.parse, BufferAll(su, FRESH.(file := BufferAll(su, FRESH, [raw]).file), [raw]).file) == [Some(p), Some(p)]
  {
    hide ItemsOf, BufferAll, Framed;
    NoCheckpointBuffersTwice(su, [raw]);
    OneBatch(su.parse, raw);
  }
}
