/**
 The joiner that merges the USD branches (src/worker/strategy/joiner/eof_joiner.go): it
 counts items as they pass and completes a client at whichever event comes last, an EOF
 or a batch.
 */
module UsdJoiner {
  import opened Common
  import opened FanInBarrier

  datatype Joined = Joined(receivedFrom: map<Sender, U32>, received: U64, allEOFsSeen: bool)

  const NOTHING_JOINED := Joined(map[], 0, false)

  ghost function Declared(st: Joined): U64 {
    Wrap64(SumOf(st.receivedFrom))
  }

  ghost predicate Ready(st: Joined) {
    st.allEOFsSeen && st.received >= Declared(st)
  }

  ghost function Received(st: Joined, n: nat): Joined {
    st.(received := Wrap64(st.received + n))
  }

  lemma ReceivedNone(st: Joined)
    ensures Received(st, 0) == st && !ReadyWithin(st, 0)
  {
  }

  lemma ReceivedMore(st: Joined, n: nat)
    ensures Received(Received(st, n), 1) == Received(st, n + 1)
    ensures ReadyWithin(st, n + 1) <==> ReadyWithin(st, n) || Ready(Received(st, n + 1))
    ensures Declared(Received(st, n + 1)) == Declared(st)
  {
    WrapAdds(st.received + n, 1);
  }

  /** Some item of a batch of n finds everything in. */
  ghost predicate ReadyWithin(st: Joined, n: nat) {
    n > 0 && (ReadyWithin(st, n - 1) || Ready(Received(st, n)))
  }

  ghost function Arrived(st: Joined, expected: nat, sender: Sender, total: U32): Joined {
    if st.allEOFsSeen || sender in st.receivedFrom then st
    else
      var st1 := st.(receivedFrom := st.receivedFrom[sender := total]);
      st1.(allEOFsSeen := |st1.receivedFrom| >= expected)
  }

  /** The EOF that completes the set of senders fires if the items are already in. */
  ghost predicate FiresOnEof(st: Joined, expected: nat, sender: Sender, total: U32) {
    !st.allEOFsSeen && Ready(Arrived(st, expected, sender, total))
  }

  function Below(n: nat): seq<nat> {
    seq(n, i => i)
  }

  lemma {:induction false} EachOnce(n: nat)
    ensures forall o: nat :: multiset(Below(n))[o] == if o < n then 1 else 0
  {
    if n > 0 {
      EachOnce(n - 1);
      assert Below(n) == Below(n - 1) + [n - 1];
    }
  }

  class EOFJoiner<P> {
    const expectedEOFs: nat
    const outputCount: nat
    var state: map<ClientID, Joined>

    constructor (expectedEOFs: nat, outputCount: nat)
      requires expectedEOFs > 0 && outputCount > 0
      ensures this.expectedEOFs == expectedEOFs && this.outputCount == outputCount && state == map[]
    {
      this.expectedEOFs, this.outputCount, state := expectedEOFs, outputCount, map[];
    }

    function StateFor(client: ClientID): Joined
      reads this
    {
      if client in state then state[client] else NOTHING_JOINED
    }

    twostate predicate OthersKept(client: ClientID)
      reads this
    {
      forall c :: c != client ==> StateFor(c) == old(StateFor(c))
    }

    /** The item goes to every output as it came. */
    method ProcessMessage(client: ClientID, item: P) returns (output: (seq<nat>, P))
      modifies this
      ensures StateFor(client) == Received(old(StateFor(client)), 1) && OthersKept(client)
      ensures output == (AllOutputs(), item)
    {
      var st := StateFor(client);
      state := state[client := st.(received := Wrap64(st.received + 1))];
      var indices: seq<nat> := [];
      for i := 0 to outputCount
        invariant indices == Below(i)
      {
        indices := indices + [i];
      }
      output := (indices, item);
    }

    /** Every output's index, each of them once. */
    ghost function AllOutputs(): (r: seq<nat>)
      ensures forall o: nat :: multiset(r)[o] == if o < outputCount then 1 else 0
    {
      EachOnce(outputCount);
      Below(outputCount)
    }

    method OnUpstreamEOF(client: ClientID, sender: Sender, total: U32) returns (emitted: Option<seq<EofEmit>>)
      modifies this
      ensures StateFor(client) == Arrived(old(StateFor(client)), expectedEOFs, sender, total) && OthersKept(client)
      ensures var st, st' := old(StateFor(client)), StateFor(client);
        if st.allEOFsSeen || sender in st.receivedFrom then st' == st && emitted == None
        else
          && st'.receivedFrom == st.receivedFrom[sender := total] && st'.received == st.received
          && (st'.allEOFsSeen <==> |st'.receivedFrom| >= expectedEOFs)
          && (emitted.Some? <==> st'.allEOFsSeen && st'.received >= Wrap64(SumOf(st'.receivedFrom)))
      ensures emitted == if FiresOnEof(old(StateFor(client)), expectedEOFs, sender, total)
        then Some(EofsTo(outputCount, Low32(Declared(StateFor(client))))) else None
    {
      var st := StateFor(client);
      state := state[client := st];
      if st.allEOFsSeen || sender in st.receivedFrom {
        return None;
      }
      st := st.(receivedFrom := st.receivedFrom[sender := total]);
      state := state[client := st];
      if |st.receivedFrom| < expectedEOFs {
        return None;
      }
      st := st.(allEOFsSeen := true);
      state := state[client := st];
      var aggTotal := AddTotals(st.receivedFrom);
      if st.received < aggTotal {
        return None;
      }
      var emits := EmitOutcome(client);
      return Some(emits);
    }

    method ReadyEOFs(client: ClientID) returns (emitted: Option<seq<EofEmit>>)
      ensures emitted == if Ready(StateFor(client)) then Some(EofsTo(outputCount, Low32(Declared(StateFor(client))))) else None
    {
      emitted := None;
      if client in state && state[client].allEOFsSeen {
        var aggTotal := AddTotals(state[client].receivedFrom);
        if state[client].received >= aggTotal {
          var emits := EmitOutcome(client);
          emitted := Some(emits);
        }
      }
    }

    method EmitOutcome(client: ClientID) returns (emits: seq<EofEmit>)
      ensures emits == EofsTo(outputCount, Low32(Declared(StateFor(client))))
    {
      var st := StateFor(client);
      var total := AddTotals(st.receivedFrom);
      emits := [];
      for i := 0 to outputCount
        invariant emits == EofsTo(i, Low32(total))
      {
        emits := emits + [EofEmit(i, Low32(total))];
      }
    }

    /** processBatch of the worker: the first item that finds everything in decides the outcome. */
    method ProcessBatch(client: ClientID, items: seq<P>) returns (outputs: seq<(seq<nat>, P)>, emitted: Option<seq<EofEmit>>)
      modifies this
      ensures StateFor(client) == Received(old(StateFor(client)), |items|) && OthersKept(client)
      ensures outputs == seq(|items|, i requires 0 <= i < |items| => (AllOutputs(), items[i]))
      ensures emitted == if ReadyWithin(old(StateFor(client)), |items|)
        then Some(EofsTo(outputCount, Low32(Declared(StateFor(client))))) else None
    {
      hide Ready, Declared, AllOutputs, Received, ReadyWithin, EofsTo;
      ghost var st := StateFor(client);
      ReceivedNone(st);
      outputs, emitted := [], None;
      for i := 0 to |items|
        invariant StateFor(client) == Received(st, i) && Declared(StateFor(client)) == Declared(st) && OthersKept(client)
        invariant |outputs| == i && forall k :: 0 <= k < i ==> outputs[k] == (AllOutputs(), items[k])
        invariant emitted == if ReadyWithin(st, i) then Some(EofsTo(outputCount, Low32(Declared(st)))) else None
      {
        ReceivedMore(st, i);
        var output := ProcessMessage(client, items[i]);
        outputs := outputs + [output];
        if emitted.None? {
          emitted := ReadyEOFs(client);
        }
      }
    }

    method CleanupClient(client: ClientID)
      modifies this
      ensures StateFor(client) == NOTHING_JOINED && OthersKept(client)
    {
      state := state - {client};
    }
  }

  // ---- one client over every order of events ------------------------------------

  datatype Event<P> = Batch(items: seq<P>) | Eof(sender: Sender, total: U32)

  /** done: completed, so that later deliveries are acked unread. */
  datatype Client<P> = Client(joined: Joined, forwarded: seq<P>, emitted: seq<EofEmit>, done: bool)

  ghost function Step<P>(expected: nat, outputs: nat, c: Client<P>, e: Event<P>): Client<P> {
    if c.done then c
    else
      match e
      case Batch(items) =>
        var c1 := c.(joined := Received(c.joined, |items|), forwarded := c.forwarded + items);
        if ReadyWithin(c.joined, |items|) then Complete(outputs, c1) else c1
      case Eof(sender, total) =>
        var c1 := c.(joined := Arrived(c.joined, expected, sender, total));
        if FiresOnEof(c.joined, expected, sender, total) then Complete(outputs, c1) else c1
  }

  ghost function Complete<P>(outputs: nat, c: Client<P>): Client<P> {
    c.(emitted := c.emitted + EofsTo(outputs, Low32(Declared(c.joined))), done := true)
  }

  ghost function After<P>(expected: nat, outputs: nat, events: seq<Event<P>>): Client<P> {
    if events == [] then Client(NOTHING_JOINED, [], [], false)
    else Step(expected, outputs, After(expected, outputs, events[..|events| - 1]), events[|events| - 1])
  }

  ghost function ItemsIn<P>(events: seq<Event<P>>): seq<P> {
    if events == [] then []
    else
      var rest, last := ItemsIn(events[..|events| - 1]), events[|events| - 1];
      if last.Batch? then rest + last.items else rest
  }

  /** The senders heard so far, with the totals they declare. */
  ghost function Heard<P>(events: seq<Event<P>>): map<Sender, U32> {
    if events == [] then map[]
    else
      var rest, last := Heard(events[..|events| - 1]), events[|events| - 1];
      if last.Eof? then rest[last.sender := last.total] else rest
  }

  /** EOFs come from the expected senders and say what those declare; no more items come than declared. */
  ghost predicate Honest<P(!new)>(declared: map<Sender, U32>, events: seq<Event<P>>) {
    && |declared| > 0 && SumOf(declared) < U32_SIZE
    && (forall e :: e in events && e.Eof? ==> e.sender in declared && e.total == declared[e.sender])
    && |ItemsIn(events)| <= SumOf(declared)
  }

  /** What the client looks like after the events, told from the events alone. */
  ghost predicate Explained<P(!new)>(declared: map<Sender, U32>, outputs: nat, events: seq<Event<P>>) {
    var c := After(|declared|, outputs, events);
    var heard, items := Heard(events), ItemsIn(events);
    && |items| < U64_SIZE && c.joined == Joined(heard, |items|, heard == declared)
    && c.forwarded == items
    && (c.done <==> heard == declared && |items| == SumOf(declared))
    && c.emitted == if c.done then EofsTo(outputs, Low32(SumOf(declared))) else []
  }

  ghost predicate Within(m: map<Sender, U32>, declared: map<Sender, U32>) {
    forall k :: k in m ==> k in declared && m[k] == declared[k]
  }

  lemma HeardAll(m: map<Sender, U32>, declared: map<Sender, U32>)
    requires Within(m, declared)
    ensures |m| >= |declared| <==> m == declared
  {
    SubsetSize(m.Keys, declared.Keys);
    assert |m| == |m.Keys| && |declared| == |declared.Keys|;
  }

  lemma {:induction false} ReadyAtTheEnd(st: Joined, n: nat)
    requires st.received + n <= Declared(st)
    ensures ReadyWithin(st, n) <==> n > 0 && st.allEOFsSeen && st.received + n == Declared(st)
  {
    if n > 0 {
      ReadyAtTheEnd(st, n - 1);
    }
  }

  lemma {:induction false} HeardWithin<P(!new)>(declared: map<Sender, U32>, events: seq<Event<P>>)
    requires forall e :: e in events && e.Eof? ==> e.sender in declared && e.total == declared[e.sender]
    ensures Within(Heard(events), declared)
  {
    if events != [] {
      HeardWithin(declared, events[..|events| - 1]);
    }
  }

  /**
   After every prefix of every interleaving, duplicates included: the client is complete
   exactly when all senders were heard and all declared items have passed; it completed
   once, with exactly one EOF to each output, and declared the number of items it had forwarded.
   */
  lemma EveryPrefixExplained<P(!new)>(declared: map<Sender, U32>, outputs: nat, events: seq<Event<P>>)
    requires Honest(declared, events)
    ensures Explained(declared, outputs, events)
    ensures var c := After(|declared|, outputs, events);
      && (forall o: nat :: EofsFor(c.emitted, o) == if c.done && o < outputs then 1 else 0)
      && (forall e :: e in c.emitted ==> e.total == SumOf(declared))
  {
    PrefixExplained(declared, outputs, events);
    NoEofsYet();
    OneForEachOutput(outputs, Low32(SumOf(declared)));
  }

  lemma {:induction false} PrefixExplained<P(!new)>(declared: map<Sender, U32>, outputs: nat, events: seq<Event<P>>)
    requires Honest(declared, events)
    ensures Explained(declared, outputs, events)
  {
    if events == [] {
    } else {
      hide Explained, Heard;
      PrefixExplained(declared, outputs, events[..|events| - 1]);
      if events[|events| - 1].Batch? {
        BatchExplained(declared, outputs, events);
      } else {
        EofExplained(declared, outputs, events);
      }
    }
  }

  lemma BatchExplained<P(!new)>(declared: map<Sender, U32>, outputs: nat, events: seq<Event<P>>)
    requires Honest(declared, events) && events != [] && events[|events| - 1].Batch?
    requires Explained(declared, outputs, events[..|events| - 1])
    ensures Explained(declared, outputs, events)
  {
    var front, last := events[..|events| - 1], events[|events| - 1];
    var c := After(|declared|, outputs, front);
    if c.joined.allEOFsSeen {
      ReadyAtTheEnd(c.joined, |last.items|);
    } else {
      NeverReady(c.joined, |last.items|);
    }
    hide ReadyWithin, SumOf;
  }

  lemma EofExplained<P(!new)>(declared: map<Sender, U32>, outputs: nat, events: seq<Event<P>>)
    requires Honest(declared, events) && events != [] && events[|events| - 1].Eof?
    requires Explained(declared, outputs, events[..|events| - 1])
    ensures Explained(declared, outputs, events)
  {
    HeardWithin(declared, events);
    HeardWithin(declared, events[..|events| - 1]);
    HeardAll(Heard(events), declared);
    hide ReadyWithin, SumOf;
  }

  lemma {:induction false} NeverReady(st: Joined, n: nat)
    requires !st.allEOFsSeen
    ensures !ReadyWithin(st, n)
  {
    if n > 0 {
      NeverReady(st, n - 1);
    }
  }

  /** When nothing is missing and nothing superfluous follows, completion is at the last event, whatever it is. */
  lemma FiresAtTheLastEvent<P(!new)>(declared: map<Sender, U32>, outputs: nat, events: seq<Event<P>>)
    requires Honest(declared, events) && |events| > 0
    requires Heard(events) == declared && |ItemsIn(events)| == SumOf(declared)
    requires var front, last := events[..|events| - 1], events[|events| - 1];
      if last.Batch? then last.items != [] else last.sender !in Heard(front)
    ensures !After(|declared|, outputs, events[..|events| - 1]).done
    ensures var c := After(|declared|, outputs, events);
      c.done && |c.forwarded| < U32_SIZE && c.emitted == EofsTo(outputs, |c.forwarded|)
  {
    EveryPrefixExplained(declared, outputs, events);
    EveryPrefixExplained(declared, outputs, events[..|events| - 1]);
  }
}
