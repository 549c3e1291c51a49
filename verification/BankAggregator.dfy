/**
 The names of the banks (src/worker/strategy/bank_aggregator/bank_aggregator.go). Unlike
 the other logged strategies it overwrites, so its log rebuilds the state but may not be
 replayed over a newer one.
 */
module BankAggregators {
  import opened Common
  import opened AccountKeys
  import opened CheckpointMaps
  import opened DeltaStrategies
  import opened Sharding
  import BankOutputs

  datatype NamedBank = NamedBank(bank: U32, name: string)

  type Names = map<U32, string>

  function NameFormat(): Format<U32, string, string> {
    Format((b: U32) => Decimal(b), v => v, ParseUint32, v => Some(v))
  }

  /** The last name given to each bank. */
  function LastNames(xs: seq<NamedBank>): Names {
    if xs == [] then map[] else LastNames(xs[..|xs| - 1])[xs[|xs| - 1].bank := xs[|xs| - 1].name]
  }

  /** The delta as it is written: bank ids as decimal text. */
  function Text(names: Names): map<string, string> {
    DecimalsDiffer();
    map b: U32 | b in names :: Decimal(b) := names[b]
  }

  lemma DecimalsDiffer()
    ensures forall a: nat, b: nat :: Decimal(a) == Decimal(b) ==> a == b
  {
    forall a: nat, b: nat | Decimal(a) == Decimal(b) ensures a == b {
      DecimalRoundTrip(a);
      DecimalRoundTrip(b);
    }
  }

  class BankState {
    var bankNames: Names
    var pendingDelta: Option<map<string, string>>

    constructor ()
      ensures bankNames == map[] && pendingDelta == None
    {
      bankNames, pendingDelta := map[], None;
    }

    method ProcessMessage(x: NamedBank)
      modifies this
      ensures bankNames == old(bankNames)[x.bank := x.name]
      ensures pendingDelta == Some((if old(pendingDelta).Some? then old(pendingDelta).value else map[])[Decimal(x.bank) := x.name])
    {
      bankNames := bankNames[x.bank := x.name];
      RecordDelta(x.bank, x.name);
    }

    method RecordDelta(bank: U32, name: string)
      modifies this`pendingDelta
      ensures pendingDelta == Some((if old(pendingDelta).Some? then old(pendingDelta).value else map[])[Decimal(bank) := name])
    {
      if pendingDelta.None? {
        pendingDelta := Some(map[]);
      }
      pendingDelta := Some(pendingDelta.value[Decimal(bank) := name]);
    }

    /** A batch after which TakeDelta will hand over the batch's last names. */
    method ProcessBatch(xs: seq<NamedBank>)
      requires pendingDelta == None
      modifies this
      ensures bankNames == old(bankNames) + LastNames(xs)
      ensures pendingDelta == if xs == [] then None else Some(Text(LastNames(xs)))
    {
      hide Text, LastNames;
      NoNames();
      for i := 0 to |xs|
        invariant bankNames == old(bankNames) + LastNames(xs[..i])
        invariant pendingDelta == if i == 0 then None else Some(Text(LastNames(xs[..i])))
      {
        OneMoreName(xs, i);
        TextUpdate(LastNames(xs[..i]), xs[i].bank, xs[i].name);
        ProcessMessage(xs[i]);
      }
      assert xs[..|xs|] == xs;
    }

    method TakeDelta() returns (delta: Option<map<string, string>>)
      modifies this
      ensures delta == old(pendingDelta) && pendingDelta == None && bankNames == old(bankNames)
    {
      delta := pendingDelta;
      pendingDelta := None;
    }

    /** Reads the map in any order; a delta that TakeDelta wrote is applied in full. */
    method ApplyDelta(delta: map<string, string>, ghost names: Names) returns (ok: bool)
      modifies this`bankNames
      ensures ok <==> forall k :: k in delta ==> ParseUint32(k).Some?
      ensures delta == Text(names) ==> ok && bankNames == old(bankNames) + names
    {
      hide Text, Applied, Decimal, ParseUint32;
      AppliedEnds(names);
      var todo := delta.Keys;
      while todo != {}
        invariant todo <= delta.Keys && forall k :: k in delta && k !in todo ==> ParseUint32(k).Some?
        invariant delta == Text(names) ==> bankNames == old(bankNames) + Applied(names, todo)
      {
        var k :| k in todo;
        var bank := ParseUint32(k);
        if delta == Text(names) {
          NextApplied(names, todo, k);
        }
        if bank.None? {
          return false;
        }
        bankNames := bankNames[bank.value := delta[k]];
        todo := todo - {k};
      }
      ok := true;
    }

    method MarshalClientState() returns (file: map<string, string>)
      ensures SavedAs(NameFormat(), bankNames, file)
    {
      file := Save(NameFormat(), bankNames);
    }

    method UnmarshalClientState(file: map<string, string>) returns (ok: bool)
      modifies this`bankNames
      ensures ReadAs(NameFormat(), file, bankNames)
      ensures ok <==> forall s :: s in file ==> Readable(NameFormat(), file, s)
    {
      bankNames, ok := Read(NameFormat(), file);
    }

    method Outcome(hash: string -> U32, kAggregators: nat, client: string)
      returns (outputs: seq<Routed<BankOutputs.Entry<string>>>, totals: seq<U32>)
      ensures outputs == BankOutputs.Emitted(hash, kAggregators, client, bankNames)
      ensures |totals| == kAggregators && forall i :: 0 <= i < kAggregators ==> totals[i] == Low32(|SentTo(outputs, i)|)
    {
      outputs, totals := BankOutputs.Emit(hash, kAggregators, client, bankNames);
    }
  }

  /** The part of the names whose keys are not waiting in todo. */
  ghost function Applied(names: Names, todo: set<string>): Names {
    map b | b in names && Decimal(b) !in todo :: names[b]
  }

  lemma AppliedEnds(names: Names)
    ensures Applied(names, Text(names).Keys) == map[] && Applied(names, {}) == names
  {
    assert forall b :: b in names ==> Decimal(b) in Text(names);
  }

  lemma NextApplied(names: Names, todo: set<string>, k: string)
    requires k in todo && k in Text(names)
    ensures ParseUint32(k).Some? && ParseUint32(k).value in names
    ensures Text(names)[k] == names[ParseUint32(k).value]
    ensures Applied(names, todo - {k}) == Applied(names, todo)[ParseUint32(k).value := Text(names)[k]]
  {
    var b :| b in names && k == Decimal(b);
    DecimalRoundTrip(b);
    DecimalsDiffer();
    AppliedMore(names, todo, b);
  }

  lemma AppliedMore(names: Names, todo: set<string>, b: U32)
    requires b in names && Decimal(b) in todo
    ensures Applied(names, todo - {Decimal(b)}) == Applied(names, todo)[b := names[b]]
  {
    DecimalsDiffer();
    hide Decimal;
  }

  lemma NoNames()
    ensures LastNames([]) == map[] && Text(map[]) == map[]
  {
  }

  lemma OneMoreName(xs: seq<NamedBank>, i: nat)
    requires i < |xs|
    ensures LastNames(xs[..i + 1]) == LastNames(xs[..i])[xs[i].bank := xs[i].name]
  {
    assert xs[..i + 1][..i] == xs[..i];
  }

  lemma TextUpdate(names: Names, bank: U32, name: string)
    ensures Text(names[bank := name]) == Text(names)[Decimal(bank) := name]
  {
    DecimalsDiffer();
  }

  lemma NamesReturn(names: Names, r: Names)
    requires CanReturn(NameFormat(), names, r)
    ensures r == names
  {
    hide CanReturn, Decimal, ParseUint32;
    forall b | b in names ensures ParseUint32(Decimal(b)) == Some(b) {
      BankRoundTrip(b);
    }
    ReturnsWhole(NameFormat(), names, r);
  }

  // ---- the delta log ----------------------------------------------------------

  function BankStrategy(): Strategy<Names, seq<NamedBank>, Names> {
    Strategy(map[],
             (names, xs) => names + LastNames(xs),
             (names, xs) => if xs == [] then None else Some(LastNames(xs)),
             (names, d) => names + d)
  }

  ghost predicate AnyNames(names: Names) {
    true
  }

  /** The delta taken after a batch gives the state after the batch. */
  lemma BankDeltaAgrees()
    ensures DeltaAgrees(BankStrategy(), AnyNames)
  {
    forall names: Names ensures names + LastNames([]) == names {
      assert LastNames([]) == map[];
    }
  }

  /** The last names over a list of batches. */
  function Logged(bs: seq<seq<NamedBank>>): Names {
    if bs == [] then map[] else Logged(bs[..|bs| - 1]) + LastNames(bs[|bs| - 1])
  }

  lemma {:induction false} ProcessedNames(s: Names, bs: seq<seq<NamedBank>>)
    ensures ProcessAll(BankStrategy(), s, bs) == s + Logged(bs)
  {
    if bs != [] {
      ProcessedNames(s, bs[..|bs| - 1]);
    }
  }

  lemma MergeTwice(s: Names, a: Names, b: Names)
    ensures s + a + b == s + (a + b) && s + map[] == s
  {
  }

  lemma {:induction false} ReplayedNames(s: Names, from: Names, bs: seq<seq<NamedBank>>)
    ensures ApplyAll(BankStrategy(), s, DeltasOf(BankStrategy(), from, bs)) == s + Logged(bs)
  {
    if bs != [] {
      var front, last := bs[..|bs| - 1], bs[|bs| - 1];
      ReplayedNames(s, from, front);
      var ds := DeltasOf(BankStrategy(), from, bs);
      var d := BankStrategy().delta(ProcessAll(BankStrategy(), from, front), last);
      assert ds[..|ds| - 1] == DeltasOf(BankStrategy(), from, front) && ds[|ds| - 1] == d;
      MergeTwice(s, Logged(front), LastNames(last));
    }
  }

  /** Replaying the whole log over the state it led to changes nothing. */
  lemma WholeLogIsIdempotent(s: Names, bs: seq<seq<NamedBank>>)
    ensures var end := ProcessAll(BankStrategy(), s, bs);
      ApplyAll(BankStrategy(), end, DeltasOf(BankStrategy(), s, bs)) == end
  {
    ProcessedNames(s, bs);
    ReplayedNames(s + Logged(bs), s, bs);
  }

  /**
   Over a state that has gone further, the log is harmless exactly when none of the
   banks it names has been given another name since.
   */
  lemma NewerStateKeptIff(s: Names, bs: seq<seq<NamedBank>>, later: seq<seq<NamedBank>>)
    ensures var newer := ProcessAll(BankStrategy(), ProcessAll(BankStrategy(), s, bs), later);
      ApplyAll(BankStrategy(), newer, DeltasOf(BankStrategy(), s, bs)) == newer <==>
        forall b :: b in Logged(bs) && b in Logged(later) ==> Logged(later)[b] == Logged(bs)[b]
  {
    hide Logged, BankStrategy, ProcessAll, DeltasOf, ApplyAll;
    ProcessedNames(s, bs);
    ProcessedNames(s + Logged(bs), later);
    var newer := s + Logged(bs) + Logged(later);
    ReplayedNames(newer, s, bs);
    assert newer + Logged(bs) == newer <==> forall b :: b in Logged(bs) ==> newer[b] == Logged(bs)[b];
  }

  /** A bank renamed: an older delta brings the old name back. */
  lemma OlderDeltaReverts()
    ensures !Absorbing(BankStrategy(), AnyNames)
  {
    var st := BankStrategy();
    var first, second := NamedBank(1, "old"), NamedBank(1, "new");
    var s := st.process(map[], [first]);
    assert LastNames([first]) == map[1 := "old"] && LastNames([second]) == map[1 := "new"];
    var d := st.delta(map[], [first]);
    assert ApplyDelta(st, s, d) == s;
    assert ApplyDelta(st, st.process(s, [second]), d)[1] == "old" && st.process(s, [second])[1] == "new";
  }
}
