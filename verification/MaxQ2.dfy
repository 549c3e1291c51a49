/**
 The largest payment per bank (src/worker/strategy/max_q2/max_q2.go) and its delta log.
 Amounts are ordered values; not-a-number is not part of the model.
 */
module MaxQ2 {
  import opened Common
  import opened AccountKeys
  import opened CheckpointMaps
  import opened DeltaStrategies
  import opened Sharding
  import BankOutputs

  datatype Payment = Payment(bank: U32, account: string, amount: real)

  datatype PartialMax = PartialMax(account: string, amount: real)

  type Maxes = map<U32, PartialMax>

  function MaxFormat(): Format<U32, PartialMax, PartialMax> {
    Format((b: U32) => Decimal(b), v => v, ParseUint32, v => Some(v))
  }

  predicate Improves(maxes: Maxes, p: Payment) {
    p.bank !in maxes || p.amount > maxes[p.bank].amount
  }

  function Offer(maxes: Maxes, p: Payment): Maxes {
    if Improves(maxes, p) then maxes[p.bank := PartialMax(p.account, p.amount)] else maxes
  }

  function OfferAll(maxes: Maxes, ps: seq<Payment>): Maxes
    decreases ps
  {
    if ps == [] then maxes else OfferAll(Offer(maxes, ps[0]), ps[1..])
  }

  /** The payments of a batch that became the maximum when they came. */
  function Changes(maxes: Maxes, ps: seq<Payment>): seq<Payment>
    decreases ps
  {
    if ps == [] then []
    else if Improves(maxes, ps[0]) then [ps[0]] + Changes(Offer(maxes, ps[0]), ps[1..])
    else Changes(maxes, ps[1..])
  }

  class MaxState {
    var maxes: Maxes
    var pendingDelta: Option<seq<Payment>>

    constructor ()
      ensures maxes == map[] && pendingDelta == None
    {
      maxes, pendingDelta := map[], None;
    }

    function Pending(): seq<Payment>
      reads this
    {
      if pendingDelta.Some? then pendingDelta.value else []
    }

    method ProcessMessage(p: Payment)
      modifies this
      ensures maxes == Offer(old(maxes), p)
      ensures pendingDelta == if old(Improves(maxes, p)) then Some(old(Pending()) + [p]) else old(pendingDelta)
    {
      if p.bank !in maxes || p.amount > maxes[p.bank].amount {
        maxes := maxes[p.bank := PartialMax(p.account, p.amount)];
        if pendingDelta.None? {
          pendingDelta := Some([]);
        }
        pendingDelta := Some(pendingDelta.value + [p]);
      }
    }

    method ProcessBatch(ps: seq<Payment>)
      modifies this
      ensures maxes == OfferAll(old(maxes), ps)
      ensures Pending() == old(Pending()) + Changes(old(maxes), ps)
      ensures pendingDelta.Some? <==> old(pendingDelta.Some?) || Changes(old(maxes), ps) != []
    {
      for i := 0 to |ps|
        invariant OfferAll(maxes, ps[i..]) == OfferAll(old(maxes), ps)
        invariant Pending() + Changes(maxes, ps[i..]) == old(Pending()) + Changes(old(maxes), ps)
        invariant pendingDelta.Some? || Changes(maxes, ps[i..]) != [] <==> old(pendingDelta.Some?) || Changes(old(maxes), ps) != []
      {
        assert ps[i..][1..] == ps[i + 1..];
        ProcessMessage(ps[i]);
      }
    }

    method TakeDelta() returns (delta: Option<seq<Payment>>)
      modifies this
      ensures delta == old(pendingDelta) && pendingDelta == None && maxes == old(maxes)
    {
      delta := pendingDelta;
      pendingDelta := None;
    }

    method ApplyDelta(delta: seq<Payment>)
      modifies this`maxes
      ensures maxes == OfferAll(old(maxes), delta)
    {
      for i := 0 to |delta|
        invariant OfferAll(maxes, delta[i..]) == OfferAll(old(maxes), delta)
      {
        assert delta[i..][1..] == delta[i + 1..];
        var ch := delta[i];
        if ch.bank !in maxes || ch.amount > maxes[ch.bank].amount {
          maxes := maxes[ch.bank := PartialMax(ch.account, ch.amount)];
        }
      }
    }

    method MarshalClientState() returns (file: map<string, PartialMax>)
      ensures SavedAs(MaxFormat(), maxes, file)
    {
      file := Save(MaxFormat(), maxes);
    }

    method UnmarshalClientState(file: map<string, PartialMax>) returns (ok: bool)
      modifies this`maxes
      ensures ReadAs(MaxFormat(), file, maxes)
      ensures ok <==> forall s :: s in file ==> Readable(MaxFormat(), file, s)
    {
      maxes, ok := Read(MaxFormat(), file);
    }

    /** outcomeFor, once the ring is over. */
    method Outcome(hash: string -> U32, kAggregators: nat, client: string)
      returns (outputs: seq<Routed<BankOutputs.Entry<PartialMax>>>, totals: seq<U32>)
      ensures outputs == BankOutputs.Emitted(hash, kAggregators, client, maxes)
      ensures |totals| == kAggregators && forall i :: 0 <= i < kAggregators ==> totals[i] == Low32(|SentTo(outputs, i)|)
    {
      outputs, totals := BankOutputs.Emit(hash, kAggregators, client, maxes);
    }
  }

  // ---- what is kept -----------------------------------------------------------

  /** Payment i is the first of its bank to reach the bank's largest amount. */
  ghost predicate FirstMax(ps: seq<Payment>, i: nat) {
    && i < |ps|
    && (forall j :: 0 <= j < |ps| && ps[j].bank == ps[i].bank ==> ps[j].amount <= ps[i].amount)
    && (forall j :: 0 <= j < i && ps[j].bank == ps[i].bank ==> ps[j].amount < ps[i].amount)
  }

  /** What is kept for bank b is payment i. */
  ghost predicate Keeps(maxes: Maxes, ps: seq<Payment>, b: U32, i: nat) {
    b in maxes && FirstMax(ps, i) && ps[i].bank == b && maxes[b] == PartialMax(ps[i].account, ps[i].amount)
  }

  ghost predicate KeepsMaxima(maxes: Maxes, ps: seq<Payment>) {
    && (forall b :: b in maxes ==> exists i: nat :: Keeps(maxes, ps, b, i))
    && (forall i :: 0 <= i < |ps| ==> ps[i].bank in maxes)
  }

  lemma StillKept(maxes: Maxes, ps: seq<Payment>, p: Payment, b: U32, i: nat)
    requires Keeps(maxes, ps, b, i) && !(b == p.bank && Improves(maxes, p))
    ensures Keeps(Offer(maxes, p), ps + [p], b, i)
  {
  }

  lemma NewKept(maxes: Maxes, ps: seq<Payment>, p: Payment)
    requires KeepsMaxima(maxes, ps) && Improves(maxes, p)
    ensures Keeps(Offer(maxes, p), ps + [p], p.bank, |ps|)
  {
    if p.bank in maxes {
      var i: nat :| Keeps(maxes, ps, p.bank, i);
      assert forall j :: 0 <= j < |ps| && ps[j].bank == p.bank ==> ps[j].amount <= ps[i].amount;
    } else {
      assert forall j :: 0 <= j < |ps| ==> ps[j].bank != p.bank;
    }
  }

  lemma OfferKeepsMaxima(maxes: Maxes, ps: seq<Payment>, p: Payment)
    requires KeepsMaxima(maxes, ps)
    ensures KeepsMaxima(Offer(maxes, p), ps + [p])
  {
    hide Keeps;
    var qs := ps + [p];
    forall b | b in Offer(maxes, p) ensures exists i: nat :: Keeps(Offer(maxes, p), qs, b, i) {
      if b == p.bank && Improves(maxes, p) {
        NewKept(maxes, ps, p);
      } else {
        var i: nat :| Keeps(maxes, ps, b, i);
        StillKept(maxes, ps, p, b, i);
      }
    }
  }

  /** For each bank, and no other, the earliest payment among its largest is kept. */
  lemma {:induction false} MaxMeans(before: seq<Payment>, maxes: Maxes, ps: seq<Payment>)
    requires KeepsMaxima(maxes, before)
    ensures KeepsMaxima(OfferAll(maxes, ps), before + ps)
    decreases ps
  {
    hide KeepsMaxima, Offer;
    if ps == [] {
      assert before + ps == before;
    } else {
      OfferKeepsMaxima(maxes, before, ps[0]);
      MaxMeans(before + [ps[0]], Offer(maxes, ps[0]), ps[1..]);
      assert before + [ps[0]] + ps[1..] == before + ps;
    }
  }

  lemma MaximaOfAllPayments(ps: seq<Payment>)
    ensures KeepsMaxima(OfferAll(map[], ps), ps)
  {
    assert KeepsMaxima(map[], []);
    hide KeepsMaxima;
    MaxMeans([], map[], ps);
    assert [] + ps == ps;
  }

  lemma MaximaReturn(m: Maxes, r: Maxes)
    requires CanReturn(MaxFormat(), m, r)
    ensures r == m
  {
    hide CanReturn, Decimal, ParseUint32;
    forall b | b in m ensures ParseUint32(Decimal(b)) == Some(b) {
      BankRoundTrip(b);
    }
    ReturnsWhole(MaxFormat(), m, r);
  }

  // ---- the delta log ----------------------------------------------------------

  function MaxStrategy(): Strategy<Maxes, seq<Payment>, seq<Payment>> {
    Strategy(map[],
             (m, ps) => OfferAll(m, ps),
             (m, ps) => if Changes(m, ps) == [] then None else Some(Changes(m, ps)),
             (m, d) => OfferAll(m, d))
  }

  lemma {:induction false} ChangesCarryBatch(m: Maxes, ps: seq<Payment>)
    ensures OfferAll(m, Changes(m, ps)) == OfferAll(m, ps)
    decreases ps
  {
    if ps != [] {
      ChangesCarryBatch(Offer(m, ps[0]), ps[1..]);
      if Improves(m, ps[0]) {
        assert Changes(m, ps)[1..] == Changes(Offer(m, ps[0]), ps[1..]);
      }
    }
  }

  ghost predicate Dominates(m: Maxes, ps: seq<Payment>) {
    forall p :: p in ps ==> !Improves(m, p)
  }

  lemma {:induction false} DominatedIsIdle(m: Maxes, ps: seq<Payment>)
    requires Dominates(m, ps)
    ensures OfferAll(m, ps) == m
  {
    if ps != [] {
      DominatedIsIdle(m, ps[1..]);
    }
  }

  lemma {:induction false} OfferAllGrows(m: Maxes, ps: seq<Payment>, q: Payment)
    requires !Improves(m, q)
    ensures !Improves(OfferAll(m, ps), q)
    decreases ps
  {
    if ps != [] {
      OfferAllGrows(Offer(m, ps[0]), ps[1..], q);
    }
  }

  lemma {:induction false} OfferAllDominates(m: Maxes, ps: seq<Payment>)
    ensures Dominates(OfferAll(m, ps), ps)
    decreases ps
  {
    if ps != [] {
      OfferAllDominates(Offer(m, ps[0]), ps[1..]);
      OfferAllGrows(Offer(m, ps[0]), ps[1..], ps[0]);
      assert ps == [ps[0]] + ps[1..];
    }
  }

  ghost predicate AnyMaxes(m: Maxes) {
    true
  }

  /** The delta taken after a batch gives the state after the batch. */
  lemma MaxDeltaAgrees()
    ensures DeltaAgrees(MaxStrategy(), AnyMaxes)
  {
    var st := MaxStrategy();
    forall m: Maxes, ps: seq<Payment> ensures ApplyDelta(st, m, st.delta(m, ps)) == st.process(m, ps) {
      ChangesCarryBatch(m, ps);
    }
  }

  /** Replaying over a state that already contains the delta, or a later one, changes nothing. */
  lemma MaxAbsorbs()
    ensures Absorbing(MaxStrategy(), AnyMaxes)
  {
    var st := MaxStrategy();
    forall m: Maxes, ps: seq<Payment> ensures ApplyDelta(st, st.process(m, ps), st.delta(m, ps)) == st.process(m, ps) {
      ChangesCarryBatch(m, ps);
      OfferAllDominates(m, Changes(m, ps));
      DominatedIsIdle(OfferAll(m, ps), Changes(m, ps));
    }
    forall m: Maxes, ps: seq<Payment>, d: Option<seq<Payment>> | ApplyDelta(st, m, d) == m
      ensures ApplyDelta(st, st.process(m, ps), d) == st.process(m, ps)
    {
      if d.Some? {
        OfferAllDominates(m, d.value);
        forall p | p in d.value ensures !Improves(OfferAll(m, ps), p) {
          OfferAllGrows(m, ps, p);
        }
        DominatedIsIdle(OfferAll(m, ps), d.value);
      }
    }
  }
}
