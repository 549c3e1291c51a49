/**
 Last stage of query 4 (src/worker/strategy/counter/counter.go): counts the distinct
 middle accounts of each pair, and forgets them once the pair qualifies.
 */
module PairCounters {
  import opened Common
  import opened AccountKeys
  import opened CheckpointMaps
  import opened DeltaStrategies
  import opened PathFinders
  import opened SortedKeys

  datatype PairState = PairState(mids: set<Account>, qualified: bool)

  type Pairs = map<Pair, PairState>

  /** An intermediary in the log, accounts as text. */
  datatype MidRecord = MidRecord(source: string, dest: string, mid: string)

  /** A pair in a checkpoint. */
  datatype SavedPair = SavedPair(mids: set<string>, qualified: bool)

  const NO_MIDS := PairState({}, false)

  function PairFormat(): Format<Pair, PairState, SavedPair> {
    Format(EncodePair,
           (st: PairState) => SavedPair(EncodeSet(st.mids), st.qualified),
           s => Success(DecodePair(s)),
           (w: SavedPair) => if DecodeSet(w.mids).Some? then Some(PairState(DecodeSet(w.mids).value, w.qualified)) else None)
  }

  function At(ps: Pairs, k: Pair): PairState {
    if k in ps then ps[k] else NO_MIDS
  }

  /** Nothing to learn from this path: the pair qualified, or the middle account is known. */
  predicate Known(ps: Pairs, k: Pair, m: Account) {
    k in ps && (ps[k].qualified || m in ps[k].mids)
  }

  function Learn(min: nat, ps: Pairs, k: Pair, m: Account): Pairs {
    var st := At(ps, k);
    if st.qualified then ps
    else
      var mids := st.mids + {m};
      ps[k := if |mids| >= min then PairState({}, true) else PairState(mids, false)]
  }

  function PairOf(p: Path): Pair {
    Pair(p.source, p.dest)
  }

  function LearnAll(min: nat, ps: Pairs, xs: seq<Path>): Pairs
    decreases xs
  {
    if xs == [] then ps else LearnAll(min, Observe(min, ps, xs[0]), xs[1..])
  }

  /** ProcessMessage: a path that teaches nothing changes nothing. */
  function Observe(min: nat, ps: Pairs, x: Path): Pairs {
    if Known(ps, PairOf(x), x.mid) then ps else Learn(min, ps, PairOf(x), x.mid)
  }

  function RecordOf(x: Path): MidRecord {
    MidRecord(EncodeAccount(x.source), EncodeAccount(x.dest), EncodeAccount(x.mid))
  }

  function NewMids(min: nat, ps: Pairs, xs: seq<Path>): seq<MidRecord>
    decreases xs
  {
    if xs == [] then []
    else
      var rest := NewMids(min, Observe(min, ps, xs[0]), xs[1..]);
      if Known(ps, PairOf(xs[0]), xs[0].mid) then rest else [RecordOf(xs[0])] + rest
  }

  function Decode(r: MidRecord): Result<Path, KeyError> {
    match DecodeAccount(r.source)
    case Err(e) => Err(e)
    case Ok(source) =>
      match DecodeAccount(r.dest)
      case Err(e) => Err(e)
      case Ok(dest) =>
        match DecodeAccount(r.mid)
        case Err(e) => Err(e)
        case Ok(mid) => Ok(Path(source, mid, dest))
  }

  /** ApplyDelta stops at the first record it cannot read. */
  function Replay(min: nat, ps: Pairs, rs: seq<MidRecord>): (Pairs, Option<KeyError>)
    decreases rs
  {
    if rs == [] then (ps, None)
    else
      match Decode(rs[0])
      case Err(e) => (ps, Some(e))
      case Ok(x) => Replay(min, Learn(min, ps, PairOf(x), x.mid), rs[1..])
  }

  // ---- the state, updated in place ---------------------------------------------

  class PairCounter {
    const minIntermediates: nat
    var pairs: Pairs
    var pendingDelta: Option<seq<MidRecord>>

    constructor (minIntermediates: nat)
      ensures this.minIntermediates == minIntermediates && pairs == map[] && pendingDelta == None
    {
      this.minIntermediates, pairs, pendingDelta := minIntermediates, map[], None;
    }

    function Pending(): seq<MidRecord>
      reads this
    {
      if pendingDelta.Some? then pendingDelta.value else []
    }

    method ProcessMessage(x: Path)
      modifies this
      ensures pairs == Observe(minIntermediates, old(pairs), x)
      ensures if old(Known(pairs, PairOf(x), x.mid)) then pendingDelta == old(pendingDelta)
        else pendingDelta == Some(old(Pending()) + [RecordOf(x)])
    {
      var k := PairOf(x);
      if k !in pairs {
        pairs := pairs[k := NO_MIDS];
      }
      if pairs[k].qualified {
        return;
      }
      if x.mid in pairs[k].mids {
        return;
      }
      pairs := pairs[k := pairs[k].(mids := pairs[k].mids + {x.mid})];
      if pendingDelta.None? {
        pendingDelta := Some([]);
      }
      pendingDelta := Some(pendingDelta.value + [RecordOf(x)]);
      if |pairs[k].mids| >= minIntermediates {
        pairs := pairs[k := PairState({}, true)];
      }
    }

    method ProcessBatch(xs: seq<Path>)
      modifies this
      ensures pairs == LearnAll(minIntermediates, old(pairs), xs)
      ensures Pending() == old(Pending()) + NewMids(minIntermediates, old(pairs), xs)
      ensures pendingDelta.Some? <==> old(pendingDelta.Some?) || NewMids(minIntermediates, old(pairs), xs) != []
    {
      hide Observe, Known;
      for i := 0 to |xs|
        invariant LearnAll(minIntermediates, pairs, xs[i..]) == LearnAll(minIntermediates, old(pairs), xs)
        invariant Pending() + NewMids(minIntermediates, pairs, xs[i..]) == old(Pending()) + NewMids(minIntermediates, old(pairs), xs)
        invariant pendingDelta.Some? || NewMids(minIntermediates, pairs, xs[i..]) != []
          <==> old(pendingDelta.Some?) || NewMids(minIntermediates, old(pairs), xs) != []
      {
        assert xs[i..][1..] == xs[i + 1..];
        ProcessMessage(xs[i]);
      }
    }

    method TakeDelta() returns (delta: Option<seq<MidRecord>>)
      modifies this
      ensures delta == old(pendingDelta) && pendingDelta == None && pairs == old(pairs)
    {
      delta := pendingDelta;
      pendingDelta := None;
    }

    method ApplyDelta(delta: seq<MidRecord>) returns (failure: Option<KeyError>)
      modifies this`pairs
      ensures (pairs, failure) == Replay(minIntermediates, old(pairs), delta)
    {
      for i := 0 to |delta|
        invariant Replay(minIntermediates, pairs, delta[i..]) == Replay(minIntermediates, old(pairs), delta)
      {
        assert delta[i..][1..] == delta[i + 1..];
        var x := Decode(delta[i]);
        if x.Err? {
          return Some(x.error);
        }
        var k := PairOf(x.value);
        var st := if k in pairs then pairs[k] else NO_MIDS;
        if !st.qualified {
          st := st.(mids := st.mids + {x.value.mid});
          if |st.mids| >= minIntermediates {
            st := PairState({}, true);
          }
        }
        assert k in pairs && st.qualified && pairs[k].qualified ==> pairs[k := st] == pairs;
        pairs := pairs[k := st];
      }
      failure := None;
    }

    method MarshalClientState() returns (file: map<string, SavedPair>)
      ensures SavedAs(PairFormat(), pairs, file)
    {
      file := Save(PairFormat(), pairs);
    }

    method UnmarshalClientState(file: map<string, SavedPair>) returns (ok: bool)
      modifies this`pairs
      ensures ReadAs(PairFormat(), file, pairs)
      ensures ok <==> forall s :: s in file ==> Readable(PairFormat(), file, s)
    {
      pairs, ok := Read(PairFormat(), file);
    }

    /** buildPairOutputs: the qualified pairs, sorted. */
    method BuildPairOutputs() returns (outputs: seq<Pair>)
      ensures StrictOrder(PairLess) && outputs == Sorted(Qualified(pairs), PairLess)
    {
      PairsAreOrdered();
      outputs := SortKeys(Qualified(pairs), PairLess);
    }
  }

  function Qualified(ps: Pairs): set<Pair> {
    set k | k in ps && ps[k].qualified
  }

  // ---- the checkpoint ---------------------------------------------------------

  ghost predicate NoArrows(ps: Pairs) {
    forall k :: k in ps ==> ARROW !in k.source.name
  }

  /**
   Whatever the order of writing and reading, the counter comes back from its checkpoint
   as it was exactly when no source account it knows has an arrow in its name; a pair
   that has one never comes back.
   */
  lemma PairsReturnIff(ps: Pairs, r: Pairs)
    requires CanReturn(PairFormat(), ps, r)
    ensures NoArrows(r) && (r == ps <==> NoArrows(ps))
  {
    hide CanReturn, EncodePair, DecodePair;
    forall k | k in r ensures ARROW !in k.source.name {
      ReturnedKeys(PairFormat(), ps, r, k);
      var s :| PairFormat().key(s) == Some(k);
      ReadSourceHasNoArrow(s);
    }
    if NoArrows(ps) {
      forall k | k in ps
        ensures PairFormat().key(PairFormat().text(k)) == Some(k) && PairFormat().value(PairFormat().save(ps[k])) == Some(ps[k])
      {
        PairRoundTripIff(k);
        SetRoundTrip(ps[k].mids);
      }
      ReturnsWhole(PairFormat(), ps, r);
    }
  }

  /** With one in the counter, a pair without an arrow can come back with that pair's middle accounts. */
  lemma CollidingPairsMix(a: Account, b: Account, c: Account, first: PairState, second: PairState)
    requires ARROW !in a.name
    ensures var p := Pair(Account(a.bank, a.name + [ARROW] + EncodeAccount(b)), c);
      var q := Pair(a, Account(b.bank, b.name + [ARROW] + EncodeAccount(c)));
      && CanReturn(PairFormat(), map[p := first, q := second], map[q := first])
      && CanReturn(PairFormat(), map[p := first, q := second], map[q := second])
  {
    hide EncodePair, DecodePair;
    PairTextsCollide(a, b, c);
    var p := Pair(Account(a.bank, a.name + [ARROW] + EncodeAccount(b)), c);
    var q := Pair(a, Account(b.bank, b.name + [ARROW] + EncodeAccount(c)));
    PairRoundTripIff(q);
    OneEntryReturns(map[p := first, q := second], p, q);
    OneEntryReturns(map[p := first, q := second], q, q);
  }

  lemma OneEntryReturns(ps: Pairs, last: Pair, k: Pair)
    requires last in ps && (forall x :: x in ps ==> EncodePair(x) == EncodePair(last))
    requires DecodePair(EncodePair(last)) == Ok(k)
    ensures CanReturn(PairFormat(), ps, map[k := ps[last]])
  {
    hide EncodePair, DecodePair;
    var f, text := PairFormat(), EncodePair(last);
    var file := map[text := f.save(ps[last])];
    SetRoundTrip(ps[last].mids);
    assert SavedAs(f, ps, file) by {
      assert last in ps && last !in {} && f.text(last) == text;
    }
    assert ReadAs(f, file, map[k := ps[last]]) by {
      assert text in file && text !in {} && f.key(text) == Some(k);
      assert Taken(f, file, {}, map[k := ps[last]]);
    }
  }

  // ---- what is counted --------------------------------------------------------

  /** The middle accounts seen for a pair. */
  function MidsIn(xs: seq<Path>, k: Pair): set<Account> {
    set x | x in xs && PairOf(x) == k :: x.mid
  }

  /** An unqualified pair is still short of the minimum; a qualified one has dropped its list. */
  ghost predicate Sound(min: nat, ps: Pairs) {
    forall k :: k in ps ==> if ps[k].qualified then ps[k].mids == {} else |ps[k].mids| < min
  }

  /** The pair's state tells its middle accounts, s, up to the minimum. */
  ghost predicate Counts(min: nat, st: PairState, s: set<Account>) {
    && (st.qualified <==> |s| >= min)
    && (!st.qualified ==> st.mids == s)
  }

  lemma ObserveCounts(min: nat, ps: Pairs, x: Path, k: Pair, s: set<Account>)
    requires min > 0 && Counts(min, At(ps, k), s)
    ensures Counts(min, At(Observe(min, ps, x), k), if PairOf(x) == k then s + {x.mid} else s)
  {
    if PairOf(x) == k {
      SubsetSize(s, s + {x.mid});
      assert x.mid in s ==> s + {x.mid} == s;
    }
  }

  lemma MidsSplit(xs: seq<Path>, k: Pair, s: set<Account>)
    ensures s + MidsIn(xs, k) ==
      if xs == [] then s
      else (if PairOf(xs[0]) == k then s + {xs[0].mid} else s) + MidsIn(xs[1..], k)
  {
    if xs != [] {
      assert xs == [xs[0]] + xs[1..];
    }
  }

  lemma {:induction false} LearnAllCounts(min: nat, ps: Pairs, xs: seq<Path>, k: Pair, s: set<Account>)
    requires min > 0 && Counts(min, At(ps, k), s)
    ensures Counts(min, At(LearnAll(min, ps, xs), k), s + MidsIn(xs, k))
    decreases xs
  {
    hide Counts, Observe, MidsIn, At;
    if xs == [] {
      MidsSplit(xs, k, s);
    } else {
      ObserveCounts(min, ps, xs[0], k, s);
      var s1 := if PairOf(xs[0]) == k then s + {xs[0].mid} else s;
      LearnAllCounts(min, Observe(min, ps, xs[0]), xs[1..], k, s1);
      MidsSplit(xs, k, s);
    }
  }

  /** Early qualification loses nothing: a pair qualifies iff enough distinct middle accounts were seen. */
  lemma CounterMeans(min: nat, xs: seq<Path>, k: Pair)
    requires min > 0
    ensures k in Qualified(LearnAll(min, map[], xs)) <==> |MidsIn(xs, k)| >= min
  {
    LearnAllCounts(min, map[], xs, k, {});
    assert {} + MidsIn(xs, k) == MidsIn(xs, k);
  }

  // ---- the delta log ----------------------------------------------------------

  function CounterStrategy(min: nat): Strategy<Pairs, seq<Path>, seq<MidRecord>> {
    Strategy(map[],
             (ps, xs) => LearnAll(min, ps, xs),
             (ps, xs) => if NewMids(min, ps, xs) == [] then None else Some(NewMids(min, ps, xs)),
             (ps, rs) => Replay(min, ps, rs).0)
  }

  lemma ObserveSound(min: nat, ps: Pairs, x: Path)
    requires min > 0 && Sound(min, ps)
    ensures Sound(min, Learn(min, ps, PairOf(x), x.mid)) && Sound(min, Observe(min, ps, x))
  {
  }

  lemma LearnKnown(min: nat, ps: Pairs, k: Pair, m: Account)
    requires Sound(min, ps) && Known(ps, k, m)
    ensures Learn(min, ps, k, m) == ps
  {
    assert m in ps[k].mids ==> ps[k].mids + {m} == ps[k].mids;
  }

  lemma {:induction false} DeltaCarriesBatch(min: nat, ps: Pairs, xs: seq<Path>)
    requires min > 0 && Sound(min, ps)
    ensures Replay(min, ps, NewMids(min, ps, xs)) == (LearnAll(min, ps, xs), None) && Sound(min, LearnAll(min, ps, xs))
    decreases xs
  {
    if xs != [] {
      ObserveSound(min, ps, xs[0]);
      DeltaCarriesBatch(min, Observe(min, ps, xs[0]), xs[1..]);
      if !Known(ps, PairOf(xs[0]), xs[0].mid) {
        AccountRoundTrip(xs[0].source);
        AccountRoundTrip(xs[0].dest);
        AccountRoundTrip(xs[0].mid);
        assert NewMids(min, ps, xs)[1..] == NewMids(min, Observe(min, ps, xs[0]), xs[1..]);
      }
    }
  }

  /** Every readable record is known. */
  ghost predicate Contains(ps: Pairs, rs: seq<MidRecord>) {
    rs == [] || Decode(rs[0]).Err?
    || (Known(ps, PairOf(Decode(rs[0]).value), Decode(rs[0]).value.mid) && Contains(ps, rs[1..]))
  }

  ghost predicate Includes(ps: Pairs, more: Pairs) {
    forall k, m :: Known(ps, k, m) ==> Known(more, k, m)
  }

  lemma {:induction false} ContainedIsIdle(min: nat, ps: Pairs, rs: seq<MidRecord>)
    requires Sound(min, ps) && Contains(ps, rs)
    ensures Replay(min, ps, rs).0 == ps
  {
    if rs != [] && Decode(rs[0]).Ok? {
      LearnKnown(min, ps, PairOf(Decode(rs[0]).value), Decode(rs[0]).value.mid);
      ContainedIsIdle(min, ps, rs[1..]);
    }
  }

  lemma {:induction false} ReplayGrows(min: nat, ps: Pairs, rs: seq<MidRecord>)
    ensures Includes(ps, Replay(min, ps, rs).0)
    decreases rs
  {
    if rs != [] && Decode(rs[0]).Ok? {
      ReplayGrows(min, Learn(min, ps, PairOf(Decode(rs[0]).value), Decode(rs[0]).value.mid), rs[1..]);
    }
  }

  lemma {:induction false} ReplayContains(min: nat, ps: Pairs, rs: seq<MidRecord>)
    ensures Contains(Replay(min, ps, rs).0, rs)
    decreases rs
  {
    if rs != [] && Decode(rs[0]).Ok? {
      var more := Learn(min, ps, PairOf(Decode(rs[0]).value), Decode(rs[0]).value.mid);
      ReplayContains(min, more, rs[1..]);
      ReplayGrows(min, more, rs[1..]);
    }
  }

  lemma {:induction false} ContainsMore(ps: Pairs, more: Pairs, rs: seq<MidRecord>)
    requires Contains(ps, rs) && Includes(ps, more)
    ensures Contains(more, rs)
  {
    if rs != [] && Decode(rs[0]).Ok? {
      ContainsMore(ps, more, rs[1..]);
    }
  }

  /** The delta taken after a batch gives the state after the batch. */
  lemma CounterDeltaAgrees(min: nat)
    requires min > 0
    ensures DeltaAgrees(CounterStrategy(min), ps => Sound(min, ps))
  {
    var st := CounterStrategy(min);
    forall ps: Pairs, xs: seq<Path> | Sound(min, ps)
      ensures Sound(min, st.process(ps, xs)) && ApplyDelta(st, ps, st.delta(ps, xs)) == st.process(ps, xs)
    {
      DeltaCarriesBatch(min, ps, xs);
    }
  }

  /** Replaying over a state that already contains the delta, or a later one, changes nothing. */
  lemma CounterAbsorbs(min: nat)
    requires min > 0
    ensures Absorbing(CounterStrategy(min), ps => Sound(min, ps))
  {
    var st := CounterStrategy(min);
    forall ps: Pairs, xs: seq<Path> | Sound(min, ps)
      ensures ApplyDelta(st, st.process(ps, xs), st.delta(ps, xs)) == st.process(ps, xs)
    {
      DeltaCarriesBatch(min, ps, xs);
      ReplayContains(min, ps, NewMids(min, ps, xs));
      ContainedIsIdle(min, LearnAll(min, ps, xs), NewMids(min, ps, xs));
    }
    forall ps: Pairs, xs: seq<Path>, d: Option<seq<MidRecord>> | Sound(min, ps) && ApplyDelta(st, ps, d) == ps
      ensures ApplyDelta(st, st.process(ps, xs), d) == st.process(ps, xs)
    {
      if d.Some? {
        ReplayContains(min, ps, d.value);
        DeltaCarriesBatch(min, ps, xs);
        ReplayGrows(min, ps, NewMids(min, ps, xs));
        ContainsMore(ps, LearnAll(min, ps, xs), d.value);
        ContainedIsIdle(min, LearnAll(min, ps, xs), d.value);
      }
    }
  }
}
