/**
 Who sent to whom, as the suspicious filter and the path finder both keep it
 (clientState in src/worker/strategy/suspicious_filter/suspicious_filter.go and
 src/worker/strategy/pathfinder/pathfinder.go), with its delta log.
 */
module AccountGraphs {
  import opened Common
  import opened AccountKeys
  import opened CheckpointMaps
  import opened DeltaStrategies

  /** A transfer, sent to the shard of its source or of its destination. */
  datatype ShardedTx = ShardedTx(from: Account, to: Account, bySource: bool)

  datatype Neighbours = Neighbours(outs: set<Account>, ins: set<Account>)

  type Graph = map<Account, Neighbours>

  /** An edge in the log, accounts as text. */
  datatype EdgeRecord = EdgeRecord(key: string, peer: string, out: bool)

  /** An account in a checkpoint. */
  datatype SavedAccount = SavedAccount(outs: set<string>, ins: set<string>)

  const ALONE := Neighbours({}, {})

  function GraphFormat(): Format<Account, Neighbours, SavedAccount> {
    Format(EncodeAccount,
           (n: Neighbours) => SavedAccount(EncodeSet(n.outs), EncodeSet(n.ins)),
           s => Success(DecodeAccount(s)),
           (w: SavedAccount) =>
             if DecodeSet(w.outs).Some? && DecodeSet(w.ins).Some?
             then Some(Neighbours(DecodeSet(w.outs).value, DecodeSet(w.ins).value))
             else None)
  }

  function At(g: Graph, k: Account): Neighbours {
    if k in g then g[k] else ALONE
  }

  function Towards(n: Neighbours, out: bool): set<Account> {
    if out then n.outs else n.ins
  }

  predicate Has(g: Graph, key: Account, peer: Account, out: bool) {
    key in g && peer in Towards(g[key], out)
  }

  function Add(g: Graph, key: Account, peer: Account, out: bool): Graph {
    var n := At(g, key);
    g[key := if out then n.(outs := n.outs + {peer}) else n.(ins := n.ins + {peer})]
  }

  function KeyOf(x: ShardedTx): Account {
    if x.bySource then x.from else x.to
  }

  function PeerOf(x: ShardedTx): Account {
    if x.bySource then x.to else x.from
  }

  /** The graph after a batch. */
  function AddAll(g: Graph, xs: seq<ShardedTx>): Graph
    decreases xs
  {
    if xs == [] then g else AddAll(Add(g, KeyOf(xs[0]), PeerOf(xs[0]), xs[0].bySource), xs[1..])
  }

  function RecordOf(x: ShardedTx): EdgeRecord {
    EdgeRecord(EncodeAccount(KeyOf(x)), EncodeAccount(PeerOf(x)), x.bySource)
  }

  /** The edges a batch adds that were not there. */
  function NewEdges(g: Graph, xs: seq<ShardedTx>): seq<EdgeRecord>
    decreases xs
  {
    if xs == [] then []
    else
      var rest := NewEdges(Add(g, KeyOf(xs[0]), PeerOf(xs[0]), xs[0].bySource), xs[1..]);
      if Has(g, KeyOf(xs[0]), PeerOf(xs[0]), xs[0].bySource) then rest else [RecordOf(xs[0])] + rest
  }

  /** ApplyDelta stops at the first record it cannot read. */
  function Replay(g: Graph, rs: seq<EdgeRecord>): (Graph, Option<KeyError>)
    decreases rs
  {
    if rs == [] then (g, None)
    else
      match DecodeAccount(rs[0].key)
      case Err(e) => (g, Some(e))
      case Ok(key) =>
        match DecodeAccount(rs[0].peer)
        case Err(e) => (g, Some(e))
        case Ok(peer) => Replay(Add(g, key, peer, rs[0].out), rs[1..])
  }

  // ---- the state, updated in place ---------------------------------------------

  class AccountGraph {
    var accounts: Graph
    var pendingDelta: Option<seq<EdgeRecord>>

    constructor ()
      ensures accounts == map[] && pendingDelta == None
    {
      accounts, pendingDelta := map[], None;
    }

    function Pending(): seq<EdgeRecord>
      reads this
    {
      if pendingDelta.Some? then pendingDelta.value else []
    }

    method AddEdge(key: Account, peer: Account, out: bool)
      modifies this
      ensures accounts == Add(old(accounts), key, peer, out)
      ensures if old(Has(accounts, key, peer, out)) then pendingDelta == old(pendingDelta)
        else pendingDelta == Some(old(Pending()) + [EdgeRecord(EncodeAccount(key), EncodeAccount(peer), out)])
    {
      if key !in accounts {
        accounts := accounts[key := ALONE];
      }
      var n := accounts[key];
      var peers := if out then n.outs else n.ins;
      if peer in peers {
        assert peers + {peer} == peers;
        return;
      }
      accounts := accounts[key := if out then n.(outs := peers + {peer}) else n.(ins := peers + {peer})];
      if pendingDelta.None? {
        pendingDelta := Some([]);
      }
      pendingDelta := Some(pendingDelta.value + [EdgeRecord(EncodeAccount(key), EncodeAccount(peer), out)]);
    }

    /** ProcessMessage over a batch. */
    method ProcessBatch(xs: seq<ShardedTx>)
      modifies this
      ensures accounts == AddAll(old(accounts), xs)
      ensures Pending() == old(Pending()) + NewEdges(old(accounts), xs)
      ensures pendingDelta.Some? <==> old(pendingDelta.Some?) || NewEdges(old(accounts), xs) != []
    {
      hide Add, Has, EncodeAccount;
      for i := 0 to |xs|
        invariant AddAll(accounts, xs[i..]) == AddAll(old(accounts), xs)
        invariant Pending() + NewEdges(accounts, xs[i..]) == old(Pending()) + NewEdges(old(accounts), xs)
        invariant pendingDelta.Some? || NewEdges(accounts, xs[i..]) != [] <==> old(pendingDelta.Some?) || NewEdges(old(accounts), xs) != []
      {
        assert xs[i..][1..] == xs[i + 1..];
        AddEdge(KeyOf(xs[i]), PeerOf(xs[i]), xs[i].bySource);
      }
    }

    method MarshalClientState() returns (file: map<string, SavedAccount>)
      ensures SavedAs(GraphFormat(), accounts, file)
    {
      file := Save(GraphFormat(), accounts);
    }

    method UnmarshalClientState(file: map<string, SavedAccount>) returns (ok: bool)
      modifies this`accounts
      ensures ReadAs(GraphFormat(), file, accounts)
      ensures ok <==> forall s :: s in file ==> Readable(GraphFormat(), file, s)
    {
      accounts, ok := Read(GraphFormat(), file);
    }

    method TakeDelta() returns (delta: Option<seq<EdgeRecord>>)
      modifies this
      ensures delta == old(pendingDelta) && pendingDelta == None && accounts == old(accounts)
    {
      delta := pendingDelta;
      pendingDelta := None;
    }

    method ApplyDelta(delta: seq<EdgeRecord>) returns (failure: Option<KeyError>)
      modifies this`accounts
      ensures (accounts, failure) == Replay(old(accounts), delta)
    {
      for i := 0 to |delta|
        invariant Replay(accounts, delta[i..]) == Replay(old(accounts), delta)
      {
        assert delta[i..][1..] == delta[i + 1..];
        var key := DecodeAccount(delta[i].key);
        if key.Err? {
          return Some(key.error);
        }
        var peer := DecodeAccount(delta[i].peer);
        if peer.Err? {
          return Some(peer.error);
        }
        var n := if key.value in accounts then accounts[key.value] else ALONE;
        accounts := accounts[key.value :=
          if delta[i].out then n.(outs := n.outs + {peer.value}) else n.(ins := n.ins + {peer.value})];
      }
      failure := None;
    }
  }

  // ---- what the graph means ---------------------------------------------------

  /** The graph holds exactly the transfers received, whatever their order and multiplicity. */
  lemma {:induction false} GraphMeans(g: Graph, xs: seq<ShardedTx>, key: Account, peer: Account, out: bool)
    ensures Has(AddAll(g, xs), key, peer, out) <==>
      Has(g, key, peer, out) || (if out then ShardedTx(key, peer, true) else ShardedTx(peer, key, false)) in xs
    decreases xs
  {
    if xs != [] {
      var x := xs[0];
      GraphMeans(Add(g, KeyOf(x), PeerOf(x), x.bySource), xs[1..], key, peer, out);
      assert xs == [x] + xs[1..];
    }
  }

  /** A graph comes back from its checkpoint as it was, whatever the names and the order. */
  lemma GraphReturns(g: Graph, r: Graph)
    requires CanReturn(GraphFormat(), g, r)
    ensures r == g
  {
    hide CanReturn, EncodeAccount, DecodeAccount, EncodeSet, DecodeSet;
    var f := GraphFormat();
    forall k | k in g ensures f.key(f.text(k)) == Some(k) && f.value(f.save(g[k])) == Some(g[k]) {
      AccountRoundTrip(k);
      SetRoundTrip(g[k].outs);
      SetRoundTrip(g[k].ins);
    }
    ReturnsWhole(f, g, r);
  }

  // ---- the delta log ----------------------------------------------------------

  function GraphStrategy(): Strategy<Graph, seq<ShardedTx>, seq<EdgeRecord>> {
    Strategy(map[],
             (g, xs) => AddAll(g, xs),
             (g, xs) => if NewEdges(g, xs) == [] then None else Some(NewEdges(g, xs)),
             (g, rs) => Replay(g, rs).0)
  }

  lemma AddKnown(g: Graph, key: Account, peer: Account, out: bool)
    requires Has(g, key, peer, out)
    ensures Add(g, key, peer, out) == g
  {
    assert Towards(g[key], out) + {peer} == Towards(g[key], out);
  }

  lemma {:induction false} DeltaCarriesBatch(g: Graph, xs: seq<ShardedTx>)
    ensures Replay(g, NewEdges(g, xs)) == (AddAll(g, xs), None)
    decreases xs
  {
    if xs != [] {
      var key, peer, out := KeyOf(xs[0]), PeerOf(xs[0]), xs[0].bySource;
      DeltaCarriesBatch(Add(g, key, peer, out), xs[1..]);
      if Has(g, key, peer, out) {
        AddKnown(g, key, peer, out);
      } else {
        AccountRoundTrip(key);
        AccountRoundTrip(peer);
        assert NewEdges(g, xs)[1..] == NewEdges(Add(g, key, peer, out), xs[1..]);
      }
    }
  }

  /** Every readable record is in the graph. */
  ghost predicate Contains(g: Graph, rs: seq<EdgeRecord>) {
    rs == [] ||
    match (DecodeAccount(rs[0].key), DecodeAccount(rs[0].peer))
    case (Ok(key), Ok(peer)) => Has(g, key, peer, rs[0].out) && Contains(g, rs[1..])
    case (_, _) => true
  }

  ghost predicate Includes(g: Graph, more: Graph) {
    forall k, p, out :: Has(g, k, p, out) ==> Has(more, k, p, out)
  }

  lemma {:induction false} ContainedIsIdle(g: Graph, rs: seq<EdgeRecord>)
    requires Contains(g, rs)
    ensures Replay(g, rs).0 == g
  {
    if rs != [] && DecodeAccount(rs[0].key).Ok? && DecodeAccount(rs[0].peer).Ok? {
      AddKnown(g, DecodeAccount(rs[0].key).value, DecodeAccount(rs[0].peer).value, rs[0].out);
      ContainedIsIdle(g, rs[1..]);
    }
  }

  lemma {:induction false} ReplayGrows(g: Graph, rs: seq<EdgeRecord>)
    ensures Includes(g, Replay(g, rs).0)
    decreases rs
  {
    if rs != [] && DecodeAccount(rs[0].key).Ok? && DecodeAccount(rs[0].peer).Ok? {
      ReplayGrows(Add(g, DecodeAccount(rs[0].key).value, DecodeAccount(rs[0].peer).value, rs[0].out), rs[1..]);
    }
  }

  lemma {:induction false} ReplayContains(g: Graph, rs: seq<EdgeRecord>)
    ensures Contains(Replay(g, rs).0, rs)
    decreases rs
  {
    if rs != [] && DecodeAccount(rs[0].key).Ok? && DecodeAccount(rs[0].peer).Ok? {
      var more := Add(g, DecodeAccount(rs[0].key).value, DecodeAccount(rs[0].peer).value, rs[0].out);
      ReplayContains(more, rs[1..]);
      ReplayGrows(more, rs[1..]);
    }
  }

  lemma {:induction false} ContainsMore(g: Graph, more: Graph, rs: seq<EdgeRecord>)
    requires Contains(g, rs) && Includes(g, more)
    ensures Contains(more, rs)
  {
    if rs != [] && DecodeAccount(rs[0].key).Ok? && DecodeAccount(rs[0].peer).Ok? {
      ContainsMore(g, more, rs[1..]);
    }
  }

  ghost predicate AnyGraph(g: Graph) {
    true
  }

  /** The delta taken after a batch gives the state after the batch. */
  lemma GraphDeltaAgrees()
    ensures DeltaAgrees(GraphStrategy(), AnyGraph)
  {
    var st := GraphStrategy();
    forall g: Graph, xs: seq<ShardedTx>
      ensures ApplyDelta(st, g, st.delta(g, xs)) == st.process(g, xs)
    {
      DeltaCarriesBatch(g, xs);
    }
  }

  /** Replaying over a state that already contains the delta, or a later one, changes nothing. */
  lemma GraphAbsorbs()
    ensures Absorbing(GraphStrategy(), AnyGraph)
  {
    var st := GraphStrategy();
    forall g: Graph, xs: seq<ShardedTx>
      ensures ApplyDelta(st, st.process(g, xs), st.delta(g, xs)) == st.process(g, xs)
    {
      DeltaCarriesBatch(g, xs);
      ReplayContains(g, NewEdges(g, xs));
      ContainedIsIdle(AddAll(g, xs), NewEdges(g, xs));
    }
    forall g: Graph, xs: seq<ShardedTx>, d: Option<seq<EdgeRecord>> | ApplyDelta(st, g, d) == g
      ensures ApplyDelta(st, st.process(g, xs), d) == st.process(g, xs)
    {
      if d.Some? {
        ReplayContains(g, d.value);
        DeltaCarriesBatch(g, xs);
        ReplayGrows(g, NewEdges(g, xs));
        ContainsMore(g, AddAll(g, xs), d.value);
        ContainedIsIdle(AddAll(g, xs), d.value);
      }
    }
  }
}
