/**
 Third stage of query 4 (src/worker/strategy/pathfinder/pathfinder.go): each middle
 account joins those who send to it with those it sends to. One pass counts the paths
 per shard, in map order; another produces them, sorted.
 */
module PathFinders {
  import opened Common
  import opened AccountKeys
  import opened AccountGraphs
  import opened Sharding
  import opened SortedKeys

  datatype Path = Path(source: Account, mid: Account, dest: Account)

  function PairKey(a: Account, b: Account): string {
    EncodeAccount(a) + "|" + EncodeAccount(b)
  }

  function Triple(hash: string -> U32, shards: nat, a: Account, m: Account, b: Account): Routed<Path> {
    Routed(Shard(hash, PairKey(a, b), shards), Path(a, m, b))
  }

  /** Paths a, m, b for the destinations in bs; nobody pays back to himself. */
  function PathsFrom(hash: string -> U32, shards: nat, a: Account, m: Account, bs: seq<Account>): seq<Routed<Path>> {
    if bs == [] then []
    else
      var rest, b := PathsFrom(hash, shards, a, m, bs[..|bs| - 1]), bs[|bs| - 1];
      if a == b then rest else rest + [Triple(hash, shards, a, m, b)]
  }

  function PathsVia(hash: string -> U32, shards: nat, sources: seq<Account>, m: Account, bs: seq<Account>): seq<Routed<Path>> {
    if sources == [] then []
    else
      PathsVia(hash, shards, sources[..|sources| - 1], m, bs) + PathsFrom(hash, shards, sources[|sources| - 1], m, bs)
  }

  ghost function PathsOver(hash: string -> U32, shards: nat, g: Graph, mids: seq<Account>): seq<Routed<Path>> {
    AccountsAreOrdered();
    if mids == [] then []
    else
      var m := mids[|mids| - 1];
      PathsOver(hash, shards, g, mids[..|mids| - 1])
      + PathsVia(hash, shards, Sorted(At(g, m).ins, Less), m, Sorted(At(g, m).outs, Less))
  }

  /** crossProductIterator, as a function of the graph alone. */
  ghost function CrossProduct(hash: string -> U32, shards: nat, g: Graph): seq<Routed<Path>> {
    AccountsAreOrdered();
    PathsOver(hash, shards, g, Sorted(g.Keys, Less))
  }

  ghost predicate IsPath(g: Graph, p: Path) {
    Has(g, p.mid, p.source, false) && Has(g, p.mid, p.dest, true) && p.source != p.dest
  }

  // ---- every path once --------------------------------------------------------

  lemma {:induction false} PathsFromMean(hash: string -> U32, shards: nat, a: Account, m: Account, bs: seq<Account>, out: Routed<Path>)
    ensures out in PathsFrom(hash, shards, a, m, bs) <==>
      out.body.source == a && out.body.mid == m && out.body.dest in bs && a != out.body.dest && out == Triple(hash, shards, a, m, out.body.dest)
  {
    if bs != [] {
      assert bs == bs[..|bs| - 1] + [bs[|bs| - 1]];
      PathsFromMean(hash, shards, a, m, bs[..|bs| - 1], out);
    }
  }

  lemma {:induction false} PathsViaMean(hash: string -> U32, shards: nat, sources: seq<Account>, m: Account, bs: seq<Account>, out: Routed<Path>)
    ensures out in PathsVia(hash, shards, sources, m, bs) <==>
      out.body.source in sources && out.body.mid == m && out.body.dest in bs && out.body.source != out.body.dest
      && out == Triple(hash, shards, out.body.source, m, out.body.dest)
  {
    if sources != [] {
      assert sources == sources[..|sources| - 1] + [sources[|sources| - 1]];
      PathsViaMean(hash, shards, sources[..|sources| - 1], m, bs, out);
      PathsFromMean(hash, shards, sources[|sources| - 1], m, bs, out);
    }
  }

  lemma {:induction false} PathsOverMean(hash: string -> U32, shards: nat, g: Graph, mids: seq<Account>, out: Routed<Path>)
    requires forall m :: m in mids ==> m in g
    ensures out in PathsOver(hash, shards, g, mids) <==>
      out.body.mid in mids && IsPath(g, out.body) && out == Triple(hash, shards, out.body.source, out.body.mid, out.body.dest)
  {
    AccountsAreOrdered();
    if mids != [] {
      var front, m := mids[..|mids| - 1], mids[|mids| - 1];
      assert mids == front + [m];
      PathsOverMean(hash, shards, g, front, out);
      var sources, dests := Sorted(At(g, m).ins, Less), Sorted(At(g, m).outs, Less);
      PathsViaMean(hash, shards, sources, m, dests, out);
      assert out.body.source in sources <==> out.body.source in SetOf(sources);
      assert out.body.dest in dests <==> out.body.dest in SetOf(dests);
    }
  }

  /** Exactly the two-step paths between different accounts leave the stage. */
  lemma CrossProductMeans(hash: string -> U32, shards: nat, g: Graph, out: Routed<Path>)
    ensures out in CrossProduct(hash, shards, g) <==>
      IsPath(g, out.body) && out == Triple(hash, shards, out.body.source, out.body.mid, out.body.dest)
  {
    AccountsAreOrdered();
    var mids := Sorted(g.Keys, Less);
    assert forall m :: m in mids <==> m in SetOf(mids);
    PathsOverMean(hash, shards, g, mids, out);
  }

  lemma AscendingIsDistinct(xs: seq<Account>)
    requires Ascending(xs, Less)
    ensures Distinct(xs)
  {
    AccountsAreOrdered();
  }

  lemma {:induction false} PathsFromDistinct(hash: string -> U32, shards: nat, a: Account, m: Account, bs: seq<Account>)
    requires Distinct(bs)
    ensures Distinct(PathsFrom(hash, shards, a, m, bs))
  {
    if bs != [] {
      var front, b := bs[..|bs| - 1], bs[|bs| - 1];
      PathsFromDistinct(hash, shards, a, m, front);
      PathsFromMean(hash, shards, a, m, front, Triple(hash, shards, a, m, b));
    }
  }

  lemma {:induction false} PathsViaDistinct(hash: string -> U32, shards: nat, sources: seq<Account>, m: Account, bs: seq<Account>)
    requires Distinct(sources) && Distinct(bs)
    ensures Distinct(PathsVia(hash, shards, sources, m, bs))
  {
    if sources != [] {
      var front, a := sources[..|sources| - 1], sources[|sources| - 1];
      PathsViaDistinct(hash, shards, front, m, bs);
      PathsFromDistinct(hash, shards, a, m, bs);
      forall out | out in PathsFrom(hash, shards, a, m, bs) ensures out !in PathsVia(hash, shards, front, m, bs) {
        PathsFromMean(hash, shards, a, m, bs, out);
        PathsViaMean(hash, shards, front, m, bs, out);
      }
      DistinctConcat(PathsVia(hash, shards, front, m, bs), PathsFrom(hash, shards, a, m, bs));
    }
  }

  lemma {:induction false} PathsOverDistinct(hash: string -> U32, shards: nat, g: Graph, mids: seq<Account>)
    requires Distinct(mids) && forall m :: m in mids ==> m in g
    ensures Distinct(PathsOver(hash, shards, g, mids))
  {
    AccountsAreOrdered();
    if mids != [] {
      var front, m := mids[..|mids| - 1], mids[|mids| - 1];
      var sources, dests := Sorted(At(g, m).ins, Less), Sorted(At(g, m).outs, Less);
      PathsOverDistinct(hash, shards, g, front);
      AscendingIsDistinct(sources);
      AscendingIsDistinct(dests);
      PathsViaDistinct(hash, shards, sources, m, dests);
      forall out | out in PathsVia(hash, shards, sources, m, dests) ensures out !in PathsOver(hash, shards, g, front) {
        PathsViaMean(hash, shards, sources, m, dests, out);
        PathsOverMean(hash, shards, g, front, out);
      }
      DistinctConcat(PathsOver(hash, shards, g, front), PathsVia(hash, shards, sources, m, dests));
    }
  }

  lemma CrossProductDistinct(hash: string -> U32, shards: nat, g: Graph)
    ensures Distinct(CrossProduct(hash, shards, g))
  {
    AccountsAreOrdered();
    var mids := Sorted(g.Keys, Less);
    AscendingIsDistinct(mids);
    assert forall m :: m in mids <==> m in SetOf(mids);
    PathsOverDistinct(hash, shards, g, mids);
  }

  // ---- the stage --------------------------------------------------------------

  class PathFinder {
    const hash: string -> U32
    const kCounters: nat
    const state: AccountGraph

    constructor (hash: string -> U32, kCounters: nat)
      ensures this.hash == hash && this.kCounters == kCounters && fresh(state) && state.accounts == map[]
    {
      this.hash, this.kCounters := hash, kCounters;
      state := new AccountGraph();
    }

    method CrossProductIterator() returns (outputs: seq<Routed<Path>>)
      ensures outputs == CrossProduct(hash, kCounters, state.accounts)
    {
      AccountsAreOrdered();
      var g := state.accounts;
      var mids := SortKeys(g.Keys, Less);
      outputs := [];
      for i := 0 to |mids|
        invariant outputs == PathsOver(hash, kCounters, g, mids[..i])
      {
        var m := mids[i];
        assert m in SetOf(mids);
        assert mids[..i + 1][..i] == mids[..i];
        var sources := SortKeys(g[m].ins, Less);
        var dests := SortKeys(g[m].outs, Less);
        var via := PathsThrough(sources, m, dests);
        outputs := outputs + via;
      }
      assert mids[..|mids|] == mids;
    }

    method PathsThrough(sources: seq<Account>, m: Account, dests: seq<Account>) returns (outputs: seq<Routed<Path>>)
      ensures outputs == PathsVia(hash, kCounters, sources, m, dests)
    {
      outputs := [];
      for j := 0 to |sources|
        invariant outputs == PathsVia(hash, kCounters, sources[..j], m, dests)
      {
        assert sources[..j + 1][..j] == sources[..j];
        ghost var before := outputs;
        for k := 0 to |dests|
          invariant outputs == before + PathsFrom(hash, kCounters, sources[j], m, dests[..k])
        {
          assert dests[..k + 1][..k] == dests[..k];
          if sources[j] == dests[k] {
            continue;
          }
          outputs := outputs + [Triple(hash, kCounters, sources[j], m, dests[k])];
        }
        assert dests[..|dests|] == dests;
      }
      assert sources[..|sources|] == sources;
    }

    /**
     crossProductShardCounts runs over the maps in any order and, shard by shard, counts
     exactly the messages the iterator will send.
     */
    method CrossProductShardCounts() returns (counts: map<nat, U32>)
      ensures Tallied(counts, CrossProduct(hash, kCounters, state.accounts))
    {
      var g := state.accounts;
      counts := map[];
      ghost var seen: seq<Routed<Path>> := [];
      var todo := g.Keys;
      while todo != {}
        invariant todo <= g.Keys && Tallied(counts, seen) && Distinct(seen)
        invariant forall out :: out in seen <==> out.body.mid !in todo && Found(out, g)
      {
        var m :| m in todo;
        counts, seen := CountVia(g, m, counts, seen, todo);
        todo := todo - {m};
      }
      SeenEverything(g, seen);
      TallySame(counts, seen, CrossProduct(hash, kCounters, g));
    }

    /** The message is one the iterator sends for the graph. */
    ghost predicate Found(out: Routed<Path>, g: Graph) {
      IsPath(g, out.body) && out == Triple(hash, kCounters, out.body.source, out.body.mid, out.body.dest)
    }

    lemma SeenEverything(g: Graph, seen: seq<Routed<Path>>)
      requires Distinct(seen) && forall out :: out in seen <==> Found(out, g)
      ensures SetOf(seen) == SetOf(CrossProduct(hash, kCounters, g)) && Distinct(CrossProduct(hash, kCounters, g))
    {
      CrossProductDistinct(hash, kCounters, g);
      forall out ensures out in SetOf(seen) <==> out in SetOf(CrossProduct(hash, kCounters, g)) {
        CrossProductMeans(hash, kCounters, g, out);
      }
    }

    method CountVia(g: Graph, m: Account, counts0: map<nat, U32>, ghost seen0: seq<Routed<Path>>, ghost todo: set<Account>)
      returns (counts: map<nat, U32>, ghost seen: seq<Routed<Path>>)
      requires m in g && m in todo && Tallied(counts0, seen0) && Distinct(seen0)
      requires forall out :: out in seen0 <==> out.body.mid !in todo && Found(out, g)
      ensures Tallied(counts, seen) && Distinct(seen)
      ensures forall out :: out in seen <==> out.body.mid !in todo - {m} && Found(out, g)
    {
      counts, seen := counts0, seen0;
      var sources := g[m].ins;
      while sources != {}
        invariant sources <= g[m].ins && Tallied(counts, seen) && Distinct(seen)
        invariant forall out :: out in seen <==>
          Found(out, g) && (out.body.mid !in todo || (out.body.mid == m && out.body.source !in sources))
      {
        var a :| a in sources;
        var dests := g[m].outs;
        while dests != {}
          invariant dests <= g[m].outs && Tallied(counts, seen) && Distinct(seen)
          invariant forall out :: out in seen <==>
            Found(out, g) && (out.body.mid !in todo
              || (out.body.mid == m && (out.body.source !in sources || (out.body.source == a && out.body.dest !in dests))))
        {
          var b :| b in dests;
          dests := dests - {b};
          if a == b {
            continue;
          }
          var out := Triple(hash, kCounters, a, m, b);
          TallyOneMore(counts, seen, out);
          counts := counts[out.shard := Low32(ValueAt(counts, out.shard) + 1)];
          assert out !in seen;
          seen := seen + [out];
        }
        sources := sources - {a};
      }
    }
  }

  lemma TallySame(counts: map<nat, U32>, a: seq<Routed<Path>>, b: seq<Routed<Path>>)
    requires Tallied(counts, a) && Distinct(a) && Distinct(b) && SetOf(a) == SetOf(b)
    ensures Tallied(counts, b)
  {
    forall i: nat ensures ValueAt(counts, i) == Low32(|SentTo(b, i)|) {
      SameTotals(a, b, i);
    }
  }
}
