/**
 How a worker publishes what its strategy made of one batch (emitDataOutputs in
 src/worker/runtime/runtime.go) and the ids the next stage tells duplicates by (IDSpaceOf
 and WithBranch in src/common/messageprotocol/inner/inner.go).
 */
module Emission {
  import opened Common
  import opened Bytes
  import opened InnerCodec
  import opened Sharding
  import opened AccountKeys

  datatype TargetKind = ShardedQueues | BatchQueues | FinalQueue | Exchange

  datatype Target = Target(kind: TargetKind, shardCount: nat)

  /** What a strategy asks for: one item, for each of the outputs named. An item kind of zero means a transaction. */
  datatype Output = Output(indices: seq<int>, body: seq<Byte>, clientID: string, routingKey: string, itemKind: U8, queryID: U8)

  datatype Node = Node(stageType: U8, replicaID: U16, outputs: seq<Target>, hash: string -> U32)

  datatype GroupKey = GroupKey(output: nat, dest: string, itemKind: U8)

  /** One item for one output. */
  datatype Request = Request(key: GroupKey, item: Item)

  datatype Published = Published(key: GroupKey, header: Header, items: seq<Item>)

  datatype EmitError = InvalidOutputIndex

  const TRANSACTION: U8 := 1
  const RESULT_ROW: U8 := 16

  // ---- ids --------------------------------------------------------------------

  function IDSpaceOf(h: Header): seq<Byte> {
    [h.minterStageType, h.minterReplicaID / 256, h.minterReplicaID % 256,
     h.senderStageType, h.senderReplicaID / 256, h.senderReplicaID % 256] + h.branchPath
  }

  function WithBranch(path: seq<U8>, output: nat): seq<U8> {
    path + [output % 256]
  }

  /** An id space tells minter, sender and branch apart, and nothing else. */
  lemma IDSpacesDifferIff(g: Header, h: Header)
    ensures IDSpaceOf(g) == IDSpaceOf(h) <==>
      && g.minterStageType == h.minterStageType && g.minterReplicaID == h.minterReplicaID
      && g.senderStageType == h.senderStageType && g.senderReplicaID == h.senderReplicaID
      && g.branchPath == h.branchPath
  {
    var a, b := IDSpaceOf(g), IDSpaceOf(h);
    assert a[6..] == g.branchPath && b[6..] == h.branchPath;
    assert a == b ==> a[0] == b[0] && a[1] == b[1] && a[2] == b[2] && a[3] == b[3] && a[4] == b[4] && a[5] == b[5];
    SameBytes(g.minterReplicaID, h.minterReplicaID);
    SameBytes(g.senderReplicaID, h.senderReplicaID);
  }

  lemma SameBytes(x: U16, y: U16)
    ensures x / 256 == y / 256 && x % 256 == y % 256 ==> x == y
  {
    assert x == 256 * (x / 256) + x % 256 && y == 256 * (y / 256) + y % 256;
  }

  /** Sibling branches are told apart by eight bits of the output index. */
  lemma BranchesDifferIff(p: seq<U8>, q: seq<U8>, i: nat, j: nat)
    ensures WithBranch(p, i) == WithBranch(q, j) <==> p == q && i % 256 == j % 256
  {
    var a, b := WithBranch(p, i), WithBranch(q, j);
    assert a[..|p|] == p && b[..|q|] == q;
    assert a == b ==> |p| == |q| && a[|p|] == b[|q|];
  }

  // ---- destinations -----------------------------------------------------------

  function DataShard(node: Node, t: Target, om: Output, seqID: U64): nat {
    match t.kind
    case ShardedQueues => Shard(node.hash, om.clientID, t.shardCount)
    case BatchQueues => Shard(node.hash, om.clientID + "|" + Decimal(seqID), t.shardCount)
    case _ => 0
  }

  /** destinationFor: a shard's queue, or the routing key of an exchange. */
  function DestinationFor(t: Target, shard: nat, routingKey: string): string {
    if t.kind.ShardedQueues? || t.kind.BatchQueues? then Decimal(shard) else routingKey
  }

  function ItemKindFor(t: Target, om: Output): U8 {
    if t.kind.FinalQueue? then RESULT_ROW else if om.itemKind == 0 then TRANSACTION else om.itemKind
  }

  function RequestFor(node: Node, src: Header, om: Output, i: nat): Request
    requires i < |node.outputs|
  {
    var t := node.outputs[i];
    Request(GroupKey(i, DestinationFor(t, DataShard(node, t, om, src.seqID), om.routingKey), ItemKindFor(t, om)),
            Item(om.queryID, om.body))
  }

  predicate IndicesValid(node: Node, om: Output) {
    forall k :: 0 <= k < |om.indices| ==> 0 <= om.indices[k] < |node.outputs|
  }

  function RequestsOf(node: Node, src: Header, om: Output): seq<Request>
    requires IndicesValid(node, om)
  {
    seq(|om.indices|, k requires 0 <= k < |om.indices| => RequestFor(node, src, om, om.indices[k]))
  }

  predicate AllValid(node: Node, outputs: seq<Output>) {
    forall i :: 0 <= i < |outputs| ==> IndicesValid(node, outputs[i])
  }

  function AllRequests(node: Node, src: Header, outputs: seq<Output>): seq<Request>
    requires AllValid(node, outputs)
  {
    if outputs == [] then []
    else AllRequests(node, src, outputs[..|outputs| - 1]) + RequestsOf(node, src, outputs[|outputs| - 1])
  }

  // ---- grouping ---------------------------------------------------------------

  /** The keys asked for, in order of first appearance. */
  function KeysOf(rs: seq<Request>): seq<GroupKey> {
    if rs == [] then []
    else
      var ks, k := KeysOf(rs[..|rs| - 1]), rs[|rs| - 1].key;
      if k in ks then ks else ks + [k]
  }

  function ItemsFor(rs: seq<Request>, k: GroupKey): seq<Item> {
    if rs == [] then []
    else
      var items, last := ItemsFor(rs[..|rs| - 1], k), rs[|rs| - 1];
      if last.key == k then items + [last.item] else items
  }

  function OutHeader(node: Node, src: Header, output: nat): Header {
    src.(senderStageType := node.stageType, senderReplicaID := node.replicaID,
         branchPath := if |node.outputs| > 1 then WithBranch(src.branchPath, output) else src.branchPath)
  }

  function PublishGroup(node: Node, src: Header, rs: seq<Request>, k: GroupKey): Published {
    Published(k, OutHeader(node, src, k.output), ItemsFor(rs, k))
  }

  function PublishGroups(node: Node, src: Header, rs: seq<Request>, ks: seq<GroupKey>): seq<Published> {
    seq(|ks|, i requires 0 <= i < |ks| => PublishGroup(node, src, rs, ks[i]))
  }

  function Emitted(node: Node, src: Header, outputs: seq<Output>): seq<Published>
    requires AllValid(node, outputs)
  {
    var rs := AllRequests(node, src, outputs);
    PublishGroups(node, src, rs, KeysOf(rs))
  }

  method EmitDataOutputs(node: Node, src: Header, outputs: seq<Output>) returns (r: Result<seq<Published>, EmitError>)
    ensures r == if AllValid(node, outputs) then Ok(Emitted(node, src, outputs)) else Err(InvalidOutputIndex)
  {
    hide RequestsOf, Grouped, IndicesValid;
    var groups: map<GroupKey, seq<Item>> := map[];
    var order: seq<GroupKey> := [];
    NothingGrouped();
    for i := 0 to |outputs|
      invariant AllValid(node, outputs[..i])
      invariant Grouped(groups, order, AllRequests(node, src, outputs[..i]))
    {
      ghost var rs := AllRequests(node, src, outputs[..i]);
      assert outputs[..i + 1][..i] == outputs[..i];
      var ok;
      ok, groups, order := GroupOutput(node, src, outputs[i], groups, order, rs);
      if !ok {
        return Err(InvalidOutputIndex);
      }
    }
    assert outputs[..|outputs|] == outputs;
    var published := PublishAll(node, src, groups, order, AllRequests(node, src, outputs));
    r := Ok(published);
  }

  /** Files one item under each of its outputs. */
  method GroupOutput(node: Node, src: Header, om: Output, groups0: map<GroupKey, seq<Item>>, order0: seq<GroupKey>, ghost rs0: seq<Request>)
    returns (ok: bool, groups: map<GroupKey, seq<Item>>, order: seq<GroupKey>)
    requires Grouped(groups0, order0, rs0)
    ensures ok <==> IndicesValid(node, om)
    ensures ok ==> Grouped(groups, order, rs0 + RequestsOf(node, src, om))
  {
    hide RequestFor, Grouped;
    groups, order := groups0, order0;
    ghost var rs := rs0;
    for k := 0 to |om.indices|
      invariant forall j :: 0 <= j < k ==> 0 <= om.indices[j] < |node.outputs|
      invariant rs == rs0 + seq(k, j requires 0 <= j < k => RequestFor(node, src, om, om.indices[j]))
      invariant Grouped(groups, order, rs)
    {
      var idx := om.indices[k];
      if idx < 0 || idx >= |node.outputs| {
        return false, groups, order;
      }
      var request := RequestFor(node, src, om, idx);
      OneMoreRequest(groups, order, rs, request);
      if request.key !in groups {
        groups := groups[request.key := []];
        order := order + [request.key];
      }
      groups := groups[request.key := groups[request.key] + [request.item]];
      rs := rs + [request];
    }
    assert rs == rs0 + RequestsOf(node, src, om);
    ok := true;
  }

  method PublishAll(node: Node, src: Header, groups: map<GroupKey, seq<Item>>, order: seq<GroupKey>, ghost rs: seq<Request>)
    returns (published: seq<Published>)
    requires Grouped(groups, order, rs)
    ensures published == PublishGroups(node, src, rs, KeysOf(rs))
  {
    hide KeysOf, ItemsFor, OutHeader;
    published := [];
    for g := 0 to |order|
      invariant published == PublishGroups(node, src, rs, order[..g])
    {
      var k := order[g];
      assert k in order;
      published := published + [Published(k, OutHeader(node, src, k.output), groups[k])];
    }
    assert order[..|order|] == order;
  }

  lemma NothingGrouped()
    ensures Grouped(map[], [], [])
  {
  }

  ghost predicate Grouped(groups: map<GroupKey, seq<Item>>, order: seq<GroupKey>, rs: seq<Request>) {
    && order == KeysOf(rs)
    && (forall k :: k in groups <==> k in order)
    && (forall k :: k in groups ==> groups[k] == ItemsFor(rs, k))
  }

  lemma OneMoreRequest(groups: map<GroupKey, seq<Item>>, order: seq<GroupKey>, rs: seq<Request>, r: Request)
    requires Grouped(groups, order, rs)
    ensures
      var groups1 := if r.key in groups then groups else groups[r.key := []];
      var order1 := if r.key in groups then order else order + [r.key];
      Grouped(groups1[r.key := groups1[r.key] + [r.item]], order1, rs + [r])
  {
    assert (rs + [r])[..|rs|] == rs;
    NoItemsYet(rs, r.key);
    forall k ensures ItemsFor(rs + [r], k) == if r.key == k then ItemsFor(rs, k) + [r.item] else ItemsFor(rs, k) {
    }
  }

  lemma {:induction false} NoItemsYet(rs: seq<Request>, k: GroupKey)
    ensures k !in KeysOf(rs) ==> ItemsFor(rs, k) == []
    ensures forall i :: 0 <= i < |rs| ==> rs[i].key in KeysOf(rs)
    ensures Distinct(KeysOf(rs))
  {
    if rs != [] {
      NoItemsYet(rs[..|rs| - 1], k);
    }
  }

  // ---- every item once --------------------------------------------------------

  function TotalItems(ps: seq<Published>): nat {
    if ps == [] then 0 else TotalItems(ps[..|ps| - 1]) + |ps[|ps| - 1].items|
  }

  lemma {:induction false} TotalOverKeys(node: Node, src: Header, rs: seq<Request>, r: Request, ks: seq<GroupKey>)
    requires Distinct(ks)
    ensures TotalItems(PublishGroups(node, src, rs + [r], ks)) ==
      TotalItems(PublishGroups(node, src, rs, ks)) + if r.key in ks then 1 else 0
  {
    hide PublishGroups, ItemsFor;
    NothingPublished(node, src, rs);
    NothingPublished(node, src, rs + [r]);
    if ks != [] {
      var front, k := ks[..|ks| - 1], ks[|ks| - 1];
      TotalOverKeys(node, src, rs, r, front);
      OneGroupMore(node, src, rs, ks);
      OneGroupMore(node, src, rs + [r], ks);
      OneItemMore(rs, r, k);
      assert ks == front + [k];
    }
  }

  lemma NothingPublished(node: Node, src: Header, rs: seq<Request>)
    ensures TotalItems(PublishGroups(node, src, rs, [])) == 0
  {
  }

  lemma OneGroupMore(node: Node, src: Header, rs: seq<Request>, ks: seq<GroupKey>)
    requires ks != []
    ensures TotalItems(PublishGroups(node, src, rs, ks)) ==
      TotalItems(PublishGroups(node, src, rs, ks[..|ks| - 1])) + |ItemsFor(rs, ks[|ks| - 1])|
  {
    assert PublishGroups(node, src, rs, ks)[..|ks| - 1] == PublishGroups(node, src, rs, ks[..|ks| - 1]);
  }

  lemma OneItemMore(rs: seq<Request>, r: Request, k: GroupKey)
    ensures |ItemsFor(rs + [r], k)| == |ItemsFor(rs, k)| + if r.key == k then 1 else 0
  {
    assert (rs + [r])[..|rs|] == rs;
  }

  lemma {:induction false} TotalIsRequested(node: Node, src: Header, rs: seq<Request>)
    ensures TotalItems(PublishGroups(node, src, rs, KeysOf(rs))) == |rs|
  {
    hide PublishGroups, ItemsFor, TotalItems;
    NothingPublished(node, src, rs);
    if rs != [] {
      var front, r := rs[..|rs| - 1], rs[|rs| - 1];
      assert rs == front + [r];
      TotalIsRequested(node, src, front);
      NoItemsYet(front, r.key);
      TotalOverKeys(node, src, front, r, KeysOf(front));
      if r.key !in KeysOf(front) {
        OneGroupMore(node, src, rs, KeysOf(rs));
        OneItemMore(front, r, r.key);
        assert KeysOf(rs)[..|KeysOf(rs)| - 1] == KeysOf(front);
      }
    }
  }

  /** Some message goes to that output and destination with that kind. */
  ghost predicate Carried(ps: seq<Published>, k: GroupKey) {
    exists g :: 0 <= g < |ps| && ps[g].key == k
  }

  lemma EachRequestOnce(node: Node, src: Header, rs: seq<Request>)
    ensures var ps := PublishGroups(node, src, rs, KeysOf(rs));
      && TotalItems(ps) == |rs|
      && (forall i :: 0 <= i < |rs| ==> Carried(ps, rs[i].key))
      && (forall g :: 0 <= g < |ps| ==> ps[g].items == ItemsFor(rs, ps[g].key))
      && (forall g, h :: 0 <= g < h < |ps| ==> ps[g].key != ps[h].key)
  {
    hide TotalItems, ItemsFor, KeysOf, OutHeader;
    var ps := PublishGroups(node, src, rs, KeysOf(rs));
    TotalIsRequested(node, src, rs);
    NoItemsYet(rs, GroupKey(0, "", 0));
    forall i | 0 <= i < |rs| ensures Carried(ps, rs[i].key) {
      var g :| 0 <= g < |KeysOf(rs)| && KeysOf(rs)[g] == rs[i].key;
      assert ps[g].key == rs[i].key;
    }
  }

  /**
   Every requested item is published once per requested output, in a message of its own
   output, destination and kind, in the order asked for; no message is empty and no two
   share all three.
   */
  lemma EachItemOncePerOutput(node: Node, src: Header, outputs: seq<Output>)
    requires AllValid(node, outputs)
    ensures var rs, ps := AllRequests(node, src, outputs), Emitted(node, src, outputs);
      && TotalItems(ps) == |rs|
      && (forall i :: 0 <= i < |rs| ==> Carried(ps, rs[i].key))
      && (forall g :: 0 <= g < |ps| ==> ps[g].items == ItemsFor(rs, ps[g].key))
      && (forall g, h :: 0 <= g < h < |ps| ==> ps[g].key != ps[h].key)
  {
    hide TotalItems, AllRequests, ItemsFor, KeysOf, PublishGroups;
    var rs := AllRequests(node, src, outputs);
    EachRequestOnce(node, src, rs);
    assert Emitted(node, src, outputs) == PublishGroups(node, src, rs, KeysOf(rs));
  }

  // ---- what is in a message ---------------------------------------------------

  /**
   Every message speaks for the batch it was made from, in the node's own name, on the
   branch of its output.
   */
  lemma EveryHeader(node: Node, src: Header, outputs: seq<Output>, p: Published)
    requires AllValid(node, outputs) && p in Emitted(node, src, outputs)
    ensures var h := p.header;
      && h.gatewayID == src.gatewayID && h.clientID == src.clientID && h.seqID == src.seqID
      && h.minterStageType == src.minterStageType && h.minterReplicaID == src.minterReplicaID
      && h.senderStageType == node.stageType && h.senderReplicaID == node.replicaID
      && h.branchPath == src.branchPath + (if |node.outputs| > 1 then [p.key.output % 256] else [])
  {
    hide AllRequests, KeysOf, ItemsFor;
  }

  /**
   The strategy's message at, item by output, belongs in a group: that of the output it
   names, of the queue of its client there, or of its client and the batch, or of its
   routing key, and of its kind, where zero stands for a transaction and the gateway's
   queue takes result rows only.
   */
  ghost predicate Wants(node: Node, src: Header, outputs: seq<Output>, at: (nat, nat), k: GroupKey) {
    && at.0 < |outputs| && at.1 < |outputs[at.0].indices|
    && outputs[at.0].indices[at.1] == k.output < |node.outputs|
    && var om, t := outputs[at.0], node.outputs[k.output];
    && k.dest == (match t.kind
                  case ShardedQueues => Decimal(Shard(node.hash, om.clientID, t.shardCount))
                  case BatchQueues => Decimal(Shard(node.hash, om.clientID + "|" + Decimal(src.seqID), t.shardCount))
                  case FinalQueue => om.routingKey
                  case Exchange => om.routingKey)
    && k.itemKind == (if t.kind.FinalQueue? then 16 else if om.itemKind == 0 then 1 else om.itemKind)
  }

  ghost predicate Before(x: (nat, nat), y: (nat, nat)) {
    x.0 < y.0 || (x.0 == y.0 && x.1 < y.1)
  }

  /** A message holds all that belongs in its group and nothing else, once each, in the order asked for. */
  ghost predicate Holds(node: Node, src: Header, outputs: seq<Output>, p: Published, from: seq<(nat, nat)>) {
    && |from| == |p.items|
    && (forall j :: 0 <= j < |from| ==>
          Wants(node, src, outputs, from[j], p.key)
          && p.items[j] == Item(outputs[from[j].0].queryID, outputs[from[j].0].body))
    && (forall i, j :: 0 <= i < j < |from| ==> Before(from[i], from[j]))
    && (forall at :: Wants(node, src, outputs, at, p.key) ==> at in from)
  }

  /** Where each request comes from. */
  ghost function Origins(outputs: seq<Output>): seq<(nat, nat)> {
    if outputs == [] then []
    else
      var n := |outputs| - 1;
      Origins(outputs[..n]) + seq(|outputs[n].indices|, k requires 0 <= k < |outputs[n].indices| => (n, k))
  }

  /** The request number i is the one asked for at its origin. */
  ghost predicate AskedAt(node: Node, src: Header, outputs: seq<Output>, rs: seq<Request>, i: nat, at: (nat, nat))
    requires AllValid(node, outputs) && i < |rs|
  {
    && at.0 < |outputs| && at.1 < |outputs[at.0].indices|
    && var om := outputs[at.0];
    IndicesValid(node, om) && rs[i] == RequestFor(node, src, om, om.indices[at.1])
  }

  lemma {:induction false} OriginOfEach(node: Node, src: Header, outputs: seq<Output>)
    requires AllValid(node, outputs)
    ensures var rs, os := AllRequests(node, src, outputs), Origins(outputs);
      && |os| == |rs|
      && (forall i :: 0 <= i < |os| ==> AskedAt(node, src, outputs, rs, i, os[i]))
      && (forall i, j :: 0 <= i < j < |os| ==> Before(os[i], os[j]))
      && (forall a: nat, b: nat :: a < |outputs| && b < |outputs[a].indices| ==> (a, b) in os)
  {
    hide RequestFor, IndicesValid;
    if outputs != [] {
      var n := |outputs| - 1;
      var front, om := outputs[..n], outputs[n];
      assert AllValid(node, front);
      OriginOfEach(node, src, front);
      var rs, os := AllRequests(node, src, outputs), Origins(outputs);
      var rs0, os0 := AllRequests(node, src, front), Origins(front);
      forall i | 0 <= i < |os| ensures AskedAt(node, src, outputs, rs, i, os[i]) {
        if i < |os0| {
          assert AskedAt(node, src, front, rs0, i, os0[i]);
        } else {
          assert os[i] == (n, i - |os0|) && rs[i] == RequestsOf(node, src, om)[i - |rs0|];
        }
      }
      forall i, j | 0 <= i < j < |os| ensures Before(os[i], os[j]) {
        if j >= |os0| {
          assert os[j] == (n, j - |os0|);
          if i < |os0| {
            assert AskedAt(node, src, front, rs0, i, os0[i]);
          }
        }
      }
      forall a: nat, b: nat | a < |outputs| && b < |outputs[a].indices| ensures (a, b) in os {
        if a == n {
          assert os[|os0| + b] == (a, b);
        } else {
          assert front[a] == outputs[a] && (a, b) in os0;
        }
      }
    }
  }

  /** The places of a key's requests. */
  ghost function PlacesOf(rs: seq<Request>, k: GroupKey): seq<nat> {
    if rs == [] then []
    else
      var n := |rs| - 1;
      PlacesOf(rs[..n], k) + if rs[n].key == k then [n] else []
  }

  lemma {:induction false} PlacesMean(rs: seq<Request>, k: GroupKey)
    ensures var places := PlacesOf(rs, k);
      && |places| == |ItemsFor(rs, k)|
      && (forall j :: 0 <= j < |places| ==>
            places[j] < |rs| && rs[places[j]].key == k && ItemsFor(rs, k)[j] == rs[places[j]].item)
      && (forall i, j :: 0 <= i < j < |places| ==> places[i] < places[j])
      && (forall i: nat :: i < |rs| && rs[i].key == k ==> i in places)
  {
    if rs != [] {
      var n := |rs| - 1;
      PlacesMean(rs[..n], k);
      var places := PlacesOf(rs, k);
      forall i: nat | i < |rs| && rs[i].key == k ensures i in places {
        if i == n {
          assert places[|places| - 1] == n;
        } else {
          assert rs[..n][i] == rs[i] && i in PlacesOf(rs[..n], k);
        }
      }
    }
  }

  /** The group a request is filed under is the one it belongs in. */
  lemma FiledAsWanted(node: Node, src: Header, outputs: seq<Output>, rs: seq<Request>, i: nat, at: (nat, nat), k: GroupKey)
    requires AllValid(node, outputs) && i < |rs| && AskedAt(node, src, outputs, rs, i, at)
    ensures rs[i].key == k <==> Wants(node, src, outputs, at, k)
    ensures rs[i].item == Item(outputs[at.0].queryID, outputs[at.0].body)
  {
    hide Decimal, Shard;
  }

  /** Every message holds what belongs in its group. */
  lemma EveryMessage(node: Node, src: Header, outputs: seq<Output>, p: Published)
    returns (from: seq<(nat, nat)>)
    requires AllValid(node, outputs) && p in Emitted(node, src, outputs)
    ensures Holds(node, src, outputs, p, from)
  {
    hide Wants, Before, KeysOf, OutHeader, ItemsFor, PlacesOf, AskedAt, AllRequests, Origins, IndicesValid;
    var rs, os := AllRequests(node, src, outputs), Origins(outputs);
    OriginOfEach(node, src, outputs);
    PlacesMean(rs, p.key);
    var places := PlacesOf(rs, p.key);
    from := seq(|places|, j requires 0 <= j < |places| => os[places[j]]);
    forall j | 0 <= j < |from|
      ensures Wants(node, src, outputs, from[j], p.key)
      ensures from[j].0 < |outputs| && p.items[j] == Item(outputs[from[j].0].queryID, outputs[from[j].0].body)
    {
      AskedInRange(node, src, outputs, rs, places[j], os[places[j]]);
      FiledAsWanted(node, src, outputs, rs, places[j], os[places[j]], p.key);
    }
    forall at | Wants(node, src, outputs, at, p.key) ensures at in from {
      WantedInRange(node, src, outputs, at, p.key);
      var i :| 0 <= i < |os| && os[i] == at;
      FiledAsWanted(node, src, outputs, rs, i, at, p.key);
      var j :| 0 <= j < |places| && places[j] == i;
      assert from[j] == at;
    }
  }

  lemma AskedInRange(node: Node, src: Header, outputs: seq<Output>, rs: seq<Request>, i: nat, at: (nat, nat))
    requires AllValid(node, outputs) && i < |rs| && AskedAt(node, src, outputs, rs, i, at)
    ensures at.0 < |outputs|
  {
  }

  lemma WantedInRange(node: Node, src: Header, outputs: seq<Output>, at: (nat, nat), k: GroupKey)
    requires Wants(node, src, outputs, at, k)
    ensures at == (at.0, at.1) && at.0 < |outputs| && at.1 < |outputs[at.0].indices|
  {
  }

  /** Whatever is asked for is in some message. */
  lemma EveryOutputLeaves(node: Node, src: Header, outputs: seq<Output>, at: (nat, nat))
    returns (p: Published)
    requires AllValid(node, outputs) && at.0 < |outputs| && at.1 < |outputs[at.0].indices|
    ensures p in Emitted(node, src, outputs) && Wants(node, src, outputs, at, p.key)
  {
    hide Wants, KeysOf, ItemsFor, OutHeader, AskedAt, AllRequests, Origins, IndicesValid;
    var rs, os := AllRequests(node, src, outputs), Origins(outputs);
    OriginOfEach(node, src, outputs);
    assert (at.0, at.1) in os;
    var i :| 0 <= i < |os| && os[i] == at;
    FiledAsWanted(node, src, outputs, rs, i, at, rs[i].key);
    NoItemsYet(rs, rs[i].key);
    var g :| 0 <= g < |KeysOf(rs)| && KeysOf(rs)[g] == rs[i].key;
    p := Emitted(node, src, outputs)[g];
  }

  // ---- no false duplicates ----------------------------------------------------

  /** What the next stage compares. */
  ghost predicate SameId(g: Header, h: Header) {
    IDSpaceOf(g) == IDSpaceOf(h) && g.seqID == h.seqID
  }

  /** What a batch is told apart by where it comes from. */
  ghost predicate SameOrigin(g: Header, h: Header) {
    && g.minterStageType == h.minterStageType && g.minterReplicaID == h.minterReplicaID
    && g.branchPath == h.branchPath && g.seqID == h.seqID
  }

  ghost predicate KeysWithin(node: Node, ps: seq<Published>) {
    forall i :: 0 <= i < |ps| ==> ps[i].key.output < |node.outputs|
  }

  /** Two published messages have the same id exactly when their batches have the same origin and they share the branch. */
  lemma SameIdIff(node: Node, g: Header, h: Header, i: nat, j: nat)
    requires i < |node.outputs| <= 256 && j < |node.outputs|
    ensures SameId(OutHeader(node, g, i), OutHeader(node, h, j)) <==> SameOrigin(g, h) && i == j
  {
    IDSpacesDifferIff(OutHeader(node, g, i), OutHeader(node, h, j));
    BranchesDifferIff(g.branchPath, h.branchPath, i, j);
  }

  /** A batch and what the strategy made of it. */
  datatype Work = Work(src: Header, outputs: seq<Output>)

  /** No output sends one destination items of two kinds. */
  ghost predicate OneKindPerDestination(node: Node, w: Work)
    requires AllValid(node, w.outputs)
  {
    var rs := AllRequests(node, w.src, w.outputs);
    forall i, j :: 0 <= i < |rs| && 0 <= j < |rs| && rs[i].key.output == rs[j].key.output && rs[i].key.dest == rs[j].key.dest ==>
      rs[i].key.itemKind == rs[j].key.itemKind
  }

  /** Different messages for the same queue have different ids; the queue is that of output and destination. */
  ghost predicate NoFalseDuplicates<Q>(queueOf: (nat, string) -> Q, ps: seq<Published>) {
    forall g, h :: 0 <= g < h < |ps| && queueOf(ps[g].key.output, ps[g].key.dest) == queueOf(ps[h].key.output, ps[h].key.dest) ==>
      !SameId(ps[g].header, ps[h].header)
  }

  /** Within an output, different destinations are different queues; different outputs may share a queue. */
  ghost predicate QueuesApart<Q>(queueOf: (nat, string) -> Q) {
    forall i, d, e :: queueOf(i, d) == queueOf(i, e) ==> d == e
  }

  lemma {:induction false} RequestsWithin(node: Node, src: Header, outputs: seq<Output>)
    requires AllValid(node, outputs)
    ensures forall i :: 0 <= i < |AllRequests(node, src, outputs)| ==> AllRequests(node, src, outputs)[i].key.output < |node.outputs|
  {
    if outputs != [] {
      RequestsWithin(node, src, outputs[..|outputs| - 1]);
    }
  }

  ghost predicate Asked(rs: seq<Request>, k: GroupKey) {
    exists i :: 0 <= i < |rs| && rs[i].key == k
  }

  lemma {:induction false} KeysAreRequested(rs: seq<Request>)
    ensures forall k :: k in KeysOf(rs) ==> Asked(rs, k)
  {
    if rs != [] {
      var front := rs[..|rs| - 1];
      KeysAreRequested(front);
      forall k | k in KeysOf(rs) ensures Asked(rs, k) {
        if k in KeysOf(front) {
          var i :| 0 <= i < |front| && front[i].key == k;
          assert rs[i].key == k;
        } else {
          assert rs[|rs| - 1].key == k;
        }
      }
    }
  }

  lemma EmittedWithin(node: Node, w: Work)
    requires AllValid(node, w.outputs)
    ensures KeysWithin(node, Emitted(node, w.src, w.outputs))
  {
    var rs := AllRequests(node, w.src, w.outputs);
    RequestsWithin(node, w.src, w.outputs);
    KeysAreRequested(rs);
    forall g | 0 <= g < |KeysOf(rs)| ensures KeysOf(rs)[g].output < |node.outputs| {
      assert KeysOf(rs)[g] in KeysOf(rs);
      var i :| 0 <= i < |rs| && rs[i].key == KeysOf(rs)[g];
    }
  }

  lemma IdsWithinBatch(node: Node, w: Work)
    requires AllValid(node, w.outputs) && |node.outputs| <= 256
    ensures var ps := Emitted(node, w.src, w.outputs);
      forall g, h :: 0 <= g < |ps| && 0 <= h < |ps| ==>
        (SameId(ps[g].header, ps[h].header) <==> ps[g].key.output == ps[h].key.output)
  {
    var ps := Emitted(node, w.src, w.outputs);
    EmittedWithin(node, w);
    hide SameId;
    forall g, h | 0 <= g < |ps| && 0 <= h < |ps|
      ensures SameId(ps[g].header, ps[h].header) <==> ps[g].key.output == ps[h].key.output
    {
      SameIdIff(node, w.src, w.src, ps[g].key.output, ps[h].key.output);
    }
  }

  lemma OneKindMeansApart<Q>(node: Node, w: Work, queueOf: (nat, string) -> Q)
    requires AllValid(node, w.outputs) && |node.outputs| <= 256 && QueuesApart(queueOf) && OneKindPerDestination(node, w)
    ensures NoFalseDuplicates(queueOf, Emitted(node, w.src, w.outputs))
  {
    var rs, ps := AllRequests(node, w.src, w.outputs), Emitted(node, w.src, w.outputs);
    IdsWithinBatch(node, w);
    EachItemOncePerOutput(node, w.src, w.outputs);
    KeysAreRequested(rs);
    hide SameId, AllRequests, KeysOf, ItemsFor, TotalItems;
    forall g, h | 0 <= g < h < |ps| && queueOf(ps[g].key.output, ps[g].key.dest) == queueOf(ps[h].key.output, ps[h].key.dest)
      ensures !SameId(ps[g].header, ps[h].header)
    {
      assert ps[g].key == KeysOf(rs)[g] && ps[g].key in KeysOf(rs);
      assert ps[h].key == KeysOf(rs)[h] && ps[h].key in KeysOf(rs);
      var i :| 0 <= i < |rs| && rs[i].key == ps[g].key;
      var j :| 0 <= j < |rs| && rs[j].key == ps[h].key;
      assert ps[g].key == rs[i].key && ps[h].key == rs[j].key && ps[g].key != ps[h].key;
    }
  }

  lemma SameIdMeansSame<Q>(queueOf: (nat, string) -> Q, ps: seq<Published>, g: nat, h: nat)
    requires NoFalseDuplicates(queueOf, ps) && g < |ps| && h < |ps|
    requires ps[g].key.output == ps[h].key.output && ps[g].key.dest == ps[h].key.dest
    requires SameId(ps[g].header, ps[h].header) && SameId(ps[h].header, ps[g].header)
    ensures g == h
  {
    hide SameId;
  }

  lemma ApartMeansOneKind<Q>(node: Node, w: Work, queueOf: (nat, string) -> Q)
    requires AllValid(node, w.outputs) && |node.outputs| <= 256
    requires NoFalseDuplicates(queueOf, Emitted(node, w.src, w.outputs))
    ensures OneKindPerDestination(node, w)
  {
    var rs, ps := AllRequests(node, w.src, w.outputs), Emitted(node, w.src, w.outputs);
    IdsWithinBatch(node, w);
    EachItemOncePerOutput(node, w.src, w.outputs);
    hide SameId, AllRequests, Emitted, ItemsFor, TotalItems, NoFalseDuplicates;
    forall i, j | 0 <= i < |rs| && 0 <= j < |rs| && rs[i].key.output == rs[j].key.output && rs[i].key.dest == rs[j].key.dest
      ensures rs[i].key.itemKind == rs[j].key.itemKind
    {
      var g :| 0 <= g < |ps| && ps[g].key == rs[i].key;
      var h :| 0 <= h < |ps| && ps[h].key == rs[j].key;
      SameIdMeansSame(queueOf, ps, g, h);
    }
  }

  /** The messages of one batch are told apart by the next stage exactly when no destination gets two kinds. */
  lemma OneBatchApartIff<Q>(node: Node, w: Work, queueOf: (nat, string) -> Q)
    requires AllValid(node, w.outputs) && |node.outputs| <= 256 && QueuesApart(queueOf)
    ensures NoFalseDuplicates(queueOf, Emitted(node, w.src, w.outputs)) <==> OneKindPerDestination(node, w)
  {
    if OneKindPerDestination(node, w) {
      OneKindMeansApart(node, w, queueOf);
    }
    if NoFalseDuplicates(queueOf, Emitted(node, w.src, w.outputs)) {
      ApartMeansOneKind(node, w, queueOf);
    }
    hide NoFalseDuplicates, OneKindPerDestination;
  }

  /**
   A batch that sends one routing key two kinds of items: two messages leave, and the queue
   that gets both sees one id.
   */
  lemma TwoKindsOneId(node: Node, src: Header, client: string, dest: string, query: U8, a: seq<Byte>, b: seq<Byte>)
    requires |node.outputs| == 1 && node.outputs[0].kind.Exchange?
    ensures var outputs := [Output([0], a, client, dest, 2, query), Output([0], b, client, dest, 3, query)];
      && AllValid(node, outputs)
      && var ps := Emitted(node, src, outputs);
      && |ps| == 2 && ps[0].key.output == ps[1].key.output && ps[0].key.dest == ps[1].key.dest == dest
      && ps[0].items == [Item(query, a)] && ps[1].items == [Item(query, b)]
      && SameId(ps[0].header, ps[1].header)
  {
    hide DataShard, RequestsOf, AllRequests, KeysOf, ItemsFor;
    var first, second := Output([0], a, client, dest, 2, query), Output([0], b, client, dest, 3, query);
    var r1, r2 := RequestFor(node, src, first, 0), RequestFor(node, src, second, 0);
    TwoOutputs(node, src, first, second);
    TwoKeys(r1, r2);
  }

  lemma TwoOutputs(node: Node, src: Header, first: Output, second: Output)
    requires |node.outputs| == 1 && first.indices == [0] && second.indices == [0]
    ensures AllValid(node, [first, second])
    ensures AllRequests(node, src, [first, second]) == [RequestFor(node, src, first, 0), RequestFor(node, src, second, 0)]
  {
    hide RequestFor;
    assert [first, second][..1] == [first] && [first][..0] == [];
    assert RequestsOf(node, src, first) == [RequestFor(node, src, first, 0)];
    assert RequestsOf(node, src, second) == [RequestFor(node, src, second, 0)];
    assert AllRequests(node, src, [first]) == [] + RequestsOf(node, src, first);
  }

  lemma TwoKeys(r1: Request, r2: Request)
    requires r1.key != r2.key
    ensures KeysOf([r1, r2]) == [r1.key, r2.key]
    ensures ItemsFor([r1, r2], r1.key) == [r1.item] && ItemsFor([r1, r2], r2.key) == [r2.item]
  {
    assert [r1, r2][..1] == [r1] && [r1][..0] == [];
    assert KeysOf([r1]) == [r1.key] && ItemsFor([r1], r1.key) == [r1.item] && ItemsFor([r1], r2.key) == [];
  }

  function EmittedByAll(node: Node, ws: seq<Work>): seq<Published>
    requires forall i :: 0 <= i < |ws| ==> AllValid(node, ws[i].outputs)
  {
    if ws == [] then []
    else EmittedByAll(node, ws[..|ws| - 1]) + Emitted(node, ws[|ws| - 1].src, ws[|ws| - 1].outputs)
  }

  /** Every message of a run comes from one of its batches. */
  lemma {:induction false} EmittedFrom(node: Node, ws: seq<Work>, g: nat) returns (i: nat)
    requires forall i :: 0 <= i < |ws| ==> AllValid(node, ws[i].outputs)
    requires g < |EmittedByAll(node, ws)|
    ensures i < |ws| && EmittedByAll(node, ws)[g].key.output < |node.outputs|
    ensures var p := EmittedByAll(node, ws)[g]; p.header == OutHeader(node, ws[i].src, p.key.output)
  {
    var front, last := ws[..|ws| - 1], ws[|ws| - 1];
    if g < |EmittedByAll(node, front)| {
      i := EmittedFrom(node, front, g);
    } else {
      EmittedWithin(node, last);
      i := |ws| - 1;
    }
  }

  /** ... and is one of the messages of that batch. */
  lemma {:induction false} EmittedAt(node: Node, ws: seq<Work>, g: nat) returns (i: nat, k: nat)
    requires forall i :: 0 <= i < |ws| ==> AllValid(node, ws[i].outputs)
    requires g < |EmittedByAll(node, ws)|
    ensures i < |ws| && k < |Emitted(node, ws[i].src, ws[i].outputs)|
    ensures EmittedByAll(node, ws)[g] == Emitted(node, ws[i].src, ws[i].outputs)[k]
  {
    hide Emitted;
    var front, last := ws[..|ws| - 1], ws[|ws| - 1];
    if g < |EmittedByAll(node, front)| {
      i, k := EmittedAt(node, front, g);
    } else {
      i, k := |ws| - 1, g - |EmittedByAll(node, front)|;
    }
  }

  /** Two messages of two batches for one queue: with the same id, the batches have the same origin and the messages the same place. */
  lemma SameIdSamePlace<Q>(node: Node, v: Work, w: Work, queueOf: (nat, string) -> Q, g: nat, h: nat)
    requires AllValid(node, v.outputs) && AllValid(node, w.outputs) && |node.outputs| <= 256 && QueuesApart(queueOf)
    requires g < |Emitted(node, v.src, v.outputs)| && h < |Emitted(node, w.src, w.outputs)|
    requires SameId(Emitted(node, v.src, v.outputs)[g].header, Emitted(node, w.src, w.outputs)[h].header)
    requires var p, q := Emitted(node, v.src, v.outputs)[g], Emitted(node, w.src, w.outputs)[h];
      queueOf(p.key.output, p.key.dest) == queueOf(q.key.output, q.key.dest)
    ensures var p, q := Emitted(node, v.src, v.outputs)[g], Emitted(node, w.src, w.outputs)[h];
      SameOrigin(v.src, w.src) && p.key.output == q.key.output && p.key.dest == q.key.dest
  {
    EmittedWithin(node, v);
    EmittedWithin(node, w);
    var p, q := Emitted(node, v.src, v.outputs)[g], Emitted(node, w.src, w.outputs)[h];
    hide SameId, SameOrigin, Emitted, OutHeader;
    SameIdIff(node, v.src, w.src, p.key.output, q.key.output);
  }

  /**
   Batches are processed again after a crash, any number of times and in any order: what is
   published to one queue under one id is always the same message.
   */
  lemma SameIdSameMessage<Q>(node: Node, ws: seq<Work>, queueOf: (nat, string) -> Q, g: nat, h: nat)
    requires |node.outputs| <= 256 && QueuesApart(queueOf)
    requires forall i :: 0 <= i < |ws| ==> AllValid(node, ws[i].outputs) && OneKindPerDestination(node, ws[i])
    requires forall i, j :: 0 <= i < |ws| && 0 <= j < |ws| && SameOrigin(ws[i].src, ws[j].src) ==> ws[i] == ws[j]
    requires g < |EmittedByAll(node, ws)| && h < |EmittedByAll(node, ws)|
    requires SameId(EmittedByAll(node, ws)[g].header, EmittedByAll(node, ws)[h].header)
    requires var p, q := EmittedByAll(node, ws)[g], EmittedByAll(node, ws)[h];
      queueOf(p.key.output, p.key.dest) == queueOf(q.key.output, q.key.dest)
    ensures EmittedByAll(node, ws)[g] == EmittedByAll(node, ws)[h]
  {
    hide SameId, SameOrigin, Emitted, EmittedByAll, OneKindPerDestination, QueuesApart, NoFalseDuplicates;
    var i, k := EmittedAt(node, ws, g);
    var j, l := EmittedAt(node, ws, h);
    SameIdSamePlace(node, ws[i], ws[j], queueOf, k, l);
    OneBatchApartIff(node, ws[i], queueOf);
    var ps := Emitted(node, ws[i].src, ws[i].outputs);
    SameIdIsMutual(ps[k].header, ps[l].header);
    SameIdMeansSame(queueOf, ps, k, l);
  }

  lemma SameIdIsMutual(g: Header, h: Header)
    requires SameId(g, h)
    ensures SameId(h, g)
  {
  }

  /**
   Over a whole run: if the batches a replica processes have pairwise different origins and
   no batch sends one destination two kinds of items, no two of the messages it publishes
   to one queue have the same id.
   */
  lemma {:induction false} NoFalseDuplicatesEver<Q>(node: Node, ws: seq<Work>, queueOf: (nat, string) -> Q)
    requires |node.outputs| <= 256 && QueuesApart(queueOf)
    requires forall i :: 0 <= i < |ws| ==> AllValid(node, ws[i].outputs) && OneKindPerDestination(node, ws[i])
    requires forall i, j :: 0 <= i < j < |ws| ==> !SameOrigin(ws[i].src, ws[j].src)
    ensures NoFalseDuplicates(queueOf, EmittedByAll(node, ws))
  {
    if ws != [] {
      var front, last := ws[..|ws| - 1], ws[|ws| - 1];
      var before, mine := EmittedByAll(node, front), Emitted(node, last.src, last.outputs);
      NoFalseDuplicatesEver(node, front, queueOf);
      OneBatchApartIff(node, last, queueOf);
      EmittedWithin(node, last);
      hide SameOrigin, SameId;
      forall g, h | 0 <= g < |before| && 0 <= h < |mine| ensures !SameId(before[g].header, mine[h].header) {
        var i := EmittedFrom(node, front, g);
        SameIdIff(node, front[i].src, last.src, before[g].key.output, mine[h].key.output);
      }
      TogetherApart(queueOf, before, mine);
    }
  }

  lemma TogetherApart<Q>(queueOf: (nat, string) -> Q, a: seq<Published>, b: seq<Published>)
    requires NoFalseDuplicates(queueOf, a) && NoFalseDuplicates(queueOf, b)
    requires forall g, h :: 0 <= g < |a| && 0 <= h < |b| ==> !SameId(a[g].header, b[h].header)
    ensures NoFalseDuplicates(queueOf, a + b)
  {
    hide SameId;
    var all := a + b;
    forall g, h | 0 <= g < h < |all| && queueOf(all[g].key.output, all[g].key.dest) == queueOf(all[h].key.output, all[h].key.dest)
      ensures !SameId(all[g].header, all[h].header)
    {
      if g >= |a| {
        assert all[g] == b[g - |a|] && all[h] == b[h - |a|];
      } else if h >= |a| {
        assert all[g] == a[g] && all[h] == b[h - |a|];
      } else {
        assert all[g] == a[g] && all[h] == a[h];
      }
    }
  }
}
