/**
 Two stages of the pipeline in a row, both of which crash: the first may process a batch any
 number of times and publish its messages again each time, in part or in full, and the
 second still counts each message once.
 */
module TwoStages {
  import opened Common
  import opened ClientRuntime
  import opened DeltaStrategies
  import opened ExactlyOnce
  import opened LoggedStages
  import Emission
  import FanInBarrier
  import InnerCodec

  // ---- what the first stage has processed -----------------------------------------

  /** The worker processes the delivery: it is new to it. */
  predicate Takes<S, C, D>(s: System<S, C, D>, d: Delivery) {
    d in s.inbox && d !in s.vol.pending && d.Data? && d.key !in s.vol.core.seen
  }

  /** The batches processed along a run, be it before a crash that undoes it. */
  function Processed<S, B, D, C>(su: Setup<S, B, D, C>, steps: seq<Step<C>>): set<Key> {
    if steps == [] then {}
    else
      var front, last := steps[..|steps| - 1], steps[|steps| - 1];
      Processed(su, front) + if last.Deliver? && Takes(Run(su, front), last.d) then {last.d.key} else {}
  }

  lemma PendingAfter<S, B, D, C>(su: Setup<S, B, D, C>, s: System<S, C, D>, step: Step<C>)
    ensures forall k :: k in DataKeys(Next(su, s, step).vol.pending) ==>
      k in DataKeys(s.vol.pending) || (step.Deliver? && Takes(s, step.d) && k == step.d.key)
  {
    hide Process, RecordOf, Recovered, CheckpointOps, WriteAll, WrittenBy, DataKeys;
    NoKeys();
    match step
    case Deliver(d) => DataKeysAppend(s.vol.pending, d);
    case Coordinate(d, c) => DataKeysAppend(s.vol.pending, d);
    case Crash(compact, n, k, m) =>
      if n <= |CheckpointOps(su, s.vol, compact)| {
        NothingPendingAfterRestart(su, WrittenBy(s.disk, CheckpointOps(su, s.vol, compact), n, k));
      }
    case CrashIdle => NothingPendingAfterRestart(su, s.disk);
    case _ =>
  }

  lemma NoKeys()
    ensures DataKeys([]) == []
  {
  }

  /** Whatever is counted, durable or not, was processed. */
  lemma {:induction false} CountedWasProcessed<S(!new), B(!new), D, C(!new)>(su: Setup<S, B, D, C>, inv: S -> bool, steps: seq<Step<C>>)
    returns (ks: seq<Key>)
    requires Lawful(su, inv)
    ensures Explains(su, Run(su, steps), ks)
    ensures forall k :: k in ks + DataKeys(Run(su, steps).vol.pending) ==> k in Processed(su, steps)
  {
    if steps == [] {
      ks := EveryRunIsExplained(su, inv, steps);
      NothingCountedYet(su, ks);
    } else {
      hide Next, Explains, Lawful, Takes, DataKeys;
      var front, last := steps[..|steps| - 1], steps[|steps| - 1];
      ks := CountedWasProcessed(su, inv, front);
      PendingAfter(su, Run(su, front), last);
      ks := NextKeeps(su, inv, Run(su, front), ks, last);
    }
  }

  lemma NothingCountedYet<S, B, D, C>(su: Setup<S, B, D, C>, ks: seq<Key>)
    requires Explains(su, Run(su, []), ks)
    ensures forall k :: k !in ks + DataKeys(Run(su, []).vol.pending)
  {
    assert forall k :: !Waiting(Initial(su).published, k);
  }

  /** Once everything is acked, every published batch was processed in full at least once. */
  lemma SettledMeansProcessed<S(!new), B(!new), D, C(!new)>(su: Setup<S, B, D, C>, inv: S -> bool, steps: seq<Step<C>>, k: Key)
    requires Lawful(su, inv) && Settled(Run(su, steps)) && Waiting(Run(su, steps).published, k)
    ensures k in Processed(su, steps)
  {
    hide Run, Lawful, Processed, Accounts;
    var s := Run(su, steps);
    var ks := CountedWasProcessed(su, inv, steps);
    var d :| d in s.published && d.Data? && d.key == k;
  }

  // ---- what a lost output sequence does ---------------------------------------------

  /**
   In log mode the output sequence is part of what a crash takes back: a run after which the
   worker numbers its next EOFs and tokens as it numbered those it had sent, so that a
   receiver that has seen the last of them drops as many as there were.
   */
  lemma NextTokensAreDropped<S, B, D>(su: Setup<S, B, D, nat>, key: Key, n: nat)
    returns (steps: seq<Step<nat>>, eof: Delivery)
    requires su.walEnabled && key.seqID != 0 && su.freshCoord == 0 && n > 0
    ensures var s := Run(su, steps);
      && Coordinate(eof, n) in steps && eof in s.published && eof !in s.inbox
      && forall next :: s.vol.coord < next <= s.vol.coord + n ==> !FanInBarrier.PassesDedup(next, n)
  {
    hide Run;
    steps, eof := AckedEofForgotten(su, key, n);
  }

  // ---- the messages between them --------------------------------------------------

  /** The id the second stage tells duplicates by. */
  function IdOf(h: InnerCodec.Header): Key {
    var space := Emission.IDSpaceOf(h);
    Key(seq(|space|, i requires 0 <= i < |space| => space[i] as char), h.seqID)
  }

  lemma IdOfIff(g: InnerCodec.Header, h: InnerCodec.Header)
    ensures IdOf(g) == IdOf(h) <==> Emission.SameId(g, h)
  {
    var a, b := Emission.IDSpaceOf(g), Emission.IDSpaceOf(h);
    if IdOf(g) == IdOf(h) {
      assert |IdOf(g).space| == |a| && |IdOf(h).space| == |b|;
      forall i | 0 <= i < |a| ensures a[i] == b[i] {
        assert IdOf(g).space[i] == a[i] as char && IdOf(h).space[i] == b[i] as char;
      }
      assert a == b;
    }
  }

  /** The ids of the messages that a batch of the first stage sends to queue q. */
  ghost function IdsTo<Q>(node: Emission.Node, w: Emission.Work, queueOf: (nat, string) -> Q, q: Q): set<Key>
    requires Emission.AllValid(node, w.outputs)
  {
    set p | p in Emission.Emitted(node, w.src, w.outputs) && queueOf(p.key.output, p.key.dest) == q :: IdOf(p.header)
  }

  /** What each batch of the first stage makes it publish: valid outputs, different origins, one kind per destination. */
  ghost predicate Publishes<Q>(node: Emission.Node, work: Key -> Emission.Work, queueOf: (nat, string) -> Q) {
    && |node.outputs| <= 256 && Emission.QueuesApart(queueOf)
    && (forall k :: Emission.AllValid(node, work(k).outputs) && Emission.OneKindPerDestination(node, work(k)))
    && (forall k, l :: Emission.SameOrigin(work(k).src, work(l).src) ==> work(k) == work(l))
  }

  /** At one queue an id stands for one list of items, whichever batches are processed and however often. */
  lemma IdMeansItems<Q>(node: Emission.Node, work: Key -> Emission.Work, queueOf: (nat, string) -> Q,
                        k: Key, l: Key, p: Emission.Published, r: Emission.Published)
    requires Publishes(node, work, queueOf)
    requires p in Emission.Emitted(node, work(k).src, work(k).outputs) && r in Emission.Emitted(node, work(l).src, work(l).outputs)
    requires queueOf(p.key.output, p.key.dest) == queueOf(r.key.output, r.key.dest) && IdOf(p.header) == IdOf(r.header)
    ensures p.items == r.items
  {
    hide Emission.SameId, Emission.Emitted, Emission.OneKindPerDestination, Emission.QueuesApart, Emission.SameOrigin, IdOf;
    IdOfIff(p.header, r.header);
    var a, b := Emission.Emitted(node, work(k).src, work(k).outputs), Emission.Emitted(node, work(l).src, work(l).outputs);
    var ws := [work(k), work(l)];
    assert ws[..1] == [work(k)] && [work(k)][..0] == [];
    assert Emission.EmittedByAll(node, [work(k)]) == [] + a;
    assert Emission.EmittedByAll(node, ws) == a + b;
    var g :| 0 <= g < |a| && a[g] == p;
    var h :| 0 <= h < |b| && b[h] == r;
    assert (a + b)[g] == p && (a + b)[|a| + h] == r;
    Emission.SameIdSameMessage(node, ws, queueOf, g, |a| + h);
  }

  /** What has arrived for queue q: all messages of every batch processed, and none of a batch that was not published. */
  ghost predicate Arrived<Q>(node: Emission.Node, work: Key -> Emission.Work, queueOf: (nat, string) -> Q, q: Q,
                             processed: set<Key>, published: set<Delivery>, arrived: set<Delivery>)
    requires Publishes(node, work, queueOf)
  {
    && (forall k, x :: k in processed && x in IdsTo(node, work(k), queueOf, q) ==> Waiting(arrived, x))
    && (forall x :: Waiting(arrived, x) ==> exists k :: Waiting(published, k) && x in IdsTo(node, work(k), queueOf, q))
  }

  /**
   Both stages settled after any crashes of either: the second stage's disk holds the fold over
   exactly the messages of all batches ever published to the first, each message once.
   */
  lemma EachMessageCountsOnce<S(!new), B(!new), D, C(!new), S2(!new), B2(!new), D2, C2(!new), Q>(
      su: Setup<S, B, D, C>, inv: S -> bool, steps: seq<Step<C>>,
      su2: Setup<S2, B2, D2, C2>, inv2: S2 -> bool, steps2: seq<Step<C2>>,
      node: Emission.Node, work: Key -> Emission.Work, queueOf: (nat, string) -> Q, q: Q)
    returns (ids: seq<Key>)
    requires Lawful(su, inv) && Settled(Run(su, steps)) && Lawful(su2, inv2) && Settled(Run(su2, steps2))
    requires Publishes(node, work, queueOf)
    requires Arrived(node, work, queueOf, q, Processed(su, steps), Run(su, steps).published, Run(su2, steps2).published)
    ensures Distinct(ids)
    ensures forall x :: x in ids <==>
      exists k :: Waiting(Run(su, steps).published, k) && x in IdsTo(node, work(k), queueOf, q)
    ensures RecoveredCore(su2, Run(su2, steps2).disk).data == ProcessAll(su2.strategy, su2.strategy.init, BatchesOf(su2, ids))
    ensures RecoveredCore(su2, Run(su2, steps2).disk).items == ItemSum(su2, ids)
  {
    hide Run, Lawful, Settled, Waiting, IdsTo, RecoveredCore, BatchesOf, Processed;
    ids := AllPublishedOnce(su2, inv2, steps2);
    forall x, k | Waiting(Run(su, steps).published, k) && x in IdsTo(node, work(k), queueOf, q) ensures x in ids {
      SettledMeansProcessed(su, inv, steps, k);
    }
  }
}
