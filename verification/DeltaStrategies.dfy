/**
 A strategy whose state can be rebuilt from deltas (strategy.DeltaCheckpointer):
 process folds one batch into the state, delta is what TakeDelta hands over after
 that batch, apply is ApplyDelta.
 */
module DeltaStrategies {
  import opened Common

  datatype Strategy<!S, !B, !D> = Strategy(
    init: S,
    process: (S, B) -> S,
    delta: (S, B) -> Option<D>,
    apply: (S, D) -> S)

  /** An absent delta leaves the state alone. */
  function ApplyDelta<S, B, D>(st: Strategy<S, B, D>, s: S, d: Option<D>): S {
    match d
    case None => s
    case Some(delta) => st.apply(s, delta)
  }

  function ProcessAll<S, B, D>(st: Strategy<S, B, D>, s: S, bs: seq<B>): S {
    if bs == [] then s else st.process(ProcessAll(st, s, bs[..|bs| - 1]), bs[|bs| - 1])
  }

  /** The log a run over bs leaves behind, oldest first. */
  function DeltasOf<S, B, D>(st: Strategy<S, B, D>, s: S, bs: seq<B>): seq<Option<D>> {
    if bs == [] then []
    else
      var front := bs[..|bs| - 1];
      DeltasOf(st, s, front) + [st.delta(ProcessAll(st, s, front), bs[|bs| - 1])]
  }

  function ApplyAll<S, B, D>(st: Strategy<S, B, D>, s: S, ds: seq<Option<D>>): S {
    if ds == [] then s else ApplyDelta(st, ApplyAll(st, s, ds[..|ds| - 1]), ds[|ds| - 1])
  }

  /** The delta taken after a batch carries the state over that batch. */
  ghost predicate DeltaAgrees<S(!new), B(!new), D>(st: Strategy<S, B, D>, inv: S -> bool) {
    && inv(st.init)
    && forall s: S, b: B :: inv(s) ==>
      inv(st.process(s, b)) && ApplyDelta(st, s, st.delta(s, b)) == st.process(s, b)
  }

  /** A state that contains a delta keeps containing it, so replaying that delta is idle. */
  ghost predicate Absorbing<S(!new), B(!new), D(!new)>(st: Strategy<S, B, D>, inv: S -> bool) {
    && (forall s: S, b: B :: inv(s) ==>
      ApplyDelta(st, st.process(s, b), st.delta(s, b)) == st.process(s, b))
    && (forall s: S, b: B, d: Option<D> :: inv(s) && ApplyDelta(st, s, d) == s ==>
      ApplyDelta(st, st.process(s, b), d) == st.process(s, b))
  }

  lemma {:induction false} ProcessAllKeeps<S(!new), B(!new), D>(st: Strategy<S, B, D>, inv: S -> bool, s: S, bs: seq<B>)
    requires DeltaAgrees(st, inv) && inv(s)
    ensures inv(ProcessAll(st, s, bs))
  {
    if bs != [] {
      ProcessAllKeeps(st, inv, s, bs[..|bs| - 1]);
    }
  }

  /** Replaying the log over the state it started from gives the state it ended in. */
  lemma {:induction false} LogRebuildsState<S(!new), B(!new), D>(st: Strategy<S, B, D>, inv: S -> bool, s: S, bs: seq<B>)
    requires DeltaAgrees(st, inv) && inv(s)
    ensures ApplyAll(st, s, DeltasOf(st, s, bs)) == ProcessAll(st, s, bs)
  {
    if bs != [] {
      var front := bs[..|bs| - 1];
      LogRebuildsState(st, inv, s, front);
      ProcessAllKeeps(st, inv, s, front);
      assert DeltasOf(st, s, bs)[..|bs| - 1] == DeltasOf(st, s, front) by { DeltasLength(st, s, front); }
      DeltasLength(st, s, bs);
    }
  }

  lemma {:induction false} DeltasLength<S, B, D>(st: Strategy<S, B, D>, s: S, bs: seq<B>)
    ensures |DeltasOf(st, s, bs)| == |bs|
  {
    if bs != [] {
      DeltasLength(st, s, bs[..|bs| - 1]);
    }
  }

  lemma {:induction false} AbsorbsWholeLog<S(!new), B(!new), D(!new)>(st: Strategy<S, B, D>, inv: S -> bool, s: S, bs: seq<B>)
    requires DeltaAgrees(st, inv) && Absorbing(st, inv) && inv(s)
    ensures forall d :: d in DeltasOf(st, s, bs) ==> ApplyDelta(st, ProcessAll(st, s, bs), d) == ProcessAll(st, s, bs)
  {
    if bs != [] {
      var front := bs[..|bs| - 1];
      AbsorbsWholeLog(st, inv, s, front);
      ProcessAllKeeps(st, inv, s, front);
    }
  }

  lemma {:induction false} AbsorbsMore<S(!new), B(!new), D(!new)>(st: Strategy<S, B, D>, inv: S -> bool, s: S, bs: seq<B>, d: Option<D>)
    requires DeltaAgrees(st, inv) && Absorbing(st, inv) && inv(s)
    requires ApplyDelta(st, s, d) == s
    ensures ApplyDelta(st, ProcessAll(st, s, bs), d) == ProcessAll(st, s, bs)
  {
    if bs != [] {
      AbsorbsMore(st, inv, s, bs[..|bs| - 1], d);
      ProcessAllKeeps(st, inv, s, bs[..|bs| - 1]);
    }
  }

  lemma {:induction false} ApplyAllIdle<S, B, D>(st: Strategy<S, B, D>, s: S, ds: seq<Option<D>>)
    requires forall d :: d in ds ==> ApplyDelta(st, s, d) == s
    ensures ApplyAll(st, s, ds) == s
  {
    if ds != [] {
      ApplyAllIdle(st, s, ds[..|ds| - 1]);
    }
  }

  /** Replaying a log over a state that already went through it, and further, changes nothing. */
  lemma ReplayIsIdempotent<S(!new), B(!new), D(!new)>(st: Strategy<S, B, D>, inv: S -> bool, s: S, bs: seq<B>, later: seq<B>)
    requires DeltaAgrees(st, inv) && Absorbing(st, inv) && inv(s)
    ensures var state := ProcessAll(st, ProcessAll(st, s, bs), later);
      ApplyAll(st, state, DeltasOf(st, s, bs)) == state
  {
    var mid := ProcessAll(st, s, bs);
    AbsorbsWholeLog(st, inv, s, bs);
    ProcessAllKeeps(st, inv, s, bs);
    forall d | d in DeltasOf(st, s, bs)
      ensures ApplyDelta(st, ProcessAll(st, mid, later), d) == ProcessAll(st, mid, later)
    {
      AbsorbsMore(st, inv, mid, later, d);
    }
    ApplyAllIdle(st, ProcessAll(st, mid, later), DeltasOf(st, s, bs));
  }
}
