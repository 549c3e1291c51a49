/**
 The books a worker keeps on deliveries it has processed but not yet acked
 (pendingAcks, firstPendingAt, totalPending in src/worker/runtime/runtime.go).
 */
module AckLedger {
  import opened Common
  import opened ClientRuntime

  type ClientID = string

  ghost function Total(m: map<ClientID, seq<Delivery>>): nat {
    SumOf(map c | c in m :: |m[c]|)
  }

  lemma TotalWithout(m: map<ClientID, seq<Delivery>>, c: ClientID)
    requires c in m
    ensures Total(m) == |m[c]| + Total(m - {c})
  {
    var lengths: map<ClientID, nat> := map c | c in m :: |m[c]|;
    SumOfWithout(lengths, c);
    assert lengths - {c} == map x | x in m - {c} :: |(m - {c})[x]|;
  }

  function Pending(m: map<ClientID, seq<Delivery>>, c: ClientID): seq<Delivery> {
    if c in m then m[c] else []
  }

  /** The counter is the sum of the lists and only clients with pending deliveries have a clock. */
  ghost predicate Balanced(m: map<ClientID, seq<Delivery>>, since: map<ClientID, nat>, total: nat) {
    && total == Total(m)
    && since.Keys == m.Keys
    && forall c :: c in m ==> m[c] != []
  }

  /** No delivery is acked twice, or acked while still pending. */
  ghost predicate AckedOnce(m: map<ClientID, seq<Delivery>>, acked: seq<Delivery>) {
    && Distinct(acked)
    && (forall c :: c in m ==> Distinct(m[c]))
    && (forall c, d :: c in m && d in m[c] ==> d !in acked)
    && (forall c, e, d :: c in m && e in m && d in m[c] && d in m[e] ==> c == e)
  }

  /** Every delivery the worker answers for: pending or acked. */
  ghost function Taken(m: map<ClientID, seq<Delivery>>, acked: seq<Delivery>): set<Delivery> {
    (set d | d in acked) + (set c, d | c in m && d in m[c] :: d)
  }

  ghost predicate Fresh(m: map<ClientID, seq<Delivery>>, acked: seq<Delivery>, d: Delivery) {
    d !in acked && forall c :: c in m ==> d !in m[c]
  }

  lemma Enqueued(m: map<ClientID, seq<Delivery>>, since: map<ClientID, nat>, total: nat, acked: seq<Delivery>, c: ClientID, d: Delivery, now: nat)
    requires Balanced(m, since, total) && AckedOnce(m, acked) && Fresh(m, acked, d)
    ensures var m' := m[c := Pending(m, c) + [d]];
      && Balanced(m', if c in since then since else since[c := now], total + 1)
      && AckedOnce(m', acked)
      && Taken(m', acked) == Taken(m, acked) + {d}
  {
    hide Total, AckedOnce, Fresh, Taken;
    TotalEnqueued(m, c, d);
    OnceEnqueued(m, acked, c, d);
    TakenEnqueued(m, acked, c, d);
  }

  lemma TotalEnqueued(m: map<ClientID, seq<Delivery>>, c: ClientID, d: Delivery)
    ensures Total(m[c := Pending(m, c) + [d]]) == Total(m) + 1
  {
    hide Total;
    var m' := m[c := Pending(m, c) + [d]];
    TotalWithout(m', c);
    assert m' - {c} == m - {c};
    if c in m {
      TotalWithout(m, c);
    } else {
      assert m - {c} == m;
    }
  }

  lemma OnceEnqueued(m: map<ClientID, seq<Delivery>>, acked: seq<Delivery>, c: ClientID, d: Delivery)
    requires AckedOnce(m, acked) && Fresh(m, acked, d)
    ensures AckedOnce(m[c := Pending(m, c) + [d]], acked)
  {
  }

  lemma TakenEnqueued(m: map<ClientID, seq<Delivery>>, acked: seq<Delivery>, c: ClientID, d: Delivery)
    ensures Taken(m[c := Pending(m, c) + [d]], acked) == Taken(m, acked) + {d}
  {
    var m' := m[c := Pending(m, c) + [d]];
    forall x ensures x in Taken(m', acked) <==> x in Taken(m, acked) + {d} {
      if x in Taken(m, acked) && x !in acked {
        var e :| e in m && x in m[e];
        assert e in m' && x in m'[e];
      } else if x == d {
        assert c in m' && x in m'[c];
      }
    }
  }

  lemma AllAcked(m: map<ClientID, seq<Delivery>>, since: map<ClientID, nat>, total: nat, acked: seq<Delivery>, c: ClientID)
    requires Balanced(m, since, total) && AckedOnce(m, acked)
    ensures |Pending(m, c)| <= total
    ensures Balanced(m - {c}, since - {c}, total - |Pending(m, c)|)
    ensures AckedOnce(m - {c}, acked + Pending(m, c))
    ensures Taken(m - {c}, acked + Pending(m, c)) == Taken(m, acked)
  {
    TakenAcked(m, acked, c);
    if c in m {
      TotalWithout(m, c);
      DistinctConcat(acked, m[c]);
    } else {
      assert m - {c} == m && since - {c} == since;
      assert acked + [] == acked;
    }
  }

  lemma TakenAcked(m: map<ClientID, seq<Delivery>>, acked: seq<Delivery>, c: ClientID)
    ensures Taken(m - {c}, acked + Pending(m, c)) == Taken(m, acked)
  {
    forall x ensures x in Taken(m - {c}, acked + Pending(m, c)) <==> x in Taken(m, acked) {
      if x in Taken(m, acked) && x !in acked {
        var e :| e in m && x in m[e];
        assert e != c ==> e in m - {c} && x in (m - {c})[e];
      }
    }
  }

  lemma AckedNow(m: map<ClientID, seq<Delivery>>, acked: seq<Delivery>, d: Delivery)
    requires AckedOnce(m, acked) && Fresh(m, acked, d)
    ensures AckedOnce(m, acked + [d])
    ensures Taken(m, acked + [d]) == Taken(m, acked) + {d}
  {
  }

  lemma NothingPending(m: map<ClientID, seq<Delivery>>, since: map<ClientID, nat>, total: nat)
    requires Balanced(m, since, total)
    ensures m == map[] ==> total == 0
  {
  }
}
