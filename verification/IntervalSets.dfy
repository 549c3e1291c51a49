/**
 The set of sequence numbers already seen, kept as a sorted list of closed
 intervals of 64-bit numbers (src/common/dedup/intervalset.go).
 */
module IntervalSets {
  import opened Common

  const MAX_U64: U64 := U64_SIZE - 1

  datatype Range = Range(lo: U64, hi: U64)

  predicate Inside(r: Range, id: U64) {
    r.lo <= id <= r.hi
  }

  /** Sorted, disjoint and never adjacent: the only shape Add may leave behind. */
  ghost predicate Canonical(rs: seq<Range>) {
    && (forall i :: 0 <= i < |rs| ==> rs[i].lo <= rs[i].hi)
    && (forall i, j :: 0 <= i < j < |rs| ==> rs[i].hi + 1 < rs[j].lo)
  }

  ghost predicate Covers(rs: seq<Range>, id: U64) {
    exists r :: r in rs && Inside(r, id)
  }

  /** The mathematical set a list of ranges stands for. */
  ghost function Ids(rs: seq<Range>): iset<U64> {
    iset id: U64 | Covers(rs, id)
  }

  /** 64-bit increment, wrapping at the top as the machine does. */
  function Increment(x: U64): U64 {
    if x == MAX_U64 then 0 else x + 1
  }

  class IntervalSet {
    var ranges: seq<Range>

    constructor ()
      ensures ranges == []
    {
      ranges := [];
    }

    /**
     sort.Search for the first range whose upper end is not below id. What the
     callers need from that position: it decides membership, and it is the place
     where id goes into the list.
     */
    method Search(id: U64) returns (i: nat)
      requires Canonical(ranges)
      ensures i <= |ranges|
      ensures id in Ids(ranges) <==> i < |ranges| && ranges[i].lo <= id
      ensures Spliced(ranges, i, id) == Insert(ranges, id)
    {
      i := 0;
      var j := |ranges|;
      while i < j
        invariant 0 <= i <= j <= |ranges|
        invariant forall k :: 0 <= k < i ==> ranges[k].hi < id
        invariant forall k :: j <= k < |ranges| ==> id <= ranges[k].hi
      {
        var h := (i + j) / 2;
        if ranges[h].hi < id {
          i := h + 1;
        } else {
          j := h;
        }
      }
      SpliceIsInsert(ranges, i, id);
      SearchDecides(ranges, i, id);
    }

    method Contains(id: U64) returns (found: bool)
      requires Canonical(ranges)
      ensures found <==> id in Ids(ranges)
    {
      var i := Search(id);
      found := i < |ranges| && ranges[i].lo <= id;
    }

    method Add(id: U64) returns (added: bool)
      requires Canonical(ranges)
      modifies this
      ensures ranges == Insert(old(ranges), id)
      ensures Canonical(ranges)
      ensures Ids(ranges) == old(Ids(ranges)) + iset{id}
      ensures added <==> id !in old(Ids(ranges))
    {
      var i := Search(id);
      var rs := ranges;
      InsertMeans(rs, id);
      if i < |rs| && rs[i].lo <= id {
        return false;
      }
      var mergePrev := i > 0 && rs[i - 1].hi != MAX_U64 && Increment(rs[i - 1].hi) == id;
      var mergeNext := i < |rs| && id != MAX_U64 && rs[i].lo == Increment(id);
      if mergePrev && mergeNext {
        ranges := rs[..i - 1] + [Range(rs[i - 1].lo, rs[i].hi)] + rs[i + 1..];
      } else if mergePrev {
        ranges := rs[i - 1 := Range(rs[i - 1].lo, id)];
      } else if mergeNext {
        ranges := rs[i := Range(id, rs[i].hi)];
      } else {
        ranges := rs[..i] + [Range(id, id)] + rs[i..];
      }
      return true;
    }
  }

  // ---- the specification, written over the list from the left -----------------

  /** The list that stands for Ids(rs) with id added. */
  ghost function Insert(rs: seq<Range>, id: U64): seq<Range> {
    if rs == [] || id + 1 < rs[0].lo then [Range(id, id)] + rs
    else if id + 1 == rs[0].lo then [Range(id, rs[0].hi)] + rs[1..]
    else if id <= rs[0].hi then rs
    else if id > rs[0].hi + 1 then [rs[0]] + Insert(rs[1..], id)
    else if |rs| > 1 && rs[1].lo == id + 1 then [Range(rs[0].lo, rs[1].hi)] + rs[2..]
    else [Range(rs[0].lo, id)] + rs[1..]
  }

  lemma InsertPasses(rs: seq<Range>, id: U64)
    requires rs != [] && rs[0].lo <= rs[0].hi < id - 1
    ensures Insert(rs, id) == [rs[0]] + Insert(rs[1..], id)
  {
  }

  lemma {:induction false} InsertSkips(rs: seq<Range>, j: nat, id: U64)
    requires j <= |rs|
    requires forall k :: 0 <= k < j ==> rs[k].lo <= rs[k].hi < id - 1
    ensures Insert(rs, id) == rs[..j] + Insert(rs[j..], id)
  {
    hide Insert;
    if j == 0 {
      assert rs[j..] == rs;
    } else {
      InsertPasses(rs, id);
      var tail := rs[1..];
      assert forall k :: 0 <= k < j - 1 ==> tail[k] == rs[k + 1];
      InsertSkips(tail, j - 1, id);
      assert tail[j - 1..] == rs[j..];
      assert rs[..j] == [rs[0]] + tail[..j - 1];
    }
  }

  /** The list to build when id falls in a gap that no neighbour touches. */
  lemma InsertInGap(rs: seq<Range>, i: nat, id: U64)
    requires i <= |rs|
    requires forall k :: 0 <= k < i ==> rs[k].lo <= rs[k].hi < id - 1
    requires i < |rs| ==> id + 1 < rs[i].lo
    ensures Insert(rs, id) == rs[..i] + [Range(id, id)] + rs[i..]
  {
    InsertSkips(rs, i, id);
    assert Insert(rs[i..], id) == [Range(id, id)] + rs[i..];
  }

  /** The list to build when id touches only the range after the gap. */
  lemma InsertBefore(rs: seq<Range>, i: nat, id: U64)
    requires i < |rs| && id + 1 == rs[i].lo
    requires forall k :: 0 <= k < i ==> rs[k].lo <= rs[k].hi < id - 1
    ensures Insert(rs, id) == rs[i := Range(id, rs[i].hi)]
  {
    InsertSkips(rs, i, id);
    assert rs[i..][1..] == rs[i + 1..];
    assert Insert(rs[i..], id) == [Range(id, rs[i].hi)] + rs[i + 1..];
  }

  /** The list to build when id touches the range before the gap. */
  lemma InsertAfter(rs: seq<Range>, i: nat, id: U64)
    requires 0 < i <= |rs|
    requires forall k :: 0 <= k < i - 1 ==> rs[k].lo <= rs[k].hi < id - 1
    requires rs[i - 1].lo <= rs[i - 1].hi == id - 1
    requires i < |rs| ==> id < rs[i].lo
    ensures Insert(rs, id) ==
      if i < |rs| && rs[i].lo == id + 1 then rs[..i - 1] + [Range(rs[i - 1].lo, rs[i].hi)] + rs[i + 1..]
      else rs[i - 1 := Range(rs[i - 1].lo, id)]
  {
    InsertSkips(rs, i - 1, id);
    var tail := rs[i - 1..];
    assert tail[0] == rs[i - 1];
    assert tail[1..] == rs[i..];
    if i < |rs| {
      assert tail[1] == rs[i];
      assert tail[2..] == rs[i + 1..];
    }
  }

  lemma IdsCons(r: Range, rs: seq<Range>)
    ensures forall x: U64 :: Covers([r] + rs, x) <==> Inside(r, x) || Covers(rs, x)
  {
    forall x: U64 ensures Covers([r] + rs, x) <==> Inside(r, x) || Covers(rs, x) {
      assert r in [r] + rs;
      if Covers(rs, x) {
        var q :| q in rs && Inside(q, x);
        assert q in [r] + rs;
      }
    }
  }

  lemma {:induction false} InsertAddsId(rs: seq<Range>, id: U64)
    requires Canonical(rs)
    ensures forall x: U64 :: Covers(Insert(rs, id), x) <==> Covers(rs, x) || x == id
    decreases |rs|
  {
    if rs == [] || id + 1 < rs[0].lo {
      IdsCons(Range(id, id), rs);
    } else {
      assert rs == [rs[0]] + rs[1..];
      IdsCons(rs[0], rs[1..]);
      if id + 1 == rs[0].lo {
        IdsCons(Range(id, rs[0].hi), rs[1..]);
      } else if id <= rs[0].hi {
        assert Inside(rs[0], id);
      } else if id > rs[0].hi + 1 {
        InsertAddsId(rs[1..], id);
        IdsCons(rs[0], Insert(rs[1..], id));
      } else if |rs| > 1 && rs[1].lo == id + 1 {
        assert rs[1..] == [rs[1]] + rs[2..];
        IdsCons(rs[1], rs[2..]);
        IdsCons(Range(rs[0].lo, rs[1].hi), rs[2..]);
      } else {
        IdsCons(Range(rs[0].lo, id), rs[1..]);
      }
    }
  }

  lemma {:induction false} InsertKeepsCanonical(rs: seq<Range>, id: U64)
    requires Canonical(rs)
    ensures Canonical(Insert(rs, id))
    ensures |Insert(rs, id)| > 0
    ensures Insert(rs, id)[0].lo == if rs == [] || id < rs[0].lo then id else rs[0].lo
    decreases |rs|
  {
    if rs != [] && id > rs[0].hi + 1 {
      hide Insert;
      InsertPasses(rs, id);
      assert Canonical(rs[1..]);
      InsertKeepsCanonical(rs[1..], id);
      PrependKeepsCanonical(rs[0], Insert(rs[1..], id));
    } else {
      InsertHereKeepsCanonical(rs, id);
    }
  }

  lemma InsertHereKeepsCanonical(rs: seq<Range>, id: U64)
    requires Canonical(rs) && !(rs != [] && id > rs[0].hi + 1)
    ensures Canonical(Insert(rs, id)) && |Insert(rs, id)| > 0
    ensures Insert(rs, id)[0].lo == if rs == [] || id < rs[0].lo then id else rs[0].lo
  {
    hide Canonical;
    if rs == [] || id + 1 < rs[0].lo {
      JoinKeepsCanonical(Range(id, id), rs);
    } else {
      TailIsCanonical(rs);
      if id + 1 == rs[0].lo {
        JoinKeepsCanonical(Range(id, rs[0].hi), rs[1..]);
      } else if id == rs[0].hi + 1 {
        if |rs| > 1 && rs[1].lo == id + 1 {
          TailIsCanonical(rs[1..]);
          JoinKeepsCanonical(Range(rs[0].lo, rs[1].hi), rs[2..]);
          assert rs[1..][1..] == rs[2..];
        } else {
          JoinKeepsCanonical(Range(rs[0].lo, id), rs[1..]);
        }
      }
    }
  }

  lemma TailIsCanonical(rs: seq<Range>)
    requires Canonical(rs) && rs != []
    ensures Canonical(rs[1..]) && rs[0].lo <= rs[0].hi
    ensures |rs| > 1 ==> rs[0].hi + 1 < rs[1].lo <= rs[1].hi
  {
  }

  lemma JoinKeepsCanonical(r: Range, rs: seq<Range>)
    requires r.lo <= r.hi && Canonical(rs)
    requires rs != [] ==> r.hi + 1 < rs[0].lo
    ensures Canonical([r] + rs)
  {
    if rs == [] {
      assert Canonical([r]);
      assert [r] + rs == [r];
    } else {
      PrependKeepsCanonical(r, rs);
    }
  }

  /** Insert adds exactly id and keeps the list canonical. */
  lemma InsertMeans(rs: seq<Range>, id: U64)
    requires Canonical(rs)
    ensures Canonical(Insert(rs, id))
    ensures Ids(Insert(rs, id)) == Ids(rs) + iset{id}
  {
    InsertAddsId(rs, id);
    InsertKeepsCanonical(rs, id);
  }

  lemma PrependKeepsCanonical(r: Range, rs: seq<Range>)
    requires r.lo <= r.hi && Canonical(rs)
    requires |rs| > 0 && r.hi + 1 < rs[0].lo
    ensures Canonical([r] + rs)
  {
    var all := [r] + rs;
    forall i, j | 0 <= i < j < |all| ensures all[i].hi + 1 < all[j].lo {
      assert all[j] == rs[j - 1];
      assert i > 0 ==> all[i] == rs[i - 1];
      assert j > 1 ==> rs[0].hi + 1 < rs[j - 1].lo;
    }
  }

  /** The list each branch of Add leaves, as a function of the search position. */
  function Spliced(rs: seq<Range>, i: nat, id: U64): seq<Range>
    requires i <= |rs|
  {
    var prev := i > 0 && rs[i - 1].hi + 1 == id;
    var next := i < |rs| && rs[i].lo == id + 1;
    if i < |rs| && rs[i].lo <= id then rs
    else if prev && next then rs[..i - 1] + [Range(rs[i - 1].lo, rs[i].hi)] + rs[i + 1..]
    else if prev then rs[i - 1 := Range(rs[i - 1].lo, id)]
    else if next then rs[i := Range(id, rs[i].hi)]
    else rs[..i] + [Range(id, id)] + rs[i..]
  }

  lemma SearchedGap(rs: seq<Range>, i: nat, id: U64)
    requires Canonical(rs) && i <= |rs|
    requires forall k :: 0 <= k < i ==> rs[k].hi < id
    ensures forall k :: 0 <= k < i - 1 ==> rs[k].lo <= rs[k].hi < id - 1
    ensures i > 0 && i < |rs| && rs[i].lo <= id ==> rs[i - 1].lo <= rs[i - 1].hi < id - 1
  {
    forall k | 0 <= k < i - 1 ensures rs[k].lo <= rs[k].hi < id - 1 {
      assert rs[k].hi + 1 < rs[k + 1].lo;
    }
    if i > 0 && i < |rs| && rs[i].lo <= id {
      assert rs[i - 1].hi + 1 < rs[i].lo;
    }
  }

  /** The search position decides membership. */
  lemma SearchDecides(rs: seq<Range>, i: nat, id: U64)
    requires Canonical(rs) && i <= |rs|
    requires forall k :: 0 <= k < i ==> rs[k].hi < id
    requires i < |rs| ==> id <= rs[i].hi
    ensures Covers(rs, id) <==> i < |rs| && rs[i].lo <= id
  {
    if i < |rs| && rs[i].lo <= id {
      assert Inside(rs[i], id);
    } else {
      forall r | r in rs ensures !Inside(r, id) {
        var k :| 0 <= k < |rs| && rs[k] == r;
        assert i < k ==> rs[i].hi + 1 < rs[k].lo;
      }
    }
  }

  lemma SpliceIsInsert(rs: seq<Range>, i: nat, id: U64)
    requires Canonical(rs) && i <= |rs|
    requires forall k :: 0 <= k < i ==> rs[k].hi < id
    requires i < |rs| ==> id <= rs[i].hi
    ensures Spliced(rs, i, id) == Insert(rs, id)
  {
    SearchedGap(rs, i, id);
    if i < |rs| && rs[i].lo <= id {
      InsertSkips(rs, i, id);
    } else if i > 0 && rs[i - 1].hi + 1 == id {
      InsertAfter(rs, i, id);
    } else if i < |rs| && rs[i].lo == id + 1 {
      InsertBefore(rs, i, id);
    } else {
      InsertInGap(rs, i, id);
    }
  }

  // ---- the representation is a function of the set ----------------------------

  lemma FirstRange(rs: seq<Range>)
    requires Canonical(rs) && |rs| > 0
    ensures forall x: U64 :: Inside(rs[0], x) ==> x in Ids(rs)
    ensures forall x: U64 :: x in Ids(rs) ==> rs[0].lo <= x
    ensures forall x: U64 :: x in Ids(rs[1..]) <==> x in Ids(rs) && x > rs[0].hi
    ensures forall x: U64 :: x in Ids(rs) ==> x != rs[0].hi + 1
  {
    assert rs == [rs[0]] + rs[1..];
    IdsCons(rs[0], rs[1..]);
    forall x: U64 | x in Ids(rs[1..]) ensures x > rs[0].hi + 1 {
      var r :| r in rs[1..] && Inside(r, x);
      var k :| 0 < k < |rs| && rs[k] == r;
      assert rs[0].hi + 1 < rs[k].lo;
    }
  }

  /** Two canonical lists of the same set are the same list. */
  lemma {:induction false} SameIdsSameRanges(rs: seq<Range>, ss: seq<Range>)
    requires Canonical(rs) && Canonical(ss)
    requires Ids(rs) == Ids(ss)
    ensures rs == ss
    decreases |rs|
  {
    if |rs| > 0 { FirstRange(rs); assert Inside(rs[0], rs[0].lo) && Inside(rs[0], rs[0].hi); }
    if |ss| > 0 { FirstRange(ss); assert Inside(ss[0], ss[0].lo) && Inside(ss[0], ss[0].hi); }
    assert |rs| == 0 ==> forall x: U64 :: x !in Ids(rs);
    assert |ss| == 0 ==> forall x: U64 :: x !in Ids(ss);
    assert |rs| > 0 ==> rs[0].lo in Ids(ss);
    assert |ss| > 0 ==> ss[0].lo in Ids(rs);
    if |rs| > 0 && |ss| > 0 {
      assert rs[0].lo == ss[0].lo;
      assert rs[0].hi < ss[0].hi ==> Inside(ss[0], rs[0].hi + 1);
      assert ss[0].hi < rs[0].hi ==> Inside(rs[0], ss[0].hi + 1);
      assert rs[0] == ss[0];
      SameIdsSameRanges(rs[1..], ss[1..]);
      assert rs == [rs[0]] + rs[1..] && ss == [ss[0]] + ss[1..];
    }
  }

  // ---- every sequence of adds -------------------------------------------------

  ghost function InsertAll(rs: seq<Range>, ids: seq<U64>): seq<Range> {
    if ids == [] then rs else Insert(InsertAll(rs, ids[..|ids| - 1]), ids[|ids| - 1])
  }

  lemma {:induction false} InsertAllMeans(ids: seq<U64>)
    ensures Canonical(InsertAll([], ids))
    ensures forall x: U64 :: x in Ids(InsertAll([], ids)) <==> x in ids
  {
    if ids != [] {
      var front := ids[..|ids| - 1];
      InsertAllMeans(front);
      InsertMeans(InsertAll([], front), ids[|ids| - 1]);
      assert ids == front + [ids[|ids| - 1]];
    }
  }

  /** Arrival order and repetitions never show in the stored list. */
  lemma OrderOfAddsIsInvisible(ids: seq<U64>, others: seq<U64>)
    requires forall x: U64 :: x in ids <==> x in others
    ensures InsertAll([], ids) == InsertAll([], others)
  {
    InsertAllMeans(ids);
    InsertAllMeans(others);
    assert Ids(InsertAll([], ids)) == Ids(InsertAll([], others));
    SameIdsSameRanges(InsertAll([], ids), InsertAll([], others));
  }
}
