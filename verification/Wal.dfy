/**
 The append-only log of one client (src/common/wal/wal.go). A segment is a byte
 sequence; a record is its length, its checksum and its payload. The checksum is
 an arbitrary function: nothing below depends on its values.
 */
module Wal {
  import opened Common
  import opened Bytes

  type Payload = seq<Byte>
  type Checksum = Payload -> U32

  const RECORD_HEADER_SIZE := 8

  function Frame(crc: Checksum, p: Payload): (bs: seq<Byte>)
    ensures |bs| == RECORD_HEADER_SIZE + |p|
  {
    EncodeLE(|p| % U32_SIZE, U32_WIDTH) + EncodeLE(crc(p), U32_WIDTH) + p
  }

  function Frames(crc: Checksum, ps: seq<Payload>): seq<Byte> {
    if ps == [] then [] else Frame(crc, ps[0]) + Frames(crc, ps[1..])
  }

  /** The record at the front, unless it is short or damaged. */
  function FirstRecord(crc: Checksum, bs: seq<Byte>): Option<Payload> {
    if |bs| < RECORD_HEADER_SIZE then None
    else
      var n := DecodeLE(bs[..4]);
      if |bs| < RECORD_HEADER_SIZE + n then None
      else
        var p := bs[8..8 + n];
        if crc(p) != DecodeLE(bs[4..8]) then None else Some(p)
  }

  /** The payloads replaying these bytes delivers: up to the first short or damaged record. */
  function Scan(crc: Checksum, bs: seq<Byte>): seq<Payload>
    decreases |bs|
  {
    match FirstRecord(crc, bs)
    case None => []
    case Some(p) => [p] + Scan(crc, bs[RECORD_HEADER_SIZE + |p|..])
  }

  /** The length field has 32 bits. */
  predicate Fits(ps: seq<Payload>) {
    forall i :: 0 <= i < |ps| ==> |ps[i]| < U32_SIZE
  }

  /** The generation after g; 64 bits wide. */
  function NextGen(g: U64): (h: U64)
    ensures h != g
  {
    if g == U64_SIZE - 1 then 0 else g + 1
  }

  /** The segments of one client, by generation. */
  class Disk {
    var segments: map<U64, seq<Byte>>

    constructor ()
      ensures segments == map[]
    {
      segments := map[];
    }
  }

  class Log {
    const crc: Checksum
    const disk: Disk
    var gen: U64
    var size: nat

    ghost predicate Valid()
      reads this, disk
    {
      gen in disk.segments && size == |disk.segments[gen]|
    }

    /** Drops every other generation and opens this one, creating it when missing. */
    constructor Open(crc: Checksum, disk: Disk, gen: U64)
      modifies disk
      ensures Valid() && this.crc == crc && this.disk == disk && this.gen == gen
      ensures disk.segments == map[gen := if gen in old(disk.segments) then old(disk.segments)[gen] else []]
    {
      this.crc, this.disk, this.gen := crc, disk, gen;
      this.size := if gen in disk.segments then |disk.segments[gen]| else 0;
      new;
      disk.segments := map g | g in disk.segments && g == gen :: disk.segments[g];
      if gen !in disk.segments {
        disk.segments := disk.segments[gen := []];
      }
    }

    /** Writes all records with one write and one sync. */
    method AppendBatch(payloads: seq<Payload>)
      requires Valid()
      modifies this`size, disk
      ensures Valid() && gen == old(gen)
      ensures disk.segments == old(disk.segments)[gen := old(disk.segments)[gen] + Frames(crc, payloads)]
    {
      if |payloads| == 0 {
        assert disk.segments[gen] + [] == disk.segments[gen];
        return;
      }
      var buf: seq<Byte> := [];
      for i := 0 to |payloads|
        invariant buf + Frames(crc, payloads[i..]) == Frames(crc, payloads)
      {
        assert payloads[i..][0] == payloads[i] && payloads[i..][1..] == payloads[i + 1..];
        var p := payloads[i];
        assert buf + (Frame(crc, p) + Frames(crc, payloads[i + 1..]))
            == (buf + Frame(crc, p)) + Frames(crc, payloads[i + 1..]);
        buf := buf + (EncodeLE(|p| % U32_SIZE, U32_WIDTH) + EncodeLE(crc(p), U32_WIDTH) + p);
      }
      assert buf == Frames(crc, payloads) by {
        assert payloads[|payloads|..] == [];
      }
      disk.segments := disk.segments[gen := disk.segments[gen] + buf];
      size := size + |buf|;
    }

    /** Starts the next generation and removes the old segment. */
    method Rotate() returns (newGen: U64)
      requires Valid()
      modifies this`gen, this`size, disk
      ensures newGen == gen == NextGen(old(gen))
      ensures gen in disk.segments
      ensures disk.segments == (old(disk.segments)[gen := if gen in old(disk.segments) then old(disk.segments)[gen] else []])
                               - {old(gen)}
      ensures size == 0
    {
      newGen := NextGen(gen);
      if newGen !in disk.segments {
        disk.segments := disk.segments[newGen := []];
      }
      disk.segments := disk.segments - {gen};
      gen := newGen;
      size := 0;
    }
  }

  /**
   Hands the readable payloads of the segment, in order, to the caller, until the caller
   refuses one; ok says that none was refused.
   */
  method Replay(crc: Checksum, disk: Disk, gen: U64, accepts: Payload -> bool) returns (delivered: seq<Payload>, ok: bool)
    ensures var all := if gen in disk.segments then Scan(crc, disk.segments[gen]) else [];
      && delivered <= all
      && (ok <==> forall p :: p in all ==> accepts(p))
      && (ok ==> delivered == all)
      && (!ok ==> delivered != [] && !accepts(delivered[|delivered| - 1]))
      && forall i :: 0 <= i < |delivered| - 1 ==> accepts(delivered[i])
  {
    hide DecodeLE, EncodeLE, Scan, FirstRecord;
    delivered, ok := [], true;
    if gen !in disk.segments {
      return;
    }
    var f := disk.segments[gen];
    var offset := 0;
    ghost var all := Scan(crc, f);
    assert f[0..] == f;
    while true
      invariant 0 <= offset <= |f|
      invariant delivered + Scan(crc, f[offset..]) == all
      invariant ok && forall p :: p in delivered ==> accepts(p)
      decreases |f| - offset
    {
      ghost var first := FirstRecord(crc, f[offset..]);
      FirstRecordAt(crc, f, offset);
      ScanAt(crc, f, offset, delivered);
      if |f| - offset < RECORD_HEADER_SIZE {
        return;
      }
      var n := DecodeLE(f[offset..offset + 4]);
      var want := DecodeLE(f[offset + 4..offset + 8]);
      offset := offset + RECORD_HEADER_SIZE;
      if |f| - offset < n {
        return;
      }
      var payload := f[offset..offset + n];
      if crc(payload) != want {
        return;
      }
      delivered := delivered + [payload];
      offset := offset + n;
      if !accepts(payload) {
        assert payload in delivered;
        return delivered, false;
      }
    }
  }

  lemma ScanAt(crc: Checksum, f: seq<Byte>, offset: nat, delivered: seq<Payload>)
    requires offset <= |f|
    ensures match FirstRecord(crc, f[offset..]) {
        case None => Scan(crc, f[offset..]) == []
        case Some(p) =>
          delivered + Scan(crc, f[offset..]) == (delivered + [p]) + Scan(crc, f[offset + RECORD_HEADER_SIZE + |p|..])
      }
  {
    var first := FirstRecord(crc, f[offset..]);
    if first.Some? {
      var next := offset + RECORD_HEADER_SIZE + |first.value|;
      assert f[offset..][RECORD_HEADER_SIZE + |first.value|..] == f[next..];
    }
  }

  /** The next record of a segment, in terms of the whole segment. */
  lemma FirstRecordAt(crc: Checksum, f: seq<Byte>, offset: nat)
    requires offset <= |f|
    ensures FirstRecord(crc, f[offset..]) ==
      if |f| - offset < RECORD_HEADER_SIZE then None
      else
        var n := DecodeLE(f[offset..offset + 4]);
        if |f| - offset - RECORD_HEADER_SIZE < n then None
        else
          var p := f[offset + 8..offset + 8 + n];
          if crc(p) != DecodeLE(f[offset + 4..offset + 8]) then None else Some(p)
  {
    var rest := f[offset..];
    if |rest| >= RECORD_HEADER_SIZE {
      assert rest[..4] == f[offset..offset + 4] && rest[4..8] == f[offset + 4..offset + 8];
      var n := DecodeLE(rest[..4]);
      if |rest| >= RECORD_HEADER_SIZE + n {
        assert rest[8..8 + n] == f[offset + 8..offset + 8 + n];
      }
    }
  }

  // ---- a segment cut at any byte ----------------------------------------------

  lemma FrameFields(crc: Checksum, p: Payload, tail: seq<Byte>)
    requires |p| < U32_SIZE
    ensures var bs := Frame(crc, p) + tail;
      DecodeLE(bs[..4]) == |p| && DecodeLE(bs[4..8]) == crc(p) && bs[8..8 + |p|] == p && bs[8 + |p|..] == tail
  {
    hide EncodeLE, DecodeLE;
    Capacities();
    DecodeEncodeLE(|p|, U32_WIDTH);
    DecodeEncodeLE(crc(p), U32_WIDTH);
    var bs := Frame(crc, p) + tail;
    assert bs[..4] == EncodeLE(|p|, U32_WIDTH);
    assert bs[4..8] == EncodeLE(crc(p), U32_WIDTH);
    assert bs[8..8 + |p|] == p;
    assert bs[8 + |p|..] == tail;
  }

  lemma ScanFrame(crc: Checksum, p: Payload, tail: seq<Byte>)
    requires |p| < U32_SIZE
    ensures Scan(crc, Frame(crc, p) + tail) == [p] + Scan(crc, tail)
  {
    FrameFields(crc, p, tail);
  }

  lemma ScanFramesStep(crc: Checksum, p: Payload, qs: seq<Payload>, fs: seq<Byte>, tail: seq<Byte>, rest: seq<Payload>)
    requires |p| < U32_SIZE && Scan(crc, fs + tail) == qs + rest
    ensures Scan(crc, (Frame(crc, p) + fs) + tail) == ([p] + qs) + rest
  {
    hide Scan, Frame;
    assert (Frame(crc, p) + fs) + tail == Frame(crc, p) + (fs + tail);
    ScanFrame(crc, p, fs + tail);
    assert ([p] + qs) + rest == [p] + (qs + rest);
  }

  lemma {:induction false} ScanFrames(crc: Checksum, ps: seq<Payload>, tail: seq<Byte>)
    requires Fits(ps)
    ensures Scan(crc, Frames(crc, ps) + tail) == ps + Scan(crc, tail)
  {
    if ps == [] {
      assert Frames(crc, ps) + tail == tail;
    } else {
      ScanFrames(crc, ps[1..], tail);
      ScanFramesStep(crc, ps[0], ps[1..], Frames(crc, ps[1..]), tail, Scan(crc, tail));
      assert [ps[0]] + ps[1..] == ps;
    }
  }

  /** An intact segment gives back exactly what was appended. */
  lemma ReplayOfAppended(crc: Checksum, ps: seq<Payload>)
    requires Fits(ps)
    ensures Scan(crc, Frames(crc, ps)) == ps
  {
    ScanFrames(crc, ps, []);
    assert Frames(crc, ps) + [] == Frames(crc, ps);
  }

  /** How many records lie wholly within the first k bytes. */
  ghost function WholeBefore(crc: Checksum, ps: seq<Payload>, k: nat): (n: nat)
    ensures n <= |ps|
  {
    if ps == [] || k < |Frame(crc, ps[0])| then 0
    else 1 + WholeBefore(crc, ps[1..], k - |Frame(crc, ps[0])|)
  }

  lemma {:induction false} WholeBeforeIsGreatest(crc: Checksum, ps: seq<Payload>, k: nat)
    ensures var n := WholeBefore(crc, ps, k);
      && |Frames(crc, ps[..n])| <= k
      && (n < |ps| ==> k < |Frames(crc, ps[..n + 1])|)
  {
    if ps != [] {
      var n := WholeBefore(crc, ps, k);
      if n > 0 {
        WholeBeforeIsGreatest(crc, ps[1..], k - |Frame(crc, ps[0])|);
        assert ps[..n][1..] == ps[1..][..n - 1];
      }
      if n < |ps| {
        assert ps[..n + 1][1..] == ps[1..][..n];
      }
    }
  }

  lemma NothingToScan(crc: Checksum)
    ensures Scan(crc, []) == []
  {
  }

  lemma CutRecordIsLost(crc: Checksum, p: Payload, k: nat)
    requires |p| < U32_SIZE && k < |Frame(crc, p)|
    ensures Scan(crc, Frame(crc, p)[..k]) == []
  {
    hide EncodeLE, DecodeLE;
    var first := Frame(crc, p);
    FrameFields(crc, p, []);
    assert first + [] == first;
    if k >= RECORD_HEADER_SIZE {
      assert first[..k][..4] == first[..4];
    }
  }

  /** Cut anywhere: replay delivers, in order, exactly the records wholly before the cut. */
  lemma {:induction false} ReplayOfCut(crc: Checksum, ps: seq<Payload>, k: nat)
    requires Fits(ps) && k <= |Frames(crc, ps)|
    ensures Scan(crc, Frames(crc, ps)[..k]) == ps[..WholeBefore(crc, ps, k)]
  {
    hide Scan, Frame;
    NothingToScan(crc);
    if ps != [] {
      var first, rest := Frame(crc, ps[0]), Frames(crc, ps[1..]);
      var cut := Frames(crc, ps)[..k];
      if k < |first| {
        assert cut == first[..k];
        CutRecordIsLost(crc, ps[0], k);
      } else {
        ReplayOfCut(crc, ps[1..], k - |first|);
        assert cut == first + rest[..k - |first|];
        ScanFrame(crc, ps[0], rest[..k - |first|]);
        var n := WholeBefore(crc, ps, k);
        assert ps[..n] == [ps[0]] + ps[1..][..n - 1];
      }
    }
  }

  // ---- appending after a cut --------------------------------------------------

  lemma Reassemble(bs: seq<Byte>, n: nat)
    requires RECORD_HEADER_SIZE + n <= |bs|
    ensures bs == ((bs[..4] + bs[4..8]) + bs[8..8 + n]) + bs[8 + n..]
  {
  }

  lemma FirstRecordIsFramed(crc: Checksum, bs: seq<Byte>, p: Payload)
    requires FirstRecord(crc, bs) == Some(p)
    ensures |p| < U32_SIZE
    ensures EncodeLE(|p|, U32_WIDTH) == bs[..4] && EncodeLE(crc(p), U32_WIDTH) == bs[4..8]
    ensures |p| <= |bs| - RECORD_HEADER_SIZE && p == bs[8..8 + |p|]
  {
    hide EncodeLE, DecodeLE;
    Capacities();
    EncodeDecodeLE(bs[..4]);
    EncodeDecodeLE(bs[4..8]);
  }

  lemma FirstDelivered(crc: Checksum, bs: seq<Byte>, p: Payload)
    requires FirstRecord(crc, bs) == Some(p)
    ensures |p| < U32_SIZE
    ensures |Frame(crc, p)| <= |bs| && bs == Frame(crc, p) + bs[|Frame(crc, p)|..]
  {
    hide DecodeLE, EncodeLE;
    FirstRecordIsFramed(crc, bs, p);
    Reassemble(bs, |p|);
  }

  /** Whatever the bytes, the delivered records are what the segment starts with. */
  lemma {:induction false} DeliveredIsPrefix(crc: Checksum, bs: seq<Byte>)
    ensures Fits(Scan(crc, bs))
    ensures Frames(crc, Scan(crc, bs)) <= bs
    decreases |bs|
  {
    var first := FirstRecord(crc, bs);
    if first.Some? {
      FirstDelivered(crc, bs, first.value);
      DeliveredIsPrefix(crc, bs[|Frame(crc, first.value)|..]);
      FramesCons(crc, Scan(crc, bs));
    }
  }

  lemma FramesCons(crc: Checksum, ps: seq<Payload>)
    requires ps != []
    ensures Frames(crc, ps) == Frame(crc, ps[0]) + Frames(crc, ps[1..])
    ensures Fits(ps[1..]) && |ps[0]| < U32_SIZE ==> Fits(ps)
  {
    forall i | Fits(ps[1..]) && 0 < i < |ps| ensures |ps[i]| < U32_SIZE {
      assert ps[i] == ps[1..][i - 1];
    }
  }

  /** Replay reads the segment to its last byte. */
  ghost predicate Clean(crc: Checksum, bs: seq<Byte>) {
    Frames(crc, Scan(crc, bs)) == bs
  }

  ghost predicate KeepsAppends(crc: Checksum, bs: seq<Byte>) {
    forall qs :: Fits(qs) ==> Scan(crc, bs + Frames(crc, qs)) == Scan(crc, bs) + qs
  }

  /**
   Open appends after whatever bytes it finds. Later records are all recovered
   exactly when replay had consumed the whole segment; behind a torn record some
   append is lost.
   */
  lemma AppendsSurviveIffClean(crc: Checksum, bs: seq<Byte>)
    ensures KeepsAppends(crc, bs) <==> Clean(crc, bs)
  {
    hide Scan, Frames;
    var ps := Scan(crc, bs);
    DeliveredIsPrefix(crc, bs);
    var torn := bs[|Frames(crc, ps)|..];
    assert bs == Frames(crc, ps) + torn;
    forall qs | Fits(qs) ensures Scan(crc, bs + Frames(crc, qs)) == ps + Scan(crc, torn + Frames(crc, qs)) {
      assert bs + Frames(crc, qs) == Frames(crc, ps) + (torn + Frames(crc, qs));
      ScanFrames(crc, ps, torn + Frames(crc, qs));
    }
    if torn == [] {
      forall qs | Fits(qs) ensures Scan(crc, bs + Frames(crc, qs)) == ps + qs {
        assert torn + Frames(crc, qs) == Frames(crc, qs);
        ReplayOfAppended(crc, qs);
      }
    } else {
      var qs := LostBehind(crc, torn);
      var recovered := Scan(crc, torn + Frames(crc, qs));
      assert (ps + recovered)[|ps|..] == recovered && (ps + qs)[|ps|..] == qs;
    }
  }

  lemma NotPrefix(a: seq<Byte>, b: seq<Byte>)
    requires a != [] && b != [] && a[0] != b[0]
    ensures !(a <= b)
  {
  }

  /** An append that replay does not give back behind the torn bytes. */
  lemma FirstByte(crc: Checksum, q: Payload)
    requires |q| < U32_SIZE
    ensures |Frames(crc, [q])| > 0 && Frames(crc, [q])[0] == |q| % 256
  {
    assert [q][1..] == [];
  }

  lemma LostBehind(crc: Checksum, torn: seq<Byte>) returns (qs: seq<Payload>)
    requires torn != []
    ensures Fits(qs) && Scan(crc, torn + Frames(crc, qs)) != qs
  {
    hide Scan, Frames;
    var q: Payload := if torn[0] == 0 then [0] else [];
    qs := [q];
    var bs := torn + Frames(crc, qs);
    DeliveredIsPrefix(crc, bs);
    FirstByte(crc, q);
    NotPrefix(Frames(crc, qs), bs);
  }

  /** Concretely: three bytes of a torn header hide the next appended record. */
  lemma TornHeaderHidesNextRecord(crc: Checksum)
    ensures var bs := [5, 0, 0]; var q: Payload := [];
      Scan(crc, bs + Frames(crc, [q])) != Scan(crc, bs) + [q]
  {
    var bs: seq<Byte> := [5, 0, 0];
    var q: Payload := [];
    var all := bs + Frames(crc, [q]);
    DeliveredIsPrefix(crc, all);
    assert Frames(crc, [q])[0] == 0 && all[0] == 5;
    NotPrefix(Frames(crc, [q]), all);
    assert |bs| < RECORD_HEADER_SIZE;
  }
}
