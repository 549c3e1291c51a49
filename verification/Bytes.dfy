/**
 Fixed-width unsigned integers as bytes: big-endian for the message formats,
 little-endian for the log. Encoding and decoding undo each other both ways.
 */
module Bytes {
  import opened Common

  type Byte = U8

  const U32_WIDTH: nat := 4

  ghost function Capacity(width: nat): (c: nat)
    ensures c > 0
  {
    if width == 0 then 1 else 256 * Capacity(width - 1)
  }

  lemma Capacities()
    ensures Capacity(1) == U8_SIZE && Capacity(2) == U16_SIZE
    ensures Capacity(4) == U32_SIZE && Capacity(8) == U64_SIZE
  {
    assert Capacity(2) == 256 * Capacity(1);
    assert Capacity(3) == 256 * Capacity(2);
    assert Capacity(4) == 256 * Capacity(3);
    assert Capacity(5) == 256 * Capacity(4);
    assert Capacity(6) == 256 * Capacity(5);
    assert Capacity(7) == 256 * Capacity(6);
    assert Capacity(8) == 256 * Capacity(7);
  }

  // ---- big-endian -------------------------------------------------------------

  function EncodeBE(n: nat, width: nat): (bs: seq<Byte>)
    ensures |bs| == width
  {
    if width == 0 then [] else EncodeBE(n / 256, width - 1) + [n % 256]
  }

  function DecodeBE(bs: seq<Byte>): nat {
    if bs == [] then 0 else 256 * DecodeBE(bs[..|bs| - 1]) + bs[|bs| - 1]
  }

  lemma {:induction false} DecodeEncodeBE(n: nat, width: nat)
    requires n < Capacity(width)
    ensures DecodeBE(EncodeBE(n, width)) == n
  {
    if width > 0 {
      DecodeEncodeBE(n / 256, width - 1);
      assert EncodeBE(n, width)[..width - 1] == EncodeBE(n / 256, width - 1);
    }
  }

  lemma {:induction false} EncodeDecodeBE(bs: seq<Byte>)
    ensures DecodeBE(bs) < Capacity(|bs|)
    ensures EncodeBE(DecodeBE(bs), |bs|) == bs
  {
    if bs != [] {
      EncodeDecodeBE(bs[..|bs| - 1]);
      var high, low := DecodeBE(bs[..|bs| - 1]), bs[|bs| - 1];
      assert (256 * high + low) / 256 == high && (256 * high + low) % 256 == low;
      assert bs == bs[..|bs| - 1] + [low];
    }
  }

  // ---- little-endian ----------------------------------------------------------

  function EncodeLE(n: nat, width: nat): (bs: seq<Byte>)
    ensures |bs| == width
  {
    if width == 0 then [] else [n % 256] + EncodeLE(n / 256, width - 1)
  }

  function DecodeLE(bs: seq<Byte>): nat {
    if bs == [] then 0 else bs[0] + 256 * DecodeLE(bs[1..])
  }

  lemma {:induction false} DecodeEncodeLE(n: nat, width: nat)
    requires n < Capacity(width)
    ensures DecodeLE(EncodeLE(n, width)) == n
  {
    if width > 0 {
      DecodeEncodeLE(n / 256, width - 1);
      assert EncodeLE(n, width)[1..] == EncodeLE(n / 256, width - 1);
    }
  }

  lemma {:induction false} EncodeDecodeLE(bs: seq<Byte>)
    ensures DecodeLE(bs) < Capacity(|bs|)
    ensures EncodeLE(DecodeLE(bs), |bs|) == bs
  {
    if bs != [] {
      EncodeDecodeLE(bs[1..]);
      var high, low := DecodeLE(bs[1..]), bs[0];
      assert (low + 256 * high) / 256 == high && (low + 256 * high) % 256 == low;
      assert bs == [low] + bs[1..];
    }
  }

  // ---- the integers of the message formats ---------------------------------------

  function ReadU16(bs: seq<Byte>): (n: U16)
    requires |bs| == 2
  {
    EncodeDecodeBE(bs);
    Capacities();
    DecodeBE(bs)
  }

  function ReadU32(bs: seq<Byte>): (n: U32)
    requires |bs| == 4
  {
    EncodeDecodeBE(bs);
    Capacities();
    DecodeBE(bs)
  }

  function ReadU64(bs: seq<Byte>): (n: U64)
    requires |bs| == 8
  {
    EncodeDecodeBE(bs);
    Capacities();
    DecodeBE(bs)
  }

  lemma WriteReads(a: U16, b: U32, c: U64)
    ensures ReadU16(EncodeBE(a, 2)) == a && ReadU32(EncodeBE(b, 4)) == b && ReadU64(EncodeBE(c, 8)) == c
  {
    Capacities();
    DecodeEncodeBE(a, 2);
    DecodeEncodeBE(b, 4);
    DecodeEncodeBE(c, 8);
  }

  lemma ReadWrites(a: seq<Byte>, b: seq<Byte>, c: seq<Byte>)
    requires |a| == 2 && |b| == 4 && |c| == 8
    ensures EncodeBE(ReadU16(a), 2) == a && EncodeBE(ReadU32(b), 4) == b && EncodeBE(ReadU64(c), 8) == c
  {
    EncodeDecodeBE(a);
    EncodeDecodeBE(b);
    EncodeDecodeBE(c);
  }
}
