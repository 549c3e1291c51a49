/**
 Transactions on the wire, with only the fields a mask selects
 (src/common/messageprotocol/external/transactions.go), and the masks themselves
 (src/common/transaction/projection.go, project in src/worker/strategy/filter/filter.go).
 Text is bytes; an amount is its 64-bit pattern.
 */
module TransactionCodec {
  import opened Common
  import opened Bytes

  datatype Transaction = Transaction(
    date: U32, fromBank: U32, fromAccount: seq<Byte>, toBank: U32, toAccount: seq<Byte>,
    amountPaid: U64, currency: seq<Byte>, format: seq<Byte>)

  /** The eight bits of a mask, highest first. */
  datatype Projection = Projection(
    date: bool, fromBank: bool, fromAccount: bool, toBank: bool, toAccount: bool,
    amountPaid: bool, currency: bool, format: bool)

  const ALL_FIELDS := Projection(true, true, true, true, true, true, true, true)

  function Bit(on: bool, value: nat): nat {
    if on then value else 0
  }

  /** Four bits, highest first. */
  function Half(a: bool, b: bool, c: bool, d: bool): (h: nat)
    ensures h < 16
  {
    Bit(a, 8) + Bit(b, 4) + Bit(c, 2) + Bit(d, 1)
  }

  predicate HasBit8(h: nat) {
    h >= 8
  }

  predicate HasBit4(h: nat) {
    h - Bit(HasBit8(h), 8) >= 4
  }

  predicate HasBit2(h: nat) {
    h - Bit(HasBit8(h), 8) - Bit(HasBit4(h), 4) >= 2
  }

  predicate HasBit1(h: nat) {
    h - Bit(HasBit8(h), 8) - Bit(HasBit4(h), 4) - Bit(HasBit2(h), 2) >= 1
  }

  function HighHalf(b: nat): nat {
    b / 16
  }

  function LowHalf(b: nat): (h: nat)
    ensures h < 16
  {
    b % 16
  }

  function MaskByte(p: Projection): U8 {
    16 * Half(p.date, p.fromBank, p.fromAccount, p.toBank) + Half(p.toAccount, p.amountPaid, p.currency, p.format)
  }

  function ByteMask(b: U8): Projection {
    var high, low := HighHalf(b), LowHalf(b);
    Projection(HasBit8(high), HasBit4(high), HasBit2(high), HasBit1(high), HasBit8(low), HasBit4(low), HasBit2(low), HasBit1(low))
  }

  lemma HalfBits(a: bool, b: bool, c: bool, d: bool, h: nat)
    requires h < 16
    ensures var n := Half(a, b, c, d); HasBit8(n) == a && HasBit4(n) == b && HasBit2(n) == c && HasBit1(n) == d
    ensures Half(HasBit8(h), HasBit4(h), HasBit2(h), HasBit1(h)) == h
  {
  }

  lemma Halves(high: nat, low: nat, b: nat)
    requires low < 16
    ensures HighHalf(16 * high + low) == high && LowHalf(16 * high + low) == low
    ensures 16 * HighHalf(b) + LowHalf(b) == b && (b < 256 ==> HighHalf(b) < 16)
  {
  }

  /** The 256 masks and the 256 bytes are the same thing. */
  lemma MasksAreBytes(p: Projection, b: U8)
    ensures ByteMask(MaskByte(p)) == p && MaskByte(ByteMask(b)) == b
  {
    hide Half, HasBit8, HasBit4, HasBit2, HasBit1, HighHalf, LowHalf;
    Halves(Half(p.date, p.fromBank, p.fromAccount, p.toBank), Half(p.toAccount, p.amountPaid, p.currency, p.format), b);
    HalfBits(p.date, p.fromBank, p.fromAccount, p.toBank, HighHalf(b));
    HalfBits(p.toAccount, p.amountPaid, p.currency, p.format, LowHalf(b));
  }

  /** The fields two masks share: the bitwise and. */
  function Both(p: Projection, q: Projection): Projection {
    Projection(p.date && q.date, p.fromBank && q.fromBank, p.fromAccount && q.fromAccount, p.toBank && q.toBank,
               p.toAccount && q.toAccount, p.amountPaid && q.amountPaid, p.currency && q.currency, p.format && q.format)
  }

  function Keep<T>(on: bool, value: T, zero: T): T {
    if on then value else zero
  }

  /** What is left of a transaction under a mask. */
  function Masked(p: Projection, tx: Transaction): Transaction {
    Transaction(Keep(p.date, tx.date, 0), Keep(p.fromBank, tx.fromBank, 0), Keep(p.fromAccount, tx.fromAccount, []),
                Keep(p.toBank, tx.toBank, 0), Keep(p.toAccount, tx.toAccount, []), Keep(p.amountPaid, tx.amountPaid, 0),
                Keep(p.currency, tx.currency, []), Keep(p.format, tx.format, []))
  }

  /** A transaction that Projection.Apply changes through its pointer. */
  class Record {
    var tx: Transaction

    constructor (tx: Transaction)
      ensures this.tx == tx
    {
      this.tx := tx;
    }

    method Apply(p: Projection)
      modifies this
      ensures tx == Masked(p, old(tx))
    {
      if p == ALL_FIELDS {
        return;
      }
      if !p.date { tx := tx.(date := 0); }
      if !p.fromBank { tx := tx.(fromBank := 0); }
      if !p.fromAccount { tx := tx.(fromAccount := []); }
      if !p.toBank { tx := tx.(toBank := 0); }
      if !p.toAccount { tx := tx.(toAccount := []); }
      if !p.amountPaid { tx := tx.(amountPaid := 0); }
      if !p.currency { tx := tx.(currency := []); }
      if !p.format { tx := tx.(format := []); }
    }
  }

  /** Projecting twice keeps the fields both masks keep, and only the last mask has any say on a full one. */
  lemma MaskedTwice(p: Projection, q: Projection, tx: Transaction)
    ensures Masked(p, Masked(q, tx)) == Masked(Both(p, q), tx)
    ensures Masked(ALL_FIELDS, tx) == tx
  {
  }

  // ---- writing ----------------------------------------------------------------

  function U32Bytes(on: bool, v: U32): seq<Byte> {
    if on then EncodeBE(v, 4) else []
  }

  function U64Bytes(on: bool, v: U64): seq<Byte> {
    if on then EncodeBE(v, 8) else []
  }

  function TextBytes(on: bool, s: seq<Byte>): seq<Byte>
    requires on ==> |s| <= 255
  {
    if on then [|s|] + s else []
  }

  /** SerializeShortString refuses more than 255 bytes; fields that are left out are not looked at. */
  predicate Writable(tx: Transaction, p: Projection) {
    && (p.fromAccount ==> |tx.fromAccount| <= 255) && (p.toAccount ==> |tx.toAccount| <= 255)
    && (p.currency ==> |tx.currency| <= 255) && (p.format ==> |tx.format| <= 255)
  }

  /** The fields after the mask byte, from the amount on, then from the destination, then all. */
  function TailBytes(tx: Transaction, p: Projection): seq<Byte>
    requires Writable(tx, p)
  {
    U64Bytes(p.amountPaid, tx.amountPaid) + (TextBytes(p.currency, tx.currency) + TextBytes(p.format, tx.format))
  }

  function FieldBytes(tx: Transaction, p: Projection): seq<Byte>
    requires Writable(tx, p)
  {
    U32Bytes(p.date, tx.date) + (U32Bytes(p.fromBank, tx.fromBank) + (TextBytes(p.fromAccount, tx.fromAccount)
    + (U32Bytes(p.toBank, tx.toBank) + (TextBytes(p.toAccount, tx.toAccount) + TailBytes(tx, p)))))
  }

  function TransactionBytes(tx: Transaction, p: Projection): seq<Byte>
    requires Writable(tx, p)
  {
    [MaskByte(p)] + FieldBytes(tx, p)
  }

  method SerializeTransaction(tx: Transaction, p: Projection) returns (buf: Option<seq<Byte>>)
    ensures buf == if Writable(tx, p) then Some(TransactionBytes(tx, p)) else None
  {
    hide U32Bytes, U64Bytes, TextBytes, MaskByte;
    if !Writable(tx, p) {
      return None;
    }
    ghost var r5 := TailBytes(tx, p);
    ghost var r4 := TextBytes(p.toAccount, tx.toAccount) + r5;
    ghost var r3 := U32Bytes(p.toBank, tx.toBank) + r4;
    ghost var r2 := TextBytes(p.fromAccount, tx.fromAccount) + r3;
    ghost var r1 := U32Bytes(p.fromBank, tx.fromBank) + r2;
    var b: seq<Byte> := [MaskByte(p)];
    Reassociate(b, U32Bytes(p.date, tx.date), r1);
    b := b + U32Bytes(p.date, tx.date);
    Reassociate(b, U32Bytes(p.fromBank, tx.fromBank), r2);
    b := b + U32Bytes(p.fromBank, tx.fromBank);
    Reassociate(b, TextBytes(p.fromAccount, tx.fromAccount), r3);
    b := b + TextBytes(p.fromAccount, tx.fromAccount);
    Reassociate(b, U32Bytes(p.toBank, tx.toBank), r4);
    b := b + U32Bytes(p.toBank, tx.toBank);
    Reassociate(b, TextBytes(p.toAccount, tx.toAccount), r5);
    b := b + TextBytes(p.toAccount, tx.toAccount);
    Reassociate(b, U64Bytes(p.amountPaid, tx.amountPaid), TextBytes(p.currency, tx.currency) + TextBytes(p.format, tx.format));
    b := b + U64Bytes(p.amountPaid, tx.amountPaid);
    Reassociate(b, TextBytes(p.currency, tx.currency), TextBytes(p.format, tx.format));
    b := b + TextBytes(p.currency, tx.currency);
    b := b + TextBytes(p.format, tx.format);
    buf := Some(b);
  }

  // ---- reading ----------------------------------------------------------------

  /** A value and the bytes after it, or not enough bytes. */
  datatype Read<+T> = Got(value: T, rest: seq<Byte>) | Short {
    predicate IsFailure() {
      Short?
    }

    function PropagateFailure<U>(): Read<U>
      requires Short?
    {
      Short
    }

    function Extract(): (T, seq<Byte>)
      requires Got?
    {
      (value, rest)
    }
  }

  function ReadU32Field(on: bool, bs: seq<Byte>): Read<U32> {
    if !on then Got(0, bs) else if |bs| < 4 then Short else Got(ReadU32(bs[..4]), bs[4..])
  }

  function ReadU64Field(on: bool, bs: seq<Byte>): Read<U64> {
    if !on then Got(0, bs) else if |bs| < 8 then Short else Got(ReadU64(bs[..8]), bs[8..])
  }

  function ReadTextField(on: bool, bs: seq<Byte>): Read<seq<Byte>> {
    if !on then Got([], bs)
    else if |bs| < 1 then Short
    else
      var size: nat := bs[0];
      if |bs| < 1 + size then Short else Got(bs[1..1 + size], bs[1 + size..])
  }

  /** The fields up to the destination account, the others zero. */
  function ReadHead(p: Projection, bs: seq<Byte>): Read<Transaction> {
    var (date, b1) :- ReadU32Field(p.date, bs);
    var (fromBank, b2) :- ReadU32Field(p.fromBank, b1);
    var (fromAccount, b3) :- ReadTextField(p.fromAccount, b2);
    var (toBank, b4) :- ReadU32Field(p.toBank, b3);
    var (toAccount, b5) :- ReadTextField(p.toAccount, b4);
    Got(Transaction(date, fromBank, fromAccount, toBank, toAccount, 0, [], []), b5)
  }

  /** The amount and what follows it. */
  function ReadTail(p: Projection, head: Transaction, bs: seq<Byte>): Read<Transaction> {
    var (amountPaid, b1) :- ReadU64Field(p.amountPaid, bs);
    var (currency, b2) :- ReadTextField(p.currency, b1);
    var (format, b3) :- ReadTextField(p.format, b2);
    Got(head.(amountPaid := amountPaid, currency := currency, format := format), b3)
  }

  function ReadFields(p: Projection, bs: seq<Byte>): Read<Transaction> {
    var (head, rest) :- ReadHead(p, bs);
    ReadTail(p, head, rest)
  }

  function ReadTransaction(bs: seq<Byte>): Read<(Transaction, Projection)> {
    if |bs| < 1 then Short
    else
      var p := ByteMask(bs[0]);
      var (tx, rest) :- ReadFields(p, bs[1..]);
      Got((tx, p), rest)
  }

  lemma U32FieldReads(on: bool, v: U32, tail: seq<Byte>)
    ensures ReadU32Field(on, U32Bytes(on, v) + tail) == Got(Keep(on, v, 0), tail)
  {
    hide EncodeBE, ReadU32;
    WriteReads(0, v, 0);
    var bs := U32Bytes(on, v) + tail;
    if on {
      assert bs[..4] == EncodeBE(v, 4) && bs[4..] == tail;
    } else {
      assert bs == tail;
    }
  }

  lemma U64FieldReads(on: bool, v: U64, tail: seq<Byte>)
    ensures ReadU64Field(on, U64Bytes(on, v) + tail) == Got(Keep(on, v, 0), tail)
  {
    hide EncodeBE, ReadU64;
    WriteReads(0, 0, v);
    var bs := U64Bytes(on, v) + tail;
    if on {
      assert bs[..8] == EncodeBE(v, 8) && bs[8..] == tail;
    } else {
      assert bs == tail;
    }
  }

  lemma TextFieldReads(on: bool, s: seq<Byte>, tail: seq<Byte>)
    requires on ==> |s| <= 255
    ensures ReadTextField(on, TextBytes(on, s) + tail) == Got(Keep(on, s, []), tail)
  {
    var bs := TextBytes(on, s) + tail;
    if on {
      assert bs[1..1 + |s|] == s && bs[1 + |s|..] == tail;
    } else {
      assert bs == tail;
    }
  }

  lemma TailReads(tx: Transaction, p: Projection, tail: seq<Byte>)
    requires Writable(tx, p)
    ensures var b6 := TextBytes(p.currency, tx.currency) + TextBytes(p.format, tx.format) + tail;
      && ReadU64Field(p.amountPaid, TailBytes(tx, p) + tail) == Got(Keep(p.amountPaid, tx.amountPaid, 0), b6)
      && ReadTextField(p.currency, b6) == Got(Keep(p.currency, tx.currency, []), TextBytes(p.format, tx.format) + tail)
      && ReadTextField(p.format, TextBytes(p.format, tx.format) + tail) == Got(Keep(p.format, tx.format, []), tail)
  {
    hide U64Bytes, TextBytes, ReadU64Field, ReadTextField;
    var c, f := TextBytes(p.currency, tx.currency), TextBytes(p.format, tx.format);
    Reassociate(U64Bytes(p.amountPaid, tx.amountPaid), c + f, tail);
    Reassociate(c, f, tail);
    U64FieldReads(p.amountPaid, tx.amountPaid, c + f + tail);
    TextFieldReads(p.currency, tx.currency, f + tail);
    TextFieldReads(p.format, tx.format, tail);
  }

  lemma HeadReads(tx: Transaction, p: Projection, tail: seq<Byte>)
    requires Writable(tx, p)
    ensures ReadHead(p, FieldBytes(tx, p) + tail) ==
      Got(Masked(p, tx).(amountPaid := 0, currency := [], format := []), TailBytes(tx, p) + tail)
  {
    hide U32Bytes, TextBytes, TailBytes, ReadU32Field, ReadTextField;
    var r5 := TailBytes(tx, p);
    var r4 := TextBytes(p.toAccount, tx.toAccount) + r5;
    var r3 := U32Bytes(p.toBank, tx.toBank) + r4;
    var r2 := TextBytes(p.fromAccount, tx.fromAccount) + r3;
    var r1 := U32Bytes(p.fromBank, tx.fromBank) + r2;
    Reassociate(U32Bytes(p.date, tx.date), r1, tail);
    Reassociate(U32Bytes(p.fromBank, tx.fromBank), r2, tail);
    Reassociate(TextBytes(p.fromAccount, tx.fromAccount), r3, tail);
    Reassociate(U32Bytes(p.toBank, tx.toBank), r4, tail);
    Reassociate(TextBytes(p.toAccount, tx.toAccount), r5, tail);
    U32FieldReads(p.date, tx.date, r1 + tail);
    U32FieldReads(p.fromBank, tx.fromBank, r2 + tail);
    TextFieldReads(p.fromAccount, tx.fromAccount, r3 + tail);
    U32FieldReads(p.toBank, tx.toBank, r4 + tail);
    TextFieldReads(p.toAccount, tx.toAccount, r5 + tail);
  }

  lemma FieldsRead(tx: Transaction, p: Projection, tail: seq<Byte>)
    requires Writable(tx, p)
    ensures ReadFields(p, FieldBytes(tx, p) + tail) == Got(Masked(p, tx), tail)
  {
    hide FieldBytes, TailBytes, TextBytes, ReadHead, ReadU64Field, ReadTextField;
    HeadReads(tx, p, tail);
    TailReads(tx, p, tail);
  }

  /** For every mask: what was written is read back masked, with its mask, and nothing after it is touched. */
  lemma TransactionReads(tx: Transaction, p: Projection, tail: seq<Byte>)
    requires Writable(tx, p)
    ensures ReadTransaction(TransactionBytes(tx, p) + tail) == Got((Masked(p, tx), p), tail)
  {
    hide FieldBytes, ReadFields, MaskByte, ByteMask;
    MasksAreBytes(p, 0);
    FieldsRead(tx, p, tail);
    var bs := TransactionBytes(tx, p) + tail;
    assert bs[0] == MaskByte(p) && bs[1..] == FieldBytes(tx, p) + tail;
  }

  // ---- what was read writes back ------------------------------------------------

  lemma U32FieldWrites(on: bool, bs: seq<Byte>)
    requires ReadU32Field(on, bs).Got?
    ensures var r := ReadU32Field(on, bs); U32Bytes(on, r.value) + r.rest == bs && (!on ==> r.value == 0)
  {
    hide EncodeBE, ReadU32;
    if on {
      ReadWrites([0, 0], bs[..4], [0, 0, 0, 0, 0, 0, 0, 0]);
      assert bs[..4] + bs[4..] == bs;
    }
  }

  lemma U64FieldWrites(on: bool, bs: seq<Byte>)
    requires ReadU64Field(on, bs).Got?
    ensures var r := ReadU64Field(on, bs); U64Bytes(on, r.value) + r.rest == bs && (!on ==> r.value == 0)
  {
    hide EncodeBE, ReadU64;
    if on {
      ReadWrites([0, 0], [0, 0, 0, 0], bs[..8]);
      assert bs[..8] + bs[8..] == bs;
    }
  }

  lemma TextFieldWrites(on: bool, bs: seq<Byte>)
    requires ReadTextField(on, bs).Got?
    ensures var r := ReadTextField(on, bs);
      (on ==> |r.value| <= 255) && TextBytes(on, r.value) + r.rest == bs && (!on ==> r.value == [])
  {
    if on {
      var size: nat := bs[0];
      assert [bs[0]] + bs[1..1 + size] + bs[1 + size..] == bs;
    }
  }

  lemma HeadWrites(p: Projection, bs: seq<Byte>)
    requires ReadHead(p, bs).Got?
    ensures var tx, rest := ReadHead(p, bs).value, ReadHead(p, bs).rest;
      && Writable(tx, p) && Masked(p, tx) == tx
      && tx.amountPaid == 0 && tx.currency == tx.format == []
      && U32Bytes(p.date, tx.date) + (U32Bytes(p.fromBank, tx.fromBank) + (TextBytes(p.fromAccount, tx.fromAccount)
         + (U32Bytes(p.toBank, tx.toBank) + (TextBytes(p.toAccount, tx.toAccount) + rest)))) == bs
  {
    hide U32Bytes, TextBytes, ReadU32Field, ReadTextField;
    U32FieldWrites(p.date, bs);
    var b1 := ReadU32Field(p.date, bs).rest;
    U32FieldWrites(p.fromBank, b1);
    var b2 := ReadU32Field(p.fromBank, b1).rest;
    TextFieldWrites(p.fromAccount, b2);
    var b3 := ReadTextField(p.fromAccount, b2).rest;
    U32FieldWrites(p.toBank, b3);
    var b4 := ReadU32Field(p.toBank, b3).rest;
    TextFieldWrites(p.toAccount, b4);
  }

  lemma TailWrites(p: Projection, head: Transaction, bs: seq<Byte>)
    requires ReadTail(p, head, bs).Got? && Writable(head, p) && Masked(p, head) == head
    ensures var tx, rest := ReadTail(p, head, bs).value, ReadTail(p, head, bs).rest;
      && Writable(tx, p) && Masked(p, tx) == tx
      && tx == head.(amountPaid := tx.amountPaid, currency := tx.currency, format := tx.format)
      && TailBytes(tx, p) + rest == bs
  {
    hide U64Bytes, TextBytes, ReadU64Field, ReadTextField;
    U64FieldWrites(p.amountPaid, bs);
    var b1 := ReadU64Field(p.amountPaid, bs).rest;
    TextFieldWrites(p.currency, b1);
    var b2 := ReadTextField(p.currency, b1).rest;
    TextFieldWrites(p.format, b2);
    var tx, rest := ReadTail(p, head, bs).value, ReadTail(p, head, bs).rest;
    var a, c, f := U64Bytes(p.amountPaid, tx.amountPaid), TextBytes(p.currency, tx.currency), TextBytes(p.format, tx.format);
    Reassociate(a, c + f, rest);
    Reassociate(c, f, rest);
  }

  /** Writing back the fields of the tail behind those of the head. */
  lemma FieldsJoin(tx: Transaction, p: Projection, rest: seq<Byte>)
    requires Writable(tx, p)
    ensures FieldBytes(tx, p) + rest ==
      U32Bytes(p.date, tx.date) + (U32Bytes(p.fromBank, tx.fromBank) + (TextBytes(p.fromAccount, tx.fromAccount)
      + (U32Bytes(p.toBank, tx.toBank) + (TextBytes(p.toAccount, tx.toAccount) + (TailBytes(tx, p) + rest)))))
  {
    hide U32Bytes, TextBytes, TailBytes;
    var r5 := TailBytes(tx, p);
    var r4 := TextBytes(p.toAccount, tx.toAccount) + r5;
    var r3 := U32Bytes(p.toBank, tx.toBank) + r4;
    var r2 := TextBytes(p.fromAccount, tx.fromAccount) + r3;
    var r1 := U32Bytes(p.fromBank, tx.fromBank) + r2;
    Reassociate(U32Bytes(p.date, tx.date), r1, rest);
    Reassociate(U32Bytes(p.fromBank, tx.fromBank), r2, rest);
    Reassociate(TextBytes(p.fromAccount, tx.fromAccount), r3, rest);
    Reassociate(U32Bytes(p.toBank, tx.toBank), r4, rest);
    Reassociate(TextBytes(p.toAccount, tx.toAccount), r5, rest);
  }

  /** Whatever bytes are accepted: the transaction read can be written under its mask, and that gives back the bytes read. */
  lemma TransactionWrites(bs: seq<Byte>)
    requires ReadTransaction(bs).Got?
    ensures var tx, p := ReadTransaction(bs).value.0, ReadTransaction(bs).value.1;
      Writable(tx, p) && Masked(p, tx) == tx && TransactionBytes(tx, p) + ReadTransaction(bs).rest == bs
  {
    hide ReadHead, ReadTail, FieldBytes, TailBytes, U32Bytes, TextBytes, Masked, MaskByte, ByteMask;
    var p := ByteMask(bs[0]);
    MasksAreBytes(p, bs[0]);
    HeadWrites(p, bs[1..]);
    var head := ReadHead(p, bs[1..]);
    TailWrites(p, head.value, head.rest);
    var tx, rest := ReadTransaction(bs).value.0, ReadTransaction(bs).rest;
    FieldsJoin(tx, p, rest);
    assert [bs[0]] + bs[1..] == bs;
    Reassociate([MaskByte(p)], FieldBytes(tx, p), rest);
  }

  // ---- projecting an encoded transaction ----------------------------------------

  /** filter.project; without a projection the payload passes as it came. */
  function Project(tx: Transaction, proj: Option<Projection>, original: seq<Byte>, inMask: Projection): Option<seq<Byte>> {
    if proj.None? then Some(original)
    else
      var mask := Both(inMask, proj.value);
      if Writable(tx, mask) then Some(TransactionBytes(tx, mask)) else None
  }

  lemma MaskedIsWritable(tx: Transaction, p: Projection, q: Projection)
    requires Writable(tx, p)
    ensures Writable(Masked(p, tx), Both(p, q)) && Writable(tx, Both(p, q))
    ensures Masked(Both(p, q), Masked(p, tx)) == Masked(Both(p, q), tx)
  {
  }

  /**
   A filter's projection of an encoded transaction never fails and leaves the fields both
   masks keep; a filter without one passes the payload on byte for byte.
   */
  lemma ProjectedOnce(tx: Transaction, p: Projection, q: Projection)
    requires Writable(tx, p)
    ensures var out := Project(Masked(p, tx), Some(q), TransactionBytes(tx, p), p);
      out.Some? && Writable(tx, Both(p, q)) && out == Some(TransactionBytes(Masked(p, tx), Both(p, q)))
      && ReadTransaction(out.value) == Got((Masked(Both(p, q), tx), Both(p, q)), [])
    ensures Project(Masked(p, tx), None, TransactionBytes(tx, p), p) == Some(TransactionBytes(tx, p))
  {
    MaskedIsWritable(tx, p, q);
    hide ReadTransaction, TransactionBytes, Masked, Both, Writable;
    NothingAfter(Masked(p, tx), Both(p, q));
  }

  /** Two filters in a row leave the fields that the transaction has and both keep. */
  lemma ProjectedTwice(tx: Transaction, p: Projection, q: Projection, r: Projection)
    requires Writable(tx, p) && Writable(tx, Both(p, q))
    ensures
      var twice := Project(Masked(Both(p, q), tx), Some(r), TransactionBytes(tx, Both(p, q)), Both(p, q));
      twice.Some? && ReadTransaction(twice.value) == Got((Masked(Both(p, Both(q, r)), tx), Both(p, Both(q, r))), [])
  {
    assert Both(Both(p, q), r) == Both(p, Both(q, r));
    hide ReadTransaction, TransactionBytes, Masked, Both, Writable, Project;
    ProjectedOnce(tx, Both(p, q), r);
  }

  lemma NothingAfter(tx: Transaction, p: Projection)
    requires Writable(tx, p)
    ensures ReadTransaction(TransactionBytes(tx, p)) == Got((Masked(p, tx), p), [])
  {
    TransactionReads(tx, p, []);
    assert TransactionBytes(tx, p) + [] == TransactionBytes(tx, p);
  }

  // ---- batches ----------------------------------------------------------------

  ghost predicate AllWritable(txs: seq<Transaction>) {
    forall i :: 0 <= i < |txs| ==> Writable(txs[i], ALL_FIELDS)
  }

  function ListBytes(txs: seq<Transaction>): seq<Byte>
    requires AllWritable(txs)
  {
    if txs == [] then [] else TransactionBytes(txs[0], ALL_FIELDS) + ListBytes(txs[1..])
  }

  function BatchBytes(txs: seq<Transaction>): seq<Byte>
    requires AllWritable(txs)
  {
    EncodeBE(|txs| % U32_SIZE, 4) + ListBytes(txs)
  }

  function ReadList(n: nat, bs: seq<Byte>): Read<seq<Transaction>> {
    if n == 0 then Got([], bs)
    else
      var (first, b1) :- ReadTransaction(bs);
      var (more, b2) :- ReadList(n - 1, b1);
      Got([first.0] + more, b2)
  }

  function ReadBatch(bs: seq<Byte>): Read<seq<Transaction>> {
    if |bs| < 4 then Short else ReadList(ReadU32(bs[..4]), bs[4..])
  }

  lemma {:induction false} ListReads(txs: seq<Transaction>, tail: seq<Byte>)
    requires AllWritable(txs)
    ensures ReadList(|txs|, ListBytes(txs) + tail) == Got(txs, tail)
    decreases txs
  {
    hide ReadTransaction, TransactionBytes;
    if txs == [] {
      assert ListBytes(txs) + tail == tail;
    } else {
      var rest := ListBytes(txs[1..]);
      Reassociate(TransactionBytes(txs[0], ALL_FIELDS), rest, tail);
      TransactionReads(txs[0], ALL_FIELDS, rest + tail);
      MaskedTwice(ALL_FIELDS, ALL_FIELDS, txs[0]);
      ListReads(txs[1..], tail);
      assert [txs[0]] + txs[1..] == txs;
    }
  }

  /** Transactions delimit themselves: a batch is read back whole, and ends where it ends. */
  lemma BatchReads(txs: seq<Transaction>, tail: seq<Byte>)
    requires AllWritable(txs) && |txs| < U32_SIZE
    ensures ReadBatch(BatchBytes(txs) + tail) == Got(txs, tail)
  {
    hide EncodeBE, ReadU32, ListBytes, ReadList;
    WriteReads(0, |txs|, 0);
    var bs := BatchBytes(txs) + tail;
    assert bs[..4] == EncodeBE(|txs|, 4) && bs[4..] == ListBytes(txs) + tail;
    ListReads(txs, tail);
  }

  // ---- the reader, advanced field by field --------------------------------------

  class Reader {
    var rest: seq<Byte>

    constructor (data: seq<Byte>)
      ensures rest == data
    {
      rest := data;
    }

    /** safeio.ReadAll; what remains after a short read is of no use to anyone. */
    method ReadAll(n: nat) returns (r: Option<seq<Byte>>)
      modifies this
      ensures if |old(rest)| < n then r == None else r == Some(old(rest)[..n]) && rest == old(rest)[n..]
    {
      if |rest| < n {
        rest := [];
        return None;
      }
      r := Some(rest[..n]);
      rest := rest[n..];
    }

    ghost predicate Gives<T>(r: Option<T>, spec: Read<T>)
      reads this
    {
      match spec
      case Short => r == None
      case Got(v, after) => r == Some(v) && rest == after
    }

    method ReadNumber(on: bool) returns (r: Option<U32>)
      modifies this
      ensures Gives(r, ReadU32Field(on, old(rest)))
    {
      if !on {
        return Some(0);
      }
      var bytes := ReadAll(4);
      r := if bytes.None? then None else Some(ReadU32(bytes.value));
    }

    method ReadAmount(on: bool) returns (r: Option<U64>)
      modifies this
      ensures Gives(r, ReadU64Field(on, old(rest)))
    {
      if !on {
        return Some(0);
      }
      var bytes := ReadAll(8);
      r := if bytes.None? then None else Some(ReadU64(bytes.value));
    }

    /** readShortString, if the mask asks for the field. */
    method ReadText(on: bool) returns (r: Option<seq<Byte>>)
      modifies this
      ensures Gives(r, ReadTextField(on, old(rest)))
    {
      if !on {
        return Some([]);
      }
      ghost var before := rest;
      var size := ReadAll(1);
      if size.None? {
        return None;
      }
      if size.value[0] == 0 {
        assert before[1..1] == [];
        return Some([]);
      }
      r := ReadAll(size.value[0]);
      if r.Some? {
        var n: nat := size.value[0];
        assert before[1..][n..] == before[1 + n..] && before[1..][..n] == before[1..1 + n];
      }
    }

    method DeserializeHead(p: Projection) returns (r: Option<Transaction>)
      modifies this
      ensures Gives(r, ReadHead(p, old(rest)))
    {
      hide ReadU32Field, ReadTextField;
      var date := ReadNumber(p.date);
      if date.None? { return None; }
      var fromBank := ReadNumber(p.fromBank);
      if fromBank.None? { return None; }
      var fromAccount := ReadText(p.fromAccount);
      if fromAccount.None? { return None; }
      var toBank := ReadNumber(p.toBank);
      if toBank.None? { return None; }
      var toAccount := ReadText(p.toAccount);
      if toAccount.None? { return None; }
      r := Some(Transaction(date.value, fromBank.value, fromAccount.value, toBank.value, toAccount.value, 0, [], []));
    }

    method DeserializeTail(p: Projection, head: Transaction) returns (r: Option<Transaction>)
      modifies this
      ensures Gives(r, ReadTail(p, head, old(rest)))
    {
      hide ReadU64Field, ReadTextField;
      var amountPaid := ReadAmount(p.amountPaid);
      if amountPaid.None? { return None; }
      var currency := ReadText(p.currency);
      if currency.None? { return None; }
      var format := ReadText(p.format);
      if format.None? { return None; }
      r := Some(head.(amountPaid := amountPaid.value, currency := currency.value, format := format.value));
    }

    /** deserializeTransaction. */
    method DeserializeTransaction() returns (r: Option<(Transaction, Projection)>)
      modifies this
      ensures Gives(r, ReadTransaction(old(rest)))
    {
      hide ReadHead, ReadTail, ByteMask;
      var mask := ReadAll(1);
      if mask.None? { return None; }
      var p := ByteMask(mask.value[0]);
      var head := DeserializeHead(p);
      if head.None? { return None; }
      var tx := DeserializeTail(p, head.value);
      if tx.None? { return None; }
      r := Some((tx.value, p));
    }

    method ReadTransactionBatch() returns (r: Option<seq<Transaction>>)
      modifies this
      ensures Gives(r, ReadBatch(old(rest)))
    {
      hide ReadTransaction;
      var count := ReadAll(4);
      if count.None? { return None; }
      var n := ReadU32(count.value);
      ghost var start := rest;
      var txs: seq<Transaction> := [];
      NothingPrefixed(ReadList(n, start));
      for i := 0 to n
        invariant Prefixed(txs, ReadList(n - i, rest)) == ReadList(n, start)
      {
        OneMore(n - i, rest, txs);
        var tx := DeserializeTransaction();
        if tx.None? { return None; }
        txs := txs + [tx.value.0];
      }
      assert txs + [] == txs;
      r := Some(txs);
    }
  }

  function Prefixed(txs: seq<Transaction>, more: Read<seq<Transaction>>): Read<seq<Transaction>> {
    match more
    case Short => Short
    case Got(ts, rest) => Got(txs + ts, rest)
  }

  lemma NothingPrefixed(more: Read<seq<Transaction>>)
    ensures Prefixed([], more) == more
  {
    assert more.Got? ==> [] + more.value == more.value;
  }

  lemma OneMore(n: nat, bs: seq<Byte>, txs: seq<Transaction>)
    requires n > 0
    ensures match ReadTransaction(bs) {
        case Short => ReadList(n, bs) == Short
        case Got(v, rest) => Prefixed(txs, ReadList(n, bs)) == Prefixed(txs + [v.0], ReadList(n - 1, rest))
      }
  {
    hide ReadTransaction;
    var first := ReadTransaction(bs);
    if first.Got? {
      var more := ReadList(n - 1, first.rest);
      if more.Got? {
        assert txs + ([first.value.0] + more.value) == (txs + [first.value.0]) + more.value;
      }
    }
  }
}
