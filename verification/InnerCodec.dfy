/**
 The internal wire format: a variable-length header and four kinds of message
 (src/common/messageprotocol/inner/inner.go, messages.go). A client id is its 16 bytes.
 */
module InnerCodec {
  import opened Common
  import opened Bytes

  const CLIENT_ID_SIZE: nat := 16
  const MIN_HEADER_SIZE: nat := 34

  type ClientID = s: seq<Byte> | |s| == CLIENT_ID_SIZE witness seq(CLIENT_ID_SIZE, _ => 0)
  type I32 = x: int | -0x8000_0000 <= x < 0x8000_0000

  datatype Header = Header(
    gatewayID: int, clientID: ClientID, seqID: U64,
    senderStageType: U8, senderReplicaID: U16, minterStageType: U8, minterReplicaID: U16,
    branchPath: seq<U8>)

  datatype Item = Item(queryID: U8, payload: seq<Byte>)

  datatype Message =
    | Batch(header: Header, itemKind: U8, items: seq<Item>)
    | EOF(header: Header, queryID: U8, total: U32)
    | RingToken(header: Header, initiatorID: I32, aggMatched: U64, aggNotMatched: U64, phase: U8)
    | ClientAborted(header: Header)

  datatype CodecError = Malformed | UnexpectedKind | TooManyItems | UnsupportedItemKind

  const BATCH: U8 := 1
  const END: U8 := 2
  const TOKEN: U8 := 3
  const ABORTED: U8 := 4

  const FIRST_ITEM_KIND: U8 := 1
  const LAST_ITEM_KIND: U8 := 16

  predicate ValidBatchItemKind(kind: U8) {
    FIRST_ITEM_KIND <= kind <= LAST_ITEM_KIND
  }

  // ---- integers on the wire ---------------------------------------------------

  /** The conversions between int32 and uint32, and from int to uint16. */
  function ToUnsigned(x: I32): U32 {
    if x < 0 then x + U32_SIZE else x
  }

  function ToSigned(u: U32): I32 {
    if u >= 0x8000_0000 then u - U32_SIZE else u
  }

  function Low16(x: int): (w: U16)
    ensures 0 <= x < U16_SIZE <==> w == x
  {
    if 0 <= x < U16_SIZE then x else x % U16_SIZE
  }

  // ---- the header -------------------------------------------------------------

  predicate ValidHeader(h: Header, kind: U8) {
    h.senderStageType != 0 && (kind == ABORTED || h.seqID != 0)
  }

  /** The first 33 bytes. */
  function FixedHeader(kind: U8, h: Header): (bs: seq<Byte>)
    ensures |bs| == MIN_HEADER_SIZE - 1
  {
    [kind] + EncodeBE(Low16(h.gatewayID), 2) + h.clientID + EncodeBE(h.seqID, 8)
    + [h.senderStageType] + EncodeBE(h.senderReplicaID, 2) + [h.minterStageType] + EncodeBE(h.minterReplicaID, 2)
  }

  function HeaderBytes(kind: U8, h: Header): Result<seq<Byte>, CodecError> {
    if |h.branchPath| > 0xFF then Err(Malformed)
    else Ok(FixedHeader(kind, h) + [|h.branchPath|] + h.branchPath)
  }

  datatype Parsed = Parsed(kind: U8, header: Header, body: seq<Byte>)

  function ParseHeader(data: seq<Byte>): Result<Parsed, CodecError> {
    if |data| < MIN_HEADER_SIZE then Err(Malformed)
    else
      var size := MIN_HEADER_SIZE + data[33];
      if |data| < size then Err(Malformed)
      else
        var h := Header(ReadU16(data[1..3]), data[3..19], ReadU64(data[19..27]), data[27], ReadU16(data[28..30]),
                        data[30], ReadU16(data[31..33]), data[MIN_HEADER_SIZE..size]);
        if !ValidHeader(h, data[0]) then Err(Malformed) else Ok(Parsed(data[0], h, data[size..]))
  }

  lemma FixedFields(kind: U8, h: Header, tail: seq<Byte>)
    ensures var d := FixedHeader(kind, h) + tail;
      && d[0] == kind && d[1..3] == EncodeBE(Low16(h.gatewayID), 2) && d[3..19] == h.clientID
      && d[19..27] == EncodeBE(h.seqID, 8) && d[27] == h.senderStageType && d[28..30] == EncodeBE(h.senderReplicaID, 2)
      && d[30] == h.minterStageType && d[31..33] == EncodeBE(h.minterReplicaID, 2) && d[33..] == tail
  {
    hide EncodeBE;
  }

  /**
   A written header is read back as it was, up to the 16 bits of the gateway id, if it names a
   sender stage and has a sequence number or announces an abort; otherwise it is refused.
   */
  lemma HeaderReads(kind: U8, h: Header, body: seq<Byte>)
    requires HeaderBytes(kind, h).Ok?
    ensures var read := h.(gatewayID := Low16(h.gatewayID));
      ParseHeader(HeaderBytes(kind, h).value + body) ==
        if h.senderStageType != 0 && (kind == ABORTED || h.seqID != 0) then Ok(Parsed(kind, read, body)) else Err(Malformed)
  {
    var d := HeaderBytes(kind, h).value + body;
    var tail := [|h.branchPath|] + h.branchPath + body;
    assert d == FixedHeader(kind, h) + tail;
    FixedFields(kind, h, tail);
    WriteReads(Low16(h.gatewayID), 0, h.seqID);
    WriteReads(h.senderReplicaID, 0, 0);
    WriteReads(h.minterReplicaID, 0, 0);
    hide FixedHeader, EncodeBE, ReadU16, ReadU64;
    assert d[33] == tail[0];
    var size := MIN_HEADER_SIZE + |h.branchPath|;
    assert d[MIN_HEADER_SIZE..size] == tail[1..1 + |h.branchPath|] == h.branchPath;
    assert d[size..] == tail[1 + |h.branchPath|..] == body;
  }

  /** Whatever header is read is written back byte for byte. */
  lemma HeaderWrites(data: seq<Byte>)
    requires ParseHeader(data).Ok?
    ensures var p := ParseHeader(data).value;
      HeaderBytes(p.kind, p.header).Ok? && HeaderBytes(p.kind, p.header).value + p.body == data
  {
    hide EncodeBE, ReadU16, ReadU64;
    var p := ParseHeader(data).value;
    var zeros4, zeros8 := seq(4, _ => 0), seq(8, _ => 0);
    ReadWrites(data[1..3], zeros4, data[19..27]);
    ReadWrites(data[28..30], zeros4, zeros8);
    ReadWrites(data[31..33], zeros4, zeros8);
    assert FixedHeader(p.kind, p.header) == data[..33];
    assert data == data[..33] + [data[33]] + p.header.branchPath + p.body;
  }

  // ---- items ------------------------------------------------------------------

  function ItemBytes(item: Item): seq<Byte> {
    [item.queryID] + EncodeBE(|item.payload| % U32_SIZE, 4) + item.payload
  }

  function ItemsBytes(items: seq<Item>): seq<Byte> {
    if items == [] then [] else ItemBytes(items[0]) + ItemsBytes(items[1..])
  }

  /** n items and nothing else. */
  function ParseItems(n: nat, body: seq<Byte>): Result<seq<Item>, CodecError> {
    if n == 0 then (if body == [] then Ok([]) else Err(Malformed))
    else if |body| < 5 then Err(Malformed)
    else
      var size := ReadU32(body[1..5]);
      if |body| < 5 + size then Err(Malformed)
      else
        match ParseItems(n - 1, body[5 + size..])
        case Err(e) => Err(e)
        case Ok(rest) => Ok([Item(body[0], body[5..5 + size])] + rest)
  }

  /** A payload's length has 32 bits. */
  predicate PayloadsFit(items: seq<Item>) {
    forall i :: 0 <= i < |items| ==> |items[i].payload| < U32_SIZE
  }

  lemma ItemReads(item: Item, tail: seq<Byte>)
    requires |item.payload| < U32_SIZE
    ensures var d := ItemBytes(item) + tail;
      && |d| >= 5 && d[0] == item.queryID && ReadU32(d[1..5]) == |item.payload| && |d| >= 5 + |item.payload|
      && d[5..5 + |item.payload|] == item.payload && d[5 + |item.payload|..] == tail
  {
    hide EncodeBE, ReadU32;
    WriteReads(0, |item.payload|, 0);
    var d := ItemBytes(item) + tail;
    assert d[1..5] == EncodeBE(|item.payload|, 4);
    assert d[5..5 + |item.payload|] == item.payload;
    assert d[5 + |item.payload|..] == tail;
  }

  lemma {:induction false} ItemsRead(items: seq<Item>)
    requires PayloadsFit(items)
    ensures ParseItems(|items|, ItemsBytes(items)) == Ok(items)
  {
    hide ItemBytes, ReadU32;
    if items != [] {
      ItemsRead(items[1..]);
      ItemReads(items[0], ItemsBytes(items[1..]));
      assert items == [items[0]] + items[1..];
    }
  }

  lemma NoItemsFit()
    ensures PayloadsFit([]) && ItemsBytes([]) == []
  {
  }

  lemma ItemFirst(item: Item, more: seq<Item>)
    requires PayloadsFit(more) && |item.payload| < U32_SIZE
    ensures PayloadsFit([item] + more) && ItemsBytes([item] + more) == ItemBytes(item) + ItemsBytes(more)
  {
    assert ([item] + more)[1..] == more;
  }

  lemma {:induction false} ItemsWrite(n: nat, body: seq<Byte>)
    requires ParseItems(n, body).Ok?
    ensures var items := ParseItems(n, body).value;
      |items| == n && PayloadsFit(items) && ItemsBytes(items) == body
  {
    hide ItemBytes, ReadU32, PayloadsFit, ItemsBytes;
    NoItemsFit();
    if n > 0 {
      var size := ReadU32(body[1..5]);
      ItemWrites(body, size);
      ItemsWrite(n - 1, body[5 + size..]);
      ItemFirst(Item(body[0], body[5..5 + size]), ParseItems(n - 1, body[5 + size..]).value);
      assert body == body[..5 + size] + body[5 + size..];
    }
  }

  lemma ItemWrites(body: seq<Byte>, size: nat)
    requires 5 + size <= |body| && size == ReadU32(body[1..5])
    ensures ItemBytes(Item(body[0], body[5..5 + size])) == body[..5 + size]
  {
    hide EncodeBE, ReadU32;
    ReadWrites([0, 0], body[1..5], [0, 0, 0, 0, 0, 0, 0, 0]);
    assert body[..5 + size] == [body[0]] + body[1..5] + body[5..5 + size];
  }

  // ---- messages ---------------------------------------------------------------

  function KindOf(m: Message): U8 {
    match m
    case Batch(_, _, _) => BATCH
    case EOF(_, _, _) => END
    case RingToken(_, _, _, _, _) => TOKEN
    case ClientAborted(_) => ABORTED
  }

  function BodyOf(m: Message): seq<Byte> {
    match m
    case Batch(_, kind, items) => [kind] + EncodeBE(|items| % U16_SIZE, 2) + ItemsBytes(items)
    case EOF(_, queryID, total) => [queryID] + EncodeBE(total, 4)
    case RingToken(_, initiator, matched, notMatched, phase) =>
      EncodeBE(ToUnsigned(initiator), 4) + EncodeBE(matched, 8) + EncodeBE(notMatched, 8) + [phase]
    case ClientAborted(_) => []
  }

  function Encode(m: Message): Result<seq<Byte>, CodecError> {
    if m.Batch? && |m.items| > 0xFFFF then Err(TooManyItems)
    else if m.Batch? && !ValidBatchItemKind(m.itemKind) then Err(UnsupportedItemKind)
    else
      match HeaderBytes(KindOf(m), m.header)
      case Err(e) => Err(e)
      case Ok(head) => Ok(head + BodyOf(m))
  }

  function ParseBody(p: Parsed): Result<Message, CodecError> {
    var b := p.body;
    if p.kind == BATCH then
      if |b| < 3 || !ValidBatchItemKind(b[0]) then Err(Malformed)
      else
        match ParseItems(ReadU16(b[1..3]), b[3..])
        case Err(e) => Err(e)
        case Ok(items) => Ok(Batch(p.header, b[0], items))
    else if p.kind == END then
      if |b| != 5 then Err(Malformed) else Ok(EOF(p.header, b[0], ReadU32(b[1..5])))
    else if p.kind == TOKEN then
      if |b| != 21 then Err(Malformed)
      else Ok(RingToken(p.header, ToSigned(ReadU32(b[0..4])), ReadU64(b[4..12]), ReadU64(b[12..20]), b[20]))
    else if p.kind == ABORTED then
      if |b| != 0 then Err(Malformed) else Ok(ClientAborted(p.header))
    else Err(UnexpectedKind)
  }

  function Decode(data: seq<Byte>): Result<Message, CodecError> {
    match ParseHeader(data)
    case Err(e) => Err(e)
    case Ok(p) => ParseBody(p)
  }

  predicate LengthsFit(m: Message) {
    m.Batch? ==> PayloadsFit(m.items)
  }

  lemma BatchReads(h: Header, kind: U8, items: seq<Item>)
    requires ValidBatchItemKind(kind) && |items| <= 0xFFFF && PayloadsFit(items)
    ensures ParseBody(Parsed(BATCH, h, BodyOf(Batch(h, kind, items)))) == Ok(Batch(h, kind, items))
  {
    hide EncodeBE, ReadU16, ItemsBytes, ParseItems;
    WriteReads(|items|, 0, 0);
    ItemsRead(items);
    var b := BodyOf(Batch(h, kind, items));
    assert b[1..3] == EncodeBE(|items|, 2) && b[3..] == ItemsBytes(items);
  }

  lemma EofReads(h: Header, queryID: U8, total: U32)
    ensures ParseBody(Parsed(END, h, BodyOf(EOF(h, queryID, total)))) == Ok(EOF(h, queryID, total))
  {
    hide EncodeBE, ReadU32;
    WriteReads(0, total, 0);
    assert BodyOf(EOF(h, queryID, total))[1..5] == EncodeBE(total, 4);
  }

  lemma TokenReads(h: Header, initiator: I32, matched: U64, notMatched: U64, phase: U8)
    ensures var m := RingToken(h, initiator, matched, notMatched, phase);
      ParseBody(Parsed(TOKEN, h, BodyOf(m))) == Ok(m)
  {
    hide EncodeBE, ReadU32, ReadU64;
    WriteReads(0, ToUnsigned(initiator), matched);
    WriteReads(0, 0, notMatched);
    var b := BodyOf(RingToken(h, initiator, matched, notMatched, phase));
    assert b[0..4] == EncodeBE(ToUnsigned(initiator), 4);
    assert b[4..12] == EncodeBE(matched, 8);
    assert b[12..20] == EncodeBE(notMatched, 8);
  }

  lemma BodyReads(m: Message, h: Header)
    requires LengthsFit(m) && (m.Batch? ==> ValidBatchItemKind(m.itemKind) && |m.items| <= 0xFFFF)
    ensures ParseBody(Parsed(KindOf(m), h, BodyOf(m))) == Ok(m.(header := h))
  {
    match m
    case Batch(_, kind, items) => BatchReads(h, kind, items);
    case EOF(_, queryID, total) => EofReads(h, queryID, total);
    case RingToken(_, i, a, b, phase) => TokenReads(h, i, a, b, phase);
    case ClientAborted(_) =>
  }

  /**
   A message that can be written is read back unchanged exactly when its header is
   acceptable to a reader (a sequence number unless it announces an abort, and a sender
   stage) and its gateway id has 16 bits.
   */
  lemma DecodeEncodeIff(m: Message)
    requires Encode(m).Ok? && LengthsFit(m)
    ensures Decode(Encode(m).value) == Ok(m) <==>
      && m.header.senderStageType != 0 && (m.ClientAborted? || m.header.seqID != 0)
      && 0 <= m.header.gatewayID < U16_SIZE
  {
    hide FixedHeader, BodyOf, ParseHeader, ParseBody, ItemsBytes;
    HeaderReads(KindOf(m), m.header, BodyOf(m));
    BodyReads(m, m.header.(gatewayID := Low16(m.header.gatewayID)));
  }

  /** What cannot be written: too long a branch path, and batches that are too long or of an unknown kind. */
  lemma RefusedIff(m: Message)
    ensures Encode(m).Err? <==>
      || |m.header.branchPath| > 255
      || (m.Batch? && (|m.items| > 65535 || m.itemKind < 1 || m.itemKind > 16))
  {
    hide FixedHeader, BodyOf;
  }

  /** Where everything is in a message, in network byte order. */
  lemma WireLayout(m: Message)
    requires Encode(m).Ok?
    ensures var d, h, n := Encode(m).value, m.header, |m.header.branchPath|;
      && |d| >= 34 + n && n < 256
      && d[0] == (match m case Batch(_, _, _) => 1 case EOF(_, _, _) => 2 case RingToken(_, _, _, _, _) => 3 case ClientAborted(_) => 4)
      && ReadU16(d[1..3]) == Low16(h.gatewayID) && d[3..19] == h.clientID && ReadU64(d[19..27]) == h.seqID
      && d[27] == h.senderStageType && ReadU16(d[28..30]) == h.senderReplicaID
      && d[30] == h.minterStageType && ReadU16(d[31..33]) == h.minterReplicaID
      && d[33] == n && d[34..34 + n] == h.branchPath && d[34 + n..] == BodyOf(m)
  {
    hide FixedHeader, EncodeBE, BodyOf, ReadU16, ReadU32, ReadU64, Low16;
    var d, h, n := Encode(m).value, m.header, |m.header.branchPath|;
    var tail := [n] + h.branchPath + BodyOf(m);
    assert d == FixedHeader(KindOf(m), h) + tail;
    FixedFields(KindOf(m), h, tail);
    WriteReads(Low16(h.gatewayID), 0, h.seqID);
    WriteReads(h.senderReplicaID, 0, 0);
    WriteReads(h.minterReplicaID, 0, 0);
    assert d[33] == tail[0];
    assert d[34..34 + n] == tail[1..1 + n] == h.branchPath;
    assert d[34 + n..] == tail[1 + n..] == BodyOf(m);
  }

  /** A batch is its kind, the number of items, and the items, each behind its query and its length. */
  lemma BatchLayout(h: Header, kind: U8, items: seq<Item>)
    requires |items| <= 65535 && PayloadsFit(items)
    ensures var b := BodyOf(Batch(h, kind, items));
      && |b| >= 3 && b[0] == kind && ReadU16(b[1..3]) == |items|
      && (items != [] ==>
            var n := |items[0].payload|;
            && |b| >= 8 + n && b[3] == items[0].queryID && ReadU32(b[4..8]) == n && b[8..8 + n] == items[0].payload
            && b[8 + n..] == BodyOf(Batch(h, kind, items[1..]))[3..])
  {
    hide EncodeBE, ReadU16, ReadU32, ReadU64;
    var b := BodyOf(Batch(h, kind, items));
    WriteReads(|items|, 0, 0);
    assert b[1..3] == EncodeBE(|items|, 2);
    if items != [] {
      var n := |items[0].payload|;
      WriteReads(0, n, 0);
      var more := ItemsBytes(items[1..]);
      assert b == [kind] + EncodeBE(|items|, 2) + ([items[0].queryID] + EncodeBE(n, 4) + items[0].payload + more);
      assert b[4..8] == EncodeBE(n, 4) && b[8..8 + n] == items[0].payload && b[8 + n..] == more;
      assert BodyOf(Batch(h, kind, items[1..]))[3..] == more;
    }
  }

  /** An EOF and a ring token have bodies of 5 and 21 bytes, an abort has none. */
  lemma ControlLayout(m: Message)
    requires !m.Batch?
    ensures var b := BodyOf(m);
      match m
      case EOF(_, queryID, total) => |b| == 5 && b[0] == queryID && ReadU32(b[1..5]) == total
      case RingToken(_, initiator, matched, notMatched, phase) =>
        && |b| == 21 && ReadU32(b[0..4]) == (if initiator < 0 then initiator + U32_SIZE else initiator)
        && ReadU64(b[4..12]) == matched && ReadU64(b[12..20]) == notMatched && b[20] == phase
      case ClientAborted(_) => b == []
  {
    hide EncodeBE, ReadU16, ReadU32, ReadU64;
    match m
    case EOF(_, queryID, total) =>
      WriteReads(0, total, 0);
      assert BodyOf(m)[1..5] == EncodeBE(total, 4);
    case RingToken(_, initiator, matched, notMatched, phase) =>
      WriteReads(0, ToUnsigned(initiator), matched);
      WriteReads(0, 0, notMatched);
      assert BodyOf(m)[0..4] == EncodeBE(ToUnsigned(initiator), 4);
      assert BodyOf(m)[4..12] == EncodeBE(matched, 8);
      assert BodyOf(m)[12..20] == EncodeBE(notMatched, 8);
    case ClientAborted(_) =>
  }

  lemma BatchWrites(p: Parsed)
    requires p.kind == BATCH && ParseBody(p).Ok?
    ensures var m := ParseBody(p).value;
      && m.Batch? && m.header == p.header && BodyOf(m) == p.body
      && |m.items| <= 0xFFFF && LengthsFit(m) && ValidBatchItemKind(m.itemKind)
  {
    hide EncodeBE, ReadU16, ItemsBytes, ParseItems;
    var b := p.body;
    ItemsWrite(ReadU16(b[1..3]), b[3..]);
    ReadWrites(b[1..3], seq(4, _ => 0), seq(8, _ => 0));
    assert b == [b[0]] + b[1..3] + b[3..];
  }

  lemma EofWrites(p: Parsed)
    requires p.kind == END && ParseBody(p).Ok?
    ensures var m := ParseBody(p).value; m.EOF? && m.header == p.header && BodyOf(m) == p.body
  {
    hide EncodeBE, ReadU32;
    var b := p.body;
    ReadWrites([0, 0], b[1..5], seq(8, _ => 0));
    assert b == [b[0]] + b[1..5];
  }

  lemma TokenWrites(p: Parsed)
    requires p.kind == TOKEN && ParseBody(p).Ok?
    ensures var m := ParseBody(p).value; m.RingToken? && m.header == p.header && BodyOf(m) == p.body
  {
    hide EncodeBE, ReadU32, ReadU64;
    var b := p.body;
    ReadWrites([0, 0], b[0..4], b[4..12]);
    ReadWrites([0, 0], b[0..4], b[12..20]);
    assert b == b[0..4] + b[4..12] + b[12..20] + [b[20]];
  }

  lemma BodyWrites(p: Parsed)
    requires ParseBody(p).Ok?
    ensures var m := ParseBody(p).value;
      && m.header == p.header && KindOf(m) == p.kind && BodyOf(m) == p.body && LengthsFit(m)
      && (m.Batch? ==> ValidBatchItemKind(m.itemKind) && |m.items| <= 0xFFFF)
  {
    if p.kind == BATCH {
      BatchWrites(p);
    } else if p.kind == END {
      EofWrites(p);
    } else if p.kind == TOKEN {
      TokenWrites(p);
    }
    hide EncodeBE, ReadU16, ReadU32, ReadU64, ItemsBytes, ParseItems;
  }

  /** Every accepted input is written back byte for byte. */
  lemma EncodeDecode(data: seq<Byte>)
    requires Decode(data).Ok?
    ensures Encode(Decode(data).value) == Ok(data)
  {
    HeaderWrites(data);
    BodyWrites(ParseHeader(data).value);
    hide FixedHeader, BodyOf, ParseHeader, ParseBody, ItemsBytes;
  }

  // ---- the loops of the source --------------------------------------------------

  /** BatchMessage.Serialize. */
  method SerializeBatch(h: Header, itemKind: U8, items: seq<Item>) returns (r: Result<seq<Byte>, CodecError>)
    ensures r == Encode(Batch(h, itemKind, items))
  {
    hide EncodeBE, FixedHeader, HeaderBytes, ItemsBytes, ItemBytes;
    if |items| > 0xFFFF {
      return Err(TooManyItems);
    }
    if !ValidBatchItemKind(itemKind) {
      return Err(UnsupportedItemKind);
    }
    var head := HeaderBytes(BATCH, h);
    if head.Err? {
      return Err(head.error);
    }
    var buf := head.value + [itemKind] + EncodeBE(|items| % U16_SIZE, 2);
    ghost var start := buf;
    for i := 0 to |items|
      invariant buf + ItemsBytes(items[i..]) == start + ItemsBytes(items)
    {
      NextItemBytes(items, i, buf);
      buf := buf + [items[i].queryID];
      buf := buf + EncodeBE(|items[i].payload| % U32_SIZE, 4);
      buf := buf + items[i].payload;
    }
    NoItemBytes(items);
    assert buf + [] == buf;
    assert start + ItemsBytes(items) == head.value + BodyOf(Batch(h, itemKind, items));
    r := Ok(buf);
  }

  lemma NextItemBytes(items: seq<Item>, i: nat, buf: seq<Byte>)
    requires i < |items|
    ensures buf + ItemsBytes(items[i..]) ==
      (((buf + [items[i].queryID]) + EncodeBE(|items[i].payload| % U32_SIZE, 4)) + items[i].payload) + ItemsBytes(items[i + 1..])
  {
    hide EncodeBE;
    assert items[i..][1..] == items[i + 1..];
    assert ItemsBytes(items[i..]) == ItemBytes(items[i]) + ItemsBytes(items[i + 1..]);
  }

  lemma NoItemBytes(items: seq<Item>)
    ensures ItemsBytes(items[|items|..]) == []
  {
  }

  /** parseBatch. */
  method ParseBatch(h: Header, body: seq<Byte>) returns (r: Result<Message, CodecError>)
    ensures r == ParseBody(Parsed(BATCH, h, body))
  {
    hide EncodeBE, ReadU16, ReadU32, ParseItems;
    if |body| < 3 {
      return Err(Malformed);
    }
    if !ValidBatchItemKind(body[0]) {
      return Err(Malformed);
    }
    var count := ReadU16(body[1..3]);
    var items: seq<Item> := [];
    var offset := 3;
    assert ParseItems(count, body[3..]).Ok? ==> [] + ParseItems(count, body[3..]).value == ParseItems(count, body[3..]).value;
    for i := 0 to count
      invariant 3 <= offset <= |body|
      invariant ParseItems(count, body[3..]) == Prefixed(items, ParseItems(count - i, body[offset..]))
    {
      NextItem(count - i, body, offset, items);
      if offset + 1 + 4 > |body| {
        return Err(Malformed);
      }
      var queryID := body[offset];
      var itemLen := ReadU32(body[offset + 1..offset + 5]);
      offset := offset + 5;
      if offset + itemLen > |body| {
        return Err(Malformed);
      }
      items := items + [Item(queryID, body[offset..offset + itemLen])];
      offset := offset + itemLen;
    }
    NothingLeft(body[offset..]);
    if offset != |body| {
      return Err(Malformed);
    }
    assert items + [] == items;
    r := Ok(Batch(h, body[0], items));
  }

  lemma NothingLeft(body: seq<Byte>)
    ensures ParseItems(0, body) == if body == [] then Ok([]) else Err(Malformed)
  {
  }

  function Prefixed(items: seq<Item>, rest: Result<seq<Item>, CodecError>): Result<seq<Item>, CodecError> {
    match rest
    case Err(e) => Err(e)
    case Ok(more) => Ok(items + more)
  }

  lemma NextItem(n: nat, body: seq<Byte>, offset: nat, items: seq<Item>)
    requires n > 0 && offset <= |body|
    ensures if offset + 5 > |body| then ParseItems(n, body[offset..]) == Err(Malformed)
      else
        var size := ReadU32(body[offset + 1..offset + 5]);
        if offset + 5 + size > |body| then ParseItems(n, body[offset..]) == Err(Malformed)
        else
          Prefixed(items, ParseItems(n, body[offset..])) ==
            Prefixed(items + [Item(body[offset], body[offset + 5..offset + 5 + size])], ParseItems(n - 1, body[offset + 5 + size..]))
  {
    hide ReadU32;
    var rest := body[offset..];
    if offset + 5 <= |body| {
      assert rest[1..5] == body[offset + 1..offset + 5];
      var size := ReadU32(rest[1..5]);
      if offset + 5 + size <= |body| {
        assert rest[5..5 + size] == body[offset + 5..offset + 5 + size];
        assert rest[5 + size..] == body[offset + 5 + size..];
        var later := ParseItems(n - 1, rest[5 + size..]);
        if later.Ok? {
          assert items + ([Item(rest[0], rest[5..5 + size])] + later.value) == (items + [Item(rest[0], rest[5..5 + size])]) + later.value;
        }
      }
    }
  }
}
