/**
 The file in which filter_q3 keeps whole batches until the averages are known
 (src/worker/strategy/filter_q3/filter_q3.go): appending, counting, draining, and what
 is left of it after a crash. Parsing a raw message is a parameter.
 */
module Q3Buffers {
  import opened Common
  import opened Bytes

  type Raw = seq<Byte>

  datatype Payment = Payment(bank: U32, account: string, format: string, amount: real)

  datatype Row = Row(bank: U32, account: string, amount: real)

  /** An item is None when its transaction cannot be read. */
  datatype Parsed = Bad | NotBatch | Batch(header: string, items: seq<Option<Payment>>)

  type Parser = Raw -> Parsed

  datatype Frame = Frame(raw: Raw, rest: seq<Byte>)

  const LENGTH_SIZE := 4

  function Framed(raw: Raw): seq<Byte> {
    EncodeBE(|raw| % U32_SIZE, LENGTH_SIZE) + raw
  }

  function Frames(raws: seq<Raw>): seq<Byte> {
    if raws == [] then [] else Frames(raws[..|raws| - 1]) + Framed(raws[|raws| - 1])
  }

  /** Reads one length and as many bytes. */
  function NextFrame(file: seq<Byte>): (f: Option<Frame>)
    ensures f.Some? ==> |f.value.rest| + LENGTH_SIZE + |f.value.raw| == |file|
    ensures f.Some? ==> f.value.rest == file[LENGTH_SIZE + |f.value.raw|..]
  {
    if |file| < LENGTH_SIZE then None
    else
      var n := DecodeBE(file[..LENGTH_SIZE]);
      if |file| - LENGTH_SIZE < n then None
      else Some(Frame(file[LENGTH_SIZE..LENGTH_SIZE + n], file[LENGTH_SIZE + n..]))
  }

  /** The items a reader of the file sees, up to the first frame it cannot read. */
  function ItemsIn(parse: Parser, file: seq<Byte>): seq<Option<Payment>>
    decreases |file|
  {
    match NextFrame(file)
    case None => []
    case Some(f) =>
      match parse(f.raw)
      case Bad => []
      case NotBatch => ItemsIn(parse, f.rest)
      case Batch(_, items) => items + ItemsIn(parse, f.rest)
  }

  // ---- the filter -------------------------------------------------------------

  predicate Passes(averages: map<string, real>, pct: real, p: Payment) {
    p.format in averages && p.amount < averages[p.format] * pct
  }

  function RowsOf(averages: map<string, real>, pct: real, items: seq<Option<Payment>>): seq<Row> {
    if items == [] then []
    else
      var rest, last := RowsOf(averages, pct, items[..|items| - 1]), items[|items| - 1];
      if last.Some? && Passes(averages, pct, last.value)
      then rest + [Row(last.value.bank, last.value.account, last.value.amount)] else rest
  }

  /** What query 3 looks for: a payment below the given share of its format's average. */
  ghost predicate Under(averages: map<string, real>, pct: real, item: Option<Payment>) {
    item.Some? && item.value.format in averages && item.value.amount < averages[item.value.format] * pct
  }

  lemma UnderPasses(averages: map<string, real>, pct: real, item: Option<Payment>)
    ensures Under(averages, pct, item) <==> item.Some? && Passes(averages, pct, item.value)
  {
  }

  /**
   The rows are what the filter is for: one for each payment below its threshold, in the
   order of the items, with the payment's bank, account and amount; from says which item each
   row comes from.
   */
  ghost predicate FilteredFrom(averages: map<string, real>, pct: real, items: seq<Option<Payment>>, rows: seq<Row>, from: seq<nat>) {
    && |from| == |rows|
    && (forall k :: 0 <= k < |rows| ==>
          && from[k] < |items| && Under(averages, pct, items[from[k]]) && items[from[k]].Some?
          && var p := items[from[k]].value; rows[k] == Row(p.bank, p.account, p.amount))
    && (forall k, l :: 0 <= k < l < |from| ==> from[k] < from[l])
    && (forall i: nat :: i < |items| && Under(averages, pct, items[i]) ==> i in from)
  }

  ghost predicate Filtered(averages: map<string, real>, pct: real, items: seq<Option<Payment>>, rows: seq<Row>) {
    exists from: seq<nat> :: FilteredFrom(averages, pct, items, rows, from)
  }

  lemma {:induction false} RowsMean(averages: map<string, real>, pct: real, items: seq<Option<Payment>>)
    ensures Filtered(averages, pct, items, RowsOf(averages, pct, items))
  {
    hide FilteredFrom, Passes, Under;
    if items == [] {
      NothingFiltered(averages, pct);
    } else {
      var n := |items| - 1;
      RowsMean(averages, pct, items[..n]);
      var rows := RowsOf(averages, pct, items[..n]);
      var from: seq<nat> :| FilteredFrom(averages, pct, items[..n], rows, from);
      UnderPasses(averages, pct, items[n]);
      if items[n].Some? && Passes(averages, pct, items[n].value) {
        OneRowMore(averages, pct, items, rows, from);
      } else {
        NoRowMore(averages, pct, items, rows, from);
      }
    }
  }

  lemma NothingFiltered(averages: map<string, real>, pct: real)
    ensures FilteredFrom(averages, pct, [], [], [])
  {
  }

  lemma OneRowMore(averages: map<string, real>, pct: real, items: seq<Option<Payment>>, rows: seq<Row>, from: seq<nat>)
    requires items != [] && FilteredFrom(averages, pct, items[..|items| - 1], rows, from)
    requires Under(averages, pct, items[|items| - 1]) && items[|items| - 1].Some?
    ensures var n, p := |items| - 1, items[|items| - 1].value;
      FilteredFrom(averages, pct, items, rows + [Row(p.bank, p.account, p.amount)], from + [n])
  {
    hide Under;
    var n := |items| - 1;
    var all := from + [n];
    assert all[|from|] == n;
    assert forall i: nat :: i in from ==> i in all;
    assert forall i: nat :: i < n ==> items[..n][i] == items[i];
  }

  lemma NoRowMore(averages: map<string, real>, pct: real, items: seq<Option<Payment>>, rows: seq<Row>, from: seq<nat>)
    requires items != [] && FilteredFrom(averages, pct, items[..|items| - 1], rows, from)
    requires !Under(averages, pct, items[|items| - 1])
    ensures FilteredFrom(averages, pct, items, rows, from)
  {
    hide Under;
    var n := |items| - 1;
    assert forall i: nat :: i < n ==> items[..n][i] == items[i];
  }

  /** Nothing else has that meaning. */
  lemma {:induction false} OnlyTheseRows(averages: map<string, real>, pct: real, items: seq<Option<Payment>>, rows: seq<Row>, from: seq<nat>)
    requires FilteredFrom(averages, pct, items, rows, from)
    ensures rows == RowsOf(averages, pct, items)
    decreases |items|
  {
    if items == [] {
      assert rows == [];
    } else {
      hide Under, Passes, FilteredFrom;
      var n, m := |items| - 1, |rows| - 1;
      var last := items[n];
      UnderPasses(averages, pct, last);
      if last.Some? && Passes(averages, pct, last.value) {
        LastIsFrom(averages, pct, items, rows, from);
        FrontFiltered(averages, pct, items, rows, from);
        OnlyTheseRows(averages, pct, items[..n], rows[..m], from[..m]);
        assert rows == rows[..m] + [rows[m]];
      } else {
        FilteredWithoutLast(averages, pct, items, rows, from);
        OnlyTheseRows(averages, pct, items[..n], rows, from);
      }
    }
  }

  lemma LastIsFrom(averages: map<string, real>, pct: real, items: seq<Option<Payment>>, rows: seq<Row>, from: seq<nat>)
    requires FilteredFrom(averages, pct, items, rows, from) && items != [] && Under(averages, pct, items[|items| - 1])
    ensures |from| == |rows| > 0 && from[|from| - 1] == |items| - 1
    ensures items[|items| - 1].Some? && rows[|rows| - 1] ==
      var p := items[|items| - 1].value; Row(p.bank, p.account, p.amount)
  {
    hide Under;
    assert |items| - 1 in from;
  }

  lemma FilteredWithoutLast(averages: map<string, real>, pct: real, items: seq<Option<Payment>>, rows: seq<Row>, from: seq<nat>)
    requires FilteredFrom(averages, pct, items, rows, from) && items != [] && !Under(averages, pct, items[|items| - 1])
    ensures FilteredFrom(averages, pct, items[..|items| - 1], rows, from)
  {
    hide Under;
    var n := |items| - 1;
    assert forall k :: 0 <= k < |rows| ==> from[k] != n;
    assert forall i: nat :: i < n ==> items[..n][i] == items[i];
  }

  lemma FrontFiltered(averages: map<string, real>, pct: real, items: seq<Option<Payment>>, rows: seq<Row>, from: seq<nat>)
    requires FilteredFrom(averages, pct, items, rows, from) && from != [] && from[|from| - 1] == |items| - 1
    ensures var n, m := |items| - 1, |rows| - 1;
      FilteredFrom(averages, pct, items[..n], rows[..m], from[..m])
  {
    var n, m := |items| - 1, |rows| - 1;
    hide Under;
    forall i: nat | i < n && Under(averages, pct, items[i]) ensures i in from[..m]
    {
      var k :| 0 <= k < |from| && from[k] == i;
      assert from[..m][k] == i;
    }
    assert forall i: nat :: i < n ==> items[..n][i] == items[i];
  }

  lemma FilteredIff(averages: map<string, real>, pct: real, items: seq<Option<Payment>>, rows: seq<Row>)
    ensures Filtered(averages, pct, items, rows) <==> rows == RowsOf(averages, pct, items)
  {
    hide FilteredFrom, RowsOf;
    RowsMean(averages, pct, items);
    if Filtered(averages, pct, items, rows) {
      var from: seq<nat> :| FilteredFrom(averages, pct, items, rows, from);
      OnlyTheseRows(averages, pct, items, rows, from);
    }
  }

  /** The places of the payments under threshold. */
  ghost function PlacesUnder(averages: map<string, real>, pct: real, items: seq<Option<Payment>>): set<nat> {
    set i: nat | i < |items| && Under(averages, pct, items[i])
  }

  lemma PlacesGrow(averages: map<string, real>, pct: real, items: seq<Option<Payment>>)
    requires items != []
    ensures var n := |items| - 1;
      var before := PlacesUnder(averages, pct, items[..n]);
      && n !in before
      && PlacesUnder(averages, pct, items) == if Under(averages, pct, items[n]) then before + {n} else before
  {
    hide Under;
    var n := |items| - 1;
    assert forall i: nat :: i < n ==> items[..n][i] == items[i];
  }

  lemma {:induction false} AsManyRows(averages: map<string, real>, pct: real, items: seq<Option<Payment>>)
    ensures |RowsOf(averages, pct, items)| == |PlacesUnder(averages, pct, items)|
  {
    hide Under, Passes;
    if items == [] {
      assert PlacesUnder(averages, pct, items) == {};
    } else {
      var n := |items| - 1;
      AsManyRows(averages, pct, items[..n]);
      UnderPasses(averages, pct, items[n]);
      PlacesGrow(averages, pct, items);
    }
  }

  lemma {:induction false} RowsAppend(averages: map<string, real>, pct: real, xs: seq<Option<Payment>>, ys: seq<Option<Payment>>)
    ensures RowsOf(averages, pct, xs + ys) == RowsOf(averages, pct, xs) + RowsOf(averages, pct, ys)
  {
    if ys == [] {
      assert xs + ys == xs;
    } else {
      RowsAppend(averages, pct, xs, ys[..|ys| - 1]);
      assert (xs + ys)[..|xs + ys| - 1] == xs + ys[..|ys| - 1];
    }
  }

  /** filterBatchItems, and the inner loop of the drain. */
  method FilterItems(averages: map<string, real>, pct: real, items: seq<Option<Payment>>) returns (rows: seq<Row>)
    ensures rows == RowsOf(averages, pct, items) && Filtered(averages, pct, items, rows)
  {
    RowsMean(averages, pct, items);
    hide Filtered;
    rows := [];
    for i := 0 to |items|
      invariant rows == RowsOf(averages, pct, items[..i])
    {
      assert items[..i + 1][..i] == items[..i];
      if items[i].None? {
        continue;
      }
      var p := items[i].value;
      if !Passes(averages, pct, p) {
        continue;
      }
      rows := rows + [Row(p.bank, p.account, p.amount)];
    }
    assert items[..|items|] == items;
  }

  /** drainIterator, run to its end. */
  method Drain(parse: Parser, averages: map<string, real>, pct: real, file: seq<Byte>) returns (rows: seq<Row>)
    ensures rows == RowsOf(averages, pct, ItemsIn(parse, file)) && Filtered(averages, pct, ItemsIn(parse, file), rows)
  {
    hide NextFrame, RowsOf, Filtered;
    RowsMean(averages, pct, ItemsIn(parse, file));
    rows := [];
    var rest := file;
    ghost var read: seq<Option<Payment>> := [];
    RowsOfNone(averages, pct);
    while true
      invariant read + ItemsIn(parse, rest) == ItemsIn(parse, file)
      invariant rows == RowsOf(averages, pct, read)
      decreases |rest|
    {
      var f := NextFrame(rest);
      if f.None? {
        assert read + [] == read;
        return;
      }
      match parse(f.value.raw) {
        case Bad =>
          assert read + [] == read;
          return;
        case NotBatch =>
        case Batch(_, items) =>
          var more := FilterItems(averages, pct, items);
          RowsAppend(averages, pct, read, items);
          assert read + (items + ItemsIn(parse, f.value.rest)) == (read + items) + ItemsIn(parse, f.value.rest);
          read := read + items;
          rows := rows + more;
      }
      rest := f.value.rest;
    }
  }

  lemma RowsOfNone(averages: map<string, real>, pct: real)
    ensures RowsOf(averages, pct, []) == []
  {
  }

  /** countQ3Rows: a 32-bit count of what the drain will yield, whatever bytes the file holds. */
  method CountQ3Rows(parse: Parser, averages: map<string, real>, pct: real, file: seq<Byte>) returns (count: U32)
    ensures count == Low32(|PlacesUnder(averages, pct, ItemsIn(parse, file))|)
    ensures count == Low32(|RowsOf(averages, pct, ItemsIn(parse, file))|)
  {
    hide NextFrame, RowsOf, PlacesUnder;
    AsManyRows(averages, pct, ItemsIn(parse, file));
    count := 0;
    var rest := file;
    ghost var read: seq<Option<Payment>> := [];
    RowsOfNone(averages, pct);
    while true
      invariant read + ItemsIn(parse, rest) == ItemsIn(parse, file)
      invariant count == Low32(|RowsOf(averages, pct, read)|)
      decreases |rest|
    {
      var f := NextFrame(rest);
      if f.None? {
        assert read + [] == read;
        return;
      }
      match parse(f.value.raw) {
        case Bad =>
          assert read + [] == read;
          return;
        case NotBatch =>
        case Batch(_, items) =>
          count := CountItems(averages, pct, items, count, |RowsOf(averages, pct, read)|);
          RowsAppend(averages, pct, read, items);
          assert read + (items + ItemsIn(parse, f.value.rest)) == (read + items) + ItemsIn(parse, f.value.rest);
          read := read + items;
      }
      rest := f.value.rest;
    }
  }

  method CountItems(averages: map<string, real>, pct: real, items: seq<Option<Payment>>, before: U32, ghost n: nat)
    returns (count: U32)
    requires before == Low32(n)
    ensures count == Low32(n + |RowsOf(averages, pct, items)|)
  {
    count := before;
    for i := 0 to |items|
      invariant count == Low32(n + |RowsOf(averages, pct, items[..i])|)
    {
      assert items[..i + 1][..i] == items[..i];
      if items[i].Some? && Passes(averages, pct, items[i].value) {
        LowAdds(n + |RowsOf(averages, pct, items[..i])|, 1);
        count := Low32(count + 1);
      }
    }
    assert items[..|items|] == items;
  }

  // ---- what was written is read -----------------------------------------------

  /** The messages the source buffers: batches, whose length fits its field. */
  ghost predicate Bufferable(parse: Parser, raw: Raw) {
    |raw| < U32_SIZE && parse(raw).Batch?
  }

  ghost predicate AllBufferable(parse: Parser, raws: seq<Raw>) {
    forall i :: 0 <= i < |raws| ==> Bufferable(parse, raws[i])
  }

  function ItemsOf(parse: Parser, raws: seq<Raw>): seq<Option<Payment>> {
    if raws == [] then []
    else
      var last := parse(raws[|raws| - 1]);
      ItemsOf(parse, raws[..|raws| - 1]) + if last.Batch? then last.items else []
  }

  lemma FramedReads(raw: Raw, tail: seq<Byte>)
    requires |raw| < U32_SIZE
    ensures NextFrame(Framed(raw) + tail) == Some(Frame(raw, tail))
  {
    hide EncodeBE, DecodeBE;
    Capacities();
    DecodeEncodeBE(|raw|, LENGTH_SIZE);
    var file := Framed(raw) + tail;
    assert file[..LENGTH_SIZE] == EncodeBE(|raw|, LENGTH_SIZE);
    assert file[LENGTH_SIZE..LENGTH_SIZE + |raw|] == raw;
    assert file[LENGTH_SIZE + |raw|..] == tail;
  }

  lemma BatchRead(parse: Parser, raw: Raw, tail: seq<Byte>)
    requires Bufferable(parse, raw)
    ensures ItemsIn(parse, Framed(raw) + tail) == parse(raw).items + ItemsIn(parse, tail)
  {
    hide NextFrame, Framed;
    FramedReads(raw, tail);
  }

  lemma {:induction false} FramesRead(parse: Parser, raws: seq<Raw>, tail: seq<Byte>)
    requires AllBufferable(parse, raws)
    ensures ItemsIn(parse, Frames(raws) + tail) == ItemsOf(parse, raws) + ItemsIn(parse, tail)
  {
    hide ItemsIn, NextFrame, Framed, Frames, ItemsOf;
    if raws == [] {
      NoFrames(parse);
      assert [] + tail == tail && [] + ItemsIn(parse, tail) == ItemsIn(parse, tail);
    } else {
      var front, last := raws[..|raws| - 1], raws[|raws| - 1];
      assert Bufferable(parse, last);
      LastFrame(parse, raws);
      FramesRead(parse, front, Framed(last) + tail);
      BatchRead(parse, last, tail);
      Reassociate(Frames(front), Framed(last), tail);
      Reassociate(ItemsOf(parse, front), parse(last).items, ItemsIn(parse, tail));
    }
  }

  lemma NoFrames(parse: Parser)
    ensures Frames([]) == [] && ItemsOf(parse, []) == []
  {
  }

  lemma LastFrame(parse: Parser, raws: seq<Raw>)
    requires raws != [] && parse(raws[|raws| - 1]).Batch?
    ensures var front, last := raws[..|raws| - 1], raws[|raws| - 1];
      Frames(raws) == Frames(front) + Framed(last) && ItemsOf(parse, raws) == ItemsOf(parse, front) + parse(last).items
  {
  }

  /** Every buffered item is read back, in order, once. */
  lemma BufferedIsRead(parse: Parser, raws: seq<Raw>)
    requires AllBufferable(parse, raws)
    ensures ItemsIn(parse, Frames(raws)) == ItemsOf(parse, raws)
  {
    FramesRead(parse, raws, []);
    assert Frames(raws) + [] == Frames(raws);
    assert NextFrame([]) == None;
  }

  // ---- after a crash ----------------------------------------------------------

  /** The frames recovery accepts from the front of the file. */
  function Intact(parse: Parser, headerSize: nat, file: seq<Byte>): seq<Raw>
    decreases |file|
  {
    match NextFrame(file)
    case None => []
    case Some(f) =>
      if |f.raw| < headerSize || !parse(f.raw).Batch? then [] else [f.raw] + Intact(parse, headerSize, f.rest)
  }

  function HeadersOf(parse: Parser, raws: seq<Raw>): seq<string> {
    seq(|raws|, i requires 0 <= i < |raws| => if parse(raws[i]).Batch? then parse(raws[i]).header else "")
  }

  function WireSize(raws: seq<Raw>): nat {
    if raws == [] then 0 else WireSize(raws[..|raws| - 1]) + LENGTH_SIZE + |raws[|raws| - 1]|
  }

  /** recoverBufferState: keeps the intact frames, cuts off the rest, and says what it kept. */
  method RecoverBufferState(parse: Parser, headerSize: nat, file: seq<Byte>)
    returns (kept: seq<Byte>, headers: seq<string>, count: nat, items: nat)
    ensures var raws := Intact(parse, headerSize, file);
      && WireSize(raws) <= |file| && kept == file[..WireSize(raws)]
      && headers == HeadersOf(parse, raws) && count == |raws| && items == |ItemsOf(parse, raws)|
  {
    hide NextFrame, ItemsOf, WireSize, HeadersOf, Intact;
    ghost var raws: seq<Raw> := [];
    NothingKept(parse);
    headers, count, items := [], 0, 0;
    var rest, validOffset := file, 0;
    while true
      invariant raws + Intact(parse, headerSize, rest) == Intact(parse, headerSize, file)
      invariant validOffset == WireSize(raws) && validOffset + |rest| == |file|
      invariant headers == HeadersOf(parse, raws) && count == |raws| && items == |ItemsOf(parse, raws)|
      decreases |rest|
    {
      var f := NextFrame(rest);
      IntactNext(parse, headerSize, rest, raws);
      if f.None? || |f.value.raw| < headerSize || !parse(f.value.raw).Batch? {
        kept := file[..validOffset];
        return;
      }
      var batch := parse(f.value.raw);
      OneMoreKept(parse, raws, f.value.raw);
      headers := headers + [batch.header];
      count := count + 1;
      items := items + |batch.items|;
      validOffset := validOffset + LENGTH_SIZE + |f.value.raw|;
      raws := raws + [f.value.raw];
      rest := f.value.rest;
    }
  }

  lemma IntactNext(parse: Parser, headerSize: nat, rest: seq<Byte>, raws: seq<Raw>)
    ensures var f := NextFrame(rest);
      if f.None? || |f.value.raw| < headerSize || !parse(f.value.raw).Batch? then
        raws + Intact(parse, headerSize, rest) == raws
      else
        raws + Intact(parse, headerSize, rest) == (raws + [f.value.raw]) + Intact(parse, headerSize, f.value.rest)
  {
    hide NextFrame;
  }

  lemma NothingKept(parse: Parser)
    ensures ItemsOf(parse, []) == [] && WireSize([]) == 0 && HeadersOf(parse, []) == []
  {
  }

  lemma OneMoreKept(parse: Parser, raws: seq<Raw>, raw: Raw)
    requires parse(raw).Batch?
    ensures ItemsOf(parse, raws + [raw]) == ItemsOf(parse, raws) + parse(raw).items
    ensures WireSize(raws + [raw]) == WireSize(raws) + LENGTH_SIZE + |raw|
    ensures HeadersOf(parse, raws + [raw]) == HeadersOf(parse, raws) + [parse(raw).header]
  {
    assert (raws + [raw])[..|raws|] == raws;
  }

  ghost predicate Recoverable(parse: Parser, headerSize: nat, raws: seq<Raw>) {
    AllBufferable(parse, raws) && forall i :: 0 <= i < |raws| ==> |raws[i]| >= headerSize
  }

  /** An append that a crash cut short: fewer bytes than the frame it began. */
  ghost predicate Torn(tail: seq<Byte>) {
    NextFrame(tail) == None
  }

  lemma CutFrameIsTorn(raw: Raw, k: nat)
    requires |raw| < U32_SIZE && k < |Framed(raw)|
    ensures Torn(Framed(raw)[..k])
  {
    hide EncodeBE, DecodeBE;
    Capacities();
    DecodeEncodeBE(|raw|, LENGTH_SIZE);
    if k >= LENGTH_SIZE {
      assert Framed(raw)[..k][..LENGTH_SIZE] == EncodeBE(|raw|, LENGTH_SIZE);
    }
  }

  lemma IntactFirst(parse: Parser, headerSize: nat, raw: Raw, tail: seq<Byte>)
    requires Bufferable(parse, raw) && |raw| >= headerSize
    ensures Intact(parse, headerSize, Framed(raw) + tail) == [raw] + Intact(parse, headerSize, tail)
  {
    hide NextFrame, Framed;
    FramedReads(raw, tail);
  }

  lemma {:induction false} IntactFrames(parse: Parser, headerSize: nat, raws: seq<Raw>, tail: seq<Byte>)
    requires Recoverable(parse, headerSize, raws)
    ensures Intact(parse, headerSize, Frames(raws) + tail) == raws + Intact(parse, headerSize, tail)
  {
    hide Intact, NextFrame, Framed, Frames, ItemsOf;
    if raws == [] {
      NoFrames(parse);
      assert [] + tail == tail && [] + Intact(parse, headerSize, tail) == Intact(parse, headerSize, tail);
    } else {
      var front, last := raws[..|raws| - 1], raws[|raws| - 1];
      assert Bufferable(parse, last);
      LastFrame(parse, raws);
      IntactFrames(parse, headerSize, front, Framed(last) + tail);
      IntactFirst(parse, headerSize, last, tail);
      Reassociate(Frames(front), Framed(last), tail);
      Reassociate(front, [last], Intact(parse, headerSize, tail));
      assert front + [last] == raws;
    }
  }

  lemma {:induction false} FramesSize(raws: seq<Raw>)
    ensures |Frames(raws)| == WireSize(raws)
  {
    if raws != [] {
      FramesSize(raws[..|raws| - 1]);
    }
  }

  lemma RecoveryOfTorn(parse: Parser, headerSize: nat, raws: seq<Raw>, tail: seq<Byte>)
    requires Recoverable(parse, headerSize, raws) && Torn(tail)
    ensures Intact(parse, headerSize, Frames(raws) + tail) == raws
  {
    IntactFrames(parse, headerSize, raws, tail);
    assert Intact(parse, headerSize, tail) == [] && raws + [] == raws;
  }

  /** n batches lie wholly before the cut, and no more. */
  ghost predicate WholeBefore(raws: seq<Raw>, k: nat, n: nat) {
    && n <= |raws|
    && |Frames(raws[..n])| <= k
    && (n < |raws| ==> k < |Frames(raws[..n + 1])|)
  }

  /** A buffer cut at any byte: exactly the batches that lie wholly before the cut are recovered. */
  lemma {:induction false} RecoveryKeepsWholeBatches(parse: Parser, headerSize: nat, raws: seq<Raw>, k: nat)
    returns (n: nat)
    requires Recoverable(parse, headerSize, raws) && k <= |Frames(raws)|
    ensures WholeBefore(raws, k, n)
    ensures Intact(parse, headerSize, Frames(raws)[..k]) == raws[..n]
    ensures Frames(raws[..n]) == Frames(raws)[..|Frames(raws[..n])|]
  {
    hide Framed, Torn, Intact;
    if k == |Frames(raws)| {
      n := |raws|;
      assert raws[..n] == raws && Frames(raws)[..k] == Frames(raws) + [];
      NothingIsTorn();
      RecoveryOfTorn(parse, headerSize, raws, []);
    } else {
      var front, last := raws[..|raws| - 1], raws[|raws| - 1];
      assert raws[..|raws|] == raws && forall i :: 0 <= i <= |front| ==> raws[..i] == front[..i];
      assert Bufferable(parse, last);
      if k < |Frames(front)| {
        n := RecoveryKeepsWholeBatches(parse, headerSize, front, k);
        assert Frames(raws)[..k] == Frames(front)[..k];
        assert n < |front| by { assert front[..|front|] == front; }
      } else {
        n := |front|;
        var cut := k - |Frames(front)|;
        assert Frames(raws)[..k] == Frames(front) + Framed(last)[..cut];
        CutFrameIsTorn(last, cut);
        RecoveryOfTorn(parse, headerSize, front, Framed(last)[..cut]);
        assert front[..n] == front;
      }
    }
  }

  lemma NothingIsTorn()
    ensures Torn([])
  {
  }

  lemma {:induction false} FramesAppend(a: seq<Raw>, b: seq<Raw>)
    ensures Frames(a + b) == Frames(a) + Frames(b)
  {
    hide Framed;
    if b == [] {
      assert a + b == a;
    } else {
      var front, last := b[..|b| - 1], b[|b| - 1];
      FramesAppend(a, front);
      assert (a + b)[..|a + b| - 1] == a + front;
      Reassociate(Frames(a), Frames(front), Framed(last));
    }
  }

  lemma {:induction false} ItemsAppend(parse: Parser, a: seq<Raw>, b: seq<Raw>)
    ensures ItemsOf(parse, a + b) == ItemsOf(parse, a) + ItemsOf(parse, b)
  {
    if b == [] {
      assert a + b == a;
    } else {
      var front := b[..|b| - 1];
      ItemsAppend(parse, a, front);
      assert (a + b)[..|a + b| - 1] == a + front;
      var last := parse(b[|b| - 1]);
      Reassociate(ItemsOf(parse, a), ItemsOf(parse, front), if last.Batch? then last.items else []);
    }
  }

  lemma {:induction false} WireSizeFirst(raw: Raw, raws: seq<Raw>)
    ensures WireSize([raw] + raws) == LENGTH_SIZE + |raw| + WireSize(raws)
  {
    if raws == [] {
      assert [raw] + raws == [raw];
    } else {
      WireSizeFirst(raw, raws[..|raws| - 1]);
      assert ([raw] + raws)[..|raws|] == [raw] + raws[..|raws| - 1];
    }
  }

  lemma {:induction false} IntactFits(parse: Parser, headerSize: nat, file: seq<Byte>)
    ensures WireSize(Intact(parse, headerSize, file)) <= |file|
    decreases |file|
  {
    var f := NextFrame(file);
    if f.Some? && |f.value.raw| >= headerSize && parse(f.value.raw).Batch? {
      IntactFits(parse, headerSize, f.value.rest);
      WireSizeFirst(f.value.raw, Intact(parse, headerSize, f.value.rest));
    }
  }
}
