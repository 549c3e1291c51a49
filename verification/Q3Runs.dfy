/**
 The payments of query 3 over whole runs with crashes (src/worker/strategy/filter_q3/filter_q3.go
 under src/worker/runtime/runtime.go in full-checkpoint mode): a batch is buffered or filtered
 online, once, whatever is torn, redelivered or taken back. Item counts stay below 2^64 here;
 FilterQ3 has their wrap-around.
 */
module Q3Runs {
  import opened Common
  import opened Bytes
  import opened Q3Buffers
  import FilterQ3

  /** One delivery of a batch. */
  datatype Copy = Copy(tag: nat, raw: Raw)

  datatype Setup = Setup(parse: Parser, headerSize: nat)

  /** The checkpoint: dedup set, end of the averages, items seen, items buffered. */
  datatype Saved = Saved(seen: set<string>, ended: bool, p2Seen: nat, bufferedSeen: nat)

  datatype Memory = Memory(state: Saved, pending: seq<Copy>)

  datatype System = System(
    saved: Option<Saved>,
    file: seq<Byte>,
    mem: Memory,
    published: set<Raw>,
    inbox: set<Copy>,                // delivered or to be delivered, and not acked
    online: set<Raw>)                // filtered at once, their rows published under the batch's id

  datatype Step =
    | Publish(c: Copy)
    | Deliver(c: Copy)
    | EndAverages                    // the averages EOF that finds them all, made durable at once
    | Checkpoint                     // for these batches or for another delivery of the client
    | Crash
    | CrashInAppend(c: Copy, bytes: nat)
    | CrashAfterSave(acks: nat)

  const FRESH := Saved({}, false, 0, 0)

  function Header(su: Setup, raw: Raw): string {
    var m := su.parse(raw);
    if m.Batch? then m.header else ""
  }

  function Items(su: Setup, raws: seq<Raw>): nat {
    |ItemsOf(su.parse, raws)|
  }

  /** A batch the source can read, told apart by its header from the others. */
  ghost predicate Acceptable(su: Setup, published: set<Raw>, raw: Raw) {
    && Bufferable(su.parse, raw) && |raw| >= su.headerSize
    && forall r :: r in published && Header(su, r) == Header(su, raw) ==> r == raw
  }

  function Count(su: Setup, st: Saved, raw: Raw, buffered: bool): Saved {
    st.(seen := st.seen + {Header(su, raw)}, p2Seen := st.p2Seen + Items(su, [raw]),
        bufferedSeen := st.bufferedSeen + if buffered then Items(su, [raw]) else 0)
  }

  /** UnmarshalClientState over the buffer, with the headers found there put into the dedup set. */
  function Restored(su: Setup, c: Saved, raws: seq<Raw>): Saved {
    var items := Items(su, raws);
    Saved(c.seen + SetOf(HeadersOf(su.parse, raws)), c.ended,
          if items > c.bufferedSeen then c.p2Seen + (items - c.bufferedSeen) else c.p2Seen, items)
  }

  /** The items seen are those FilterQ3 restores, as long as they fit its 64 bits. */
  lemma RestoredAsThere(su: Setup, c: Saved, raws: seq<Raw>)
    requires c.p2Seen + Items(su, raws) < U64_SIZE && c.bufferedSeen <= c.p2Seen
    ensures Restored(su, c, raws).p2Seen == FilterQ3.SeenNow(c.p2Seen, Some(c.bufferedSeen), Items(su, raws))
  {
  }

  /** Without a checkpoint the client is unknown and its buffer file is left as it is. */
  ghost function Restart(su: Setup, s: System, file: seq<Byte>): System {
    match s.saved
    case None => s.(file := file, mem := Memory(FRESH, []))
    case Some(c) =>
      IntactFits(su.parse, su.headerSize, file);
      var raws := Intact(su.parse, su.headerSize, file);
      s.(file := file[..WireSize(raws)], mem := Memory(Restored(su, c, raws), []))
  }

  predicate Takes(su: Setup, s: System, c: Copy) {
    c in s.inbox && c !in s.mem.pending && Header(su, c.raw) !in s.mem.state.seen
  }

  /** A finished checkpoint, after which everything pending is acked. */
  function Save(s: System, state: Saved): System {
    s.(saved := Some(state), mem := Memory(state, []), inbox := s.inbox - SetOf(s.mem.pending))
  }

  ghost function Next(su: Setup, s: System, step: Step): System {
    match step
    case Publish(c) =>
      if Acceptable(su, s.published, c.raw) then s.(published := s.published + {c.raw}, inbox := s.inbox + {c}) else s
    case Deliver(c) =>
      if c !in s.inbox || c in s.mem.pending then s
      else if !Takes(su, s, c) then s.(inbox := s.inbox - {c})
      else
        var mem := Memory(Count(su, s.mem.state, c.raw, !s.mem.state.ended), s.mem.pending + [c]);
        if s.mem.state.ended then s.(mem := mem, online := s.online + {c.raw})
        else s.(mem := mem, file := s.file + Framed(c.raw))
    case EndAverages => Save(s, s.mem.state.(ended := true))
    case Checkpoint => Save(s, s.mem.state)
    case Crash => Restart(su, s, s.file)
    case CrashInAppend(c, k) =>
      if !Takes(su, s, c) || s.mem.state.ended || k > |Framed(c.raw)| then s
      else Restart(su, s, s.file + Framed(c.raw)[..k])
    case CrashAfterSave(m) =>
      if m > |s.mem.pending| then s
      else Restart(su, s.(saved := Some(s.mem.state), inbox := s.inbox - SetOf(s.mem.pending[..m])), s.file)
  }

  ghost function Run(su: Setup, steps: seq<Step>): System {
    if steps == [] then System(None, [], Memory(FRESH, []), {}, {}, {})
    else Next(su, Run(su, steps[..|steps| - 1]), steps[|steps| - 1])
  }

  predicate IsCrash(step: Step) {
    step.Crash? || step.CrashInAppend? || step.CrashAfterSave?
  }

  /** A crash comes only once there is a checkpoint, or while there is nothing in the buffer. */
  ghost predicate Sheltered(su: Setup, steps: seq<Step>) {
    steps != [] ==>
      && Sheltered(su, steps[..|steps| - 1])
      && (IsCrash(steps[|steps| - 1]) ==> Run(su, steps).saved.Some? || Run(su, steps).file == [])
  }

  // ---- the books ----------------------------------------------------------------

  /** Which batches are in the buffer and which were filtered online, and how many of each the checkpoint knows. */
  datatype Ledger = Ledger(buf: seq<Raw>, bufSaved: nat, live: seq<Raw>, liveSaved: nat)

  function Heads(su: Setup, raws: seq<Raw>): set<string> {
    set r | r in raws :: Header(su, r)
  }

  /** The state tells of exactly these batches. */
  ghost predicate Tells(su: Setup, st: Saved, buf: seq<Raw>, live: seq<Raw>) {
    && st.seen == Heads(su, buf + live)
    && st.bufferedSeen == Items(su, buf)
    && st.p2Seen == Items(su, buf) + Items(su, live)
    && (live != [] ==> st.ended)
  }

  ghost predicate SavedTells(su: Setup, s: System, l: Ledger) {
    && l.bufSaved <= |l.buf| && l.liveSaved <= |l.live|
    && match s.saved {
         case None => l.bufSaved == l.liveSaved == 0 && l.live == [] && !s.mem.state.ended
         case Some(c) => Tells(su, c, l.buf[..l.bufSaved], l.live[..l.liveSaved]) && c.ended == s.mem.state.ended
       }
  }

  ghost predicate Waiting(inbox: set<Copy>, raw: Raw) {
    exists c :: c in inbox && c.raw == raw
  }

  ghost predicate Held(pending: seq<Copy>, raw: Raw) {
    exists c :: c in pending && c.raw == raw
  }

  /** Headers tell the published batches apart, and each of them fits the buffer. */
  ghost predicate Readable(su: Setup, published: set<Raw>) {
    forall r :: r in published ==> Acceptable(su, published, r)
  }

  ghost predicate Traffic(s: System, l: Ledger) {
    && (forall r :: r in l.buf + l.live ==> r in s.published)
    && (forall c :: c in s.inbox ==> c.raw in s.published)
    && (forall c :: c in s.mem.pending ==> c in s.inbox && c.raw in l.buf + l.live)
    && (forall i :: l.liveSaved <= i < |l.live| ==> Held(s.mem.pending, l.live[i]))
    && (forall r :: r in s.published ==> r in l.buf || r in l.live || Waiting(s.inbox, r))
  }

  ghost predicate OnlineOnly(s: System, l: Ledger) {
    && (forall r :: r in l.live ==> r in s.online)
    && (forall r :: r in s.online ==> r in s.published && r !in l.buf)
    && (s.online != {} ==> s.mem.state.ended)
  }

  ghost predicate Explains(su: Setup, s: System, l: Ledger) {
    && Distinct(l.buf + l.live) && s.file == Frames(l.buf)
    && Readable(su, s.published)
    && Tells(su, s.mem.state, l.buf, l.live) && SavedTells(su, s, l)
    && l.liveSaved <= |l.live| && Traffic(s, l) && OnlineOnly(s, l)
  }

  // ---- small facts --------------------------------------------------------------

  lemma HeadersAreHeads(su: Setup, raws: seq<Raw>)
    ensures SetOf(HeadersOf(su.parse, raws)) == Heads(su, raws)
  {
    var hs := HeadersOf(su.parse, raws);
    forall r | r in raws ensures Header(su, r) in hs {
      var i :| 0 <= i < |raws| && raws[i] == r;
      assert hs[i] == Header(su, r);
    }
    forall h | h in hs ensures h in Heads(su, raws) {
      var i :| 0 <= i < |hs| && hs[i] == h;
      assert raws[i] in raws;
    }
  }

  lemma KnownHeader(su: Setup, published: set<Raw>, raws: seq<Raw>, raw: Raw)
    requires Readable(su, published) && raw in published && forall r :: r in raws ==> r in published
    ensures Header(su, raw) in Heads(su, raws) <==> raw in raws
  {
  }

  lemma ItemsAdd(su: Setup, a: seq<Raw>, b: seq<Raw>)
    ensures Items(su, a + b) == Items(su, a) + Items(su, b)
  {
    ItemsAppend(su.parse, a, b);
  }

  lemma FramesAdd(raws: seq<Raw>, raw: Raw)
    ensures Frames(raws + [raw]) == Frames(raws) + Framed(raw)
  {
    assert (raws + [raw])[..|raws|] == raws;
  }

  lemma PublishedFit(su: Setup, published: set<Raw>, raws: seq<Raw>)
    requires Readable(su, published) && forall r :: r in raws ==> r in published
    ensures Recoverable(su.parse, su.headerSize, raws)
  {
    forall i | 0 <= i < |raws| ensures Bufferable(su.parse, raws[i]) && |raws[i]| >= su.headerSize {
      assert raws[i] in raws;
    }
  }

  lemma NothingFramed(raws: seq<Raw>)
    ensures raws != [] ==> Frames(raws) != []
  {
    if raws != [] {
      assert |Frames(raws)| >= |Framed(raws[|raws| - 1])| >= LENGTH_SIZE;
    }
  }

  // ---- arrivals -----------------------------------------------------------------

  lemma PublishKeeps(su: Setup, s: System, l: Ledger, c: Copy)
    requires Explains(su, s, l)
    ensures Explains(su, Next(su, s, Publish(c)), l)
  {
    hide Tells, SavedTells, Frames, Acceptable, Distinct;
    if Acceptable(su, s.published, c.raw) {
      StillReadable(su, s.published, c.raw);
      var t := Next(su, s, Publish(c));
      forall r | r in t.published ensures r in l.buf || r in l.live || Waiting(t.inbox, r) {
        if r in s.published && Waiting(s.inbox, r) {
          var w :| w in s.inbox && w.raw == r;
          assert w in t.inbox;
        } else if r !in s.published {
          assert c in t.inbox;
        }
      }
      assert SavedTells(su, t, l) by { SavedAlike(su, s, t, l); }
    }
  }

  lemma StillReadable(su: Setup, published: set<Raw>, raw: Raw)
    requires Readable(su, published) && Acceptable(su, published, raw)
    ensures Readable(su, published + {raw})
  {
    hide Header, Bufferable;
    forall r | r in published + {raw} ensures Acceptable(su, published + {raw}, r) {
      assert r in published ==> Acceptable(su, published, r);
    }
  }

  lemma SavedAlike(su: Setup, s: System, t: System, l: Ledger)
    requires SavedTells(su, s, l) && t.saved == s.saved && t.mem.state.ended == s.mem.state.ended
    ensures SavedTells(su, t, l)
  {
  }

  /** Dropping a duplicate: its batch is on file, saved, or its first copy is still pending. */
  lemma DropKeeps(su: Setup, s: System, l: Ledger, c: Copy)
    requires Explains(su, s, l) && c in s.inbox && c !in s.mem.pending && Header(su, c.raw) in s.mem.state.seen
    ensures Explains(su, s.(inbox := s.inbox - {c}), l)
  {
    hide SavedTells, Frames, Acceptable, OnlineOnly;
    var t := s.(inbox := s.inbox - {c});
    KnownHeader(su, s.published, l.buf + l.live, c.raw);
    forall r | r in s.published ensures r in l.buf || r in l.live || Waiting(t.inbox, r) {
      if r !in l.buf && r !in l.live {
        var w :| w in s.inbox && w.raw == r;
        assert w in t.inbox;
      }
    }
    assert SavedTells(su, t, l) by { SavedAlike(su, s, t, l); }
    assert OnlineOnly(t, l) by { OnlineAlike(s, t, l); }
  }

  lemma OnlineAlike(s: System, t: System, l: Ledger)
    requires OnlineOnly(s, l) && t.online == s.online && t.published == s.published && t.mem.state.ended == s.mem.state.ended
    ensures OnlineOnly(t, l)
  {
  }

  lemma CountTells(su: Setup, st: Saved, buf: seq<Raw>, live: seq<Raw>, raw: Raw)
    requires Tells(su, st, buf, live)
    ensures !st.ended ==> Tells(su, Count(su, st, raw, true), buf + [raw], live)
    ensures st.ended ==> Tells(su, Count(su, st, raw, false), buf, live + [raw])
  {
    hide Heads, Items;
    ItemsAdd(su, buf, [raw]);
    ItemsAdd(su, live, [raw]);
    HeadsMore(su, buf, live, raw);
  }

  lemma HeadsMore(su: Setup, buf: seq<Raw>, live: seq<Raw>, raw: Raw)
    ensures Heads(su, (buf + [raw]) + live) == Heads(su, buf + live) + {Header(su, raw)}
    ensures Heads(su, buf + (live + [raw])) == Heads(su, buf + live) + {Header(su, raw)}
  {
    hide Header;
    forall r ensures r in (buf + [raw]) + live <==> r in buf + live || r == raw {
    }
    forall r ensures r in buf + (live + [raw]) <==> r in buf + live || r == raw {
    }
  }

  lemma DistinctMore<T>(a: seq<T>, b: seq<T>, x: T)
    requires Distinct(a + b) && x !in a + b
    ensures Distinct((a + [x]) + b) && Distinct(a + (b + [x]))
  {
    forall i, j | 0 <= i < j < |a| + 1 + |b| ensures ((a + [x]) + b)[i] != ((a + [x]) + b)[j] {
      var k, m := if i > |a| then i - 1 else i, if j > |a| then j - 1 else j;
      assert i != |a| ==> ((a + [x]) + b)[i] == (a + b)[k];
      assert j != |a| ==> ((a + [x]) + b)[j] == (a + b)[m];
    }
    assert a + (b + [x]) == (a + b) + [x];
  }

  lemma BufferKeeps(su: Setup, s: System, l: Ledger, c: Copy)
    requires Explains(su, s, l) && Takes(su, s, c) && !s.mem.state.ended
    ensures Explains(su, Next(su, s, Deliver(c)), l.(buf := l.buf + [c.raw]))
  {
    hide Acceptable, Frames, Framed, Count, Tells, Header, Distinct;
    var t, l' := Next(su, s, Deliver(c)), l.(buf := l.buf + [c.raw]);
    NewBatch(su, s, l, c.raw);
    CountTells(su, s.mem.state, l.buf, l.live, c.raw);
    CountEnds(su, s.mem.state, c.raw, true);
    FramesAdd(l.buf, c.raw);
    DistinctMore(l.buf, l.live, c.raw);
    assert l'.buf[..l.bufSaved] == l.buf[..l.bufSaved];
  }

  lemma OnlineKeeps(su: Setup, s: System, l: Ledger, c: Copy)
    requires Explains(su, s, l) && Takes(su, s, c) && s.mem.state.ended
    ensures Explains(su, Next(su, s, Deliver(c)), l.(live := l.live + [c.raw]))
  {
    hide Acceptable, Frames, Framed, Count, Tells, Header, Distinct;
    var t, l' := Next(su, s, Deliver(c)), l.(live := l.live + [c.raw]);
    NewBatch(su, s, l, c.raw);
    CountTells(su, s.mem.state, l.buf, l.live, c.raw);
    CountEnds(su, s.mem.state, c.raw, false);
    DistinctMore(l.buf, l.live, c.raw);
    assert l'.live[..l.liveSaved] == l.live[..l.liveSaved];
    forall i | l.liveSaved <= i < |l'.live| ensures Held(t.mem.pending, l'.live[i]) {
      HeldMore(s.mem.pending, c, l'.live[i]);
    }
  }

  lemma HeldMore(pending: seq<Copy>, c: Copy, raw: Raw)
    ensures Held(pending, raw) || c.raw == raw ==> Held(pending + [c], raw)
  {
    assert c in pending + [c];
    if Held(pending, raw) {
      var w :| w in pending && w.raw == raw;
      assert w in pending + [c];
    }
  }

  lemma NewBatch(su: Setup, s: System, l: Ledger, raw: Raw)
    requires Explains(su, s, l) && raw in s.published && Header(su, raw) !in s.mem.state.seen
    ensures raw !in l.buf + l.live
  {
    KnownHeader(su, s.published, l.buf + l.live, raw);
  }

  lemma CountEnds(su: Setup, st: Saved, raw: Raw, buffered: bool)
    ensures Count(su, st, raw, buffered).ended == st.ended
  {
  }

  // ---- checkpoints ----------------------------------------------------------------

  lemma SaveKeeps(su: Setup, s: System, l: Ledger, ended: bool)
    requires Explains(su, s, l) && (s.mem.state.ended ==> ended)
    ensures Explains(su, Save(s, s.mem.state.(ended := ended)), l.(bufSaved := |l.buf|, liveSaved := |l.live|))
  {
    hide Acceptable, Frames, Heads, Items, Distinct, Waiting;
    assert l.buf[..|l.buf|] == l.buf && l.live[..|l.live|] == l.live;
    AckKeepsWaiting(s, l, SetOf(s.mem.pending));
  }

  /** Acking pending copies: a batch known to neither list still has a copy in the queue. */
  lemma AckKeepsWaiting(s: System, l: Ledger, acked: set<Copy>)
    requires Traffic(s, l) && forall c :: c in acked ==> c in s.mem.pending
    ensures forall r :: r in s.published ==> r in l.buf || r in l.live || Waiting(s.inbox - acked, r)
  {
    forall r | r in s.published && r !in l.buf && r !in l.live ensures Waiting(s.inbox - acked, r) {
      var w :| w in s.inbox && w.raw == r;
      assert w in s.inbox - acked;
    }
  }

  // ---- restarts -------------------------------------------------------------------

  lemma {:induction false} HeadsUnion(su: Setup, a: seq<Raw>, b: seq<Raw>, c: seq<Raw>)
    ensures Heads(su, a + c) + Heads(su, a + b) == Heads(su, (a + b) + c)
  {
  }

  lemma RestoredTells(su: Setup, c: Saved, buf: seq<Raw>, n: nat, live: seq<Raw>)
    requires n <= |buf| && Tells(su, c, buf[..n], live)
    ensures Tells(su, Restored(su, c, buf), buf, live)
  {
    hide Header, HeadersOf;
    HeadersAreHeads(su, buf);
    assert buf[..n] + buf[n..] == buf;
    HeadsUnion(su, buf[..n], buf[n..], live);
    ItemsAdd(su, buf[..n], buf[n..]);
    hide Heads, Items;
  }

  /** From a checkpoint that tells of n buffered batches and of live, over a file that holds buf. */
  lemma RestartKeeps(su: Setup, s: System, file: seq<Byte>, buf: seq<Raw>, n: nat, live: seq<Raw>)
    requires s.saved.Some? && n <= |buf| && Tells(su, s.saved.value, buf[..n], live)
    requires Distinct(buf + live) && Readable(su, s.published)
    requires Intact(su.parse, su.headerSize, file) == buf
    requires |Frames(buf)| <= |file| && Frames(buf) == file[..|Frames(buf)|]
    requires forall r :: r in buf + live ==> r in s.published
    requires forall c :: c in s.inbox ==> c.raw in s.published
    requires forall r :: r in s.published ==> r in buf || r in live || Waiting(s.inbox, r)
    requires forall r :: r in live ==> r in s.online
    requires forall r :: r in s.online ==> r in s.published && r !in buf
    requires s.online != {} ==> s.saved.value.ended
    ensures Explains(su, Restart(su, s, file), Ledger(buf, n, live, |live|))
  {
    hide Acceptable, Frames, Tells, Distinct, Waiting, Intact, WireSize, Restored;
    RestoredTells(su, s.saved.value, buf, n, live);
    RestoredEnds(su, s.saved.value, buf);
    FramesSize(buf);
    assert live[..|live|] == live;
  }

  lemma RestoredEnds(su: Setup, c: Saved, raws: seq<Raw>)
    ensures Restored(su, c, raws).ended == c.ended
  {
  }

  /** What is left of the ledger when only what the checkpoint knows of the online batches counts. */
  lemma TakenBack(s: System, l: Ledger)
    requires Traffic(s, l) && l.liveSaved <= |l.live|
    ensures forall r :: r in s.published ==> r in l.buf || r in l.live[..l.liveSaved] || Waiting(s.inbox, r)
  {
    forall r | r in s.published && r !in l.buf && r !in l.live[..l.liveSaved] ensures Waiting(s.inbox, r) {
      if r in l.live {
        var i := InTail(l.live, l.liveSaved, r);
        assert Held(s.mem.pending, l.live[i]);
        var w :| w in s.mem.pending && w.raw == r;
        assert w in s.inbox;
      }
    }
  }

  lemma InTail<T>(xs: seq<T>, n: nat, x: T) returns (i: nat)
    requires n <= |xs| && x in xs && x !in xs[..n]
    ensures n <= i < |xs| && xs[i] == x
  {
    i :| 0 <= i < |xs| && xs[i] == x;
    assert forall k :: 0 <= k < n ==> xs[..n][k] in xs[..n];
  }

  lemma DistinctFront<T>(a: seq<T>, b: seq<T>, n: nat)
    requires Distinct(a + b) && n <= |b|
    ensures Distinct(a + b[..n])
  {
    assert a + b[..n] == (a + b)[..|a| + n];
  }

  lemma WholeFile(su: Setup, raws: seq<Raw>)
    requires Recoverable(su.parse, su.headerSize, raws)
    ensures Intact(su.parse, su.headerSize, Frames(raws)) == raws
  {
    hide Intact;
    NothingIsTorn();
    RecoveryOfTorn(su.parse, su.headerSize, raws, []);
    assert Frames(raws) + [] == Frames(raws);
  }

  lemma CrashKeeps(su: Setup, s: System, l: Ledger)
    returns (l': Ledger)
    requires Explains(su, s, l) && s.saved.Some?
    ensures Explains(su, Restart(su, s, s.file), l')
  {
    hide Acceptable, Frames, Tells, Distinct, Waiting, Intact, Restart;
    var live := l.live[..l.liveSaved];
    TakenBack(s, l);
    DistinctFront(l.buf, l.live, l.liveSaved);
    PublishedFit(su, s.published, l.buf);
    WholeFile(su, l.buf);
    assert s.file[..|s.file|] == s.file;
    RestartKeeps(su, s, s.file, l.buf, l.bufSaved, live);
    l' := Ledger(l.buf, l.bufSaved, live, |live|);
  }

  lemma CrashAfterSaveKeeps(su: Setup, s: System, l: Ledger, m: nat)
    requires Explains(su, s, l) && m <= |s.mem.pending|
    ensures Explains(su, Restart(su, s.(saved := Some(s.mem.state), inbox := s.inbox - SetOf(s.mem.pending[..m])), s.file),
                     l.(bufSaved := |l.buf|, liveSaved := |l.live|))
  {
    hide Acceptable, Frames, Tells, Distinct, Waiting, Intact, Restart;
    var t := s.(saved := Some(s.mem.state), inbox := s.inbox - SetOf(s.mem.pending[..m]));
    AckKeepsWaiting(s, l, SetOf(s.mem.pending[..m]));
    PublishedFit(su, s.published, l.buf);
    WholeFile(su, l.buf);
    assert s.file[..|s.file|] == s.file && l.buf[..|l.buf|] == l.buf;
    RestartKeeps(su, t, s.file, l.buf, |l.buf|, l.live);
  }

  /** A torn append: the batch is there if its last byte is, and otherwise not at all. */
  lemma TornAppend(su: Setup, raws: seq<Raw>, raw: Raw, k: nat)
    returns (buf: seq<Raw>)
    requires Recoverable(su.parse, su.headerSize, raws + [raw]) && k <= |Framed(raw)|
    ensures buf == if k == |Framed(raw)| then raws + [raw] else raws
    ensures var file := Frames(raws) + Framed(raw)[..k];
      && Intact(su.parse, su.headerSize, file) == buf
      && |Frames(buf)| <= |file| && Frames(buf) == file[..|Frames(buf)|]
  {
    hide Intact, Framed, Torn;
    FramesAdd(raws, raw);
    assert (raws + [raw])[|raws|] == raw && forall i :: 0 <= i < |raws| ==> (raws + [raw])[i] == raws[i];
    if k == |Framed(raw)| {
      buf := raws + [raw];
      assert Framed(raw)[..k] == Framed(raw);
      WholeFile(su, buf);
    } else {
      buf := raws;
      CutFrameIsTorn(raw, k);
      RecoveryOfTorn(su.parse, su.headerSize, raws, Framed(raw)[..k]);
    }
  }

  lemma CrashInAppendKeeps(su: Setup, s: System, l: Ledger, c: Copy, k: nat)
    returns (l': Ledger)
    requires Explains(su, s, l) && s.saved.Some? && Takes(su, s, c) && !s.mem.state.ended && k <= |Framed(c.raw)|
    ensures Explains(su, Restart(su, s, s.file + Framed(c.raw)[..k]), l')
  {
    hide Acceptable, Frames, Framed, Tells, Distinct, Waiting, Intact, Restart, Header;
    var live := l.live[..l.liveSaved];
    TakenBack(s, l);
    NewBatch(su, s, l, c.raw);
    PublishedFit(su, s.published, l.buf + [c.raw]);
    var buf := TornAppend(su, l.buf, c.raw, k);
    DistinctMore(l.buf, l.live, c.raw);
    DistinctFront(l.buf, l.live, l.liveSaved);
    DistinctFront(l.buf + [c.raw], l.live, l.liveSaved);
    assert (l.buf + [c.raw])[..l.bufSaved] == l.buf[..l.bufSaved];
    RestartKeeps(su, s, s.file + Framed(c.raw)[..k], buf, l.bufSaved, live);
    l' := Ledger(buf, l.bufSaved, live, |live|);
  }

  lemma NothingKeeps(su: Setup, s: System, l: Ledger)
    requires Explains(su, s, l) && s.saved.None? && s.file == []
    ensures Explains(su, Restart(su, s, []), l)
  {
    hide Acceptable, Waiting;
    NothingFramed(l.buf);
    assert s.online == {} ==> true;
  }

  // ---- every run ------------------------------------------------------------------

  lemma NextKeeps(su: Setup, s: System, l: Ledger, step: Step)
    returns (l': Ledger)
    requires Explains(su, s, l)
    requires IsCrash(step) ==> Next(su, s, step).saved.Some? || Next(su, s, step).file == []
    ensures Explains(su, Next(su, s, step), l')
  {
    hide Explains, Restart;
    l' := l;
    match step
    case Publish(c) => PublishKeeps(su, s, l, c);
    case Deliver(c) => l' := DeliverKeeps(su, s, l, c);
    case EndAverages =>
      SaveKeeps(su, s, l, true);
      l' := l.(bufSaved := |l.buf|, liveSaved := |l.live|);
    case Checkpoint =>
      SaveKeeps(su, s, l, s.mem.state.ended);
      l' := l.(bufSaved := |l.buf|, liveSaved := |l.live|);
    case Crash => l' := AnyCrashKeeps(su, s, l);
    case CrashInAppend(c, k) => l' := AnyAppendKeeps(su, s, l, c, k);
    case CrashAfterSave(m) =>
      if m <= |s.mem.pending| {
        CrashAfterSaveKeeps(su, s, l, m);
        l' := l.(bufSaved := |l.buf|, liveSaved := |l.live|);
      }
  }

  lemma DeliverKeeps(su: Setup, s: System, l: Ledger, c: Copy)
    returns (l': Ledger)
    requires Explains(su, s, l)
    ensures Explains(su, Next(su, s, Deliver(c)), l')
  {
    hide Explains, Header;
    l' := l;
    if c in s.inbox && c !in s.mem.pending {
      if !Takes(su, s, c) {
        DropKeeps(su, s, l, c);
      } else if s.mem.state.ended {
        OnlineKeeps(su, s, l, c);
        l' := l.(live := l.live + [c.raw]);
      } else {
        BufferKeeps(su, s, l, c);
        l' := l.(buf := l.buf + [c.raw]);
      }
    }
  }

  lemma RestartSaved(su: Setup, s: System, file: seq<Byte>)
    ensures Restart(su, s, file).saved == s.saved
    ensures s.saved.None? ==> Restart(su, s, file).file == file
  {
  }

  lemma AnyCrashKeeps(su: Setup, s: System, l: Ledger)
    returns (l': Ledger)
    requires Explains(su, s, l)
    requires Next(su, s, Crash).saved.Some? || Next(su, s, Crash).file == []
    ensures Explains(su, Next(su, s, Crash), l')
  {
    hide Explains, Restart;
    RestartSaved(su, s, s.file);
    if s.saved.Some? {
      l' := CrashKeeps(su, s, l);
    } else {
      NothingKeeps(su, s, l);
      l' := l;
    }
  }

  lemma AnyAppendKeeps(su: Setup, s: System, l: Ledger, c: Copy, k: nat)
    returns (l': Ledger)
    requires Explains(su, s, l)
    requires Next(su, s, CrashInAppend(c, k)).saved.Some? || Next(su, s, CrashInAppend(c, k)).file == []
    ensures Explains(su, Next(su, s, CrashInAppend(c, k)), l')
  {
    hide Explains, Restart, Framed, Header;
    l' := l;
    if Takes(su, s, c) && !s.mem.state.ended && k <= |Framed(c.raw)| {
      RestartSaved(su, s, s.file + Framed(c.raw)[..k]);
      if s.saved.Some? {
        l' := CrashInAppendKeeps(su, s, l, c, k);
      } else {
        assert s.file == [] && s.file + Framed(c.raw)[..k] == [];
        NothingKeeps(su, s, l);
      }
    }
  }

  lemma {:induction false} EveryRunIsExplained(su: Setup, steps: seq<Step>)
    returns (l: Ledger)
    requires Sheltered(su, steps)
    ensures Explains(su, Run(su, steps), l)
  {
    if steps == [] {
      l := Ledger([], 0, [], 0);
      NothingToExplain(su);
    } else {
      hide Explains, Next;
      l := EveryRunIsExplained(su, steps[..|steps| - 1]);
      l := NextKeeps(su, Run(su, steps[..|steps| - 1]), l, steps[|steps| - 1]);
    }
  }

  lemma NothingToExplain(su: Setup)
    ensures Explains(su, Run(su, []), Ledger([], 0, [], 0))
  {
  }

  // ---- what it means ----------------------------------------------------------------

  /**
   Over every run of deliveries, checkpoints and crashes, torn appends among them, in which no
   crash comes before the first checkpoint while the buffer holds something: the buffer holds
   different batches, each readable and once; none of them was filtered online; a batch that is
   neither still waits for an ack; and once all is acked the two together are the batches ever
   published, and the items seen are theirs.
   */
  lemma EachBatchOnce(su: Setup, steps: seq<Step>)
    returns (buf: seq<Raw>, live: seq<Raw>)
    requires Sheltered(su, steps)
    ensures var s := Run(su, steps);
      && s.file == Frames(buf) && ItemsIn(su.parse, s.file) == ItemsOf(su.parse, buf)
      && Distinct(buf + live) && s.mem.state.p2Seen == Items(su, buf + live)
      && (forall r :: r in buf ==> r in s.published && r !in s.online)
      && (forall r :: r in live ==> r in s.online) && (forall r :: r in s.online ==> r in s.published)
      && (forall r :: r in s.published ==> r in buf || r in live || Waiting(s.inbox, r))
      && (s.inbox == {} ==> SetOf(buf + live) == s.published && SetOf(live) == s.online)
  {
    hide Run, Tells, Acceptable, Frames, Distinct;
    var s := Run(su, steps);
    var l := EveryRunIsExplained(su, steps);
    buf, live := l.buf, l.live;
    PublishedFit(su, s.published, buf);
    BufferedIsRead(su.parse, buf);
    SeenItems(su, s.mem.state, buf, live);
    if s.inbox == {} {
      forall r ensures r in SetOf(buf + live) <==> r in s.published {
      }
    }
  }

  lemma SeenItems(su: Setup, st: Saved, buf: seq<Raw>, live: seq<Raw>)
    requires Tells(su, st, buf, live)
    ensures st.p2Seen == Items(su, buf + live)
  {
    ItemsAdd(su, buf, live);
  }

  /** ... so the rows drained and the rows filtered online are those of all published batches, each once. */
  lemma DrainedPlusOnline(su: Setup, averages: map<string, real>, pct: real, steps: seq<Step>, drained: seq<Row>)
    returns (buf: seq<Raw>, live: seq<Raw>)
    requires Sheltered(su, steps) && Run(su, steps).inbox == {}
    requires Filtered(averages, pct, ItemsIn(su.parse, Run(su, steps).file), drained)
    ensures var s := Run(su, steps);
      && Distinct(buf + live) && SetOf(buf + live) == s.published && SetOf(live) == s.online
      && forall online :: Filtered(averages, pct, ItemsOf(su.parse, live), online) ==>
           Filtered(averages, pct, ItemsOf(su.parse, buf + live), drained + online)
  {
    hide Run, Sheltered, ItemsOf, ItemsIn, RowsOf, Distinct, Filtered;
    buf, live := EachBatchOnce(su, steps);
    ItemsAppend(su.parse, buf, live);
    RowsAppend(averages, pct, ItemsOf(su.parse, buf), ItemsOf(su.parse, live));
    FilteredIff(averages, pct, ItemsOf(su.parse, buf), drained);
    forall online | Filtered(averages, pct, ItemsOf(su.parse, live), online)
      ensures Filtered(averages, pct, ItemsOf(su.parse, buf + live), drained + online)
    {
      FilteredIff(averages, pct, ItemsOf(su.parse, live), online);
      FilteredIff(averages, pct, ItemsOf(su.parse, buf + live), drained + online);
    }
  }

  /** A run with one crash before the first checkpoint, after which the batch is in the buffer twice. */
  lemma UnshelteredBuffersTwice(su: Setup, c: Copy)
    requires Bufferable(su.parse, c.raw) && |c.raw| >= su.headerSize
    ensures var steps := [Publish(c), Deliver(c), Crash, Deliver(c)];
      !Sheltered(su, steps) && Run(su, steps).file == Frames([c.raw, c.raw])
  {
    hide Framed, Count, Header;
    var steps := [Publish(c), Deliver(c), Crash, Deliver(c)];
    assert steps[..3][..2] == steps[..2] && steps[..2][..1] == steps[..1] && steps[..1][..0] == [];
    var s1 := Next(su, Run(su, []), Publish(c));
    var s2 := Next(su, s1, Deliver(c));
    var s3 := Next(su, s2, Crash);
    assert Run(su, steps[..1]) == s1 && Run(su, steps[..2]) == s2 && Run(su, steps[..3]) == s3;
    FramesAdd([], c.raw);
    FramesAdd([c.raw], c.raw);
    assert [] + [c.raw] == [c.raw] && [c.raw] + [c.raw] == [c.raw, c.raw];
    assert [] + Framed(c.raw) == Framed(c.raw);
    FramedIsSome(c.raw);
  }

  lemma FramedIsSome(raw: Raw)
    ensures Framed(raw) != []
  {
  }
}
