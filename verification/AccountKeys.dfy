/**
 Accounts of query 4: the key text "bank|account" used in logs, checkpoints and shard
 hashes, the pair text of the counter's checkpoint, and the order outputs are sorted in
 (src/worker/strategy/counter/counter.go, pathfinder/pathfinder.go, suspicious_filter/suspicious_filter.go).
 */
module AccountKeys {
  import opened Common
  import opened SortedKeys

  datatype Account = Account(bank: U32, name: string)

  datatype Pair = Pair(source: Account, dest: Account)

  datatype KeyError = MissingSeparator | BadBank | MissingArrow

  // ---- decimal numbers --------------------------------------------------------

  function Digit(d: nat): char
    requires d < 10
  {
    '0' + d as char
  }

  function Decimal(n: nat): string {
    if n < 10 then [Digit(n)] else Decimal(n / 10) + [Digit(n % 10)]
  }

  predicate IsDecimal(s: string) {
    |s| > 0 && forall i :: 0 <= i < |s| ==> '0' <= s[i] <= '9'
  }

  function ValueOf(s: string): nat
    requires forall i :: 0 <= i < |s| ==> '0' <= s[i] <= '9'
  {
    if s == "" then 0 else 10 * ValueOf(s[..|s| - 1]) + (s[|s| - 1] as int - '0' as int)
  }

  /** strconv.ParseUint(s, 10, 32). */
  function ParseUint32(s: string): Option<U32> {
    if IsDecimal(s) && ValueOf(s) < U32_SIZE then Some(ValueOf(s)) else None
  }

  lemma {:induction false} DecimalRoundTrip(n: nat)
    ensures IsDecimal(Decimal(n)) && ValueOf(Decimal(n)) == n
  {
    if n >= 10 {
      DecimalRoundTrip(n / 10);
      assert Decimal(n)[..|Decimal(n)| - 1] == Decimal(n / 10);
    }
  }

  lemma BankRoundTrip(bank: U32)
    ensures ParseUint32(Decimal(bank)) == Some(bank)
  {
    DecimalRoundTrip(bank);
  }

  // ---- account keys -----------------------------------------------------------

  /** strings.Index for a single character; the length when it is absent. */
  function IndexOf(s: string, c: char): (i: nat)
    ensures i <= |s| && c !in s[..i]
    ensures i < |s| ==> s[i] == c
  {
    if s == "" || s[0] == c then 0 else IndexOf(s[1..], c) + 1
  }

  lemma {:induction false} FirstIndex(s: string, c: char, i: nat)
    requires i < |s| && s[i] == c && c !in s[..i]
    ensures IndexOf(s, c) == i
  {
    if i > 0 {
      assert s[..i][0] == s[0] && s[1..][..i - 1] == s[..i][1..];
      FirstIndex(s[1..], c, i - 1);
    }
  }

  function EncodeAccount(k: Account): string {
    Decimal(k.bank) + "|" + k.name
  }

  function DecodeAccount(s: string): Result<Account, KeyError> {
    var i := IndexOf(s, '|');
    if i == |s| then Err(MissingSeparator)
    else
      match ParseUint32(s[..i])
      case None => Err(BadBank)
      case Some(bank) => Ok(Account(bank, s[i + 1..]))
  }

  /** Every account survives, whatever characters its name holds. */
  lemma AccountRoundTrip(k: Account)
    ensures DecodeAccount(EncodeAccount(k)) == Ok(k)
  {
    var s, n := EncodeAccount(k), |Decimal(k.bank)|;
    DecimalRoundTrip(k.bank);
    assert s[..n] == Decimal(k.bank) && s[n] == '|' && s[n + 1..] == k.name;
    assert '|' !in s[..n];
    FirstIndex(s, '|', n);
  }

  /** Some digits, at least one, that stand for the number; leading zeros do not matter. */
  ghost predicate Spells(digits: string, n: nat) {
    digits != "" && (forall i :: 0 <= i < |digits| ==> '0' <= digits[i] <= '9') && ValueOf(digits) == n
  }

  /** What reads as an account: a number, a bar, and the name, whatever it holds. */
  lemma ReadsAsAccountIff(s: string, k: Account)
    ensures DecodeAccount(s) == Ok(k) <==> exists digits: string :: Spells(digits, k.bank) && s == digits + "|" + k.name
  {
    var i := IndexOf(s, '|');
    if DecodeAccount(s) == Ok(k) {
      assert s == s[..i] + "|" + s[i + 1..];
      assert Spells(s[..i], k.bank);
    }
    if digits: string :| Spells(digits, k.bank) && s == digits + "|" + k.name {
      var n := |digits|;
      assert s[..n] == digits && s[n] == '|' && s[n + 1..] == k.name;
      FirstIndex(s, '|', n);
    }
  }

  /** Account sets in a checkpoint: lists of texts, each text once. */
  function EncodeSet(accounts: set<Account>): set<string> {
    set a | a in accounts :: EncodeAccount(a)
  }

  function DecodeSet(texts: set<string>): Option<set<Account>> {
    if forall t :: t in texts ==> DecodeAccount(t).Ok?
    then Some(set t | t in texts :: DecodeAccount(t).value)
    else None
  }

  lemma SetRoundTrip(accounts: set<Account>)
    ensures DecodeSet(EncodeSet(accounts)) == Some(accounts)
  {
    hide EncodeAccount, DecodeAccount;
    forall a | a in accounts ensures DecodeAccount(EncodeAccount(a)) == Ok(a) {
      AccountRoundTrip(a);
    }
    var texts := EncodeSet(accounts);
    assert forall t :: t in texts ==> DecodeAccount(t).Ok? && DecodeAccount(t).value in accounts;
    forall a | a in accounts ensures a in DecodeSet(texts).value {
      assert EncodeAccount(a) in texts;
    }
    assert DecodeSet(texts).value == accounts;
  }

  // ---- pair keys --------------------------------------------------------------

  const ARROW := '\U{2192}'

  function EncodePair(p: Pair): string {
    EncodeAccount(p.source) + [ARROW] + EncodeAccount(p.dest)
  }

  function DecodePair(s: string): Result<Pair, KeyError> {
    var i := IndexOf(s, ARROW);
    if i == |s| then Err(MissingArrow)
    else
      match DecodeAccount(s[..i])
      case Err(e) => Err(e)
      case Ok(source) =>
        match DecodeAccount(s[i + 1..])
        case Err(e) => Err(e)
        case Ok(dest) => Ok(Pair(source, dest))
  }

  /**
   The text of one pair reads as that pair exactly when the source account's name holds no
   arrow; with one, the text is cut inside the name.
   */
  lemma PairRoundTripIff(p: Pair)
    ensures DecodePair(EncodePair(p)) == Ok(p) <==> ARROW !in p.source.name
  {
    var s, source := EncodePair(p), EncodeAccount(p.source);
    DecimalRoundTrip(p.source.bank);
    assert ARROW !in Decimal(p.source.bank);
    if ARROW !in p.source.name {
      assert s[..|source|] == source && s[|source| + 1..] == EncodeAccount(p.dest);
      FirstIndex(s, ARROW, |source|);
      AccountRoundTrip(p.source);
      AccountRoundTrip(p.dest);
    } else {
      var i := IndexOf(source, ARROW);
      var k :| 0 <= k < |p.source.name| && p.source.name[k] == ARROW;
      assert source[|Decimal(p.source.bank)| + 1 + k] == ARROW;
      assert source[..|source|] == source;
      assert s[..i] == source[..i] && s[i] == ARROW;
      FirstIndex(s, ARROW, i);
      SourceCut(p.source, i);
    }
  }

  /** The text is cut at its first arrow, so no pair whose source name holds one is ever read. */
  lemma ReadSourceHasNoArrow(s: string)
    requires DecodePair(s).Ok?
    ensures ARROW !in DecodePair(s).value.source.name
  {
    var text := s[..IndexOf(s, ARROW)];
    assert DecodePair(s).value.source.name == text[IndexOf(text, '|') + 1..];
  }

  /**
   Two pairs with one text: an arrow in the first one's source name can be read as the
   arrow between the accounts of the second.
   */
  lemma PairTextsCollide(a: Account, b: Account, c: Account)
    ensures var p := Pair(Account(a.bank, a.name + [ARROW] + EncodeAccount(b)), c);
      var q := Pair(a, Account(b.bank, b.name + [ARROW] + EncodeAccount(c)));
      p != q && EncodePair(p) == EncodePair(q)
  {
    hide Decimal;
    var p := Pair(Account(a.bank, a.name + [ARROW] + EncodeAccount(b)), c);
    var q := Pair(a, Account(b.bank, b.name + [ARROW] + EncodeAccount(c)));
    assert |p.source.name| > |q.source.name|;
    var x, y, z := Decimal(a.bank) + "|" + a.name, Decimal(b.bank) + "|" + b.name, EncodeAccount(c);
    assert EncodePair(p) == x + [ARROW] + y + [ARROW] + z;
    assert EncodePair(q) == x + [ARROW] + y + [ARROW] + z;
  }

  /** A proper prefix of an account's text does not decode to the account. */
  lemma SourceCut(k: Account, i: nat)
    requires i < |EncodeAccount(k)|
    ensures DecodeAccount(EncodeAccount(k)[..i]) != Ok(k)
  {
    var s, n := EncodeAccount(k)[..i], |Decimal(k.bank)|;
    DecimalRoundTrip(k.bank);
    assert forall x :: 0 <= x < i && x < n ==> s[x] == Decimal(k.bank)[x];
    if i <= n {
      assert '|' !in s;
    } else {
      assert s[..n] == Decimal(k.bank) && s[n] == '|';
      FirstIndex(s, '|', n);
      assert |s[n + 1..]| < |k.name|;
    }
  }

  // ---- order ------------------------------------------------------------------

  predicate TextLess(a: string, b: string) {
    b != "" && (a == "" || a[0] < b[0] || (a[0] == b[0] && TextLess(a[1..], b[1..])))
  }

  /** accountKeyCmp: by bank, then by name. */
  predicate Less(a: Account, b: Account) {
    a.bank < b.bank || (a.bank == b.bank && TextLess(a.name, b.name))
  }

  lemma {:induction false} TextOrder(a: string, b: string, c: string)
    ensures TextLess(a, b) && TextLess(b, c) ==> TextLess(a, c)
    ensures TextLess(a, b) || TextLess(b, a) || a == b
    ensures !(TextLess(a, b) && TextLess(b, a)) && !TextLess(a, a)
  {
    if a == "" || b == "" {
      if a != "" {
        TextOrder(a[1..], "", "");
      }
    } else {
      TextOrder(a[1..], b[1..], if c == "" then "" else c[1..]);
      TextOrder(a[1..], a[1..], "");
      assert a == [a[0]] + a[1..] && b == [b[0]] + b[1..];
    }
  }

  lemma Order(a: Account, b: Account, c: Account)
    ensures Less(a, b) && Less(b, c) ==> Less(a, c)
    ensures Less(a, b) || Less(b, a) || a == b
    ensures !(Less(a, b) && Less(b, a)) && !Less(a, a)
  {
    TextOrder(a.name, b.name, c.name);
  }

  /** Pairs go by source, then by destination. */
  predicate PairLess(p: Pair, q: Pair) {
    Less(p.source, q.source) || (p.source == q.source && Less(p.dest, q.dest))
  }

  lemma AccountsAreOrdered()
    ensures StrictOrder(Less)
  {
    forall a, b, c ensures Less(a, b) && Less(b, c) ==> Less(a, c) {
      Order(a, b, c);
    }
    forall a, b ensures (Less(a, b) || Less(b, a) || a == b) && !(Less(a, b) && Less(b, a)) && !Less(a, a) {
      Order(a, b, a);
    }
  }

  lemma PairsAreOrdered()
    ensures StrictOrder(PairLess)
  {
    forall p, q, r ensures PairLess(p, q) && PairLess(q, r) ==> PairLess(p, r) {
      Order(p.source, q.source, r.source);
      Order(p.dest, q.dest, r.dest);
    }
    forall p, q ensures (PairLess(p, q) || PairLess(q, p) || p == q) && !(PairLess(p, q) && PairLess(q, p)) && !PairLess(p, p) {
      Order(p.source, q.source, p.source);
      Order(p.dest, q.dest, p.dest);
    }
  }
}
