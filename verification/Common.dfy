/** Shared types: the machine integers of the source, Option and Result. */
module Common {

  const U8_SIZE := 0x100
  const U16_SIZE := 0x1_0000
  const U32_SIZE := 0x1_0000_0000
  const U64_SIZE := 0x1_0000_0000_0000_0000

  type U8 = x: int | 0 <= x < U8_SIZE
  type U16 = x: int | 0 <= x < U16_SIZE
  type U32 = x: int | 0 <= x < U32_SIZE
  type U64 = x: int | 0 <= x < U64_SIZE

  datatype Option<+T> = None | Some(value: T)

  datatype Result<+T, +E> = Ok(value: T) | Err(error: E)

  function Success<T, E>(r: Result<T, E>): Option<T> {
    match r
    case Ok(v) => Some(v)
    case Err(_) => None
  }

  function SetOf<T>(s: seq<T>): set<T> {
    set x | x in s
  }

  ghost predicate Distinct<T>(s: seq<T>) {
    forall i, j :: 0 <= i < j < |s| ==> s[i] != s[j]
  }

  lemma DistinctConcat<T>(a: seq<T>, b: seq<T>)
    requires Distinct(a) && Distinct(b)
    requires forall x :: x in b ==> x !in a
    ensures Distinct(a + b)
  {
    var all := a + b;
    forall i, j | 0 <= i < j < |all| ensures all[i] != all[j] {
      if j >= |a| {
        assert all[j] == b[j - |a|] && all[j] in b;
        if i >= |a| {
          assert all[i] == b[i - |a|];
        } else {
          assert all[i] == a[i] && all[i] in a;
        }
      }
    }
  }

  lemma {:induction false} SubsetSize<T>(a: set<T>, b: set<T>)
    requires a <= b
    ensures |a| <= |b|
    ensures |a| == |b| ==> a == b
  {
    if a != {} {
      var x :| x in a;
      SubsetSize(a - {x}, b - {x});
    }
  }

  lemma NothingMissing<T>(a: set<T>, b: set<T>)
    ensures a <= b && b - a == {} ==> a == b
  {
    if a <= b && b - a == {} {
      assert forall x :: x in b ==> x !in b - a;
    }
  }

  lemma Reassociate<T>(a: seq<T>, b: seq<T>, c: seq<T>)
    ensures (a + b) + c == a + (b + c)
  {
  }

  function Flatten<T>(xss: seq<seq<T>>): seq<T> {
    if |xss| == 0 then [] else Flatten(xss[..|xss| - 1]) + xss[|xss| - 1]
  }

  lemma {:induction false} InFlatten<T>(xss: seq<seq<T>>, x: T)
    ensures x in Flatten(xss) <==> exists i :: 0 <= i < |xss| && x in xss[i]
  {
    if |xss| > 0 {
      InFlatten(xss[..|xss| - 1], x);
      if i :| 0 <= i < |xss| && x in xss[i] {
        assert i < |xss| - 1 ==> x in xss[..|xss| - 1][i];
      }
    }
  }

  // ---- counters kept per key ----------------------------------------------------

  ghost function SumOf<K>(m: map<K, nat>): nat {
    if m == map[] then 0
    else
      var k :| k in m;
      m[k] + SumOf(m - {k})
  }

  lemma {:induction false} SumOfWithout<K>(m: map<K, nat>, k: K)
    requires k in m
    ensures SumOf(m) == m[k] + SumOf(m - {k})
    decreases |m|
  {
    var first :| first in m && SumOf(m) == m[first] + SumOf(m - {first});
    if first != k {
      SumOfWithout(m - {first}, k);
      SumOfWithout(m - {k}, first);
      assert m - {first} - {k} == m - {k} - {first};
    }
  }

  function ValueAt<K>(m: map<K, nat>, k: K): nat {
    if k in m then m[k] else 0
  }

  lemma SumOfUpdate<K>(m: map<K, nat>, k: K, v: nat)
    ensures SumOf(m[k := v]) == SumOf(m) - ValueAt(m, k) + v
  {
    SumOfWithout(m[k := v], k);
    assert m[k := v] - {k} == m - {k};
    if k in m {
      SumOfWithout(m, k);
    } else {
      assert m - {k} == m;
    }
  }

  /** Machine arithmetic of uint64 and the truncating conversion to uint32. */
  function Wrap64(n: nat): (w: U64)
    ensures n < U64_SIZE ==> w == n
  {
    if n < U64_SIZE then n else n % U64_SIZE
  }

  function Low32(x: nat): (w: U32)
    ensures x < U32_SIZE ==> w == x
  {
    if x < U32_SIZE then x else x % U32_SIZE
  }

  lemma WrapAdds(a: nat, b: nat)
    ensures Wrap64(Wrap64(a) + b) == Wrap64(a + b)
  {
    var q, r := a / 0x1_0000_0000_0000_0000, a % 0x1_0000_0000_0000_0000;
    var q2, r2 := (r + b) / 0x1_0000_0000_0000_0000, (r + b) % 0x1_0000_0000_0000_0000;
    assert a + b == 0x1_0000_0000_0000_0000 * (q + q2) + r2;
  }

  lemma LowAdds(a: nat, b: nat)
    ensures Low32(Low32(a) + b) == Low32(a + b)
  {
    var q, r := a / 0x1_0000_0000, a % 0x1_0000_0000;
    var q2, r2 := (r + b) / 0x1_0000_0000, (r + b) % 0x1_0000_0000;
    assert a + b == 0x1_0000_0000 * (q + q2) + r2;
  }

  lemma LowOfWrap(a: nat)
    ensures Low32(Wrap64(a)) == Low32(a)
  {
    var q, r := a / 0x1_0000_0000_0000_0000, a % 0x1_0000_0000_0000_0000;
    var q2, r2 := r / 0x1_0000_0000, r % 0x1_0000_0000;
    assert a == 0x1_0000_0000 * (0x1_0000_0000 * q + q2) + r2;
    assert a % 0x1_0000_0000 == r2;
  }
}
