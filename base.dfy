/** Small shared vocabulary: optional values, results carrying the source's
    exceptions, Java's integer division, powers of two and sums over maps. */
module Base {

  datatype Option<T> = None | Some(value: T)

  /** The outcome of an operation that in the source may throw. */
  datatype Result<T, E> = Ok(value: T) | Err(error: E)

  /** Java's `/` on `int` and `long`: the quotient is truncated toward zero,
      whereas Dafny's `/` is Euclidean. */
  function JavaDiv(a: int, b: int): (q: int)
    requires b > 0
    ensures a >= 0 ==> q == a / b
    ensures a >= 0 ==> q * b <= a < q * b + b
    ensures a < 0 ==> q * b - b < a <= q * b
  {
    if a >= 0 then a / b else -((-a) / b)
  }

  /** `1 << n` for the small shifts the source performs. */
  function Pow2(n: nat): (p: nat)
    ensures p >= 1
  {
    if n == 0 then 1 else 2 * Pow2(n - 1)
  }

  /** The sum of the values of a map. */
  ghost function MapSum<K>(m: map<K, nat>): nat
    decreases |m|
  {
    if |m| == 0 then 0
    else
      var k :| k in m;
      m[k] + MapSum(m - {k})
  }

  /** The sum may be split at any key, not only at the one the definition picks. */
  lemma {:induction false} MapSumRemove<K>(m: map<K, nat>, k: K)
    requires k in m
    ensures MapSum(m) == m[k] + MapSum(m - {k})
    decreases |m|
  {
    var j := MapSumChoice(m);
    if j != k {
      var mj, mk := m - {j}, m - {k};
      assert k in mj && j in mk;
      MapSumRemove(mj, k);
      MapSumRemove(mk, j);
      assert mj - {k} == mk - {j};
    }
  }

  /** The key at which the definition of `MapSum` splits `m`. */
  lemma MapSumChoice<K>(m: map<K, nat>) returns (j: K)
    requires |m| != 0
    ensures j in m && MapSum(m) == m[j] + MapSum(m - {j})
  {
    j :| j in m && MapSum(m) == m[j] + MapSum(m - {j});
  }

  /** Adding `c` to the count of one key (inserting it when absent) adds `c` to the sum. */
  lemma MapSumAdd<K>(m: map<K, nat>, k: K, c: nat)
    ensures MapSum(m[k := (if k in m then m[k] else 0) + c]) == MapSum(m) + c
  {
    var m' := m[k := (if k in m then m[k] else 0) + c];
    MapSumRemove(m', k);
    assert m' - {k} == m - {k};
    if k in m {
      MapSumRemove(m, k);
    } else {
      assert m - {k} == m;
    }
  }

  /** A walk over the set keeping the smallest element seen: `TreeMap.firstKey`. */
  method Smallest(s: set<int>) returns (least: int)
    requires |s| > 0
    ensures least in s && forall c :: c in s ==> least <= c
  {
    var rest := s;
    HasMember(rest);
    least :| least in rest;
    while rest != {}
      invariant least in s && rest <= s
      invariant forall c :: c in s && c !in rest ==> least <= c
      decreases |rest|
    {
      HasMember(rest);
      var c :| c in rest;
      if c < least {
        least := c;
      }
      rest := rest - {c};
    }
  }

  /** A non-empty set has an element. */
  lemma HasMember(s: set<int>)
    ensures s == {} || exists x :: x in s
  {
    if forall x: int :: x !in s {
      assert s == {};
    }
  }
}
