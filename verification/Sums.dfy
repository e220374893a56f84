// Sums over finite maps, and the floor-division facts behind pro-rata shares.

module Sums {

  function SumOf(xs: seq<int>): int {
    if xs == [] then 0 else SumOf(xs[..|xs| - 1]) + xs[|xs| - 1]
  }

  // The sum of all values of a map; the order of summation is irrelevant (SumRemove).
  ghost function Sum<K>(m: map<K, int>): int {
    if m == map[] then 0
    else
      var k :| k in m;
      m[k] + Sum(m - {k})
  }

  lemma {:induction false} SumRemove<K>(m: map<K, int>, k: K)
    requires k in m
    ensures Sum(m) == m[k] + Sum(m - {k})
    decreases |m|
  {
    var j :| j in m && Sum(m) == m[j] + Sum(m - {j});
    if j != k {
      SumRemove(m - {j}, k);
      SumRemove(m - {k}, j);
      assert m - {j} - {k} == m - {k} - {j};
    }
  }

  // Writing one key changes the sum by the difference at that key.
  lemma SumUpdate<K>(m: map<K, int>, k: K, v: int)
    ensures Sum(m[k := v]) == Sum(m) - (if k in m then m[k] else 0) + v
  {
    SumRemove(m[k := v], k);
    if k in m {
      SumRemove(m, k);
      assert m[k := v] - {k} == m - {k};
    } else {
      assert m[k := v] - {k} == m;
    }
  }

  // Raising one value raises the sum by as much.
  lemma SumRaise<K>(raised: map<K, int>, m: map<K, int>, k: K, extra: int)
    requires raised.Keys == m.Keys && k in m
    requires forall j :: j in m ==> raised[j] == m[j] + if j == k then extra else 0
    ensures Sum(raised) == Sum(m) + extra
  {
    SumUpdate(m, k, m[k] + extra);
    assert raised == m[k := m[k] + extra];
  }

  // A submap of a map of naturals sums to no more than the whole.
  lemma {:induction false} SumSubmap<K>(small: map<K, int>, big: map<K, int>)
    requires small.Keys <= big.Keys
    requires forall k :: k in small ==> small[k] <= big[k]
    requires forall k :: k in big ==> 0 <= big[k]
    ensures Sum(small) <= Sum(big)
    decreases |big|
  {
    if big == map[] {
      assert small == map[];
    } else {
      var k :| k in big;
      SumRemove(big, k);
      if k in small {
        SumRemove(small, k);
      } else {
        assert small - {k} == small;
      }
      SumSubmap(small - {k}, big - {k});
    }
  }

  lemma {:induction false} SumNonNegative<K>(m: map<K, int>)
    requires forall k :: k in m ==> 0 <= m[k]
    ensures 0 <= Sum(m)
  {
    SumSubmap(map[], m);
  }

  // No single value exceeds the sum.
  lemma PartOfSum<K>(m: map<K, int>, k: K)
    requires k in m && forall j :: j in m ==> 0 <= m[j]
    ensures m[k] <= Sum(m)
  {
    SumRemove(m, k);
    SumNonNegative(m - {k});
  }

  // Keys mapped to zero do not count.
  lemma {:induction false} SumIgnoresZeros<K>(small: map<K, int>, big: map<K, int>)
    requires small.Keys <= big.Keys
    requires forall k :: k in big ==> big[k] == if k in small then small[k] else 0
    ensures Sum(small) == Sum(big)
    decreases |big|
  {
    if big == map[] {
      assert small == map[];
    } else {
      var k :| k in big;
      SumRemove(big, k);
      if k in small {
        SumRemove(small, k);
      } else {
        assert small - {k} == small;
      }
      SumIgnoresZeros(small - {k}, big - {k});
    }
  }

  // Sums add up key by key.
  lemma {:induction false} SumPlus<K>(a: map<K, int>, b: map<K, int>, c: map<K, int>)
    requires a.Keys == b.Keys == c.Keys
    requires forall k :: k in c ==> c[k] == a[k] + b[k]
    ensures Sum(c) == Sum(a) + Sum(b)
    decreases |c|
  {
    if c == map[] {
      assert a == map[] && b == map[];
    } else {
      var k :| k in c;
      SumRemove(a, k);
      SumRemove(b, k);
      SumRemove(c, k);
      SumPlus(a - {k}, b - {k}, c - {k});
    }
  }

  // Splitting the keys splits the sum.
  lemma {:induction false} SumSplit<K>(m: map<K, int>, s: set<K>)
    ensures Sum(m) == Sum(m - s) + Sum(map k | k in m && k in s :: m[k])
    decreases |m|
  {
    var part := map k | k in m && k in s :: m[k];
    if m == map[] {
      assert part == map[] && m - s == map[];
    } else {
      var k :| k in m;
      var rest := m - {k};
      SumRemove(m, k);
      SumSplit(rest, s);
      var restPart := map j | j in rest && j in s :: rest[j];
      if k in s {
        SumRemove(part, k);
        assert part - {k} == restPart && m - s == rest - s;
      } else {
        SumRemove(m - s, k);
        assert part == restPart && (m - s) - {k} == rest - s;
      }
    }
  }

  // The bounds kept while summing floors: shares, scaled back by the total, lose
  // less than one total for each of the count parts that make up sum.
  ghost predicate Scaled(total: int, pool: int, sum: int, shares: int, count: nat) {
    total * shares <= sum * pool <= total * shares + count * (total - 1)
  }

  lemma ScaledStep(total: int, pool: int, part: int, sum: int, shares: int, count: nat)
    requires 0 < total && Scaled(total, pool, sum, shares, count)
    ensures Scaled(total, pool, part + sum, part * pool / total + shares, count + 1)
  {
  }

  lemma MulMono(t: int, a: int, b: int)
    requires 0 <= t && a <= b
    ensures t * a <= t * b && a * t <= b * t
  {
  }

  // What the scaled bounds say once divided by the total.
  lemma Unscale(total: int, pool: int, shares: int, count: nat)
    requires 0 < total && 0 < count
    requires Scaled(total, pool, total, shares, count)
    ensures shares <= pool < shares + count
  {
    var p, s, c := total * pool, total * shares, total * count;
    assert s <= p <= s + c - count;
    if pool < shares {
      MulMono(total, pool + 1, shares);
    } else if shares + count <= pool {
      MulMono(total, shares + count, pool);
    }
  }

  // floor(part * pool / total) for every key.
  ghost function Shares<K>(parts: map<K, int>, pool: int, total: int): map<K, int>
    requires 0 < total
  {
    map k | k in parts :: parts[k] * pool / total
  }

  // Scaled by the total, the floors lose less than one total per key.
  lemma {:induction false} SharesScaled<K>(parts: map<K, int>, pool: int, total: int)
    requires 0 < total
    ensures Scaled(total, pool, Sum(parts), Sum(Shares(parts, pool, total)), |parts|)
    decreases |parts|
  {
    if parts == map[] {
      assert Shares(parts, pool, total) == map[];
    } else {
      var k :| k in parts;
      var rest := parts - {k};
      SharesScaled(rest, pool, total);
      SumRemove(parts, k);
      SharesRemove(parts, pool, total, k);
      assert |parts| == |rest| + 1 by { assert rest.Keys == parts.Keys - {k}; }
      ScaledStep(total, pool, parts[k], Sum(rest), Sum(Shares(rest, pool, total)), |rest|);
    }
  }

  lemma SharesRemove<K>(parts: map<K, int>, pool: int, total: int, k: K)
    requires 0 < total && k in parts
    ensures Sum(Shares(parts, pool, total)) == parts[k] * pool / total + Sum(Shares(parts - {k}, pool, total))
  {
    SumRemove(Shares(parts, pool, total), k);
    assert Shares(parts, pool, total) - {k} == Shares(parts - {k}, pool, total);
  }

  // When the parts make up the whole, the floors sum to at most the pool and
  // leave less than one unit per part.
  lemma SharesOfWhole<K>(parts: map<K, int>, pool: int, total: int)
    requires 0 < total == Sum(parts)
    ensures Sum(Shares(parts, pool, total)) <= pool < Sum(Shares(parts, pool, total)) + |parts|
  {
    SharesScaled(parts, pool, total);
    assert parts != map[];
    Unscale(total, pool, Sum(Shares(parts, pool, total)), |parts|);
  }
}
