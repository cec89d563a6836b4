/** Sums of real amounts keyed by an id. */
module Sums {

  /** The sum of all values of `m`. The order of summation does not matter: see MapSumAt. */
  ghost function MapSum<K>(m: map<K, real>): real {
    if m == map[] then 0.0
    else
      var k :| k in m;
      m[k] + MapSum(m - {k})
  }

  lemma {:induction false} MapSumAt<K>(m: map<K, real>, k: K)
    requires k in m
    ensures MapSum(m) == m[k] + MapSum(m - {k})
    decreases |m|
  {
    var c :| c in m && MapSum(m) == m[c] + MapSum(m - {c});
    if c != k {
      MapSumAt(m - {c}, k);
      MapSumAt(m - {k}, c);
      assert m - {c} - {k} == m - {k} - {c};
    }
  }

  lemma MapSumInsert<K>(m: map<K, real>, k: K, v: real)
    requires k !in m
    ensures MapSum(m[k := v]) == MapSum(m) + v
  {
    MapSumAt(m[k := v], k);
    assert m[k := v] - {k} == m;
  }

  lemma {:induction false} MapSumNonNegative<K>(m: map<K, real>)
    requires forall k :: k in m ==> m[k] >= 0.0
    ensures MapSum(m) >= 0.0
    decreases |m|
  {
    if m != map[] {
      var k :| k in m;
      MapSumAt(m, k);
      MapSumNonNegative(m - {k});
    }
  }

  lemma {:induction false} MapSumZero<K>(m: map<K, real>)
    requires forall k :: k in m ==> m[k] == 0.0
    ensures MapSum(m) == 0.0
    decreases |m|
  {
    if m != map[] {
      var k :| k in m;
      MapSumAt(m, k);
      MapSumZero(m - {k});
    }
  }

  lemma MapSumPositive<K>(m: map<K, real>)
    requires forall k :: k in m ==> m[k] > 0.0
    ensures MapSum(m) >= 0.0 && (MapSum(m) == 0.0 <==> m == map[])
  {
    if m != map[] {
      var k :| k in m;
      MapSumAt(m, k);
      MapSumNonNegative(m - {k});
    }
  }

  /** Values of `whole` on the keys of `part`, less the values of `part`. */
  ghost function Excess<K>(whole: map<K, real>, part: map<K, real>): map<K, real>
    requires part.Keys <= whole.Keys
  {
    map k | k in part :: whole[k] - part[k]
  }

  ghost function Differences<K>(a: map<K, real>, b: map<K, real>): map<K, real> {
    map k | k in a && k in b :: a[k] - b[k]
  }

  /** Two totals differ by what is in one only, less what is in the other only, plus where they disagree. */
  lemma SumDifference<K>(a: map<K, real>, b: map<K, real>)
    ensures MapSum(a) - MapSum(b) == MapSum(a - b.Keys) - MapSum(b - a.Keys) + MapSum(Differences(a, b))
  {
    var shared := map k | k in b && k in a :: b[k];
    MapSumSubtract(a, shared);
    assert a - shared.Keys == a - b.Keys && Excess(a, shared) == Differences(a, b);
    MapSumSubtract(b, shared);
    assert b - shared.Keys == b - a.Keys;
    MapSumZero(Excess(b, shared));
  }

  /** Taking away `part` leaves the keys not in `part`, plus whatever `part` under-counts. */
  lemma {:induction false} MapSumSubtract<K>(whole: map<K, real>, part: map<K, real>)
    requires part.Keys <= whole.Keys
    ensures MapSum(whole) - MapSum(part) == MapSum(whole - part.Keys) + MapSum(Excess(whole, part))
    decreases |part|
  {
    if part == map[] {
      assert whole - part.Keys == whole;
    } else {
      var k :| k in part;
      var rest := part - {k};
      MapSumSubtract(whole, rest);
      MapSumAt(part, k);
      MapSumAt(whole - rest.Keys, k);
      assert (whole - rest.Keys) - {k} == whole - part.Keys;
      MapSumAt(Excess(whole, part), k);
      assert Excess(whole, part) - {k} == Excess(whole, rest);
    }
  }
}
