/**
 * The dictionary operations SaveStats relies on: `d.get(k, 0)`, the
 * read-add-store update of a counter, and the sum of a dict's values.
 */
module Maps {

  /** `m.get(k, 0)`. */
  function Get(m: map<string, int>, k: string): int
  {
    if k in m then m[k] else 0
  }

  /** `m[k] = m.get(k, 0) + v`. */
  function Bump(m: map<string, int>, k: string, v: int): (r: map<string, int>)
  {
    m[k := Get(m, k) + v]
  }

  /** `m.get(p, dict())` for a dict of dicts. */
  function Row(m: map<string, map<string, int>>, p: string): map<string, int>
  {
    if p in m then m[p] else map[]
  }

  /** `m.get(p, {}).get(d, 0)`. */
  function Get2(m: map<string, map<string, int>>, p: string, d: string): int
  {
    Get(Row(m, p), d)
  }

  ghost function Pick(m: map<string, int>): (k: string)
    requires m != map[]
    ensures k in m
  {
    var k :| k in m; k
  }

  /** The sum of the values of `m`. */
  ghost function MapSum(m: map<string, int>): int
    decreases |m|
  {
    if m == map[] then 0
    else
      var k := Pick(m);
      assert |m - {k}| == |m| - 1 by { assert (m - {k}).Keys == m.Keys - {k}; }
      m[k] + MapSum(m - {k})
  }

  /** The sum of each inner dict's values, per outer key. */
  ghost function RowSums(m: map<string, map<string, int>>): map<string, int>
  {
    map p | p in m :: MapSum(m[p])
  }

  /** Whichever key the sum takes first, the result is the same. */
  lemma {:induction false} MapSumAt(m: map<string, int>, k: string)
    requires k in m
    ensures MapSum(m) == m[k] + MapSum(m - {k})
    decreases |m|
  {
    var j := Pick(m);
    assert |m - {j}| == |m| - 1 by { assert (m - {j}).Keys == m.Keys - {j}; }
    if j != k {
      assert |m - {k}| == |m| - 1 by { assert (m - {k}).Keys == m.Keys - {k}; }
      MapSumAt(m - {j}, k);
      MapSumAt(m - {k}, j);
      assert m - {j} - {k} == m - {k} - {j};
    }
  }

  /** Overwriting one value changes the sum by the difference. */
  lemma MapSumUpdate(m: map<string, int>, k: string, v: int)
    ensures MapSum(m[k := v]) == MapSum(m) - Get(m, k) + v
  {
    MapSumAt(m[k := v], k);
    if k in m {
      MapSumAt(m, k);
      assert m[k := v] - {k} == m - {k};
    } else {
      assert m[k := v] - {k} == m;
    }
  }

  /** Adding `v` to one counter adds `v` to the sum. */
  lemma MapSumBump(m: map<string, int>, k: string, v: int)
    ensures MapSum(Bump(m, k, v)) == MapSum(m) + v
  {
    MapSumUpdate(m, k, Get(m, k) + v);
  }

  /** Replacing one inner dict replaces its sum in RowSums and nothing else. */
  lemma RowSumsUpdate(m: map<string, map<string, int>>, p: string, row: map<string, int>)
    ensures RowSums(m[p := row]) == RowSums(m)[p := MapSum(row)]
    ensures Get(RowSums(m), p) == MapSum(Row(m, p))
  {
    assert RowSums(m[p := row]).Keys == RowSums(m)[p := MapSum(row)].Keys;
  }
}
