/**
 * Counting maps: the shape shared by the hourly activity log and the three
 * analytics facets. A missing key counts as zero.
 */
module Tally {

  type Counts = map<string, nat>

  /** The count recorded for `k`, zero when `k` has never been seen. */
  function CountOf(m: Counts, k: string): nat {
    if k in m then m[k] else 0
  }

  /**
   * `if (!m[k]) m[k] = 0; m[k]++`: the count for `k` goes up by one, starting
   * from zero, and every other entry is left as it was.
   */
  function Bump(m: Counts, k: string): (r: Counts)
    ensures r.Keys == m.Keys + {k}
    ensures r[k] == CountOf(m, k) + 1
    ensures forall j :: j in m && j != k ==> r[j] == m[j]
  {
    m[k := CountOf(m, k) + 1]
  }

  /** The sum of all counts in the map. */
  ghost function Total(m: Counts): nat
    decreases |m|
  {
    if m == map[] then 0 else var k :| k in m; m[k] + Total(m - {k})
  }

  /** Any one key can be taken out first when summing. */
  lemma {:induction false} TotalRemove(m: Counts, k: string)
    requires k in m
    ensures Total(m) == m[k] + Total(m - {k})
    decreases |m|
  {
    var j :| j in m && Total(m) == m[j] + Total(m - {j});
    if j != k {
      TotalRemove(m - {j}, k);
      TotalRemove(m - {k}, j);
      assert m - {j} - {k} == m - {k} - {j};
    }
  }

  /** Recording one event raises the total by exactly one. */
  lemma TotalBump(m: Counts, k: string)
    ensures Total(Bump(m, k)) == Total(m) + 1
  {
    var r := Bump(m, k);
    TotalRemove(r, k);
    if k in m {
      TotalRemove(m, k);
      assert r - {k} == m - {k};
    } else {
      assert r - {k} == m;
    }
  }
}
