/** Small building blocks shared by the other modules: an option type, sums over finite
    maps, and grids stored row by row. */
module Basics {
  datatype Option<+T> = None | Some(value: T)

  function Min(a: real, b: real): real { if a <= b then a else b }

  /** The sum of all values of a map. */
  ghost function Total<K(!new)>(m: map<K, nat>): (t: nat)
    decreases |m|
  {
    if m == map[] then 0
    else
      var k :| k in m;
      m[k] + Total(m - {k})
  }

  /** Any key can be split off first; the order of summation does not matter. */
  lemma {:induction false} TotalSplit<K(!new)>(m: map<K, nat>, k: K)
    requires k in m
    ensures Total(m) == m[k] + Total(m - {k})
    decreases |m|
  {
    var first :| first in m && Total(m) == m[first] + Total(m - {first});
    if first != k {
      TotalSplit(m - {first}, k);
      TotalSplit(m - {k}, first);
      assert m - {first} - {k} == m - {k} - {first};
    }
  }

  lemma TotalInsert<K(!new)>(m: map<K, nat>, k: K, v: nat)
    requires k !in m
    ensures Total(m[k := v]) == Total(m) + v
  {
    TotalSplit(m[k := v], k);
    assert m[k := v] - {k} == m;
  }

  /** Dropping keys and lowering values never raises the sum. */
  lemma {:induction false} TotalMonotone<K(!new)>(small: map<K, nat>, large: map<K, nat>)
    requires forall k :: k in small ==> k in large && small[k] <= large[k]
    ensures Total(small) <= Total(large)
    decreases |small|
  {
    if small != map[] {
      var k :| k in small;
      TotalSplit(small, k);
      TotalSplit(large, k);
      TotalMonotone(small - {k}, large - {k});
    }
  }

  /** A value never exceeds the sum. */
  lemma TotalAtLeast<K(!new)>(m: map<K, nat>, k: K)
    requires k in m
    ensures m[k] <= Total(m)
  {
    TotalSplit(m, k);
  }

  /** A subset is never larger, stated for use by name. */
  lemma SubsetSize<T>(a: set<T>, b: set<T>)
    requires a <= b
    ensures |a| <= |b|
  {
    assert b == a + (b - a);
  }

  /** Cells of a grid stored row by row: every place has an index. */
  lemma IndexRange(col: nat, row: nat, cols: nat, rows: nat)
    requires col < cols && row < rows
    ensures 0 <= row * cols + col < cols * rows
  {
    assert row * cols <= (rows - 1) * cols == rows * cols - cols;
  }

  lemma Scaled(a: int, b: int, c: nat)
    requires a <= b
    ensures a * c <= b * c
  {
  }

  /** And no two places share one. */
  lemma IndexInjective(col: nat, row: nat, col2: nat, row2: nat, cols: nat)
    requires col < cols && col2 < cols && row * cols + col == row2 * cols + col2
    ensures col == col2 && row == row2
  {
    if row < row2 {
      Scaled(row + 1, row2, cols);
    } else if row2 < row {
      Scaled(row2 + 1, row, cols);
    }
  }
}
