/** The handful of numpy array operations the im2col pipeline relies on, stated
    over Dafny sequences: summation (the reduction inside `@`), row-major
    flattening (`reshape(-1)`), splitting a flat row back into rows
    (`reshape(rows, cols)`), and positive-step slicing (`a[start:stop:step]`). */
module NdOps {

  /** Sum of a sequence of reals. */
  function Sum(s: seq<real>): real
  {
    if s == [] then 0.0 else s[0] + Sum(s[1..])
  }

  /** Inner product of two equally long vectors: one entry of a matrix product. */
  function Dot(u: seq<real>, v: seq<real>): real
    requires |u| == |v|
  {
    Sum(seq(|u|, k requires 0 <= k < |u| => u[k] * v[k]))
  }

  lemma {:induction false} SumConcat(a: seq<real>, b: seq<real>)
    ensures Sum(a + b) == Sum(a) + Sum(b)
  {
    if a == [] {
      assert a + b == b;
    } else {
      assert (a + b)[1..] == a[1..] + b;
      SumConcat(a[1..], b);
    }
  }

  /** The dot product splits over concatenation. */
  lemma DotConcat(a: seq<real>, b: seq<real>, c: seq<real>, d: seq<real>)
    requires |a| == |c| && |b| == |d|
    ensures Dot(a + b, c + d) == Dot(a, c) + Dot(b, d)
  {
    var pa := seq(|a|, k requires 0 <= k < |a| => a[k] * c[k]);
    var pb := seq(|b|, k requires 0 <= k < |b| => b[k] * d[k]);
    var p := seq(|a + b|, k requires 0 <= k < |a + b| => (a + b)[k] * (c + d)[k]);
    forall k | 0 <= k < |p| ensures p[k] == (pa + pb)[k] {
      if k < |a| {
        assert (a + b)[k] == a[k] && (c + d)[k] == c[k];
      } else {
        assert (a + b)[k] == b[k - |a|] && (c + d)[k] == d[k - |a|];
      }
    }
    assert p == pa + pb;
    SumConcat(pa, pb);
  }

  /** A one-entry dot product is one product. */
  lemma DotSingle(u: seq<real>, v: seq<real>)
    requires |u| == |v| == 1
    ensures Dot(u, v) == u[0] * v[0]
  {
    var p := seq(|u|, k requires 0 <= k < |u| => u[k] * v[k]);
    assert p[0] == u[0] * v[0] && p[1..] == [];
    assert Sum(p) == p[0] + Sum(p[1..]);
  }

  /** Scaling every entry by v scales the sum by v. */
  lemma {:induction false} SumScale(s: seq<real>, t: seq<real>, v: real)
    requires |s| == |t|
    requires forall k | 0 <= k < |s| :: t[k] == s[k] * v
    ensures Sum(t) == Sum(s) * v
  {
    if s != [] {
      SumScale(s[1..], t[1..], v);
    }
  }

  /** Against a constant vector v, an inner product is the sum of the other
      vector times v. */
  lemma DotConstant(u: seq<real>, w: seq<real>, v: real)
    requires |u| == |w|
    requires forall k | 0 <= k < |w| :: w[k] == v
    ensures Dot(u, w) == Sum(u) * v
  {
    var p := seq(|u|, k requires 0 <= k < |u| => u[k] * w[k]);
    assert forall k | 0 <= k < |u| :: p[k] == u[k] * v;
    SumScale(u, p, v);
  }

  /** Row by row inner products of two matrices of the same shape. */
  function RowProducts(k: seq<seq<real>>, rows: seq<seq<real>>): seq<real>
    requires |k| == |rows| && forall i | 0 <= i < |k| :: |k[i]| == |rows[i]|
  {
    seq(|k|, i requires 0 <= i < |k| => Dot(k[i], rows[i]))
  }

  /** Row by row inner products of a matrix with rows of a constant v add up
      to the sum of all the matrix's entries times v. */
  lemma RowDotsConstant(k: seq<seq<real>>, rows: seq<seq<real>>, v: real)
    requires |k| == |rows|
    requires forall i | 0 <= i < |k| :: |k[i]| == |rows[i]|
    requires forall i, j | 0 <= i < |rows| && 0 <= j < |rows[i]| :: rows[i][j] == v
    ensures Sum(RowProducts(k, rows)) == Sum(Flatten(k)) * v
  {
    var dots, sums := RowProducts(k, rows), RowSums(k);
    forall i | 0 <= i < |k| ensures dots[i] == sums[i] * v {
      DotConstant(k[i], rows[i], v);
    }
    SumScale(sums, dots, v);
    SumFlatten(k);
    ScaleEqual(Sum(sums), Sum(Flatten(k)), v);
  }

  /** Equal reals scaled by the same factor stay equal. */
  lemma ScaleEqual(x: real, y: real, v: real)
    requires x == y
    ensures x * v == y * v
  {
  }

  /** The dot product of two flattened matrices of the same shape is the sum of
      the dot products of their rows. */
  lemma {:induction false} DotFlatten(a: seq<seq<real>>, b: seq<seq<real>>, n: nat)
    requires |a| == |b| && Rectangular(a, n) && Rectangular(b, n)
    ensures |Flatten(a)| == |Flatten(b)|
    ensures Dot(Flatten(a), Flatten(b)) == Sum(RowProducts(a, b))
  {
    FlattenLength(a, n);
    FlattenLength(b, n);
    if a != [] {
      DotFlatten(a[1..], b[1..], n);
      FlattenLength(a[1..], n);
      FlattenLength(b[1..], n);
      DotConcat(a[0], Flatten(a[1..]), b[0], Flatten(b[1..]));
      assert RowProducts(a, b)[1..] == RowProducts(a[1..], b[1..]);
    }
  }

  /** Summing a constant vector: n copies of v add up to n * v. */
  lemma {:induction false} SumConstant(s: seq<real>, v: real)
    requires forall k | 0 <= k < |s| :: s[k] == v
    ensures Sum(s) == (|s| as real) * v
  {
    if s != [] {
      SumConstant(s[1..], v);
    }
  }

  /** Every row of `m` has length `n`. */
  predicate Rectangular<T>(m: seq<seq<T>>, n: nat)
  {
    forall r | 0 <= r < |m| :: |m[r]| == n
  }

  /** Column k of a matrix (`m[:, k]`). */
  function Column<T>(m: seq<seq<T>>, k: nat): (v: seq<T>)
    requires forall r | 0 <= r < |m| :: k < |m[r]|
    ensures |v| == |m|
  {
    seq(|m|, r requires 0 <= r < |m| => m[r][k])
  }

  /** Row-major concatenation of the rows of `m` (numpy's `reshape(-1)`). */
  function Flatten<T>(m: seq<seq<T>>): seq<T>
  {
    if m == [] then [] else m[0] + Flatten(m[1..])
  }

  lemma {:induction false} FlattenLength<T>(m: seq<seq<T>>, n: nat)
    requires Rectangular(m, n)
    ensures |Flatten(m)| == |m| * n
  {
    if m != [] {
      FlattenLength(m[1..], n);
    }
  }

  /** Element (r, j) of a rectangular matrix lands at position r * n + j of its flattening. */
  lemma {:induction false} FlattenIndex<T>(m: seq<seq<T>>, n: nat, r: nat, j: nat)
    requires Rectangular(m, n) && r < |m| && j < n
    ensures |Flatten(m)| == |m| * n
    ensures r * n + j < |Flatten(m)|
    ensures Flatten(m)[r * n + j] == m[r][j]
  {
    FlattenLength(m, n);
    if r > 0 {
      FlattenIndex(m[1..], n, r - 1, j);
      assert r * n + j - n == (r - 1) * n + j;
    }
    FlatBound(r, j, |m|, n);
  }

  /** Row-major flattening of a three-dimensional array (`reshape(-1)` on a (C, a, b) patch). */
  function Flatten3<T>(v: seq<seq<seq<T>>>): seq<T>
  {
    Flatten(seq(|v|, c requires 0 <= c < |v| => Flatten(v[c])))
  }

  /** A single-plane volume flattens to its one plane flattened. */
  lemma Flatten3Single<T>(v: seq<seq<seq<T>>>)
    requires |v| == 1
    ensures Flatten3(v) == Flatten(v[0])
  {
    var planes := seq(|v|, c requires 0 <= c < |v| => Flatten(v[c]));
    assert planes == [Flatten(v[0])];
    assert Flatten(planes[1..]) == [];
    assert Flatten(planes) == planes[0] + Flatten(planes[1..]);
  }

  lemma Flatten3Length<T>(v: seq<seq<seq<T>>>, a: nat, b: nat)
    requires forall c' | 0 <= c' < |v| :: Rectangular(v[c'], b) && |v[c']| == a
    ensures |Flatten3(v)| == |v| * (a * b)
  {
    var planes := seq(|v|, c' requires 0 <= c' < |v| => Flatten(v[c']));
    forall c' | 0 <= c' < |v| ensures |planes[c']| == a * b {
      FlattenLength(v[c'], b);
    }
    FlattenLength(planes, a * b);
  }

  /** Element (c, i, j) of a (C, a, b) array lands at position c * (a * b) + i * b + j. */
  lemma Flatten3Index<T>(v: seq<seq<seq<T>>>, a: nat, b: nat, c: nat, i: nat, j: nat)
    requires forall c' | 0 <= c' < |v| :: Rectangular(v[c'], b) && |v[c']| == a
    requires c < |v| && i < a && j < b
    ensures |Flatten3(v)| == |v| * (a * b)
    ensures c * (a * b) + i * b + j < |Flatten3(v)| && |v[c][i]| == b
    ensures Flatten3(v)[c * (a * b) + i * b + j] == v[c][i][j]
  {
    var planes := seq(|v|, c' requires 0 <= c' < |v| => Flatten(v[c']));
    forall c' | 0 <= c' < |v| ensures |planes[c']| == a * b {
      FlattenLength(v[c'], b);
    }
    FlattenIndex(v[c], b, i, j);
    FlatBound(i, j, a, b);
    FlattenIndex(planes, a * b, c, i * b + j);
  }

  /** The sum of each row of a matrix. */
  function RowSums(m: seq<seq<real>>): seq<real>
  {
    seq(|m|, r requires 0 <= r < |m| => Sum(m[r]))
  }

  /** Summing a flattened matrix is summing the sums of its rows. */
  lemma {:induction false} SumFlatten(m: seq<seq<real>>)
    ensures Sum(Flatten(m)) == Sum(RowSums(m))
  {
    if m != [] {
      SumFlatten(m[1..]);
      SumConcat(m[0], Flatten(m[1..]));
      assert RowSums(m)[1..] == RowSums(m[1..]);
    }
  }

  /** A matrix whose every entry is v flattens to a vector whose every entry is v. */
  lemma {:induction false} FlattenConstant<T>(m: seq<seq<T>>, v: T)
    requires forall i, j | 0 <= i < |m| && 0 <= j < |m[i]| :: m[i][j] == v
    ensures forall t | 0 <= t < |Flatten(m)| :: Flatten(m)[t] == v
  {
    if m != [] {
      FlattenConstant(m[1..], v);
    }
  }

  /** Row by row inner products of an a-by-b matrix of ones with rows of a
      constant v add up to a * b * v. */
  lemma BoxRows(k: seq<seq<real>>, rows: seq<seq<real>>, v: real, a: nat, b: nat)
    requires |k| == |rows| == a && Rectangular(k, b) && Rectangular(rows, b)
    requires forall i, j | 0 <= i < |k| && 0 <= j < |k[i]| :: k[i][j] == 1.0
    requires forall i, j | 0 <= i < |rows| && 0 <= j < |rows[i]| :: rows[i][j] == v
    ensures Sum(RowProducts(k, rows)) == (a * b) as real * v
  {
    RowDotsConstant(k, rows, v);
    SumOfOnes(k, a, b);
    calc {
      Sum(RowProducts(k, rows));
      Sum(Flatten(k)) * v;
      (a * b) as real * v;
    }
  }

  /** An a-by-b matrix of ones sums to a * b. */
  lemma SumOfOnes(k: seq<seq<real>>, a: nat, b: nat)
    requires |k| == a && Rectangular(k, b)
    requires forall i, j | 0 <= i < |k| && 0 <= j < |k[i]| :: k[i][j] == 1.0
    ensures Sum(Flatten(k)) == (a * b) as real
  {
    FlattenConstant(k, 1.0);
    FlattenLength(k, b);
    SumConstant(Flatten(k), 1.0);
  }

  /** Splits `s` into consecutive rows of length `n` (numpy's `reshape(-1, n)`). */
  function Chunk<T>(s: seq<T>, n: nat): seq<seq<T>>
    requires n >= 1
    decreases |s|
  {
    if |s| < n then [] else [s[..n]] + Chunk(s[n..], n)
  }

  /** A flat row of rows * n elements splits into rows rows of length n. */
  lemma {:induction false} ChunkShape<T>(s: seq<T>, n: nat, rows: nat)
    requires n >= 1 && |s| == rows * n
    ensures |Chunk(s, n)| == rows && Rectangular(Chunk(s, n), n)
    decreases rows
  {
    if rows > 0 {
      assert |s[n..]| == (rows - 1) * n;
      ChunkShape(s[n..], n, rows - 1);
    }
  }

  /** Entry (r, j) of the row split is entry r * n + j of the flat row. */
  lemma {:induction false} ChunkIndex<T>(s: seq<T>, n: nat, rows: nat, r: nat, j: nat)
    requires n >= 1 && |s| == rows * n && r < rows && j < n
    ensures |Chunk(s, n)| == rows && Rectangular(Chunk(s, n), n)
    ensures r * n + j < |s| && Chunk(s, n)[r][j] == s[r * n + j]
    decreases r
  {
    ChunkShape(s, n, rows);
    FlatBound(r, j, rows, n);
    if r > 0 {
      assert |s[n..]| == (rows - 1) * n;
      ChunkIndex(s[n..], n, rows - 1, r - 1, j);
      assert r * n + j == n + ((r - 1) * n + j);
    }
  }

  /** Splitting into rows and flattening again gives back the flat row. */
  lemma {:induction false} FlattenChunk<T>(s: seq<T>, n: nat)
    requires n >= 1 && |s| % n == 0
    ensures Flatten(Chunk(s, n)) == s
    decreases |s|
  {
    if |s| >= n {
      assert (|s| - n) % n == 0 by { DivModShift(|s| - n, n); }
      FlattenChunk(s[n..], n);
      assert s[..n] + s[n..] == s;
    } else {
      assert |s| == 0 by { ModSmall(|s|, n); }
    }
  }

  /** Flattening a rectangular matrix and splitting it again gives back the matrix. */
  lemma {:induction false} ChunkFlatten<T>(m: seq<seq<T>>, n: nat)
    requires n >= 1 && Rectangular(m, n)
    ensures Chunk(Flatten(m), n) == m
  {
    if m != [] {
      ChunkFlatten(m[1..], n);
      FlattenLength(m[1..], n);
      var f := Flatten(m);
      assert f == m[0] + Flatten(m[1..]);
      assert f[..n] == m[0] && f[n..] == Flatten(m[1..]);
    }
  }

  /** Python's `s[start:stop:step]` for a positive step and in-range,
      nonnegative bounds (a negative stop, which Python counts from the end,
      is excluded): the elements at start, start + step, ... strictly below stop. */
  function Slice<T>(s: seq<T>, start: int, stop: int, step: int): (r: seq<T>)
    requires 0 <= start && 0 <= stop <= |s| && step >= 1
    ensures |r| == if stop <= start then 0 else (stop - start + step - 1) / step
    decreases stop - start
  {
    if stop <= start then []
    else
      var rest := Slice(s, start + step, stop, step);
      assert |rest| == (stop - start + step - 1) / step - 1 by {
        if stop <= start + step {
          DivBetween(stop - start + step - 1, step, 1);
        } else {
          DivModShift(stop - start - 1, step);
        }
      }
      [s[start]] + rest
  }

  /** The t-th element of a slice is element start + t * step of the sequence. */
  lemma {:induction false} SliceIndex<T>(s: seq<T>, start: int, stop: int, step: int, t: nat)
    requires 0 <= start && 0 <= stop <= |s| && step >= 1
    requires t < |Slice(s, start, stop, step)|
    ensures start + t * step < stop
    ensures Slice(s, start, stop, step)[t] == s[start + t * step]
    decreases stop - start
  {
    if t > 0 {
      SliceIndex(s, start + step, stop, step, t - 1);
      assert start + step + (t - 1) * step == start + t * step;
    }
  }

  /** Python's `a // s` for a positive divisor: the floor of a / s, counted by
      repeated subtraction (or addition, below zero). */
  function FloorDiv(a: int, s: int): int
    requires s >= 1
    decreases if a < 0 then 1 else 0, if a < 0 then -a else a
  {
    if a < 0 then FloorDiv(a + s, s) - 1
    else if a < s then 0
    else FloorDiv(a - s, s) + 1
  }

  /** Floor division by a positive divisor is Dafny's Euclidean division. */
  lemma {:induction false} FloorDivIsDiv(a: int, s: int)
    requires s >= 1
    ensures FloorDiv(a, s) == a / s
    decreases if a < 0 then 1 else 0, if a < 0 then -a else a
  {
    if a < 0 {
      FloorDivIsDiv(a + s, s);
      DivModShift(a, s);
    } else if a < s {
      ModSmall(a, s);
    } else {
      FloorDivIsDiv(a - s, s);
      DivModShift(a - s, s);
    }
  }

  /** Dividing by one changes nothing. */
  lemma {:induction false} FloorDivByOne(a: int, s: int)
    requires s == 1
    ensures FloorDiv(a, s) == a
    decreases if a < 0 then 1 else 0, if a < 0 then -a else a
  {
    if a < 0 {
      FloorDivByOne(a + s, s);
    } else if a >= s {
      FloorDivByOne(a - s, s);
    }
  }

  // ---- index arithmetic -------------------------------------------------

  /** A position (a, b) of an m-by-n grid flattens into range. */
  lemma FlatBound(a: nat, b: nat, m: nat, n: nat)
    requires a < m && b < n
    ensures a * n + b < m * n
  {
    assert a * n + b < (a + 1) * n;
    assert (a + 1) * n <= m * n by { MulLeft(a + 1, m, n); }
  }

  /** The row index c*a*b + i*b + j of a (C, a, b) array, regrouped. */
  lemma RowIndex(c: int, i: int, j: int, a: int, b: int)
    ensures c * a * b + i * b + j == c * (a * b) + (i * b + j)
  {
  }

  lemma MulLeft(a: nat, b: nat, n: nat)
    requires a <= b
    ensures a * n <= b * n
  {
  }

  /** Euclidean division of a * n + b by n, for 0 <= b < n, gives back a and b. */
  lemma DivModOfFlat(a: int, b: int, n: int)
    requires 0 <= b < n
    ensures (a * n + b) / n == a && (a * n + b) % n == b
  {
    var q, r := (a * n + b) / n, (a * n + b) % n;
    assert q * n + r == a * n + b && 0 <= r < n;
    assert (q - a) * n == b - r;
    MulSign(q - a, n);
  }

  /** A nonzero multiple of n >= 0 is at least n away from zero. */
  lemma MulSign(d: int, n: int)
    requires n >= 0
    ensures d >= 1 ==> d * n >= n
    ensures d <= -1 ==> d * n <= -n
  {
    if d >= 1 {
      MulMono(1, d, n);
    } else if d <= -1 {
      MulMono(d, -1, n);
    }
  }

  lemma MulMono(x: int, y: int, n: int)
    requires x <= y && n >= 0
    ensures x * n <= y * n
  {
    assert y * n - x * n == (y - x) * n;
  }

  /** A flat index below m * n splits into a row below m and a column below n. */
  lemma SplitFlat(k: int, m: nat, n: nat)
    requires 0 <= k < m * n
    ensures n > 0 && 0 <= k / n < m && 0 <= k % n < n && k == (k / n) * n + k % n
  {
    if k / n >= m {
      MulLeft(m, k / n, n);
    }
  }

  lemma DivModShift(a: int, n: int)
    requires n >= 1
    ensures (a + n) / n == a / n + 1 && (a + n) % n == a % n
  {
    DivModOfFlat(a / n + 1, a % n, n);
    assert (a / n + 1) * n + a % n == a + n;
  }

  lemma ModSmall(a: int, n: int)
    requires 0 <= a < n
    ensures a % n == a && a / n == 0
  {
    DivModOfFlat(0, a, n);
  }

  /** If q * n <= a < (q + 1) * n then a / n == q. */
  lemma DivBetween(a: int, n: int, q: int)
    requires n >= 1 && q * n <= a < (q + 1) * n
    ensures a / n == q
  {
    DivModOfFlat(q, a - q * n, n);
  }
}
