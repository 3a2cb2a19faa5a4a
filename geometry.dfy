// Plane geometry and the numeric library the arm code calls into.

module Wrappers {
  datatype Option<+T> = None | Some(value: T)

  datatype Result<+T, +E> = Ok(value: T) | Err(error: E)
}

module Geometry {

  /** A point (or 2-vector) of the plane. */
  datatype Point = Point(x: real, y: real) {
    function Plus(o: Point): Point { Point(x + o.x, y + o.y) }
    function Minus(o: Point): Point { Point(x - o.x, y - o.y) }
  }

  const Origin := Point(0.0, 0.0)

  /** The value of numpy's `np.pi`. */
  const Pi: real := 3.141592653589793

  /**
   * cos, sin and sqrt are library calls whose numerics are not modelled: they are
   * inputs.  Only the facts below are assumed of them, and only where `Lawful` is required.
   */
  datatype MathLib = MathLib(cos: real -> real, sin: real -> real, sqrt: real -> real)

  ghost predicate Lawful(m: MathLib) {
    && m.cos(0.0) == 1.0
    && m.sin(0.0) == 0.0
    && forall v: real :: 0.0 <= v ==> 0.0 <= m.sqrt(v) && m.sqrt(v) * m.sqrt(v) == v
  }

  /** The vector of length `len` pointing at `angle`: `len * (cos angle, sin angle)`. */
  function Polar(m: MathLib, len: real, angle: real): Point {
    Point(len * m.cos(angle), len * m.sin(angle))
  }

  function SqNorm(p: Point): real { p.x * p.x + p.y * p.y }

  /** Euclidean distance from the base, `sqrt(x**2 + y**2)`. */
  function Distance(m: MathLib, p: Point): real { m.sqrt(SqNorm(p)) }

  /** Sum of a sequence, accumulated left to right as `np.sum` / `np.cumsum` do. */
  function Sum(s: seq<real>): real {
    if s == [] then 0.0 else Sum(s[..|s| - 1]) + s[|s| - 1]
  }

  /** `np.zeros(n)` */
  function Zeros(n: nat): (z: seq<real>)
    ensures |z| == n && forall i :: 0 <= i < n ==> z[i] == 0.0
  {
    seq(n, _ => 0.0)
  }

  /** The area of count cells of a resolution x resolution grid over [-maxReach, maxReach]^2. */
  function CellsArea(count: nat, resolution: nat, maxReach: real): real
    requires resolution >= 1
  {
    var side := 2.0 * maxReach / (resolution as real);
    (count as real) * (side * side)
  }

  /** `np.linspace(lo, hi, n)`: n evenly spaced samples, both ends included. */
  function Linspace(lo: real, hi: real, n: nat): (xs: seq<real>)
    ensures |xs| == n
  {
    seq(n, k => if n == 1 then lo else lo + (k as real) * (hi - lo) / ((n - 1) as real))
  }

  /** `max(s)` of a non-empty sequence. */
  function MaxOf(s: seq<real>): (r: real)
    requires |s| > 0
    ensures r in s && forall i :: 0 <= i < |s| ==> s[i] <= r
  {
    if |s| == 1 then s[0]
    else
      var rest := MaxOf(s[1..]);
      if s[0] >= rest then s[0] else rest
  }

  /** `min(s)` of a non-empty sequence. */
  function MinOf(s: seq<real>): (r: real)
    requires |s| > 0
    ensures r in s && forall i :: 0 <= i < |s| ==> r <= s[i]
  {
    if |s| == 1 then s[0]
    else
      var rest := MinOf(s[1..]);
      if s[0] <= rest then s[0] else rest
  }

  /** The first sample is the lower end. */
  lemma LinspaceFirst(lo: real, hi: real, n: nat)
    requires n >= 1
    ensures Linspace(lo, hi, n)[0] == lo
  {
  }

  /** The grid is sampled over [lo, hi] with both ends included. */
  lemma LinspaceEnds(lo: real, hi: real, n: nat)
    requires n >= 2
    ensures Linspace(lo, hi, n)[0] == lo && Linspace(lo, hi, n)[n - 1] == hi
  {
    var d := (n - 1) as real;
    assert ((n - 1) as real) * (hi - lo) / d == hi - lo;
  }

  /** Every sample lies in [lo, hi] when lo <= hi. */
  lemma LinspaceWithin(lo: real, hi: real, n: nat, k: nat)
    requires lo <= hi && k < n
    ensures lo <= Linspace(lo, hi, n)[k] <= hi
  {
    if n > 1 {
      ShareWithin(k as real, (n - 1) as real, hi - lo);
    }
  }

  /** A share k/d of a non-negative width w, for 0 <= k <= d, lies in [0, w]. */
  lemma ShareWithin(k: real, d: real, w: real)
    requires 0.0 <= k <= d && 0.0 < d && 0.0 <= w
    ensures 0.0 <= k * w / d <= w
  {
    var q := k * w / d;
    assert q * d == k * w;
    assert 0.0 <= k * w && k * w <= d * w by {
      assert 0.0 <= (d - k) * w;
    }
  }

  /** Sum distributes over concatenation. */
  lemma {:induction false} SumAppend(a: seq<real>, b: seq<real>)
    ensures Sum(a + b) == Sum(a) + Sum(b)
  {
    if b != [] {
      assert (a + b)[..|a + b| - 1] == a + b[..|b| - 1];
      SumAppend(a, b[..|b| - 1]);
    } else {
      assert a + b == a;
    }
  }

  /** A sum of non-negative terms is non-negative. */
  lemma {:induction false} SumNonNegative(s: seq<real>)
    requires forall i :: 0 <= i < |s| ==> 0.0 <= s[i]
    ensures 0.0 <= Sum(s)
  {
    if s != [] {
      SumNonNegative(s[..|s| - 1]);
    }
  }

  /** Squaring is strictly monotone on the non-negative reals. */
  lemma SquareStrictMono(a: real, b: real)
    requires 0.0 <= a < b
    ensures a * a < b * b
  {
    var aa, ab, bb := a * a, a * b, b * b;
    assert aa <= ab by { assert ab - aa == a * (b - a); }
    assert ab < bb by { assert bb - ab == (b - a) * b; }
  }

  /** The square root of a square is the number itself, for a lawful sqrt. */
  lemma SqrtOfSquare(m: MathLib, r: real)
    requires Lawful(m) && 0.0 <= r
    ensures m.sqrt(r * r) == r
  {
    var s := m.sqrt(r * r);
    assert 0.0 <= s && s * s == r * r;
    if s < r {
      SquareStrictMono(s, r);
    } else if r < s {
      SquareStrictMono(r, s);
    }
  }

  /** A lawful sqrt is monotone: comparing roots is comparing squares. */
  lemma SqrtCompare(m: MathLib, v: real, r: real)
    requires Lawful(m) && 0.0 <= v && 0.0 <= r
    ensures r <= m.sqrt(v) <==> r * r <= v
    ensures m.sqrt(v) <= r <==> v <= r * r
  {
    var s := m.sqrt(v);
    assert 0.0 <= s && s * s == v;
    if r < s {
      SquareStrictMono(r, s);
    } else if s < r {
      SquareStrictMono(s, r);
    }
  }

  /** The grid points with abscissa `x`, in the order of `ys`. */
  function Row(x: real, ys: seq<real>): (r: seq<Point>)
    ensures |r| == |ys|
  {
    if ys == [] then [] else Row(x, ys[..|ys| - 1]) + [Point(x, ys[|ys| - 1])]
  }

  lemma {:induction false} RowIndex(x: real, ys: seq<real>, j: nat)
    requires j < |ys|
    ensures Row(x, ys)[j] == Point(x, ys[j])
  {
    if j < |ys| - 1 {
      RowIndex(x, ys[..|ys| - 1], j);
    }
  }

  /** All grid points, x outer and y inner. */
  function Grid(xs: seq<real>, ys: seq<real>): seq<Point> {
    if xs == [] then [] else Grid(xs[..|xs| - 1], ys) + Row(xs[|xs| - 1], ys)
  }

  /** Before row i is scanned, the scanned part is the first i rows. */
  lemma GridRowStart(xs: seq<real>, ys: seq<real>, i: nat)
    requires i < |xs|
    ensures Grid(xs[..i], ys) + Row(xs[i], ys[..0]) == Grid(xs[..i], ys)
  {
    assert ys[..0] == [];
  }

  /** Scanning one more point of row i extends the scanned part of the grid by that point. */
  lemma GridStep(xs: seq<real>, ys: seq<real>, i: nat, j: nat)
    requires i < |xs| && j < |ys|
    ensures Grid(xs[..i], ys) + Row(xs[i], ys[..j]) + [Point(xs[i], ys[j])] == Grid(xs[..i], ys) + Row(xs[i], ys[..j + 1])
  {
    RowStep(Grid(xs[..i], ys), xs[i], ys, j);
  }

  /** Scanning point j of a row after the points already scanned. */
  lemma RowStep(scanned: seq<Point>, x: real, ys: seq<real>, j: nat)
    requires j < |ys|
    ensures scanned + Row(x, ys[..j]) + [Point(x, ys[j])] == scanned + Row(x, ys[..j + 1])
  {
    var front := ys[..j + 1];
    assert front[..|front| - 1] == ys[..j] && front[|front| - 1] == ys[j];
    assert Row(x, front) == Row(x, ys[..j]) + [Point(x, ys[j])];
  }

  /** A fully scanned row i completes the first i + 1 rows of the grid. */
  lemma GridNextRow(xs: seq<real>, ys: seq<real>, i: nat)
    requires i < |xs|
    ensures Grid(xs[..i], ys) + Row(xs[i], ys[..|ys|]) == Grid(xs[..i + 1], ys)
  {
    var prefix := xs[..i + 1];
    assert prefix[..i] == xs[..i] && prefix[i] == xs[i];
    assert Grid(prefix, ys) == Grid(prefix[..i], ys) + Row(prefix[i], ys);
    assert ys[..|ys|] == ys;
  }

  /** The grid has resolution^2 points, x outer and y inner: point i * |ys| + j is (xs[i], ys[j]). */
  lemma {:induction false} GridIndex(xs: seq<real>, ys: seq<real>, i: nat, j: nat)
    requires i < |xs| && j < |ys|
    ensures |Grid(xs, ys)| == |xs| * |ys|
    ensures i * |ys| + j < |Grid(xs, ys)| && Grid(xs, ys)[i * |ys| + j] == Point(xs[i], ys[j])
  {
    var n, w := |xs| - 1, |ys|;
    var xs0 := xs[..n];
    GridLength(xs, ys);
    GridLength(xs0, ys);
    assert Grid(xs, ys) == Grid(xs0, ys) + Row(xs[n], ys);
    if i < n {
      GridIndex(xs0, ys, i, j);
    } else {
      assert i * w == n * w;
      RowIndex(xs[n], ys, j);
    }
  }

  lemma {:induction false} GridLength(xs: seq<real>, ys: seq<real>)
    ensures |Grid(xs, ys)| == |xs| * |ys|
  {
    if xs != [] {
      GridLength(xs[..|xs| - 1], ys);
      assert |xs| * |ys| == (|xs| - 1) * |ys| + |ys|;
    }
  }
}
