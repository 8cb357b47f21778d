/** Kernels (api/datastructures/Kernel.java): a matrix of coefficients whose
    bounds are shifted so that, for odd sizes, the key element sits at column
    0 and row 0. Coefficients are addressed by (column, row) within the
    bounds and stored in row-major order. */
module Kernels {

  import opened Matrices
  import opened Arithmetic

  /** `java.awt.Rectangle`: top-left corner and extent. */
  datatype Rectangle = Rectangle(x: int, y: int, width: int, height: int)

  function Abs(n: int): nat {
    if n < 0 then -n else n
  }

  /** Java's `/` on `int`: the quotient truncated toward zero. Dafny's own
      `/` is Euclidean; the two agree on non-negative dividends only. */
  function JavaDiv(a: int, b: int): int
    requires b != 0
  {
    if a >= 0 then a / b else -((-a) / b)
  }

  /** `JavaDiv` truncates: its magnitude is the quotient of the magnitudes,
      and its sign is the product of the operands' signs. */
  lemma JavaDivTruncates(a: int, b: int)
    requires b != 0
    ensures Abs(JavaDiv(a, b)) == Abs(a) / Abs(b)
    ensures JavaDiv(a, b) > 0 ==> (a < 0) == (b < 0)
    ensures JavaDiv(a, b) < 0 ==> (a < 0) != (b < 0)
  {
    var n, d := Abs(a), Abs(b);
    var m := n / d;
    assert m >= 0;
    if b < 0 {
      DivByNegative(n, d);
      assert n / b == -m;
    } else {
      assert n / b == m;
    }
    assert JavaDiv(a, b) == (if a >= 0 then n / b else -(n / b));
  }

  /** Dividing a dimension by -2 in Java moves half of it, rounded down, to
      the negative side. */
  lemma JavaDivByMinusTwo(n: nat)
    ensures JavaDiv(n, -2) == -(n / 2)
  {
  }

  datatype Kernel = Kernel(matrix: Matrix, bounds: Rectangle)

  /** `new Kernel(matrix)`: keeps the (row-major) matrix and centres the bounds
      by integer division. */
  function NewKernel(m: Matrix): (k: Kernel)
    ensures k.matrix == m
    ensures k.bounds == Rectangle(-(m.columns / 2), -(m.rows / 2), m.columns, m.rows)
  {
    JavaDivByMinusTwo(m.columns);
    JavaDivByMinusTwo(m.rows);
    Kernel(m, Rectangle(JavaDiv(m.columns, -2), JavaDiv(m.rows, -2), m.columns, m.rows))
  }

  function Width(k: Kernel): int {
    k.bounds.width
  }

  function Height(k: Kernel): int {
    k.bounds.height
  }

  /** The width and height of a kernel are those of its matrix. */
  lemma ExtentOfNewKernel(m: Matrix)
    ensures Width(NewKernel(m)) == m.columns && Height(NewKernel(m)) == m.rows
  {
  }

  /** (column, row) lies within the bounds of the kernel. */
  predicate InBounds(k: Kernel, column: int, row: int) {
    && k.bounds.x <= column < k.bounds.x + Width(k)
    && k.bounds.y <= row < k.bounds.y + Height(k)
  }

  /** `index(column, row)`: the position of a coefficient in the row-major
      cell array. */
  function Index(k: Kernel, column: int, row: int): int {
    (row - k.bounds.y) * Width(k) + (column - k.bounds.x)
  }

  /** The coordinates of the `i`-th cell of the row-major array; the inverse
      of `Index`. */
  function Coordinates(k: Kernel, i: int): (int, int)
    requires Width(k) > 0
  {
    (k.bounds.x + i % Width(k), k.bounds.y + i / Width(k))
  }

  /** The top-left corner of the bounds is the first cell. */
  lemma IndexOfTopLeft(k: Kernel)
    ensures Index(k, k.bounds.x, k.bounds.y) == 0
  {
  }

  /** Euclidean division of a non-negative number by a negative one. */
  lemma DivByNegative(n: nat, d: int)
    requires d > 0
    ensures n / -d == -(n / d)
  {
    var q := n / -d;
    var r := n % -d;
    assert n == (-q) * d + r;
    DivModUnique(-q, r, d);
  }

  /** Every coordinate within the bounds has an index within the cell array. */
  lemma {:induction false} IndexInRange(k: Kernel, column: int, row: int)
    requires InBounds(k, column, row)
    ensures 0 <= Index(k, column, row) < Width(k) * Height(k)
  {
    var r := row - k.bounds.y;
    MulMonotone(0, r, Width(k));
    MulMonotone(r, Height(k) - 1, Width(k));
    assert (Height(k) - 1) * Width(k) + Width(k) == Width(k) * Height(k);
  }

  /** `Index` followed by `Coordinates` gives back the coordinates. */
  lemma {:induction false} CoordinatesOfIndex(k: Kernel, column: int, row: int)
    requires InBounds(k, column, row)
    ensures Coordinates(k, Index(k, column, row)) == (column, row)
  {
    DivModUnique(row - k.bounds.y, column - k.bounds.x, Width(k));
  }

  /** Every index of the cell array belongs to exactly one coordinate within
      the bounds: together with `CoordinatesOfIndex`, `Index` is a bijection
      between the bounds and [0, width * height). */
  lemma {:induction false} IndexOfCoordinates(k: Kernel, i: int)
    requires Width(k) > 0 && 0 <= i < Width(k) * Height(k)
    ensures InBounds(k, Coordinates(k, i).0, Coordinates(k, i).1)
    ensures Index(k, Coordinates(k, i).0, Coordinates(k, i).1) == i
  {
    var w := Width(k);
    assert i == (i / w) * w + i % w;
    if i / w >= Height(k) {
      MulMonotone(Height(k), i / w, w);
      assert false;
    }
  }

  /** Distinct coordinates within the bounds have distinct indices. */
  lemma IndexInjective(k: Kernel, c1: int, r1: int, c2: int, r2: int)
    requires InBounds(k, c1, r1) && InBounds(k, c2, r2)
    requires Index(k, c1, r1) == Index(k, c2, r2)
    ensures c1 == c2 && r1 == r2
  {
    CoordinatesOfIndex(k, c1, r1);
    CoordinatesOfIndex(k, c2, r2);
  }

  /** For a non-empty kernel of odd size the key element (0, 0) lies within
      the bounds, as many coefficients lie on either side of it, and it is
      the centre cell of the matrix. */
  lemma {:induction false} CentreOfOddKernel(m: Matrix)
    requires m.columns % 2 == 1 && m.rows % 2 == 1
    ensures InBounds(NewKernel(m), 0, 0)
    ensures -NewKernel(m).bounds.x == NewKernel(m).bounds.x + m.columns - 1
    ensures -NewKernel(m).bounds.y == NewKernel(m).bounds.y + m.rows - 1
    ensures Index(NewKernel(m), 0, 0) == (m.rows / 2) * m.columns + m.columns / 2
  {
    var k := NewKernel(m);
    assert k.bounds.x == -(m.columns / 2) && k.bounds.y == -(m.rows / 2);
    assert m.columns == 2 * (m.columns / 2) + 1;
    assert m.rows == 2 * (m.rows / 2) + 1;
  }

  /** `equals`: two kernels are equal when their matrices are; the bounds are
      not compared. (The class check of the source separates float and double
      kernels, which the precision tag of the matrix does here.) */
  predicate KernelEquals(a: Kernel, b: Kernel) {
    a.matrix == b.matrix
  }

  /** `hashCode`: the hash of the matrix. The matrix hash itself is a
      parameter. */
  function HashCode(k: Kernel, matrixHash: Matrix -> int): int {
    matrixHash(k.matrix)
  }

  /** Equal kernels have equal hashes. */
  lemma EqualKernelsEqualHashes(a: Kernel, b: Kernel, matrixHash: Matrix -> int)
    requires KernelEquals(a, b)
    ensures HashCode(a, matrixHash) == HashCode(b, matrixHash)
  {
  }

  /** Since the bounds are computed from the matrix, two kernels built from
      matrices are `equals` exactly when they are the same value. */
  lemma KernelEqualsIsIdentity(m1: Matrix, m2: Matrix)
    ensures KernelEquals(NewKernel(m1), NewKernel(m2)) <==> NewKernel(m1) == NewKernel(m2)
  {
  }
}
