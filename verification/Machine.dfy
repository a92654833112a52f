/** Machine integers with explicit overflow, and the failure-compatible
    results used by every model in this project. */
module Machine {
  const U16_LIMIT := 0x1_0000
  const U32_LIMIT := 0x1_0000_0000
  const U64_LIMIT := 0x1_0000_0000_0000_0000

  type byte = x: nat | x < 0x100
  type u16 = x: nat | x < U16_LIMIT
  type u32 = x: nat | x < U32_LIMIT
  type u64 = x: nat | x < U64_LIMIT

  datatype Option<+T> = None | Some(value: T) {
    predicate IsFailure() {
      None?
    }

    function PropagateFailure<U>(): Option<U>
      requires None?
    {
      None
    }

    function Extract(): T
      requires Some?
    {
      value
    }
  }

  datatype Result<+T, +E> = Ok(value: T) | Err(error: E) {
    predicate IsFailure() {
      Err?
    }

    function PropagateFailure<U>(): Result<U, E>
      requires Err?
    {
      Err(error)
    }

    function Extract(): T
      requires Ok?
    {
      value
    }
  }

  function CheckedAdd(a: u64, b: u64): Option<u64> {
    if a + b < U64_LIMIT then Some(a + b) else None
  }

  function SaturatingAdd(a: u64, b: u64): u64 {
    if a + b < U64_LIMIT then a + b else U64_LIMIT - 1
  }

  lemma {:induction false} MulNonNegative(a: nat, b: nat)
    ensures a * b >= 0
  {
  }

  function CheckedMul(a: u64, b: u64): Option<u64> {
    MulNonNegative(a, b);
    if a * b < U64_LIMIT then Some(a * b) else None
  }

  function CeilDiv(a: nat, b: nat): nat
    requires b > 0
  {
    (a + b - 1) / b
  }

  /** Truncating division of naturals. */
  function Quot(n: nat, d: nat): nat
    requires d > 0
  {
    n / d
  }

  lemma {:induction false} QuotBounds(n: nat, d: nat)
    requires d > 0
    ensures Quot(n, d) * d <= n < (Quot(n, d) + 1) * d
    ensures n % d == 0 ==> Quot(n, d) * d == n
  {
  }

  lemma {:induction false} MulLess(a: nat, b: nat, c: nat)
    requires a < b && c > 0
    ensures a * c < b * c && a * c + c <= b * c && (a + 1) * c == a * c + c
  {
    assert (b - a) * c >= c;
  }

  function Min(a: int, b: int): int {
    if a <= b then a else b
  }

  /** `x` repeated `n` times. */
  function Repeat<T>(x: T, n: nat): (s: seq<T>)
    ensures |s| == n
    ensures forall i :: 0 <= i < n ==> s[i] == x
  {
    if n == 0 then [] else Repeat(x, n - 1) + [x]
  }

  lemma {:induction false} ConcatInjective<T>(a: seq<T>, b: seq<T>, c: seq<T>, d: seq<T>)
    requires |a| == |c|
    ensures a + b == c + d <==> a == c && b == d
  {
    if a + b == c + d {
      assert a == (a + b)[..|a|] && b == (a + b)[|a|..];
      assert c == (c + d)[..|c|] && d == (c + d)[|c|..];
    }
  }

  // Products under a name, so that proofs can choose the law they use.

  function Product(x: nat, y: nat): nat {
    MulNonNegative(x, y);
    x * y
  }

  lemma {:induction false} ProductStep(n: nat, x: nat)
    ensures Product(n + 1, x) == Product(n, x) + x && Product(0, x) == 0
  {
  }

  lemma {:induction false} ProductMonotone(x: nat, y: nat, z: nat)
    requires y <= z
    ensures Product(x, y) <= Product(x, z) && Product(y, x) <= Product(z, x)
    ensures x > 0 ==> y <= Product(x, y) && y <= Product(y, x)
  {
    assert x * (z - y) >= 0;
  }

  lemma {:induction false} ProductDistributes(n: nat, x: nat, y: nat)
    ensures Product(n, x + y) == Product(n, x) + Product(n, y)
    ensures Product(n, 0) == 0 && Product(n, 1) == n
  {
  }

  lemma {:induction false} ProductAssoc(x: nat, y: nat, z: nat)
    ensures Product(Product(x, y), z) == Product(x, Product(y, z))
    ensures Product(x, y) == Product(y, x)
  {
  }

  lemma {:induction false} AsProduct(x: nat, y: nat)
    ensures Product(x, y) == x * y
  {
  }

  lemma {:induction false} AverageOfEqual(n: nat, x: nat)
    requires n > 0
    ensures Product(n, x) / n == x
  {
    var q := Quot(Product(n, x), n);
    AsProduct(n, x);
    QuotBounds(Product(n, x), n);
    if q < x {
      MulLess(q, x, n);
    } else if x < q {
      MulLess(x, q, n);
    }
  }

  /** Row-major position of column `j` of row `i`. */
  function Cell(width: nat, i: nat, j: nat): nat {
    Product(i, width) + j
  }

  lemma {:induction false} CellBounds(width: nat, rows: nat, i: nat, j: nat)
    requires i < rows && j < width
    ensures Cell(width, i, j) < Product(rows, width)
  {
    hide Product;
    ProductStep(i, width);
    ProductMonotone(width, i + 1, rows);
  }

  lemma {:induction false} CellInjective(width: nat, i: nat, j: nat, k: nat, l: nat)
    requires j < width && l < width && Cell(width, i, j) == Cell(width, k, l)
    ensures i == k && j == l
  {
    hide Product;
    if i < k {
      ProductStep(i, width);
      ProductMonotone(width, i + 1, k);
    } else if k < i {
      ProductStep(k, width);
      ProductMonotone(width, k + 1, i);
    }
  }
}
