/** The tiler grid of pipeline/pipeline.py: `rows = int(math.sqrt(n))`,
    `columns = int(math.ceil(1.0 * n / rows))`, on integers. */
module Tiler {

  /** `int(math.sqrt(n))`: the integer square root. */
  function Isqrt(n: nat): (r: nat)
    ensures r * r <= n < (r + 1) * (r + 1)
  {
    if n == 0 then 0
    else
      var s := Isqrt(n - 1);
      if (s + 1) * (s + 1) <= n then s + 1 else s
  }

  /** `int(math.ceil(a / b))`: the least q with q * b >= a. */
  function CeilDiv(a: nat, b: nat): (q: nat)
    requires b > 0
    ensures q * b >= a
    ensures q > 0 ==> (q - 1) * b < a
  {
    if a == 0 then 0 else 1 + CeilDiv(if a <= b then 0 else a - b, b)
  }

  function Rows(n: nat): nat
  {
    Isqrt(n)
  }

  /** The column count; `n / 0` raises ZeroDivisionError when `n` is 0, so
      it is defined only from one source on. */
  function Columns(n: nat): nat
    requires n >= 1
  {
    assert Isqrt(n) >= 1;
    CeilDiv(n, Isqrt(n))
  }

  lemma MulMonotone(a: nat, b: nat, c: nat)
    requires a <= b
    ensures a * c <= b * c
  {
  }

  /** For at least one source the grid has a row, holds every source, has
      no empty row, and is never taller than wide nor more than two columns
      wider than tall. */
  lemma {:induction false} GridFits(n: nat)
    requires n >= 1
    ensures Rows(n) >= 1
    ensures Rows(n) * Columns(n) >= n
    ensures Rows(n) * (Columns(n) - 1) < n
    ensures Rows(n) <= Columns(n) <= Rows(n) + 2
  {
    var r, c := Rows(n), Columns(n);
    assert r * r <= n <= c * r;
    CancelRight(r, c, r);
    assert (c - 1) * r < n;
    assert (r + 1) * (r + 1) == (r + 2) * r + 1;
    CancelRightStrict(c - 1, r + 2, r);
  }

  lemma CancelRight(a: nat, b: nat, k: nat)
    requires k > 0 && a * k <= b * k
    ensures a <= b
  {
    if a > b {
      MulMonotone(b + 1, a, k);
      assert false;
    }
  }

  lemma CancelRightStrict(a: nat, b: nat, k: nat)
    requires a * k < b * k
    ensures a < b
  {
    if a >= b {
      MulMonotone(b, a, k);
      assert false;
    }
  }

  /** The grids for 1, 2, 3, 4, 5, 9 and 10 sources. */
  lemma {:induction false} GridExamples()
    ensures Rows(1) == 1 && Columns(1) == 1
    ensures Rows(2) == 1 && Columns(2) == 2
    ensures Rows(3) == 1 && Columns(3) == 3
    ensures Rows(4) == 2 && Columns(4) == 2
    ensures Rows(5) == 2 && Columns(5) == 3
    ensures Rows(9) == 3 && Columns(9) == 3
    ensures Rows(10) == 3 && Columns(10) == 4
  {
    IsqrtIs(1, 1);
    IsqrtIs(2, 1);
    IsqrtIs(3, 1);
    IsqrtIs(4, 2);
    IsqrtIs(5, 2);
    IsqrtIs(9, 3);
    IsqrtIs(10, 3);
    CeilDivIs(2, 1, 2);
    CeilDivIs(3, 1, 3);
    CeilDivIs(4, 2, 2);
    CeilDivIs(5, 2, 3);
    CeilDivIs(9, 3, 3);
    CeilDivIs(10, 3, 4);
  }

  /** The integer square root is the only r with r² <= n < (r+1)². */
  lemma IsqrtIs(n: nat, r: nat)
    requires r * r <= n < (r + 1) * (r + 1)
    ensures Isqrt(n) == r
  {
    var s := Isqrt(n);
    if s < r {
      MulMonotone(s + 1, r, s + 1);
      MulMonotone(s + 1, r, r);
    } else if s > r {
      MulMonotone(r + 1, s, r + 1);
      MulMonotone(r + 1, s, s);
    }
  }

  /** The ceiling quotient is the only q with (q-1)·b < a <= q·b. */
  lemma CeilDivIs(a: nat, b: nat, q: nat)
    requires b > 0 && q > 0 && (q - 1) * b < a <= q * b
    ensures CeilDiv(a, b) == q
  {
    var c := CeilDiv(a, b);
    if c < q {
      MulMonotone(c, q - 1, b);
    } else if c > q {
      MulMonotone(q, c - 1, b);
    }
  }
}
