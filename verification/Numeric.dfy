/** Integer quotients. SQL NUMERIC keeps finitely many fractional digits of `a / b`, rounding half
    up, before `floor` or `ceil` sees the value; how many it keeps depends on the operands, so
    every statement is made for an arbitrary `Digits`. */
module Numeric {
  type Digits = (nat, nat) -> nat

  function Pow10(n: nat): (p: nat)
    ensures p > 0
  {
    if n == 0 then 1 else 10 * Pow10(n - 1)
  }

  lemma {:induction false} Pow10Monotone(m: nat, n: nat)
    requires m <= n
    ensures Pow10(m) <= Pow10(n)
  {
    if m < n { Pow10Monotone(m, n - 1); }
  }

  /** The exact floor of a / b, as BigInt division computes it. */
  function Floor(a: nat, b: nat): (q: nat)
    requires b > 0
    ensures q * b <= a < q * b + b
  {
    a / b
  }

  /** a / b in units of 10^-scale, rounded half up. */
  function Rounded(a: nat, b: nat, scale: nat): nat
    requires b > 0
  {
    Floor(2 * (a * Pow10(scale)) + b, 2 * b)
  }

  function FloorSql(a: nat, b: nat, scale: nat): nat
    requires b > 0
  {
    Floor(Rounded(a, b, scale), Pow10(scale))
  }

  function CeilSql(a: nat, b: nat, scale: nat): nat
    requires b > 0
  {
    Floor(Rounded(a, b, scale) + Pow10(scale) - 1, Pow10(scale))
  }

  /** The exact ceil of a / b. */
  function Ceil(a: nat, b: nat): (q: nat)
    requires b > 0
    ensures q * b - b < a <= q * b
  {
    Floor(a + b - 1, b)
  }

  /** The digits PostgreSQL keeps of the quotient of two integers: 16 significant ones, counted in groups
      of four from where the quotient is expected to start. */
  function PostgresDigits(a: nat, b: nat): nat {
    var start := Weight(a) - Weight(b) - if Lead(a) <= Lead(b) then 1 else 0;
    if start < 4 then 16 - 4 * start else 0
  }

  /** The groups of four digits after the leading one, */
  function Weight(n: nat): nat {
    if n < 10000 then 0 else Weight(n / 10000) + 1
  }

  /** and the leading group. */
  function Lead(n: nat): nat {
    if n < 10000 then n else Lead(n / 10000)
  }

  /** The fraction of a / b is so close to one that the kept digits round it up to a whole. */
  predicate RoundsUp(a: nat, b: nat, scale: nat)
    requires b > 0
  {
    2 * (Pow10(scale) * (b - (a - Floor(a, b) * b))) <= b
  }

  /** The fraction of a / b is not zero, but so small that the kept digits round it down to a whole. */
  predicate RoundsDown(a: nat, b: nat, scale: nat)
    requires b > 0
  {
    var r := a - Floor(a, b) * b;
    r > 0 && 2 * (Pow10(scale) * r) < b
  }

  lemma {:induction false} MulMono(x: int, y: int, k: int)
    requires x <= y && k >= 0
    ensures x * k <= y * k
  {
  }

  lemma {:induction false} MulCancel(x: int, y: int, k: int)
    requires k > 0 && x * k < y * k
    ensures x < y
  {
    if x >= y { MulMono(y, x, k); }
  }

  /** The quotient is the only multiple that fits. */
  lemma {:induction false} FloorUnique(a: nat, b: nat, q: int)
    requires b > 0 && q * b <= a < q * b + b
    ensures Floor(a, b) == q
  {
    var p := Floor(a, b);
    assert p * b < (q + 1) * b && q * b < (p + 1) * b;
    MulCancel(p, q + 1, b);
    MulCancel(q, p + 1, b);
  }

  lemma {:induction false} FloorMonotone(x: nat, y: nat, d: nat)
    requires d > 0 && x <= y
    ensures Floor(x, d) <= Floor(y, d)
  {
    assert Floor(x, d) * d < (Floor(y, d) + 1) * d;
    MulCancel(Floor(x, d), Floor(y, d) + 1, d);
  }

  /** What rounding adds to q whole units, in halves of 1/b. */
  lemma {:induction false} ExcessBounds(a: nat, b: nat, p: nat, q: nat, n: nat, m: int)
    requires b > 0 && m == n - q * p
    requires n * (2 * b) <= 2 * (a * p) + b < n * (2 * b) + 2 * b
    ensures m * (2 * b) <= 2 * ((a - q * b) * p) + b < m * (2 * b) + 2 * b
  {
    Excess(n, q, b, p, m);
    assert (a - q * b) * p == a * p - q * b * p by { Spread(a, -(q * b), p); }
  }

  lemma {:induction false} ExcessRange(b: int, p: int, r: int, m: int)
    requires 0 <= r < b && p > 0
    requires m * (2 * b) <= 2 * (r * p) + b < m * (2 * b) + 2 * b
    ensures 0 <= m <= p
    ensures m == p <==> 2 * (p * (b - r)) <= b
  {
    var rp, bp := r * p, b * p;
    assert 0 <= rp <= bp - p by { MulMono(0, r, p); MulMono(r, b - 1, p); Spread(b, -1, p); }
    assert p * (b - r) == bp - rp by { Spread(b, -r, p); }
    assert (p - 1) * (2 * b) == 2 * bp - 2 * b by { Spread(p, -1, 2 * b); }
    assert (p + 1) * (2 * b) == 2 * bp + 2 * b by { Spread(p, 1, 2 * b); }
    assert p * (2 * b) == 2 * bp;
    assert (m + 1) * (2 * b) == m * (2 * b) + 2 * b by { Spread(m, 1, 2 * b); }
    MulCancel(-1, m, 2 * b);
    MulCancel(m, p + 1, 2 * b);
    if 2 * (bp - rp) <= b {
      MulCancel(p - 1, m, 2 * b);
    } else {
      MulCancel(m, p, 2 * b);
    }
  }

  /** The floor of a rounded quotient is the exact floor, or one more exactly when it rounds up. */
  lemma {:induction false} FloorSqlExact(a: nat, b: nat, scale: nat)
    requires b > 0
    ensures FloorSql(a, b, scale) == if RoundsUp(a, b, scale) then Floor(a, b) + 1 else Floor(a, b)
  {
    var p, q, n := Pow10(scale), Floor(a, b), Rounded(a, b, scale);
    var r, m := a - q * b, n - q * p;
    ExcessBounds(a, b, p, q, n, m);
    ExcessRange(b, p, r, m);
    assert RoundsUp(a, b, scale) <==> m == p;
    if m == p {
      assert n == (q + 1) * p by { Spread(q, 1, p); }
      FloorUnique(n, p, q + 1);
    } else {
      FloorUnique(n, p, q);
    }
  }

  /** The ceil of a rounded quotient is the exact ceil, or one less exactly when it rounds down. */
  lemma {:induction false} CeilSqlExact(a: nat, b: nat, scale: nat)
    requires b > 0
    ensures CeilSql(a, b, scale) == if RoundsDown(a, b, scale) then Ceil(a, b) - 1 else Ceil(a, b)
  {
    var p, q, n := Pow10(scale), Floor(a, b), Rounded(a, b, scale);
    var r, m := a - q * b, n - q * p;
    ExcessBounds(a, b, p, q, n, m);
    ExcessRange(b, p, r, m);
    ExcessZero(b, p, r, m);
    assert (q + 1) * p == q * p + p by { Spread(q, 1, p); }
    if m == 0 { FloorUnique(n + p - 1, p, q); } else { FloorUnique(n + p - 1, p, q + 1); }
    assert (q + 1) * b == q * b + b by { Spread(q, 1, b); }
    if r == 0 { FloorUnique(a + b - 1, b, q); } else { FloorUnique(a + b - 1, b, q + 1); }
  }

  /** Reads off a rounded ceil: n is the rounded quotient, q its ceil. */
  lemma {:induction false} CeilSqlIs(a: nat, b: nat, scale: nat, n: nat, q: nat)
    requires b > 0 && n * (2 * b) <= 2 * (a * Pow10(scale)) + b < n * (2 * b) + 2 * b
    requires q * Pow10(scale) <= n + Pow10(scale) - 1 < q * Pow10(scale) + Pow10(scale)
    ensures CeilSql(a, b, scale) == q
  {
    FloorUnique(2 * (a * Pow10(scale)) + b, 2 * b, n);
    FloorUnique(n + Pow10(scale) - 1, Pow10(scale), q);
  }

  lemma {:induction false} ExcessZero(b: int, p: int, r: int, m: int)
    requires 0 <= r < b && p > 0 && 0 <= m
    requires m * (2 * b) <= 2 * (r * p) + b < m * (2 * b) + 2 * b
    ensures m == 0 <==> 2 * (p * r) < b
  {
    if m > 0 { MulMono(1, m, 2 * b); }
  }

  /** A larger quotient never has the smaller exact ceil. */
  lemma {:induction false} CeilMonotone(a: nat, b: nat, c: nat, d: nat)
    requires b > 0 && d > 0 && a * d <= c * b
    ensures Ceil(a, b) <= Ceil(c, d)
  {
    var p, q := Ceil(a, b), Ceil(c, d);
    // (p - 1) b < a and c <= q d; cross-multiplied, p - 1 < q.
    assert (p - 1) * b == p * b - b by { Spread(p, -1, b); }
    MulStrict((p - 1) * b, a, d);
    MulMono(c, q * d, b);
    assert (p - 1) * b * d == (p - 1) * (b * d) && q * d * b == q * (b * d);
    MulPos(b, d);
    MulCancel(p - 1, q, b * d);
  }

  lemma {:induction false} Spread(x: int, y: int, k: int)
    ensures (x + y) * k == x * k + y * k
    ensures k * (x + y) == x * k + y * k
  {
  }

  lemma {:induction false} Excess(n: int, q: int, b: int, p: int, m: int)
    requires m == n - q * p
    ensures m * (2 * b) == n * (2 * b) - 2 * (q * b * p)
  {
    assert (n - q * p) * (2 * b) == n * (2 * b) - (q * p) * (2 * b);
    assert (q * p) * (2 * b) == 2 * (q * b * p);
  }

  /** Rounded quotients kept to the same digits are ordered as the exact ones. */
  lemma {:induction false} RoundedMonotone(a: nat, b: nat, c: nat, d: nat, scale: nat)
    requires b > 0 && d > 0 && a * d <= c * b
    ensures Rounded(a, b, scale) <= Rounded(c, d, scale)
  {
    var p := Pow10(scale);
    var n, m := Rounded(a, b, scale), Rounded(c, d, scale);
    // (2n - 1) b <= 2 a p and 2 c p < (2m + 1) d; cross-multiplied, 2n - 1 < 2m + 1.
    assert (2 * n - 1) * b <= 2 * (a * p) by { Spread(2 * n, -1, b); }
    assert 2 * (c * p) < (2 * m + 1) * d by { Spread(2 * m, 1, d); }
    Cross(2 * n - 1, a, b, p, d);
    Cross(2 * m + 1, c, d, p, b);
    MulMono(a * d, c * b, 2 * p);
    MulMono((2 * n - 1) * b, 2 * (a * p), d);
    MulStrict(2 * (c * p), (2 * m + 1) * d, b);
    assert (2 * n - 1) * (b * d) < (2 * m + 1) * (b * d);
    MulPos(b, d);
    MulCancel(2 * n - 1, 2 * m + 1, b * d);
  }

  lemma {:induction false} MulPos(b: int, d: int)
    requires b > 0 && d > 0
    ensures b * d > 0
  {
  }

  lemma {:induction false} MulStrict(x: int, y: int, k: int)
    requires x < y && k > 0
    ensures x * k < y * k
  {
  }

  lemma {:induction false} Cross(n: int, a: int, b: int, p: int, d: int)
    ensures n * b * d == n * (b * d) == n * (d * b)
    ensures 2 * (a * p) * d == (a * d) * (2 * p)
  {
  }

  lemma {:induction false} CeilSqlMonotone(a: nat, b: nat, c: nat, d: nat, scale: nat)
    requires b > 0 && d > 0 && a * d <= c * b
    ensures CeilSql(a, b, scale) <= CeilSql(c, d, scale)
  {
    RoundedMonotone(a, b, c, d, scale);
    FloorMonotone(Rounded(a, b, scale) + Pow10(scale) - 1, Rounded(c, d, scale) + Pow10(scale) - 1, Pow10(scale));
  }
}
