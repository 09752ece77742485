// Fixed-point integer arithmetic: division that truncates toward zero, 64-bit clamping and
// saturating addition, with the facts the ledgers rest on.
module Arith {

  const SCALE: int := 100_000_000
  const I64_MAX: int := 0x7FFF_FFFF_FFFF_FFFF
  const I64_MIN: int := -0x8000_0000_0000_0000

  function Abs(x: int): nat {
    if x < 0 then -x else x
  }

  function Min(x: int, y: int): int {
    if x <= y then x else y
  }

  function Max(x: int, y: int): int {
    if x <= y then y else x
  }

  function Sign(x: int): int {
    if x < 0 then -1 else if x == 0 then 0 else 1
  }

  predicate InI64(x: int) {
    I64_MIN <= x <= I64_MAX
  }

  function Clamp(x: int): int {
    if x < I64_MIN then I64_MIN else if x > I64_MAX then I64_MAX else x
  }

  function SatAdd(x: int, y: int): int {
    Clamp(x + y)
  }

  function Sum(xs: seq<int>): int {
    if xs == [] then 0 else Sum(xs[..|xs| - 1]) + xs[|xs| - 1]
  }

  lemma {:induction false} SumOne(x: int)
    ensures Sum([x]) == x
  {
    assert [x][..0] == [] && Sum([]) == 0;
  }

  lemma {:induction false} SumAppend(a: seq<int>, b: seq<int>)
    ensures Sum(a + b) == Sum(a) + Sum(b)
  {
    if b == [] {
      assert a + b == a;
    } else {
      var n := |b| - 1;
      assert (a + b)[..|a + b| - 1] == a + b[..n];
      SumAppend(a, b[..n]);
    }
  }

  // Integer division that rounds toward zero.
  function TruncDiv(a: int, b: int): int
    requires b > 0
  {
    if a >= 0 then a / b else -((-a) / b)
  }

  lemma {:induction false} DivBounds(a: int, b: int)
    requires a >= 0 && b > 0
    ensures a / b >= 0
    ensures b * (a / b) <= a <= b * (a / b) + b - 1
  {
    assert a == b * (a / b) + a % b;
  }

  lemma {:induction false} MulNonNeg(x: int, y: int)
    requires x >= 0 && y >= 0
    ensures x * y >= 0
  {
  }

  lemma {:induction false} MulNeg(x: int, y: int)
    ensures x * (-y) == -(x * y)
  {
  }

  // Truncation loses strictly less than one divisor, and never overshoots.
  lemma {:induction false} TruncDivError(a: int, b: int)
    requires b > 0
    ensures Abs(a - b * TruncDiv(a, b)) <= b - 1
    ensures Abs(b * TruncDiv(a, b)) <= Abs(a)
  {
    var q := Abs(a) / b;
    DivBounds(Abs(a), b);
    MulNonNeg(b, q);
    MulNeg(b, q);
    assert TruncDiv(a, b) == if a >= 0 then q else -q;
    hide TruncDiv;
  }

  lemma {:induction false} Distribute(x: int, y: int, z: int)
    ensures (x + y) * z == x * z + y * z
    ensures (x - y) * z == x * z - y * z
  {
  }

  lemma {:induction false} MulMono(x: int, y: int, k: int)
    requires x <= y && k >= 0
    ensures x * k <= y * k
  {
    MulNonNeg(y - x, k);
    assert (y - x) * k == y * k - x * k;
  }

  lemma {:induction false} AbsMul(x: int, y: int)
    ensures Abs(x * y) == Abs(x) * Abs(y)
  {
    if x >= 0 && y >= 0 {
      MulNonNeg(x, y);
    } else if x >= 0 {
      MulNonNeg(x, -y);
      MulNeg(x, -y);
    } else if y >= 0 {
      MulNonNeg(-x, y);
      assert (-x) * y == -(x * y);
    } else {
      MulNonNeg(-x, -y);
      assert (-x) * (-y) == x * y;
    }
  }

  // |a| <= m * b implies |a truncated by b| <= m.
  lemma {:induction false} TruncDivBound(a: int, b: int, m: int)
    requires b > 0 && m >= 0
    requires Abs(a) <= m * b
    ensures Abs(TruncDiv(a, b)) <= m
  {
    var q := TruncDiv(a, b);
    TruncDivError(a, b);
    AbsMul(b, q);
    if Abs(q) >= m + 1 {
      MulMono(m + 1, Abs(q), b);
      assert false;
    }
  }
}
