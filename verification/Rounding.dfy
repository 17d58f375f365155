/** Integer division rounded down and up, as adjoints of multiplication. */
module Rounding {

  function Floor(a: nat, b: nat): nat
    requires b > 0
  {
    a / b
  }

  function Ceil(a: nat, b: nat): nat
    requires b > 0
  {
    if a == 0 then 0 else (a - 1) / b + 1
  }

  function Min(a: nat, b: nat): nat { if a < b then a else b }

  lemma MulLe(x: int, y: int, b: nat)
    requires x <= y
    ensures x * b <= y * b
  {
    Spread(x, y - x, b);
    Positive(y - x, b);
  }

  lemma Positive(x: nat, b: nat)
    ensures x * b >= 0
  {
  }

  lemma Spread(x: int, y: int, b: int)
    ensures (x + y) * b == x * b + y * b
  {
  }

  lemma Quotient(a: nat, b: nat)
    requires b > 0
    ensures a / b * b <= a < (a / b + 1) * b
  {
    Spread(a / b, 1, b);
    assert a == b * (a / b) + a % b;
    assert b * (a / b) == a / b * b;
  }

  /** k is at most the quotient rounded down exactly when k times the divisor fits. */
  lemma FloorAdjoint(k: nat, a: nat, b: nat)
    requires b > 0
    ensures k <= Floor(a, b) <==> k * b <= a
  {
    var q := Floor(a, b);
    Quotient(a, b);
    if k <= q {
      MulLe(k, q, b);
    } else {
      MulLe(q + 1, k, b);
    }
  }

  /** The quotient rounded up is at most k exactly when k times the divisor covers. */
  lemma CeilAdjoint(k: nat, a: nat, b: nat)
    requires b > 0
    ensures Ceil(a, b) <= k <==> a <= k * b
  {
    Positive(k, b);
    if a > 0 {
      var q := (a - 1) / b;
      Quotient(a - 1, b);
      if q + 1 <= k {
        MulLe(q + 1, k, b);
      } else {
        MulLe(k, q, b);
      }
    }
  }

  /** Rounding up by a factor of at least one and then down by its inverse loses nothing. */
  lemma CeilThenFloor(x: nat, p: nat, q: nat)
    requires 0 < q <= p
    ensures Floor(Ceil(x * p, q) * q, p) == x
  {
    var up := Ceil(x * p, q);
    CeilAdjoint(up, x * p, q);
    FloorAdjoint(x, up * q, p);
    FloorAdjoint(x + 1, up * q, p);
    Spread(x, 1, p);
    Spread(up, -1, q);
    if up > 0 {
      CeilAdjoint(up - 1, x * p, q);
    }
  }

  /** Adding a rounded-up fraction is rounding up the sum. */
  lemma CeilOfSum(x: nat, f: nat, q: nat)
    requires q > 0
    ensures x + Ceil(x * f, q) == Ceil(x * (q + f), q)
  {
    var up := Ceil(x * f, q);
    Expand(x, q, f);
    CeilAdjoint(up, x * f, q);
    CeilAdjoint(x + up, x * (q + f), q);
    Spread(x, up, q);
    Spread(x + up, -1, q);
    if up > 0 {
      CeilAdjoint(up - 1, x * f, q);
      Spread(up, -1, q);
    }
    if x + up > 0 {
      CeilAdjoint(x + up - 1, x * (q + f), q);
      if up == 0 {
        Spread(x, -1, q);
      }
    }
  }

  lemma Expand(x: int, q: int, f: int)
    ensures x * (q + f) == x * q + x * f
  {
  }

  /** Taking a rounded-up fraction away is rounding down the rest. */
  lemma FloorOfRest(x: nat, f: nat, q: nat)
    requires 0 < q && f <= q
    ensures Ceil(x * f, q) <= x
    ensures x - Ceil(x * f, q) == Floor(x * (q - f), q)
  {
    var up := Ceil(x * f, q);
    CeilAdjoint(x, x * f, q);
    Within(x, f, q);
    CeilAdjoint(up, x * f, q);
    Expand(x, q - f, f);
    FloorAdjoint(x - up, x * (q - f), q);
    FloorAdjoint(x - up + 1, x * (q - f), q);
    Spread(x - up, up, q);
    Spread(x - up, 1, q);
    if up > 0 {
      CeilAdjoint(up - 1, x * f, q);
      Spread(up, -1, q);
    }
  }

  lemma Within(x: nat, f: nat, q: nat)
    requires f <= q
    ensures x * f <= x * q
  {
    Expand(x, f, q - f);
    Positive(x, q - f);
  }
}
