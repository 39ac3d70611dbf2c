// Integers shared by several parts: saturation, and facts about division.

module Arithmetic {
  const U64_MAX: nat := 0xFFFF_FFFF_FFFF_FFFF

  // The next revision, saturating.
  function Bump(revision: nat): nat {
    if revision >= U64_MAX then U64_MAX else revision + 1
  }

  function DivCeil(a: nat, b: nat): (q: nat)
    requires b > 0
    ensures (q - 1) * b < a <= q * b
  {
    DivCeilBounds(a, b);
    (a + b - 1) / b
  }

  lemma DivCeilBounds(a: nat, b: nat)
    requires b > 0
    ensures ((a + b - 1) / b - 1) * b < a <= (a + b - 1) / b * b
  {
    var q, r := (a + b - 1) / b, (a + b - 1) % b;
    assert a + b - 1 == q * b + r;
    assert (q - 1) * b == q * b - b;
  }

  lemma Times(a: int, b: int, m: nat)
    requires a <= b
    ensures a * m <= b * m
  {
    assert (b - a) * m >= 0;
  }

  // Quotients are found by bracketing.
  lemma QuotientIs(a: int, b: nat, q: int)
    requires b > 0 && q * b <= a < (q + 1) * b
    ensures a / b == q
  {
    var d := a / b;
    assert d * b <= a < (d + 1) * b;
    if d < q { Times(d + 1, q, b); }
    if d > q { Times(q + 1, d, b); }
  }

  // Remainders are found by division.
  lemma ModUnique(x: nat, n: nat, q: int, r: nat)
    requires 0 < n && x == n * q + r && r < n
    ensures x % n == r
  {
    assert (q + 1) * n == n * q + n && q * n == n * q;
    QuotientIs(x, n, q);
    assert x == n * (x / n) + x % n;
  }

  // One more turn of a wheel of n.
  lemma ModStep(x: nat, n: nat)
    requires 0 < n
    ensures (x + 1) % n == if x % n == n - 1 then 0 else x % n + 1
  {
    var q := x / n;
    if x % n == n - 1 {
      assert x + 1 == n * (q + 1) + 0;
      ModUnique(x + 1, n, q + 1, 0);
    } else {
      ModUnique(x + 1, n, q, x % n + 1);
    }
  }

  // A number above all that are taken.
  lemma {:induction false} Above(xs: set<nat>) returns (u: nat)
    ensures forall x :: x in xs ==> x < u
    decreases |xs|
  {
    if xs == {} {
      u := 0;
    } else {
      var x :| x in xs;
      var rest := Above(xs - {x});
      u := if x < rest then rest else x + 1;
      assert forall k :: k in xs ==> k == x || k in xs - {x};
    }
  }
}
