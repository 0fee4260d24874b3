/** Arithmetic of residue classes, for a modulus that is not a constant. */
module Residues {

  lemma MultipleSign(q: int, m: int)
    requires 0 < m
    ensures 1 <= q ==> m <= q * m
    ensures q <= -1 ==> q * m <= -m
  {
    if 1 <= q {
      assert q * m == (q - 1) * m + m;
      assert 0 <= (q - 1) * m;
    } else {
      assert q * m == (q + 1) * m - m;
      assert q <= -1 ==> (q + 1) * m <= 0;
    }
  }

  lemma ModUnique(x: nat, q: nat, r: nat, m: nat)
    requires r < m && x == q * m + r
    ensures x % m == r && x / m == q
  {
    var d := q - x / m;
    assert d * m == q * m - (x / m) * m;
    assert x == (x / m) * m + x % m;
    MultipleSign(d, m);
  }

  lemma ModBelow(x: nat, m: nat)
    requires 0 < m
    ensures x % m <= x
  {
    assert x == (x / m) * m + x % m;
    if x / m >= 1 { MultipleSign(x / m, m); }
  }

  // A summand may be reduced first.
  lemma AddMod(a: nat, b: nat, m: nat)
    requires 0 < m
    ensures (a % m + b) % m == (a + b) % m
  {
    var p, r := a / m, a % m;
    var q, z := (r + b) / m, (r + b) % m;
    assert a == p * m + r;
    assert r + b == q * m + z;
    assert (p + q) * m == p * m + q * m;
    ModUnique(a + b, p + q, z, m);
  }

  // Adding the modulus stays in the class.
  lemma NextRound(a: nat, m: nat)
    requires 0 < m
    ensures (a + m) % m == a % m
  {
    assert a == (a / m) * m + a % m;
    assert (a / m + 1) * m == (a / m) * m + m;
    ModUnique(a + m, a / m + 1, a % m, m);
  }

  // Two members of a class are a whole round apart.
  lemma Spacing(a: nat, b: nat, m: nat)
    requires 0 < m && a % m == b % m && a < b
    ensures a + m <= b
  {
    var d := b / m - a / m;
    assert a == (a / m) * m + a % m;
    assert b == (b / m) * m + b % m;
    assert d * m == b - a;
    MultipleSign(d, m);
  }

  // Every class has a member in any window of one round.
  lemma Representative(a: nat, r: nat, m: nat) returns (b: nat)
    requires r < m
    ensures a <= b < a + m && b % m == r
  {
    var base := a - a % m;
    assert base == (a / m) * m;
    if r >= a % m {
      b := base + r;
      ModUnique(b, a / m, r, m);
    } else {
      b := base + m + r;
      assert (a / m + 1) * m == (a / m) * m + m;
      ModUnique(b, a / m + 1, r, m);
    }
  }
}
