/** 32-bit words and the bit operations that evenk/bounded_queue.h uses on them. */
module Bits {
  import opened Residues

  const WORD := 0x1_0000_0000

  type u32 = x: nat | x < WORD

  function And(a: nat, b: nat): (c: nat)
    ensures c <= a && c <= b
  {
    if a == 0 || b == 0 then 0 else 2 * And(a / 2, b / 2) + (a % 2) * (b % 2)
  }

  function Or(a: nat, b: nat): nat
    decreases a + b
  {
    if a == 0 then b
    else if b == 0 then a
    else 2 * Or(a / 2, b / 2) + (if a % 2 == 1 || b % 2 == 1 then 1 else 0)
  }

  // `|` on words.
  function OrWord(a: u32, b: u32): u32 {
    assert Or(a, b) < WORD by {
      assert Pow2(8) == 256;
      assert Pow2(16) == 0x1_0000;
      assert Pow2(24) == 0x100_0000;
      assert Pow2(32) == WORD;
      OrBound(a, b, 32);
    }
    Or(a, b)
  }

  lemma {:induction false} OrBound(a: nat, b: nat, k: nat)
    requires a < Pow2(k) && b < Pow2(k)
    ensures Or(a, b) < Pow2(k)
    decreases k
  {
    if k > 0 { OrBound(a / 2, b / 2, k - 1); }
  }

  function Pow2(k: nat): (p: nat)
    ensures 1 <= p
  {
    if k == 0 then 1 else 2 * Pow2(k - 1)
  }

  lemma DoubleMod(a: nat, m: nat)
    requires 0 < m
    ensures a % (2 * m) == 2 * (a / 2 % m) + a % 2
  {
    var h := a / 2;
    var q, r := h / m, h % m;
    assert h == q * m + r;
    assert q * (2 * m) == 2 * (q * m);
    ModUnique(a, q, 2 * r + a % 2, 2 * m);
  }

  // Masking with 2^k - 1 is the remainder modulo 2^k.
  lemma {:induction false} AndMask(a: nat, k: nat)
    ensures And(a, Pow2(k) - 1) == a % Pow2(k)
    decreases k
  {
    if k == 0 {
      ModUnique(a, a, 0, 1);
    } else {
      var m := Pow2(k - 1);
      var h := a / 2;
      var rest := And(h, m - 1);
      assert rest == h % m by { AndMask(h, k - 1); }
      assert And(a, 2 * m - 1) == 2 * rest + a % 2 by { AndOdd(a, m - 1); }
      assert a % (2 * m) == 2 * rest + a % 2 by { DoubleMod(a, m); }
    }
  }

  lemma AndOdd(a: nat, b: nat)
    ensures And(a, 2 * b + 1) == 2 * And(a / 2, b) + a % 2
  {
  }

  lemma AndShift(a: nat, b: nat)
    ensures And(a, 2 * b) == 2 * And(a / 2, b)
  {
    if a != 0 && b != 0 {
      var c := 2 * b;
      assert c / 2 == b && c % 2 == 0;
      assert And(a, c) == 2 * And(a / 2, c / 2) + (a % 2) * (c % 2);
    }
  }

  lemma AndIdentity(a: nat, k: nat)
    requires a < Pow2(k)
    ensures And(a, Pow2(k) - 1) == a
  {
    AndMask(a, k);
    ModUnique(a, 0, a, Pow2(k));
  }

  // A number is a power of two exactly when it has no bit in common with its predecessor.
  ghost predicate IsPow2(n: nat) { exists k: nat :: n == Pow2(k) }

  lemma {:induction false} PowerTest(n: nat)
    requires 0 < n
    ensures And(n, n - 1) == 0 <==> IsPow2(n)
    decreases n
  {
    if n == 1 {
      assert n == Pow2(0);
    } else if n % 2 == 1 {
      AndSelf(n / 2);
      assert (n - 1) / 2 == n / 2;
      assert And(n, n - 1) == 2 * And(n / 2, n / 2);
      forall k: nat ensures n != Pow2(k) { }
    } else {
      PowerTest(n / 2);
      assert (n - 1) / 2 == n / 2 - 1;
      assert And(n, n - 1) == 2 * And(n / 2, n / 2 - 1);
      if IsPow2(n) {
        var k: nat :| n == Pow2(k);
        assert n / 2 == Pow2(k - 1);
      }
      if IsPow2(n / 2) {
        var k: nat :| n / 2 == Pow2(k);
        assert n == Pow2(k + 1);
      }
    }
  }

  lemma {:induction false} AndSelf(a: nat)
    ensures And(a, a) == a
  {
    if a > 0 { AndSelf(a / 2); }
  }

  // ---------------------------------------------------------------------------
  // Divisibility among powers of two

  lemma {:induction false} PowSplit(j: nat, k: nat)
    requires j <= k
    ensures exists q: nat :: Pow2(k) == q * Pow2(j)
    decreases k
  {
    if j == k {
      assert Pow2(k) == 1 * Pow2(j);
    } else {
      PowSplit(j, k - 1);
      var q: nat :| Pow2(k - 1) == q * Pow2(j);
      assert Pow2(k) == (2 * q) * Pow2(j);
    }
  }

  // Reducing modulo a multiple of m first changes nothing modulo m.
  lemma ModMod(x: nat, q: nat, m: nat)
    requires 0 < q && 0 < m
    ensures 0 < q * m && (x % (q * m)) % m == x % m
  {
    MultipleSign(q, m);
    var n := q * m;
    var a, b := x / n, x % n;
    var y, r := b / m, b % m;
    assert x == a * n + b && b == y * m + r;
    NestedMultiple(a, q, y, m);
    ModUnique(x, a * q + y, r, m);
  }

  lemma NestedMultiple(a: nat, q: nat, y: nat, m: nat)
    ensures a * (q * m) + y * m == (a * q + y) * m
  {
  }
}
