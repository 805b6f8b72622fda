/** Facts of multiplication and remainder that the solver needs spelled out. */
module Arith {
  function Pow(b: nat, e: nat): (p: nat)
    ensures b > 0 ==> p > 0
  {
    if e == 0 then 1 else Pow(b, e - 1) * b
  }

  lemma {:induction false} PowAdd(b: nat, i: nat, j: nat)
    ensures Pow(b, i + j) == Pow(b, i) * Pow(b, j)
    decreases j
  {
    if j > 0 {
      PowAdd(b, i, j - 1);
      Regroup(Pow(b, i), Pow(b, j - 1), b);
    }
  }

  lemma Regroup(x: int, y: int, z: int)
    ensures x * y * z == x * (y * z)
  {
  }

  lemma {:induction false} PowMul(b: nat, i: nat, j: nat)
    ensures Pow(Pow(b, i), j) == Pow(b, i * j)
    decreases j
  {
    if j > 0 {
      PowMul(b, i, j - 1);
      PowAdd(b, i * (j - 1), i);
      assert i * (j - 1) + i == i * j;
    }
  }

  lemma MulMono(m: int, x: int, y: int)
    requires m >= 0 && x <= y
    ensures m * x <= m * y
  {
  }

  lemma ModUnique(a: int, m: nat, q: int, r: int)
    requires m > 0 && a == m * q + r && 0 <= r < m
    ensures a % m == r
  {
    assert m * (a / m - q) == r - a % m;
    if a / m > q {
      MulMono(m, 1, a / m - q);
    } else if a / m < q {
      MulMono(m, 1, q - a / m);
    }
  }

  /** Bitwise exclusive or. */
  function Xor(a: nat, b: nat): nat
    decreases a + b
  {
    if a == 0 && b == 0 then 0 else (if a % 2 == b % 2 then 0 else 1) + 2 * Xor(a / 2, b / 2)
  }

  /** With all ones it is the complement. */
  lemma {:induction false} XorOnes(a: nat, k: nat)
    requires a < Pow(2, k)
    ensures Xor(a, Pow(2, k) - 1) == Pow(2, k) - 1 - a
  {
    if k > 0 {
      var m := Pow(2, k - 1);
      XorOnes(a / 2, k - 1);
      assert (2 * m - 1) / 2 == m - 1 && (2 * m - 1) % 2 == 1;
    }
  }

  lemma PowerOf32()
    ensures Pow(2, 32) == 0x1_0000_0000
  {
    assert Pow(2, 8) == 0x100;
    assert Pow(2, 16) == 0x1_0000;
    assert Pow(2, 24) == 0x100_0000;
  }
}
