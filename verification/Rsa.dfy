/**
 The pre-computed public key: RSA_to_RSAPublicKey (src/adb_auth_host.c:78-126, include/mincrypt/rsa.h:34-46).
 Big numbers are integers; the modular inverse is defined here and proved to be one.
 */
module Rsa {
  import opened Arith

  const RSANUMBYTES: nat := 256
  const RSANUMWORDS: nat := 64

  /** The base of a limb. */
  const BASE: nat := 0x1_0000_0000

  type limb = x: int | 0 <= x < 0x1_0000_0000

  /** The number that little endian limbs stand for. */
  function Value(ws: seq<limb>): (v: nat) {
    if ws == [] then 0 else Value(ws[..|ws| - 1]) + ws[|ws| - 1] * Pow(BASE, |ws| - 1)
  }

  // ---- the inverse of an odd number modulo a power of two ----

  /** Each step fixes one more bit. */
  function OddInverse(m: nat, k: nat): nat
    requires m % 2 == 1
  {
    if k == 0 then 0
    else
      var x := OddInverse(m, k - 1);
      if (m * x) % Pow(2, k) == 1 % Pow(2, k) then x else x + Pow(2, k - 1)
  }

  /** A number that is 1 above an even multiple of p. */
  lemma EvenMultiple(a: nat, p: nat, h: int)
    requires p > 1 && a == p * (2 * h) + 1
    ensures a % (2 * p) == 1
  {
    Halve(p, h);
    ModUnique(a, 2 * p, h, 1);
  }

  lemma Halve(p: int, h: int)
    ensures p * (2 * h) == (2 * p) * h
  {
  }

  /** Adding an odd multiple of p to one that is 1 above an odd multiple. */
  lemma OddMultiple(a: nat, b: nat, p: nat, i: int, j: int)
    requires p > 1 && a == p * (2 * i + 1) + 1 && b == p * (2 * j + 1)
    ensures (a + b) % (2 * p) == 1
  {
    Collect(p, 2 * i + 1, 2 * j + 1);
    EvenMultiple(a + b, p, i + j + 1);
  }

  lemma Collect(p: int, x: int, y: int)
    ensures p * x + p * y == p * (x + y)
  {
  }

  lemma Quotient(a: nat, p: nat)
    requires p > 1 && a % p == 1
    ensures a == p * (a / p) + 1
  {
  }

  /** The one number there is modulo 1. */
  lemma FirstBit(m: nat)
    requires m % 2 == 1
    ensures (m * (0 + 1)) % (2 * 1) == 1
  {
  }

  /** If m * x is 1 modulo p but not modulo 2p, then m * (x + p) is 1 modulo 2p. */
  lemma NextBit(m: nat, x: nat, p: nat)
    requires m % 2 == 1 && p > 0 && (m * x) % p == 1 % p && (p == 1 ==> x == 0)
    ensures (m * x) % (2 * p) == 1 || (m * (x + p)) % (2 * p) == 1
  {
    if p == 1 {
      FirstBit(m);
    } else {
      ModUnique(1, p, 0, 1);
      Quotient(m * x, p);
      BitOf(m * x, m * p, p, (m * x) / p, m / 2, m);
      assert m * x + m * p == m * (x + p);
    }
  }

  lemma BitOf(a: nat, b: nat, p: nat, q: int, h: int, m: nat)
    requires p > 1 && a == p * q + 1 && m == 2 * h + 1 && b == m * p
    ensures a % (2 * p) == 1 || (a + b) % (2 * p) == 1
  {
    if q % 2 == 0 {
      EvenMultiple(a, p, q / 2);
    } else {
      assert m * p == p * m;
      OddMultiple(a, b, p, q / 2, h);
    }
  }

  lemma {:induction false} OddInverseIs(m: nat, k: nat)
    requires m % 2 == 1
    ensures OddInverse(m, k) < Pow(2, k) && (m * OddInverse(m, k)) % Pow(2, k) == 1 % Pow(2, k)
  {
    if k > 0 {
      OddInverseIs(m, k - 1);
      NextInverse(m, OddInverse(m, k - 1), Pow(2, k - 1));
    }
  }

  lemma NextInverse(m: nat, x: nat, p: nat)
    requires m % 2 == 1 && p > 0 && x < p && (m * x) % p == 1 % p
    ensures var y := if (m * x) % (p * 2) == 1 % (p * 2) then x else x + p;
            y < p * 2 && (m * y) % (p * 2) == 1 % (p * 2)
  {
    NextBit(m, x, p);
    ModUnique(1, 2 * p, 0, 1);
    assert p * 2 == 2 * p;
  }

  /** An inverse is unique below the modulus, so this is the one any correct routine returns. */
  lemma InverseUnique(m: nat, x: nat, y: nat, p: nat)
    requires p > 1 && x < p && y < p && (m * x) % p == 1 && (m * y) % p == 1
    ensures x == y
  {
    var a, b := (m * x) / p, (m * y) / p;
    assert m * x == p * a + 1 && m * y == p * b + 1;
    assert y * (m * x) == x * (m * y);
    assert y * (p * a + 1) == p * (a * y) + y;
    assert x * (p * b + 1) == p * (b * x) + x;
    ModUnique(y * (m * x), p, a * y, y);
    ModUnique(y * (m * x), p, b * x, x);
  }

  // ---- limbs ----

  lemma ValueAppend(ws: seq<limb>, w: limb)
    ensures Value(ws + [w]) == Value(ws) + w * Pow(BASE, |ws|)
  {
    assert (ws + [w])[..|ws|] == ws;
  }

  /** Limbs already taken, and the rest of the number above them. */
  function Whole(ws: seq<limb>, rest: nat): nat {
    Value(ws) + Pow(BASE, |ws|) * rest
  }

  lemma NothingTaken(n: nat)
    ensures Whole([], n) == n
  {
    assert Pow(BASE, 0) == 1;
  }

  /** Moving one limb from the rest to the limbs changes nothing. */
  lemma OneLimb(ws: seq<limb>, rest: nat)
    ensures Whole(ws + [rest % BASE], rest / BASE) == Whole(ws, rest)
  {
    var w: limb := rest % BASE;
    ValueAppend(ws, w);
    Regroup(Pow(BASE, |ws|), rest / BASE, w);
    hide Value;
  }

  lemma Regroup(p: int, q: int, w: int)
    ensures w * p + (p * BASE) * q == p * (BASE * q + w)
  {
    assert (p * BASE) * q == p * (BASE * q);
  }

  /** Once the limbs can hold the number, nothing is left. */
  lemma NothingLeft(ws: seq<limb>, rest: nat)
    requires Whole(ws, rest) < Pow(BASE, |ws|)
    ensures Value(ws) == Whole(ws, rest)
  {
    if rest > 0 {
      MulMono(Pow(BASE, |ws|), 1, rest);
    }
  }

  /** The bytes of the modulus, as RSA_size counts them. */
  function ByteLength(n: nat): nat {
    if n == 0 then 0 else 1 + ByteLength(n / 256)
  }

  lemma {:induction false} ByteLengthIs(n: nat, k: nat)
    requires k > 0
    ensures ByteLength(n) == k <==> Pow(256, k - 1) <= n < Pow(256, k)
    decreases k
  {
    if k == 1 {
      assert Pow(256, 0) == 1 && Pow(256, 1) == 256;
      if n >= 256 {
        assert ByteLength(n) == 1 + (1 + ByteLength(n / 256 / 256));
      }
    } else {
      ByteLengthIs(n / 256, k - 1);
      Digit256(n, Pow(256, k - 2));
      Digit256(n, Pow(256, k - 1));
    }
  }

  lemma Digit256(n: nat, p: nat)
    ensures p * 256 <= n <==> p <= n / 256
  {
  }

  lemma {:induction false} BytesFit(n: nat, k: nat)
    requires ByteLength(n) <= 4 * k
    ensures n < Pow(BASE, k)
    decreases k
  {
    if k > 0 && n > 0 {
      FourBytes(n);
      var q := n / BASE;
      BytesFit(q, k - 1);
      MulMono(BASE, q + 1, Pow(BASE, k - 1));
    }
  }

  lemma FourBytes(n: nat)
    ensures ByteLength(n / BASE) == if ByteLength(n) <= 4 then 0 else ByteLength(n) - 4
  {
    var a := n / 256;
    var b := a / 256;
    var c := b / 256;
    assert ByteLength(a) == if n == 0 then 0 else ByteLength(n) - 1;
    assert ByteLength(b) == if a == 0 then 0 else ByteLength(a) - 1;
    assert ByteLength(c) == if b == 0 then 0 else ByteLength(b) - 1;
    assert ByteLength(c / 256) == if c == 0 then 0 else ByteLength(c) - 1;
    assert c / 256 == n / BASE;
  }

  lemma NoBytes()
    ensures ByteLength(0) == 0
  {
  }

  class PublicKey {
    var len: nat
    var n0inv: limb
    var n: array<limb>
    var rr: array<limb>
    var exponent: nat

    constructor ()
      ensures fresh(n) && fresh(rr) && n != rr && n.Length == RSANUMWORDS && rr.Length == RSANUMWORDS
    {
      len, n0inv, exponent := 0, 0, 0;
      n, rr := new limb[RSANUMWORDS], new limb[RSANUMWORDS];
    }

    /** The limb loop: both numbers are divided away while the arrays fill. */
    method FillLimbs(modulus: nat, square: nat)
      requires n != rr && n.Length == rr.Length
      requires modulus < Pow(BASE, n.Length) && square < Pow(BASE, n.Length)
      modifies n, rr
      ensures Value(n[..]) == modulus && Value(rr[..]) == square
      ensures n.Length > 0 ==> n[0] == modulus % BASE
    {
      hide Pow, Value, Whole;
      NothingTaken(modulus);
      NothingTaken(square);
      var a: nat, b: nat := modulus, square;
      for i := 0 to n.Length
        invariant Whole(n[..i], a) == modulus && Whole(rr[..i], b) == square
        invariant if i == 0 then a == modulus else n[0] == modulus % BASE
      {
        OneLimb(n[..i], a);
        OneLimb(rr[..i], b);
        rr[i], b := b % BASE, b / BASE;
        n[i], a := a % BASE, a / BASE;
        assert n[..i + 1] == n[..i] + [n[i]] && rr[..i + 1] == rr[..i] + [rr[i]];
      }
      assert n[..n.Length] == n[..] && rr[..n.Length] == rr[..];
      NothingLeft(n[..], a);
      NothingLeft(rr[..], b);
    }

    /**
     The limbs sum to the modulus and to R^2 modulo it, and n0inv times n[0] is -1 modulo 2^32 if and
     only if the modulus is odd. `leftover` is what the inverse routine leaves when there is none.
     */
    method FromRsa(modulus: nat, e: nat, leftover: limb) returns (ok: bool)
      requires n != rr && n.Length == RSANUMWORDS && rr.Length == RSANUMWORDS
      modifies this, n, rr
      ensures ok <==> Pow(256, 255) <= modulus < Pow(256, 256)
      ensures n == old(n) && rr == old(rr)
      ensures ok ==> Value(n[..]) == modulus
      ensures ok ==> modulus > 0 && Value(rr[..]) == Pow(2, 4096) % modulus
      ensures ok ==> ((n0inv * n[0]) % BASE == BASE - 1 <==> modulus % 2 == 1)
      ensures ok ==> len == 64 && exponent == e
    {
      hide Pow, ByteLength, OddInverse, Value;
      NoBytes();
      ByteLengthIs(modulus, 256);
      SquareOfR();
      if ByteLength(modulus) != RSANUMBYTES { return false; }
      BytesFit(modulus, RSANUMWORDS);
      var r := Pow(BASE, RSANUMWORDS);
      var square := (r * r) % modulus;
      var rem := modulus % BASE;
      var inverse: limb := leftover;
      if rem % 2 == 1 {
        OddInverseFits(rem);
        inverse := OddInverse(rem, 32);
      }
      len := RSANUMWORDS;
      n0inv := (0 - inverse) % BASE;
      FillLimbs(modulus, square);
      Negated(rem, inverse);
      SameParity(modulus);
      exponent := e;
      return true;
    }
  }

  /** R is 2^2048. */
  lemma SquareOfR()
    ensures Pow(BASE, RSANUMWORDS) * Pow(BASE, RSANUMWORDS) == Pow(2, 4096)
  {
    hide Pow;
    PowerOf32();
    PowMul(2, 32, 64);
    PowAdd(2, 2048, 2048);
  }

  lemma OddInverseFits(m: nat)
    requires m % 2 == 1
    ensures OddInverse(m, 32) < BASE && (m * OddInverse(m, 32)) % BASE == 1
  {
    OddInverseIs(m, 32);
    PowerOf32();
  }

  /** The negated inverse gives -1, and with an even factor nothing does. */
  lemma Negated(m: nat, x: limb)
    requires m % 2 == 1 ==> (m * x) % BASE == 1
    ensures var y: limb := (0 - x) % BASE;
            (y * m) % BASE == BASE - 1 <==> m % 2 == 1
  {
    var y: limb := (0 - x) % BASE;
    if m % 2 == 1 {
      NegatedInverse(m, x);
    } else {
      var h := m / 2;
      assert y * m == 2 * (y * h) by {
        assert m == 2 * h;
      }
      EvenNotOdd(y * h);
    }
  }

  lemma Negation(x: limb)
    requires x > 0
    ensures (0 - x) % BASE == BASE - x
  {
    ModUnique(0 - x, BASE, -1, BASE - x);
  }

  lemma Spread(b: int, x: int, m: int)
    ensures (b - x) * m == b * m - m * x
  {
  }

  lemma MinusOne(b: int, m: int, q: int)
    ensures b * m - (b * q + 1) == b * (m - q - 1) + (b - 1)
  {
  }

  lemma NegatedInverse(m: nat, x: limb)
    requires (m * x) % BASE == 1
    ensures (((0 - x) % BASE) * m) % BASE == BASE - 1
  {
    var q := (m * x) / BASE;
    Quotient(m * x, BASE);
    NotZero(m, x);
    Negation(x);
    Spread(BASE, x, m);
    MinusOne(BASE, m, q);
    ModUnique((BASE - x) * m, BASE, m - q - 1, BASE - 1);
  }

  lemma NotZero(m: nat, x: limb)
    requires (m * x) % BASE == 1
    ensures x > 0
  {
    assert x == 0 ==> m * x == 0;
  }

  lemma SameParity(n: nat)
    ensures (n % BASE) % 2 == n % 2
  {
  }

  lemma EvenNotOdd(k: int)
    ensures (2 * k) % BASE != BASE - 1
  {
  }
}
