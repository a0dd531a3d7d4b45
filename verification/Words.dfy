/** What the word operations mean, bit by bit and as arithmetic.  Both CPUs and
    the interpreter share the operations; here they are held against laws that do
    not mention them. */
module Words {
  import opened PacketRam
  import opened Isa

  /** Bit k of a number. */
  predicate Bit(n: nat, k: nat) { (n / Pow2(k)) % 2 == 1 }

  lemma DivUnique(n: nat, d: nat, q: nat, r: nat)
    requires d > 0 && r < d && n == q * d + r
    ensures n / d == q && n % d == r
  {
    QuotWrapUnique(n, d, q, r);
    QuotWrapAreDivMod(n, d);
  }

  lemma DivMod(n: nat, d: nat)
    requires d > 0
    ensures n == (n / d) * d + n % d
  {
    QuotWrapAreDivMod(n, d);
    QuotWrap(n, d);
  }

  lemma Distribute(q: nat, s: nat, m: nat)
    ensures (q + s) * m == q * m + s * m
  {
  }

  lemma ShiftMod(x: nat, q: nat, r: nat, m: nat)
    requires m > 0 && x == q * m + r
    ensures x % m == r % m
  {
    var s, t := r / m, r % m;
    DivMod(r, m);
    Distribute(q, s, m);
    DivUnique(x, m, q + s, t);
  }

  /** A sum may be reduced early. */
  lemma ModOfSum(k: nat, j: nat, m: nat)
    requires m > 0
    ensures (k % m + j) % m == (k + j) % m
  {
    DivMod(k, m);
    ShiftMod(k + j, k / m, k % m + j, m);
  }

  lemma HalfDiv(n: nat, p: nat)
    requires p > 0
    ensures n / (2 * p) == (n / 2) / p
  {
    var q, r := (n / 2) / p, (n / 2) % p;
    DivMod(n / 2, p);
    assert q * (2 * p) == 2 * (q * p);
    DivUnique(n, 2 * p, q, 2 * r + n % 2);
  }

  lemma BitOfHalf(n: nat, k: nat)
    ensures Bit(n, 0) <==> n % 2 == 1
    ensures k > 0 ==> (Bit(n, k) <==> Bit(n / 2, k - 1))
  {
    assert n / Pow2(0) == n;
    if k > 0 {
      HalfDiv(n, Pow2(k - 1));
    }
  }

  lemma {:induction false} NoBits(k: nat)
    ensures !Bit(0, k)
    decreases k
  {
    BitOfHalf(0, k);
    if k > 0 {
      NoBits(k - 1);
    }
  }

  /** A number is determined by its bits. */
  lemma {:induction false} BitsDetermine(a: nat, b: nat, n: nat)
    requires a < Pow2(n) && b < Pow2(n) && forall k :: 0 <= k < n ==> Bit(a, k) == Bit(b, k)
    ensures a == b
    decreases n
  {
    hide Bit;
    if n > 0 {
      BitOfHalf(a, 0);
      BitOfHalf(b, 0);
      assert Bit(a, 0) == Bit(b, 0);
      forall k | 0 <= k < n - 1 ensures Bit(a / 2, k) == Bit(b / 2, k) {
        BitOfHalf(a, k + 1);
        BitOfHalf(b, k + 1);
        assert Bit(a, k + 1) == Bit(b, k + 1);
      }
      BitsDetermine(a / 2, b / 2, n - 1);
    }
  }

  // ------------------------------------------------------- bitwise operations

  lemma {:induction false} AndBit(a: nat, b: nat, k: nat)
    ensures Bit(And(a, b), k) <==> Bit(a, k) && Bit(b, k)
    decreases k
  {
    hide Bit;
    BitOfHalf(a, k);
    BitOfHalf(b, k);
    BitOfHalf(And(a, b), k);
    if a == 0 || b == 0 {
      NoBits(k);
    } else {
      assert And(a, b) / 2 == And(a / 2, b / 2);
      if k > 0 {
        AndBit(a / 2, b / 2, k - 1);
      }
    }
  }

  lemma {:induction false} OrBit(a: nat, b: nat, n: nat, k: nat)
    requires a < Pow2(n) && b < Pow2(n)
    ensures Bit(Or(a, b, n), k) <==> Bit(a, k) || Bit(b, k)
    decreases k
  {
    hide Bit;
    BitOfHalf(a, k);
    BitOfHalf(b, k);
    BitOfHalf(Or(a, b, n), k);
    if a == 0 && b == 0 {
      NoBits(k);
    } else {
      assert Or(a, b, n) / 2 == Or(a / 2, b / 2, n - 1);
      if k > 0 {
        OrBit(a / 2, b / 2, n - 1, k - 1);
      }
    }
  }

  lemma {:induction false} XorBit(a: nat, b: nat, n: nat, k: nat)
    requires a < Pow2(n) && b < Pow2(n)
    ensures Bit(Xor(a, b, n), k) <==> Bit(a, k) != Bit(b, k)
    decreases k
  {
    hide Bit;
    BitOfHalf(a, k);
    BitOfHalf(b, k);
    BitOfHalf(Xor(a, b, n), k);
    if a == 0 && b == 0 {
      NoBits(k);
    } else {
      assert Xor(a, b, n) / 2 == Xor(a / 2, b / 2, n - 1);
      if k > 0 {
        XorBit(a / 2, b / 2, n - 1, k - 1);
      }
    }
  }

  /** All n bits inverted. */
  lemma {:induction false} ComplementBit(a: nat, n: nat, k: nat)
    requires a < Pow2(n) && k < n
    ensures Bit(Pow2(n) - 1 - a, k) <==> !Bit(a, k)
    decreases k
  {
    hide Bit;
    var c := Pow2(n) - 1 - a;
    BitOfHalf(a, k);
    BitOfHalf(c, k);
    assert Pow2(n) == 2 * Pow2(n - 1);
    assert c / 2 == Pow2(n - 1) - 1 - a / 2;
    if k > 0 {
      ComplementBit(a / 2, n - 1, k - 1);
    }
  }

  /** The bitwise operations of the ALU: each bit of the result is the and, the
      or, the exclusive or, or the complement of the operands' bits. */
  lemma BitwiseLaws(a: word, b: word, k: nat)
    requires k < 32
    ensures Bit(And(a, b), k) <==> Bit(a, k) && Bit(b, k)
    ensures Bit(OrWord(a, b), k) <==> Bit(a, k) || Bit(b, k)
    ensures Bit(XorWord(a, b), k) <==> Bit(a, k) != Bit(b, k)
    ensures Bit(Not(a), k) <==> !Bit(a, k)
  {
    hide Bit, And, Or, Xor;
    Pow2Of32();
    AndBit(a, b, k);
    OrBit(a, b, 32, k);
    XorBit(a, b, 32, k);
    ComplementBit(a, 32, k);
  }

  /** JSET's test: the and of two words is not zero iff they share a bit. */
  lemma SharedBit(a: word, b: word)
    ensures And(a, b) != 0 <==> exists k: nat :: k < 32 && Bit(a, k) && Bit(b, k)
  {
    hide Bit, And;
    Pow2Of32();
    forall k: nat ensures Bit(And(a, b), k) <==> Bit(a, k) && Bit(b, k) {
      AndBit(a, b, k);
    }
    forall k: nat ensures !Bit(0, k) {
      NoBits(k);
    }
    if forall k: nat :: k < 32 ==> !Bit(And(a, b), k) {
      BitsDetermine(And(a, b), 0, 32);
    }
  }

  // ------------------------------------------------------------------- shifts

  lemma {:induction false} ShrIsDivision(a: word, k: nat)
    ensures Shr(a, k) == a / Pow2(k)
    decreases k
  {
    if k > 0 {
      ShrIsDivision(a / 2, k - 1);
      HalfDiv(a, Pow2(k - 1));
    }
  }

  lemma TimesSplit(q: nat, m: nat, r: nat, p: nat)
    ensures (q * m + r) * p == (q * p) * m + r * p
  {
    assert (q * m) * p == (q * p) * m;
  }

  lemma ModTimes(x: nat, p: nat, m: nat)
    requires m > 0
    ensures ((x % m) * p) % m == (x * p) % m
  {
    var q, r := x / m, x % m;
    DivMod(x, m);
    TimesSplit(q, m, r, p);
    ShiftMod(x * p, q * p, r * p, m);
  }

  lemma {:induction false} ShlIsMultiplication(a: word, k: nat)
    ensures Shl(a, k) == (a * Pow2(k)) % 0x1_0000_0000
    decreases k
  {
    if k > 0 {
      var p := Pow2(k - 1);
      ShlIsMultiplication((2 * a) % 0x1_0000_0000, k - 1);
      ModTimes(2 * a, p, 0x1_0000_0000);
      Reassociate(a, p);
    }
  }

  lemma Reassociate(a: nat, p: nat)
    ensures (2 * a) * p == a * (2 * p)
  {
  }

  /** The shifts are multiplication and division by a power of two, cut to 32
      bits; a distance of 32 or more gives 0. */
  lemma ShiftLaws(a: word, k: word)
    ensures ShiftRight(a, k) == (if k < 32 then a / Pow2(k) else 0)
    ensures ShiftLeft(a, k) == if k < 32 then (a * Pow2(k)) % 0x1_0000_0000 else 0
  {
    hide Pow2, Shl, Shr;
    if k < 32 {
      ShrIsDivision(a, k);
      ShlIsMultiplication(a, k);
    }
  }

  // --------------------------------------------------------------- arithmetic

  /** Addition is the sum, less 2^32 when it does not fit, and subtraction
      undoes it. */
  lemma SumLaws(a: word, b: word)
    ensures Add(a, b) == if a + b < 0x1_0000_0000 then a + b else a + b - 0x1_0000_0000
    ensures Sub(a, b) == if a >= b then a - b else a + 0x1_0000_0000 - b
    ensures Sub(Add(a, b), b) == a && Add(Sub(a, b), b) == a
  {
  }

  /** The parity test of RET #k looks at bit 0. */
  lemma ParityLaws(w: word)
    ensures Odd(w) <==> exists m: nat :: w == 2 * m + 1
    ensures !Odd(w) <==> exists m: nat :: w == 2 * m
    ensures Odd(w) <==> Bit(w, 0)
  {
    BitOfHalf(w, 0);
    if Odd(w) {
      assert w == 2 * (w / 2) + 1;
    } else {
      assert w == 2 * (w / 2);
    }
  }
}
