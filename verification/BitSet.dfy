/** Natural numbers as bit sets, with Python's `<<`, `|` and `&` on non-negative integers of any
    size. */
module BitSet {

  function ShiftLeft(a: nat, n: nat): nat {
    if n == 0 then a else 2 * ShiftLeft(a, n - 1)
  }

  function And(a: nat, b: nat): nat {
    if a == 0 || b == 0 then 0
    else 2 * And(a / 2, b / 2) + (if a % 2 == 1 && b % 2 == 1 then 1 else 0)
  }

  function Or(a: nat, b: nat): nat {
    if a == 0 then b
    else if b == 0 then a
    else 2 * Or(a / 2, b / 2) + (if a % 2 == 1 || b % 2 == 1 then 1 else 0)
  }

  /** Whether bit `k` of `a` is set. */
  predicate Bit(a: nat, k: nat)
    decreases k
  {
    if k == 0 then a % 2 == 1 else Bit(a / 2, k - 1)
  }

  lemma {:induction false} ZeroBit(k: nat)
    ensures !Bit(0, k)
  {
    if k > 0 { ZeroBit(k - 1); }
  }

  lemma ZeroBits()
    ensures forall k: nat :: !Bit(0, k)
  {
    forall k: nat ensures !Bit(0, k) { ZeroBit(k); }
  }

  lemma {:induction false} AndBit(a: nat, b: nat, k: nat)
    ensures Bit(And(a, b), k) <==> Bit(a, k) && Bit(b, k)
    decreases k
  {
    ZeroBit(k);
    if a != 0 && b != 0 && k > 0 {
      AndBit(a / 2, b / 2, k - 1);
      assert And(a, b) / 2 == And(a / 2, b / 2);
    }
  }

  lemma AndBits(a: nat, b: nat)
    ensures forall k: nat :: Bit(And(a, b), k) <==> Bit(a, k) && Bit(b, k)
  {
    forall k: nat ensures Bit(And(a, b), k) <==> Bit(a, k) && Bit(b, k) { AndBit(a, b, k); }
  }

  lemma {:induction false} OrBit(a: nat, b: nat, k: nat)
    ensures Bit(Or(a, b), k) <==> Bit(a, k) || Bit(b, k)
    decreases k
  {
    ZeroBit(k);
    if a != 0 && b != 0 && k > 0 {
      OrBit(a / 2, b / 2, k - 1);
      assert Or(a, b) / 2 == Or(a / 2, b / 2);
    }
  }

  lemma OrBits(a: nat, b: nat)
    ensures forall k: nat :: Bit(Or(a, b), k) <==> Bit(a, k) || Bit(b, k)
  {
    forall k: nat ensures Bit(Or(a, b), k) <==> Bit(a, k) || Bit(b, k) { OrBit(a, b, k); }
  }

  lemma {:induction false} OneBit(n: nat, k: nat)
    ensures Bit(ShiftLeft(1, n), k) <==> k == n
  {
    if k == 0 {
    } else if n == 0 {
      ZeroBit(k - 1);
    } else {
      OneBit(n - 1, k - 1);
    }
  }

  /** `1 << n` is the set of bit `n` alone. */
  lemma OneBits(n: nat)
    ensures forall k: nat :: Bit(ShiftLeft(1, n), k) <==> k == n
  {
    forall k: nat ensures Bit(ShiftLeft(1, n), k) <==> k == n { OneBit(n, k); }
  }

  /** `(a << 1) | 1` moves every bit up by one and sets bit 0. */
  lemma ShiftOneBits(a: nat)
    ensures forall k: nat :: Bit(Or(ShiftLeft(a, 1), 1), k) <==> k == 0 || Bit(a, k - 1)
  {
    forall k: nat ensures Bit(Or(ShiftLeft(a, 1), 1), k) <==> k == 0 || Bit(a, k - 1) {
      OrBit(ShiftLeft(a, 1), 1, k);
      assert ShiftLeft(a, 1) == 2 * ShiftLeft(a, 0) == 2 * a;
      OneBit(0, k);
    }
  }

  lemma {:induction false} SetHasBit(a: nat)
    requires a != 0
    ensures exists k: nat :: Bit(a, k)
  {
    if a % 2 == 1 {
      assert Bit(a, 0);
    } else {
      SetHasBit(a / 2);
      var k: nat :| Bit(a / 2, k);
      assert Bit(a, k + 1);
    }
  }

  /** `a & (1 << n)` is non-zero exactly when bit `n` of `a` is set. */
  lemma TestBit(a: nat, n: nat)
    ensures And(a, ShiftLeft(1, n)) != 0 <==> Bit(a, n)
  {
    AndBits(a, ShiftLeft(1, n));
    OneBits(n);
    ZeroBit(n);
    if And(a, ShiftLeft(1, n)) != 0 {
      SetHasBit(And(a, ShiftLeft(1, n)));
    }
  }
}
