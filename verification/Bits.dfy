/** The bit operators of Rust's unsigned integers, on naturals. */
module Bits {
  import opened Numerals

  type u8 = x: nat | x < 0x100
  type u32 = x: nat | x < 0x1_0000_0000
  type u64 = x: nat | x < 0x1_0000_0000_0000_0000

  /** `x & y` */
  function BitAnd(x: nat, y: nat): nat {
    if x == 0 || y == 0 then 0 else 2 * BitAnd(x / 2, y / 2) + (x % 2) * (y % 2)
  }

  function Power2(n: nat): (r: nat)
    ensures r > 0
  {
    if n == 0 then 1 else 2 * Power2(n - 1)
  }

  /** `x >> n` */
  function ShiftRight(x: nat, n: nat): nat {
    if n == 0 then x else ShiftRight(x / 2, n - 1)
  }

  lemma {:induction false} ShiftRightDivides(x: nat, n: nat)
    ensures ShiftRight(x, n) == x / Power2(n)
  {
    if n == 0 {
    } else {
      ShiftRightDivides(x / 2, n - 1);
      HalfThenDivide(x, Power2(n - 1));
    }
  }

  lemma BitAndOdd(x: nat, y: nat)
    ensures BitAnd(x, 2 * y + 1) == 2 * BitAnd(x / 2, y) + x % 2
  {
    assert (2 * y + 1) / 2 == y && (2 * y + 1) % 2 == 1;
  }

  lemma Power2Step(n: nat)
    requires n > 0
    ensures Power2(n) == 2 * Power2(n - 1)
  {
  }

  /** The low `n` bits. */
  function LowBits(x: nat, n: nat): nat {
    x % Power2(n)
  }

  lemma BitAndLowMask(x: nat, n: nat)
    ensures BitAnd(x, Power2(n) - 1) == x % Power2(n)
  {
    MaskIsLowBits(x, n);
    hide BitAnd, Power2;
  }

  lemma {:induction false} MaskIsLowBits(x: nat, n: nat)
    ensures BitAnd(x, Power2(n) - 1) == LowBits(x, n)
  {
    if n == 0 {
    } else {
      hide BitAnd, Power2, LowBits;
      MaskIsLowBits(x / 2, n - 1);
      LowBitsStep(x, n);
      MaskStep(x, n);
    }
  }

  lemma LowBitsStep(x: nat, n: nat)
    requires n > 0
    ensures LowBits(x, n) == 2 * LowBits(x / 2, n - 1) + x % 2
  {
    Power2Step(n);
    hide Power2;
    HalfThenDivide(x, Power2(n - 1));
  }

  lemma MaskStep(x: nat, n: nat)
    requires n > 0
    ensures BitAnd(x, Power2(n) - 1) == 2 * BitAnd(x / 2, Power2(n - 1) - 1) + x % 2
  {
    Power2Step(n);
    hide BitAnd, Power2;
    BitAndOdd(x, Power2(n - 1) - 1);
  }

  lemma BitAndEven(x: nat, y: nat)
    ensures BitAnd(x, 2 * y) == 2 * BitAnd(x / 2, y)
  {
    assert 2 * y / 2 == y && 2 * y % 2 == 0;
  }

  lemma {:induction false} BitAndHighMask(x: nat, y: nat, n: nat)
    ensures BitAnd(x, y * Power2(n)) == BitAnd(ShiftRight(x, n), y) * Power2(n)
  {
    if n == 0 {
    } else {
      Power2Step(n);
      assert ShiftRight(x, n) == ShiftRight(x / 2, n - 1);
      hide BitAnd, Power2, ShiftRight;
      var half := y * Power2(n - 1);
      BitAndHighMask(x / 2, y, n - 1);
      var low := BitAnd(ShiftRight(x / 2, n - 1), y);
      Associate(2, y, Power2(n - 1));
      Associate(2, low, Power2(n - 1));
      BitAndEven(x, half);
    }
  }

  lemma Associate(a: nat, b: nat, c: nat)
    ensures b * (a * c) == a * (b * c)
  {
    assert b * (a * c) == (b * a) * c == (a * b) * c;
  }

  lemma HalfThenDivide(x: nat, b: nat)
    requires b > 0
    ensures x / (2 * b) == x / 2 / b
    ensures x % (2 * b) == 2 * (x / 2 % b) + x % 2
  {
    ModBound(b, x / 2);
    var q, r := x / 2 / b, 2 * (x / 2 % b) + x % 2;
    assert q * (2 * b) == 2 * (q * b) by { Associate(2, q, b); }
    DivModUnique(2 * b, q, r);
  }

  /** Masking `m` bits that start at bit `n`, and shifting them down. */
  lemma MaskThenShift(x: nat, low: nat, m: nat, n: nat)
    requires low == Power2(m) - 1
    ensures ShiftRight(BitAnd(x, low * Power2(n)), n) == x / Power2(n) % Power2(m)
  {
    hide BitAnd, Power2, ShiftRight;
    var field := BitAnd(ShiftRight(x, n), low);
    assert field == x / Power2(n) % Power2(m) by {
      ShiftThenMask(x, m, n);
    }
    assert BitAnd(x, low * Power2(n)) == field * Power2(n) by {
      BitAndHighMask(x, low, n);
    }
    ShiftBack(field, n);
  }

  lemma ShiftBack(x: nat, n: nat)
    ensures ShiftRight(x * Power2(n), n) == x
  {
    ShiftRightDivides(x * Power2(n), n);
    DivModUnique(Power2(n), x, 0);
  }

  /** Shifting down, then masking `m` bits. */
  lemma ShiftThenMask(x: nat, m: nat, n: nat)
    ensures BitAnd(ShiftRight(x, n), Power2(m) - 1) == x / Power2(n) % Power2(m)
  {
    hide BitAnd, Power2, ShiftRight;
    BitAndLowMask(ShiftRight(x, n), m);
    ShiftRightDivides(x, n);
  }

  lemma SmallPowers()
    ensures Power2(0) == 1 && Power2(6) == 0x40 && Power2(8) == 0x100
    ensures Power2(16) == 0x1_0000 && Power2(24) == 0x100_0000 && Power2(32) == 0x1_0000_0000
  {
    assert Power2(8) == 0x100;
    assert Power2(16) == 0x1_0000;
    assert Power2(24) == 0x100_0000;
  }
}
