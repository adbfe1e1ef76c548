/** Why `138/100 * n + 1` base-58 digits hold `n` bytes (src/common/base58.rs:32). */
module PowerBounds {
  import opened Numerals

  function BufferSize(n: nat): (size: nat)
    ensures size > 0
  {
    n * 138 / 100 + 1
  }

  lemma Powers58()
    ensures Pow(58, 1) == 58 && Pow(58, 2) == 3364 && Pow(58, 3) == 195112 && Pow(58, 4) == 11316496
    ensures Pow(58, 5) == 656356768 && Pow(58, 6) == 38068692544 && Pow(58, 7) == 2207984167552
    ensures Pow(58, 8) == 128063081718016 && Pow(58, 9) == 7427658739644928
    ensures Pow(58, 10) == 430804206899405824 && Pow(58, 11) == 24986644000165537792
  {
    assert Pow(58, 4) == 11316496;
    assert Pow(58, 8) == 128063081718016;
  }

  lemma Powers256()
    ensures Pow(256, 0) == 1 && Pow(256, 1) == 256 && Pow(256, 2) == 65536 && Pow(256, 3) == 16777216
    ensures Pow(256, 4) == 4294967296 && Pow(256, 5) == 1099511627776 && Pow(256, 6) == 281474976710656
    ensures Pow(256, 7) == 72057594037927936 && Pow(256, 8) == 18446744073709551616
  {
    assert Pow(256, 4) == 4294967296;
  }

  /** Eight bytes take at most eleven digits. */
  lemma EightBytes(q: nat)
    ensures Pow(256, 8 * q) <= Pow(58, 11 * q)
  {
    Powers58();
    Powers256();
    PowOfPow(256, 8, q);
    PowOfPow(58, 11, q);
    PowBaseMonotone(Pow(256, 8), Pow(58, 11), q);
  }

  lemma FewBytes(r: nat)
    requires r < 8
    ensures Pow(256, r) < Pow(58, BufferSize(r))
    ensures Pow(256, r) <= Pow(58, BufferSize(r + 1) - 1)
  {
    hide Pow;
    Powers58();
    Powers256();
    if r == 0 { } else if r == 1 { } else if r == 2 { } else if r == 3 { }
    else if r == 4 { } else if r == 5 { } else if r == 6 { } else { }
  }

  /** `n` bytes always fit the buffer. */
  lemma BytesFit(n: nat)
    ensures Pow(256, n) < Pow(58, BufferSize(n))
  {
    hide Pow;
    var q, r := n / 8, n % 8;
    EightBytes(q);
    FewBytes(r);
    PowAdd(256, 8 * q, r);
    PowAdd(58, 11 * q, BufferSize(r));
    PowPositive(58, 11 * q);
    MulStrict(Pow(256, 8 * q), Pow(58, 11 * q), Pow(256, r), Pow(58, BufferSize(r)));
    PowMonotone(58, 11 * q + BufferSize(r), BufferSize(n));
  }

  lemma MulStrict(a: nat, b: nat, x: nat, y: nat)
    requires a <= b && x < y && b > 0
    ensures a * x < b * y
  {
    MulMonotone(a, b, x, x);
    assert b * (y - x) > 0;
  }

  /** All bytes but the last leave the first digit free. */
  lemma AllButLastLeaveRoom(n: nat)
    requires n >= 1
    ensures Pow(256, n - 1) <= Pow(58, BufferSize(n) - 1)
  {
    hide Pow;
    var q, r := (n - 1) / 8, (n - 1) % 8;
    EightBytes(q);
    FewBytes(r);
    PowAdd(256, 8 * q, r);
    PowAdd(58, 11 * q, BufferSize(r + 1) - 1);
    MulMonotone(Pow(256, 8 * q), Pow(58, 11 * q), Pow(256, r), Pow(58, BufferSize(r + 1) - 1));
    PowMonotone(58, 11 * q + BufferSize(r + 1) - 1, BufferSize(n) - 1);
  }
}
