/** Positional numerals, most significant digit first. */
module Numerals {

  ghost function Pow(b: nat, e: nat): nat {
    if e == 0 then 1 else b * Pow(b, e - 1)
  }

  /** The number that `ds` denotes in base `base`. */
  ghost function Value(base: nat, ds: seq<nat>): nat {
    if ds == [] then 0 else Value(base, ds[..|ds| - 1]) * base + ds[|ds| - 1]
  }

  ghost predicate AllBelow(base: nat, ds: seq<nat>) {
    forall i :: 0 <= i < |ds| ==> ds[i] < base
  }

  /** How many elements at the front of `s` equal `x`. */
  function LeadingCount<T(==)>(s: seq<T>, x: T): (n: nat)
    ensures n <= |s|
    ensures forall i :: 0 <= i < n ==> s[i] == x
    ensures n < |s| ==> s[n] != x
  {
    if s == [] || s[0] != x then 0 else 1 + LeadingCount(s[1..], x)
  }

  function Repeat<T>(x: T, n: nat): (s: seq<T>)
    ensures |s| == n && forall i :: 0 <= i < n ==> s[i] == x
  {
    seq(n, _ => x)
  }

  /** The shortest numeral of `v`; zero is the empty numeral. */
  ghost function Digits(base: nat, v: nat): (ds: seq<nat>)
    requires base > 1
    ensures AllBelow(base, ds)
    ensures ds != [] ==> ds[0] != 0
    decreases v
  {
    if v == 0 then [] else
      DivisionShrinks(base, v);
      var front := Digits(base, v / base);
      ModBound(base, v);
      FrontIsEmptyOnlyForOneDigit(base, v);
      front + [v % base]
  }

  lemma DivisionShrinks(base: nat, v: nat)
    requires base > 1 && v > 0
    ensures 0 <= v / base < v
  {
    ModBound(base, v);
    MulMonotone(2, base, v / base, v / base);
  }

  lemma ModBound(base: nat, v: nat)
    requires base > 0
    ensures 0 <= v % base < base
    ensures v == (v / base) * base + v % base
  {
  }

  lemma FrontIsEmptyOnlyForOneDigit(base: nat, v: nat)
    requires base > 1 && v > 0
    ensures v / base == 0 ==> v % base == v
  {
  }

  lemma {:induction false} LeadingCountIs<T>(s: seq<T>, x: T, n: nat)
    requires n <= |s|
    requires forall i :: 0 <= i < n ==> s[i] == x
    requires n < |s| ==> s[n] != x
    ensures LeadingCount(s, x) == n
  {
    if n == 0 {
    } else {
      LeadingCountIs(s[1..], x, n - 1);
    }
  }

  lemma {:induction false} PowPositive(b: nat, e: nat)
    requires b > 0
    ensures Pow(b, e) > 0
  {
    if e == 0 {
    } else {
      PowPositive(b, e - 1);
    }
  }

  lemma {:induction false} PowAdd(b: nat, m: nat, n: nat)
    ensures Pow(b, m + n) == Pow(b, m) * Pow(b, n)
  {
    if m == 0 {
    } else {
      PowAdd(b, m - 1, n);
      calc {
        Pow(b, m + n);
        b * (Pow(b, m - 1) * Pow(b, n));
        (b * Pow(b, m - 1)) * Pow(b, n);
      }
    }
  }

  lemma {:induction false} PowOfPow(b: nat, m: nat, n: nat)
    ensures Pow(Pow(b, m), n) == Pow(b, m * n)
  {
    if n == 0 {
    } else {
      PowOfPow(b, m, n - 1);
      PowAdd(b, m, m * (n - 1));
      assert m + m * (n - 1) == m * n;
    }
  }

  lemma {:induction false} PowMonotone(b: nat, m: nat, n: nat)
    requires b > 0 && m <= n
    ensures Pow(b, m) <= Pow(b, n)
  {
    PowAdd(b, m, n - m);
    PowPositive(b, n - m);
    PowPositive(b, m);
    assert Pow(b, m) * Pow(b, n - m) >= Pow(b, m) * 1;
  }

  lemma {:induction false} PowBaseMonotone(a: nat, b: nat, e: nat)
    requires a <= b
    ensures Pow(a, e) <= Pow(b, e)
  {
    if e == 0 {
    } else {
      PowBaseMonotone(a, b, e - 1);
      MulMonotone(a, b, Pow(a, e - 1), Pow(b, e - 1));
    }
  }

  lemma MulMonotone(a: nat, b: nat, x: nat, y: nat)
    requires a <= b && x <= y
    ensures a * x <= b * y
  {
    assert a * x <= a * y;
    assert a * y <= b * y;
  }

  lemma MulAtLeast(d: nat, x: nat)
    ensures d > 0 ==> d * x >= x
  {
  }

  lemma ShiftSum(base: nat, a: nat, p: nat, b: nat)
    ensures (a * p + b) * base == a * (base * p) + b * base
  {
    assert (a * p) * base == a * (base * p);
  }

  lemma {:induction false} ValueConcat(base: nat, a: seq<nat>, b: seq<nat>)
    ensures Value(base, a + b) == Value(base, a) * Pow(base, |b|) + Value(base, b)
  {
    if b == [] {
      assert a + b == a;
    } else {
      var b' := b[..|b| - 1];
      assert (a + b)[..|a + b| - 1] == a + b';
      ValueConcat(base, a, b');
      ShiftSum(base, Value(base, a), Pow(base, |b'|), Value(base, b'));
    }
  }

  lemma ValueOfOne(base: nat, d: nat)
    ensures Value(base, [d]) == d
  {
    assert [d][..0] == [];
  }

  lemma ValueAppend(base: nat, ds: seq<nat>, d: nat)
    ensures Value(base, ds + [d]) == Value(base, ds) * base + d
  {
    assert (ds + [d])[..|ds|] == ds;
  }

  lemma BoundStep(base: nat, v: nat, d: nat, p: nat)
    requires v < p && d < base
    ensures v * base + d < base * p
  {
    MulMonotone(v + 1, p, base, base);
  }

  lemma {:induction false} ValueBound(base: nat, ds: seq<nat>)
    requires AllBelow(base, ds)
    ensures Value(base, ds) < Pow(base, |ds|)
  {
    if ds == [] {
    } else {
      var front := ds[..|ds| - 1];
      ValueBound(base, front);
      BoundStep(base, Value(base, front), ds[|ds| - 1], Pow(base, |front|));
    }
  }

  lemma {:induction false} ValueOfZeros(base: nat, ds: seq<nat>)
    requires forall i :: 0 <= i < |ds| ==> ds[i] == 0
    ensures Value(base, ds) == 0
  {
    if ds == [] {
    } else {
      ValueOfZeros(base, ds[..|ds| - 1]);
    }
  }

  lemma ValueDropsLeadingZeros(base: nat, ds: seq<nat>, n: nat)
    requires n <= |ds| && forall i :: 0 <= i < n ==> ds[i] == 0
    ensures Value(base, ds) == Value(base, ds[n..])
  {
    assert ds == ds[..n] + ds[n..];
    ValueConcat(base, ds[..n], ds[n..]);
    ValueOfZeros(base, ds[..n]);
  }

  lemma ValueSplitsFirst(base: nat, ds: seq<nat>)
    requires ds != []
    ensures Value(base, ds) == ds[0] * Pow(base, |ds| - 1) + Value(base, ds[1..])
  {
    assert ds == [ds[0]] + ds[1..];
    ValueConcat(base, [ds[0]], ds[1..]);
    ValueOfOne(base, ds[0]);
  }

  lemma LeadingDigitOfSmall(base: nat, ds: seq<nat>)
    requires ds != []
    requires Value(base, ds) < Pow(base, |ds| - 1)
    ensures ds[0] == 0
  {
    ValueSplitsFirst(base, ds);
    MulAtLeast(ds[0], Pow(base, |ds| - 1));
  }

  lemma QuotientUnique(base: nat, q: nat, r: nat, q': nat, r': nat)
    requires r < base && r' < base
    requires q * base + r == q' * base + r'
    ensures q == q' && r == r'
  {
    MulMonotone(q + 1, if q < q' then q' else q + 1, base, base);
    MulMonotone(q' + 1, if q' < q then q else q' + 1, base, base);
  }

  lemma DivModUnique(base: nat, q: nat, r: nat)
    requires r < base
    ensures (q * base + r) / base == q && (q * base + r) % base == r
  {
    var v := q * base + r;
    ModBound(base, v);
    QuotientUnique(base, v / base, v % base, q, r);
  }

  /** A numeral without a leading zero is the shortest numeral of its value. */
  lemma {:induction false} DigitsOfValue(base: nat, ds: seq<nat>)
    requires base > 1 && AllBelow(base, ds)
    requires ds != [] ==> ds[0] != 0
    ensures Digits(base, Value(base, ds)) == ds
  {
    if ds == [] {
    } else {
      var front := ds[..|ds| - 1];
      DigitsOfValue(base, front);
      DivModUnique(base, Value(base, front), ds[|ds| - 1]);
      ValueIsPositive(base, ds);
      assert front + [ds[|ds| - 1]] == ds;
    }
  }

  lemma ValueIsPositive(base: nat, ds: seq<nat>)
    requires base > 0 && ds != [] && ds[0] != 0
    ensures Value(base, ds) >= Pow(base, |ds| - 1) > 0
  {
    ValueSplitsFirst(base, ds);
    PowPositive(base, |ds| - 1);
    assert ds[0] * Pow(base, |ds| - 1) >= 1 * Pow(base, |ds| - 1);
  }

  lemma {:induction false} ValueOfDigits(base: nat, v: nat)
    requires base > 1
    ensures Value(base, Digits(base, v)) == v
    decreases v
  {
    if v == 0 {
    } else {
      DivisionShrinks(base, v);
      ValueOfDigits(base, v / base);
      ModBound(base, v);
      ValueAppend(base, Digits(base, v / base), v % base);
    }
  }

  /** The shortest numeral of `v` has at most `n` digits exactly when v < base^n. */
  lemma DigitCount(base: nat, v: nat, n: nat)
    requires base > 1
    ensures |Digits(base, v)| <= n <==> v < Pow(base, n)
  {
    var ds := Digits(base, v);
    ValueOfDigits(base, v);
    if |ds| <= n {
      ValueBound(base, ds);
      PowMonotone(base, |ds|, n);
    } else {
      ValueIsPositive(base, ds);
      PowMonotone(base, n, |ds| - 1);
    }
  }

  lemma PowStep(b: nat, e: nat)
    ensures Pow(b, e + 1) == b * Pow(b, e)
  {
  }

  lemma ValuePrependTwo(base: nat, a: nat, d: nat, ds: seq<nat>)
    ensures Value(base, [a] + ([d] + ds)) == a * (base * Pow(base, |ds|)) + (d * Pow(base, |ds|) + Value(base, ds))
  {
    hide Value, Pow;
    PowStep(base, |ds|);
    ValuePrepend(base, d, ds);
    ValuePrepend(base, a, [d] + ds);
  }

  /** One step of long multiplication by `factor`, from the right: the digit
      `digit` takes in `carry`, keeps `t % base` and passes `t / base` on. */
  lemma MultiplyStep(base: nat, factor: nat, add: nat, digit: nat, carry: nat, oldTail: seq<nat>, newTail: seq<nat>)
    requires base > 0 && |oldTail| == |newTail|
    requires Value(base, [carry] + newTail) == factor * Value(base, oldTail) + add
    ensures var t := factor * digit + carry;
      Value(base, [t / base] + ([t % base] + newTail)) == factor * Value(base, [digit] + oldTail) + add
  {
    hide Value, Pow;
    var t, p := factor * digit + carry, Pow(base, |newTail|);
    ValuePrepend(base, carry, newTail);
    ValuePrepend(base, digit, oldTail);
    ValuePrependTwo(base, t / base, t % base, newTail);
    CarryStep(base, factor, add, digit, carry, p, Value(base, oldTail), Value(base, newTail));
  }

  lemma CarryStep(base: nat, factor: nat, add: nat, digit: nat, carry: nat, p: nat, oldValue: nat, newValue: nat)
    requires base > 0 && carry * p + newValue == factor * oldValue + add
    ensures var t := factor * digit + carry;
      (t / base) * (base * p) + ((t % base) * p + newValue) == factor * (digit * p + oldValue) + add
  {
    var t := factor * digit + carry;
    ModBound(base, t);
    assert (t / base) * (base * p) == ((t / base) * base) * p;
    assert t * p == (t / base * base + t % base) * p == (t / base * base) * p + (t % base) * p;
    Distribute(factor, digit, carry, p, oldValue);
  }

  lemma ValuePrepend(base: nat, d: nat, ds: seq<nat>)
    ensures Value(base, [d] + ds) == d * Pow(base, |ds|) + Value(base, ds)
  {
    ValueSplitsFirst(base, [d] + ds);
  }

  /** A digit may be merged with the one before it. */
  lemma ValueMerge(base: nat, a: nat, d: nat, ds: seq<nat>)
    requires base > 0
    ensures Value(base, [a] + ([d] + ds)) == Value(base, [a * base + d] + ds) >= a * base + d
  {
    hide Value, Pow;
    PowStep(base, |ds|);
    ValuePrepend(base, a, [d] + ds);
    ValuePrepend(base, d, ds);
    ValuePrepend(base, a * base + d, ds);
    PowPositive(base, |ds|);
    ShiftSum(Pow(base, |ds|), a, base, d);
    MulMonotone(a * base + d, a * base + d, 1, Pow(base, |ds|));
  }

  lemma Distribute(factor: nat, digit: nat, carry: nat, p: nat, v: nat)
    ensures (factor * digit + carry) * p == factor * (digit * p) + carry * p
    ensures factor * (digit * p + v) == factor * (digit * p) + factor * v
  {
    assert (factor * digit) * p == factor * (digit * p);
  }
}
