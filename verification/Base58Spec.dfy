/** What the Base58 codec of src/common/base58.rs computes, stated on numbers
    (sections 3 and 4 of draft-msporny-base58), and its laws. */
module Base58Spec {
  import opened Wrappers
  import opened Numerals
  import opened Bits

  datatype Error =
    | InvalidBase58Character(position: nat)
    | InvalidBase58Length
    | InvalidBase58Checksum
    | InvalidBase58Version
    | InvalidBase58Key
    | GrinboxAddressParsingError

  /** The decoder's buffer holds this many bytes. */
  const CAPACITY: nat := 132

  /** The digit a character stands for, or -1 outside the alphabet: digits
      without 0, then letters without I, O and l. */
  function Digit(c: char): (d: int)
    ensures -1 <= d < 58
  {
    var k := c as int;
    if 49 <= k <= 57 then k - 49
    else if 65 <= k <= 72 then k - 56
    else if 74 <= k <= 78 then k - 57
    else if 80 <= k <= 90 then k - 58
    else if 97 <= k <= 107 then k - 64
    else if 109 <= k <= 122 then k - 65
    else -1
  }

  function Letter(d: nat): (c: char)
    requires d < 58
    ensures Digit(c) == d
  {
    if d < 9 then (d + 49) as char
    else if d < 17 then (d + 56) as char
    else if d < 22 then (d + 57) as char
    else if d < 33 then (d + 58) as char
    else if d < 44 then (d + 64) as char
    else (d + 65) as char
  }

  lemma DigitIsInjective(c: char)
    requires Digit(c) >= 0
    ensures Letter(Digit(c)) == c
  {
  }

  /** The alphabet in order: 1 to 9, A to H, J to N, P to Z, a to k, m to z. */
  lemma AlphabetIs(d: nat)
    requires d < 58
    ensures Letter(0) == '1' && Letter(8) == '9' && Letter(9) == 'A' && Letter(16) == 'H' && Letter(17) == 'J' && Letter(21) == 'N'
    ensures Letter(22) == 'P' && Letter(32) == 'Z' && Letter(33) == 'a' && Letter(43) == 'k' && Letter(44) == 'm' && Letter(57) == 'z'
    ensures d !in {8, 16, 21, 32, 43, 57} ==> Letter(d + 1) as int == Letter(d) as int + 1
  {
  }

  predicate IsBase58(s: string) {
    forall i :: 0 <= i < |s| ==> Digit(s[i]) >= 0
  }

  ghost function DigitsOf(s: string): (ds: seq<nat>)
    requires IsBase58(s)
    ensures |ds| == |s| && AllBelow(58, ds)
    ensures forall i :: 0 <= i < |s| ==> ds[i] == Digit(s[i])
  {
    seq(|s|, i requires 0 <= i < |s| => Digit(s[i]))
  }

  ghost function Letters(ds: seq<nat>): (s: string)
    requires AllBelow(58, ds)
    ensures |s| == |ds|
    ensures forall i :: 0 <= i < |s| ==> s[i] == Letter(ds[i]) && Digit(s[i]) == ds[i]
  {
    seq(|ds|, i requires 0 <= i < |ds| => Letter(ds[i]))
  }

  // ----- encoding

  /** A '1' for each leading zero byte, then the shortest base-58 numeral. */
  ghost function Encoded(b: seq<u8>): string {
    var z := LeadingCount(b, 0);
    Repeat('1', z) + Letters(Digits(58, Value(256, b[z..])))
  }

  // ----- decoding

  /** Reading `s` from position `i` on, the digits before it having value
      `v`; a number of `limit` or more does not fit the decoder's buffer. */
  ghost function Scan(s: string, i: nat, v: nat, limit: nat): (r: Result<nat, Error>)
    requires i <= |s|
    decreases |s| - i
  {
    if i == |s| then Ok(v)
    else if Digit(s[i]) < 0 then Err(InvalidBase58Character(i))
    else if v * 58 + Digit(s[i]) >= limit then Err(InvalidBase58Length)
    else Scan(s, i + 1, v * 58 + Digit(s[i]), limit)
  }

  /** A zero byte for each leading '1', then the shortest base-256 numeral. The
      slice that takes them from the buffer starts before the buffer when they do
      not fit, which aborts. */
  ghost function DecodedInto(s: string, capacity: nat): Outcome<seq<u8>, Error> {
    var z := LeadingCount(s, '1');
    match Scan(s, z, 0, Pow(256, capacity))
    case Err(e) => Fails(e)
    case Ok(v) =>
      var ds: seq<nat> := Digits(256, v);
      if z + |ds| > capacity then Panics else Returns(Repeat(0, z) + Bytes(ds))
  }

  ghost function Decoded(s: string): Outcome<seq<u8>, Error> {
    DecodedInto(s, CAPACITY)
  }

  ghost function Bytes(ds: seq<nat>): (b: seq<u8>)
    requires AllBelow(256, ds)
    ensures b == ds
  {
    seq(|ds|, i requires 0 <= i < |ds| => ds[i])
  }

  // ----- laws

  /** The value of the whole numeral, with the digits before `i` read as `v`. */
  ghost function Total(ds: seq<nat>, i: nat, v: nat): nat
    requires i <= |ds|
  {
    Value(58, [v] + ds[i..])
  }

  lemma TotalStep(ds: seq<nat>, i: nat, v: nat)
    requires i < |ds|
    ensures Total(ds, i, v) == Total(ds, i + 1, v * 58 + ds[i]) >= v * 58 + ds[i]
  {
    assert ds[i..] == [ds[i]] + ds[i + 1..];
    ValueMerge(58, v, ds[i], ds[i + 1..]);
  }

  /** Scanning the digits `ds` at the front of `s`: it goes on with their value
      unless that value does not fit the buffer. */
  lemma {:induction false} ScanReads(s: string, ds: seq<nat>, i: nat, v: nat, limit: nat)
    requires i <= |ds| <= |s| && forall k :: 0 <= k < |ds| ==> ds[k] == Digit(s[k])
    requires v < limit
    ensures Scan(s, i, v, limit) ==
      if Total(ds, i, v) < limit then Scan(s, |ds|, Total(ds, i, v), limit) else Err(InvalidBase58Length)
    decreases |ds| - i
  {
    if i == |ds| {
      ValueOfOne(58, v);
      assert [v] + ds[i..] == [v];
    } else {
      TotalStep(ds, i, v);
      if v * 58 + ds[i] < limit {
        ScanReads(s, ds, i + 1, v * 58 + ds[i], limit);
      }
    }
  }

  /** Characters of the alphabet: `InvalidBase58Length` is returned exactly when
      the number does not fit the buffer, and decoding aborts exactly when the
      number fits and the leading zeros beside it do not. */
  lemma DecodedOfAlphabet(s: string, capacity: nat)
    requires IsBase58(s)
    ensures var v, z, r := Value(58, DigitsOf(s)), LeadingCount(s, '1'), DecodedInto(s, capacity);
      && (r == Fails(InvalidBase58Length) <==> v >= Pow(256, capacity))
      && (r == Panics <==> v < Pow(256, capacity) && z + |Digits(256, v)| > capacity)
      && (r.Returns? <==> z + |Digits(256, v)| <= capacity)
      && (r.Returns? ==> r.value == Repeat(0, z) + Bytes(Digits(256, v)))
  {
    var z, ds := LeadingCount(s, '1'), DigitsOf(s);
    PowPositive(256, capacity);
    ScanReads(s, ds, z, 0, Pow(256, capacity));
    TotalOfTail(ds, z);
    DigitCount(256, Value(58, ds), capacity);
  }

  lemma TotalOfTail(ds: seq<nat>, z: nat)
    requires z <= |ds| && forall i :: 0 <= i < z ==> ds[i] == 0
    ensures Total(ds, z, 0) == Value(58, ds)
  {
    ValueDropsLeadingZeros(58, ds, z);
    ValuePrepend(58, 0, ds[z..]);
  }

  /** A first character outside the alphabet is reported at its position, unless
      the digits before it already overflow the buffer. */
  lemma DecodedOfInvalid(s: string, bad: nat, capacity: nat)
    requires bad < |s| && IsBase58(s[..bad]) && Digit(s[bad]) < 0
    ensures DecodedInto(s, capacity) ==
      if Value(58, DigitsOf(s[..bad])) < Pow(256, capacity) then Fails(InvalidBase58Character(bad))
      else Fails(InvalidBase58Length)
  {
    var z, ds := LeadingCount(s, '1'), DigitsOf(s[..bad]);
    PowPositive(256, capacity);
    ScanReads(s, ds, z, 0, Pow(256, capacity));
    TotalOfTail(ds, z);
  }

  lemma TextFromDigits(z: nat, ds: seq<nat>, s: string)
    requires AllBelow(58, ds) && (ds != [] ==> ds[0] != 0)
    requires s == Repeat('1', z) + Letters(ds)
    ensures LeadingCount(s, '1') == z
    ensures IsBase58(s) && Value(58, DigitsOf(s)) == Value(58, ds)
  {
    LeadingCountIs(s, '1', z);
    ValueDropsLeadingZeros(58, DigitsOf(s), z);
    assert DigitsOf(s)[z..] == ds;
  }

  lemma EncodedLeadingOnes(b: seq<u8>)
    ensures LeadingCount(Encoded(b), '1') == LeadingCount(b, 0)
    ensures IsBase58(Encoded(b))
    ensures Value(58, DigitsOf(Encoded(b))) == Value(256, b)
  {
    var z := LeadingCount(b, 0);
    var v := Value(256, b[z..]);
    ValueDropsLeadingZeros(256, b, z);
    ValueOfDigits(58, v);
    TextFromDigits(z, Digits(58, v), Encoded(b));
  }

  /** Round trip from bytes: exactly the byte strings that fit the decoder's
      buffer come back. */
  lemma DecodeEncode(b: seq<u8>)
    ensures Decoded(Encoded(b)) == Returns(b) <==> |b| <= CAPACITY
  {
    DecodeEncodeInto(b, CAPACITY);
  }

  lemma DecodeEncodeInto(b: seq<u8>, capacity: nat)
    ensures DecodedInto(Encoded(b), capacity) == Returns(b) <==> |b| <= capacity
  {
    EncodedLeadingOnes(b);
    DecodedOfAlphabet(Encoded(b), capacity);
    BytesFromValue(b);
  }

  lemma BytesFromValue(b: seq<u8>)
    ensures var z := LeadingCount(b, 0);
      b == Repeat(0, z) + Bytes(Digits(256, Value(256, b)))
  {
    var z := LeadingCount(b, 0);
    ValueDropsLeadingZeros(256, b, z);
    DigitsOfValue(256, b[z..]);
  }

  lemma LettersAreUnique(s: string, ds: seq<nat>)
    requires |ds| == |s| && AllBelow(58, ds)
    requires forall i :: 0 <= i < |s| ==> Digit(s[i]) == ds[i]
    ensures Letters(ds) == s
  {
    forall i | 0 <= i < |s| ensures s[i] == Letter(ds[i]) {
      DigitIsInjective(s[i]);
    }
  }

  lemma TailFromValue(t: string)
    requires IsBase58(t) && (t != [] ==> t[0] != '1')
    ensures Letters(Digits(58, Value(58, DigitsOf(t)))) == t
  {
    DigitsOfValue(58, DigitsOf(t));
    LettersAreUnique(t, DigitsOf(t));
  }

  lemma ValueOfTail(s: string, z: nat)
    requires IsBase58(s) && z == LeadingCount(s, '1')
    ensures Value(58, DigitsOf(s)) == Value(58, DigitsOf(s[z..]))
  {
    ValueDropsLeadingZeros(58, DigitsOf(s), z);
    assert DigitsOf(s)[z..] == DigitsOf(s[z..]);
  }

  lemma OnesThenTail(s: string, z: nat, tail: string)
    requires z == LeadingCount(s, '1') && tail == s[z..]
    ensures s == Repeat('1', z) + tail
  {
    assert s[..z] == Repeat('1', z);
    assert s == s[..z] + tail;
  }

  lemma LettersFromValue(s: string, z: nat)
    requires IsBase58(s) && z == LeadingCount(s, '1')
    ensures s == Repeat('1', z) + Letters(Digits(58, Value(58, DigitsOf(s))))
  {
    ValueOfTail(s, z);
    TailFromValue(s[z..]);
    OnesThenTail(s, z, Letters(Digits(58, Value(58, DigitsOf(s)))));
  }

  lemma ReturnedMeansAlphabet(s: string, capacity: nat)
    requires DecodedInto(s, capacity).Returns?
    ensures IsBase58(s)
  {
    if i :| 0 <= i < |s| && Digit(s[i]) < 0 {
      var bad := FirstInvalid(s, i);
      DecodedOfInvalid(s, bad, capacity);
    }
  }

  lemma FirstInvalid(s: string, i: nat) returns (bad: nat)
    requires i < |s| && Digit(s[i]) < 0
    ensures bad <= i && IsBase58(s[..bad]) && Digit(s[bad]) < 0
  {
    bad := 0;
    while Digit(s[bad]) >= 0
      invariant bad <= i && IsBase58(s[..bad])
      decreases i - bad
    {
      bad := bad + 1;
    }
  }

  /** Round trip from text: every text that decodes is the encoding of its bytes. */
  lemma EncodeDecode(s: string)
    requires Decoded(s).Returns?
    ensures Encoded(Decoded(s).value) == s
  {
    EncodeDecodeInto(s, CAPACITY);
  }

  lemma EncodeDecodeInto(s: string, capacity: nat)
    requires DecodedInto(s, capacity).Returns?
    ensures Encoded(DecodedInto(s, capacity).value) == s
  {
    ReturnedMeansAlphabet(s, capacity);
    DecodedOfAlphabet(s, capacity);
    var z, v := LeadingCount(s, '1'), Value(58, DigitsOf(s));
    var b := DecodedInto(s, capacity).value;
    LeadingCountIs(b, 0, z);
    assert b[z..] == Digits(256, v);
    ValueOfDigits(256, v);
    LettersFromValue(s, z);
  }
}
