/** Base58Check (src/common/base58.rs:72-77,156-171) and its use for public keys
    (src/common/crypto.rs). The hash and the curve are parameters. */
module Base58Check {
  import opened Wrappers
  import opened Numerals
  import opened PowerBounds
  import opened Bits
  import opened Base58Spec
  import Base58
  import opened Curve

  /** SHA-256, of which only the length of its output matters here. */
  type Hash = h: seq<u8> -> seq<u8> | forall p :: |h(p)| == 32 witness (p => Repeat(0, 32))

  function Checksum(h: Hash, payload: seq<u8>): (c: seq<u8>)
    ensures |c| == 4
  {
    h(h(payload))[..4]
  }

  ghost function CheckEncoded(h: Hash, version: seq<u8>, b: seq<u8>): string {
    Encoded(version + b + Checksum(h, version + b))
  }

  ghost function CheckDecoded(h: Hash, s: string, n: nat): Outcome<(seq<u8>, seq<u8>), Error> {
    match Decoded(s)
    case Fails(e) => Fails(e)
    case Panics => Panics
    case Returns(bytes) =>
      if |bytes| < 5 then Fails(InvalidBase58Checksum) else
        var payload := bytes[..|bytes| - 4];
        if Checksum(h, payload) != bytes[|bytes| - 4..] then Fails(InvalidBase58Checksum)
        else if n > |payload| then Panics
        else Returns((payload[..n], payload[n..]))
  }

  method ToBase58Check(h: Hash, b: seq<u8>, version: seq<u8>) returns (s: string)
    ensures s == CheckEncoded(h, version, b)
  {
    var payload := version + b;
    var checksum := Checksum(h, payload);
    payload := payload + checksum;
    s := Base58.ToBase58(payload);
  }

  method FromBase58Check(h: Hash, s: string, versionBytes: nat) returns (r: Outcome<(seq<u8>, seq<u8>), Error>)
    ensures r == CheckDecoded(h, s, versionBytes)
  {
    var decoded := Base58.FromBase58(s);
    match decoded
    case Fails(e) => return Fails(e);
    case Panics => return Panics;
    case Returns(bytes) =>
      if |bytes| < 5 {
        return Fails(InvalidBase58Checksum);
      }
      var checksumIndex := |bytes| - 4;
      var payload, provided := bytes[..checksumIndex], bytes[checksumIndex..];
      if Checksum(h, payload) != provided {
        return Fails(InvalidBase58Checksum);
      }
      if versionBytes > |payload| {
        return Panics;
      }
      return Returns((payload[..versionBytes], payload[versionBytes..]));
  }

  /** Whatever is encoded under a version decodes to that version and payload,
      exactly when there is a payload and it fits the decoder's buffer. */
  lemma CheckRoundTrip(h: Hash, version: seq<u8>, b: seq<u8>)
    ensures CheckDecoded(h, CheckEncoded(h, version, b), |version|) == Returns((version, b))
      <==> 1 <= |version + b| <= CAPACITY - 4
  {
    hide Encoded, Decoded, Checksum;
    var payload := version + b;
    var bytes := payload + Checksum(h, payload);
    DecodeEncode(bytes);
    if |bytes| <= CAPACITY {
      assert bytes[..|payload|] == payload && bytes[|payload|..] == Checksum(h, payload);
      assert payload[..|version|] == version && payload[|version|..] == b;
    } else {
      DecodedIsShort(Encoded(bytes));
    }
  }

  lemma DecodedIsShort(s: string)
    ensures Decoded(s).Returns? ==> |Decoded(s).value| <= CAPACITY
  {
    if Decoded(s).Returns? {
      ReturnedMeansAlphabet(s, CAPACITY);
      DecodedOfAlphabet(s, CAPACITY);
    }
  }

  /** Every accepted text is the one encoding of its version and payload. */
  lemma CheckCanonical(h: Hash, s: string, n: nat)
    requires CheckDecoded(h, s, n).Returns?
    ensures var (version, b) := CheckDecoded(h, s, n).value;
      |version| == n && CheckEncoded(h, version, b) == s
  {
    EncodeDecode(s);
    var bytes := Decoded(s).value;
    Rejoin(h, bytes, bytes[..|bytes| - 4], n);
  }

  lemma Rejoin(h: Hash, bytes: seq<u8>, payload: seq<u8>, n: nat)
    requires n <= |payload| == |bytes| - 4 && payload <= bytes
    requires Checksum(h, payload) == bytes[|payload|..]
    ensures payload[..n] + payload[n..] == payload
    ensures payload[..n] + payload[n..] + Checksum(h, payload[..n] + payload[n..]) == bytes
  {
    assert payload[..n] + payload[n..] == payload;
  }

  // ----- public keys

  /** The curve library: compressed serialization and parsing. */
  datatype Secp = Secp(serialize: PublicKey -> seq<u8>, parse: seq<u8> -> Option<PublicKey>) {
    /** A key takes 33 bytes, and is read back from them. */
    ghost predicate Faithful() {
      forall k: PublicKey :: |serialize(k)| == 33 && parse(serialize(k)) == Some(k)
    }
  }

  /** A library may write a key as a number of 33 bytes. */
  ghost function WriteNumber(k: nat): seq<u8> {
    var bytes := Bytes(Digits(256, k));
    Repeat(0, 33 - if |bytes| < 33 then |bytes| else 33) + bytes
  }

  ghost function ReadNumber(b: seq<u8>): Option<PublicKey> {
    var v := Value(256, b);
    if 0 < v < ORDER then Some(v) else None
  }

  lemma NumberRoundTrip(k: PublicKey)
    ensures |WriteNumber(k)| == 33 && ReadNumber(WriteNumber(k)) == Some(k)
  {
    var bytes := Bytes(Digits(256, k));
    KeysAreShort(k);
    var b := WriteNumber(k);
    assert b[33 - |bytes|..] == bytes;
    ValueDropsLeadingZeros(256, b, 33 - |bytes|);
    ValueOfDigits(256, k);
  }

  lemma KeysAreShort(k: PublicKey)
    ensures |Digits(256, k)| <= 33
  {
    hide Digits, Pow;
    var n := 33;
    Power33(n);
    DigitCount(256, k, n);
  }

  lemma Power33(n: nat)
    requires n == 33
    ensures ORDER <= Pow(256, n)
  {
    Powers256();
    PowAdd(256, 8, 8);
    PowAdd(256, 16, 16);
    PowAdd(256, 32, 1);
  }

  /** So there are faithful libraries. */
  lemma FaithfulExists()
    ensures exists secp: Secp :: secp.Faithful()
  {
    var secp := Secp(k => WriteNumber(k), b => ReadNumber(b));
    forall k: PublicKey ensures |secp.serialize(k)| == 33 && secp.parse(secp.serialize(k)) == Some(k) {
      NumberRoundTrip(k);
    }
    assert secp.Faithful();
  }

  ghost function KeyText(h: Hash, secp: Secp, key: PublicKey, version: seq<u8>): string {
    CheckEncoded(h, version, secp.serialize(key))
  }

  ghost function KeyFromText(h: Hash, secp: Secp, s: string, version: seq<u8>): Outcome<PublicKey, Error> {
    match CheckDecoded(h, s, |version|)
    case Fails(e) => Fails(e)
    case Panics => Panics
    case Returns((actual, bytes)) =>
      if actual != version then Fails(InvalidBase58Version)
      else match secp.parse(bytes)
        case None => Fails(InvalidBase58Key)
        case Some(key) => Returns(key)
  }

  lemma KeyRoundTrip(h: Hash, secp: Secp, key: PublicKey, version: seq<u8>)
    requires secp.Faithful() && |version| == 2
    ensures KeyFromText(h, secp, KeyText(h, secp, key, version), version) == Returns(key)
  {
    assert |secp.serialize(key)| == 33;
    CheckRoundTrip(h, version, secp.serialize(key));
  }

  // ----- the shape of an address

  /** Bounding a number between two multiples of a power fixes its numeral's
      length and first digit. */
  lemma LeadingDigit(base: nat, v: nat, n: nat, d: nat)
    requires base > 1 && 0 < d < base
    requires d * Pow(base, n) <= v < (d + 1) * Pow(base, n)
    ensures |Digits(base, v)| == n + 1 && Digits(base, v)[0] == d
  {
    PowPositive(base, n);
    MulAtLeast(d, Pow(base, n));
    MulMonotone(d + 1, base, Pow(base, n), Pow(base, n));
    DigitCount(base, v, n + 1);
    DigitCount(base, v, n);
    var ds := Digits(base, v);
    ValueOfDigits(base, v);
    ValueSplitsFirst(base, ds);
    ValueBound(base, ds[1..]);
    QuotientUnique(Pow(base, n), ds[0], Value(base, ds[1..]), d, v - d * Pow(base, n));
  }

  lemma PrefixBounds(base: nat, a: seq<nat>, b: seq<nat>)
    requires AllBelow(base, b)
    ensures Value(base, a) * Pow(base, |b|) <= Value(base, a + b) < (Value(base, a) + 1) * Pow(base, |b|)
  {
    ValueConcat(base, a, b);
    ValueBound(base, b);
    OneMore(Value(base, a), Pow(base, |b|));
  }

  lemma OneMore(n: nat, p: nat)
    ensures (n + 1) * p == n * p + p
  {
  }

  lemma TwoDigits(base: nat, a: nat, b: nat)
    ensures Value(base, [a, b]) == a * base + b
  {
    ValueOfOne(base, a);
    ValueAppend(base, [a], b);
    assert [a, b] == [a] + [b];
  }

  lemma BigPowers()
    ensures Pow(58, 51) == 860652177161429109999036997686916149526104830704199286261148201570782998439917118073864192
    ensures Pow(256, 37) == 127314748520905380391777855525586135065716774604121015664758778084648831235208544136462336
  {
    Powers58();
    Powers256();
    PowAdd(58, 11, 11);
    PowAdd(58, 22, 22);
    PowAdd(58, 44, 7);
    PowAdd(256, 8, 8);
    PowAdd(256, 16, 16);
    PowAdd(256, 32, 5);
  }

  /** Whatever the key and the checksum, an address has 52 characters and begins
      with 'g' on the main network and with 'x' on the test network. */
  lemma AddressShape(h: Hash, key: seq<u8>)
    requires |key| == 33
    ensures |CheckEncoded(h, [1, 11], key)| == 52 && CheckEncoded(h, [1, 11], key)[0] == 'g'
    ensures |CheckEncoded(h, [1, 120], key)| == 52 && CheckEncoded(h, [1, 120], key)[0] == 'x'
  {
    KeyTextShape(h, [1, 11], key, 39);
    KeyTextShape(h, [1, 120], key, 55);
  }

  lemma EncodedIs(h: Hash, version: seq<u8>, b: seq<u8>)
    ensures CheckEncoded(h, version, b) == Encoded(version + b + Checksum(h, version + b))
  {
    hide Encoded, Checksum;
  }

  lemma KeyTextShape(h: Hash, version: seq<u8>, key: seq<u8>, d: nat)
    requires |key| == 33 && version in {[1, 11], [1, 120]}
    requires d == if version[1] == 11 then 39 else 55
    ensures |CheckEncoded(h, version, key)| == 52 && CheckEncoded(h, version, key)[0] == Letter(d)
  {
    hide Encoded, Letter, Checksum, CheckEncoded, Value, Pow;
    EncodedIs(h, version, key);
    var rest := key + Checksum(h, version + key);
    assert version + key + Checksum(h, version + key) == version + rest;
    var n := 51;
    KeyValueBounds(version, rest, n, d);
    EncodedShape(version + rest, n, d);
  }

  lemma KeyValueBounds(version: seq<u8>, rest: seq<u8>, n: nat, d: nat)
    requires version in {[1, 11], [1, 120]} && |rest| == 37 && n == 51
    requires d == if version[1] == 11 then 39 else 55
    ensures d * Pow(58, n) <= Value(256, version + rest) < (d + 1) * Pow(58, n)
  {
    PrefixBounds(256, version, rest);
    TwoDigits(256, 1, version[1]);
    assert version == [1, version[1]];
    BigPowers();
  }

  lemma EncodedShape(bytes: seq<u8>, n: nat, d: nat)
    requires bytes != [] && bytes[0] != 0 && 0 < d < 58
    requires d * Pow(58, n) <= Value(256, bytes) < (d + 1) * Pow(58, n)
    ensures |Encoded(bytes)| == n + 1 && Encoded(bytes)[0] == Letter(d)
  {
    LeadingDigit(58, Value(256, bytes), n, d);
    assert LeadingCount(bytes, 0) == 0 && bytes[0..] == bytes;
  }
}
