/** Grinbox addresses (src/contacts/types.rs): a public key in Base58Check, and
    optionally a domain and a port. */
module GrinboxAddress {
  import opened Wrappers
  import opened Bits
  import opened Base58Spec
  import opened Base58Check
  import opened Curve

  const SCHEME: string := "grinbox://"
  const DEFAULT_GRINBOX_DOMAIN: string := "grinbox.io"
  const DEFAULT_GRINBOX_PORT: u16 := 443

  type u16 = x: nat | x < 0x1_0000

  function VersionBytes(floonet: bool): (v: seq<u8>)
    ensures |v| == 2
  {
    if floonet then [1, 120] else [1, 11]
  }

  // ----- the address grammar

  /** What the regular expression of addresses captures. */
  datatype Captures = Captures(publicKey: string, domain: Option<string>, port: Option<string>)

  predicate IsDomainChar(c: char) {
    'a' <= c <= 'z' || 'A' <= c <= 'Z' || '0' <= c <= '9' || c == '.'
  }

  /** The characters of the expression's class by their codes. */
  lemma DomainChars(c: char)
    ensures var k := c as int;
      IsDomainChar(c) <==> 48 <= k <= 57 || 65 <= k <= 90 || 97 <= k <= 122 || k == 46
  {
  }

  predicate IsDomain(s: string) {
    s != "" && forall i :: 0 <= i < |s| ==> IsDomainChar(s[i])
  }

  predicate IsNumber(s: string) {
    forall i :: 0 <= i < |s| ==> '0' <= s[i] <= '9'
  }

  ghost predicate WellFormed(c: Captures) {
    && |c.publicKey| == 52 && IsBase58(c.publicKey)
    && (c.domain.Some? ==> IsDomain(c.domain.value))
    && (c.port.Some? ==> c.domain.Some? && IsNumber(c.port.value))
  }

  function Suffix(c: Captures): string {
    match (c.domain, c.port)
    case (None, _) => ""
    case (Some(d), None) => "@" + d
    case (Some(d), Some(p)) => "@" + d + ":" + p
  }

  /** The strings the regular expression matches, with their captures. */
  ghost predicate Matches(s: string, c: Captures) {
    WellFormed(c) && (s == c.publicKey + Suffix(c) || s == SCHEME + (c.publicKey + Suffix(c)))
  }

  function DomainLength(s: string): (n: nat)
    ensures n <= |s| && forall i :: 0 <= i < n ==> IsDomainChar(s[i])
    ensures n < |s| ==> !IsDomainChar(s[n])
  {
    if s == "" || !IsDomainChar(s[0]) then 0 else 1 + DomainLength(s[1..])
  }

  /** Matching the regular expression. */
  function Parse(s: string): Option<Captures> {
    ParseBare(if SCHEME <= s then s[|SCHEME|..] else s)
  }

  function ParseBare(t: string): Option<Captures> {
    if |t| < 52 || !IsBase58(t[..52]) then None else ParseSuffix(t[..52], t[52..])
  }

  function ParseSuffix(key: string, rest: string): Option<Captures> {
    if rest == "" then Some(Captures(key, None, None))
    else if rest[0] != '@' then None
    else
      var n := DomainLength(rest[1..]);
      var domain, after := rest[1..][..n], rest[1..][n..];
      if n == 0 then None
      else if after == "" then Some(Captures(key, Some(domain), None))
      else if after[0] == ':' && IsNumber(after[1..]) then Some(Captures(key, Some(domain), Some(after[1..])))
      else None
  }

  /** The parser implements the regular expression, and there is never more than
      one way to match. */
  lemma ParseIsMatch(s: string, c: Captures)
    ensures Parse(s) == Some(c) <==> Matches(s, c)
  {
    var t := if SCHEME <= s then s[|SCHEME|..] else s;
    ParseBareIsMatch(t, c);
    if SCHEME <= s {
      assert s == SCHEME + t;
      if WellFormed(c) {
        SchemeIsNoKey(s, c);
      }
      if s == SCHEME + (c.publicKey + Suffix(c)) {
        assert t == c.publicKey + Suffix(c);
      }
    } else if s == SCHEME + (c.publicKey + Suffix(c)) {
      assert false;
    }
  }

  /** "grinbox://" cannot begin a key: ':' is outside the alphabet. */
  lemma SchemeIsNoKey(s: string, c: Captures)
    requires SCHEME <= s && WellFormed(c)
    ensures s != c.publicKey + Suffix(c)
  {
    assert s[7] == SCHEME[7] == ':';
    assert Digit(c.publicKey[7]) >= 0;
  }

  lemma ParseBareIsMatch(t: string, c: Captures)
    ensures ParseBare(t) == Some(c) <==> WellFormed(c) && t == c.publicKey + Suffix(c)
  {
    if |t| >= 52 && IsBase58(t[..52]) {
      ParseSuffixIsMatch(t[..52], t[52..], c);
      assert t == t[..52] + t[52..];
    }
    if WellFormed(c) && t == c.publicKey + Suffix(c) {
      assert t[..52] == c.publicKey && t[52..] == Suffix(c);
    }
  }

  lemma ParseSuffixIsMatch(key: string, rest: string, c: Captures)
    requires |key| == 52 && IsBase58(key)
    ensures ParseSuffix(key, rest) == Some(c) <==> WellFormed(c) && c.publicKey == key && rest == Suffix(c)
  {
    if WellFormed(c) && c.publicKey == key && rest == Suffix(c) {
      SuffixParses(c);
    }
    if ParseSuffix(key, rest) == Some(c) {
      ParsedSuffix(key, rest);
    }
  }

  lemma ParsedSuffix(key: string, rest: string)
    requires |key| == 52 && IsBase58(key) && ParseSuffix(key, rest).Some?
    ensures var c := ParseSuffix(key, rest).value;
      WellFormed(c) && c.publicKey == key && rest == Suffix(c)
  {
    hide IsBase58, IsDomainChar, DomainLength;
    var c := ParseSuffix(key, rest).value;
    if c.domain.Some? {
      var tail := rest[1..];
      var n := DomainLength(tail);
      assert rest == "@" + tail;
      assert forall i :: 0 <= i < n ==> tail[..n][i] == tail[i];
      if c.port.Some? {
        SuffixWithPort(tail, n);
      } else {
        assert tail[..n] == tail;
      }
    }
  }

  lemma SuffixWithPort(tail: string, n: nat)
    requires n < |tail| && tail[n] == ':'
    ensures "@" + tail == "@" + tail[..n] + ":" + tail[n..][1..]
  {
    assert tail == tail[..n] + (":" + tail[n..][1..]);
  }

  lemma SuffixParses(c: Captures)
    requires WellFormed(c)
    ensures ParseSuffix(c.publicKey, Suffix(c)) == Some(c)
  {
    if c.domain.Some? {
      var d := c.domain.value;
      var tail := Suffix(c)[1..];
      var after := if c.port.Some? then ":" + c.port.value else "";
      assert tail == d + after;
      DomainEnds(d, after);
      assert tail[..|d|] == d && tail[|d|..] == after;
    }
  }

  lemma {:induction false} DomainEnds(d: string, after: string)
    requires forall i :: 0 <= i < |d| ==> IsDomainChar(d[i])
    requires after != "" ==> !IsDomainChar(after[0])
    ensures DomainLength(d + after) == |d|
  {
    if d != "" {
      DomainEnds(d[1..], after);
      assert (d + after)[1..] == d[1..] + after;
    } else {
      assert d + after == after;
    }
  }

  // ----- ports

  function DecimalDigit(d: nat): char
    requires d < 10
  {
    (d + 48) as char
  }

  /** A number as `{}` prints it. */
  function Decimal(n: nat): (s: string)
    ensures s != "" && IsNumber(s)
  {
    if n < 10 then [DecimalDigit(n)] else Decimal(n / 10) + [DecimalDigit(n % 10)]
  }

  function DecimalValue(s: string): nat
    requires IsNumber(s)
  {
    if s == "" then 0 else DecimalValue(s[..|s| - 1]) * 10 + (s[|s| - 1] as int - 48)
  }

  lemma {:induction false} DecimalRoundTrip(n: nat)
    ensures DecimalValue(Decimal(n)) == n
  {
    if n >= 10 {
      DecimalRoundTrip(n / 10);
      assert Decimal(n)[..|Decimal(n)| - 1] == Decimal(n / 10);
    } else {
      assert Decimal(n)[..0] == "";
    }
  }

  /** `u16::from_str_radix(_, 10).unwrap()`: nothing to read, or a number past
      65535, aborts. */
  function ReadPort(s: string): Outcome<u16, Error> {
    if s == "" || !IsNumber(s) || DecimalValue(s) >= 0x1_0000 then Panics else Returns(DecimalValue(s))
  }

  function ReadOptionalPort(s: Option<string>): Outcome<Option<u16>, Error> {
    match s
    case None => Returns(None)
    case Some(digits) =>
      match ReadPort(digits)
      case Returns(port) => Returns(Some(port))
      case _ => Panics
  }

  // ----- addresses

  datatype Address = Address(publicKey: string, domain: string, port: Option<u16>) {
    function EffectivePort(): u16 {
      if port.Some? then port.value else DEFAULT_GRINBOX_PORT
    }

    function HasOtherPort(): bool {
      port.Some? && port.value != DEFAULT_GRINBOX_PORT
    }

    /** The `Display` of an address. */
    function Display(): string {
      if domain != DEFAULT_GRINBOX_DOMAIN || HasOtherPort() then
        publicKey + "@" + domain + (if HasOtherPort() then ":" + Decimal(port.value) else "")
      else
        publicKey
    }

    /** The same key, domain and port to connect to. */
    ghost predicate SameAs(other: Address) {
      publicKey == other.publicKey && domain == other.domain && EffectivePort() == other.EffectivePort()
    }
  }

  ghost function New(h: Hash, secp: Secp, floonet: bool, key: PublicKey, domain: Option<string>, port: Option<u16>): Address {
    Address(KeyText(h, secp, key, VersionBytes(floonet)),
            if domain.Some? then domain.value else DEFAULT_GRINBOX_DOMAIN, port)
  }

  ghost function FromStr(h: Hash, secp: Secp, floonet: bool, s: string): Outcome<Address, Error> {
    match Parse(s)
    case None => Fails(GrinboxAddressParsingError)
    case Some(c) =>
      var port := ReadOptionalPort(c.port);
      if !port.Returns? then Panics
      else match KeyFromText(h, secp, c.publicKey, VersionBytes(floonet))
        case Fails(e) => Fails(e)
        case Panics => Panics
        case Returns(key) => Returns(New(h, secp, floonet, key, c.domain, port.value))
  }

  lemma KeyTextIsKey(h: Hash, secp: Secp, floonet: bool, key: PublicKey)
    requires secp.Faithful()
    ensures var text := KeyText(h, secp, key, VersionBytes(floonet));
      |text| == 52 && IsBase58(text)
  {
    var bytes := secp.serialize(key);
    assert |bytes| == 33;
    AddressShape(h, bytes);
    var version := VersionBytes(floonet);
    EncodedLeadingOnes(version + bytes + Checksum(h, version + bytes));
  }

  function Displayed(a: Address): Captures {
    if a.domain != DEFAULT_GRINBOX_DOMAIN || a.HasOtherPort() then
      Captures(a.publicKey, Some(a.domain), if a.HasOtherPort() then Some(Decimal(a.port.value)) else None)
    else
      Captures(a.publicKey, None, None)
  }

  lemma DisplayMatches(a: Address)
    requires |a.publicKey| == 52 && IsBase58(a.publicKey) && IsDomain(a.domain)
    ensures Parse(a.Display()) == Some(Displayed(a))
  {
    var c := Displayed(a);
    assert a.Display() == c.publicKey + Suffix(c) by {
      if a.HasOtherPort() {
        assert a.publicKey + "@" + a.domain + (":" + Decimal(a.port.value))
            == a.publicKey + ("@" + a.domain + ":" + Decimal(a.port.value));
      } else if a.domain != DEFAULT_GRINBOX_DOMAIN {
        assert a.publicKey + "@" + a.domain + "" == a.publicKey + ("@" + a.domain);
      } else {
        assert a.publicKey + "" == a.publicKey;
      }
    }
    ParseIsMatch(a.Display(), c);
  }

  lemma PortRoundTrip(a: Address)
    ensures var port := ReadOptionalPort(Displayed(a).port);
      port.Returns? && a.(port := port.value).EffectivePort() == a.EffectivePort()
  {
    if a.HasOtherPort() {
      DecimalRoundTrip(a.port.value);
    }
  }

  /** Printing an address and reading it back gives the same address. */
  lemma DisplayRoundTrip(h: Hash, secp: Secp, floonet: bool, key: PublicKey, domain: Option<string>, port: Option<u16>)
    requires secp.Faithful() && (domain.Some? ==> IsDomain(domain.value))
    ensures var a := New(h, secp, floonet, key, domain, port);
      var r := FromStr(h, secp, floonet, a.Display());
      r.Returns? && r.value.SameAs(a)
  {
    var a := New(h, secp, floonet, key, domain, port);
    DefaultIsDomain();
    KeyTextIsKey(h, secp, floonet, key);
    KeyRoundTrip(h, secp, key, VersionBytes(floonet));
    ReadBack(h, secp, floonet, key, a);
  }

  lemma DefaultIsDomain()
    ensures IsDomain(DEFAULT_GRINBOX_DOMAIN)
  {
  }

  lemma ReadBack(h: Hash, secp: Secp, floonet: bool, key: PublicKey, a: Address)
    requires |a.publicKey| == 52 && IsBase58(a.publicKey) && IsDomain(a.domain)
    requires KeyFromText(h, secp, a.publicKey, VersionBytes(floonet)) == Returns(key)
    requires KeyText(h, secp, key, VersionBytes(floonet)) == a.publicKey
    ensures var r := FromStr(h, secp, floonet, a.Display());
      r.Returns? && r.value.SameAs(a)
  {
    DisplayMatches(a);
    PortRoundTrip(a);
    FromStrOf(h, secp, floonet, a.Display(), Displayed(a), key, ReadOptionalPort(Displayed(a).port).value);
  }

  lemma FromStrOf(h: Hash, secp: Secp, floonet: bool, s: string, c: Captures, key: PublicKey, port: Option<u16>)
    requires Parse(s) == Some(c) && ReadOptionalPort(c.port) == Returns(port)
    requires KeyFromText(h, secp, c.publicKey, VersionBytes(floonet)) == Returns(key)
    ensures FromStr(h, secp, floonet, s) == Returns(New(h, secp, floonet, key, c.domain, port))
  {
  }

  /** Whatever text is accepted, what is printed for it is accepted as the same
      address. */
  lemma AcceptedIsStable(h: Hash, secp: Secp, floonet: bool, s: string)
    requires secp.Faithful() && FromStr(h, secp, floonet, s).Returns?
    ensures var a := FromStr(h, secp, floonet, s).value;
      var r := FromStr(h, secp, floonet, a.Display());
      r.Returns? && r.value.SameAs(a)
  {
    var c := Parse(s).value;
    ParseIsMatch(s, c);
    var a := FromStr(h, secp, floonet, s).value;
    var key := KeyFromText(h, secp, c.publicKey, VersionBytes(floonet)).value;
    DisplayRoundTrip(h, secp, floonet, key, c.domain, a.port);
  }

  // ----- the two networks

  /** An address of the main network starts with a 'g' and one of floonet with an 'x'. The
      domain and port are those given, else grinbox.io and, to connect to, 443. */
  lemma NetworkAddress(h: Hash, secp: Secp, floonet: bool, key: PublicKey, domain: Option<string>, port: Option<u16>)
    requires secp.Faithful()
    ensures var a := New(h, secp, floonet, key, domain, port);
      && |a.publicKey| == 52 && a.publicKey[0] == (if floonet then 'x' else 'g')
      && a.domain == (if domain.Some? then domain.value else "grinbox.io")
      && a.port == port && a.EffectivePort() == if port.Some? then port.value else 443
  {
    var bytes := secp.serialize(key);
    assert |bytes| == 33;
    AddressShape(h, bytes);
  }

  /** Printed are the key, the domain if it or the port is not the default one, and the port
      if it is not. */
  lemma DisplayIs(a: Address)
    ensures var other := a.port.Some? && a.port.value != 443;
      a.Display() == a.publicKey + (if a.domain != "grinbox.io" || other then "@" + a.domain else "")
                                 + (if other then ":" + Decimal(a.port.value) else "")
  {
    assert a.publicKey + "" + "" == a.publicKey;
  }
}
