/** The group the transactions are made in, kept as algebra: scalars are integers
    modulo the order of secp256k1 (SEC 2, section 2.4.1), a public key is known by its
    secret scalar, a Pedersen commitment by what it opens to. */
module Curve {
  import opened Wrappers
  import opened Sums

  const ORDER: nat := 0xFFFFFFFF_FFFFFFFF_FFFFFFFF_FFFFFFFE_BAAEDCE6_AF48A03B_BFD25E8C_D0364141

  type Scalar = x: int | 0 <= x < ORDER
  type NonZero = x: int | 0 < x < ORDER witness 1
  type SecretKey = NonZero
  /** A point other than the identity. */
  type PublicKey = NonZero

  function Reduce(x: int): Scalar {
    x % ORDER
  }

  function KeyOf(secret: Scalar): Option<PublicKey> {
    if secret == 0 then None else Some(secret)
  }

  /** `PublicKey::from_combination`. */
  function Combination(keys: seq<PublicKey>): Option<PublicKey> {
    KeyOf(Reduce(Sum(keys)))
  }

  datatype Commitment = Commitment(blind: Scalar, value: Scalar) {
    /** The one commitment that is no point of the curve's encoding. */
    predicate IsIdentity() {
      value == 0 && blind == 0
    }

    /** A commitment is a public key with a known secret only if it commits to zero. */
    function ToPubkey(): Option<PublicKey> {
      if value == 0 then KeyOf(blind) else None
    }
  }

  function Commit(value: nat, blind: Scalar): Commitment {
    Commitment(blind, Reduce(value))
  }

  function Blinds(cs: seq<Commitment>): int {
    if cs == [] then 0 else Blinds(cs[..|cs| - 1]) + cs[|cs| - 1].blind
  }

  function Values(cs: seq<Commitment>): int {
    if cs == [] then 0 else Values(cs[..|cs| - 1]) + cs[|cs| - 1].value
  }

  function CommitSum(positive: seq<Commitment>, negative: seq<Commitment>): Commitment {
    Commitment(Reduce(Blinds(positive) - Blinds(negative)), Reduce(Values(positive) - Values(negative)))
  }

  /** A signature names its nonce. */
  datatype Signature = Signature(nonce: PublicKey, s: Scalar)

  /** What the signature equation gives for a secret nonce and key. */
  function SignatureScalar(nonce: int, challenge: Scalar, key: int): Scalar {
    Reduce(nonce + challenge * key)
  }

  predicate Verifies(sig: Signature, key: PublicKey, challenge: Scalar) {
    sig.s == SignatureScalar(sig.nonce, challenge, key)
  }

  // ----- reduction

  ghost predicate Congruent(a: int, b: int) {
    Reduce(a) == Reduce(b)
  }

  lemma ReduceTwice(a: int)
    ensures Congruent(Reduce(a), a)
  {
  }

  lemma MultipleVanishes(x: int, c: int, k: int)
    ensures Congruent(x + c * (k * ORDER), x)
  {
    assert c * (k * ORDER) == (c * k) * ORDER;
    AddMultiple(x, c * k);
  }

  lemma AddMultiple(x: int, k: int)
    ensures Congruent(x + k * ORDER, x)
  {
  }

  lemma CongruentSum(a: int, a': int, b: int, b': int)
    requires Congruent(a, a') && Congruent(b, b')
    ensures Congruent(a + b, a' + b') && Congruent(a - b, a' - b')
  {
    var k := Quotient(a, a');
    var j := Quotient(b, b');
    hide Reduce;
    AddMultiple(a' + b', k + j);
    AddMultiple(a' - b', k - j);
  }

  lemma Quotient(a: int, a': int) returns (k: int)
    requires Congruent(a, a')
    ensures a == a' + k * ORDER
  {
    k := a / ORDER - a' / ORDER;
  }

  lemma CongruentProduct(c: int, a: int, a': int)
    requires Congruent(a, a')
    ensures Congruent(c * a, c * a')
  {
    var k := Quotient(a, a');
    hide Reduce;
    assert c * a == c * a' + c * (k * ORDER);
    MultipleVanishes(c * a', c, k);
  }

  lemma CongruentDifference(a: int, b: int)
    ensures Congruent(a, b) <==> Reduce(a - b) == 0
  {
  }

  lemma {:induction false} SumOfCongruent(s: seq<int>, t: seq<int>)
    requires |s| == |t| && forall i :: 0 <= i < |s| ==> Congruent(s[i], t[i])
    ensures Congruent(Sum(s), Sum(t))
  {
    if s == [] {
    } else {
      var n := |s| - 1;
      SumOfCongruent(s[..n], t[..n]);
      CongruentSum(Sum(s[..n]), Sum(t[..n]), s[n], t[n]);
    }
  }

  // ----- partial signatures add up

  lemma {:induction false} SumOfAffine(s: seq<int>, nonces: seq<int>, keys: seq<int>, c: int)
    requires |s| == |nonces| == |keys|
    requires forall i :: 0 <= i < |s| ==> s[i] == nonces[i] + c * keys[i]
    ensures Sum(s) == Sum(nonces) + c * Sum(keys)
  {
    if s == [] {
    } else {
      var n := |s| - 1;
      SumOfAffine(s[..n], nonces[..n], keys[..n], c);
      assert c * (Sum(keys[..n]) + keys[n]) == c * Sum(keys[..n]) + c * keys[n];
    }
  }

  /** Signatures that verify under the same challenge add up to a scalar that fits
      the sum of their nonces and the sum of the keys. */
  lemma SignaturesAdd(sigs: seq<Signature>, keys: seq<PublicKey>, c: Scalar)
    requires |sigs| == |keys| && forall i :: 0 <= i < |sigs| ==> Verifies(sigs[i], keys[i], c)
    ensures Reduce(Sum(Scalars(sigs))) == SignatureScalar(Sum(Nonces(sigs)), c, Sum(keys))
  {
    hide Sum, Reduce;
    var exact := seq(|sigs|, i requires 0 <= i < |sigs| => sigs[i].nonce + c * keys[i]);
    forall i | 0 <= i < |sigs| ensures Congruent(Scalars(sigs)[i], exact[i]) {
      ReduceTwice(exact[i]);
    }
    SumOfCongruent(Scalars(sigs), exact);
    SumOfAffine(exact, Nonces(sigs), keys, c);
  }

  function Scalars(sigs: seq<Signature>): (r: seq<int>)
    ensures |r| == |sigs|
  {
    seq(|sigs|, i requires 0 <= i < |sigs| => sigs[i].s)
  }

  function Nonces(sigs: seq<Signature>): (r: seq<int>)
    ensures |r| == |sigs|
  {
    seq(|sigs|, i requires 0 <= i < |sigs| => sigs[i].nonce)
  }

  /** Reducing nonce and key first makes no difference. */
  lemma ScalarOfReduced(nonce: int, c: Scalar, key: int)
    ensures SignatureScalar(Reduce(nonce), c, Reduce(key)) == SignatureScalar(nonce, c, key)
  {
    hide Reduce;
    ReduceTwice(nonce);
    ReduceTwice(key);
    CongruentProduct(c, Reduce(key), key);
    CongruentSum(Reduce(nonce), nonce, c * Reduce(key), c * key);
  }

  /** Two nonces give the same scalar only if they are the same. */
  lemma ScalarFixesNonce(a: int, b: int, c: Scalar, key: int)
    ensures SignatureScalar(a, c, key) == SignatureScalar(b, c, key) <==> Congruent(a, b)
  {
    hide Reduce;
    CongruentDifference(a + c * key, b + c * key);
    CongruentDifference(a, b);
  }

  // ----- sums of commitments

  lemma SumsAppend(cs: seq<Commitment>, c: Commitment)
    ensures Blinds(cs + [c]) == Blinds(cs) + c.blind && Values(cs + [c]) == Values(cs) + c.value
  {
    assert (cs + [c])[..|cs|] == cs;
  }

  lemma {:induction false} SumsConcat(a: seq<Commitment>, b: seq<Commitment>)
    ensures Blinds(a + b) == Blinds(a) + Blinds(b) && Values(a + b) == Values(a) + Values(b)
  {
    if b == [] {
      assert a + b == a;
    } else {
      var front := b[..|b| - 1];
      SumsConcat(a, front);
      assert a + b == (a + front) + [b[|b| - 1]];
      SumsAppend(a + front, b[|b| - 1]);
    }
  }

  lemma {:induction false} ValuesBound(cs: seq<Commitment>, bound: nat)
    requires forall i :: 0 <= i < |cs| ==> cs[i].value < bound
    ensures 0 <= Values(cs) <= |cs| * bound
  {
    if cs == [] {
    } else {
      ValuesBound(cs[..|cs| - 1], bound);
    }
  }
}
