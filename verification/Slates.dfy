/** The slate: what the parties of a transaction add to it in two rounds, and how it
    is finalized (src/wallet/types/slate/slate.rs). */
module Slates {
  import opened Wrappers
  import opened Curve
  import opened Sums
  import Funding

  // ----- transactions

  /** What a party builds into the transaction: value and key of a coin. */
  datatype Element = InputElement(value: nat, blind: Scalar) | OutputElement(value: nat, blind: Scalar)

  function InputsOf(elems: seq<Element>): seq<Commitment> {
    if elems == [] then []
    else
      var front, last := InputsOf(elems[..|elems| - 1]), elems[|elems| - 1];
      if last.InputElement? then front + [Commit(last.value, last.blind)] else front
  }

  function OutputsOf(elems: seq<Element>): seq<Commitment> {
    if elems == [] then []
    else
      var front, last := OutputsOf(elems[..|elems| - 1]), elems[|elems| - 1];
      if last.OutputElement? then front + [Commit(last.value, last.blind)] else front
  }

  /** The keys of the outputs less those of the inputs. */
  function BlindOf(elems: seq<Element>): int {
    if elems == [] then 0
    else
      var front, last := BlindOf(elems[..|elems| - 1]), elems[|elems| - 1];
      if last.OutputElement? then front + last.blind else front - last.blind
  }

  /** The value of the outputs less that of the inputs. */
  function ValueOf(elems: seq<Element>): int {
    if elems == [] then 0
    else
      var front, last := ValueOf(elems[..|elems| - 1]), elems[|elems| - 1];
      if last.OutputElement? then front + last.value else front - last.value
  }

  datatype KernelFeatures = Plain(fee: nat) | HeightLocked(fee: nat, lockHeight: nat)

  datatype Kernel = Kernel(features: KernelFeatures, excess: Commitment, excessSig: Option<Signature>)

  function WithFeatures(features: KernelFeatures): Kernel {
    Kernel(features, Commitment(0, 0), None)
  }

  datatype Transaction = Transaction(inputs: seq<Commitment>, outputs: seq<Commitment>, kernels: seq<Kernel>, offset: Scalar) {
    function Fee(): nat {
      FeeOf(kernels)
    }
  }

  function FeeOf(kernels: seq<Kernel>): nat {
    if kernels == [] then 0 else FeeOf(kernels[..|kernels| - 1]) + kernels[|kernels| - 1].features.fee
  }

  const EMPTY: Transaction := Transaction([], [], [], 0)

  /** Outputs and fee less inputs, less the part of the key that is the offset. */
  function Excess(tx: Transaction): Commitment {
    var txExcess := CommitSum(tx.outputs + [Commit(tx.Fee(), 0)], tx.inputs);
    CommitSum([txExcess], [Commit(0, tx.offset)])
  }

  /** The challenge of a signature: from the nonce and the key it is made with, and
      the message, which the features of the kernel fix. */
  type Challenge = (PublicKey, PublicKey, KernelFeatures) -> Scalar

  predicate KernelVerifies(e: Challenge, k: Kernel) {
    match (k.excess.ToPubkey(), k.excessSig)
    case (Some(key), Some(sig)) => Verifies(sig, key, e(sig.nonce, key, k.features))
    case _ => false
  }

  // ----- slates as values

  datatype ParticipantData = ParticipantData(
    id: nat,
    publicBlindExcess: PublicKey,
    publicNonce: PublicKey,
    partSig: Option<Signature>)

  datatype SlateError = FeeDispute | InvalidKey | InvalidSignature | InvalidKernel | InvalidTransaction

  datatype SlateData = SlateData(amount: nat, fee: nat, lockHeight: nat, tx: Transaction, participantData: seq<ParticipantData>) {
    function Features(): KernelFeatures {
      if lockHeight == 0 then Plain(fee) else HeightLocked(fee, lockHeight)
    }

    function PubNonces(): (r: seq<PublicKey>)
      ensures |r| == |participantData|
    {
      seq(|participantData|, i requires 0 <= i < |participantData| => participantData[i].publicNonce)
    }

    function PubBlinds(): (r: seq<PublicKey>)
      ensures |r| == |participantData|
    {
      seq(|participantData|, i requires 0 <= i < |participantData| => participantData[i].publicBlindExcess)
    }

    function NonceSum(): Option<PublicKey> {
      Combination(PubNonces())
    }

    function BlindSum(): Option<PublicKey> {
      Combination(PubBlinds())
    }

    predicate FeesPass() {
      Funding.CheckFees(|tx.inputs|, |tx.outputs|, |tx.kernels|, tx.Fee(), amount, fee)
    }

    predicate HasSums() {
      NonceSum().Some? && BlindSum().Some?
    }

    /** The challenge all parties sign under. */
    function CommonChallenge(e: Challenge): Scalar
      requires HasSums()
    {
      e(NonceSum().value, BlindSum().value, Features())
    }

    function AddElements(elems: seq<Element>): SlateData {
      this.(tx := Transaction(tx.inputs + InputsOf(elems), tx.outputs + OutputsOf(elems), [WithFeatures(Features())], tx.offset))
    }

    /** Whoever comes first chooses the offset and takes it off its key. */
    function SplitOffset(offset: SecretKey): SlateData {
      if tx.offset == 0 then this.(tx := tx.(offset := offset)) else this
    }

    function SplitKey(key: Scalar, offset: SecretKey): Scalar {
      if tx.offset == 0 then Reduce(key - offset) else key
    }

    function AddParticipant(id: nat, key: PublicKey, nonce: PublicKey): SlateData {
      this.(participantData := participantData + [ParticipantData(id, key, nonce, None)])
    }

    function Round1(key: Scalar, nonce: SecretKey, id: nat, offset: SecretKey): Result<SlateData, SlateError> {
      match KeyOf(SplitKey(key, offset))
      case Some(k) => Ok(SplitOffset(offset).AddParticipant(id, k, nonce))
      case None => Err(InvalidKey)
    }

    /** A partial signature that was given verifies. */
    predicate PartSigVerifies(e: Challenge, p: ParticipantData)
      requires HasSums()
    {
      p.partSig.Some? ==> Verifies(p.partSig.value, p.publicBlindExcess, CommonChallenge(e))
    }

    predicate SomeSigned() {
      exists i :: 0 <= i < |participantData| && participantData[i].partSig.Some?
    }

    predicate AllSigned() {
      forall i :: 0 <= i < |participantData| ==> participantData[i].partSig.Some?
    }

    predicate AllVerify(e: Challenge)
      requires HasSums()
    {
      forall i :: 0 <= i < |participantData| ==> PartSigVerifies(e, participantData[i])
    }

    function VerifyPartSigs(e: Challenge): Result<(), SlateError> {
      if !SomeSigned() then Ok(())
      else if !HasSums() then Err(InvalidKey)
      else if AllVerify(e) then Ok(())
      else Err(InvalidSignature)
    }

    function PartialSig(e: Challenge, key: SecretKey, nonce: SecretKey): Signature
      requires HasSums()
    {
      Signature(nonce, SignatureScalar(nonce, CommonChallenge(e), key))
    }

    function SetPartSig(id: nat, sig: Signature): SlateData
      requires id < |participantData|
    {
      this.(participantData := participantData[id := participantData[id].(partSig := Some(sig))])
    }

    function Round2(e: Challenge, key: SecretKey, nonce: SecretKey, id: nat): Outcome<SlateData, SlateError> {
      if !FeesPass() then Fails(FeeDispute)
      else
        match VerifyPartSigs(e)
        case Err(error) => Fails(error)
        case Ok(_) =>
          if !HasSums() then Fails(InvalidKey)
          else if id >= |participantData| then Panics
          else Returns(SetPartSig(id, PartialSig(e, key, nonce)))
    }

    function PartSigs(): (r: seq<Signature>)
      requires AllSigned()
      ensures |r| == |participantData|
    {
      seq(|participantData|, i requires 0 <= i < |participantData| => participantData[i].partSig.value)
    }

    function FinalSignature(e: Challenge): Outcome<Signature, SlateError> {
      match VerifyPartSigs(e)
      case Err(error) => Fails(error)
      case Ok(_) =>
        if !AllSigned() then Panics
        else if !HasSums() then Fails(InvalidKey)
        else
          var sig := Signature(NonceSum().value, Reduce(Sum(Scalars(PartSigs()))));
          if Verifies(sig, BlindSum().value, CommonChallenge(e)) then Returns(sig) else Fails(InvalidSignature)
    }

    /** The transaction with the kernel filled in. */
    function FinalTx(sig: Signature): Transaction
      requires |tx.kernels| == 1
    {
      tx.(kernels := [tx.kernels[0].(excess := Excess(tx), excessSig := Some(sig))])
    }

    /** `valid` stands for the validation of whole transactions, which is not part
        of this model. */
    function FinalSlate(e: Challenge, sig: Signature, valid: Transaction -> bool): Outcome<SlateData, SlateError> {
      if !FeesPass() then Fails(FeeDispute)
      else if |tx.kernels| != 1 then Panics
      else if !KernelVerifies(e, FinalTx(sig).kernels[0]) then Fails(InvalidKernel)
      else if !valid(FinalTx(sig)) then Fails(InvalidTransaction)
      else Returns(this.(tx := FinalTx(sig)))
    }

    function Finalized(e: Challenge, valid: Transaction -> bool): Outcome<SlateData, SlateError> {
      match FinalSignature(e)
      case Returns(sig) => FinalSlate(e, sig, valid)
      case Fails(error) => Fails(error)
      case Panics => Panics
    }
  }

  // ----- the slate as it is passed around

  class Slate {
    var amount: nat
    var fee: nat
    var lockHeight: nat
    var tx: Transaction
    var participantData: seq<ParticipantData>

    function View(): SlateData
      reads this
    {
      SlateData(amount, fee, lockHeight, tx, participantData)
    }

    constructor Blank()
      ensures View() == SlateData(0, 0, 0, EMPTY, [])
    {
      amount, fee, lockHeight, tx, participantData := 0, 0, 0, EMPTY, [];
    }

    method AddTransactionElements(elems: seq<Element>) returns (blind: Scalar)
      modifies this`tx
      ensures View() == old(View()).AddElements(elems) && blind == Reduce(BlindOf(elems))
    {
      tx := tx.(kernels := [WithFeatures(View().Features())]);
      ghost var start := tx;
      var sum := 0;
      for i := 0 to |elems|
        invariant tx == start.(inputs := start.inputs + InputsOf(elems[..i]), outputs := start.outputs + OutputsOf(elems[..i]))
        invariant sum == BlindOf(elems[..i])
      {
        assert elems[..i + 1][..i] == elems[..i];
        match elems[i]
        case InputElement(value, blind) =>
          tx := tx.(inputs := tx.inputs + [Commit(value, blind)]);
          sum := sum - blind;
        case OutputElement(value, blind) =>
          tx := tx.(outputs := tx.outputs + [Commit(value, blind)]);
          sum := sum + blind;
      }
      assert elems[..|elems|] == elems;
      blind := Reduce(sum);
    }

    /** Also returns what becomes of the caller's key. A refused key leaves a chosen
        offset behind. */
    method FillRound1(secKey: Scalar, secNonce: SecretKey, participantId: nat, offset: SecretKey)
      returns (r: Result<(), SlateError>, key: Scalar)
      modifies this
      ensures key == old(View()).SplitKey(secKey, offset)
      ensures match old(View()).Round1(secKey, secNonce, participantId, offset)
        case Ok(v) => r == Ok(()) && View() == v
        case Err(error) => r == Err(error) && View() == old(View()).SplitOffset(offset)
    {
      key := secKey;
      if tx.offset == 0 {
        key := GenerateOffset(secKey, offset);
      }
      var pubKey := KeyOf(key);
      if pubKey.None? {
        return Err(InvalidKey), key;
      }
      participantData := participantData + [ParticipantData(participantId, pubKey.value, secNonce, None)];
      r := Ok(());
    }

    method GenerateOffset(secKey: Scalar, offset: SecretKey) returns (key: Scalar)
      modifies this`tx
      ensures View() == old(View()).(tx := old(tx).(offset := offset)) && Congruent(key + offset, secKey)
      ensures key == Reduce(secKey - offset)
    {
      tx := tx.(offset := offset);
      key := Reduce(secKey - offset);
      ReduceTwice(secKey - offset);
      CongruentSum(key, secKey - offset, offset, offset);
    }

    method CheckPartSigs(e: Challenge) returns (r: Result<(), SlateError>)
      ensures r == View().VerifyPartSigs(e)
    {
      var nonceSum, blindSum := View().NonceSum(), View().BlindSum();
      hide Combination, Verifies;
      for i := 0 to |participantData|
        invariant forall j :: 0 <= j < i && participantData[j].partSig.Some? ==>
          View().HasSums() && View().PartSigVerifies(e, participantData[j])
      {
        var p := participantData[i];
        if p.partSig.Some? {
          if nonceSum.None? || blindSum.None? {
            return Err(InvalidKey);
          }
          if !Verifies(p.partSig.value, p.publicBlindExcess, e(nonceSum.value, blindSum.value, View().Features())) {
            assert !View().PartSigVerifies(e, participantData[i]);
            return Err(InvalidSignature);
          }
        }
      }
      return Ok(());
    }

    method FillRound2(e: Challenge, secKey: SecretKey, secNonce: SecretKey, participantId: nat)
      returns (r: Outcome<(), SlateError>)
      modifies this`participantData
      ensures match old(View()).Round2(e, secKey, secNonce, participantId)
        case Returns(v) => r == Returns(()) && View() == v
        case Fails(error) => r == Fails(error) && View() == old(View())
        case Panics => r == Panics && View() == old(View())
    {
      if !View().FeesPass() {
        return Fails(FeeDispute);
      }
      var verified := CheckPartSigs(e);
      if verified.Err? {
        return Fails(verified.error);
      }
      if !View().HasSums() {
        return Fails(InvalidKey);
      }
      if participantId >= |participantData| {
        return Panics;
      }
      var sigPart := View().PartialSig(e, secKey, secNonce);
      participantData := participantData[participantId := participantData[participantId].(partSig := Some(sigPart))];
      return Returns(());
    }

    function SumExcess(): Commitment
      reads this
    {
      Excess(tx)
    }

    /** Adds up the partial signatures; one that is missing aborts. */
    method AddSignatures() returns (total: Outcome<Scalar, SlateError>)
      ensures total == if View().AllSigned() then Returns(Reduce(Sum(Scalars(View().PartSigs())))) else Panics
    {
      var sum := 0;
      for i := 0 to |participantData|
        invariant forall j :: 0 <= j < i ==> participantData[j].partSig.Some?
        invariant View().AllSigned() ==> sum == Sum(Scalars(View().PartSigs())[..i])
      {
        if participantData[i].partSig.None? {
          return Panics;
        }
        if View().AllSigned() {
          assert Scalars(View().PartSigs())[..i + 1][..i] == Scalars(View().PartSigs())[..i];
        }
        sum := sum + participantData[i].partSig.value.s;
      }
      assert Scalars(View().PartSigs())[..|participantData|] == Scalars(View().PartSigs());
      return Returns(Reduce(sum));
    }

    method FinalizeSignature(e: Challenge) returns (r: Outcome<Signature, SlateError>)
      ensures r == View().FinalSignature(e)
    {
      var verified := CheckPartSigs(e);
      if verified.Err? {
        return Fails(verified.error);
      }
      var total := AddSignatures();
      hide SlateData.VerifyPartSigs;
      if total.Panics? {
        return Panics;
      }
      var nonceSum, blindSum := View().NonceSum(), View().BlindSum();
      if nonceSum.None? || blindSum.None? {
        return Fails(InvalidKey);
      }
      var sig := Signature(nonceSum.value, total.value);
      if !Verifies(sig, blindSum.value, e(nonceSum.value, blindSum.value, View().Features())) {
        return Fails(InvalidSignature);
      }
      return Returns(sig);
    }

    method FinalizeTransaction(e: Challenge, sig: Signature, valid: Transaction -> bool) returns (r: Outcome<(), SlateError>)
      modifies this`tx
      ensures match old(View()).FinalSlate(e, sig, valid)
        case Returns(v) => r == Returns(()) && View() == v
        case Fails(error) => r == Fails(error) && View() == old(View())
        case Panics => r == Panics && View() == old(View())
    {
      hide KernelVerifies, Excess;
      if !View().FeesPass() {
        return Fails(FeeDispute);
      }
      var finalExcess := SumExcess();
      if |tx.kernels| != 1 {
        return Panics;
      }
      var kernel := tx.kernels[0].(excess := finalExcess, excessSig := Some(sig));
      if !KernelVerifies(e, kernel) {
        return Fails(InvalidKernel);
      }
      var finalTx := tx.(kernels := [kernel]);
      if !valid(finalTx) {
        return Fails(InvalidTransaction);
      }
      tx := finalTx;
      return Returns(());
    }

    method Finalize(e: Challenge, valid: Transaction -> bool) returns (r: Outcome<(), SlateError>)
      modifies this`tx
      ensures match old(View()).Finalized(e, valid)
        case Returns(v) => r == Returns(()) && View() == v
        case Fails(error) => r == Fails(error) && View() == old(View())
        case Panics => r == Panics && View() == old(View())
    {
      hide SlateData.FinalSignature, SlateData.FinalSlate;
      var sig := FinalizeSignature(e);
      match sig
      case Returns(s) => r := FinalizeTransaction(e, s, valid);
      case Fails(error) => return Fails(error);
      case Panics => return Panics;
    }
  }

  // ----- the fee check

  /** The fee of these numbers of inputs, outputs and kernels is more than the kernels or
      amount and fee of the slate give. */
  predicate Underpays(v: SlateData) {
    var needed := Funding.TxFee(|v.tx.inputs|, |v.tx.outputs|, |v.tx.kernels|);
    v.tx.Fee() < needed || v.amount + v.fee < needed
  }

  /** Round 2 is a fee dispute exactly when the slate underpays. */
  lemma SigningDisputes(e: Challenge, v: SlateData, key: SecretKey, nonce: SecretKey, id: nat)
    ensures v.Round2(e, key, nonce, id) == Fails(FeeDispute) <==> Underpays(v)
  {
    hide Funding.TxFee, SlateData.AllVerify, SlateData.SomeSigned, SlateData.HasSums;
  }

  /** So is finalizing with a signature. */
  lemma FinalizingDisputes(e: Challenge, v: SlateData, sig: Signature, valid: Transaction -> bool)
    ensures v.FinalSlate(e, sig, valid) == Fails(FeeDispute) <==> Underpays(v)
  {
    hide Funding.TxFee, KernelVerifies, SlateData.FinalTx;
  }

  /** Nobody signs and nobody finalizes a transaction that pays less than the fee of its
      own inputs, outputs and kernels. */
  lemma SignedPays(e: Challenge, v: SlateData, key: SecretKey, nonce: SecretKey, id: nat)
    ensures v.Round2(e, key, nonce, id).Returns? ==>
      var tx := v.Round2(e, key, nonce, id).value.tx; tx.Fee() >= Funding.TxFee(|tx.inputs|, |tx.outputs|, |tx.kernels|)
  {
    SigningDisputes(e, v, key, nonce, id);
    hide Funding.TxFee, SlateData.FeesPass, SlateData.VerifyPartSigs, SlateData.HasSums;
  }

  lemma FinalizedPays(e: Challenge, v: SlateData, valid: Transaction -> bool)
    ensures v.Finalized(e, valid).Returns? ==>
      var tx := v.Finalized(e, valid).value.tx; tx.Fee() >= Funding.TxFee(|tx.inputs|, |tx.outputs|, |tx.kernels|)
  {
    hide SlateData.FinalSignature;
    if v.Finalized(e, valid).Returns? {
      var sig := v.FinalSignature(e).value;
      FinalizingDisputes(e, v, sig, valid);
      SameFee(v, sig);
      hide SlateData.FeesPass, KernelVerifies, SlateData.FinalTx, Funding.TxFee;
    }
  }

  lemma SameFee(v: SlateData, sig: Signature)
    requires |v.tx.kernels| == 1
    ensures var tx := v.FinalTx(sig);
      tx.inputs == v.tx.inputs && tx.outputs == v.tx.outputs && |tx.kernels| == 1 && tx.Fee() == v.tx.Fee()
  {
    var tx := v.FinalTx(sig);
    assert tx.kernels[..0] == [] && v.tx.kernels[..0] == [];
    hide Excess;
  }
}
