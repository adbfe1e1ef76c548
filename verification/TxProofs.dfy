/** The steps of an interactive transaction and the proof of payment made from it
    (src/internal/tx.rs:170-305, 451-486, 547-642). */
module TxProofs {
  import opened Wrappers
  import opened Curve
  import opened Sums
  import opened Contexts
  import opened Slates
  import opened SlateRuns
  import Funding
  import Numerals
  import GrinboxAddress

  // ----- the steps of the two parties

  /** Round 1 of a party, followed by its round 2 unless it initiates. */
  function Contributes(e: Challenge, v: SlateData, p: Party, id: nat, isInitiator: bool): Outcome<SlateData, SlateError> {
    match Join(v, p, id)
    case Err(error) => Fails(error)
    case Ok(w) => if isInitiator then Returns(w) else w.Round2(e, KeyLeft(v, p, id), p.nonce, id)
  }

  /** The key the party is left with. */
  function KeyLeft(v: SlateData, p: Party, id: nat): SecretKey
    requires Join(v, p, id).Ok?
  {
    v.AddElements(p.elements).SplitKey(Reduce(BlindOf(p.elements)), p.offset)
  }

  /** The sender's step, once coins, change and fee are chosen. The context keeps the
      commitments that are in the slate then. */
  method AddInputsToSlate(slate: Slate, fee: nat, sender: Party, id: nat, isInitiator: bool, e: Challenge)
    returns (r: Outcome<SlateContext, SlateError>)
    modifies slate
    ensures var v := old(slate.View()).(fee := fee);
      match Contributes(e, v, sender, id, isInitiator)
      case Returns(w) =>
        slate.View() == w
        && r == Returns(SlateContext(KeyLeft(v, sender, id), sender.nonce, v.amount, fee,
                                     v.AddElements(sender.elements).tx.inputs, v.AddElements(sender.elements).tx.outputs))
      case Fails(error) => r == Fails(error)
      case Panics => r == Panics
  {
    hide InputsOf, OutputsOf, BlindOf, Reduce, SlateData.Round2;
    slate.fee := fee;
    var blind := slate.AddTransactionElements(sender.elements);
    var inputCommits, outputCommits := [], [];
    for i := 0 to |slate.tx.inputs|
      invariant inputCommits == slate.tx.inputs[..i]
    {
      inputCommits := inputCommits + [slate.tx.inputs[i]];
    }
    for i := 0 to |slate.tx.outputs|
      invariant outputCommits == slate.tx.outputs[..i]
    {
      outputCommits := outputCommits + [slate.tx.outputs[i]];
    }
    assert slate.tx.inputs[..|slate.tx.inputs|] == slate.tx.inputs && slate.tx.outputs[..|slate.tx.outputs|] == slate.tx.outputs;
    var amount := slate.amount;
    var added, key := slate.FillRound1(blind, sender.nonce, id, sender.offset);
    if added.Err? {
      return Fails(added.error);
    }
    if !isInitiator {
      var signed := slate.FillRound2(e, key, sender.nonce, id);
      match signed
      case Fails(error) => return Fails(error);
      case Panics => return Panics;
      case Returns(_) =>
    }
    return Returns(SlateContext(key, sender.nonce, amount, fee, inputCommits, outputCommits));
  }

  /** The recipient's step: one output of the slate's amount. Its context keeps neither
      amount nor fee. */
  method AddOutputToSlate(slate: Slate, blind: Scalar, nonce: SecretKey, offset: SecretKey, id: nat, isInitiator: bool, e: Challenge)
    returns (r: Outcome<SlateContext, SlateError>)
    modifies slate
    ensures var v := old(slate.View()); var p := Recipient(v.amount, blind, nonce, offset);
      match Contributes(e, v, p, id, isInitiator)
      case Returns(w) => slate.View() == w && r == Returns(SlateContext(KeyLeft(v, p, id), nonce, 0, 0, [], []))
      case Fails(error) => r == Fails(error)
      case Panics => r == Panics
  {
    hide InputsOf, OutputsOf, BlindOf, Reduce, SlateData.Round2;
    var amount := slate.amount;
    var sum := slate.AddTransactionElements([OutputElement(amount, blind)]);
    var added, key := slate.FillRound1(sum, nonce, id, offset);
    if added.Err? {
      return Fails(added.error);
    }
    if !isInitiator {
      var signed := slate.FillRound2(e, key, nonce, id);
      match signed
      case Fails(error) => return Fails(error);
      case Panics => return Panics;
      case Returns(_) =>
    }
    return Returns(SlateContext(key, nonce, 0, 0, [], []));
  }

  function Recipient(amount: nat, blind: Scalar, nonce: SecretKey, offset: SecretKey): Party {
    Party([OutputElement(amount, blind)], nonce, offset)
  }

  function Completed(e: Challenge, v: SlateData, key: SecretKey, nonce: SecretKey, id: nat, valid: Transaction -> bool)
    : Outcome<SlateData, SlateError>
  {
    match v.Round2(e, key, nonce, id)
    case Returns(w) => w.Finalized(e, valid)
    case Fails(error) => Fails(error)
    case Panics => Panics
  }

  method CompleteTx(slate: Slate, id: nat, context: SlateContext, e: Challenge, valid: Transaction -> bool)
    returns (r: Outcome<(), SlateError>)
    modifies slate
    ensures match Completed(e, old(slate.View()), context.secKey, context.secNonce, id, valid)
      case Returns(w) => r == Returns(()) && slate.View() == w
      case Fails(error) => r == Fails(error)
      case Panics => r == Panics
  {
    hide SlateData.Round2, SlateData.Finalized;
    r := slate.FillRound2(e, context.secKey, context.secNonce, id);
    if r.Returns? {
      r := slate.Finalize(e, valid);
    }
  }

  lemma JoinedTwo(v: SlateData, sender: Party, receiver: Party)
    ensures Joined(v, [sender, receiver]) ==
      match Join(v, sender, 0)
      case Ok(u) => Join(u, receiver, 1)
      case Err(error) => Err(error)
  {
    hide Join;
    assert [sender, receiver][..1] == [sender];
    assert [sender][..0] == [];
    assert Joined(v, [sender]) == Join(v, sender, 0);
  }

  lemma SignedTwo(e: Challenge, w: SlateData, parties: seq<Party>)
    requires |parties| == 2
    ensures SignAll(e, w, parties, [1, 0]) ==
      match Sign(e, w, parties, 1)
      case Returns(s) => Sign(e, s, parties, 0)
      case Fails(error) => Fails(error)
      case Panics => Panics
  {
    hide Sign;
    assert [1, 0][..1] == [1];
    assert [1][..0] == [];
    assert SignAll(e, w, parties, [1]) == Sign(e, w, parties, 1);
  }

  /** The keys both are left with. */
  lemma KeysLeft(v: SlateData, sender: Party, receiver: Party)
    requires Fresh(v) && Joined(v, [sender, receiver]).Ok?
    ensures var ps := [sender, receiver];
      && Join(v, sender, 0).Ok? && KeyLeft(v, sender, 0) == KeyAfter(ps, 0)
      && Join(Join(v, sender, 0).value, receiver, 1).Ok?
      && KeyLeft(Join(v, sender, 0).value, receiver, 1) == KeyAfter(ps, 1)
  {
    JoinedTwo(v, sender, receiver);
    hide Reduce, BlindOf, InputsOf, OutputsOf;
    assert Join(v, sender, 0).value.tx.offset == sender.offset;
  }

  /** The whole exchange: the sender initiates, the recipient answers, the sender
      completes. */
  function Exchange(e: Challenge, v: SlateData, sender: Party, receiver: Party, valid: Transaction -> bool): Outcome<SlateData, SlateError> {
    match Contributes(e, v, sender, 0, true)
    case Fails(error) => Fails(error)
    case Panics => Panics
    case Returns(sent) =>
      match Contributes(e, sent, receiver, 1, false)
      case Fails(error) => Fails(error)
      case Panics => Panics
      case Returns(answered) => Completed(e, answered, KeyLeft(v, sender, 0), sender.nonce, 0, valid)
  }

  /** It is the run of two parties in which the recipient signs first. */
  lemma ExchangeIsRun(e: Challenge, v: SlateData, sender: Party, receiver: Party, w: SlateData, valid: Transaction -> bool)
    requires Fresh(v) && Joined(v, [sender, receiver]) == Ok(w)
    ensures Within([1, 0], 2)
    ensures SignAll(e, w, [sender, receiver], [1, 0]).Returns? ==>
      Exchange(e, v, sender, receiver, valid) == SignAll(e, w, [sender, receiver], [1, 0]).value.Finalized(e, valid)
  {
    JoinedTwo(v, sender, receiver);
    KeysLeft(v, sender, receiver);
    SignedTwo(e, w, [sender, receiver]);
    hide Joined, Join, KeyLeft, KeyAfter, SignAll, SlateData.Round2, SlateData.Finalized;
  }

  lemma BothSign()
    ensures Within([1, 0], 2) && forall i: nat :: i < 2 ==> i in Elements([1, 0])
  {
    assert [1, 0][0] == 1 && [1, 0][1] == 0;
  }

  /** Between two parties that are left with keys, with a sufficient fee, the exchange
      succeeds exactly when the sender's inputs, change and fee balance with the
      amount and the result is valid. */
  lemma ExchangeSucceeds(e: Challenge, v: SlateData, sender: Party, receiver: Party, w: SlateData, valid: Transaction -> bool)
    requires Fresh(v) && Joined(v, [sender, receiver]) == Ok(w) && w.HasSums() && w.FeesPass()
    ensures Within([1, 0], 2) && SignAll(e, w, [sender, receiver], [1, 0]).Returns?
    ensures var signed := SignAll(e, w, [sender, receiver], [1, 0]).value;
      && Finalizes(e, signed, Contributed([sender, receiver]) + v.fee, w.BlindSum(), valid)
      && Exchange(e, v, sender, receiver, valid) == signed.Finalized(e, valid)
  {
    hide *;
    BothSign();
    RunFinalizes(e, v, [sender, receiver], w, [1, 0], valid);
    ExchangeIsRun(e, v, sender, receiver, w, valid);
  }

  /** What an exchange makes pays the fee of its own inputs and outputs. */
  lemma ExchangePays(e: Challenge, v: SlateData, sender: Party, receiver: Party, valid: Transaction -> bool)
    ensures Exchange(e, v, sender, receiver, valid).Returns? ==>
      var tx := Exchange(e, v, sender, receiver, valid).value.tx;
      |tx.kernels| == 1 && tx.Fee() >= Funding.TxFee(|tx.inputs|, |tx.outputs|, 1)
  {
    hide Join, KeyLeft, SlateData.Round2, SlateData.Finalized;
    if Exchange(e, v, sender, receiver, valid).Returns? {
      var answered := Contributes(e, Contributes(e, v, sender, 0, true).value, receiver, 1, false).value;
      var signed := answered.Round2(e, KeyLeft(v, sender, 0), sender.nonce, 0).value;
      FinalizedPays(e, signed, valid);
      FinalizedHasOneKernel(e, signed, valid);
    }
  }

  lemma FinalizedHasOneKernel(e: Challenge, v: SlateData, valid: Transaction -> bool)
    ensures v.Finalized(e, valid).Returns? ==> |v.Finalized(e, valid).value.tx.kernels| == 1
  {
    hide SlateData.FinalSignature, SlateData.FeesPass, KernelVerifies, Excess;
  }

  /** A slate whose fee is below that of what it holds with the recipient's coins is
      refused by the recipient, and any other gets past the fee check. */
  lemma AnswerDisputes(e: Challenge, v: SlateData, p: Party)
    requires Join(v, p, 1).Ok?
    ensures var inputs, outputs := |v.tx.inputs| + |InputsOf(p.elements)|, |v.tx.outputs| + |OutputsOf(p.elements)|;
      Contributes(e, v, p, 1, false) == Fails(FeeDispute) <==> v.fee < Funding.TxFee(inputs, outputs, 1)
  {
    var w := Join(v, p, 1).value;
    SigningDisputes(e, w, KeyLeft(v, p, 1), p.nonce, 1);
    JoinedShape(v, p);
    hide SlateData.Round2, Join, KeyLeft, Funding.TxFee, InputsOf, OutputsOf;
  }

  lemma JoinedShape(v: SlateData, p: Party)
    requires Join(v, p, 1).Ok?
    ensures var w := Join(v, p, 1).value;
      && |w.tx.inputs| == |v.tx.inputs| + |InputsOf(p.elements)| && |w.tx.outputs| == |v.tx.outputs| + |OutputsOf(p.elements)|
      && |w.tx.kernels| == 1 && w.tx.Fee() == v.fee && w.amount == v.amount && w.fee == v.fee
  {
    OneKernelFee(v.Features());
    hide InputsOf, OutputsOf, BlindOf, Reduce;
  }

  // ----- the proof

  datatype ProofData = ProofData(
    address: GrinboxAddress.Address,
    amount: nat,
    fee: nat,
    inputs: seq<Commitment>,
    outputs: seq<Commitment>)
  {
    function Filled(context: SlateContext): ProofData {
      ProofData(address, context.amount, context.fee, inputs + context.inputCommits, outputs + context.outputCommits)
    }
  }

  class TxProof {
    const address: GrinboxAddress.Address
    var amount: nat
    var fee: nat
    var inputs: seq<Commitment>
    var outputs: seq<Commitment>

    function View(): ProofData
      reads this
    {
      ProofData(address, amount, fee, inputs, outputs)
    }

    constructor FromResponse(from: GrinboxAddress.Address)
      ensures View() == ProofData(from, 0, 0, [], [])
    {
      address, amount, fee, inputs, outputs := from, 0, 0, [], [];
    }

    /** The sender adds what it kept of its own coins. */
    method Fill(context: SlateContext)
      modifies this
      ensures View() == old(View()).Filled(context)
    {
      amount, fee := context.amount, context.fee;
      for i := 0 to |context.inputCommits|
        invariant amount == context.amount && fee == context.fee && outputs == old(outputs)
        invariant inputs == old(inputs) + context.inputCommits[..i]
      {
        inputs := inputs + [context.inputCommits[i]];
      }
      assert context.inputCommits[..|context.inputCommits|] == context.inputCommits;
      for i := 0 to |context.outputCommits|
        invariant amount == context.amount && fee == context.fee && inputs == old(inputs) + context.inputCommits
        invariant outputs == old(outputs) + context.outputCommits[..i]
      {
        outputs := outputs + [context.outputCommits[i]];
      }
      assert context.outputCommits[..|context.outputCommits|] == context.outputCommits;
    }
  }

  /** The slate's side of `finalize_tx`: the proof, if one is asked for, is filled in
      first, and stays so whether or not the transaction completes. */
  method CompleteWithProof(slate: Slate, proof: TxProof?, context: SlateContext, e: Challenge, valid: Transaction -> bool)
    returns (r: Outcome<(), SlateError>)
    modifies slate, proof
    ensures proof != null ==> proof.View() == old(proof.View()).Filled(context)
    ensures match Completed(e, old(slate.View()), context.secKey, context.secNonce, 0, valid)
      case Returns(w) => r == Returns(()) && slate.View() == w
      case Fails(error) => r == Fails(error)
      case Panics => r == Panics
  {
    hide Completed;
    if proof != null {
      proof.Fill(context);
    }
    r := CompleteTx(slate, 0, context, e, valid);
  }

  /** The commitments that are not in `owned`. */
  function Without(cs: seq<Commitment>, owned: seq<Commitment>): seq<Commitment> {
    if cs == [] then []
    else
      var front, last := Without(cs[..|cs| - 1], owned), cs[|cs| - 1];
      if last in owned then front else front + [last]
  }

  function Among(cs: seq<Commitment>, owned: seq<Commitment>): seq<Commitment> {
    if cs == [] then []
    else
      var front, last := Among(cs[..|cs| - 1], owned), cs[|cs| - 1];
      if last in owned then front + [last] else front
  }

  datatype ProofError = VerifyProof | NoKey

  datatype Verdict = Verdict(
    destination: GrinboxAddress.Address,
    address: GrinboxAddress.Address,
    amount: nat,
    outputs: seq<Commitment>,
    excess: Commitment)

  function ReceiverExcess(proof: ProofData, slate: SlateData): Commitment {
    CommitSum(Without(slate.tx.outputs, proof.outputs), Without(slate.tx.inputs, proof.inputs) + [Commit(proof.amount, 0)])
  }

  function KernelExcess(slate: SlateData): Commitment {
    CommitSum(slate.tx.outputs + [Commit(slate.fee, 0)], slate.tx.inputs + [Commit(0, slate.tx.offset)])
  }

  /** `extracted` is the destination and the slate of the signed, decrypted message. */
  function VerifyTxProof(proof: ProofData, extracted: Option<(GrinboxAddress.Address, SlateData)>): Outcome<Verdict, ProofError> {
    match extracted
    case None => Fails(VerifyProof)
    case Some((destination, slate)) =>
      if |slate.participantData| < 2 then Panics
      else
        var receiver, kernel := ReceiverExcess(proof, slate), KernelExcess(slate);
        if receiver.IsIdentity() then Fails(NoKey)
        else if receiver.ToPubkey() != Some(slate.participantData[1].publicBlindExcess) || slate.BlindSum().None? then
          Fails(VerifyProof)
        else if kernel.IsIdentity() then Fails(NoKey)
        else if kernel.ToPubkey() != slate.BlindSum() then Fails(VerifyProof)
        else Returns(Verdict(destination, proof.address, proof.amount, Without(slate.tx.outputs, proof.outputs), kernel))
  }

  // ----- what an accepted proof says

  /** The recipient's coins carry the amount, under the key it signed with. */
  ghost predicate PaysReceiver(proof: ProofData, slate: SlateData) {
    var outs, ins := Without(slate.tx.outputs, proof.outputs), Without(slate.tx.inputs, proof.inputs);
    && |slate.participantData| >= 2
    && Congruent(Values(outs) - Values(ins), proof.amount)
    && Congruent(Blinds(outs) - Blinds(ins), slate.participantData[1].publicBlindExcess)
  }

  /** The transaction balances, under the sum of the participants' keys. */
  ghost predicate Balances(slate: SlateData) {
    && Congruent(Values(slate.tx.outputs) - Values(slate.tx.inputs) + slate.fee, 0)
    && Congruent(Blinds(slate.tx.outputs) - Blinds(slate.tx.inputs) - slate.tx.offset, Sum(slate.PubBlinds()))
  }

  lemma KeyIs(c: Commitment, value: int, blind: int, key: int)
    requires Congruent(c.value, value) && Congruent(c.blind, blind)
    ensures c.ToPubkey() == KeyOf(Reduce(key)) && Reduce(key) != 0 <==>
      Congruent(value, 0) && Congruent(blind, key) && Reduce(key) != 0
  {
  }

  lemma ReceiverExcessIs(proof: ProofData, slate: SlateData)
    ensures var outs, ins := Without(slate.tx.outputs, proof.outputs), Without(slate.tx.inputs, proof.inputs);
      && Congruent(ReceiverExcess(proof, slate).value, Values(outs) - Values(ins) - proof.amount)
      && Congruent(ReceiverExcess(proof, slate).blind, Blinds(outs) - Blinds(ins))
  {
    hide Values, Blinds, Without;
    var outs, ins := Without(slate.tx.outputs, proof.outputs), Without(slate.tx.inputs, proof.inputs);
    var amount := Commit(proof.amount, 0);
    SumsAppend(ins, amount);
    ReduceTwice(Values(outs) - Values(ins + [amount]));
    ReduceTwice(Blinds(outs) - Blinds(ins + [amount]));
    ReduceTwice(proof.amount);
    CongruentSum(Values(outs) - Values(ins), Values(outs) - Values(ins), amount.value, proof.amount);
    hide Reduce;
  }

  lemma KernelExcessIs(slate: SlateData)
    ensures Congruent(KernelExcess(slate).value, Values(slate.tx.outputs) - Values(slate.tx.inputs) + slate.fee)
    ensures Congruent(KernelExcess(slate).blind, Blinds(slate.tx.outputs) - Blinds(slate.tx.inputs) - slate.tx.offset)
  {
    hide Values, Blinds;
    var outs, ins, fee, offset := slate.tx.outputs, slate.tx.inputs, Commit(slate.fee, 0), Commit(0, slate.tx.offset);
    assert offset.value == 0;
    SumsAppend(outs, fee);
    SumsAppend(ins, offset);
    ReduceTwice(Values(outs + [fee]) - Values(ins + [offset]));
    ReduceTwice(Blinds(outs + [fee]) - Blinds(ins + [offset]));
    ReduceTwice(slate.fee);
    CongruentSum(Values(outs) - Values(ins), Values(outs) - Values(ins), fee.value, slate.fee);
    hide Reduce;
  }

  lemma ReceiverKeyIs(proof: ProofData, slate: SlateData)
    requires |slate.participantData| >= 2
    ensures ReceiverExcess(proof, slate).ToPubkey() == Some(slate.participantData[1].publicBlindExcess) <==> PaysReceiver(proof, slate)
  {
    hide ReceiverExcess, Without, Values, Blinds;
    var outs, ins := Without(slate.tx.outputs, proof.outputs), Without(slate.tx.inputs, proof.inputs);
    ReceiverExcessIs(proof, slate);
    KeyIs(ReceiverExcess(proof, slate), Values(outs) - Values(ins) - proof.amount, Blinds(outs) - Blinds(ins),
          slate.participantData[1].publicBlindExcess);
    CongruentDifference(Values(outs) - Values(ins), proof.amount);
  }

  lemma KernelKeyIs(slate: SlateData)
    ensures slate.BlindSum().Some? ==> (KernelExcess(slate).ToPubkey() == slate.BlindSum() <==> Balances(slate))
    ensures slate.BlindSum().Some? && Balances(slate) ==> KernelExcess(slate) == Commitment(slate.BlindSum().value, 0)
  {
    hide KernelExcess, Values, Blinds, Sum;
    KernelExcessIs(slate);
    KeyIs(KernelExcess(slate), Values(slate.tx.outputs) - Values(slate.tx.inputs) + slate.fee,
          Blinds(slate.tx.outputs) - Blinds(slate.tx.inputs) - slate.tx.offset, Sum(slate.PubBlinds()));
  }

  lemma {:induction false} Parted(cs: seq<Commitment>, owned: seq<Commitment>)
    ensures Values(cs) == Values(Without(cs, owned)) + Values(Among(cs, owned))
  {
    if cs == [] {
    } else {
      var front, last := cs[..|cs| - 1], cs[|cs| - 1];
      Parted(front, owned);
      SumsAppend(Without(front, owned), last);
      SumsAppend(Among(front, owned), last);
    }
  }

  /** And then the rest, which the sender named as its own, pays amount and fee. */
  lemma SenderPays(proof: ProofData, slate: SlateData)
    requires PaysReceiver(proof, slate) && Balances(slate)
    ensures Congruent(Values(Among(slate.tx.inputs, proof.inputs)) - Values(Among(slate.tx.outputs, proof.outputs)),
                      proof.amount + slate.fee)
  {
    hide Values, Without, Among;
    Parted(slate.tx.inputs, proof.inputs);
    Parted(slate.tx.outputs, proof.outputs);
    var theirs := Values(Without(slate.tx.outputs, proof.outputs)) - Values(Without(slate.tx.inputs, proof.inputs));
    var own := Values(Among(slate.tx.inputs, proof.inputs)) - Values(Among(slate.tx.outputs, proof.outputs));
    var total := Values(slate.tx.outputs) - Values(slate.tx.inputs) + slate.fee;
    assert total == theirs - own + slate.fee;
    CongruentSum(theirs, proof.amount, slate.fee, slate.fee);
    CongruentSum(theirs + slate.fee, proof.amount + slate.fee, total, 0);
    hide Reduce;
    assert theirs + slate.fee - total == own;
  }

  /** A proof is accepted exactly when the recipient's coins carry the amount under
      the key it signed with, and the transaction balances under the sum of keys. Then
      the coins the sender named pay amount and fee. */
  lemma AcceptedExactly(proof: ProofData, destination: GrinboxAddress.Address, slate: SlateData)
    ensures VerifyTxProof(proof, Some((destination, slate))).Returns? <==>
      PaysReceiver(proof, slate) && Balances(slate) && slate.BlindSum().Some?
    ensures VerifyTxProof(proof, Some((destination, slate))).Returns? ==>
      VerifyTxProof(proof, Some((destination, slate))).value ==
        Verdict(destination, proof.address, proof.amount, Without(slate.tx.outputs, proof.outputs),
                Commitment(slate.BlindSum().value, 0))
      && Congruent(Values(Among(slate.tx.inputs, proof.inputs)) - Values(Among(slate.tx.outputs, proof.outputs)),
                   proof.amount + slate.fee)
  {
    if PaysReceiver(proof, slate) && Balances(slate) {
      SenderPays(proof, slate);
    }
    if |slate.participantData| >= 2 {
      ReceiverKeyIs(proof, slate);
      KernelKeyIs(slate);
      hide Without, Among, ReceiverExcess, KernelExcess, Combination, Reduce, Values, Blinds, Balances;
      hide PaysReceiver;
    }
  }

  // ----- in coins of 64 bits

  const U64: nat := 0x1_0000_0000_0000_0000

  ghost predicate InRange(cs: seq<Commitment>) {
    |cs| < U64 && forall i :: 0 <= i < |cs| ==> cs[i].value < U64
  }

  lemma {:induction false} WithoutInRange(cs: seq<Commitment>, owned: seq<Commitment>)
    requires InRange(cs)
    ensures InRange(Without(cs, owned)) && |Without(cs, owned)| <= |cs|
  {
    if cs == [] {
    } else {
      WithoutInRange(cs[..|cs| - 1], owned);
    }
  }

  lemma RangeBound(cs: seq<Commitment>)
    requires InRange(cs)
    ensures 0 <= Values(cs) <= U64 * U64
  {
    ValuesBound(cs, U64);
    Numerals.MulMonotone(|cs|, U64, U64, U64);
  }

  /** Coins of 64 bits carry exactly the amount. */
  lemma AmountIsExact(proof: ProofData, slate: SlateData)
    requires PaysReceiver(proof, slate) && InRange(slate.tx.inputs) && InRange(slate.tx.outputs) && proof.amount < U64
    ensures Values(Without(slate.tx.outputs, proof.outputs)) == Values(Without(slate.tx.inputs, proof.inputs)) + proof.amount
  {
    hide Values, Blinds, Without, InRange;
    WithoutInRange(slate.tx.inputs, proof.inputs);
    WithoutInRange(slate.tx.outputs, proof.outputs);
    RangeBound(Without(slate.tx.inputs, proof.inputs));
    RangeBound(Without(slate.tx.outputs, proof.outputs));
    SmallCongruent(Values(Without(slate.tx.outputs, proof.outputs)) - Values(Without(slate.tx.inputs, proof.inputs)), proof.amount);
  }

  lemma SmallCongruent(a: int, b: int)
    requires Congruent(a, b) && 0 - ORDER < a - b < ORDER
    ensures a == b
  {
    CongruentDifference(a, b);
  }

  // ----- a proof from an honest run

  /** What the sender keeps of its own coins. */
  function SenderProof(address: GrinboxAddress.Address, v: SlateData, sender: Party): ProofData {
    ProofData(address, v.amount, v.fee, InputsOf(sender.elements), OutputsOf(sender.elements))
  }

  /** That is what finalizing fills into the proof of a sender that came first. */
  lemma FilledBySender(address: GrinboxAddress.Address, v: SlateData, sender: Party, context: SlateContext)
    requires Fresh(v) && context.amount == v.amount && context.fee == v.fee
    requires context.inputCommits == v.AddElements(sender.elements).tx.inputs
    requires context.outputCommits == v.AddElements(sender.elements).tx.outputs
    ensures ProofData(address, 0, 0, [], []).Filled(context) == SenderProof(address, v, sender)
  {
    hide InputsOf, OutputsOf;
    assert [] + context.inputCommits == context.inputCommits && [] + context.outputCommits == context.outputCommits;
  }

  lemma {:induction false} NoneWithout(cs: seq<Commitment>, owned: seq<Commitment>)
    requires forall i :: 0 <= i < |cs| ==> cs[i] in owned
    ensures Without(cs, owned) == []
  {
    if cs == [] {
    } else {
      NoneWithout(cs[..|cs| - 1], owned);
    }
  }

  lemma OneWithout(cs: seq<Commitment>, c: Commitment)
    ensures Without(cs + [c], cs) == if c in cs then [] else [c]
  {
    NoneWithout(cs, cs);
    assert (cs + [c])[..|cs|] == cs;
  }

  /** The coins of the two parties in the slate. */
  lemma HonestTransaction(v: SlateData, sender: Party, receiver: Party, blind: Scalar, w: SlateData)
    requires Fresh(v) && receiver.elements == [OutputElement(v.amount, blind)] && Joined(v, [sender, receiver]) == Ok(w)
    ensures w.tx.inputs == InputsOf(sender.elements) && w.tx.outputs == OutputsOf(sender.elements) + [Commit(v.amount, blind)]
    ensures |w.participantData| == 2 && w.participantData[1].publicBlindExcess == blind
  {
    JoinedTwo(v, sender, receiver);
    KeysLeft(v, sender, receiver);
    OneOutput(v.amount, blind);
    hide InputsOf, OutputsOf, BlindOf, Joined;
    assert Reduce(blind) == blind;
    hide Reduce;
  }

  lemma OneOutput(amount: nat, blind: Scalar)
    ensures InputsOf([OutputElement(amount, blind)]) == [] && OutputsOf([OutputElement(amount, blind)]) == [Commit(amount, blind)]
    ensures BlindOf([OutputElement(amount, blind)]) == blind && ValueOf([OutputElement(amount, blind)]) == amount
  {
    assert [OutputElement(amount, blind)][..0] == [];
  }

  /** The recipient's answer shows the proof of the sender what it needs. */
  lemma HonestPays(address: GrinboxAddress.Address, v: SlateData, sender: Party, blind: Scalar, slate: SlateData)
    requires slate.tx.inputs == InputsOf(sender.elements)
    requires slate.tx.outputs == OutputsOf(sender.elements) + [Commit(v.amount, blind)]
    requires |slate.participantData| == 2 && slate.participantData[1].publicBlindExcess == blind
    ensures PaysReceiver(SenderProof(address, v, sender), slate) <==> Commit(v.amount, blind) !in OutputsOf(sender.elements)
    ensures Commit(v.amount, blind) !in OutputsOf(sender.elements) ==>
      Without(slate.tx.outputs, OutputsOf(sender.elements)) == [Commit(v.amount, blind)]
  {
    hide Without, InputsOf, OutputsOf, Reduce, PaysReceiver;
    var c := Commit(v.amount, blind);
    NoneWithout(slate.tx.inputs, InputsOf(sender.elements));
    OneWithout(OutputsOf(sender.elements), c);
    OutputOrNothing(SenderProof(address, v, sender), slate, v.amount, blind);
  }

  lemma OutputOrNothing(proof: ProofData, slate: SlateData, amount: nat, blind: Scalar)
    requires |slate.participantData| >= 2 && slate.participantData[1].publicBlindExcess == blind && proof.amount == amount
    requires Without(slate.tx.inputs, proof.inputs) == []
    ensures Without(slate.tx.outputs, proof.outputs) == [Commit(amount, blind)] ==> PaysReceiver(proof, slate)
    ensures Without(slate.tx.outputs, proof.outputs) == [] ==> !PaysReceiver(proof, slate)
  {
    hide Without;
    SumsOfOne(Commit(amount, blind));
    ReduceTwice(amount);
    assert Blinds([]) == 0 && Values([]) == 0;
    CongruentDifference(0, blind);
    hide Values, Blinds;
  }

  lemma HonestBalances(v: SlateData, sender: Party, receiver: Party, w: SlateData)
    requires AfterRound1(v, [sender, receiver], w)
    requires Contributed([sender, receiver]) + v.fee == 0
    ensures Balances(w)
  {
    var values, keys := Values(w.tx.outputs) - Values(w.tx.inputs), Sum(w.PubBlinds());
    hide Values, Blinds, Contributed, EachJoined, Sum;
    CongruentSum(values, Contributed([sender, receiver]), v.fee, v.fee);
    CongruentSum(keys + w.tx.offset, Blinds(w.tx.outputs) - Blinds(w.tx.inputs), w.tx.offset, w.tx.offset);
    hide Reduce;
    assert keys + w.tx.offset - w.tx.offset == keys;
  }

  lemma ContributedByTwo(sender: Party, receiver: Party)
    ensures Contributed([sender, receiver]) == ValueOf(sender.elements) + ValueOf(receiver.elements)
  {
    assert [sender, receiver][..1] == [sender];
    assert [sender][..0] == [];
    assert Contributed([sender]) == ValueOf(sender.elements);
  }

  /** When the recipient has answered an honest sender, whose coins pay amount and fee,
      the sender's proof is accepted exactly when the recipient's output is not one of
      the sender's change outputs; it then names that output and the amount. */
  lemma HonestProofAccepted(e: Challenge, v: SlateData, sender: Party, receiver: Party, blind: Scalar, w: SlateData,
      address: GrinboxAddress.Address, destination: GrinboxAddress.Address)
    requires Fresh(v) && receiver.elements == [OutputElement(v.amount, blind)]
    requires Joined(v, [sender, receiver]) == Ok(w) && w.HasSums() && w.FeesPass()
    requires ValueOf(sender.elements) + v.amount + v.fee == 0
    ensures Contributes(e, v, sender, 0, true).Returns?
    ensures var answer := Contributes(e, Contributes(e, v, sender, 0, true).value, receiver, 1, false);
      && answer.Returns?
      && var verdict := VerifyTxProof(SenderProof(address, v, sender), Some((destination, answer.value)));
      && (verdict.Returns? <==> Commit(v.amount, blind) !in OutputsOf(sender.elements))
      && (verdict.Returns? ==>
            verdict.value == Verdict(destination, address, v.amount, [Commit(v.amount, blind)], Commitment(w.BlindSum().value, 0)))
  {
    hide *;
    var slate := RecipientAnswers(e, v, sender, receiver, w);
    JoinedAddsUp(v, [sender, receiver]);
    PartsOfRun(v, [sender, receiver], w);
    HonestTransaction(v, sender, receiver, blind, w);
    ContributedByTwo(sender, receiver);
    OneOutput(v.amount, blind);
    HonestBalances(v, sender, receiver, w);
    HonestPays(address, v, sender, blind, slate);
    AcceptedExactly(SenderProof(address, v, sender), destination, slate);
    SenderProofHas(address, v, sender);
  }

  lemma SenderProofHas(address: GrinboxAddress.Address, v: SlateData, sender: Party)
    ensures var p := SenderProof(address, v, sender);
      p.address == address && p.amount == v.amount && p.outputs == OutputsOf(sender.elements)
  {
  }

  /** Answering leaves transaction and keys as round 1 made them. */
  lemma RecipientAnswers(e: Challenge, v: SlateData, sender: Party, receiver: Party, w: SlateData) returns (slate: SlateData)
    requires Fresh(v) && Joined(v, [sender, receiver]) == Ok(w) && w.HasSums() && w.FeesPass()
    ensures Contributes(e, v, sender, 0, true).Returns?
    ensures Contributes(e, Contributes(e, v, sender, 0, true).value, receiver, 1, false) == Returns(slate)
    ensures slate.tx == w.tx && slate.fee == w.fee && slate.BlindSum() == w.BlindSum() && slate.PubBlinds() == w.PubBlinds()
    ensures |slate.participantData| == |w.participantData| == 2
    ensures slate.participantData[1].publicBlindExcess == w.participantData[1].publicBlindExcess
    ensures Balances(w) ==> Balances(slate)
  {
    hide KeysAddUp, ValuesAddUp, InputsOf, OutputsOf, BlindOf, Reduce, Joined, KeyAfter, Sum;
    var ps := [sender, receiver];
    JoinedTwo(v, sender, receiver);
    KeysLeft(v, sender, receiver);
    JoinedAddsUp(v, ps);
    slate := Signed(e, w, {1});
    OneMoreSigns(e, w, ps, {}, 1);
    SignedFrame(e, w);
    hide Joined, Join, KeyLeft, KeyAfter, KeysAddUp, ValuesAddUp, Signed, Combination, Contributed, Values, Blinds, Sum;
    hide SlateData.Round2, SlateData.HasSums, SlateData.FeesPass, SlateData.PubBlinds, SlateData.PubNonces;
  }

  lemma SignedFrame(e: Challenge, w: SlateData)
    requires w.HasSums() && |w.participantData| == 2
    ensures Signed(e, w, {}) == w && {} + {1} == {1}
    ensures var s := Signed(e, w, {1});
      && s.tx == w.tx && s.fee == w.fee && s.PubBlinds() == w.PubBlinds() && |s.participantData| == 2
      && s.participantData[1].publicBlindExcess == w.participantData[1].publicBlindExcess
  {
    assert Signed(e, w, {}).participantData == w.participantData;
    assert Signed(e, w, {1}).PubBlinds() == w.PubBlinds();
  }
}
