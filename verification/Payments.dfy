/** A payment from the choice of coins to the final transaction: what the selection
    decides (src/internal/selection.rs:233-448) against what the slate checks
    (src/wallet/types/slate/slate.rs:397-424, 545-593). */
module Payments {
  import opened Wrappers
  import opened Outputs
  import Funding
  import Numerals
  import opened Ledger
  import opened Curve
  import opened Sums
  import opened Slates
  import opened SlateRuns
  import opened TxProofs

  /** The key of a coin, derived from its path and value. */
  type Derivation = (Identifier, nat) -> Scalar

  function InputElements(derive: Derivation, coins: seq<OutputData>): seq<Element> {
    if coins == [] then []
    else
      var front, last := InputElements(derive, coins[..|coins| - 1]), coins[|coins| - 1];
      front + [InputElement(last.value, derive(last.keyId, last.value))]
  }

  function OutputElements(derive: Derivation, change: seq<ContextCoin>): seq<Element> {
    if change == [] then []
    else
      var front, last := OutputElements(derive, change[..|change| - 1]), change[|change| - 1];
      front + [OutputElement(last.2, derive(last.0, last.2))]
  }

  /** What the sender builds in: its coins, then its change. */
  function SenderElements(derive: Derivation, coins: seq<OutputData>, change: seq<ContextCoin>): seq<Element> {
    InputElements(derive, coins) + OutputElements(derive, change)
  }

  lemma AppendElement(elems: seq<Element>, x: Element)
    ensures ValueOf(elems + [x]) == ValueOf(elems) + if x.OutputElement? then x.value else 0 - x.value
    ensures |InputsOf(elems + [x])| == |InputsOf(elems)| + if x.InputElement? then 1 else 0
    ensures |OutputsOf(elems + [x])| == |OutputsOf(elems)| + if x.OutputElement? then 1 else 0
  {
    assert (elems + [x])[..|elems|] == elems;
  }

  lemma {:induction false} CoinsIn(derive: Derivation, coins: seq<OutputData>)
    ensures var elems := InputElements(derive, coins);
      ValueOf(elems) == 0 - Total(coins) && |InputsOf(elems)| == |coins| && |OutputsOf(elems)| == 0
  {
    if coins == [] {
    } else {
      var last := coins[|coins| - 1];
      CoinsIn(derive, coins[..|coins| - 1]);
      AppendElement(InputElements(derive, coins[..|coins| - 1]), InputElement(last.value, derive(last.keyId, last.value)));
      hide ValueOf, InputsOf, OutputsOf;
    }
  }

  lemma {:induction false} ChangeOut(derive: Derivation, coins: seq<OutputData>, change: seq<ContextCoin>)
    ensures var elems := SenderElements(derive, coins, change);
      && ValueOf(elems) == CoinSum(change) - Total(coins)
      && |InputsOf(elems)| == |coins| && |OutputsOf(elems)| == |change|
  {
    if change == [] {
      CoinsIn(derive, coins);
      assert SenderElements(derive, coins, change) == InputElements(derive, coins);
    } else {
      var front, last := change[..|change| - 1], change[|change| - 1];
      ChangeOut(derive, coins, front);
      assert SenderElements(derive, coins, change)
        == SenderElements(derive, coins, front) + [OutputElement(last.2, derive(last.0, last.2))];
      AppendElement(SenderElements(derive, coins, front), OutputElement(last.2, derive(last.0, last.2)));
      hide ValueOf, InputsOf, OutputsOf, InputElements, OutputElements, SenderElements;
    }
  }

  /** The sender builds in one input for each coin and one output for each change coin, in
      order, each with its own value and the key derived for it. */
  lemma {:induction false} InputsBuilt(derive: Derivation, coins: seq<OutputData>)
    ensures |InputElements(derive, coins)| == |coins|
    ensures forall i :: 0 <= i < |coins| ==>
      InputElements(derive, coins)[i] == InputElement(coins[i].value, derive(coins[i].keyId, coins[i].value))
  {
    if coins == [] {
    } else {
      InputsBuilt(derive, coins[..|coins| - 1]);
    }
  }

  lemma {:induction false} ChangeBuilt(derive: Derivation, change: seq<ContextCoin>)
    ensures |OutputElements(derive, change)| == |change|
    ensures forall i :: 0 <= i < |change| ==>
      OutputElements(derive, change)[i] == OutputElement(change[i].2, derive(change[i].0, change[i].2))
  {
    if change == [] {
    } else {
      ChangeBuilt(derive, change[..|change| - 1]);
    }
  }

  lemma SenderBuilds(derive: Derivation, coins: seq<OutputData>, change: seq<ContextCoin>)
    ensures var elems, n := SenderElements(derive, coins, change), |coins|;
      && |elems| == n + |change|
      && (forall i :: 0 <= i < n ==> elems[i] == InputElement(coins[i].value, derive(coins[i].keyId, coins[i].value)))
      && (forall i :: 0 <= i < |change| ==> elems[n + i] == OutputElement(change[i].2, derive(change[i].0, change[i].2)))
  {
    InputsBuilt(derive, coins);
    ChangeBuilt(derive, change);
    hide InputElements, OutputElements;
  }

  /** The change coins receive these amounts. */
  ghost predicate Receives(change: seq<ContextCoin>, amounts: seq<nat>) {
    |change| == |amounts| && forall i :: 0 <= i < |amounts| ==> change[i].2 == amounts[i]
  }

  lemma {:induction false} ReceivedSum(change: seq<ContextCoin>, amounts: seq<nat>)
    requires Receives(change, amounts)
    ensures CoinSum(change) == Sum(amounts)
  {
    if change == [] {
    } else {
      ReceivedSum(change[..|change| - 1], amounts[..|amounts| - 1]);
    }
  }

  /** A payment of `amount`: the chosen coins and fee, the change, the two parties. */
  datatype Payment = Payment(
    amount: nat,
    changeOutputs: nat,
    chosen: Funding.Selection,
    change: seq<ContextCoin>,
    sender: Party,
    receiver: Party)
  {
    function Remaining(): int {
      chosen.total - amount - chosen.fee
    }

    /** The slate the sender starts from, with its fee. */
    function Slate(): SlateData {
      SlateData(amount, chosen.fee, 0, EMPTY, [])
    }

    /** Coins and fee were chosen from `s`, the change was split, and the parties
        build in what was decided. */
    ghost predicate Decided(s: seq<OutputData>, maxOutputs: nat, selectAll: bool, derive: Derivation, blind: Scalar) {
      && Funding.Funded(s, amount, maxOutputs, changeOutputs, selectAll) == Ok(chosen)
      && Remaining() >= 0 && !Funding.SplitAborts(Remaining(), changeOutputs)
      && Receives(change, Funding.ChangeAmounts(Remaining(), changeOutputs))
      && sender.elements == SenderElements(derive, chosen.coins, change)
      && receiver.elements == [OutputElement(amount, blind)]
    }
  }

  /** What is missing from the balance is what splitting the change loses. */
  lemma MissingIsShortfall(p: Payment, s: seq<OutputData>, maxOutputs: nat, selectAll: bool, derive: Derivation, blind: Scalar)
    requires p.Decided(s, maxOutputs, selectAll, derive, blind)
    ensures Contributed([p.sender, p.receiver]) + p.chosen.fee == 0 - Funding.Shortfall(p.Remaining(), p.changeOutputs)
  {
    hide Funding.Funded, ValueOf, InputsOf, OutputsOf, SenderElements, CoinSum;
    Funding.FundedCovers(s, p.amount, maxOutputs, p.changeOutputs, selectAll);
    ContributedByTwo(p.sender, p.receiver);
    OneOutput(p.amount, blind);
    ChangeOut(derive, p.chosen.coins, p.change);
    ReceivedSum(p.change, Funding.ChangeAmounts(p.Remaining(), p.changeOutputs));
    Funding.ChangeConservation(p.Remaining(), p.changeOutputs);
    hide Funding.ChangeAmounts, Funding.Shortfall, Contributed, Sum, Total;
  }

  /** The fee the sender settled on passes the check in both parties' round 2. */
  lemma PaymentFeePasses(p: Payment, s: seq<OutputData>, maxOutputs: nat, selectAll: bool, derive: Derivation, blind: Scalar, w: SlateData)
    requires p.Decided(s, maxOutputs, selectAll, derive, blind)
    requires Joined(p.Slate(), [p.sender, p.receiver]) == Ok(w)
    ensures w.FeesPass()
  {
    hide Funding.Funded, ValueOf, InputsOf, OutputsOf, SenderElements, Joined, Receives;
    assert |p.change| == |Funding.ChangeAmounts(p.Remaining(), p.changeOutputs)| by {
      assert Receives(p.change, Funding.ChangeAmounts(p.Remaining(), p.changeOutputs));
      ReceivesLength(p.change, Funding.ChangeAmounts(p.Remaining(), p.changeOutputs));
    }
    Funding.FundedCovers(s, p.amount, maxOutputs, p.changeOutputs, selectAll);
    Funding.SenderFeePasses(s, p.amount, maxOutputs, p.changeOutputs, selectAll, p.chosen, p.Remaining());
    HonestTransaction(p.Slate(), p.sender, p.receiver, blind, w);
    ChangeOut(derive, p.chosen.coins, p.change);
    JoinedAddsUp(p.Slate(), [p.sender, p.receiver]);
    OneKernelFee(p.Slate().Features());
    hide Funding.CheckFees, Funding.ChangeAmounts, Contributed, EachJoined, KeysAddUp, ValuesAddUp;
  }

  lemma ReceivesLength(change: seq<ContextCoin>, amounts: seq<nat>)
    requires Receives(change, amounts)
    ensures |change| == |amounts|
  {
  }

  /** Splitting the change loses nothing: there is none, or its remainder is below the
      size of a part. */
  predicate SplitsEvenly(change: nat, n: nat) {
    change == 0 || (0 < n && change % n < change / n)
  }

  /** The exchange of a payment: both sign, and it is finalized exactly when splitting
      the change loses nothing and the final transaction is valid. */
  ghost predicate GoesThrough(e: Challenge, p: Payment, w: SlateData, valid: Transaction -> bool)
    requires p.Remaining() >= 0
  {
    assert Within([1, 0], 2);
    var signed := SignAll(e, w, [p.sender, p.receiver], [1, 0]);
    && signed.Returns? && signed.value.FinalSignature(e).Returns? && |signed.value.tx.kernels| == 1
    && (Exchange(e, p.Slate(), p.sender, p.receiver, valid).Returns? <==>
          SplitsEvenly(p.Remaining(), p.changeOutputs) && valid(signed.value.FinalTx(signed.value.FinalSignature(e).value)))
  }

  lemma PaymentGoesThrough(e: Challenge, p: Payment, s: seq<OutputData>, maxOutputs: nat, selectAll: bool,
      derive: Derivation, blind: Scalar, w: SlateData, valid: Transaction -> bool)
    requires p.Decided(s, maxOutputs, selectAll, derive, blind) && p.changeOutputs < U64
    requires Joined(p.Slate(), [p.sender, p.receiver]) == Ok(w) && w.HasSums()
    ensures p.Remaining() >= 0 && GoesThrough(e, p, w, valid)
  {
    hide *;
    DecidedFacts(p, s, maxOutputs, selectAll, derive, blind);
    PaymentFeePasses(p, s, maxOutputs, selectAll, derive, blind, w);
    MissingIsShortfall(p, s, maxOutputs, selectAll, derive, blind);
    ExchangeSucceeds(e, p.Slate(), p.sender, p.receiver, w, valid);
    LosesNothing(p.Remaining(), p.changeOutputs);
    Assemble(e, p, w, valid, Contributed([p.sender, p.receiver]) + p.chosen.fee);
  }

  lemma Assemble(e: Challenge, p: Payment, w: SlateData, valid: Transaction -> bool, total: int)
    requires p.Remaining() >= 0 && Within([1, 0], 2)
    requires SignAll(e, w, [p.sender, p.receiver], [1, 0]).Returns?
    requires var signed := SignAll(e, w, [p.sender, p.receiver], [1, 0]).value;
      && Finalizes(e, signed, total, w.BlindSum(), valid)
      && Exchange(e, p.Slate(), p.sender, p.receiver, valid) == signed.Finalized(e, valid)
    requires Congruent(total, 0) <==> SplitsEvenly(p.Remaining(), p.changeOutputs)
    ensures GoesThrough(e, p, w, valid)
  {
    hide SignAll, Exchange, SplitsEvenly, Congruent, SlateData.Finalized, SlateData.FinalSignature, SlateData.FinalTx, Excess, Combination;
  }

  lemma DecidedFacts(p: Payment, s: seq<OutputData>, maxOutputs: nat, selectAll: bool, derive: Derivation, blind: Scalar)
    requires p.Decided(s, maxOutputs, selectAll, derive, blind)
    ensures Fresh(p.Slate()) && p.Slate().fee == p.chosen.fee
    ensures p.Remaining() >= 0 && !Funding.SplitAborts(p.Remaining(), p.changeOutputs)
  {
  }

  lemma LosesNothing(change: nat, n: nat)
    requires !Funding.SplitAborts(change, n) && n < U64
    ensures Congruent(0 - Funding.Shortfall(change, n), 0) <==> SplitsEvenly(change, n)
  {
    ShortfallBound(change, n);
    BalanceIsExact(0 - Funding.Shortfall(change, n), 0);
    Funding.ChangeConservation(change, n);
    hide Funding.Shortfall, Funding.ChangeAmounts, Sum;
  }

  lemma ShortfallBound(change: nat, n: nat)
    requires !Funding.SplitAborts(change, n) && n < U64
    ensures 0 <= Funding.Shortfall(change, n) < ORDER
  {
    if change > 0 {
      Funding.PartIsPositive(change, n);
      Numerals.ModBound(n, change);
      Numerals.ModBound(change / n, change % n);
    }
  }
}
