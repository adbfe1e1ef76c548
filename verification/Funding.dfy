/** Fees, funding a payment and splitting its change (src/internal/selection.rs:279-448),
    and the fee check of the slate (src/wallet/types/slate/slate.rs:397-424). */
module Funding {
  import opened Wrappers
  import opened Outputs
  import opened CoinSelection
  import opened Sums
  import Numerals

  /** `grin_core::libtx::tx_fee` is not part of this model; this is its weight
      formula. Only the three facts below are used of it. */
  const BASE_FEE: nat := 1_000_000

  function TxFee(inputs: nat, outputs: nat, kernels: nat): nat {
    var weight := 4 * outputs + kernels - inputs;
    BASE_FEE * (if weight < 1 then 1 else weight)
  }

  lemma FeeFacts(inputs: nat, outputs: nat, inputs': nat, outputs': nat)
    requires inputs' <= inputs && outputs <= outputs'
    ensures 0 < TxFee(inputs, outputs, 1) <= TxFee(inputs', outputs', 1)
  {
  }

  lemma FeeExamples()
    ensures TxFee(1, 1, 1) == 4_000_000 && TxFee(1, 2, 1) == 8_000_000 && TxFee(2, 2, 1) == 7_000_000 && TxFee(500, 1, 1) == 1_000_000
  {
  }

  // ----- choosing coins and fee

  datatype Selection = Selection(coins: seq<OutputData>, total: nat, amount: nat, fee: nat)
  datatype NotEnoughFunds = NotEnoughFunds(available: nat, needed: nat)

  function FeeWithChange(coins: seq<OutputData>, changeOutputs: nat): nat {
    TxFee(|coins|, changeOutputs + 1, 1)
  }

  function Select(coins: seq<OutputData>, amount: nat, fee: nat): Selection {
    Selection(coins, Total(coins), amount, fee)
  }

  /** The loop's answer when `first` is selected first and `again` would be
      selected next. */
  function Retried(first: seq<OutputData>, again: seq<OutputData>, available: nat, amount: nat, changeOutputs: nat)
    : Result<Selection, NotEnoughFunds>
  {
    var fee, fee' := FeeWithChange(first, changeOutputs), FeeWithChange(again, changeOutputs);
    if Total(first) >= amount + fee then Ok(Select(first, amount, fee))
    else if |first| == available then Err(NotEnoughFunds(Total(first), amount + fee))
    else if Total(again) >= amount + fee' then Ok(Select(again, amount, fee'))
    else Err(NotEnoughFunds(Total(again), amount + fee'))
  }

  function FundedFrom(first: seq<OutputData>, again: seq<OutputData>, available: nat, amount: nat, changeOutputs: nat)
    : Result<Selection, NotEnoughFunds>
  {
    var bareFee := TxFee(|first|, 1, 1);
    if Total(first) == 0 then Err(NotEnoughFunds(0, amount + bareFee))
    else if Total(first) < amount + bareFee && |first| == available then
      Err(NotEnoughFunds(Total(first), amount + bareFee))
    else if Total(first) == amount + bareFee then Ok(Select(first, amount, bareFee))
    else Retried(first, again, available, amount, changeOutputs)
  }

  /** What choosing coins and fee comes to: it selects again at most once. */
  ghost function Funded(s: seq<OutputData>, amount: nat, maxOutputs: nat, changeOutputs: nat, selectAll: bool)
    : Result<Selection, NotEnoughFunds>
  {
    var first := Selected(s, amount, maxOutputs, selectAll);
    var again := Selected(s, amount + FeeWithChange(first, changeOutputs), |s|, selectAll);
    FundedFrom(first, again, |s|, amount, changeOutputs)
  }

  /** Selecting again for a larger target, without a limit on the number of coins,
      takes more coins than the selection it replaces and reaches the target, or
      takes all eligible coins. */
  lemma ReselectionGrows(s: seq<OutputData>, coins: seq<OutputData>, target: nat, selectAll: bool)
    requires SortedByValue(s) && SubCollection(coins, s) && Total(coins) < target
    ensures var again := Selected(s, target, |s|, selectAll);
      |again| == |s| || (|again| > |coins| && Total(again) >= target)
  {
    if Total(s) >= target && !selectAll {
      SelectedFromReaches(target, selectAll, s);
      var n := ReachingLength(s, target, 0);
      SubCollectionIsShorter(coins, s);
      SmallestAreWorthLeast(s, coins);
      if n <= |coins| {
        ShorterIsWorthLess(s, n, |coins|);
      }
    }
  }

  lemma {:induction false} ShorterIsWorthLess(s: seq<OutputData>, m: nat, n: nat)
    requires m <= n <= |s|
    ensures Total(s[..m]) <= Total(s[..n])
  {
    assert s[..n] == s[..m] + s[m..n];
    TotalConcat(s[..m], s[m..n]);
  }

  /** The loop that selects coins again while amount and fee are not covered. */
  method Retry(outputs: seq<OutputData>, amount: nat, currentHeight: nat, minimumConfirmations: nat,
      changeOutputs: nat, selectAll: bool, parent: Identifier, available: nat, first: seq<OutputData>)
    returns (r: Result<Selection, NotEnoughFunds>)
    requires var s := SortByValue(Eligible(outputs, parent, currentHeight, minimumConfirmations));
      available == |s| && SubCollection(first, s)
    ensures var s := SortByValue(Eligible(outputs, parent, currentHeight, minimumConfirmations));
      r == Retried(first, Selected(s, amount + FeeWithChange(first, changeOutputs), |s|, selectAll),
                   available, amount, changeOutputs)
  {
    hide Selected, SortByValue, Eligible;
    ghost var s := SortByValue(Eligible(outputs, parent, currentHeight, minimumConfirmations));
    ghost var again := Selected(s, amount + FeeWithChange(first, changeOutputs), available, selectAll);
    SortIsSorted(Eligible(outputs, parent, currentHeight, minimumConfirmations));
    SortKeepsLength(Eligible(outputs, parent, currentHeight, minimumConfirmations));
    RetryIsEnough(s, first, again, amount, changeOutputs, selectAll);
    var coins, total, fee := first, Total(first), FeeWithChange(first, changeOutputs);
    var amountWithFee := amount + fee;
    ghost var retried := false;
    while total < amountWithFee
      invariant total == Total(coins) && fee == FeeWithChange(coins, changeOutputs) && amountWithFee == amount + fee
      invariant !retried ==> coins == first
      invariant retried ==> coins == again && |first| != available && Total(first) < amount + FeeWithChange(first, changeOutputs)
      decreases !retried
    {
      if |coins| == available {
        return Err(NotEnoughFunds(total, amountWithFee));
      }
      var _, reselected := SelectCoins(outputs, amountWithFee, currentHeight, minimumConfirmations, available, selectAll, parent);
      coins := reselected;
      fee := FeeWithChange(coins, changeOutputs);
      total := Total(coins);
      amountWithFee := amount + fee;
      retried := true;
    }
    return Ok(Selection(coins, total, amount, fee));
  }

  /** After selecting again either amount and fee are covered or no coin is left. */
  lemma RetryIsEnough(s: seq<OutputData>, first: seq<OutputData>, again: seq<OutputData>, amount: nat,
      changeOutputs: nat, selectAll: bool)
    requires SortedByValue(s) && SubCollection(first, s)
    requires again == Selected(s, amount + FeeWithChange(first, changeOutputs), |s|, selectAll)
    ensures Total(first) < amount + FeeWithChange(first, changeOutputs) ==>
      |again| == |s| || (|again| > |first| && Total(again) >= amount + FeeWithChange(again, changeOutputs))
  {
    var target := amount + FeeWithChange(first, changeOutputs);
    if Total(first) < target {
      ReselectionGrows(s, first, target, selectAll);
      FeeShrinks(|first|, |again|, changeOutputs);
    }
  }

  lemma FeeShrinks(n: nat, n': nat, changeOutputs: nat)
    ensures n <= n' ==> TxFee(n', changeOutputs + 1, 1) <= TxFee(n, changeOutputs + 1, 1)
  {
  }

  method SelectCoinsAndFee(outputs: seq<OutputData>, amount: nat, currentHeight: nat, minimumConfirmations: nat,
      maxOutputs: nat, changeOutputs: nat, selectAll: bool, parent: Identifier)
    returns (r: Result<Selection, NotEnoughFunds>)
    requires maxOutputs >= 1 || Eligible(outputs, parent, currentHeight, minimumConfirmations) == []
    ensures r == Funded(SortByValue(Eligible(outputs, parent, currentHeight, minimumConfirmations)),
                        amount, maxOutputs, changeOutputs, selectAll)
  {
    hide Selected, SortByValue, Eligible;
    SelectedIsSubCollection(SortByValue(Eligible(outputs, parent, currentHeight, minimumConfirmations)),
                            amount, maxOutputs, selectAll);
    var available, coins := SelectCoins(outputs, amount, currentHeight, minimumConfirmations, maxOutputs, selectAll, parent);
    var fee := TxFee(|coins|, 1, 1);
    var total := Total(coins);
    var amountWithFee := amount + fee;
    if total == 0 {
      return Err(NotEnoughFunds(0, amountWithFee));
    }
    if total < amountWithFee && |coins| == available {
      return Err(NotEnoughFunds(total, amountWithFee));
    }
    if total == amountWithFee {
      return Ok(Selection(coins, total, amount, fee));
    }
    r := Retry(outputs, amount, currentHeight, minimumConfirmations, changeOutputs, selectAll, parent, available, coins);
  }

  // ----- what funding promises

  /** A funded payment covers amount and fee with eligible coins. Its fee is the one
      with change outputs, or the one without when it leaves no change. */
  lemma FundedCovers(s: seq<OutputData>, amount: nat, maxOutputs: nat, changeOutputs: nat, selectAll: bool)
    requires Funded(s, amount, maxOutputs, changeOutputs, selectAll).Ok?
    ensures var f := Funded(s, amount, maxOutputs, changeOutputs, selectAll).value;
      && SubCollection(f.coins, s) && f.amount == amount
      && f.total == Total(f.coins) >= amount + f.fee
      && (|| f.fee == FeeWithChange(f.coins, changeOutputs)
          || (f.fee == TxFee(|f.coins|, 1, 1) && f.total == amount + f.fee))
    ensures FeeWithChange(Funded(s, amount, maxOutputs, changeOutputs, selectAll).value.coins, changeOutputs)
      == TxFee(|Funded(s, amount, maxOutputs, changeOutputs, selectAll).value.coins|, changeOutputs + 1, 1)
  {
    hide Selected;
    var first := Selected(s, amount, maxOutputs, selectAll);
    var target := amount + FeeWithChange(first, changeOutputs);
    SelectedIsSubCollection(s, amount, maxOutputs, selectAll);
    SelectedIsSubCollection(s, target, |s|, selectAll);
    CoversEither(first, Selected(s, target, |s|, selectAll), |s|, amount, changeOutputs);
  }

  lemma CoversEither(first: seq<OutputData>, again: seq<OutputData>, available: nat, amount: nat, changeOutputs: nat)
    requires FundedFrom(first, again, available, amount, changeOutputs).Ok?
    ensures var f := FundedFrom(first, again, available, amount, changeOutputs).value;
      && (f.coins == first || f.coins == again) && f.amount == amount
      && f.total == Total(f.coins) >= amount + f.fee
      && (|| f.fee == FeeWithChange(f.coins, changeOutputs)
          || (f.fee == TxFee(|f.coins|, 1, 1) && f.total == amount + f.fee))
  {
  }

  /** A refusal names what all eligible coins are worth, or nothing if the first selection is
      worth nothing, and what would be needed: the amount with the fee of as many coins,
      without change if that would have been too much already. */
  lemma RefusalNames(s: seq<OutputData>, amount: nat, maxOutputs: nat, changeOutputs: nat, selectAll: bool)
    requires SortedByValue(s) && (maxOutputs >= 1 || s == [])
    requires Funded(s, amount, maxOutputs, changeOutputs, selectAll).Err?
    ensures var e := Funded(s, amount, maxOutputs, changeOutputs, selectAll).error;
      var first := Selected(s, amount, maxOutputs, selectAll);
      && e.available < e.needed
      && e == if Total(first) == 0 then NotEnoughFunds(0, amount + TxFee(|first|, 1, 1))
              else if |first| == |s| && Total(s) < amount + TxFee(|s|, 1, 1) then NotEnoughFunds(Total(s), amount + TxFee(|s|, 1, 1))
              else NotEnoughFunds(Total(s), amount + TxFee(|s|, changeOutputs + 1, 1))
  {
    hide *;
    var first := Selected(s, amount, maxOutputs, selectAll);
    var target := amount + FeeWithChange(first, changeOutputs);
    var again := Selected(s, target, |s|, selectAll);
    SelectedIsSubCollection(s, amount, maxOutputs, selectAll);
    WholeCollection(s, first);
    SelectedIsSubCollection(s, target, |s|, selectAll);
    WholeCollection(s, again);
    RetryIsEnough(s, first, again, amount, changeOutputs, selectAll);
    FundedParts(s, amount, maxOutputs, changeOutputs, selectAll);
    RefusalOf(s, first, again, amount, changeOutputs);
  }

  lemma RefusalOf(s: seq<OutputData>, first: seq<OutputData>, again: seq<OutputData>, amount: nat, changeOutputs: nat)
    requires FundedFrom(first, again, |s|, amount, changeOutputs).Err?
    requires |first| <= |s| && (|first| == |s| ==> Total(first) == Total(s))
    requires |again| <= |s| && (|again| == |s| ==> Total(again) == Total(s))
    requires Total(first) < amount + FeeWithChange(first, changeOutputs) ==>
      |again| == |s| || (|again| > |first| && Total(again) >= amount + FeeWithChange(again, changeOutputs))
    ensures var e := FundedFrom(first, again, |s|, amount, changeOutputs).error;
      && e.available < e.needed
      && e == if Total(first) == 0 then NotEnoughFunds(0, amount + TxFee(|first|, 1, 1))
              else if |first| == |s| && Total(s) < amount + TxFee(|s|, 1, 1) then NotEnoughFunds(Total(s), amount + TxFee(|s|, 1, 1))
              else NotEnoughFunds(Total(s), amount + TxFee(|s|, changeOutputs + 1, 1))
  {
    FeeFacts(|first|, 1, |first|, changeOutputs + 1);
    FeeFacts(|again|, 1, |again|, changeOutputs + 1);
  }

  /** The first selection pays amount and fee without change. */
  ghost predicate SpentExactly(s: seq<OutputData>, amount: nat, maxOutputs: nat, selectAll: bool) {
    var coins := Selected(s, amount, maxOutputs, selectAll);
    Total(coins) == amount + TxFee(|coins|, 1, 1)
  }

  /** An amount of zero is funded with nothing, unless all coins are asked for: then with
      the smallest ones. */
  lemma FirstOfNothing(s: seq<OutputData>, maxOutputs: nat, selectAll: bool)
    requires maxOutputs >= 1 || s == []
    ensures Selected(s, 0, maxOutputs, selectAll)
      == if selectAll then s[..if |s| < maxOutputs then |s| else maxOutputs] else []
  {
    hide Total;
    assert s[..|s|] == s && s[..0] == [];
  }

  /** No coin is selected at first, or only coins without value. */
  ghost predicate StartsWithNothing(s: seq<OutputData>, amount: nat, maxOutputs: nat, selectAll: bool) {
    amount == 0 && (selectAll ==> Total(s[..if |s| < maxOutputs then |s| else maxOutputs]) == 0)
  }

  lemma NothingAtFirst(s: seq<OutputData>, amount: nat, maxOutputs: nat, selectAll: bool)
    requires maxOutputs >= 1 || s == []
    ensures StartsWithNothing(s, amount, maxOutputs, selectAll)
      <==> amount == 0 && Total(Selected(s, amount, maxOutputs, selectAll)) == 0
  {
    if amount == 0 {
      FirstOfNothing(s, maxOutputs, selectAll);
      assert Total([]) == 0;
    }
    hide Selected, Total;
  }

  /** Funding fails exactly when all eligible coins together do not cover the amount
      and the fee of spending them all with change, unless the first selection
      happens to be spent exactly; and for an amount of zero, when nothing is selected
      at first. */
  lemma FundingIsComplete(s: seq<OutputData>, amount: nat, maxOutputs: nat, changeOutputs: nat, selectAll: bool)
    requires SortedByValue(s) && (maxOutputs >= 1 || s == [])
    ensures Funded(s, amount, maxOutputs, changeOutputs, selectAll).Err? <==>
      || StartsWithNothing(s, amount, maxOutputs, selectAll)
      || (Total(s) < amount + FeeWithChange(s, changeOutputs) && !SpentExactly(s, amount, maxOutputs, selectAll))
  {
    hide *;
    var first := Selected(s, amount, maxOutputs, selectAll);
    var target := amount + FeeWithChange(first, changeOutputs);
    var again := Selected(s, target, |s|, selectAll);
    NothingAtFirst(s, amount, maxOutputs, selectAll);
    SelectedIsSubCollection(s, amount, maxOutputs, selectAll);
    SelectedReaches(s, amount, maxOutputs, selectAll);
    WholeCollection(s, first);
    SelectedIsSubCollection(s, target, |s|, selectAll);
    WholeCollection(s, again);
    RetryIsEnough(s, first, again, amount, changeOutputs, selectAll);
    FailureOf(s, first, again, amount, changeOutputs);
    FundedParts(s, amount, maxOutputs, changeOutputs, selectAll);
  }

  lemma FundedParts(s: seq<OutputData>, amount: nat, maxOutputs: nat, changeOutputs: nat, selectAll: bool)
    ensures var first := Selected(s, amount, maxOutputs, selectAll);
      var again := Selected(s, amount + FeeWithChange(first, changeOutputs), |s|, selectAll);
      && Funded(s, amount, maxOutputs, changeOutputs, selectAll) == FundedFrom(first, again, |s|, amount, changeOutputs)
      && (SpentExactly(s, amount, maxOutputs, selectAll) <==> Total(first) == amount + TxFee(|first|, 1, 1))
  {
    hide Selected, Total, FundedFrom, FeeWithChange, TxFee;
  }

  lemma FailureOf(s: seq<OutputData>, first: seq<OutputData>, again: seq<OutputData>, amount: nat, changeOutputs: nat)
    requires Total(first) >= amount <==> Total(s) >= amount
    requires |first| <= |s| && Total(first) <= Total(s) && (|first| == |s| ==> Total(first) == Total(s))
    requires |again| <= |s| && Total(again) <= Total(s) && (|again| == |s| ==> Total(again) == Total(s))
    requires Total(first) < amount + FeeWithChange(first, changeOutputs) ==>
      |again| == |s| || (|again| > |first| && Total(again) >= amount + FeeWithChange(again, changeOutputs))
    ensures FundedFrom(first, again, |s|, amount, changeOutputs).Err? <==>
      || (amount == 0 && Total(first) == 0)
      || (Total(s) < amount + FeeWithChange(s, changeOutputs) && Total(first) != amount + TxFee(|first|, 1, 1))
  {
    FeeShrinks(|first|, |s|, changeOutputs);
    FeeShrinks(|again|, |s|, changeOutputs);
    FeeFacts(|first|, 1, |first|, changeOutputs + 1);
  }

  /** A sub-collection is worth no more than the whole, and as many coins are all
      the coins. */
  lemma WholeCollection(s: seq<OutputData>, t: seq<OutputData>)
    requires SortedByValue(s) && SubCollection(t, s)
    ensures |t| <= |s| && Total(t) <= Total(s)
    ensures |t| == |s| ==> Total(t) == Total(s)
  {
    SubCollectionIsShorter(t, s);
    LargestAreWorthMost(s, t, |s|);
    assert s[0..] == s;
    SmallestAreWorthLeast(s, t);
    assert s[..|s|] == s;
  }

  // ----- splitting the change

  /** The change output number `x` of `n`. The remainder added to the last one is
      taken by the size of a part, not by the number of parts. */
  function ChangeAmount(change: nat, n: nat, x: nat): nat
    requires 0 < n <= change
  {
    PartIsPositive(change, n);
    var part := change / n;
    if x == n - 1 then part + change % part else part
  }

  lemma PartIsPositive(change: nat, n: nat)
    requires 0 < n <= change
    ensures change / n >= 1
  {
    Numerals.ModBound(n, change);
  }

  /** Splitting aborts when there is change but not one unit of it for each output:
      both remainders then divide by zero. */
  predicate SplitAborts(change: nat, n: nat) {
    change != 0 && (n == 0 || change < n)
  }

  function ChangeAmounts(change: nat, n: nat): (r: seq<nat>)
    requires !SplitAborts(change, n)
    ensures |r| == if change == 0 then 0 else n
  {
    if change == 0 then [] else seq(n, x requires 0 <= x < n => ChangeAmount(change, n, x))
  }

  /** The part of the change that no output receives. */
  function Shortfall(change: nat, n: nat): nat
    requires !SplitAborts(change, n)
  {
    if change == 0 then 0 else
      PartIsPositive(change, n);
      change % n - change % n % (change / n)
  }

  lemma {:induction false} SumOfEqualParts(amounts: seq<nat>, part: nat)
    requires forall x :: 0 <= x < |amounts| ==> amounts[x] == part
    ensures Sum(amounts) == |amounts| * part
  {
    if amounts == [] {
    } else {
      SumOfEqualParts(amounts[..|amounts| - 1], part);
      assert |amounts| * part == (|amounts| - 1) * part + part;
    }
  }

  lemma RemainderByPart(q: nat, r: nat, part: nat)
    requires part > 0
    ensures (q * part + r) % part == r % part
  {
    Numerals.ModBound(part, r);
    Numerals.DivModUnique(part, q + r / part, r % part);
    assert (q + r / part) * part == q * part + r / part * part;
  }

  /** The outputs receive the change less the shortfall; nothing is missing exactly
      when the remainder is below the size of a part, as it is whenever the change
      is at least the square of the number of outputs. */
  lemma ChangeConservation(change: nat, n: nat)
    requires !SplitAborts(change, n)
    ensures Sum(ChangeAmounts(change, n)) + Shortfall(change, n) == change
    ensures Sum(ChangeAmounts(change, n)) == change <==> change == 0 || change % n < change / n
    ensures change >= n * n ==> Sum(ChangeAmounts(change, n)) == change
  {
    if change > 0 {
      PartIsPositive(change, n);
      SumOfChange(change, n);
      RemainderIsKept(change % n, change / n);
      SquareLeavesLargeParts(change, n);
    }
  }

  /** Every output receives the same part, and the last one the remainder of the change by
      that part on top. */
  lemma ChangeIsSplit(change: nat, n: nat, x: nat)
    requires !SplitAborts(change, n)
    ensures |ChangeAmounts(change, n)| == if change == 0 then 0 else n
    ensures change > 0 && x < n ==>
      && change / n > 0
      && ChangeAmounts(change, n)[x] == change / n + if x == n - 1 then change % (change / n) else 0
  {
    if change > 0 {
      PartIsPositive(change, n);
    }
  }

  lemma SumOfChange(change: nat, n: nat)
    requires 0 < n <= change && change / n > 0
    ensures Sum(ChangeAmounts(change, n)) == change - change % n + change % n % (change / n)
  {
    var part, r := change / n, change % n;
    var amounts := ChangeAmounts(change, n);
    SumOfEqualParts(amounts[..n - 1], part);
    assert Sum(amounts) == (n - 1) * part + (part + change % part);
    OnePartMore(n, part);
    Numerals.ModBound(n, change);
    RemainderByPart(n, r, part);
  }

  lemma OnePartMore(n: nat, part: nat)
    requires n > 0
    ensures (n - 1) * part + part == n * part == part * n
  {
  }

  lemma RemainderIsKept(r: nat, part: nat)
    requires part > 0
    ensures r % part == r <==> r < part
  {
    Numerals.ModBound(part, r);
    if r < part {
      Numerals.DivModUnique(part, 0, r);
    }
  }

  lemma SquareLeavesLargeParts(change: nat, n: nat)
    requires 0 < n
    ensures change >= n * n ==> change / n >= n > change % n
  {
    Numerals.ModBound(n, change);
    if change / n < n {
      Numerals.MulMonotone(change / n + 1, n, n, n);
    }
  }

  // ----- the fee check

  /** What a party checks before it signs: inputs, outputs and kernels of the
      transaction against the fee in its kernel, and against amount and fee of the
      slate. */
  predicate CheckFees(inputs: nat, outputs: nat, kernels: nat, kernelFee: nat, amount: nat, fee: nat) {
    var needed := TxFee(inputs, outputs, kernels);
    needed <= kernelFee && needed <= amount + fee
  }

  /** The fee a sender settles on passes the check after the recipient has added its
      output, with change, without change and spent exactly alike. */
  lemma SenderFeePasses(s: seq<OutputData>, amount: nat, maxOutputs: nat, changeOutputs: nat, selectAll: bool,
      f: Selection, change: nat)
    requires Funded(s, amount, maxOutputs, changeOutputs, selectAll) == Ok(f)
    requires f.total == amount + f.fee + change && !SplitAborts(change, changeOutputs)
    ensures CheckFees(|f.coins|, |ChangeAmounts(change, changeOutputs)| + 1, 1, f.fee, amount, f.fee)
  {
    hide Funded;
    FundedCovers(s, amount, maxOutputs, changeOutputs, selectAll);
    FeeFacts(|f.coins|, 1, |f.coins|, changeOutputs + 1);
  }
}
