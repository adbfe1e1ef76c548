/** The summary of an account (src/internal/updater.rs:384-444). */
module Summary {
  import opened Outputs
  import opened CoinSelection
  import opened Sums

  datatype WalletInfo = WalletInfo(
    lastConfirmedHeight: nat,
    minimumConfirmations: nat,
    total: nat,
    amountAwaitingFinalization: nat,
    amountAwaitingConfirmation: nat,
    amountImmature: nat,
    amountLocked: nat,
    amountCurrentlySpendable: nat)

  /** The outputs stored, each once. */
  ghost predicate Enumerates(outs: seq<OutputData>, m: map<OutputKey, OutputData>) {
    Lists(outs, KeysOf(outs), m)
  }

  function KeysOf(outs: seq<OutputData>): (r: seq<OutputKey>)
    ensures |r| == |outs|
  {
    seq(|outs|, i requires 0 <= i < |outs| => outs[i].Key())
  }

  /** The account an output is summed for, the height and the confirmations asked. */
  datatype Query = Query(parent: Identifier, height: nat, minimumConfirmations: nat) {
    predicate Immature(o: OutputData) {
      o.status == Unspent && o.isCoinbase && o.lockHeight > height
    }

    predicate Young(o: OutputData) {
      o.status == Unspent && !(o.isCoinbase && o.lockHeight > height) && o.NumConfirmations(height) < minimumConfirmations
    }

    predicate Ripe(o: OutputData) {
      o.status == Unspent && !(o.isCoinbase && o.lockHeight > height) && o.NumConfirmations(height) >= minimumConfirmations
    }

    predicate Pending(o: OutputData) {
      o.status == Unconfirmed && !o.isCoinbase
    }

    function Worth(o: OutputData, counted: bool): nat {
      if o.rootKeyId == parent && counted then o.value else 0
    }

    function SpendableValue(): OutputData -> nat {
      (o: OutputData) => Worth(o, Ripe(o))
    }

    function ImmatureValue(): OutputData -> nat {
      (o: OutputData) => Worth(o, Immature(o))
    }

    function UnconfirmedValue(): OutputData -> nat {
      (o: OutputData) => Worth(o, Young(o) || (Pending(o) && minimumConfirmations == 0))
    }

    function TotalValue(): OutputData -> nat {
      (o: OutputData) => Worth(o, Ripe(o) || Young(o) || (Pending(o) && minimumConfirmations == 0) || Immature(o))
    }

    function AwaitingValue(): OutputData -> nat {
      (o: OutputData) => Worth(o, Pending(o) && minimumConfirmations > 0)
    }

    function LockedValue(): OutputData -> nat {
      (o: OutputData) => Worth(o, o.status == Locked)
    }

    /** Everything but spent outputs and coinbases not mined. */
    function OwnedValue(): OutputData -> nat {
      (o: OutputData) => Worth(o, o.status != Spent && !(o.status == Unconfirmed && o.isCoinbase))
    }

    /** What coin selection may spend. */
    function EligibleValue(): OutputData -> nat {
      (o: OutputData) => Worth(o, o.EligibleToSpend(height, minimumConfirmations))
    }

    /** What the summary calls spendable although its lock height is not reached. */
    function TimeLockedValue(): OutputData -> nat {
      (o: OutputData) => Worth(o, Ripe(o) && o.lockHeight > height)
    }

    /** What may be spent unconfirmed. */
    function SpendablePendingValue(): OutputData -> nat {
      (o: OutputData) => Worth(o, Pending(o) && minimumConfirmations == 0 && o.lockHeight <= height)
    }
  }

  /** The summary as sums over the store. */
  ghost function InfoOf(m: map<OutputKey, OutputData>, q: Query): WalletInfo {
    var spendable, immature := SumOf(m, q.SpendableValue()), SumOf(m, q.ImmatureValue());
    var unconfirmed := SumOf(m, q.UnconfirmedValue());
    WalletInfo(q.height, q.minimumConfirmations, spendable + unconfirmed + immature,
               SumOf(m, q.AwaitingValue()), unconfirmed, immature, SumOf(m, q.LockedValue()), spendable)
  }

  lemma OneMore(outs: seq<OutputData>, i: nat, f: OutputData -> nat)
    requires i < |outs|
    ensures SumSeq(outs[..i + 1], f) == SumSeq(outs[..i], f) + f(outs[i])
  {
    assert outs[..i + 1][..i] == outs[..i];
  }

  /** What the loop has added up once `outs` is visited. */
  ghost predicate AddedUp(outs: seq<OutputData>, q: Query, unspent: nat, immature: nat, awaiting: nat, unconfirmed: nat, locked: nat) {
    && unspent == SumSeq(outs, q.SpendableValue()) && immature == SumSeq(outs, q.ImmatureValue())
    && awaiting == SumSeq(outs, q.AwaitingValue()) && unconfirmed == SumSeq(outs, q.UnconfirmedValue())
    && locked == SumSeq(outs, q.LockedValue())
  }

  lemma NothingAdded(q: Query)
    ensures AddedUp([], q, 0, 0, 0, 0, 0)
  {
  }

  lemma OneMoreAdded(outs: seq<OutputData>, i: nat, q: Query, unspent: nat, immature: nat, awaiting: nat, unconfirmed: nat, locked: nat)
    requires i < |outs| && AddedUp(outs[..i], q, unspent, immature, awaiting, unconfirmed, locked)
    ensures var o := outs[i];
      AddedUp(outs[..i + 1], q, unspent + q.Worth(o, q.Ripe(o)), immature + q.Worth(o, q.Immature(o)),
              awaiting + q.Worth(o, q.Pending(o) && q.minimumConfirmations > 0),
              unconfirmed + q.Worth(o, q.Young(o) || (q.Pending(o) && q.minimumConfirmations == 0)),
              locked + q.Worth(o, o.status == Locked))
  {
    hide SumSeq, Query.Worth, Query.Ripe, Query.Immature, Query.Pending, Query.Young;
    OneMore(outs, i, q.SpendableValue());
    OneMore(outs, i, q.ImmatureValue());
    OneMore(outs, i, q.AwaitingValue());
    OneMore(outs, i, q.UnconfirmedValue());
    OneMore(outs, i, q.LockedValue());
  }

  lemma AddedUpIsInfo(outs: seq<OutputData>, q: Query, m: map<OutputKey, OutputData>, unspent: nat, immature: nat, awaiting: nat,
      unconfirmed: nat, locked: nat)
    requires Enumerates(outs, m) && AddedUp(outs, q, unspent, immature, awaiting, unconfirmed, locked)
    ensures InfoOf(m, q) == WalletInfo(q.height, q.minimumConfirmations, unspent + unconfirmed + immature,
                                       awaiting, unconfirmed, immature, locked, unspent)
  {
    hide SumSeq, SumOf, Lists;
    SumListed(outs, KeysOf(outs), m, q.SpendableValue());
    SumListed(outs, KeysOf(outs), m, q.ImmatureValue());
    SumListed(outs, KeysOf(outs), m, q.AwaitingValue());
    SumListed(outs, KeysOf(outs), m, q.UnconfirmedValue());
    SumListed(outs, KeysOf(outs), m, q.LockedValue());
  }

  /** The loop over the outputs of the account. */
  method RetrieveInfo(outs: seq<OutputData>, q: Query, ghost m: map<OutputKey, OutputData>) returns (info: WalletInfo)
    requires Enumerates(outs, m)
    ensures info == InfoOf(m, q)
  {
    hide AddedUp, InfoOf, Enumerates;
    var unspentTotal: nat, immatureTotal: nat, awaitingTotal: nat, unconfirmedTotal: nat, lockedTotal: nat := 0, 0, 0, 0, 0;
    NothingAdded(q);
    var i := 0;
    while i < |outs|
      invariant i <= |outs|
      invariant AddedUp(outs[..i], q, unspentTotal, immatureTotal, awaitingTotal, unconfirmedTotal, lockedTotal)
    {
      var out := outs[i];
      OneMoreAdded(outs, i, q, unspentTotal, immatureTotal, awaitingTotal, unconfirmedTotal, lockedTotal);
      if out.rootKeyId == q.parent {
        match out.status
        case Unspent =>
          if out.isCoinbase && out.lockHeight > q.height {
            immatureTotal := immatureTotal + out.value;
          } else if out.NumConfirmations(q.height) < q.minimumConfirmations {
            unconfirmedTotal := unconfirmedTotal + out.value;
          } else {
            unspentTotal := unspentTotal + out.value;
          }
        case Unconfirmed =>
          if !out.isCoinbase {
            if q.minimumConfirmations == 0 {
              unconfirmedTotal := unconfirmedTotal + out.value;
            } else {
              awaitingTotal := awaitingTotal + out.value;
            }
          }
        case Locked =>
          lockedTotal := lockedTotal + out.value;
        case Spent =>
      }
      i := i + 1;
    }
    assert outs[..i] == outs;
    AddedUpIsInfo(outs, q, m, unspentTotal, immatureTotal, awaitingTotal, unconfirmedTotal, lockedTotal);
    info := WalletInfo(q.height, q.minimumConfirmations, unspentTotal + unconfirmedTotal + immatureTotal,
                       awaitingTotal, unconfirmedTotal, immatureTotal, lockedTotal, unspentTotal);
  }

  /** Every output of the account is counted once, except spent ones and coinbases
      not mined. */
  lemma SummaryIsComplete(m: map<OutputKey, OutputData>, q: Query)
    ensures var info := InfoOf(m, q);
      info.total + info.amountLocked + info.amountAwaitingFinalization == SumOf(m, q.OwnedValue())
  {
    hide SumOf;
    ThreeKinds(m, q);
    FiveKinds(m, q);
  }

  /** Values by how far an output has come. */
  lemma ThreeKinds(m: map<OutputKey, OutputData>, q: Query)
    ensures SumOf(m, q.TotalValue()) == SumOf(m, q.SpendableValue()) + SumOf(m, q.UnconfirmedValue()) + SumOf(m, q.ImmatureValue())
  {
    hide SumOf;
    var settled := (o: OutputData) => q.SpendableValue()(o) + q.UnconfirmedValue()(o);
    SumAdds(m, q.SpendableValue(), q.UnconfirmedValue(), settled);
    SumAdds(m, settled, q.ImmatureValue(), q.TotalValue());
  }

  lemma FiveKinds(m: map<OutputKey, OutputData>, q: Query)
    ensures SumOf(m, q.OwnedValue()) == SumOf(m, q.TotalValue()) + SumOf(m, q.LockedValue()) + SumOf(m, q.AwaitingValue())
  {
    hide SumOf;
    var withLocked := (o: OutputData) => q.TotalValue()(o) + q.LockedValue()(o);
    SumAdds(m, q.TotalValue(), q.LockedValue(), withLocked);
    OwnedAddsUp(m, q, withLocked);
    SumAdds(m, withLocked, q.AwaitingValue(), q.OwnedValue());
  }

  lemma OwnedAddsUp(m: map<OutputKey, OutputData>, q: Query, withLocked: OutputData -> nat)
    requires forall o :: withLocked(o) == q.TotalValue()(o) + q.LockedValue()(o)
    ensures forall k :: k in m ==> q.OwnedValue()(m[k]) == withLocked(m[k]) + q.AwaitingValue()(m[k])
  {
  }

  lemma {:induction false} EligibleTotal(outs: seq<OutputData>, q: Query)
    ensures Total(Eligible(outs, q.parent, q.height, q.minimumConfirmations)) == SumSeq(outs, q.EligibleValue())
  {
    if outs == [] {
    } else {
      var front, o := outs[..|outs| - 1], outs[|outs| - 1];
      EligibleTotal(front, q);
      TotalAppend(Eligible(front, q.parent, q.height, q.minimumConfirmations), o);
    }
  }

  /** What the summary calls spendable against what coin selection may spend. They
      differ by outputs that may be spent unconfirmed, and by outputs other than
      coinbases whose lock height is not reached. */
  lemma SpendableAgrees(outs: seq<OutputData>, m: map<OutputKey, OutputData>, q: Query)
    requires Enumerates(outs, m)
    ensures var eligible := Total(Eligible(outs, q.parent, q.height, q.minimumConfirmations));
      InfoOf(m, q).amountCurrentlySpendable + SumOf(m, q.SpendablePendingValue()) == eligible + SumOf(m, q.TimeLockedValue())
  {
    EligibleTotal(outs, q);
    SumListed(outs, KeysOf(outs), m, q.EligibleValue());
    hide Eligible, Enumerates, SumSeq, Total;
    SumsAgree(m, q);
  }

  lemma {:induction false} SumsAgree(m: map<OutputKey, OutputData>, q: Query)
    ensures SumOf(m, q.SpendableValue()) + SumOf(m, q.SpendablePendingValue())
      == SumOf(m, q.EligibleValue()) + SumOf(m, q.TimeLockedValue())
  {
    var both := (o: OutputData) => q.SpendableValue()(o) + q.SpendablePendingValue()(o);
    SumAdds(m, q.SpendableValue(), q.SpendablePendingValue(), both);
    SumAdds(m, q.EligibleValue(), q.TimeLockedValue(), both);
  }

  /** With at least one confirmation asked, the summary's spendable amount is what
      coin selection may spend exactly when nothing is counted early: in particular
      when no output but a coinbase has a lock height above the height. */
  lemma SpendableIsEligible(outs: seq<OutputData>, m: map<OutputKey, OutputData>, q: Query)
    requires Enumerates(outs, m) && q.minimumConfirmations >= 1
    ensures InfoOf(m, q).amountCurrentlySpendable == Total(Eligible(outs, q.parent, q.height, q.minimumConfirmations))
      <==> SumOf(m, q.TimeLockedValue()) == 0
    ensures (forall k :: k in m && !m[k].isCoinbase ==> m[k].lockHeight <= q.height) ==> SumOf(m, q.TimeLockedValue()) == 0
  {
    SpendableAgrees(outs, m, q);
    SumOfZero(m, q.SpendablePendingValue());
    if forall k :: k in m && !m[k].isCoinbase ==> m[k].lockHeight <= q.height {
      SumOfZero(m, q.TimeLockedValue());
    }
  }

  lemma {:induction false} SumOfZero(m: map<OutputKey, OutputData>, f: OutputData -> nat)
    requires forall k :: k in m ==> f(m[k]) == 0
    ensures SumOf(m, f) == 0
    decreases |m|
  {
    if m == map[] {
    } else {
      var k :| k in m;
      SumRemove(m, f, k);
      SumOfZero(m - {k}, f);
    }
  }

  // ----- what is summed, in terms of what is stored

  /** An output confirmed at `height` has `m` confirmations at `h`: the block it is in
      counts, and an unknown height counts for none. */
  predicate HasConfirmations(height: nat, h: nat, m: nat) {
    m == 0 || (0 < height <= h && height + m <= h + 1)
  }

  /** The value of an output of the account, if it is counted. */
  function CountedIf(o: OutputData, q: Query, counted: bool): nat {
    if o.rootKeyId == q.parent && counted then o.value else 0
  }

  /** Coinbases before their lock height are immature. Other unspent outputs are spendable
      with the confirmations asked for, and otherwise await confirmation, as pending
      outputs other than coinbases do if none are asked for; else those await
      finalization. */
  lemma InfoExactly(m: map<OutputKey, OutputData>, q: Query)
    ensures var info, h, c := InfoOf(m, q), q.height, q.minimumConfirmations;
      && info.lastConfirmedHeight == h && info.minimumConfirmations == c
      && info.amountImmature
           == SumOf(m, (o: OutputData) => CountedIf(o, q, o.status == Unspent && o.isCoinbase && h < o.lockHeight))
      && info.amountCurrentlySpendable
           == SumOf(m, (o: OutputData) =>
                CountedIf(o, q, o.status == Unspent && (o.isCoinbase ==> o.lockHeight <= h) && HasConfirmations(o.height, h, c)))
      && info.amountAwaitingConfirmation
           == SumOf(m, (o: OutputData) =>
                CountedIf(o, q, || (o.status == Unspent && (o.isCoinbase ==> o.lockHeight <= h) && !HasConfirmations(o.height, h, c))
                                || (o.status == Unconfirmed && !o.isCoinbase && c == 0)))
      && info.amountAwaitingFinalization
           == SumOf(m, (o: OutputData) => CountedIf(o, q, o.status == Unconfirmed && !o.isCoinbase && c > 0))
      && info.amountLocked == SumOf(m, (o: OutputData) => CountedIf(o, q, o.status == Locked))
      && info.total == info.amountCurrentlySpendable + info.amountAwaitingConfirmation + info.amountImmature
  {
    var h, c := q.height, q.minimumConfirmations;
    var immature := (o: OutputData) => CountedIf(o, q, o.status == Unspent && o.isCoinbase && h < o.lockHeight);
    var spendable := (o: OutputData) =>
      CountedIf(o, q, o.status == Unspent && (o.isCoinbase ==> o.lockHeight <= h) && HasConfirmations(o.height, h, c));
    var awaiting := (o: OutputData) =>
      CountedIf(o, q, || (o.status == Unspent && (o.isCoinbase ==> o.lockHeight <= h) && !HasConfirmations(o.height, h, c))
                      || (o.status == Unconfirmed && !o.isCoinbase && c == 0));
    var pending := (o: OutputData) => CountedIf(o, q, o.status == Unconfirmed && !o.isCoinbase && c > 0);
    var locked := (o: OutputData) => CountedIf(o, q, o.status == Locked);
    forall k | k in m
      ensures q.ImmatureValue()(m[k]) == immature(m[k]) && q.SpendableValue()(m[k]) == spendable(m[k])
      ensures q.UnconfirmedValue()(m[k]) == awaiting(m[k]) && q.AwaitingValue()(m[k]) == pending(m[k])
      ensures q.LockedValue()(m[k]) == locked(m[k])
    {
      CountedExactly(m[k], q);
    }
    hide SumOf, CountedIf, HasConfirmations;
    hide Query.ImmatureValue, Query.SpendableValue, Query.UnconfirmedValue, Query.AwaitingValue, Query.LockedValue;
    SumCongruence(m, m, q.ImmatureValue(), immature);
    SumCongruence(m, m, q.SpendableValue(), spendable);
    SumCongruence(m, m, q.UnconfirmedValue(), awaiting);
    SumCongruence(m, m, q.AwaitingValue(), pending);
    SumCongruence(m, m, q.LockedValue(), locked);
  }

  lemma CountedExactly(o: OutputData, q: Query)
    ensures var h, c := q.height, q.minimumConfirmations;
      && q.ImmatureValue()(o) == CountedIf(o, q, o.status == Unspent && o.isCoinbase && h < o.lockHeight)
      && q.SpendableValue()(o)
           == CountedIf(o, q, o.status == Unspent && (o.isCoinbase ==> o.lockHeight <= h) && HasConfirmations(o.height, h, c))
      && q.UnconfirmedValue()(o)
           == CountedIf(o, q, || (o.status == Unspent && (o.isCoinbase ==> o.lockHeight <= h) && !HasConfirmations(o.height, h, c))
                              || (o.status == Unconfirmed && !o.isCoinbase && c == 0))
      && q.AwaitingValue()(o) == CountedIf(o, q, o.status == Unconfirmed && !o.isCoinbase && c > 0)
      && q.LockedValue()(o) == CountedIf(o, q, o.status == Locked)
  {
  }
}
