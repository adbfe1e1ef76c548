/** The books of a send: what its entry says, and that cancelling it undoes the lock. */
module LedgerUndo {
  import opened Wrappers
  import opened Outputs
  import opened Contexts
  import opened CoinSelection
  import opened Funding
  import opened Sums
  import opened Summary
  import opened Ledger
  import opened LedgerInvariant
  import opened LedgerSend
  import opened LedgerRuns

  // ----- value conservation

  lemma {:induction false} DebitedIsTotal(m: map<OutputKey, OutputData>, coins: seq<OutputData>)
    requires forall i :: 0 <= i < |coins| ==> coins[i].Key() in m && m[coins[i].Key()] == coins[i]
    requires CoinKeys(ContextInputs(coins)) <= m.Keys
    ensures Debited(m, ContextInputs(coins)) == Total(coins)
  {
    if coins == [] {
    } else {
      var front := coins[..|coins| - 1];
      LastCoinIsKey(ContextInputs(coins));
      assert ContextInputs(coins)[..|coins| - 1] == ContextInputs(front);
      DebitedIsTotal(m, front);
    }
  }

  lemma {:induction false} CreditedIsSum(st: State, amounts: seq<nat>)
    ensures CoinSum(ChangeCoins(st, amounts)) == Sum(amounts)
  {
    if amounts == [] {
    } else {
      var front := amounts[..|amounts| - 1];
      assert ChangeCoins(st, amounts)[..|amounts| - 1] == ChangeCoins(st, front);
      CreditedIsSum(st, front);
    }
  }

  lemma CoinsAreDebited(st: State, a: SendArgs, outs: seq<OutputData>, s: Selection)
    requires CanSend(st, a, outs, s)
    ensures CoinKeys(ContextInputs(s.coins)) <= st.outputs.Keys
    ensures Debited(st.outputs, ContextInputs(s.coins)) == Total(s.coins)
  {
    forall i | 0 <= i < |s.coins| ensures s.coins[i].Key() in st.outputs && st.outputs[s.coins[i].Key()] == s.coins[i] {
      SelectedCoin(st, a, outs, s, s.coins[i]);
    }
    hide CanSend;
    assert forall i :: 0 <= i < |s.coins| ==> CoinKey(ContextInputs(s.coins)[i]) == s.coins[i].Key();
    DebitedIsTotal(st.outputs, s.coins);
  }

  lemma FundedTotal(st: State, a: SendArgs, outs: seq<OutputData>, s: Selection)
    requires CanSend(st, a, outs, s)
    ensures !SplitAborts(Change(s), a.changeOutputs)
    ensures Total(s.coins) == a.amount + s.fee + Change(s)
  {
    var eligible := Eligible(outs, a.parent, a.height, a.minimumConfirmations);
    FundedCovers(SortByValue(eligible), a.amount, a.maxOutputs, a.changeOutputs, a.selectAll);
    hide Funded, Eligible, SortByValue, Enumerates, Total;
  }

  /** An entry debits what it credits, the amount, the fee and the shortfall of
      splitting the change. Nothing is missing exactly when there is no change, or the
      remainder of its division is below the size of a part. */
  ghost predicate Conserves(t: TxLogEntry, a: SendArgs, s: Selection)
    requires !SplitAborts(Change(s), a.changeOutputs)
  {
    var change, n := Change(s), a.changeOutputs;
    && t.amountDebited == t.amountCredited + a.amount + s.fee + Shortfall(change, n)
    && (t.amountDebited == t.amountCredited + a.amount + s.fee <==> change == 0 || change % n < change / n)
    && (change >= n * n ==> t.amountDebited == t.amountCredited + a.amount + s.fee)
  }

  lemma EntryConserves(st: State, a: SendArgs, outs: seq<OutputData>, s: Selection, t: TxLogEntry)
    requires CanSend(st, a, outs, s) && t.amountCredited == CoinSum(ChangeCoins(st, Amounts(a, s)))
    ensures Conserves(t, a, s) <==> t.amountDebited == Total(s.coins)
  {
    FundedTotal(st, a, outs, s);
    hide CanSend;
    CreditedIsSum(st, Amounts(a, s));
    ChangeConservation(Change(s), a.changeOutputs);
    hide CoinSum, ChangeCoins, Total, Sum, Shortfall, ChangeAmounts;
  }

  lemma {:induction false} DebitedDepends(m: map<OutputKey, OutputData>, m': map<OutputKey, OutputData>, coins: seq<ContextCoin>)
    requires CoinKeys(coins) <= m.Keys && CoinKeys(coins) <= m'.Keys
    requires forall k :: k in CoinKeys(coins) ==> m'[k].value == m[k].value
    ensures Debited(m', coins) == Debited(m, coins)
  {
    if coins == [] {
    } else {
      LastCoinIsKey(coins);
      hide CoinKeys;
      assert CoinKey(coins[|coins| - 1]) in CoinKeys(coins);
      DebitedDepends(m, m', coins[..|coins| - 1]);
    }
  }

  /** The send `a` of the coins `s`, chosen from the store `st`, is locked in a store it
      was initiated in before, at once or after other steps. */
  ghost predicate LocksLater(st: State, a: SendArgs, outs: seq<OutputData>, s: Selection, own: SlateContext,
      mid: State, sent: History, height: nat, st': State, sent': History)
  {
    && CanSend(st, a, outs, s)
    && (a.slateId, 0) in mid.contexts && mid.contexts[(a.slateId, 0)] == ContextOf(st, a, s, own)
    && Next(mid, sent, LockStep(a.slateId, height, s.fee), st', sent')
  }

  /** The entry that a send leaves in the log conserves value in this sense exactly when
      its inputs are worth what they were when they were chosen. */
  lemma SendConservesValue(st: State, a: SendArgs, outs: seq<OutputData>, s: Selection, own: SlateContext,
      mid: State, sent: History, height: nat, st': State, sent': History)
    requires LocksLater(st, a, outs, s, own, mid, sent, height, st', sent') && Inv(mid, sent)
    ensures var e := (a.parent, mid.NextLogId(a.parent));
      && e !in mid.logs && e in st'.logs && st'.logs[e].txSlateId == Some(a.slateId) && st'.logs[e].txType == TxSent
      && !SplitAborts(Change(s), a.changeOutputs)
      && CoinKeys(ContextInputs(s.coins)) <= mid.outputs.Keys
      && (Conserves(st'.logs[e], a, s) <==> Debited(mid.outputs, ContextInputs(s.coins)) == Total(s.coins))
  {
    CanSendSplits(st, a, outs, s);
    var ctx := ContextOf(st, a, s, own);
    NextLogIdIsNew(mid, sent, a.parent);
    hide Inv, CanSend, Conserves, Lock, LockSafe, AfterSend, ContextInputs, ChangeCoins;
    LockLogs(mid, ctx, a.slateId, height, s.fee);
    EntryConserves(st, a, outs, s, SentEntry(mid.outputs, ctx, a.slateId, s.fee, mid.NextLogId(a.parent)));
  }

  /** So it does when the stored values of its inputs did not change in between, and in
      particular when it is locked at once. */
  lemma UnchangedConserves(st: State, a: SendArgs, outs: seq<OutputData>, s: Selection, own: SlateContext,
      mid: State, sent: History, height: nat, st': State, sent': History)
    requires LocksLater(st, a, outs, s, own, mid, sent, height, st', sent') && Inv(mid, sent)
    requires forall k :: k in st.outputs && k in mid.outputs ==> mid.outputs[k].value == st.outputs[k].value
    ensures !SplitAborts(Change(s), a.changeOutputs)
    ensures var e := (a.parent, mid.NextLogId(a.parent)); e in st'.logs && Conserves(st'.logs[e], a, s)
  {
    SendConservesValue(st, a, outs, s, own, mid, sent, height, st', sent');
    assert CanSend(st, a, outs, s);
    hide Inv, CanSend, Conserves, LocksLater, Debited, CoinKeys, ContextInputs;
    CoinsAreDebited(st, a, outs, s);
    DebitedDepends(st.outputs, mid.outputs, ContextInputs(s.coins));
  }

  // ----- cancelling undoes the lock

  /** Locked and unlocked again: the inputs are unspent and keep the send's log id. */
  ghost function Relocked(m: map<OutputKey, OutputData>, keys: set<OutputKey>, logId: nat): map<OutputKey, OutputData> {
    map k | k in m :: if k in keys then m[k].(status := Unspent, txLogEntry := Some(logId)) else m[k]
  }

  lemma {:induction false} SavedKeepsOthers(m: map<OutputKey, OutputData>, outs: seq<OutputData>, k: OutputKey)
    requires k in m && forall i :: 0 <= i < |outs| ==> outs[i].Key() != k
    ensures k in Saved(m, outs) && Saved(m, outs)[k] == m[k]
  {
    if outs == [] {
    } else {
      SavedKeepsOthers(m, outs[..|outs| - 1], k);
    }
  }

  /** An output stored before the send, after the lock. */
  lemma OldOutputLocked(st: State, ctx: Context, slateId: nat, height: nat, fee: nat, k: OutputKey)
    requires Lockable(st, ctx) && CoinKeys(ctx.inputIds) <= st.outputs.Keys && k in st.outputs
    ensures var logId, locked := st.NextLogId(ctx.parentKeyId), Lock(st, ctx, slateId, height, fee);
      k in locked.outputs
      && locked.outputs[k] == if k in CoinKeys(ctx.inputIds) then LockedFor(st.outputs[k], logId) else st.outputs[k]
  {
    var logId := st.NextLogId(ctx.parentKeyId);
    var outs := ChangeOutputs(ctx, height, logId);
    forall i | 0 <= i < |outs| ensures outs[i].Key() != k {
      assert ChangeIsNew(st, ctx.outputIds[i]);
    }
    SavedKeepsOthers(LockOutputs(st.outputs, CoinKeys(ctx.inputIds), logId), outs, k);
  }

  /** The outputs after the lock, and the entry of the send. */
  ghost predicate IsLock(st: State, ctx: Context, locked: map<OutputKey, OutputData>, t: TxLogEntry) {
    && CoinKeys(ctx.inputIds) <= st.outputs.Keys
    && t.parentKeyId == ctx.parentKeyId && t.id == st.NextLogId(ctx.parentKeyId)
    && exists slateId, height, fee :: locked == Lock(st, ctx, slateId, height, fee).outputs
  }

  /** An output stored before the send, after lock and cancel. */
  lemma OldOutputUndone(st: State, sent: History, ctx: Context, locked: map<OutputKey, OutputData>, t: TxLogEntry, k: OutputKey)
    requires Inv(st, sent) && Lockable(st, ctx) && IsLock(st, ctx, locked, t) && k in st.outputs
    ensures k in locked && k in CancelOutputs(locked, t)
    ensures CancelOutputs(locked, t)[k] == Relocked(st.outputs, CoinKeys(ctx.inputIds), t.id)[k]
  {
    var slateId, height, fee :| locked == Lock(st, ctx, slateId, height, fee).outputs;
    OldOutputLocked(st, ctx, slateId, height, fee, k);
    NotOfTheSend(st, sent, ctx.parentKeyId, k);
    assert k in CoinKeys(ctx.inputIds) ==> Spendable(st, ctx, k);
    hide Lock, Inv, Lockable, IsLock, CoinKeys;
    OneUndone(st.outputs[k], locked[k], k in CoinKeys(ctx.inputIds), t);
  }

  lemma NotOfTheSend(st: State, sent: History, parent: Identifier, k: OutputKey)
    requires Inv(st, sent) && k in st.outputs
    ensures !(st.outputs[k].rootKeyId == parent && st.outputs[k].txLogEntry == Some(st.NextLogId(parent)))
  {
    assert OutputOk(st, sent, k);
    NextLogIdIsNew(st, sent, parent);
  }

  lemma OneUndone(o: OutputData, o': OutputData, isInput: bool, t: TxLogEntry)
    requires o' == if isInput then LockedFor(o, t.id) else o
    requires isInput ==> o.rootKeyId == t.parentKeyId && (o.status == Unspent || o.status == Unconfirmed)
    requires !(o.rootKeyId == t.parentKeyId && o.txLogEntry == Some(t.id))
    ensures !(BelongsTo(o', t) && o'.status == Unconfirmed)
    ensures Unlocked(o', t) == if isInput then o.(status := Unspent, txLogEntry := Some(t.id)) else o
  {
  }

  /** An output the send stored is deleted by the cancel. */
  lemma NewOutputUndone(st: State, ctx: Context, locked: map<OutputKey, OutputData>, t: TxLogEntry, k: OutputKey)
    requires IsLock(st, ctx, locked, t) && k !in st.outputs
    ensures k !in CancelOutputs(locked, t)
  {
    var slateId, height, fee :| locked == Lock(st, ctx, slateId, height, fee).outputs;
    if k in locked {
      SavedLookup(LockOutputs(st.outputs, CoinKeys(ctx.inputIds), t.id), ChangeOutputs(ctx, height, t.id), k);
    }
  }

  lemma UndoneIsRelocked(st: State, sent: History, ctx: Context, locked: map<OutputKey, OutputData>, t: TxLogEntry)
    requires Inv(st, sent) && Lockable(st, ctx) && IsLock(st, ctx, locked, t)
    ensures CancelOutputs(locked, t) == Relocked(st.outputs, CoinKeys(ctx.inputIds), t.id)
  {
    hide *;
    var undone, expected := CancelOutputs(locked, t), Relocked(st.outputs, CoinKeys(ctx.inputIds), t.id);
    RelockedKeys(st.outputs, CoinKeys(ctx.inputIds), t.id);
    forall k | k in st.outputs ensures k in undone && undone[k] == expected[k] {
      OldOutputUndone(st, sent, ctx, locked, t, k);
    }
    forall k | k !in st.outputs ensures k !in undone {
      NewOutputUndone(st, ctx, locked, t, k);
    }
  }

  lemma RelockedKeys(m: map<OutputKey, OutputData>, keys: set<OutputKey>, logId: nat)
    ensures Relocked(m, keys, logId).Keys == m.Keys
  {
  }

  lemma LockIsLogged(st: State, ctx: Context, slateId: nat, height: nat, fee: nat)
    requires CoinKeys(ctx.inputIds) <= st.outputs.Keys
    ensures var e, locked := SentKey(st, ctx), Lock(st, ctx, slateId, height, fee);
      e in locked.logs && locked.logs[e] == SentEntry(st.outputs, ctx, slateId, fee, e.1)
  {
  }

  lemma CancelUndoesLock(st: State, sent: History, ctx: Context, slateId: nat, height: nat, fee: nat)
    requires Inv(st, sent) && Lockable(st, ctx) && CoinKeys(ctx.inputIds) <= st.outputs.Keys
    ensures var e, locked := SentKey(st, ctx), Lock(st, ctx, slateId, height, fee);
      e in locked.logs && Cancellable(locked.logs[e])
      && Cancel(locked, locked.logs[e]).outputs == Relocked(st.outputs, CoinKeys(ctx.inputIds), e.1)
  {
    LockIsLogged(st, ctx, slateId, height, fee);
    var locked := Lock(st, ctx, slateId, height, fee);
    assert IsLock(st, ctx, locked.outputs, locked.logs[SentKey(st, ctx)]);
    hide Inv, Lockable, IsLock, Lock;
    UndoneIsRelocked(st, sent, ctx, locked.outputs, locked.logs[SentKey(st, ctx)]);
  }

  /** The same outputs, but for the log entry they point to. */
  ghost predicate SameButLog(m: map<OutputKey, OutputData>, m': map<OutputKey, OutputData>) {
    m'.Keys == m.Keys && forall k :: k in m ==> m'[k] == m[k].(txLogEntry := m'[k].txLogEntry)
  }

  /** Locking a send and cancelling it gives every output back as it was, but for
      the log entry of the inputs, exactly when the inputs were confirmed: an input
      spent unconfirmed comes back as unspent. */
  lemma LockThenCancel(st: State, sent: History, ctx: Context, slateId: nat, height: nat, fee: nat)
    requires Inv(st, sent) && Lockable(st, ctx) && CoinKeys(ctx.inputIds) <= st.outputs.Keys
    ensures var e, locked := SentKey(st, ctx), Lock(st, ctx, slateId, height, fee);
      e in locked.logs && Cancellable(locked.logs[e])
      && (SameButLog(st.outputs, Cancel(locked, locked.logs[e]).outputs)
          <==> forall k :: k in CoinKeys(ctx.inputIds) ==> st.outputs[k].status == Unspent)
  {
    CancelUndoesLock(st, sent, ctx, slateId, height, fee);
    RelockedIsSame(st.outputs, CoinKeys(ctx.inputIds), st.NextLogId(ctx.parentKeyId));
    hide Inv, Lockable, Lock, Cancel, SameButLog, Relocked, CoinKeys;
  }

  lemma RelockedIsSame(m: map<OutputKey, OutputData>, keys: set<OutputKey>, logId: nat)
    requires keys <= m.Keys
    ensures SameButLog(m, Relocked(m, keys, logId)) <==> forall k :: k in keys ==> m[k].status == Unspent
  {
    forall k | k in m
      ensures Relocked(m, keys, logId)[k] == m[k].(txLogEntry := Relocked(m, keys, logId)[k].txLogEntry)
        <==> (k in keys ==> m[k].status == Unspent)
    {
    }
  }

  /** The summary and the coins that may be spent do not depend on the log entries
      outputs point to. */
  lemma LogDoesNotMatter(m: map<OutputKey, OutputData>, m': map<OutputKey, OutputData>, q: Query)
    requires SameButLog(m, m')
    ensures InfoOf(m', q) == InfoOf(m, q)
    ensures forall k :: k in m ==>
      m'[k].EligibleToSpend(q.height, q.minimumConfirmations) == m[k].EligibleToSpend(q.height, q.minimumConfirmations)
  {
    SameEligibility(m, m', q);
    forall k | k in m ensures SameWorth(m'[k], m[k], q) {
      WorthIgnoresLog(m[k], m'[k].txLogEntry, q);
    }
    hide SumOf, Query.SpendableValue, Query.ImmatureValue, Query.UnconfirmedValue, Query.AwaitingValue, Query.LockedValue;
    hide InfoOf, OutputData.EligibleToSpend;
    SumCongruence(m', m, q.SpendableValue(), q.SpendableValue());
    SumCongruence(m', m, q.ImmatureValue(), q.ImmatureValue());
    SumCongruence(m', m, q.UnconfirmedValue(), q.UnconfirmedValue());
    SumCongruence(m', m, q.AwaitingValue(), q.AwaitingValue());
    SumCongruence(m', m, q.LockedValue(), q.LockedValue());
    SameInfo(m, m', q);
  }

  /** Two outputs count the same in each sum of the summary. */
  predicate SameWorth(o: OutputData, o': OutputData, q: Query) {
    && q.SpendableValue()(o) == q.SpendableValue()(o') && q.ImmatureValue()(o) == q.ImmatureValue()(o')
    && q.UnconfirmedValue()(o) == q.UnconfirmedValue()(o') && q.AwaitingValue()(o) == q.AwaitingValue()(o')
    && q.LockedValue()(o) == q.LockedValue()(o')
  }

  lemma WorthIgnoresLog(o: OutputData, entry: Option<nat>, q: Query)
    ensures SameWorth(o.(txLogEntry := entry), o, q)
  {
  }

  lemma SameInfo(m: map<OutputKey, OutputData>, m': map<OutputKey, OutputData>, q: Query)
    requires SumOf(m', q.SpendableValue()) == SumOf(m, q.SpendableValue())
    requires SumOf(m', q.ImmatureValue()) == SumOf(m, q.ImmatureValue())
    requires SumOf(m', q.UnconfirmedValue()) == SumOf(m, q.UnconfirmedValue())
    requires SumOf(m', q.AwaitingValue()) == SumOf(m, q.AwaitingValue())
    requires SumOf(m', q.LockedValue()) == SumOf(m, q.LockedValue())
    ensures InfoOf(m', q) == InfoOf(m, q)
  {
    hide SumOf;
  }

  lemma SameEligibility(m: map<OutputKey, OutputData>, m': map<OutputKey, OutputData>, q: Query)
    requires SameButLog(m, m')
    ensures forall k :: k in m ==>
      m'[k].EligibleToSpend(q.height, q.minimumConfirmations) == m[k].EligibleToSpend(q.height, q.minimumConfirmations)
  {
    forall k | k in m
      ensures m'[k].EligibleToSpend(q.height, q.minimumConfirmations) == m[k].EligibleToSpend(q.height, q.minimumConfirmations)
    {
      assert m'[k] == m[k].(txLogEntry := m'[k].txLogEntry);
    }
  }
}
