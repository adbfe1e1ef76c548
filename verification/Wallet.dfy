/** The wallet: the store and the operations on it (src/wallet/backend/lmdb_backend.rs,
    src/internal/selection.rs, updater.rs, tx.rs). A batch works on copies and commits
    by assigning them; reads during a batch see the committed store. */
module Wallet {
  import opened Wrappers
  import opened Outputs
  import opened Contexts
  import opened CoinSelection
  import opened Funding
  import opened Summary
  import opened Ledger
  import opened LedgerInvariant
  import opened LedgerSteps
  import opened LedgerSend
  import opened LedgerRuns

  datatype WalletError =
    | NoFunds(funds: NotEnoughFunds)
    | ContextNotFound
    | TransactionDoesntExist
    | TransactionNotCancellable
    | TransactionAlreadyReceived

  /** One change output more. */
  lemma ChangeGrows(st: State, amounts: seq<nat>, x: nat)
    requires x < |amounts|
    ensures AfterChildren(st, x + 1) == AfterChildren(st, x).AfterNextChild()
    ensures ChangeCoins(st, amounts[..x + 1]) == ChangeCoins(st, amounts[..x]) + [(AfterChildren(st, x).NextKey(), None, amounts[x])]
  {
    NextChange(st, x);
    hide AfterChildren, Identifier.Child;
    var longer := ChangeCoins(st, amounts[..x + 1]);
    assert longer[..x] == ChangeCoins(st, amounts[..x]);
    assert longer == longer[..x] + [longer[x]];
  }

  lemma NextChange(st: State, x: nat)
    ensures AfterChildren(st, x + 1) == AfterChildren(st, x).AfterNextChild()
    ensures AfterChildren(st, x).NextKey() == st.active.Child(st.ChildIndex(st.active) + x)
  {
    hide Identifier.Child;
    var index := st.ChildIndex(st.active);
    if x == 0 {
    } else {
      assert st.childIndex[st.active := index + x][st.active := index + x + 1] == st.childIndex[st.active := index + x + 1];
    }
  }

  /** What a successful choice of coins means for the send. */
  lemma ChosenMaySend(st: State, sent: History, a: SendArgs, outs: seq<OutputData>, s: Selection)
    requires Inv(st, sent) && Enumerates(outs, st.outputs)
    requires a.maxOutputs >= 1 || Eligible(outs, a.parent, a.height, a.minimumConfirmations) == []
    requires Funded(SortByValue(Eligible(outs, a.parent, a.height, a.minimumConfirmations)),
                    a.amount, a.maxOutputs, a.changeOutputs, a.selectAll) == Ok(s)
    ensures s.amount == a.amount && s.total == a.amount + s.fee + Change(s)
    ensures SplitAborts(Change(s), a.changeOutputs) <==> !CanSend(st, a, outs, s)
    ensures CanSend(st, a, outs, s) ==> Inv(AfterChildren(st, |Amounts(a, s)|), sent)
    ensures forall s' :: CanSend(st, a, outs, s') ==> s' == s
  {
    FundedCovers(SortByValue(Eligible(outs, a.parent, a.height, a.minimumConfirmations)),
                 a.amount, a.maxOutputs, a.changeOutputs, a.selectAll);
    hide Inv, Funded, Eligible, SortByValue, Enumerates, ChangeAmounts, AfterChildren;
    if CanSend(st, a, outs, s) {
      AbandonKeeps(st, sent, |Amounts(a, s)|);
    }
  }

  lemma LockStays(st: State, sent: History, ctx: Context, slateId: nat, height: nat, fee: nat)
    requires Inv(st, sent) && CoinKeys(ctx.inputIds) <= st.outputs.Keys
    ensures var st', sent' := Lock(st, ctx, slateId, height, fee), AfterSend(sent, st, ctx);
      LockSafe(st, ctx) <==> Inv(st', sent') && SpentStays(st, st')
  {
    hide Inv, LockSafe, Lock, AfterSend, CoinKeys, SpentStays, CountersGrow;
    LockKeeps(st, sent, ctx, slateId, height, fee);
  }

  lemma LockIs(st: State, ctx: Context, slateId: nat, height: nat, fee: nat, sent: History, t: TxLogEntry)
    requires CoinKeys(ctx.inputIds) <= st.outputs.Keys
    requires t == SentEntry(st.outputs, ctx, slateId, fee, st.NextLogId(ctx.parentKeyId))
    ensures var parent, id := ctx.parentKeyId, st.NextLogId(ctx.parentKeyId);
      && Lock(st, ctx, slateId, height, fee)
           == st.AfterNextLogId(parent).(
                outputs := Saved(LockOutputs(st.outputs, CoinKeys(ctx.inputIds), id), ChangeOutputs(ctx, height, id)),
                logs := st.logs[(parent, id) := t])
      && AfterSend(sent, st, ctx) == sent[(parent, id) := CoinKeys(ctx.inputIds)]
  {
    hide Saved, LockOutputs, ChangeOutputs, CoinKeys;
  }

  lemma OneMoreChange(start: map<OutputKey, OutputData>, outs: seq<OutputData>, coins: seq<ContextCoin>, i: nat)
    requires i < |outs| == |coins|
    ensures Saved(start, outs[..i + 1]) == Saved(start, outs[..i])[outs[i].Key() := outs[i]]
    ensures CoinSum(coins[..i + 1]) == CoinSum(coins[..i]) + coins[i].2
  {
    assert outs[..i + 1][..i] == outs[..i] && coins[..i + 1][..i] == coins[..i];
  }

  lemma MayStoreCoinbase(st: State, sent: History, key: Option<Identifier>, value: nat, height: nat)
    requires Inv(st, sent)
    ensures MayReplace(st, key) ==> Inv(Coinbase(st, key, value, height), sent)
  {
    hide Inv, Coinbase, MayReplace, SpentStays, CountersGrow;
    CoinbaseKeeps(st, sent, key, value, height);
  }

  lemma CoinbaseParts(st: State, key: Option<Identifier>, value: nat, height: nat)
    ensures Replaces(st, key) <==> key.Some? && (key.value, None) in st.outputs
    ensures Coinbase(st, key, value, height)
      == if Replaces(st, key) then st.SaveOutput(CoinbaseOutput(st.active, key.value, value, height))
         else st.AfterNextChild().SaveOutput(CoinbaseOutput(st.active, st.NextKey(), value, height))
  {
  }

  class Backend {
    var parentKeyId: Identifier
    var outputs: map<OutputKey, OutputData>
    var txLogs: map<LogKey, TxLogEntry>
    var txLogIds: map<Identifier, nat>
    var derivations: map<Identifier, nat>
    var confirmedHeights: map<Identifier, nat>
    var contexts: map<ContextKey, Context>
    /** The inputs of each send that was logged. */
    ghost var sent: History

    function View(): State
      reads this
    {
      State(parentKeyId, outputs, txLogs, txLogIds, derivations, confirmedHeights, contexts)
    }

    ghost predicate Valid()
      reads this
    {
      Inv(View(), sent)
    }

    constructor (account: Identifier)
      ensures Valid() && Start(View()) && parentKeyId == account && sent == map[]
    {
      parentKeyId := account;
      outputs, txLogs, contexts := map[], map[], map[];
      txLogIds, derivations, confirmedHeights := map[], map[], map[];
      sent := map[];
    }

    // ----- the store

    method NextChild() returns (id: Identifier)
      modifies this`derivations
      ensures id == old(View()).NextKey() && View() == old(View()).AfterNextChild()
      ensures var index := if parentKeyId in old(derivations) then old(derivations)[parentKeyId] else 0;
        id == Identifier(parentKeyId.path + [index]) && derivations == old(derivations)[parentKeyId := index + 1]
    {
      var index := if parentKeyId in derivations then derivations[parentKeyId] else 0;
      id := parentKeyId.Child(index);
      index := index + 1;
      derivations := derivations[parentKeyId := index];
    }

    /** `next_tx_log_id`; its write is committed with the batch that asks for the id. */
    method NextTxLogId(parent: Identifier) returns (id: nat)
      modifies this`txLogIds
      ensures id == old(View()).NextLogId(parent) && View() == old(View()).AfterNextLogId(parent)
      ensures id == (if parent in old(txLogIds) then old(txLogIds)[parent] else 0) && txLogIds == old(txLogIds)[parent := id + 1]
    {
      id := if parent in txLogIds then txLogIds[parent] else 0;
      txLogIds := txLogIds[parent := id + 1];
    }

    /** The stored outputs, in some order. */
    method Outputs() returns (outs: seq<OutputData>)
      requires forall k :: k in outputs ==> outputs[k].Key() == k
      ensures Enumerates(outs, outputs)
    {
      outs := [];
      var left := outputs.Keys;
      ghost var keys: seq<OutputKey> := [];
      while left != {}
        invariant left <= outputs.Keys && |keys| == |outs|
        invariant forall k :: k in outputs ==> (k in keys <==> k !in left)
        invariant forall i :: 0 <= i < |keys| ==> keys[i] in outputs && outputs[keys[i]] == outs[i]
        invariant forall i, j :: 0 <= i < j < |keys| ==> keys[i] != keys[j]
        decreases |left|
      {
        var k :| k in left;
        outs := outs + [outputs[k]];
        keys := keys + [k];
        left := left - {k};
      }
      assert KeysOf(outs) == keys;
    }

    lemma KeysMatch()
      requires Valid()
      ensures forall k :: k in outputs ==> outputs[k].Key() == k
    {
      forall k | k in outputs ensures outputs[k].Key() == k {
        assert OutputOk(View(), sent, k);
      }
    }

    lemma EntriesMatch()
      requires Valid()
      ensures forall e :: e in txLogs ==> txLogs[e].parentKeyId == e.0 && txLogs[e].id == e.1
    {
      forall e | e in txLogs ensures txLogs[e].parentKeyId == e.0 && txLogs[e].id == e.1 {
        EntryIsOk(View(), sent, e);
      }
    }

    // ----- accounts and contexts

    method SetParentKeyId(account: Identifier)
      requires Valid()
      modifies this`parentKeyId
      ensures Valid() && View() == SwitchAccount(old(View()), account) && parentKeyId == account
    {
      SwitchAccountKeeps(View(), sent, account);
      parentKeyId := account;
    }

    /** The last write of `finalize_tx`. */
    method DeletePrivateContext(slateId: nat)
      requires Valid()
      modifies this`contexts
      ensures Valid() && View() == Finalize(old(View()), slateId) && contexts == old(contexts) - {(slateId, 0)}
    {
      FinalizeKeeps(View(), sent, slateId);
      contexts := contexts - {(slateId, 0)};
    }

    // ----- sending

    /** Keys and amounts of the change. */
    method InputsAndChange(change: nat, numChangeOutputs: nat) returns (r: Outcome<seq<ContextCoin>, WalletError>)
      modifies this`derivations
      ensures r.Panics? <==> SplitAborts(change, numChangeOutputs)
      ensures r.Panics? ==> View() == old(View())
      ensures !r.Panics? ==> var amounts := ChangeAmounts(change, numChangeOutputs);
        r == Returns(ChangeCoins(old(View()), amounts)) && View() == AfterChildren(old(View()), |amounts|)
    {
      var coins: seq<ContextCoin> := [];
      ghost var before := View();
      if change != 0 {
        if numChangeOutputs == 0 || change < numChangeOutputs {
          return Panics;
        }
        ghost var amounts := ChangeAmounts(change, numChangeOutputs);
        PartIsPositive(change, numChangeOutputs);
        var partChange := change / numChangeOutputs;
        var remainderChange := change % partChange;
        for x := 0 to numChangeOutputs
          invariant coins == ChangeCoins(before, amounts[..x])
          invariant View() == AfterChildren(before, x)
        {
          var changeAmount := if x == numChangeOutputs - 1 then partChange + remainderChange else partChange;
          assert changeAmount == amounts[x];
          ChangeGrows(before, amounts, x);
          hide ChangeAmounts, ChangeCoins, AfterChildren;
          var changeKey := NextChild();
          coins := coins + [(changeKey, None, changeAmount)];
        }
        assert amounts[..numChangeOutputs] == amounts;
      }
      return Returns(coins);
    }

    /** Choose coins and fee among the stored outputs. Without any coin allowed the
        windows of coins cannot be formed. */
    method ChooseCoins(a: SendArgs) returns (r: Outcome<Selection, WalletError>, ghost outs: seq<OutputData>)
      requires Valid()
      ensures Enumerates(outs, outputs)
      ensures var eligible := Eligible(outs, a.parent, a.height, a.minimumConfirmations);
        && (r.Panics? <==> a.maxOutputs == 0 && eligible != [])
        && (!r.Panics? ==>
              match Funded(SortByValue(eligible), a.amount, a.maxOutputs, a.changeOutputs, a.selectAll)
              case Ok(s) => r == Returns(s)
              case Err(e) => r == Fails(NoFunds(e)))
    {
      hide Funded, Eligible, SortByValue, Enumerates, Inv;
      KeysMatch();
      var stored := Outputs();
      outs := stored;
      if a.maxOutputs == 0 && Eligible(stored, a.parent, a.height, a.minimumConfirmations) != [] {
        return Panics, outs;
      }
      var selected := SelectCoinsAndFee(stored, a.amount, a.height, a.minimumConfirmations, a.maxOutputs,
                                        a.changeOutputs, a.selectAll, a.parent);
      match selected
      case Ok(s) => return Returns(s), outs;
      case Err(e) => return Fails(NoFunds(e)), outs;
    }

    /** The wallet's side of `build_send_tx`: choose coins and fee, hand out the change
        keys and record both. */
    method BuildSendTx(a: SendArgs)
      returns (r: Outcome<(Selection, seq<ContextCoin>, seq<ContextCoin>), WalletError>, ghost outs: seq<OutputData>)
      requires Valid()
      modifies this`derivations
      ensures Valid()
      ensures Enumerates(outs, outputs)
      ensures r.Returns? ==>
        var (s, inputs, change) := r.value;
        CanSend(old(View()), a, outs, s) && inputs == ContextInputs(s.coins) && change == ChangeCoins(old(View()), Amounts(a, s))
      ensures r.Returns? ==> View() == AfterChildren(old(View()), |Amounts(a, r.value.0)|)
      ensures !r.Returns? ==> View() == old(View()) && forall s :: !CanSend(old(View()), a, outs, s)
    {
      hide Funded, Eligible, SortByValue, Enumerates, Inv, ChangeCoins, ContextInputs, AfterChildren;
      ghost var before := View();
      var chosen;
      chosen, outs := ChooseCoins(a);
      match chosen
      case Panics => return Panics, outs;
      case Fails(error) => return Fails(error), outs;
      case Returns(s) =>
        ChosenMaySend(before, sent, a, outs, s);
        hide CanSend;
        var change := InputsAndChange(s.total - s.amount - s.fee, a.changeOutputs);
        if change.Panics? {
          return Panics, outs;
        }
        var inputs := RecordInputs(s.coins);
        return Returns((s, inputs, change.value)), outs;
    }

    /** The loop of `build_send_tx` that records the inputs in the context. */
    method RecordInputs(coins: seq<OutputData>) returns (inputIds: seq<ContextCoin>)
      ensures inputIds == ContextInputs(coins)
    {
      inputIds := [];
      for i := 0 to |coins|
        invariant inputIds == ContextInputs(coins)[..i]
      {
        inputIds := inputIds + [(coins[i].keyId, coins[i].mmrIndex, coins[i].value)];
      }
      assert ContextInputs(coins)[..|coins|] == ContextInputs(coins);
    }

    /** The sender's context, saved once its part of the slate is made. */
    method SavePrivateContext(slateId: nat, context: Context)
      requires Inv(View().(contexts := contexts[(slateId, 0) := context]), sent)
      modifies this`contexts
      ensures Valid() && View() == old(View()).(contexts := old(contexts)[(slateId, 0) := context])
    {
      contexts := contexts[(slateId, 0) := context];
    }

    /** The input loop of the locking batch, on a copy of the outputs. */
    method LockInputs(inputs: seq<ContextCoin>, logId: nat) returns (batch: map<OutputKey, OutputData>, debited: nat)
      requires CoinKeys(inputs) <= outputs.Keys
      requires forall k :: k in outputs ==> outputs[k].Key() == k
      ensures batch == LockOutputs(outputs, CoinKeys(inputs), logId) && debited == Debited(outputs, inputs)
    {
      batch, debited := outputs, 0;
      for i := 0 to |inputs|
        invariant CoinKeys(inputs[..i]) <= outputs.Keys
        invariant batch == LockOutputs(outputs, CoinKeys(inputs[..i]), logId)
        invariant debited == Debited(outputs, inputs[..i])
      {
        assert inputs[..i + 1][..i] == inputs[..i];
        LastCoinIsKey(inputs[..i + 1]);
        assert CoinKey(inputs[i]) in CoinKeys(inputs);
        var coin := outputs[CoinKey(inputs[i])];
        coin := coin.(txLogEntry := Some(logId));
        debited := debited + coin.value;
        batch := batch[coin.Key() := coin.Lock()];
      }
      assert inputs[..|inputs|] == inputs;
    }

    /** The change loop of the locking batch. */
    method StoreChange(start: map<OutputKey, OutputData>, context: Context, height: nat, logId: nat)
      returns (batch: map<OutputKey, OutputData>, credited: nat)
      ensures batch == Saved(start, ChangeOutputs(context, height, logId)) && credited == CoinSum(context.outputIds)
    {
      batch, credited := start, 0;
      ghost var outs := ChangeOutputs(context, height, logId);
      for i := 0 to |context.outputIds|
        invariant batch == Saved(start, outs[..i])
        invariant credited == CoinSum(context.outputIds[..i])
      {
        var (id, _, value) := context.outputIds[i];
        OneMoreChange(start, outs, context.outputIds, i);
        hide Saved, CoinSum;
        credited := credited + value;
        var o := PendingOutput(context.parentKeyId, id, value, height, logId);
        batch := batch[o.Key() := o];
      }
      assert outs[..|outs|] == outs && context.outputIds[..|context.outputIds|] == context.outputIds;
    }

    /** `lock_tx_context`: one batch, committed as a whole. An input that is no longer
        stored aborts it. */
    method TxLockOutputs(slateId: nat, height: nat, fee: nat) returns (r: Outcome<(), WalletError>)
      requires Valid()
      modifies this
      ensures (slateId, 0) !in old(contexts) ==> r == Fails(ContextNotFound)
      ensures !r.Returns? ==> View() == old(View()) && sent == old(sent)
      ensures (slateId, 0) in old(contexts) ==>
        var ctx := old(contexts)[(slateId, 0)];
        && (r.Returns? <==> CoinKeys(ctx.inputIds) <= old(outputs).Keys)
        && (r.Returns? ==> View() == Lock(old(View()), ctx, slateId, height, fee))
        && (r.Returns? ==> sent == AfterSend(old(sent), old(View()), ctx))
        && (r.Returns? ==> (LockSafe(old(View()), ctx) <==> Valid() && SpentStays(old(View()), View())))
    {
      hide Inv, LockSafe, SpentStays, Debited, CoinKeys, CoinSum, ChangeOutputs, LockOutputs, Saved, Lock, AfterSend;
      if (slateId, 0) !in contexts {
        return Fails(ContextNotFound);
      }
      var context := contexts[(slateId, 0)];
      if !(CoinKeys(context.inputIds) <= outputs.Keys) {
        return Panics;
      }
      KeysMatch();
      ghost var before := View();
      LockStays(before, sent, context, slateId, height, fee);
      var parent := context.parentKeyId;
      var logId := NextTxLogId(parent);
      var batch, debited := LockInputs(context.inputIds, logId);
      var credited;
      batch, credited := StoreChange(batch, context, height, logId);
      var t := NewEntry(parent, TxSent, logId).(
        txSlateId := Some(slateId), fee := Some(fee), numInputs := |context.inputIds|,
        numOutputs := |context.outputIds|, amountDebited := debited, amountCredited := credited);
      LockIs(before, context, slateId, height, fee, sent, t);
      hide NewEntry;
      outputs := batch;
      txLogs := txLogs[(parent, logId) := t];
      sent := sent[(parent, logId) := CoinKeys(context.inputIds)];
      return Returns(());
    }

    /** The search for an earlier receipt of the slate. */
    method IsReceived(parent: Identifier, slateId: nat) returns (b: bool)
      ensures b == AlreadyReceived(View(), parent, slateId)
    {
      b := exists k :: (k in txLogs && txLogs[k].parentKeyId == parent
                        && txLogs[k].txSlateId == Some(slateId) && txLogs[k].txType == TxReceived);
    }

    /** The wallet's side of `build_recipient_output`: a fresh key, one batch. */
    method BuildRecipientOutput(parent: Identifier, slateId: nat, amount: nat, height: nat) returns (keyId: Identifier)
      requires Valid()
      modifies this
      ensures Valid() && sent == old(sent)
      ensures keyId == old(View()).NextKey() && View() == Receive(old(View()), parent, slateId, amount, height)
    {
      ReceiveKeeps(View(), sent, parent, slateId, amount, height);
      hide Inv, StoreReceived;
      keyId := NextChild();
      CommitReceived(parent, keyId, slateId, amount, height);
    }

    method CommitReceived(parent: Identifier, keyId: Identifier, slateId: nat, amount: nat, height: nat)
      modifies this`txLogIds, this`outputs, this`txLogs
      ensures View() == StoreReceived(old(View()), parent, keyId, slateId, amount, height)
    {
      var logId := NextTxLogId(parent);
      var t := NewEntry(parent, TxReceived, logId).(txSlateId := Some(slateId), amountCredited := amount, numOutputs := 1);
      var o := PendingOutput(parent, keyId, amount, height, logId);
      outputs := outputs[o.Key() := o];
      txLogs := txLogs[(parent, logId) := t];
    }

    /** `receive_coinbase`. A key asked for is taken if an output is stored under it,
        whatever its status. */
    method ReceiveCoinbase(key: Option<Identifier>, value: nat, height: nat) returns (keyId: Identifier)
      requires Valid()
      modifies this
      ensures sent == old(sent) && (MayReplace(old(View()), key) ==> Valid())
      ensures View() == Coinbase(old(View()), key, value, height)
      ensures keyId == if Replaces(old(View()), key) then key.value else old(View()).NextKey()
    {
      hide Inv, MayReplace, Replaces, Coinbase, CoinbaseOutput, State.SaveOutput, State.AfterNextChild, State.NextKey;
      MayStoreCoinbase(View(), sent, key, value, height);
      CoinbaseParts(View(), key, value, height);
      if key.Some? && (key.value, None) in outputs {
        keyId := key.value;
      } else {
        keyId := NextChild();
      }
      StoreCoinbase(keyId, value, height);
    }

    method StoreCoinbase(keyId: Identifier, value: nat, height: nat)
      modifies this`outputs
      ensures View() == old(View()).SaveOutput(CoinbaseOutput(parentKeyId, keyId, value, height))
    {
      var o := OutputData(parentKeyId, keyId, keyId.LastPathIndex(), None, value, Unconfirmed, height,
                          height + COINBASE_MATURITY, true, None);
      outputs := outputs[o.Key() := o];
    }

    // ----- cancelling

    predicate Asked(t: TxLogEntry, parent: Identifier, txId: Option<nat>, slateId: Option<nat>) {
      && t.parentKeyId == parent
      && (txId.Some? ==> t.id == txId.value)
      && (slateId.Some? ==> t.txSlateId == slateId)
    }

    /** The loop of `cancel_tx_and_outputs`, on a copy of the outputs. */
    method CancelLoop(t: TxLogEntry) returns (batch: map<OutputKey, OutputData>)
      requires forall k :: k in outputs ==> outputs[k].Key() == k
      ensures batch == CancelOutputs(outputs, t)
    {
      var outs := Outputs();
      batch := outputs;
      ghost var keys := KeysOf(outs);
      for i := 0 to |outs|
        invariant batch == PartlyCancelled(outputs, t, keys[..i])
      {
        var o := outs[i];
        assert keys[i] == o.Key() && keys[i] !in keys[..i] && keys[..i + 1] == keys[..i] + [keys[i]];
        CancelOneMore(outputs, t, keys[..i], keys[i]);
        hide PartlyCancelled;
        if BelongsTo(o, t) {
          if o.status == Unconfirmed {
            batch := batch - {o.Key()};
          }
          if o.status == Locked {
            batch := batch[o.Key() := o.(status := Unspent)];
          }
        }
      }
      assert keys[..|outs|] == keys;
    }

    /** The entry asked for, the first of the account if several match; then its outputs. */
    method CancelTx(parent: Identifier, txId: Option<nat>, slateId: Option<nat>) returns (r: Result<(), WalletError>, ghost e: LogKey)
      requires Valid()
      modifies this
      ensures Valid() && sent == old(sent)
      ensures r == Err(TransactionDoesntExist) <==>
        forall k :: k in old(txLogs) ==>
          var t := old(txLogs)[k];
          !(t.parentKeyId == parent && (txId.Some? ==> t.id == txId.value) && (slateId.Some? ==> t.txSlateId == slateId))
      ensures txId.Some? && slateId.None? ==> (r == Err(TransactionDoesntExist) <==> (parent, txId.value) !in old(txLogs))
      ensures r != Err(TransactionDoesntExist) ==> e in old(txLogs) && e.0 == parent && (txId.Some? ==> e.1 == txId.value)
      ensures r != Err(TransactionDoesntExist) && slateId.Some? ==>
        && old(txLogs)[e].txSlateId == slateId
        && forall k :: k in old(txLogs) && k.0 == parent && old(txLogs)[k].txSlateId == slateId && (txId.Some? ==> k.1 == txId.value) ==> e.1 <= k.1
      ensures r.Ok? ==> Cancellable(old(txLogs)[e]) && View() == Cancel(old(View()), old(txLogs)[e])
      ensures r.Err? ==> View() == old(View())
      ensures r != Err(TransactionDoesntExist) ==>
        var t := old(txLogs)[e];
        r == (if !t.confirmed && (t.txType == TxSent || t.txType == TxReceived) then Ok(()) else Err(TransactionNotCancellable))
    {
      EntriesMatch();
      hide Inv, CancelOutputs;
      var found := FindEntry(parent, txId, slateId);
      e := (parent, 0);
      if found.None? {
        return Err(TransactionDoesntExist), e;
      }
      e := found.value;
      var t := txLogs[found.value];
      if (t.txType != TxSent && t.txType != TxReceived) || t.confirmed {
        return Err(TransactionNotCancellable), e;
      }
      CancelTxAndOutputs(t);
      return Ok(()), e;
    }

    /** The batch of a cancel. */
    method CancelTxAndOutputs(t: TxLogEntry)
      requires Valid() && (t.parentKeyId, t.id) in txLogs && txLogs[(t.parentKeyId, t.id)] == t && Cancellable(t)
      modifies this
      ensures Valid() && sent == old(sent) && View() == Cancel(old(View()), t)
    {
      hide Inv, CancelOutputs, Cancellable, SpentStays, CountersGrow;
      KeysMatch();
      CancelKeeps(View(), sent, (t.parentKeyId, t.id));
      var batch := CancelLoop(t);
      outputs := batch;
      txLogs := txLogs[(t.parentKeyId, t.id) := Cancelled(t)];
    }

    /** `retrieve_txs` for one entry: the first that matches, if any. */
    method FindEntry(parent: Identifier, txId: Option<nat>, slateId: Option<nat>) returns (found: Option<LogKey>)
      requires forall e :: e in txLogs ==> txLogs[e].parentKeyId == e.0 && txLogs[e].id == e.1
      ensures found.None? <==> forall k :: k in txLogs ==>
        !(k.0 == parent && (txId.Some? ==> k.1 == txId.value) && (slateId.Some? ==> txLogs[k].txSlateId == slateId))
      ensures found.Some? ==>
        var e := found.value;
        && e in txLogs && e.0 == parent && (txId.Some? ==> e.1 == txId.value) && (slateId.Some? ==> txLogs[e].txSlateId == slateId)
        && (slateId.Some? ==>
              forall k :: k in txLogs && k.0 == parent && txLogs[k].txSlateId == slateId && (txId.Some? ==> k.1 == txId.value) ==> e.1 <= k.1)
    {
      var matching := set k | k in txLogs && Asked(txLogs[k], parent, txId, slateId);
      if matching == {} {
        assert forall k :: k in txLogs ==> k !in matching;
        return None;
      }
      var key := FirstEntry(matching);
      return Some(key);
    }

    /** Matching entries come in the order of creation. Those of slates are created in
        the order of their ids. */
    method FirstEntry(found: set<LogKey>) returns (key: LogKey)
      requires found != {}
      ensures key in found && forall k :: k in found ==> key.1 <= k.1
    {
      key :| key in found;
      var left := found - {key};
      while left != {}
        invariant left <= found && key in found
        invariant forall k :: k in found && k !in left ==> key.1 <= k.1
        decreases |left|
      {
        var k :| k in left;
        if k.1 < key.1 {
          key := k;
        }
        left := left - {k};
      }
    }

    // ----- refreshing

    /** `map_wallet_outputs`; of outputs with the same commitment the last one wins. */
    method MapWalletOutputs(parent: Identifier, updateAll: bool) returns (tracked: map<OutputCommit, OutputKey>)
      requires Valid()
      ensures Maps(View(), parent, updateAll, tracked)
    {
      KeysMatch();
      hide Inv, Tracked;
      var outs := Outputs();
      EachStored(outs, outputs);
      EachListed(outs, outputs);
      hide Enumerates, Maps, MapsFirst;
      tracked := map[];
      MapsNone(View(), parent, updateAll, outs);
      for i := 0 to |outs|
        invariant MapsFirst(View(), parent, updateAll, outs, i, tracked)
      {
        var isTracked := IsTracked(parent, updateAll, outs[i]);
        MapsOneMore(View(), parent, updateAll, outs, i, tracked);
        if isTracked {
          tracked := tracked[outs[i].Commit() := outs[i].Key()];
        }
      }
      MapsAll(View(), parent, updateAll, outs, tracked);
    }

    /** The filters of `map_wallet_outputs`. */
    method IsTracked(parent: Identifier, updateAll: bool, o: OutputData) returns (b: bool)
      ensures b == Tracked(View(), parent, updateAll, o)
    {
      b := o.rootKeyId == parent && o.status != Spent
        && (updateAll || o.txLogEntry.None?
            || exists k :: (k in txLogs && txLogs[k].parentKeyId == parent
                            && txLogs[k].id == o.txLogEntry.value && Outstanding(txLogs[k])));
    }

    /** One turn of the loop of `apply_api_outputs`: `store` is what is committed,
        `batch` what the batch wrote so far. */
    method ApplyOutput(store: State, batch: State, key: OutputKey, commit: OutputCommit, api: NodeAnswer, parent: Identifier)
      returns (batch': State)
      ensures batch' == ApplyOne(store, batch, key, commit, api, parent)
    {
      batch' := batch;
      if key in store.outputs {
        var output := store.outputs[key];
        if commit in api {
          if output.isCoinbase && output.status == Unconfirmed {
            var logId := batch'.NextLogId(parent);
            batch' := batch'.AfterNextLogId(parent).SaveLog(ConfirmedEntry(parent, logId, output));
            output := output.(txLogEntry := Some(logId));
          } else if !output.isCoinbase && output.status == Unconfirmed {
            if output.txLogEntry.Some? && (parent, output.txLogEntry.value) in store.logs {
              batch' := batch'.SaveLog(store.logs[(parent, output.txLogEntry.value)].(confirmed := true));
            }
          }
          output := output.(height := api[commit]).MarkUnspent();
        } else {
          output := output.MarkSpent();
        }
        batch' := batch'.SaveOutput(output);
      }
    }

    /** The loop, over the tracked outputs in some order. */
    method ApplyLoop(tracked: map<OutputCommit, OutputKey>, api: NodeAnswer, parent: Identifier)
      returns (batch: State, ghost order: seq<OutputCommit>)
      ensures Orders(order, tracked) && batch == ApplyInOrder(View(), order, tracked, api, parent)
    {
      hide ApplyOne;
      var store := View();
      batch := store;
      order := [];
      var left := tracked.Keys;
      while left != {}
        invariant left <= tracked.Keys
        invariant forall i, j :: 0 <= i < j < |order| ==> order[i] != order[j]
        invariant forall c :: c in order <==> c in tracked && c !in left
        invariant batch == ApplyInOrder(store, order, tracked, api, parent)
        decreases |left|
      {
        var commit :| commit in left;
        batch := ApplyOutput(store, batch, tracked[commit], commit, api, parent);
        assert (order + [commit])[..|order|] == order;
        order := order + [commit];
        left := left - {commit};
      }
    }

    /** `apply_api_outputs`: nothing is written for a node below the last confirmed
        height, else one batch. */
    method ApplyApiOutputs(tracked: map<OutputCommit, OutputKey>, api: NodeAnswer, height: nat, parent: Identifier, ghost updateAll: bool)
      returns (ghost order: seq<OutputCommit>)
      requires Valid() && Maps(View(), parent, updateAll, tracked)
      modifies this
      ensures Valid() && sent == old(sent)
      ensures Orders(order, tracked) && View() == Apply(old(View()), order, tracked, api, height, parent)
    {
      hide Inv, Maps, ApplyInOrder, Orders;
      var lastConfirmedHeight := if parentKeyId in confirmedHeights then confirmedHeights[parentKeyId] else 0;
      var batch;
      batch, order := ApplyLoop(tracked, api, parent);
      ApplyKeeps(View(), sent, order, tracked, api, height, parent, updateAll);
      if height < lastConfirmedHeight {
        return;
      }
      batch := batch.(confirmedHeight := batch.confirmedHeight[batch.active := height]);
      Commit(batch);
    }

    method Commit(batch: State)
      modifies this
      ensures View() == batch && sent == old(sent)
    {
      parentKeyId, outputs, txLogs := batch.active, batch.outputs, batch.logs;
      txLogIds, derivations := batch.nextLogId, batch.childIndex;
      confirmedHeights, contexts := batch.confirmedHeight, batch.contexts;
    }

    /** The key ids of coinbases that were never mined. */
    method StaleIds(height: nat) returns (idsToDel: seq<Identifier>)
      requires height >= 50
      requires forall k :: k in outputs ==> outputs[k].Key() == k
      ensures forall id :: id in idsToDel <==> (id, None) in StaleKeys(outputs, height)
    {
      var outs := Outputs();
      idsToDel := [];
      for i := 0 to |outs|
        invariant forall id :: id in idsToDel <==> exists j :: 0 <= j < i && IsStale(outs[j], height) && outs[j].keyId == id
      {
        var out := outs[i];
        if out.status == Unconfirmed && out.height > 0 && out.height < height - 50 && out.isCoinbase {
          assert IsStale(out, height);
          idsToDel := idsToDel + [out.keyId];
        }
      }
      forall id ensures id in idsToDel <==> (id, None) in StaleKeys(outputs, height) {
        StaleListed(outs, outputs, height, id);
      }
    }

    /** The loop that deletes them. */
    method DeleteIds(idsToDel: seq<Identifier>) returns (batch: map<OutputKey, OutputData>)
      ensures batch == outputs - (set id | id in idsToDel :: (id, None))
    {
      batch := outputs;
      for i := 0 to |idsToDel|
        invariant batch == outputs - (set id | id in idsToDel[..i] :: (id, None))
      {
        assert idsToDel[..i + 1] == idsToDel[..i] + [idsToDel[i]];
        batch := batch - {(idsToDel[i], None)};
      }
      assert idsToDel[..|idsToDel|] == idsToDel;
    }

    /** Old coinbases that were never mined are deleted, by key. */
    method CleanOldUnconfirmed(height: nat)
      requires Valid()
      modifies this`outputs
      ensures Valid() && View() == Clean(old(View()), height)
    {
      hide Inv, StaleKeys;
      CleanKeeps(View(), sent, height);
      if height < 50 {
        NothingStale(outputs, height);
        return;
      }
      KeysMatch();
      var idsToDel := StaleIds(height);
      StaleAreListed(outputs, height, idsToDel);
      var batch := DeleteIds(idsToDel);
      outputs := batch;
    }

    /** `refresh_outputs` with whatever the node answers. */
    method RefreshOutputs(parent: Identifier, updateAll: bool, api: NodeAnswer, height: nat)
      returns (ghost tracked: map<OutputCommit, OutputKey>, ghost order: seq<OutputCommit>)
      requires Valid()
      modifies this
      ensures Valid()
      ensures Next(old(View()), old(sent), RefreshStep(parent, updateAll, tracked, order, api, height), View(), sent)
    {
      hide Inv, Maps, Orders, Apply, Clean;
      var walletOutputs := MapWalletOutputs(parent, updateAll);
      tracked := walletOutputs;
      order := ApplyApiOutputs(walletOutputs, api, height, parent, updateAll);
      CleanOldUnconfirmed(height);
    }

    // ----- summary

    method RetrieveSummary(parent: Identifier, minimumConfirmations: nat) returns (info: WalletInfo)
      requires Valid()
      ensures info == InfoOf(outputs, Query(parent, View().LastConfirmedHeight(), minimumConfirmations))
    {
      KeysMatch();
      hide Inv;
      var outs := Outputs();
      info := RetrieveInfo(outs, Query(parent, View().LastConfirmedHeight(), minimumConfirmations), outputs);
    }
  }

  lemma EachStored(outs: seq<OutputData>, m: map<OutputKey, OutputData>)
    requires Enumerates(outs, m)
    ensures forall i :: 0 <= i < |outs| ==> outs[i].Key() in m && m[outs[i].Key()] == outs[i]
  {
    assert forall i :: 0 <= i < |outs| ==> KeysOf(outs)[i] == outs[i].Key();
  }

  lemma EachListed(outs: seq<OutputData>, m: map<OutputKey, OutputData>)
    requires Enumerates(outs, m)
    ensures forall k :: k in m ==> exists j :: 0 <= j < |outs| && outs[j] == m[k]
  {
    forall k | k in m ensures exists j :: 0 <= j < |outs| && outs[j] == m[k] {
      var j :| 0 <= j < |outs| && KeysOf(outs)[j] == k;
      assert outs[j] == m[k];
    }
  }

  /** What is mapped once the first `n` outputs are visited. */
  ghost predicate MapsFirst(st: State, parent: Identifier, updateAll: bool, outs: seq<OutputData>, n: nat,
      tracked: map<OutputCommit, OutputKey>)
  {
    && (forall c :: c in tracked ==>
          tracked[c] in st.outputs && st.outputs[tracked[c]].Commit() == c
          && Tracked(st, parent, updateAll, st.outputs[tracked[c]]))
    && (forall j :: 0 <= j < n && j < |outs| && Tracked(st, parent, updateAll, outs[j]) ==> outs[j].Commit() in tracked)
  }

  lemma MapsNone(st: State, parent: Identifier, updateAll: bool, outs: seq<OutputData>)
    ensures MapsFirst(st, parent, updateAll, outs, 0, map[])
  {
  }

  lemma MapsOneMore(st: State, parent: Identifier, updateAll: bool, outs: seq<OutputData>, n: nat,
      tracked: map<OutputCommit, OutputKey>)
    requires MapsFirst(st, parent, updateAll, outs, n, tracked) && n < |outs|
    requires outs[n].Key() in st.outputs && st.outputs[outs[n].Key()] == outs[n]
    ensures MapsFirst(st, parent, updateAll, outs, n + 1,
                      if Tracked(st, parent, updateAll, outs[n]) then tracked[outs[n].Commit() := outs[n].Key()] else tracked)
  {
    hide Tracked;
  }

  lemma MapsAll(st: State, parent: Identifier, updateAll: bool, outs: seq<OutputData>, tracked: map<OutputCommit, OutputKey>)
    requires MapsFirst(st, parent, updateAll, outs, |outs|, tracked)
    requires forall k :: k in st.outputs ==> exists j :: 0 <= j < |outs| && outs[j] == st.outputs[k]
    ensures Maps(st, parent, updateAll, tracked)
  {
    hide Tracked;
  }

  lemma StaleListed(outs: seq<OutputData>, m: map<OutputKey, OutputData>, height: nat, id: Identifier)
    requires Enumerates(outs, m)
    ensures (id, None) in StaleKeys(m, height) <==> exists j :: 0 <= j < |outs| && IsStale(outs[j], height) && outs[j].keyId == id
  {
    var keys := KeysOf(outs);
    if (id, None) in StaleKeys(m, height) {
      var k :| k in m && IsStale(m[k], height) && m[k].keyId == id;
      assert k in keys;
      var j :| 0 <= j < |keys| && keys[j] == k;
      assert outs[j] == m[k];
    }
    if j :| 0 <= j < |outs| && IsStale(outs[j], height) && outs[j].keyId == id {
      assert keys[j] in m && m[keys[j]] == outs[j];
    }
  }

  lemma NothingStale(m: map<OutputKey, OutputData>, height: nat)
    requires height < 50
    ensures m - StaleKeys(m, height) == m
  {
    assert StaleKeys(m, height) == {};
  }

  lemma StaleAreListed(m: map<OutputKey, OutputData>, height: nat, ids: seq<Identifier>)
    requires forall id :: id in ids <==> (id, None) in StaleKeys(m, height)
    ensures (set id | id in ids :: (id, None)) == StaleKeys(m, height)
  {
    hide IsStale;
    forall k | k in StaleKeys(m, height) ensures k.1.None? {
    }
    hide StaleKeys;
    forall k | k in StaleKeys(m, height) ensures k.0 in ids {
      assert k == (k.0, None);
    }
  }

  /** The copy of the outputs once those with keys in `done` are visited. */
  ghost function PartlyCancelled(m: map<OutputKey, OutputData>, t: TxLogEntry, done: seq<OutputKey>): map<OutputKey, OutputData> {
    map k | k in m && !(k in done && BelongsTo(m[k], t) && m[k].status == Unconfirmed) ::
      if k in done then Unlocked(m[k], t) else m[k]
  }

  lemma CancelOneMore(m: map<OutputKey, OutputData>, t: TxLogEntry, done: seq<OutputKey>, k: OutputKey)
    requires k in m && k !in done
    ensures var before, after := PartlyCancelled(m, t, done), PartlyCancelled(m, t, done + [k]);
      after == if !BelongsTo(m[k], t) then before
               else if m[k].status == Unconfirmed then before - {k}
               else if m[k].status == Locked then before[k := m[k].(status := Unspent)]
               else before
  {
  }
}
