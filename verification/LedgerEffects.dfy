/** What each batch leaves in the store, in terms of the records stored
    (src/internal/selection.rs:113-231, tx.rs:86-92, updater.rs:214-246, 355-380, 467-510). */
module LedgerEffects {
  import opened Wrappers
  import opened Outputs
  import opened Contexts
  import opened Sums
  import opened CoinSelection
  import opened Funding
  import opened Summary
  import opened Ledger
  import opened LedgerInvariant
  import opened LedgerSteps
  import opened LedgerSend
  import opened LedgerRuns
  import opened LedgerUndo

  /** The number an account has reached in a map of counters. */
  function Count(m: map<Identifier, nat>, p: Identifier): nat {
    if p in m then m[p] else 0
  }

  // ----- initiating

  /** Initiating a send records the key, index and value of each coin and hands out the
      next keys of the active account, in order, to the amounts of the change. */
  lemma InitEffect(st: State, slateId: nat, parent: Identifier, coins: seq<OutputData>, amounts: seq<nat>, own: SlateContext)
    ensures var st', n := InitSend(st, slateId, parent, coins, amounts, own), Count(st.childIndex, st.active);
      && (slateId, 0) in st'.contexts
      && var ctx := st'.contexts[(slateId, 0)];
      && ctx.parentKeyId == parent && ctx.own == own && |ctx.inputIds| == |coins| && |ctx.outputIds| == |amounts|
      && (forall i :: 0 <= i < |coins| ==> ctx.inputIds[i] == (coins[i].keyId, coins[i].mmrIndex, coins[i].value))
      && (forall i :: 0 <= i < |amounts| ==>
            ctx.outputIds[i] == (Identifier(st.active.path + [n + i]), None, amounts[i]))
      && st'.outputs == st.outputs && st'.logs == st.logs && st'.nextLogId == st.nextLogId && st'.active == st.active
      && st'.confirmedHeight == st.confirmedHeight && st'.contexts == st.contexts[(slateId, 0) := ctx]
      && (forall p :: Count(st'.childIndex, p) == Count(st.childIndex, p) + if p == st.active then |amounts| else 0)
  {
    var st', ctx := InitSend(st, slateId, parent, coins, amounts, own), SendContext(st, parent, coins, amounts, own);
    SameButChildren(st, |amounts|);
    ChildrenCounted(st, |amounts|);
    hide AfterChildren;
    assert st'.contexts == st.contexts[(slateId, 0) := ctx];
    assert st'.childIndex == AfterChildren(st, |amounts|).childIndex;
    ChangeCoinsAre(st, amounts);
    hide ChangeCoins;
  }

  lemma ChangeCoinsAre(st: State, amounts: seq<nat>)
    ensures var coins, n := ChangeCoins(st, amounts), Count(st.childIndex, st.active);
      forall i :: 0 <= i < |amounts| ==> coins[i] == (Identifier(st.active.path + [n + i]), None, amounts[i])
  {
    var coins, n := ChangeCoins(st, amounts), Count(st.childIndex, st.active);
    forall i | 0 <= i < |amounts| ensures coins[i] == (Identifier(st.active.path + [n + i]), None, amounts[i]) {
      assert n == st.ChildIndex(st.active);
      assert coins[i].0 == st.active.Child(n + i);
    }
  }

  lemma ChildrenCounted(st: State, n: nat)
    ensures var st' := AfterChildren(st, n);
      && st'.active == st.active && st'.confirmedHeight == st.confirmedHeight
      && forall p :: Count(st'.childIndex, p) == Count(st.childIndex, p) + if p == st.active then n else 0
  {
    if n == 0 {
    } else {
      assert AfterChildren(st, n).childIndex == st.childIndex[st.active := Count(st.childIndex, st.active) + n];
    }
  }

  // ----- locking

  /** The record of an output a transaction makes. */
  predicate IsMade(o: OutputData, root: Identifier, key: Identifier, value: nat, height: nat, logId: nat) {
    && o.rootKeyId == root && o.keyId == key && o.mmrIndex == None && o.value == value
    && o.status == Unconfirmed && o.height == height && o.lockHeight == 0 && !o.isCoinbase && o.txLogEntry == Some(logId)
    && (key.path != [] ==> o.nChild == key.path[|key.path| - 1])
  }

  lemma ChangeIsStored(st: State, ctx: Context, slateId: nat, height: nat, fee: nat, i: nat)
    requires Lockable(st, ctx) && i < |ctx.outputIds|
    ensures CoinKeys(ctx.inputIds) <= st.outputs.Keys
    ensures var c, m := ctx.outputIds[i], Lock(st, ctx, slateId, height, fee).outputs;
      (c.0, None) in m && IsMade(m[(c.0, None)], ctx.parentKeyId, c.0, c.2, height, Count(st.nextLogId, ctx.parentKeyId))
  {
    LockableIsSafe(st, ctx);
    var id := st.NextLogId(ctx.parentKeyId);
    var outs := ChangeOutputs(ctx, height, id);
    hide CoinKeys, LockOutputs, SentEntry;
    forall a, b | 0 <= a < b < |outs| ensures outs[a].Key() != outs[b].Key() {
      assert ctx.outputIds[a].0 != ctx.outputIds[b].0;
    }
    hide Lockable;
    SavedAt(LockOutputs(st.outputs, CoinKeys(ctx.inputIds), id), outs, i);
  }

  lemma {:induction false} SavedAt(m: map<OutputKey, OutputData>, outs: seq<OutputData>, i: nat)
    requires i < |outs| && forall a, b :: 0 <= a < b < |outs| ==> outs[a].Key() != outs[b].Key()
    ensures outs[i].Key() in Saved(m, outs) && Saved(m, outs)[outs[i].Key()] == outs[i]
  {
    var n := |outs| - 1;
    if i == n {
    } else {
      SavedAt(m, outs[..n], i);
      assert outs[i].Key() != outs[n].Key();
    }
  }

  /** The context names the key as one of its inputs. */
  predicate IsInput(ctx: Context, k: OutputKey) {
    exists i :: 0 <= i < |ctx.inputIds| && k == (ctx.inputIds[i].0, ctx.inputIds[i].1)
  }

  /** Locking a send that was just initiated. The change is stored, each output with its
      own value; the inputs are locked for the new entry; nothing else is touched; the
      entry is as it says. */
  lemma LockEffect(st: State, ctx: Context, slateId: nat, height: nat, fee: nat)
    requires Lockable(st, ctx)
    ensures CoinKeys(ctx.inputIds) <= st.outputs.Keys
    ensures var st', p, id := Lock(st, ctx, slateId, height, fee), ctx.parentKeyId, Count(st.nextLogId, ctx.parentKeyId);
      && (forall i :: 0 <= i < |ctx.outputIds| ==>
            && (ctx.outputIds[i].0, None) in st'.outputs
            && IsMade(st'.outputs[(ctx.outputIds[i].0, None)], p, ctx.outputIds[i].0, ctx.outputIds[i].2, height, id))
      && (forall k :: IsInput(ctx, k) ==> k in st.outputs)
      && (forall k :: k in st.outputs ==>
            && k in st'.outputs
            && st'.outputs[k] == if IsInput(ctx, k) then st.outputs[k].(status := Locked, txLogEntry := Some(id)) else st.outputs[k])
      && (forall k :: k in st'.outputs && k !in st.outputs ==>
            exists i :: 0 <= i < |ctx.outputIds| && k == (ctx.outputIds[i].0, None))
      && (p, id) in st'.logs && IsSend(st'.logs[(p, id)], p, id, slateId, |ctx.inputIds|, |ctx.outputIds|, fee)
      && st'.logs == st.logs[(p, id) := st'.logs[(p, id)]] && st'.contexts == st.contexts && st'.childIndex == st.childIndex
      && (forall q :: Count(st'.nextLogId, q) == Count(st.nextLogId, q) + if q == p then 1 else 0)
  {
    LockableIsSafe(st, ctx);
    var st' := Lock(st, ctx, slateId, height, fee);
    LockIsLogged(st, ctx, slateId, height, fee);
    LockCounts(st, ctx, slateId, height, fee);
    InputsAre(ctx);
    hide Lock, Lockable, CoinKeys, IsMade, IsInput, IsSend;
    forall i | 0 <= i < |ctx.outputIds|
      ensures var c := ctx.outputIds[i];
        (c.0, None) in st'.outputs && IsMade(st'.outputs[(c.0, None)], ctx.parentKeyId, c.0, c.2, height, Count(st.nextLogId, ctx.parentKeyId))
    {
      ChangeIsStored(st, ctx, slateId, height, fee, i);
    }
    forall k | k in st.outputs
      ensures k in st'.outputs
      ensures st'.outputs[k]
        == if IsInput(ctx, k) then st.outputs[k].(status := Locked, txLogEntry := Some(Count(st.nextLogId, ctx.parentKeyId))) else st.outputs[k]
    {
      OldOutputLocked(st, ctx, slateId, height, fee, k);
    }
    forall k | k in st'.outputs && k !in st.outputs ensures exists i :: 0 <= i < |ctx.outputIds| && k == (ctx.outputIds[i].0, None) {
      NewIsChange(st, ctx, slateId, height, fee, k);
    }
  }

  lemma InputsAre(ctx: Context)
    ensures forall k :: k in CoinKeys(ctx.inputIds) <==> IsInput(ctx, k)
  {
    forall k | IsInput(ctx, k) ensures k in CoinKeys(ctx.inputIds) {
      var i :| 0 <= i < |ctx.inputIds| && k == (ctx.inputIds[i].0, ctx.inputIds[i].1);
      assert CoinKey(ctx.inputIds[i]) == k;
    }
  }

  lemma LockIsLogged(st: State, ctx: Context, slateId: nat, height: nat, fee: nat)
    requires CoinKeys(ctx.inputIds) <= st.outputs.Keys
    ensures var st', p, id := Lock(st, ctx, slateId, height, fee), ctx.parentKeyId, Count(st.nextLogId, ctx.parentKeyId);
      && (p, id) in st'.logs && IsSend(st'.logs[(p, id)], p, id, slateId, |ctx.inputIds|, |ctx.outputIds|, fee)
      && st'.logs == st.logs[(p, id) := st'.logs[(p, id)]] && st'.contexts == st.contexts && st'.childIndex == st.childIndex
  {
    LockLogs(st, ctx, slateId, height, fee);
    hide Lock, CoinKeys, Debited, CoinSum;
  }

  /** The record of a send. */
  predicate IsSend(t: TxLogEntry, p: Identifier, id: nat, slateId: nat, inputs: nat, outputs: nat, fee: nat) {
    && t.parentKeyId == p && t.id == id && t.txSlateId == Some(slateId) && t.txType == TxSent && !t.confirmed
    && t.numInputs == inputs && t.numOutputs == outputs && t.fee == Some(fee)
  }

  lemma LockCounts(st: State, ctx: Context, slateId: nat, height: nat, fee: nat)
    requires CoinKeys(ctx.inputIds) <= st.outputs.Keys
    ensures var st' := Lock(st, ctx, slateId, height, fee);
      forall q :: Count(st'.nextLogId, q) == Count(st.nextLogId, q) + if q == ctx.parentKeyId then 1 else 0
  {
    hide CoinKeys, LockOutputs, Saved, Debited, CoinSum, ChangeOutputs;
  }

  lemma NewIsChange(st: State, ctx: Context, slateId: nat, height: nat, fee: nat, k: OutputKey)
    requires CoinKeys(ctx.inputIds) <= st.outputs.Keys && k in Lock(st, ctx, slateId, height, fee).outputs && k !in st.outputs
    ensures exists i :: 0 <= i < |ctx.outputIds| && k == (ctx.outputIds[i].0, None)
  {
    var id := st.NextLogId(ctx.parentKeyId);
    var m, outs := LockOutputs(st.outputs, CoinKeys(ctx.inputIds), id), ChangeOutputs(ctx, height, id);
    assert m.Keys == st.outputs.Keys;
    hide LockOutputs, CoinKeys, SentEntry;
    SavedLookup(m, outs, k);
    var i :| 0 <= i < |outs| && outs[i].Key() == k;
    assert k == (ctx.outputIds[i].0, None);
  }

  // ----- the books and the store

  /** An output of a status that names an entry. */
  predicate Belongs(o: OutputData, status: OutputStatus, e: LogKey) {
    o.status == status && o.rootKeyId == e.0 && o.txLogEntry == Some(e.1)
  }

  /** What the outputs of a status that name an entry are worth. */
  function WorthOf(status: OutputStatus, e: LogKey): OutputData -> nat {
    (o: OutputData) => if Belongs(o, status, e) then o.value else 0
  }

  lemma {:induction false} SavedWorth(m: map<OutputKey, OutputData>, outs: seq<OutputData>, f: OutputData -> nat)
    requires forall a, b :: 0 <= a < b < |outs| ==> outs[a].Key() != outs[b].Key()
    requires forall i :: 0 <= i < |outs| ==> outs[i].Key() !in m
    ensures SumOf(Saved(m, outs), f) == SumOf(m, f) + SumSeq(outs, f)
  {
    if outs == [] {
    } else {
      var front, last := outs[..|outs| - 1], outs[|outs| - 1];
      SavedWorth(m, front, f);
      if last.Key() in Saved(m, front) {
        SavedLookup(m, front, last.Key());
      }
      hide SumOf;
      SumInsert(Saved(m, front), f, last.Key(), last);
    }
  }

  lemma {:induction false} ChangeWorth(ctx: Context, height: nat, logId: nat, n: nat, f: OutputData -> nat)
    requires n <= |ctx.outputIds| && forall i :: 0 <= i < n ==> f(ChangeOutputs(ctx, height, logId)[i]) == ctx.outputIds[i].2
    ensures SumSeq(ChangeOutputs(ctx, height, logId)[..n], f) == CoinSum(ctx.outputIds[..n])
  {
    if n == 0 {
    } else {
      var outs := ChangeOutputs(ctx, height, logId);
      ChangeWorth(ctx, height, logId, n - 1, f);
      assert outs[..n][..n - 1] == outs[..n - 1] && ctx.outputIds[..n][..n - 1] == ctx.outputIds[..n - 1];
    }
  }

  lemma {:induction false} NoWorth(m: map<OutputKey, OutputData>, f: OutputData -> nat)
    requires forall k :: k in m ==> f(m[k]) == 0
    ensures SumOf(m, f) == 0
  {
    SumOfZero(m, f);
  }

  /** The values stored under distinct keys. */
  lemma {:induction false} KeysWorth(m: map<OutputKey, OutputData>, coins: seq<ContextCoin>, f: OutputData -> nat)
    requires CoinKeys(coins) <= m.Keys && forall a, b :: 0 <= a < b < |coins| ==> CoinKey(coins[a]) != CoinKey(coins[b])
    requires forall k :: k in m ==> f(m[k]) == if k in CoinKeys(coins) then m[k].value else 0
    ensures SumOf(m, f) == Debited(m, coins)
    decreases |coins|, 1
  {
    if coins == [] {
      SumOfZero(m, f);
    } else {
      var front, k := coins[..|coins| - 1], CoinKey(coins[|coins| - 1]);
      LastCoinIsKey(coins);
      SumRemove(m, f, k);
      forall i | 0 <= i < |front| ensures CoinKey(front[i]) != k {
      }
      assert k !in CoinKeys(front);
      RestWorth(m - {k}, m, front, f);
    }
  }

  lemma {:induction false} RestWorth(rest: map<OutputKey, OutputData>, m: map<OutputKey, OutputData>, coins: seq<ContextCoin>, f: OutputData -> nat)
    requires CoinKeys(coins) <= rest.Keys <= m.Keys && forall k :: k in rest ==> rest[k] == m[k]
    requires forall a, b :: 0 <= a < b < |coins| ==> CoinKey(coins[a]) != CoinKey(coins[b])
    requires forall k :: k in rest ==> f(rest[k]) == if k in CoinKeys(coins) then rest[k].value else 0
    ensures SumOf(rest, f) == Debited(m, coins)
    decreases |coins| + 1, 0
  {
    KeysWorth(rest, coins, f);
    DebitedDepends(m, rest, coins);
  }

  lemma NotNamed(st: State, sent: History, e: LogKey)
    requires Inv(st, sent) && e !in st.logs
    ensures forall k, status :: k in st.outputs ==> !Belongs(st.outputs[k], status, e)
  {
    forall k, status | k in st.outputs ensures !Belongs(st.outputs[k], status, e) {
      OutputIsOk(st, sent, k);
    }
    hide Inv;
  }

  /** What a send's entry credits is what its change is worth in the store, and what it
      debits what its inputs are. */
  lemma EntryIsStored(st: State, sent: History, ctx: Context, slateId: nat, height: nat, fee: nat)
    requires Inv(st, sent) && Lockable(st, ctx)
    requires forall a, b :: 0 <= a < b < |ctx.inputIds| ==> CoinKey(ctx.inputIds[a]) != CoinKey(ctx.inputIds[b])
    ensures CoinKeys(ctx.inputIds) <= st.outputs.Keys
    ensures var st', e := Lock(st, ctx, slateId, height, fee), (ctx.parentKeyId, Count(st.nextLogId, ctx.parentKeyId));
      && e in st'.logs
      && SumOf(st'.outputs, WorthOf(Unconfirmed, e)) == st'.logs[e].amountCredited
      && SumOf(st'.outputs, WorthOf(Locked, e)) == st'.logs[e].amountDebited
  {
    var e := SentKey(st, ctx);
    LockableIsSafe(st, ctx);
    NextLogIdIsNew(st, sent, ctx.parentKeyId);
    NotNamed(st, sent, e);
    LockLogs(st, ctx, slateId, height, fee);
    PendingWorth(st, ctx, slateId, height, fee);
    LockedWorth(st, ctx, slateId, height, fee);
    hide Inv, Lockable, Lock, CoinKeys, SumOf, WorthOf;
  }

  lemma ChangeKeysAreNew(st: State, ctx: Context, height: nat)
    requires Lockable(st, ctx)
    ensures var outs := ChangeOutputs(ctx, height, st.NextLogId(ctx.parentKeyId));
      && (forall a, b :: 0 <= a < b < |outs| ==> outs[a].Key() != outs[b].Key())
      && (forall i :: 0 <= i < |outs| ==> outs[i].Key() !in st.outputs)
  {
    var outs := ChangeOutputs(ctx, height, st.NextLogId(ctx.parentKeyId));
    hide CoinKeys;
    forall i | 0 <= i < |outs| ensures outs[i].Key() !in st.outputs {
      assert ChangeIsNew(st, ctx.outputIds[i]);
    }
    forall a, b | 0 <= a < b < |outs| ensures outs[a].Key() != outs[b].Key() {
      assert ctx.outputIds[a].0 != ctx.outputIds[b].0;
    }
  }

  lemma PendingWorth(st: State, ctx: Context, slateId: nat, height: nat, fee: nat)
    requires Lockable(st, ctx) && CoinKeys(ctx.inputIds) <= st.outputs.Keys
    requires forall k, status :: k in st.outputs ==> !Belongs(st.outputs[k], status, SentKey(st, ctx))
    ensures SumOf(Lock(st, ctx, slateId, height, fee).outputs, WorthOf(Unconfirmed, SentKey(st, ctx))) == CoinSum(ctx.outputIds)
  {
    var id, f := st.NextLogId(ctx.parentKeyId), WorthOf(Unconfirmed, SentKey(st, ctx));
    var m, outs := LockOutputs(st.outputs, CoinKeys(ctx.inputIds), id), ChangeOutputs(ctx, height, id);
    ChangeKeysAreNew(st, ctx, height);
    forall k | k in m ensures f(m[k]) == 0 {
      assert !Belongs(st.outputs[k], Unconfirmed, SentKey(st, ctx));
    }
    assert m.Keys == st.outputs.Keys;
    hide Lockable, LockOutputs, CoinKeys, SumOf, Saved;
    SavedWorth(m, outs, f);
    NoWorth(m, f);
    ChangeWorth(ctx, height, id, |outs|, f);
    assert outs[..|outs|] == outs && ctx.outputIds[..|outs|] == ctx.outputIds;
  }

  lemma LockedWorth(st: State, ctx: Context, slateId: nat, height: nat, fee: nat)
    requires Lockable(st, ctx) && CoinKeys(ctx.inputIds) <= st.outputs.Keys
    requires forall a, b :: 0 <= a < b < |ctx.inputIds| ==> CoinKey(ctx.inputIds[a]) != CoinKey(ctx.inputIds[b])
    requires forall k, status :: k in st.outputs ==> !Belongs(st.outputs[k], status, SentKey(st, ctx))
    ensures SumOf(Lock(st, ctx, slateId, height, fee).outputs, WorthOf(Locked, SentKey(st, ctx))) == Debited(st.outputs, ctx.inputIds)
  {
    var id, f := st.NextLogId(ctx.parentKeyId), WorthOf(Locked, SentKey(st, ctx));
    var m, outs := LockOutputs(st.outputs, CoinKeys(ctx.inputIds), id), ChangeOutputs(ctx, height, id);
    ChangeKeysAreNew(st, ctx, height);
    assert m.Keys == st.outputs.Keys;
    forall k | k in m
      ensures f(m[k]) == (if k in CoinKeys(ctx.inputIds) then m[k].value else 0) && m[k].value == st.outputs[k].value
    {
      assert !Belongs(st.outputs[k], Locked, SentKey(st, ctx));
      assert k in CoinKeys(ctx.inputIds) ==> Spendable(st, ctx, k);
    }
    hide Lockable, LockOutputs, CoinKeys, SumOf, Saved;
    SavedWorth(m, outs, f);
    NoWorthSeq(outs, f);
    KeysWorth(m, ctx.inputIds, f);
    DebitedDepends(st.outputs, m, ctx.inputIds);
  }

  lemma {:induction false} NoWorthSeq(s: seq<OutputData>, f: OutputData -> nat)
    requires forall i :: 0 <= i < |s| ==> f(s[i]) == 0
    ensures SumSeq(s, f) == 0
  {
    if s == [] {
    } else {
      NoWorthSeq(s[..|s| - 1], f);
    }
  }

  // ----- a send of the wallet

  /** The coins chosen for a send are different ones. */
  lemma ChosenDiffer(st: State, a: SendArgs, outs: seq<OutputData>, s: Selection)
    requires CanSend(st, a, outs, s)
    ensures forall i, j :: 0 <= i < j < |s.coins| ==> s.coins[i].Key() != s.coins[j].Key()
  {
    forall i, j | 0 <= i < j < |s.coins| ensures s.coins[i].Key() != s.coins[j].Key() {
      if s.coins[i].Key() == s.coins[j].Key() {
        SelectedCoin(st, a, outs, s, s.coins[i]);
        SelectedCoin(st, a, outs, s, s.coins[j]);
        Twice(s.coins, i, j);
        ChosenOnce(st, a, outs, s, s.coins[i]);
      }
    }
  }

  lemma Twice(t: seq<OutputData>, i: nat, j: nat)
    requires i < j < |t| && t[i] == t[j]
    ensures multiset(t)[t[i]] >= 2
  {
    assert t == t[..j] + [t[j]] + t[j + 1..];
    assert t[i] == t[..j][i] && t[i] in multiset(t[..j]);
  }

  lemma ChosenOnce(st: State, a: SendArgs, outs: seq<OutputData>, s: Selection, o: OutputData)
    requires CanSend(st, a, outs, s)
    ensures multiset(s.coins)[o] <= 1
  {
    var eligible := Eligible(outs, a.parent, a.height, a.minimumConfirmations);
    FundedCovers(SortByValue(eligible), a.amount, a.maxOutputs, a.changeOutputs, a.selectAll);
    SortIsPermutation(eligible);
    EligibleExactly(outs, a.parent, a.height, a.minimumConfirmations, o);
    ListedOnce(outs, KeysOf(outs), st.outputs, o);
  }

  lemma {:induction false} ListedOnce(outs: seq<OutputData>, keys: seq<OutputKey>, m: map<OutputKey, OutputData>, o: OutputData)
    requires |keys| == |outs| && (forall i :: 0 <= i < |outs| ==> keys[i] == outs[i].Key())
    requires forall i, j :: 0 <= i < j < |keys| ==> keys[i] != keys[j]
    ensures multiset(outs)[o] <= 1
  {
    if outs == [] {
    } else {
      var n := |outs| - 1;
      ListedOnce(outs[..n], keys[..n], m, o);
      DropLast(outs);
      forall i | 0 <= i < n ensures outs[..n][i] != outs[n] {
        assert keys[i] != keys[n];
      }
      assert outs[n] !in outs[..n];
    }
  }

  /** So what the store holds is conserved: once a send is locked, its inputs are worth its
      change, the amount, the fee and the shortfall of splitting the change. */
  lemma StoreConservesValue(st: State, sent: History, a: SendArgs, outs: seq<OutputData>, s: Selection, own: SlateContext)
    requires Inv(st, sent) && CanSend(st, a, outs, s)
    ensures !SplitAborts(Change(s), a.changeOutputs)
    ensures var mid, ctx := Initiated(st, a, s, own), ContextOf(st, a, s, own);
      && CoinKeys(ctx.inputIds) <= mid.outputs.Keys
      && var m, e := Lock(mid, ctx, a.slateId, a.height, s.fee).outputs, (a.parent, Count(st.nextLogId, a.parent));
         SumOf(m, WorthOf(Locked, e))
           == SumOf(m, WorthOf(Unconfirmed, e)) + a.amount + s.fee + Shortfall(Change(s), a.changeOutputs)
  {
    CanSendSplits(st, a, outs, s);
    var mid, ctx := Initiated(st, a, s, own), ContextOf(st, a, s, own);
    hide Inv, CanSend, Lockable, LockSafe, SumOf, WorthOf, CoinKeys, Lock, SpentStays, CountersGrow, Conserves, Initiated;
    ContextDiffers(st, a, outs, s, own);
    InitKeeps(st, sent, a, outs, s, own);
    SendMayLock(st, sent, a, outs, s, own);
    SameInitiated(st, a, s, own);
    EntryIsStored(mid, sent, ctx, a.slateId, a.height, s.fee);
    LockLogs(mid, ctx, a.slateId, a.height, s.fee);
    CoinsAreDebited(st, a, outs, s);
    EntryConserves(st, a, outs, s, SentEntry(mid.outputs, ctx, a.slateId, s.fee, mid.NextLogId(a.parent)));
    ConservesIs(SentEntry(mid.outputs, ctx, a.slateId, s.fee, mid.NextLogId(a.parent)), a, s);
  }

  lemma ConservesIs(t: TxLogEntry, a: SendArgs, s: Selection)
    requires !SplitAborts(Change(s), a.changeOutputs) && Conserves(t, a, s)
    ensures t.amountDebited == t.amountCredited + a.amount + s.fee + Shortfall(Change(s), a.changeOutputs)
  {
    hide Shortfall;
  }

  lemma ContextDiffers(st: State, a: SendArgs, outs: seq<OutputData>, s: Selection, own: SlateContext)
    requires CanSend(st, a, outs, s)
    ensures !SplitAborts(Change(s), a.changeOutputs)
    ensures var ctx := ContextOf(st, a, s, own);
      forall i, j :: 0 <= i < j < |ctx.inputIds| ==> CoinKey(ctx.inputIds[i]) != CoinKey(ctx.inputIds[j])
  {
    CanSendSplits(st, a, outs, s);
    ChosenDiffer(st, a, outs, s);
    hide CanSend, ChangeCoins;
    var ctx := ContextOf(st, a, s, own);
    forall i, j | 0 <= i < j < |ctx.inputIds| ensures CoinKey(ctx.inputIds[i]) != CoinKey(ctx.inputIds[j]) {
      assert CoinKey(ctx.inputIds[i]) == s.coins[i].Key() && CoinKey(ctx.inputIds[j]) == s.coins[j].Key();
    }
  }

  lemma SameInitiated(st: State, a: SendArgs, s: Selection, own: SlateContext)
    requires !SplitAborts(Change(s), a.changeOutputs)
    ensures var mid := Initiated(st, a, s, own);
      mid.outputs == st.outputs && mid.nextLogId == st.nextLogId && mid.NextLogId(a.parent) == Count(st.nextLogId, a.parent)
  {
    hide ChangeAmounts, ChangeCoins, ContextInputs;
  }

  // ----- receiving and mining

  /** Receiving: one pending output of the amount on the next key of the active account,
      and an entry that credits it. */
  lemma ReceiveEffect(st: State, parent: Identifier, slateId: nat, amount: nat, height: nat)
    ensures var st', key := Receive(st, parent, slateId, amount, height),
                            Identifier(st.active.path + [Count(st.childIndex, st.active)]);
      var id := Count(st.nextLogId, parent);
      && (key, None) in st'.outputs && IsMade(st'.outputs[(key, None)], parent, key, amount, height, id)
      && st'.outputs == st.outputs[(key, None) := st'.outputs[(key, None)]]
      && (parent, id) in st'.logs && IsReceipt(st'.logs[(parent, id)], parent, id, slateId, amount)
      && st'.logs == st.logs[(parent, id) := st'.logs[(parent, id)]] && st'.contexts == st.contexts
      && (forall q :: Count(st'.nextLogId, q) == Count(st.nextLogId, q) + if q == parent then 1 else 0)
      && (forall q :: Count(st'.childIndex, q) == Count(st.childIndex, q) + if q == st.active then 1 else 0)
  {
  }

  /** The record of a receipt. */
  predicate IsReceipt(t: TxLogEntry, p: Identifier, id: nat, slateId: nat, amount: nat) {
    && t.parentKeyId == p && t.id == id && t.txSlateId == Some(slateId) && t.txType == TxReceived && !t.confirmed
    && t.numInputs == 0 && t.numOutputs == 1 && t.amountCredited == amount && t.amountDebited == 0 && t.fee == None
  }

  /** A coinbase: one pending output that is locked for 1440 blocks, without an entry. */
  lemma CoinbaseEffect(st: State, key: Option<Identifier>, value: nat, height: nat)
    ensures var st' := Coinbase(st, key, value, height);
      var used := key.Some? && (key.value, None) in st.outputs;
      var id := if used then key.value else Identifier(st.active.path + [Count(st.childIndex, st.active)]);
      && (id, None) in st'.outputs
      && var o := st'.outputs[(id, None)];
      && o.rootKeyId == st.active && o.keyId == id && o.mmrIndex == None && o.value == value && o.status == Unconfirmed
      && o.height == height && o.lockHeight == height + 1_440 && o.isCoinbase && o.txLogEntry == None
      && (id.path != [] ==> o.nChild == id.path[|id.path| - 1])
      && st'.outputs == st.outputs[(id, None) := o] && st'.logs == st.logs && st'.nextLogId == st.nextLogId
      && st'.contexts == st.contexts
      && (forall q :: Count(st'.childIndex, q) == Count(st.childIndex, q) + if q == st.active && !used then 1 else 0)
  {
  }

  // ----- cancelling and cleaning

  /** The output names the entry. */
  predicate NamesEntry(o: OutputData, e: LogKey) {
    o.rootKeyId == e.0 && o.txLogEntry == Some(e.1)
  }

  /** Cancelling an entry: of the outputs that name it the pending ones are deleted and the
      locked ones are unspent again; a send or a receipt is cancelled as what it was; and
      nothing else changes. */
  lemma CancelEffect(st: State, sent: History, e: LogKey)
    requires Inv(st, sent) && e in st.logs && Cancellable(st.logs[e])
    ensures !st.logs[e].confirmed && (st.logs[e].txType == TxSent || st.logs[e].txType == TxReceived)
    ensures var st' := Cancel(st, st.logs[e]);
      && st'.logs == st.logs[e := st.logs[e].(txType := if st.logs[e].txType == TxSent then TxSentCancelled else TxReceivedCancelled)]
      && (forall k :: k in st'.outputs <==> k in st.outputs && !(NamesEntry(st.outputs[k], e) && st.outputs[k].status == Unconfirmed))
      && (forall k :: k in st'.outputs ==>
            st'.outputs[k] == if NamesEntry(st.outputs[k], e) && st.outputs[k].status == Locked then st.outputs[k].(status := Unspent)
                              else st.outputs[k])
      && st'.nextLogId == st.nextLogId && st'.childIndex == st.childIndex && st'.contexts == st.contexts
      && st'.active == st.active && st'.confirmedHeight == st.confirmedHeight
  {
    EntryIsOk(st, sent, e);
    hide Inv;
  }

  /** Cleaning deletes exactly the pending coinbases that are older than 50 blocks. */
  lemma CleanEffect(st: State, sent: History, height: nat)
    requires Inv(st, sent)
    ensures var st' := Clean(st, height);
      && (forall k :: k in st'.outputs <==>
            k in st.outputs && !(st.outputs[k].isCoinbase && st.outputs[k].status == Unconfirmed
                                 && 0 < st.outputs[k].height && st.outputs[k].height + 50 < height))
      && (forall k :: k in st'.outputs ==> st'.outputs[k] == st.outputs[k])
      && st'.(outputs := st.outputs) == st
  {
    hide Inv, StaleKeys, IsStale;
    forall k | k in st.outputs ensures k in StaleKeys(st.outputs, height) <==> IsStale(st.outputs[k], height) {
      StaleKeysAreStale(st, sent, height, k);
    }
    StaleAre(st.outputs, height);
  }

  lemma StaleAre(m: map<OutputKey, OutputData>, height: nat)
    ensures forall k :: k in m ==>
      (IsStale(m[k], height) <==> m[k].isCoinbase && m[k].status == Unconfirmed && 0 < m[k].height && m[k].height + 50 < height)
  {
  }
}
