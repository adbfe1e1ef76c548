/** Initiating a send, and locking it at any later time: exactly when that keeps the
    invariant. */
module LedgerSend {
  import opened Wrappers
  import opened Outputs
  import opened Contexts
  import opened Ledger
  import opened LedgerInvariant
  import opened LedgerSteps

  // ----- the change keys and the context

  lemma ChildrenAreHandedOut(st: State, sent: History, amounts: seq<nat>)
    requires Inv(st, sent)
    ensures CoinsHandedOut(AfterChildren(st, |amounts|), ChangeCoins(st, amounts))
    ensures CountersGrow(st, AfterChildren(st, |amounts|))
  {
    var coins := ChangeCoins(st, amounts);
    forall i | 0 <= i < |coins| ensures HandedOut(AfterChildren(st, |amounts|), coins[i].0) {
      NextKeyIsNew(st, sent, i);
    }
  }

  lemma InputsAreHandedOut(st: State, sent: History, coins: seq<OutputData>)
    requires Inv(st, sent)
    requires forall i :: 0 <= i < |coins| ==> coins[i].Key() in st.outputs
    ensures CoinsHandedOut(st, ContextInputs(coins))
  {
    hide Inv, HandedOut;
    forall i | 0 <= i < |coins| ensures HandedOut(st, ContextInputs(coins)[i].0) {
      OutputIsOk(st, sent, coins[i].Key());
    }
  }

  lemma InitSendKeeps(st: State, sent: History, slateId: nat, parent: Identifier, coins: seq<OutputData>, amounts: seq<nat>, own: SlateContext)
    requires Inv(st, sent)
    requires forall i :: 0 <= i < |coins| ==> coins[i].Key() in st.outputs
    ensures Keeps(st, InitSend(st, slateId, parent, coins, amounts, own), sent, sent)
  {
    var mid := AfterChildren(st, |amounts|);
    var ctx := SendContext(st, parent, coins, amounts, own);
    ChildrenKeep(st, sent, amounts);
    InputsAreHandedOut(st, sent, coins);
    CoinsStayHandedOut(st, mid, ctx.inputIds);
    hide Inv, CoinsHandedOut, SpentStays, CountersGrow, ChangeCoins, ContextInputs, AfterChildren;
    SaveContextKeeps(mid, sent, (slateId, 0), ctx);
    KeepsCompose(st, mid, mid.(contexts := mid.contexts[(slateId, 0) := ctx]), sent, sent);
  }

  lemma ChildrenKeep(st: State, sent: History, amounts: seq<nat>)
    requires Inv(st, sent)
    ensures var st' := AfterChildren(st, |amounts|);
      Keeps(st, st', sent, sent) && CoinsHandedOut(st', ChangeCoins(st, amounts)) && st'.contexts == st.contexts
  {
    var st' := AfterChildren(st, |amounts|);
    hide Inv, CoinsHandedOut, SpentStays, CountersGrow, ChangeCoins, ContextOk;
    ChildrenAreHandedOut(st, sent, amounts);
    SameButChildren(st, |amounts|);
    hide AfterChildren;
    ContextsStayHandedOut(st, st', sent);
    SameOutputsAndLogs(st, st', sent);
  }

  lemma SameButChildren(st: State, n: nat)
    ensures var st' := AfterChildren(st, n);
      && st'.outputs == st.outputs && st'.logs == st.logs && st'.nextLogId == st.nextLogId && st'.contexts == st.contexts
  {
  }

  lemma SaveContextKeeps(st: State, sent: History, c: ContextKey, ctx: Context)
    requires Inv(st, sent) && CoinsHandedOut(st, ctx.inputIds) && CoinsHandedOut(st, ctx.outputIds)
    ensures Keeps(st, st.(contexts := st.contexts[c := ctx]), sent, sent)
  {
    var st' := st.(contexts := st.contexts[c := ctx]);
    assert CountersGrow(st, st');
    hide Inv, CoinsHandedOut, CountersGrow;
    CoinsStayHandedOut(st, st', ctx.inputIds);
    CoinsStayHandedOut(st, st', ctx.outputIds);
    forall c' | c' in st'.contexts ensures ContextOk(st', c') {
      if c' != c {
        ContextIsOk(st, sent, c');
        CoinsStayHandedOut(st, st', st.contexts[c'].inputIds);
        CoinsStayHandedOut(st, st', st.contexts[c'].outputIds);
      }
    }
    SameOutputsAndLogs(st, st', sent);
  }

  // ----- the locking batch

  /** The inputs are of the sending account, and neither locked nor spent. The change
      keys were handed out, and what is stored under them is none of the inputs, and
      neither locked nor spent. */
  ghost predicate LockSafe(st: State, ctx: Context) {
    && (forall k :: k in CoinKeys(ctx.inputIds) ==> Spendable(st, ctx, k))
    && (forall i :: 0 <= i < |ctx.outputIds| ==> ChangeIsSafe(st, ctx, ctx.outputIds[i]))
  }

  predicate Spendable(st: State, ctx: Context, k: OutputKey) {
    k in st.outputs && st.outputs[k].rootKeyId == ctx.parentKeyId && Replaceable(st, k)
  }

  predicate ChangeIsSafe(st: State, ctx: Context, c: ContextCoin) {
    HandedOut(st, c.0) && (c.0, None) !in CoinKeys(ctx.inputIds) && Replaceable(st, (c.0, None))
  }

  /** As a send is when it was just initiated: nothing is stored under the change keys,
      and they differ. */
  ghost predicate Lockable(st: State, ctx: Context) {
    && (forall k :: k in CoinKeys(ctx.inputIds) ==> Spendable(st, ctx, k))
    && (forall i :: 0 <= i < |ctx.outputIds| ==> ChangeIsNew(st, ctx.outputIds[i]))
    && (forall i, j :: 0 <= i < j < |ctx.outputIds| ==> ctx.outputIds[i].0 != ctx.outputIds[j].0)
  }

  predicate ChangeIsNew(st: State, c: ContextCoin) {
    HandedOut(st, c.0) && (c.0, None) !in st.outputs
  }

  lemma LockableIsSafe(st: State, ctx: Context)
    requires Lockable(st, ctx)
    ensures LockSafe(st, ctx) && CoinKeys(ctx.inputIds) <= st.outputs.Keys
  {
    hide CoinKeys;
    forall k | k in CoinKeys(ctx.inputIds) ensures k in st.outputs {
      assert Spendable(st, ctx, k);
    }
    forall i | 0 <= i < |ctx.outputIds| ensures ChangeIsSafe(st, ctx, ctx.outputIds[i]) {
      assert ChangeIsNew(st, ctx.outputIds[i]);
    }
  }

  /** The batch without the change outputs. */
  ghost function LockedOnly(st: State, ctx: Context, slateId: nat, fee: nat): State
    requires CoinKeys(ctx.inputIds) <= st.outputs.Keys
  {
    var logId := st.NextLogId(ctx.parentKeyId);
    st.AfterNextLogId(ctx.parentKeyId)
      .(outputs := LockOutputs(st.outputs, CoinKeys(ctx.inputIds), logId))
      .SaveLog(SentEntry(st.outputs, ctx, slateId, fee, logId))
  }

  function SentKey(st: State, ctx: Context): LogKey {
    (ctx.parentKeyId, st.NextLogId(ctx.parentKeyId))
  }

  ghost function AfterSend(sent: History, st: State, ctx: Context): History {
    sent[SentKey(st, ctx) := CoinKeys(ctx.inputIds)]
  }

  lemma LockedAt(st: State, ctx: Context, slateId: nat, fee: nat, k: OutputKey)
    requires CoinKeys(ctx.inputIds) <= st.outputs.Keys && k in st.outputs
    ensures var st', logId := LockedOnly(st, ctx, slateId, fee), st.NextLogId(ctx.parentKeyId);
      && st'.outputs.Keys == st.outputs.Keys && st'.childIndex == st.childIndex
      && st'.outputs[k] == (if k in CoinKeys(ctx.inputIds) then LockedFor(st.outputs[k], logId) else st.outputs[k])
  {
    hide CoinKeys, Debited, CoinSum;
  }

  lemma LockedLogs(st: State, ctx: Context, slateId: nat, fee: nat)
    requires CoinKeys(ctx.inputIds) <= st.outputs.Keys
    ensures var st', e := LockedOnly(st, ctx, slateId, fee), SentKey(st, ctx);
      && st'.logs == st.logs[e := SentEntry(st.outputs, ctx, slateId, fee, e.1)] && st'.contexts == st.contexts
      && st'.NextLogId(e.0) == e.1 + 1 && forall p :: st.NextLogId(p) <= st'.NextLogId(p)
  {
    hide CoinKeys, Debited, CoinSum, LockOutputs;
  }

  lemma LockedInputIsSpendable(st: State, ctx: Context, k: OutputKey)
    requires LockSafe(st, ctx) && k in CoinKeys(ctx.inputIds)
    ensures Spendable(st, ctx, k)
  {
    hide CoinKeys, ChangeIsSafe;
  }

  lemma LockedOutputIsOk(st: State, sent: History, ctx: Context, slateId: nat, fee: nat, k: OutputKey)
    requires Inv(st, sent) && LockSafe(st, ctx) && CoinKeys(ctx.inputIds) <= st.outputs.Keys
    requires k in st.outputs && SentKey(st, ctx) !in st.logs
    ensures k in LockedOnly(st, ctx, slateId, fee).outputs
    ensures OutputOk(LockedOnly(st, ctx, slateId, fee), AfterSend(sent, st, ctx), k)
  {
    OutputIsOk(st, sent, k);
    LockedAt(st, ctx, slateId, fee, k);
    LockedLogs(st, ctx, slateId, fee);
    var st', inputs := LockedOnly(st, ctx, slateId, fee), CoinKeys(ctx.inputIds);
    hide Inv, OutputOk, LockSafe, CoinKeys, LockedOnly, SentEntry, HandedOut;
    if k in inputs {
      LockedInputIsSpendable(st, ctx, k);
      NewlyLockedIsOk(st, st', sent, SentKey(st, ctx), inputs, k);
    } else {
      UnlockedIsOk(st, st', sent, SentKey(st, ctx), inputs, k);
    }
  }

  lemma UnlockedIsOk(st: State, st': State, sent: History, e: LogKey, inputs: set<OutputKey>, k: OutputKey)
    requires k in st.outputs && OutputOk(st, sent, k) && st'.childIndex == st.childIndex
    requires e !in st.logs && e in st'.logs && st'.logs == st.logs[e := st'.logs[e]]
    requires k in st'.outputs && st'.outputs[k] == st.outputs[k]
    ensures OutputOk(st', sent[e := inputs], k)
  {
  }

  lemma NewlyLockedIsOk(st: State, st': State, sent: History, e: LogKey, inputs: set<OutputKey>, k: OutputKey)
    requires k in st.outputs && OutputOk(st, sent, k) && st'.childIndex == st.childIndex
    requires Live(st', e) && k in inputs && st.outputs[k].rootKeyId == e.0
    requires st.outputs[k].status == Unspent || st.outputs[k].status == Unconfirmed
    requires k in st'.outputs && st'.outputs[k] == LockedFor(st.outputs[k], e.1)
    ensures OutputOk(st', sent[e := inputs], k)
  {
  }

  lemma LockedInputIsHeld(st: State, ctx: Context, slateId: nat, fee: nat, k: OutputKey)
    requires LockSafe(st, ctx) && CoinKeys(ctx.inputIds) <= st.outputs.Keys && k in CoinKeys(ctx.inputIds)
    ensures Held(LockedOnly(st, ctx, slateId, fee), k, SentKey(st, ctx))
  {
    LockedInputIsSpendable(st, ctx, k);
    LockedAt(st, ctx, slateId, fee, k);
    hide LockSafe, CoinKeys, LockedOnly;
  }

  lemma StaysHeld(st: State, ctx: Context, slateId: nat, fee: nat, k: OutputKey, e: LogKey)
    requires LockSafe(st, ctx) && CoinKeys(ctx.inputIds) <= st.outputs.Keys && Held(st, k, e)
    ensures Held(LockedOnly(st, ctx, slateId, fee), k, e)
  {
    if k in CoinKeys(ctx.inputIds) {
      LockedInputIsSpendable(st, ctx, k);
    }
    LockedAt(st, ctx, slateId, fee, k);
    hide LockSafe, CoinKeys, LockedOnly;
  }

  lemma LockedSendIsOk(st: State, sent: History, ctx: Context, slateId: nat, fee: nat, e: LogKey)
    requires Inv(st, sent) && LockSafe(st, ctx) && CoinKeys(ctx.inputIds) <= st.outputs.Keys
    requires SentKey(st, ctx) !in st.logs && (e in sent || e == SentKey(st, ctx))
    ensures SendOk(LockedOnly(st, ctx, slateId, fee), AfterSend(sent, st, ctx), e)
  {
    LockedLogs(st, ctx, slateId, fee);
    var st', sent' := LockedOnly(st, ctx, slateId, fee), AfterSend(sent, st, ctx);
    if e == SentKey(st, ctx) {
      hide Inv, LockSafe, LockedOnly, Held, CoinKeys, SentEntry;
      forall k | k in sent'[e] ensures Held(st', k, e) {
        LockedInputIsHeld(st, ctx, slateId, fee, k);
      }
    } else {
      SendIsOk(st, sent, e);
      hide Inv, LockSafe, LockedOnly, Held, CoinKeys, SentEntry, SentKey;
      if Live(st', e) {
        forall k | k in sent'[e] ensures Held(st', k, e) {
          StaysHeld(st, ctx, slateId, fee, k, e);
        }
      }
    }
  }

  /** The inputs of a new send are no inputs of a live one. */
  lemma InputsAreFree(st: State, sent: History, ctx: Context, e: LogKey)
    requires Inv(st, sent) && LockSafe(st, ctx) && e in sent && Live(st, e)
    ensures sent[e] !! CoinKeys(ctx.inputIds)
  {
    SendIsOk(st, sent, e);
    hide Inv, CoinKeys;
    forall k | k in sent[e] ensures k !in CoinKeys(ctx.inputIds) {
      assert Held(st, k, e);
      assert k in CoinKeys(ctx.inputIds) ==> Spendable(st, ctx, k);
    }
  }

  lemma LockingKeepsNoDoubleSpend(st: State, sent: History, ctx: Context, slateId: nat, fee: nat)
    requires Inv(st, sent) && LockSafe(st, ctx) && CoinKeys(ctx.inputIds) <= st.outputs.Keys
    requires SentKey(st, ctx) !in st.logs
    ensures NoDoubleSpend(LockedOnly(st, ctx, slateId, fee), AfterSend(sent, st, ctx))
  {
    var st', sent', e0 := LockedOnly(st, ctx, slateId, fee), AfterSend(sent, st, ctx), SentKey(st, ctx);
    LockedLogs(st, ctx, slateId, fee);
    SentDisjoint(st, sent);
    hide Inv, LockSafe, LockedOnly, CoinKeys;
    forall e, e' | e in sent' && e' in sent' && Live(st', e) && Live(st', e') && e != e' ensures sent'[e] !! sent'[e'] {
      if e == e0 {
        InputsAreFree(st, sent, ctx, e');
      } else if e' == e0 {
        InputsAreFree(st, sent, ctx, e);
      }
    }
  }

  lemma SentDisjoint(st: State, sent: History)
    requires Inv(st, sent)
    ensures NoDoubleSpend(st, sent)
  {
    hide NoDoubleSpend, OutputOk, EntryOk, SendOk, ContextOk;
  }

  lemma LockingKeeps(st: State, sent: History, ctx: Context, slateId: nat, fee: nat)
    requires Inv(st, sent) && LockSafe(st, ctx) && CoinKeys(ctx.inputIds) <= st.outputs.Keys
    ensures Keeps(st, LockedOnly(st, ctx, slateId, fee), sent, AfterSend(sent, st, ctx))
  {
    var st', sent' := LockedOnly(st, ctx, slateId, fee), AfterSend(sent, st, ctx);
    NextLogIdIsNew(st, sent, ctx.parentKeyId);
    LockedCounters(st, ctx, slateId, fee);
    hide OutputOk, EntryOk, SendOk, NoDoubleSpend, ContextOk, LockSafe, SpentStays, CountersGrow, LockedOnly, CoinKeys;
    ContextsOfLocked(st, sent, ctx, slateId, fee);
    LockingKeepsSpent(st, ctx, slateId, fee);
    LockingKeepsNoDoubleSpend(st, sent, ctx, slateId, fee);
    hide Inv;
    forall k | k in st'.outputs ensures OutputOk(st', sent', k) {
      LockedOutputIsOk(st, sent, ctx, slateId, fee, k);
    }
    forall e | e in st'.logs ensures EntryOk(st', sent', e) {
      LockedEntryIsOk(st, sent, ctx, slateId, fee, e);
    }
    forall e | e in sent' ensures SendOk(st', sent', e) {
      LockedSendIsOk(st, sent, ctx, slateId, fee, e);
    }
    LockedInv(st', sent');
  }

  lemma LockedInv(st: State, sent: History)
    requires forall k :: k in st.outputs ==> OutputOk(st, sent, k)
    requires forall e :: e in st.logs ==> EntryOk(st, sent, e)
    requires forall e :: e in sent ==> SendOk(st, sent, e)
    requires forall c :: c in st.contexts ==> ContextOk(st, c)
    requires NoDoubleSpend(st, sent)
    ensures Inv(st, sent)
  {
    hide OutputOk, EntryOk, SendOk, NoDoubleSpend, ContextOk;
  }

  lemma LockedCounters(st: State, ctx: Context, slateId: nat, fee: nat)
    requires CoinKeys(ctx.inputIds) <= st.outputs.Keys
    ensures CountersGrow(st, LockedOnly(st, ctx, slateId, fee))
    ensures LockedOnly(st, ctx, slateId, fee).outputs.Keys == st.outputs.Keys
  {
    LockedLogs(st, ctx, slateId, fee);
    hide CoinKeys, Debited, CoinSum;
  }

  lemma ContextsOfLocked(st: State, sent: History, ctx: Context, slateId: nat, fee: nat)
    requires Inv(st, sent) && CoinKeys(ctx.inputIds) <= st.outputs.Keys
    ensures forall c :: c in LockedOnly(st, ctx, slateId, fee).contexts ==> ContextOk(LockedOnly(st, ctx, slateId, fee), c)
  {
    LockedCounters(st, ctx, slateId, fee);
    LockedLogs(st, ctx, slateId, fee);
    hide Inv, LockedOnly, CountersGrow, CoinKeys;
    ContextsStayHandedOut(st, LockedOnly(st, ctx, slateId, fee), sent);
  }

  lemma LockedEntryIsOk(st: State, sent: History, ctx: Context, slateId: nat, fee: nat, e: LogKey)
    requires Inv(st, sent) && CoinKeys(ctx.inputIds) <= st.outputs.Keys
    requires SentKey(st, ctx) !in st.logs && e in LockedOnly(st, ctx, slateId, fee).logs
    ensures EntryOk(LockedOnly(st, ctx, slateId, fee), AfterSend(sent, st, ctx), e)
  {
    LockedLogs(st, ctx, slateId, fee);
    if e in st.logs {
      EntryIsOk(st, sent, e);
    }
    hide Inv, LockedOnly, CoinKeys;
  }

  lemma LockingKeepsSpent(st: State, ctx: Context, slateId: nat, fee: nat)
    requires LockSafe(st, ctx) && CoinKeys(ctx.inputIds) <= st.outputs.Keys
    ensures SpentStays(st, LockedOnly(st, ctx, slateId, fee))
  {
    var st' := LockedOnly(st, ctx, slateId, fee);
    hide LockedOnly, CoinKeys;
    forall k | k in st.outputs && st.outputs[k].status == Spent ensures k in st'.outputs && st'.outputs[k] == st.outputs[k] {
      LockedAt(st, ctx, slateId, fee, k);
      assert k in CoinKeys(ctx.inputIds) ==> Spendable(st, ctx, k);
    }
  }

  // ----- the change outputs

  lemma {:induction false} SavedKeys(m: map<OutputKey, OutputData>, outs: seq<OutputData>)
    ensures Saved(m, outs).Keys == m.Keys + set i | 0 <= i < |outs| :: outs[i].Key()
  {
    if outs == [] {
    } else {
      var front := outs[..|outs| - 1];
      SavedKeys(m, front);
      assert (set i | 0 <= i < |outs| :: outs[i].Key())
          == (set i | 0 <= i < |front| :: front[i].Key()) + {outs[|outs| - 1].Key()};
    }
  }

  /** Each output saved on top is one of these, and what is not among them stays. */
  lemma {:induction false} SavedLookup(m: map<OutputKey, OutputData>, outs: seq<OutputData>, k: OutputKey)
    requires k in Saved(m, outs)
    ensures (k in m && Saved(m, outs)[k] == m[k])
      || exists i :: 0 <= i < |outs| && outs[i].Key() == k && Saved(m, outs)[k] == outs[i]
  {
    if outs == [] {
    } else {
      var front, last := outs[..|outs| - 1], outs[|outs| - 1];
      if k == last.Key() {
        assert outs[|outs| - 1].Key() == k;
      } else {
        SavedLookup(m, front, k);
        if !(k in m && Saved(m, outs)[k] == m[k]) {
          var i :| 0 <= i < |front| && front[i].Key() == k && Saved(m, front)[k] == front[i];
          assert outs[i].Key() == k;
        }
      }
    }
  }

  lemma {:induction false} SavedKeeps(st: State, sent: History, outs: seq<OutputData>)
    requires Inv(st, sent) && forall i :: 0 <= i < |outs| ==> PendingFits(st, outs[i])
    ensures Keeps(st, st.(outputs := Saved(st.outputs, outs)), sent, sent)
  {
    if outs == [] {
      ContextsStayHandedOut(st, st, sent);
      assert st.(outputs := Saved(st.outputs, outs)) == st;
    } else {
      var front, o := outs[..|outs| - 1], outs[|outs| - 1];
      hide Inv, SpentStays, CountersGrow, PendingFits;
      SavedKeeps(st, sent, front);
      var mid := st.(outputs := Saved(st.outputs, front));
      StillFits(st, front, o);
      PendingKeeps(mid, sent, o);
      KeepsCompose(st, mid, mid.SaveOutput(o), sent, sent);
      assert st.(outputs := Saved(st.outputs, outs)) == mid.SaveOutput(o);
    }
  }

  lemma StillFits(st: State, outs: seq<OutputData>, o: OutputData)
    requires PendingFits(st, o) && forall i :: 0 <= i < |outs| ==> PendingFits(st, outs[i])
    ensures PendingFits(st.(outputs := Saved(st.outputs, outs)), o)
  {
    if o.Key() in Saved(st.outputs, outs) {
      SavedLookup(st.outputs, outs, o.Key());
    }
    hide Saved;
  }

  lemma ChangeFits(st: State, ctx: Context, slateId: nat, height: nat, fee: nat, i: nat)
    requires LockSafe(st, ctx) && CoinKeys(ctx.inputIds) <= st.outputs.Keys && i < |ctx.outputIds|
    ensures PendingFits(LockedOnly(st, ctx, slateId, fee), ChangeOutputs(ctx, height, st.NextLogId(ctx.parentKeyId))[i])
  {
    var mid := LockedOnly(st, ctx, slateId, fee);
    var o := ChangeOutputs(ctx, height, st.NextLogId(ctx.parentKeyId))[i];
    LockedLogs(st, ctx, slateId, fee);
    LockedCounters(st, ctx, slateId, fee);
    assert ChangeIsSafe(st, ctx, ctx.outputIds[i]);
    hide LockedOnly, HandedOut, SentEntry, LockSafe, CoinKeys;
    StaysHandedOut(st, mid, ctx.outputIds[i].0);
    if o.Key() in mid.outputs {
      LockedAt(st, ctx, slateId, fee, o.Key());
    }
  }

  lemma StaysHandedOut(st: State, st': State, id: Identifier)
    requires CountersGrow(st, st') && HandedOut(st, id)
    ensures HandedOut(st', id)
  {
    assert st.ChildIndex(id.ParentPath()) <= st'.ChildIndex(id.ParentPath());
  }

  lemma LockParts(st: State, ctx: Context, slateId: nat, height: nat, fee: nat)
    requires CoinKeys(ctx.inputIds) <= st.outputs.Keys
    ensures var mid := LockedOnly(st, ctx, slateId, fee);
      var outs := ChangeOutputs(ctx, height, st.NextLogId(ctx.parentKeyId));
      Lock(st, ctx, slateId, height, fee) == mid.(outputs := Saved(mid.outputs, outs))
  {
    hide CoinKeys, LockOutputs, ChangeOutputs, SentEntry, Saved;
  }

  lemma SafeLockKeeps(st: State, sent: History, ctx: Context, slateId: nat, height: nat, fee: nat)
    requires Inv(st, sent) && LockSafe(st, ctx) && CoinKeys(ctx.inputIds) <= st.outputs.Keys
    ensures Keeps(st, Lock(st, ctx, slateId, height, fee), sent, AfterSend(sent, st, ctx))
  {
    var mid, sent' := LockedOnly(st, ctx, slateId, fee), AfterSend(sent, st, ctx);
    var outs := ChangeOutputs(ctx, height, st.NextLogId(ctx.parentKeyId));
    hide Inv, LockSafe, SpentStays, CountersGrow, CoinKeys, LockedOnly, ChangeOutputs, Lock, PendingFits, Saved, AfterSend;
    LockParts(st, ctx, slateId, height, fee);
    LockingKeeps(st, sent, ctx, slateId, fee);
    forall i | 0 <= i < |outs| ensures PendingFits(mid, outs[i]) {
      ChangeFits(st, ctx, slateId, height, fee, i);
    }
    SavedKeeps(mid, sent', outs);
    KeepsCompose(st, mid, mid.(outputs := Saved(mid.outputs, outs)), sent', sent');
  }

  // ----- what an unsafe lock breaks

  /** The stored outputs once a send is locked. */
  lemma {:induction false} SavedPending(m: map<OutputKey, OutputData>, outs: seq<OutputData>, i: nat)
    requires i < |outs| && forall j :: 0 <= j < |outs| ==> outs[j].status == Unconfirmed
    ensures outs[i].Key() in Saved(m, outs) && Saved(m, outs)[outs[i].Key()].status == Unconfirmed
  {
    var n := |outs| - 1;
    if i == n || outs[i].Key() == outs[n].Key() {
    } else {
      SavedPending(m, outs[..n], i);
    }
  }

  lemma ChangeIsPending(st: State, ctx: Context, slateId: nat, height: nat, fee: nat, i: nat)
    requires CoinKeys(ctx.inputIds) <= st.outputs.Keys && i < |ctx.outputIds|
    ensures var k, st' := (ctx.outputIds[i].0, None), Lock(st, ctx, slateId, height, fee);
      k in st'.outputs && st'.outputs[k].status == Unconfirmed
  {
    var outs := ChangeOutputs(ctx, height, st.NextLogId(ctx.parentKeyId));
    LockParts(st, ctx, slateId, height, fee);
    SavedPending(LockedOnly(st, ctx, slateId, fee).outputs, outs, i);
    assert outs[i].Key() == (ctx.outputIds[i].0, None);
    hide Lock, LockedOnly, Saved;
  }

  lemma InputIsLocked(st: State, ctx: Context, slateId: nat, height: nat, fee: nat, k: OutputKey)
    requires CoinKeys(ctx.inputIds) <= st.outputs.Keys && k in CoinKeys(ctx.inputIds)
    ensures var st' := Lock(st, ctx, slateId, height, fee);
      && k in st'.outputs
      && (st'.outputs[k].status == Unconfirmed || st'.outputs[k] == LockedFor(st.outputs[k], st.NextLogId(ctx.parentKeyId)))
  {
    var mid, outs := LockedOnly(st, ctx, slateId, fee), ChangeOutputs(ctx, height, st.NextLogId(ctx.parentKeyId));
    LockParts(st, ctx, slateId, height, fee);
    LockedAt(st, ctx, slateId, fee, k);
    SavedKeys(mid.outputs, outs);
    hide Lock, LockedOnly, Saved, CoinKeys;
    SavedLookup(mid.outputs, outs, k);
  }

  lemma LockLogs(st: State, ctx: Context, slateId: nat, height: nat, fee: nat)
    requires CoinKeys(ctx.inputIds) <= st.outputs.Keys
    ensures var st', e := Lock(st, ctx, slateId, height, fee), SentKey(st, ctx);
      && st'.logs == st.logs[e := SentEntry(st.outputs, ctx, slateId, fee, e.1)]
      && st'.contexts == st.contexts && st'.childIndex == st.childIndex
  {
    LockParts(st, ctx, slateId, height, fee);
    LockedLogs(st, ctx, slateId, fee);
    hide CoinKeys, Debited, CoinSum, LockOutputs, Lock, Saved;
  }

  /** The inputs are held by the new send if the invariant is kept. */
  lemma InputIsHeld(st: State, sent: History, ctx: Context, slateId: nat, height: nat, fee: nat, k: OutputKey)
    requires CoinKeys(ctx.inputIds) <= st.outputs.Keys && k in CoinKeys(ctx.inputIds)
    requires Inv(Lock(st, ctx, slateId, height, fee), AfterSend(sent, st, ctx))
    ensures Held(Lock(st, ctx, slateId, height, fee), k, SentKey(st, ctx))
  {
    LockLogs(st, ctx, slateId, height, fee);
    SendIsOk(Lock(st, ctx, slateId, height, fee), AfterSend(sent, st, ctx), SentKey(st, ctx));
    hide Inv, Lock, Held, CoinKeys;
  }

  lemma NeededInput(st: State, sent: History, ctx: Context, slateId: nat, height: nat, fee: nat, k: OutputKey)
    requires Inv(st, sent) && CoinKeys(ctx.inputIds) <= st.outputs.Keys && k in CoinKeys(ctx.inputIds)
    requires Keeps(st, Lock(st, ctx, slateId, height, fee), sent, AfterSend(sent, st, ctx))
    ensures Spendable(st, ctx, k)
    ensures var st' := Lock(st, ctx, slateId, height, fee); k in st'.outputs && st'.outputs[k].status == Locked
  {
    var st', sent', e := Lock(st, ctx, slateId, height, fee), AfterSend(sent, st, ctx), SentKey(st, ctx);
    InputIsLocked(st, ctx, slateId, height, fee, k);
    InputIsHeld(st, sent, ctx, slateId, height, fee, k);
    LockLogs(st, ctx, slateId, height, fee);
    NextLogIdIsNew(st, sent, ctx.parentKeyId);
    hide Inv, Lock, CoinKeys, CountersGrow, SentEntry;
    if st.outputs[k].status == Locked {
      LockedIsHeld(st, sent, k);
      TwiceSent(st, st', sent, sent', EntryOf(st.outputs[k]), e, k);
    }
  }

  /** No output is an input of two live sends. */
  lemma TwiceSent(st: State, st': State, sent: History, sent': History, e: LogKey, e': LogKey, k: OutputKey)
    requires Inv(st', sent') && e in sent && Live(st, e) && e != e' && Live(st', e') && e' in sent' && k in sent'[e']
    requires sent' == sent[e' := sent'[e']] && st'.logs == st.logs[e' := st'.logs[e']]
    ensures k !in sent[e]
  {
    SentDisjoint(st', sent');
    hide Inv;
    assert e in sent' && Live(st', e);
    assert sent'[e] !! sent'[e'];
  }

  lemma NeededChange(st: State, sent: History, ctx: Context, slateId: nat, height: nat, fee: nat, i: nat)
    requires Inv(st, sent) && CoinKeys(ctx.inputIds) <= st.outputs.Keys && i < |ctx.outputIds|
    requires Keeps(st, Lock(st, ctx, slateId, height, fee), sent, AfterSend(sent, st, ctx))
    ensures ChangeIsSafe(st, ctx, ctx.outputIds[i])
  {
    var k := (ctx.outputIds[i].0, None);
    ChangeIsPending(st, ctx, slateId, height, fee, i);
    LockLogs(st, ctx, slateId, height, fee);
    OutputIsOk(Lock(st, ctx, slateId, height, fee), AfterSend(sent, st, ctx), k);
    OverwrittenIsReplaceable(st, sent, ctx, slateId, height, fee, k);
    hide Inv, Lock, CoinKeys, CountersGrow, SpentStays, SentEntry, AfterSend;
    if k in CoinKeys(ctx.inputIds) {
      NeededInput(st, sent, ctx, slateId, height, fee, k);
    }
  }

  lemma OverwrittenIsReplaceable(st: State, sent: History, ctx: Context, slateId: nat, height: nat, fee: nat, k: OutputKey)
    requires Inv(st, sent) && CoinKeys(ctx.inputIds) <= st.outputs.Keys
    requires Keeps(st, Lock(st, ctx, slateId, height, fee), sent, AfterSend(sent, st, ctx))
    requires var st' := Lock(st, ctx, slateId, height, fee); k in st'.outputs && st'.outputs[k].status == Unconfirmed
    ensures Replaceable(st, k)
  {
    var st', sent' := Lock(st, ctx, slateId, height, fee), AfterSend(sent, st, ctx);
    LockLogs(st, ctx, slateId, height, fee);
    NextLogIdIsNew(st, sent, ctx.parentKeyId);
    var e := SentKey(st, ctx);
    hide Inv, Lock, CoinKeys, CountersGrow, SentEntry, SentKey;
    if k in st.outputs && st.outputs[k].status == Locked {
      LockedIsHeld(st, sent, k);
      ReleasedIsLost(st, st', sent, sent', EntryOf(st.outputs[k]), e, k);
    }
  }

  lemma ReleasedIsLost(st: State, st': State, sent: History, sent': History, e: LogKey, e': LogKey, k: OutputKey)
    requires Inv(st', sent') && e in sent && Live(st, e) && e != e' && k in sent[e] && e' in sent'
    requires sent' == sent[e' := sent'[e']] && e' in st'.logs && st'.logs == st.logs[e' := st'.logs[e']]
    ensures k in st'.outputs && st'.outputs[k].status != Unconfirmed
  {
    SendIsOk(st', sent', e);
    hide Inv;
    assert Held(st', k, e);
  }

  /** Locking a send, whenever that happens, keeps the invariant and spent outputs
      exactly when it is safe. */
  lemma LockKeeps(st: State, sent: History, ctx: Context, slateId: nat, height: nat, fee: nat)
    requires Inv(st, sent) && CoinKeys(ctx.inputIds) <= st.outputs.Keys
    ensures CountersGrow(st, Lock(st, ctx, slateId, height, fee))
    ensures Keeps(st, Lock(st, ctx, slateId, height, fee), sent, AfterSend(sent, st, ctx)) <==> LockSafe(st, ctx)
  {
    LockCounters(st, ctx, slateId, height, fee);
    hide Inv, Lock, AfterSend, SpentStays, CountersGrow, CoinKeys, Spendable, ChangeIsSafe;
    if LockSafe(st, ctx) {
      SafeLockKeeps(st, sent, ctx, slateId, height, fee);
    }
    if Keeps(st, Lock(st, ctx, slateId, height, fee), sent, AfterSend(sent, st, ctx)) {
      forall k | k in CoinKeys(ctx.inputIds) ensures Spendable(st, ctx, k) {
        NeededInput(st, sent, ctx, slateId, height, fee, k);
      }
      forall i | 0 <= i < |ctx.outputIds| ensures ChangeIsSafe(st, ctx, ctx.outputIds[i]) {
        NeededChange(st, sent, ctx, slateId, height, fee, i);
      }
    }
  }

  lemma LockCounters(st: State, ctx: Context, slateId: nat, height: nat, fee: nat)
    requires CoinKeys(ctx.inputIds) <= st.outputs.Keys
    ensures CountersGrow(st, Lock(st, ctx, slateId, height, fee))
  {
    LockParts(st, ctx, slateId, height, fee);
    LockedCounters(st, ctx, slateId, fee);
    hide CoinKeys, Lock, LockedOnly, Saved;
  }
}
