/** What a cancel does in any state a wallet can reach: it unlocks exactly the inputs of
    the send that are not spent, deletes exactly the pending outputs the entry made, and
    touches nothing else (src/internal/updater.rs:214-246). */
module LedgerCancel {
  import opened Wrappers
  import opened Outputs
  import opened Contexts
  import opened Funding
  import opened Ledger
  import opened LedgerInvariant
  import opened LedgerSend
  import opened LedgerRuns
  import opened ChainScan
  import opened Restore
  import opened RestoreAccounts

  // ----- the outputs each entry made

  function ChangeKeys(ctx: Context): set<OutputKey> {
    set i | 0 <= i < |ctx.outputIds| :: (ctx.outputIds[i].0, None)
  }

  /** The outputs made by each send and each receipt, after a step. */
  ghost function MadeAfter(st: State, made: History, step: Step): History {
    match step
    case LockStep(slateId, height, fee) =>
      if (slateId, 0) in st.contexts then
        var ctx := st.contexts[(slateId, 0)]; made[SentKey(st, ctx) := ChangeKeys(ctx)]
      else made
    case ReceiveStep(parent, slateId, amount, height) =>
      made[(parent, st.NextLogId(parent)) := {(st.NextKey(), None)}]
    case _ => made
  }

  ghost function Made(run: Run, n: nat): History
    requires n < |run.states| && |run.states| == |run.steps| + 1
  {
    if n == 0 then map[] else MadeAfter(run.states[n - 1], Made(run, n - 1), run.steps[n - 1])
  }

  /** The entry of a send or receipt that was not cancelled. */
  predicate Open(st: State, e: LogKey) {
    e in st.logs && (st.logs[e].txType == TxSent || st.logs[e].txType == TxReceived)
  }

  /** A pending output that names the entry of a send or receipt. */
  predicate PendingFor(st: State, k: OutputKey, e: LogKey) {
    k in st.outputs && st.outputs[k].status == Unconfirmed && Names(st.outputs[k], e) && Open(st, e)
  }

  /** Such an output was made by the entry it names. */
  ghost predicate PendingIsMade(st: State, made: History) {
    forall k, e :: PendingFor(st, k, e) ==> e in made && k in made[e]
  }

  /** The step makes no pending output name another entry, and opens none. */
  ghost predicate PendingStays(st: State, st': State) {
    forall k, e :: PendingFor(st', k, e) ==> PendingFor(st, k, e)
  }

  // ----- every step

  /** What a batch changes of an output keeps it from naming another entry while it is
      pending. */
  predicate Settles(o: OutputData, o': OutputData) {
    o'.status == Unconfirmed ==> o.status == Unconfirmed && o'.txLogEntry == o.txLogEntry && o'.rootKeyId == o.rootKeyId
  }

  lemma SettledStays(st: State, st': State)
    requires st'.outputs.Keys <= st.outputs.Keys && forall k :: k in st'.outputs ==> Settles(st.outputs[k], st'.outputs[k])
    requires forall e :: Open(st', e) ==> Open(st, e)
    ensures PendingStays(st, st')
  {
    forall k, e | PendingFor(st', k, e) ensures PendingFor(st, k, e) {
      assert Settles(st.outputs[k], st'.outputs[k]);
    }
  }

  lemma CancelSettles(st: State, sent: History, e: LogKey)
    requires Inv(st, sent) && e in st.logs && Cancellable(st.logs[e])
    ensures PendingStays(st, Cancel(st, st.logs[e]))
  {
    EntryIsOk(st, sent, e);
    hide Inv;
    SettledStays(st, Cancel(st, st.logs[e]));
  }

  /** One update of a refresh: outputs settle, and no entry opens. */
  ghost predicate SettlesAll(st0: State, st: State) {
    && st.outputs.Keys <= st0.outputs.Keys && (forall k :: k in st.outputs ==> Settles(st0.outputs[k], st.outputs[k]))
    && (forall e :: Open(st, e) ==> Open(st0, e))
  }

  lemma StoreSettles(st0: State, st: State, o: OutputData, o': OutputData)
    requires SettlesAll(st0, st) && o'.Key() in st0.outputs && st0.outputs[o'.Key()] == o && Settles(o, o')
    ensures SettlesAll(st0, st.SaveOutput(o'))
  {
  }

  lemma LogSettles(st0: State, st: State, t: TxLogEntry, next: map<Identifier, nat>)
    requires SettlesAll(st0, st) && (Open(st0, (t.parentKeyId, t.id)) || t.txType == ConfirmedCoinbase)
    ensures SettlesAll(st0, st.(nextLogId := next).SaveLog(t))
  {
  }

  lemma ApplyOneSettles(st0: State, sent: History, st: State, key: OutputKey, commit: OutputCommit, api: NodeAnswer, parent: Identifier)
    requires Inv(st0, sent) && SettlesAll(st0, st)
    ensures SettlesAll(st0, ApplyOne(st0, st, key, commit, api, parent))
  {
    if key in st0.outputs {
      OutputIsOk(st0, sent, key);
      var o := st0.outputs[key];
      hide SettlesAll;
      if commit !in api {
        StoreSettles(st0, st, o, o.MarkSpent());
      } else if o.isCoinbase && o.status == Unconfirmed {
        MineSettles(st0, st, o, parent, api[commit]);
      } else if o.status == Unconfirmed && o.txLogEntry.Some? && (parent, o.txLogEntry.value) in st0.logs {
        EntryIsOk(st0, sent, (parent, o.txLogEntry.value));
        ConfirmSettles(st0, st, (parent, o.txLogEntry.value), o, api[commit]);
      } else {
        StoreSettles(st0, st, o, o.(height := api[commit]).MarkUnspent());
      }
      hide Inv;
    }
  }

  lemma MineSettles(st0: State, st: State, o: OutputData, parent: Identifier, height: nat)
    requires SettlesAll(st0, st) && o.Key() in st0.outputs && st0.outputs[o.Key()] == o
    ensures SettlesAll(st0, MineCoinbase(st, o, parent, height))
  {
    var logId := st.NextLogId(parent);
    var t := ConfirmedEntry(parent, logId, o);
    hide SettlesAll;
    LogSettles(st0, st, t, st.AfterNextLogId(parent).nextLogId);
    StoreSettles(st0, st.AfterNextLogId(parent).SaveLog(t), o, o.(txLogEntry := Some(logId), height := height).MarkUnspent());
  }

  lemma ConfirmSettles(st0: State, st: State, e: LogKey, o: OutputData, height: nat)
    requires SettlesAll(st0, st) && o.Key() in st0.outputs && st0.outputs[o.Key()] == o
    requires e in st0.logs && (st0.logs[e].parentKeyId, st0.logs[e].id) == e
    ensures SettlesAll(st0, ConfirmTx(st, st0.logs[e], o, height))
  {
    hide SettlesAll;
    KnownSettles(st0, st, e);
    StoreSettles(st0, st.SaveLog(st0.logs[e].(confirmed := true)), o, o.(height := height).MarkUnspent());
  }

  /** An entry written again is open only if it was. */
  lemma KnownSettles(st0: State, st: State, e: LogKey)
    requires SettlesAll(st0, st) && e in st0.logs && (st0.logs[e].parentKeyId, st0.logs[e].id) == e
    ensures SettlesAll(st0, st.SaveLog(st0.logs[e].(confirmed := true)))
  {
  }

  lemma {:induction false} ApplySettles(st: State, sent: History, order: seq<OutputCommit>, tracked: map<OutputCommit, OutputKey>,
      api: NodeAnswer, parent: Identifier)
    requires Inv(st, sent)
    ensures SettlesAll(st, ApplyInOrder(st, order, tracked, api, parent))
  {
    if order == [] {
    } else {
      hide Inv, SettlesAll, ApplyOne;
      var front, commit := order[..|order| - 1], order[|order| - 1];
      ApplySettles(st, sent, front, tracked, api, parent);
      if commit in tracked {
        ApplyOneSettles(st, sent, ApplyInOrder(st, front, tracked, api, parent), tracked[commit], commit, api, parent);
      }
    }
  }

  lemma RefreshSettles(st: State, sent: History, order: seq<OutputCommit>, tracked: map<OutputCommit, OutputKey>,
      api: NodeAnswer, height: nat, parent: Identifier)
    requires Inv(st, sent)
    ensures PendingStays(st, Clean(Apply(st, order, tracked, api, height, parent), height))
  {
    ApplySettles(st, sent, order, tracked, api, parent);
    hide Inv, ApplyInOrder, StaleKeys;
    SettledStays(st, Clean(Apply(st, order, tracked, api, height, parent), height));
  }

  lemma RestoreSettles(st: State, sent: History, seen: seq<ChainOutput>)
    requires Inv(st, sent) && st.outputs == map[] && Ascending(seen)
    ensures PendingStays(st, Restored(st, seen))
  {
    InvHasLogOk(st, sent);
    RestoreAccountsForAll(st, seen);
    hide Inv, Restored, Identified, EntryAccounts, OutputAccounts, LogOk, Ascending;
    var st', rs := Restored(st, seen), Identified(seen);
    forall k | k in st'.outputs ensures st'.outputs[k].status == Unspent {
      var i :| 0 <= i < |rs| && rs[i].Key() == k;
      assert IsSaved(st', rs[i]);
    }
  }

  lemma CoinbaseSettles(st: State, key: Option<Identifier>, value: nat, height: nat)
    ensures PendingStays(st, Coinbase(st, key, value, height))
  {
  }

  /** A lock and a receipt make the pending outputs of their own new entry. */
  lemma LockMakes(st: State, sent: History, made: History, ctx: Context, slateId: nat, height: nat, fee: nat)
    requires Inv(st, sent) && PendingIsMade(st, made) && CoinKeys(ctx.inputIds) <= st.outputs.Keys
    ensures PendingIsMade(Lock(st, ctx, slateId, height, fee), made[SentKey(st, ctx) := ChangeKeys(ctx)])
  {
    var st', made' := Lock(st, ctx, slateId, height, fee), made[SentKey(st, ctx) := ChangeKeys(ctx)];
    NextLogIdIsNew(st, sent, ctx.parentKeyId);
    LockLogs(st, ctx, slateId, height, fee);
    hide Inv, Lock, ChangeKeys, SentEntry;
    forall k, e | PendingFor(st', k, e) ensures e in made' && k in made'[e] {
      LockedPending(st, ctx, slateId, height, fee, k);
      if k in st.outputs && st'.outputs[k] == st.outputs[k] && e != SentKey(st, ctx) {
        assert PendingFor(st, k, e);
      }
      OldIsNotNew(st, sent, ctx, k);
    }
  }

  lemma OldIsNotNew(st: State, sent: History, ctx: Context, k: OutputKey)
    requires Inv(st, sent)
    ensures k in st.outputs ==> !Names(st.outputs[k], SentKey(st, ctx))
  {
    if k in st.outputs {
      OutputIsOk(st, sent, k);
      NextLogIdIsNew(st, sent, ctx.parentKeyId);
    }
    hide Inv;
  }

  lemma LockedPending(st: State, ctx: Context, slateId: nat, height: nat, fee: nat, k: OutputKey)
    requires CoinKeys(ctx.inputIds) <= st.outputs.Keys
    requires var st' := Lock(st, ctx, slateId, height, fee); k in st'.outputs && st'.outputs[k].status == Unconfirmed
    ensures var o := Lock(st, ctx, slateId, height, fee).outputs[k];
      || (k in st.outputs && o == st.outputs[k])
      || (k in ChangeKeys(ctx) && Names(o, SentKey(st, ctx)))
  {
    var mid, outs := LockedOnly(st, ctx, slateId, fee), ChangeOutputs(ctx, height, st.NextLogId(ctx.parentKeyId));
    LockParts(st, ctx, slateId, height, fee);
    hide Lock, Saved;
    SavedLookup(mid.outputs, outs, k);
    if k in mid.outputs && Saved(mid.outputs, outs)[k] == mid.outputs[k] {
      LockedCounters(st, ctx, slateId, fee);
      LockedAt(st, ctx, slateId, fee, k);
      hide LockedOnly;
    } else {
      var i :| 0 <= i < |outs| && outs[i].Key() == k && Saved(mid.outputs, outs)[k] == outs[i];
      assert k == (ctx.outputIds[i].0, None);
    }
  }

  lemma ReceiveMakes(st: State, sent: History, made: History, parent: Identifier, slateId: nat, amount: nat, height: nat)
    requires Inv(st, sent) && PendingIsMade(st, made)
    ensures PendingIsMade(Receive(st, parent, slateId, amount, height),
                          made[(parent, st.NextLogId(parent)) := {(st.NextKey(), None)}])
  {
    var st', entry := Receive(st, parent, slateId, amount, height), (parent, st.NextLogId(parent));
    var made' := made[entry := {(st.NextKey(), None)}];
    NextLogIdIsNew(st, sent, parent);
    hide Inv;
    forall k, e | PendingFor(st', k, e) ensures e in made' && k in made'[e] {
      if k != (st.NextKey(), None) {
        OldNamesOld(st, sent, k, entry);
        assert PendingFor(st, k, e);
      }
    }
  }

  lemma OldNamesOld(st: State, sent: History, k: OutputKey, e: LogKey)
    requires Inv(st, sent) && k in st.outputs && e !in st.logs
    ensures !Names(st.outputs[k], e)
  {
    OutputIsOk(st, sent, k);
    hide Inv;
  }

  lemma StaysMade(st: State, st': State, made: History)
    requires PendingIsMade(st, made) && PendingStays(st, st')
    ensures PendingIsMade(st', made)
  {
    hide PendingFor;
  }

  lemma StepMakes(st: State, sent: History, made: History, step: Step, st': State, sent': History)
    requires Inv(st, sent) && Next(st, sent, step, st', sent') && PendingIsMade(st, made)
    ensures PendingIsMade(st', MadeAfter(st, made, step))
  {
    hide Inv, PendingIsMade, PendingFor, Lock, LockSafe, CanSend, AfterSend, Receive, Cancel, Apply, Clean, Coinbase;
    hide Restored, Ascending, ContextOk, Maps, Orders, AlreadyReceived, InitSend, MayReplace;
    match step
    case LockStep(slateId, height, fee) => LockMakes(st, sent, made, st.contexts[(slateId, 0)], slateId, height, fee);
    case ReceiveStep(parent, slateId, amount, height) => ReceiveMakes(st, sent, made, parent, slateId, amount, height);
    case _ =>
      StepSettles(st, sent, step, st', sent');
      StaysMade(st, st', made);
  }

  lemma StepSettles(st: State, sent: History, step: Step, st': State, sent': History)
    requires Inv(st, sent) && Next(st, sent, step, st', sent') && !step.LockStep? && !step.ReceiveStep?
    ensures PendingStays(st, st')
  {
    hide Inv, PendingStays, CanSend, Initiated, AfterChildren, Cancel, Apply, Clean, Coinbase, Restored, Ascending, ContextOk, Maps, Orders, MayReplace;
    match step
    case CancelStep(e) => CancelSettles(st, sent, e);
    case RefreshStep(parent, updateAll, tracked, order, api, height) =>
      RefreshSettles(st, sent, order, tracked, api, height, parent);
    case CoinbaseStep(key, value, height) => CoinbaseSettles(st, key, value, height);
    case RestoreStep(seen) => RestoreSettles(st, sent, seen);
    case InitStep(a, outs, s, own) =>
      CanSendSplits(st, a, outs, s);
      InitiatedSame(st, a, s, own);
      SameSettles(st, st');
    case AbandonStep(keys) =>
      SameButChildren(st, keys);
      SameSettles(st, st');
    case _ => SameSettles(st, st');
  }

  lemma InitiatedSame(st: State, a: SendArgs, s: Selection, own: SlateContext)
    requires !SplitAborts(Change(s), a.changeOutputs)
    ensures Initiated(st, a, s, own).outputs == st.outputs && Initiated(st, a, s, own).logs == st.logs
  {
    hide ChangeAmounts, ChangeCoins, ContextInputs;
  }

  lemma SameSettles(st: State, st': State)
    ensures st'.outputs == st.outputs && st'.logs == st.logs ==> PendingStays(st, st')
  {
  }

  lemma {:induction false} RunMakes(run: Run, n: nat)
    requires run.Valid() && n < |run.states|
    ensures PendingIsMade(run.states[n], Made(run, n))
  {
    if n == 0 {
      hide Next;
    } else {
      hide Inv, PendingIsMade, Next, MadeAfter;
      RunMakes(run, n - 1);
      RunKeepsInv(run, n - 1);
      assert Next(run.states[n - 1], run.histories[n - 1], run.steps[n - 1], run.states[n], run.histories[n]);
      StepMakes(run.states[n - 1], run.histories[n - 1], Made(run, n - 1), run.steps[n - 1], run.states[n], run.histories[n]);
    }
  }

  // ----- the cancel

  /** The inputs of a send, and the outputs its entry or a receipt's made. */
  ghost function SendInputs(st: State, sent: History, e: LogKey): set<OutputKey> {
    if Live(st, e) && e in sent then sent[e] else {}
  }

  ghost function MadeOutputs(made: History, e: LogKey): set<OutputKey> {
    if e in made then made[e] else {}
  }

  /** One output after the cancel of an entry. */
  ghost predicate UndoneAs(st: State, outputs: map<OutputKey, OutputData>, inputs: set<OutputKey>, created: set<OutputKey>,
      e: LogKey, k: OutputKey)
    requires k in st.outputs
  {
    var o := st.outputs[k];
    if k in inputs && o.status != Spent then o.status == Locked && k in outputs && outputs[k] == o.(status := Unspent)
    else if k in created && o.status == Unconfirmed && Names(o, e) then k !in outputs
    else k in outputs && outputs[k] == o
  }

  /** In every state of every run, cancelling an entry unlocks the inputs of the send
      that are not spent, deletes the outputs its entry made that are still pending for
      it, and leaves every other output and every other entry alone. */
  lemma CancelInRun(run: Run, n: nat, e: LogKey)
    requires run.Valid() && n < |run.states| && e in run.states[n].logs && Cancellable(run.states[n].logs[e])
    ensures var st, t := run.states[n], run.states[n].logs[e];
      var st' := Cancel(st, t);
      && (t.txType == TxSent ==> e in run.histories[n])
      && st'.outputs.Keys <= st.outputs.Keys && st'.logs == st.logs[e := Cancelled(t)]
      && forall k :: k in st.outputs ==>
           UndoneAs(st, st'.outputs, SendInputs(st, run.histories[n], e), MadeOutputs(Made(run, n), e), e, k)
  {
    RunKeepsInv(run, n);
    RunMakes(run, n);
    var st, sent, made := run.states[n], run.histories[n], Made(run, n);
    hide Run.Valid, Inv, PendingIsMade, UndoneAs, Cancelled;
    EntryIsOk(st, sent, e);
    forall k | k in st.outputs ensures UndoneAs(st, Cancel(st, st.logs[e]).outputs, SendInputs(st, sent, e), MadeOutputs(made, e), e, k) {
      OutputUndone(st, sent, made, e, k);
    }
  }

  lemma OutputUndone(st: State, sent: History, made: History, e: LogKey, k: OutputKey)
    requires Inv(st, sent) && PendingIsMade(st, made) && e in st.logs && Cancellable(st.logs[e]) && k in st.outputs
    ensures UndoneAs(st, Cancel(st, st.logs[e]).outputs, SendInputs(st, sent, e), MadeOutputs(made, e), e, k)
  {
    var t, o := st.logs[e], st.outputs[k];
    EntryIsOk(st, sent, e);
    OutputIsOk(st, sent, k);
    assert BelongsTo(o, t) <==> o.status != Spent && Names(o, e);
    assert o.status == Unconfirmed && Names(o, e) ==> PendingFor(st, k, e);
    if k in SendInputs(st, sent, e) {
      SendIsOk(st, sent, e);
      assert Held(st, k, e);
    }
    hide Inv, HandedOut;
  }
}
