/** Runs of the wallet: any interleaving of sends that are initiated and, whenever it is
    safe, locked, of receives, cancels, refreshes against any node answer, coinbases,
    account switches, finalizations, sends given up after their change keys were handed
    out, and restores while the store holds no outputs. */
module LedgerRuns {
  import opened Wrappers
  import opened Outputs
  import opened Contexts
  import opened CoinSelection
  import opened Funding
  import opened Summary
  import opened Ledger
  import opened LedgerInvariant
  import opened LedgerSteps
  import opened LedgerSend
  import opened ChainScan
  import opened Restore
  import opened RestoreAccounts

  /** The arguments of a send. */
  datatype SendArgs = SendArgs(slateId: nat, parent: Identifier, amount: nat, height: nat, minimumConfirmations: nat,
                               maxOutputs: nat, changeOutputs: nat, selectAll: bool)

  datatype Step =
    | InitStep(args: SendArgs, outs: seq<OutputData>, selection: Selection, own: SlateContext)
    | LockStep(slateId: nat, height: nat, fee: nat)
    | ReceiveStep(parent: Identifier, slateId: nat, amount: nat, height: nat)
    | CancelStep(entry: LogKey)
    | RefreshStep(parent: Identifier, updateAll: bool, tracked: map<OutputCommit, OutputKey>, order: seq<OutputCommit>,
                  api: NodeAnswer, height: nat)
    | CoinbaseStep(key: Option<Identifier>, value: nat, height: nat)
    | SwitchStep(account: Identifier)
    | FinalizeStep(slateId: nat)
    | AbandonStep(keys: nat)
    | RestoreStep(seen: seq<ChainOutput>)

  function Change(s: Selection): nat {
    if s.total >= s.amount + s.fee then s.total - s.amount - s.fee else 0
  }

  /** Coins and fee are chosen from the stored outputs, and the change can be split. */
  ghost predicate CanSend(st: State, a: SendArgs, outs: seq<OutputData>, s: Selection) {
    && Enumerates(outs, st.outputs)
    && (a.maxOutputs >= 1 || Eligible(outs, a.parent, a.height, a.minimumConfirmations) == [])
    && Funded(SortByValue(Eligible(outs, a.parent, a.height, a.minimumConfirmations)),
              a.amount, a.maxOutputs, a.changeOutputs, a.selectAll) == Ok(s)
    && !SplitAborts(Change(s), a.changeOutputs)
  }

  ghost function Amounts(a: SendArgs, s: Selection): seq<nat>
    requires !SplitAborts(Change(s), a.changeOutputs)
  {
    ChangeAmounts(Change(s), a.changeOutputs)
  }

  ghost function ContextOf(st: State, a: SendArgs, s: Selection, own: SlateContext): Context
    requires !SplitAborts(Change(s), a.changeOutputs)
  {
    SendContext(st, a.parent, s.coins, Amounts(a, s), own)
  }

  ghost function Initiated(st: State, a: SendArgs, s: Selection, own: SlateContext): State
    requires !SplitAborts(Change(s), a.changeOutputs)
  {
    InitSend(st, a.slateId, a.parent, s.coins, Amounts(a, s), own)
  }

  /** One step, and the history it leaves. */
  ghost predicate Next(st: State, sent: History, step: Step, st': State, sent': History) {
    match step
    case InitStep(a, outs, s, own) => CanSend(st, a, outs, s) && st' == Initiated(st, a, s, own) && sent' == sent
    case LockStep(slateId, height, fee) =>
      (slateId, 0) in st.contexts
      && var ctx := st.contexts[(slateId, 0)];
         LockSafe(st, ctx) && CoinKeys(ctx.inputIds) <= st.outputs.Keys
         && st' == Lock(st, ctx, slateId, height, fee) && sent' == AfterSend(sent, st, ctx)
    case ReceiveStep(parent, slateId, amount, height) =>
      !AlreadyReceived(st, parent, slateId) && st' == Receive(st, parent, slateId, amount, height) && sent' == sent
    case CancelStep(e) =>
      e in st.logs && Cancellable(st.logs[e]) && st' == Cancel(st, st.logs[e]) && sent' == sent
    case RefreshStep(parent, updateAll, tracked, order, api, height) =>
      Maps(st, parent, updateAll, tracked) && Orders(order, tracked)
      && st' == Clean(Apply(st, order, tracked, api, height, parent), height) && sent' == sent
    case CoinbaseStep(key, value, height) => MayReplace(st, key) && st' == Coinbase(st, key, value, height) && sent' == sent
    case SwitchStep(account) => st' == SwitchAccount(st, account) && sent' == sent
    case FinalizeStep(slateId) => st' == Finalize(st, slateId) && sent' == sent
    case AbandonStep(keys) => st' == AfterChildren(st, keys) && sent' == sent
    case RestoreStep(seen) =>
      st.outputs == map[] && Ascending(seen) && st' == Restored(st, seen) && sent' == sent
      && (forall c :: c in st'.contexts ==> ContextOk(st', c))
  }

  /** A new wallet. */
  ghost predicate Start(st: State) {
    st.outputs == map[] && st.logs == map[] && st.contexts == map[]
  }

  datatype Run = Run(states: seq<State>, histories: seq<History>, steps: seq<Step>) {
    ghost predicate Valid() {
      && |states| == |histories| == |steps| + 1
      && Start(states[0]) && histories[0] == map[]
      && forall i :: 0 <= i < |steps| ==> Next(states[i], histories[i], steps[i], states[i + 1], histories[i + 1])
    }
  }

  lemma CanSendSplits(st: State, a: SendArgs, outs: seq<OutputData>, s: Selection)
    requires CanSend(st, a, outs, s)
    ensures !SplitAborts(Change(s), a.changeOutputs)
  {
  }

  // ----- a send may lock what it selected

  lemma {:induction false} EligibleIsStored(outs: seq<OutputData>, parent: Identifier, height: nat, minimumConfirmations: nat, o: OutputData)
    requires o in Eligible(outs, parent, height, minimumConfirmations)
    ensures o in outs && o.rootKeyId == parent && o.EligibleToSpend(height, minimumConfirmations)
  {
    if outs == [] {
    } else if o in Eligible(outs[..|outs| - 1], parent, height, minimumConfirmations) {
      EligibleIsStored(outs[..|outs| - 1], parent, height, minimumConfirmations, o);
    }
  }

  lemma SelectedCoin(st: State, a: SendArgs, outs: seq<OutputData>, s: Selection, o: OutputData)
    requires CanSend(st, a, outs, s) && o in s.coins
    ensures o.Key() in st.outputs && st.outputs[o.Key()] == o
    ensures o.rootKeyId == a.parent && o.EligibleToSpend(a.height, a.minimumConfirmations)
  {
    var eligible := Eligible(outs, a.parent, a.height, a.minimumConfirmations);
    FundedCovers(SortByValue(eligible), a.amount, a.maxOutputs, a.changeOutputs, a.selectAll);
    SortIsPermutation(eligible);
    assert o in multiset(s.coins) && o in multiset(SortByValue(eligible)) && o in multiset(eligible) && o in eligible;
    EligibleIsStored(outs, a.parent, a.height, a.minimumConfirmations, o);
    var i :| 0 <= i < |outs| && outs[i] == o;
    assert KeysOf(outs)[i] == o.Key();
  }

  lemma SendMayLock(st: State, sent: History, a: SendArgs, outs: seq<OutputData>, s: Selection, own: SlateContext)
    requires Inv(st, sent) && CanSend(st, a, outs, s)
    ensures var mid, ctx := Initiated(st, a, s, own), ContextOf(st, a, s, own);
      Lockable(mid, ctx) && LockSafe(mid, ctx) && CoinKeys(ctx.inputIds) <= mid.outputs.Keys
  {
    var mid, ctx := Initiated(st, a, s, own), ContextOf(st, a, s, own);
    hide Inv, Funded, Enumerates, Spendable, ChangeIsNew, LockSafe;
    ChangeKeysDiffer(st, a, s);
    forall k | k in CoinKeys(ctx.inputIds) ensures Spendable(mid, ctx, k) && k in mid.outputs {
      InputIsSpendable(st, a, outs, s, own, k);
    }
    forall i | 0 <= i < |ctx.outputIds| ensures ChangeIsNew(mid, ctx.outputIds[i]) {
      ChangeKeyIsNew(st, sent, a, s, own, i);
    }
    LockableIsSafe(mid, ctx);
  }

  lemma InputIsSpendable(st: State, a: SendArgs, outs: seq<OutputData>, s: Selection, own: SlateContext, k: OutputKey)
    requires CanSend(st, a, outs, s) && k in CoinKeys(ContextOf(st, a, s, own).inputIds)
    ensures Spendable(Initiated(st, a, s, own), ContextOf(st, a, s, own), k) && k in Initiated(st, a, s, own).outputs
  {
    var ctx := ContextOf(st, a, s, own);
    var i :| 0 <= i < |ctx.inputIds| && CoinKey(ctx.inputIds[i]) == k;
    SelectedCoin(st, a, outs, s, s.coins[i]);
  }

  lemma ChangeKeyIsNew(st: State, sent: History, a: SendArgs, s: Selection, own: SlateContext, i: nat)
    requires Inv(st, sent) && !SplitAborts(Change(s), a.changeOutputs) && i < |ContextOf(st, a, s, own).outputIds|
    ensures ChangeIsNew(Initiated(st, a, s, own), ContextOf(st, a, s, own).outputIds[i])
  {
    NextKeyIsNew(st, sent, i);
  }

  lemma ChangeKeysDiffer(st: State, a: SendArgs, s: Selection)
    requires !SplitAborts(Change(s), a.changeOutputs)
    ensures var ids := ChangeCoins(st, Amounts(a, s));
      forall i, j :: 0 <= i < j < |ids| ==> ids[i].0 != ids[j].0
  {
    var ids := ChangeCoins(st, Amounts(a, s));
    forall i, j | 0 <= i < j < |ids| ensures ids[i].0 != ids[j].0 {
      var p, n := st.active, st.ChildIndex(st.active);
      assert ids[i].0 == p.Child(n + i) && ids[j].0 == p.Child(n + j);
      assert p.Child(n + i).path[|p.path|] != p.Child(n + j).path[|p.path|];
    }
  }

  lemma InitKeeps(st: State, sent: History, a: SendArgs, outs: seq<OutputData>, s: Selection, own: SlateContext)
    requires Inv(st, sent) && CanSend(st, a, outs, s)
    ensures Keeps(st, Initiated(st, a, s, own), sent, sent)
  {
    forall i | 0 <= i < |s.coins| ensures s.coins[i].Key() in st.outputs {
      SelectedCoin(st, a, outs, s, s.coins[i]);
    }
    hide Inv, SpentStays, CountersGrow, Funded, Enumerates, InitSend;
    InitSendKeeps(st, sent, a.slateId, a.parent, s.coins, Amounts(a, s), own);
  }

  /** A send may be locked at once, by the step that locks it at any later time. */
  lemma SendKeeps(st: State, sent: History, a: SendArgs, outs: seq<OutputData>, s: Selection, own: SlateContext, fee: nat)
    requires Inv(st, sent) && CanSend(st, a, outs, s)
    ensures var mid, ctx := Initiated(st, a, s, own), ContextOf(st, a, s, own);
      CoinKeys(ctx.inputIds) <= mid.outputs.Keys
      && var st', sent' := Lock(mid, ctx, a.slateId, a.height, fee), AfterSend(sent, mid, ctx);
         Next(mid, sent, LockStep(a.slateId, a.height, fee), st', sent') && Keeps(st, st', sent, sent')
  {
    var mid, ctx := Initiated(st, a, s, own), ContextOf(st, a, s, own);
    InitKeeps(st, sent, a, outs, s, own);
    SendMayLock(st, sent, a, outs, s, own);
    LockIsStep(mid, sent, a.slateId, a.height, fee);
    hide Inv, SpentStays, CountersGrow, CanSend, Lockable, LockSafe, Lock, AfterSend, Next;
    SafeLockKeeps(mid, sent, ctx, a.slateId, a.height, fee);
    KeepsCompose(st, mid, Lock(mid, ctx, a.slateId, a.height, fee), sent, AfterSend(sent, mid, ctx));
  }

  lemma LockIsStep(st: State, sent: History, slateId: nat, height: nat, fee: nat)
    requires (slateId, 0) in st.contexts && LockSafe(st, st.contexts[(slateId, 0)])
    requires CoinKeys(st.contexts[(slateId, 0)].inputIds) <= st.outputs.Keys
    ensures var ctx := st.contexts[(slateId, 0)];
      Next(st, sent, LockStep(slateId, height, fee), Lock(st, ctx, slateId, height, fee), AfterSend(sent, st, ctx))
  {
    hide LockSafe, Lock, AfterSend, CoinKeys;
  }

  // ----- every run

  /** Every step keeps the invariant and spent outputs. Counters only grow, except that
      a restore sets the next children by what it finds. */
  lemma StepKeeps(st: State, sent: History, step: Step, st': State, sent': History)
    requires Inv(st, sent) && Next(st, sent, step, st', sent')
    ensures Inv(st', sent') && SpentStays(st, st') && (step.RestoreStep? || CountersGrow(st, st'))
  {
    hide Inv, SpentStays, CountersGrow, ContextOk, Lock, LockSafe, AfterSend, InitSend, Funded, Enumerates, Receive, Cancel, Apply, Clean, Coinbase, Restored;
    hide AfterChildren, Maps, Orders, Ascending, Cancellable, AlreadyReceived;
    match step
    case InitStep(a, outs, s, own) => InitKeeps(st, sent, a, outs, s, own);
    case LockStep(slateId, height, fee) => SafeLockKeeps(st, sent, st.contexts[(slateId, 0)], slateId, height, fee);
    case ReceiveStep(parent, slateId, amount, height) => ReceiveKeeps(st, sent, parent, slateId, amount, height);
    case CancelStep(e) => CancelKeeps(st, sent, e);
    case RefreshStep(parent, updateAll, tracked, order, api, height) =>
      var mid := Apply(st, order, tracked, api, height, parent);
      ApplyKeeps(st, sent, order, tracked, api, height, parent, updateAll);
      CleanKeeps(mid, sent, height);
      KeepsCompose(st, mid, st', sent, sent);
    case CoinbaseStep(key, value, height) => CoinbaseKeeps(st, sent, key, value, height);
    case SwitchStep(account) => SwitchAccountKeeps(st, sent, account);
    case FinalizeStep(slateId) => FinalizeKeeps(st, sent, slateId);
    case AbandonStep(keys) => AbandonKeeps(st, sent, keys);
    case RestoreStep(seen) => RestoredKeepsInv(st, sent, seen);
  }

  lemma AbandonKeeps(st: State, sent: History, keys: nat)
    requires Inv(st, sent)
    ensures Keeps(st, AfterChildren(st, keys), sent, sent)
  {
    hide Inv, SpentStays, CountersGrow;
    ChildrenKeep(st, sent, seq(keys, _ => 0));
  }

  lemma StartIsInv(st: State)
    ensures Start(st) ==> Inv(st, map[])
  {
  }

  lemma RunStepKeeps(run: Run, n: nat)
    requires run.Valid() && n < |run.steps| && Inv(run.states[n], run.histories[n])
    ensures Inv(run.states[n + 1], run.histories[n + 1]) && SpentStays(run.states[n], run.states[n + 1])
  {
    hide Inv, SpentStays, CountersGrow, Start;
    assert Next(run.states[n], run.histories[n], run.steps[n], run.states[n + 1], run.histories[n + 1]);
    hide Next;
    StepKeeps(run.states[n], run.histories[n], run.steps[n], run.states[n + 1], run.histories[n + 1]);
  }

  lemma {:induction false} RunKeepsInv(run: Run, n: nat)
    requires run.Valid() && n < |run.states|
    ensures Inv(run.states[n], run.histories[n])
  {
    hide Inv, Next;
    if n == 0 {
      StartIsInv(run.states[0]);
    } else {
      hide Run.Valid;
      RunKeepsInv(run, n - 1);
      RunStepKeeps(run, n - 1);
    }
  }

  /** In every state of every run, no output is an input of two sends that are both
      not cancelled. */
  lemma NoDoubleSpendEver(run: Run, n: nat, e: LogKey, e': LogKey, k: OutputKey)
    requires run.Valid() && n < |run.states|
    requires Live(run.states[n], e) && Live(run.states[n], e') && e != e'
    ensures e in run.histories[n] && e' in run.histories[n]
    ensures !(k in run.histories[n][e] && k in run.histories[n][e'])
  {
    RunKeepsInv(run, n);
    assert EntryOk(run.states[n], run.histories[n], e) && EntryOk(run.states[n], run.histories[n], e');
  }

  /** In every state of every run, a locked output points to a send of its account
      that is not cancelled, and is an input of it. */
  lemma LockedPointsToSend(run: Run, n: nat, k: OutputKey)
    requires run.Valid() && n < |run.states|
    requires k in run.states[n].outputs && run.states[n].outputs[k].status == Locked
    ensures var o := run.states[n].outputs[k];
      o.txLogEntry.Some? && Live(run.states[n], (o.rootKeyId, o.txLogEntry.value))
      && (o.rootKeyId, o.txLogEntry.value) in run.histories[n]
      && k in run.histories[n][(o.rootKeyId, o.txLogEntry.value)]
  {
    RunKeepsInv(run, n);
    assert OutputOk(run.states[n], run.histories[n], k);
  }

  /** A spent output never changes again. */
  lemma {:induction false} SpentNeverChanges(run: Run, i: nat, j: nat, k: OutputKey)
    requires run.Valid() && i <= j < |run.states|
    requires k in run.states[i].outputs && run.states[i].outputs[k].status == Spent
    ensures k in run.states[j].outputs && run.states[j].outputs[k] == run.states[i].outputs[k]
    decreases j - i
  {
    hide Inv, Next, CountersGrow;
    if i == j {
    } else {
      SpentNeverChanges(run, i, j - 1, k);
      RunKeepsInv(run, j - 1);
      RunStepKeeps(run, j - 1);
    }
  }

  /** In every state of every run, whatever account is active, the keys and the log
      ids handed out next are new: no output, no context and no entry has them. */
  lemma HandedOutOnce(run: Run, n: nat, account: Identifier, i: nat)
    requires run.Valid() && n < |run.states|
    ensures var st := run.states[n];
      var key := account.Child(st.ChildIndex(account) + i);
      && (forall k :: k in st.outputs ==> k.0 != key)
      && (forall c :: c in st.contexts ==> forall x :: x in st.contexts[c].inputIds + st.contexts[c].outputIds ==> x.0 != key)
      && (account, st.NextLogId(account) + i) !in st.logs
  {
    var st, sent := run.states[n], run.histories[n];
    RunKeepsInv(run, n);
    hide Run.Valid, Inv, SpentStays, CountersGrow;
    SwitchAccountKeeps(st, sent, account);
    NextKeyIsNew(SwitchAccount(st, account), sent, i);
    LaterLogIdIsNew(st, sent, account, i);
    var key := account.Child(st.ChildIndex(account) + i);
    forall c | c in st.contexts ensures forall x :: x in st.contexts[c].inputIds + st.contexts[c].outputIds ==> x.0 != key {
      ContextsAreOther(st, sent, c, account, i);
    }
  }

  lemma ContextsAreOther(st: State, sent: History, c: ContextKey, account: Identifier, i: nat)
    requires Inv(st, sent) && c in st.contexts
    ensures forall x :: x in st.contexts[c].inputIds + st.contexts[c].outputIds ==>
      x.0 != account.Child(st.ChildIndex(account) + i)
  {
    ContextIsOk(st, sent, c);
    hide Inv, CoinsHandedOut, Identifier.Child;
    CoinsAreOther(st, st.contexts[c].inputIds, account, i);
    CoinsAreOther(st, st.contexts[c].outputIds, account, i);
  }

  lemma CoinsAreOther(st: State, coins: seq<ContextCoin>, account: Identifier, i: nat)
    requires CoinsHandedOut(st, coins)
    ensures forall x :: x in coins ==> x.0 != account.Child(st.ChildIndex(account) + i)
  {
    var key := account.Child(st.ChildIndex(account) + i);
    assert key.path[..|key.path| - 1] == account.path;
    assert !HandedOut(st, key);
  }
}
