/** The summary and the spendable coins in runs of the wallet. */
module LedgerSummary {
  import opened Wrappers
  import opened Outputs
  import opened CoinSelection
  import opened Sums
  import opened Summary
  import opened Ledger
  import opened LedgerInvariant
  import opened LedgerSend
  import opened LedgerRuns
  import opened LedgerUndo

  // ----- lock heights

  /** Only coinbases have a lock height. */
  predicate NoTimeLock(m: map<OutputKey, OutputData>) {
    forall k :: k in m ==> NotTimeLocked(m[k])
  }

  predicate NotTimeLocked(o: OutputData) {
    !o.isCoinbase ==> o.lockHeight == 0
  }

  lemma {:induction false} SavedNoTimeLock(m: map<OutputKey, OutputData>, outs: seq<OutputData>)
    requires NoTimeLock(m) && forall i :: 0 <= i < |outs| ==> NotTimeLocked(outs[i])
    ensures NoTimeLock(Saved(m, outs))
  {
    if outs == [] {
    } else {
      SavedNoTimeLock(m, outs[..|outs| - 1]);
    }
  }

  lemma LockNoTimeLock(st: State, ctx: Context, slateId: nat, height: nat, fee: nat)
    requires CoinKeys(ctx.inputIds) <= st.outputs.Keys && NoTimeLock(st.outputs)
    ensures NoTimeLock(Lock(st, ctx, slateId, height, fee).outputs)
  {
    var logId := st.NextLogId(ctx.parentKeyId);
    SavedNoTimeLock(LockOutputs(st.outputs, CoinKeys(ctx.inputIds), logId), ChangeOutputs(ctx, height, logId));
  }

  lemma StoreNoTimeLock(st: State, o: OutputData)
    requires NoTimeLock(st.outputs) && NotTimeLocked(o)
    ensures NoTimeLock(st.SaveOutput(o).outputs)
  {
  }

  lemma MineNoTimeLock(st: State, o: OutputData, parent: Identifier, height: nat)
    requires NoTimeLock(st.outputs) && NotTimeLocked(o)
    ensures NoTimeLock(MineCoinbase(st, o, parent, height).outputs)
  {
  }

  lemma ApplyOneNoTimeLock(st0: State, st: State, key: OutputKey, commit: OutputCommit, api: NodeAnswer, parent: Identifier)
    requires NoTimeLock(st0.outputs) && NoTimeLock(st.outputs)
    ensures NoTimeLock(ApplyOne(st0, st, key, commit, api, parent).outputs)
  {
    if key in st0.outputs {
      var o := st0.outputs[key];
      assert NotTimeLocked(o);
      hide NoTimeLock, MineCoinbase;
      if commit !in api {
        StoreNoTimeLock(st, o.MarkSpent());
      } else if o.isCoinbase && o.status == Unconfirmed {
        MineNoTimeLock(st, o, parent, api[commit]);
      } else {
        StoreNoTimeLock(st, o.(height := api[commit]).MarkUnspent());
      }
    }
  }

  lemma {:induction false} ApplyNoTimeLock(st: State, order: seq<OutputCommit>, tracked: map<OutputCommit, OutputKey>,
      api: NodeAnswer, parent: Identifier)
    requires NoTimeLock(st.outputs)
    ensures NoTimeLock(ApplyInOrder(st, order, tracked, api, parent).outputs)
  {
    if order == [] {
    } else {
      hide ApplyOne, NoTimeLock;
      var front, commit := order[..|order| - 1], order[|order| - 1];
      ApplyNoTimeLock(st, front, tracked, api, parent);
      if commit in tracked {
        ApplyOneNoTimeLock(st, ApplyInOrder(st, front, tracked, api, parent), tracked[commit], commit, api, parent);
      }
    }
  }

  lemma ReceiveNoTimeLock(st: State, parent: Identifier, slateId: nat, amount: nat, height: nat)
    requires NoTimeLock(st.outputs)
    ensures NoTimeLock(Receive(st, parent, slateId, amount, height).outputs)
  {
  }

  lemma CancelNoTimeLock(st: State, t: TxLogEntry)
    requires NoTimeLock(st.outputs)
    ensures NoTimeLock(Cancel(st, t).outputs)
  {
  }

  lemma CoinbaseNoTimeLock(st: State, key: Option<Identifier>, value: nat, height: nat)
    requires NoTimeLock(st.outputs)
    ensures NoTimeLock(Coinbase(st, key, value, height).outputs)
  {
    hide NoTimeLock;
    if Replaces(st, key) {
      StoreNoTimeLock(st, CoinbaseOutput(st.active, key.value, value, height));
    } else {
      StoreNoTimeLock(st.AfterNextChild(), CoinbaseOutput(st.active, st.NextKey(), value, height));
    }
  }

  lemma CleanNoTimeLock(st: State, height: nat)
    requires NoTimeLock(st.outputs)
    ensures NoTimeLock(Clean(st, height).outputs)
  {
    hide StaleKeys;
  }

  /** No step but a restore stores a lock height outside coinbases. */
  lemma StepNoTimeLock(st: State, sent: History, step: Step, st': State, sent': History)
    requires Next(st, sent, step, st', sent') && !step.RestoreStep? && NoTimeLock(st.outputs)
    ensures NoTimeLock(st'.outputs)
  {
    hide CanSend, Lock, LockSafe, AfterSend, NoTimeLock, ChangeCoins, ContextInputs, Receive, Cancel, Coinbase, Clean, ApplyInOrder, Maps, Orders, AlreadyReceived;
    match step
    case InitStep(a, outs, s, own) =>
      CanSendSplits(st, a, outs, s);
      assert Initiated(st, a, s, own).outputs == st.outputs;
    case LockStep(slateId, height, fee) => LockNoTimeLock(st, st.contexts[(slateId, 0)], slateId, height, fee);
    case RefreshStep(parent, updateAll, tracked, order, api, height) =>
      ApplyNoTimeLock(st, order, tracked, api, parent);
      CleanNoTimeLock(Apply(st, order, tracked, api, height, parent), height);
    case ReceiveStep(parent, slateId, amount, height) => ReceiveNoTimeLock(st, parent, slateId, amount, height);
    case CancelStep(e) => CancelNoTimeLock(st, st.logs[e]);
    case CoinbaseStep(key, value, height) => CoinbaseNoTimeLock(st, key, value, height);
    case _ =>
  }

  lemma {:induction false} RunNoTimeLock(run: Run, n: nat)
    requires run.Valid() && n < |run.states| && forall i :: 0 <= i < n ==> !run.steps[i].RestoreStep?
    ensures NoTimeLock(run.states[n].outputs)
  {
    if n == 0 {
    } else {
      RunNoTimeLock(run, n - 1);
      hide Next, NoTimeLock;
      StepNoTimeLock(run.states[n - 1], run.histories[n - 1], run.steps[n - 1], run.states[n], run.histories[n]);
    }
  }

  /** In every state of every run without a restore, the amount the summary calls
      spendable is what coin selection may spend, for every account, height and number
      of confirmations of at least one. */
  lemma RunSpendable(run: Run, n: nat, outs: seq<OutputData>, q: Query)
    requires run.Valid() && n < |run.states| && forall i :: 0 <= i < n ==> !run.steps[i].RestoreStep?
    requires Enumerates(outs, run.states[n].outputs) && q.minimumConfirmations >= 1
    ensures InfoOf(run.states[n].outputs, q).amountCurrentlySpendable
      == Total(Eligible(outs, q.parent, q.height, q.minimumConfirmations))
  {
    RunNoTimeLock(run, n);
    var m := run.states[n].outputs;
    assert forall k :: k in m && !m[k].isCoinbase ==> NotTimeLocked(m[k]);
    hide NoTimeLock, InfoOf, Eligible, Enumerates, Run.Valid;
    SpendableIsEligible(outs, m, q);
  }

  // ----- after a cancel

  /** Once a send of unspent coins is cancelled, the summary and the value that may be
      spent are what they were before it was locked, for every query. */
  lemma CancelRestoresSummary(st: State, sent: History, ctx: Context, slateId: nat, height: nat, fee: nat, q: Query,
      outs: seq<OutputData>, outs': seq<OutputData>)
    requires Inv(st, sent) && Lockable(st, ctx) && CoinKeys(ctx.inputIds) <= st.outputs.Keys
    requires forall k :: k in CoinKeys(ctx.inputIds) ==> st.outputs[k].status == Unspent
    ensures SentKey(st, ctx) in Lock(st, ctx, slateId, height, fee).logs
    ensures var locked := Lock(st, ctx, slateId, height, fee);
      var cancelled := Cancel(locked, locked.logs[SentKey(st, ctx)]);
      && InfoOf(cancelled.outputs, q) == InfoOf(st.outputs, q)
      && (Enumerates(outs, st.outputs) && Enumerates(outs', cancelled.outputs) ==>
            Total(Eligible(outs', q.parent, q.height, q.minimumConfirmations))
            == Total(Eligible(outs, q.parent, q.height, q.minimumConfirmations)))
  {
    LockThenCancel(st, sent, ctx, slateId, height, fee);
    hide *;
    var locked := Lock(st, ctx, slateId, height, fee);
    var m' := Cancel(locked, locked.logs[SentKey(st, ctx)]).outputs;
    LogDoesNotMatter(st.outputs, m', q);
    if Enumerates(outs, st.outputs) && Enumerates(outs', m') {
      SameEligibleTotal(st.outputs, m', q, outs, outs');
    }
  }

  lemma SameEligibleTotal(m: map<OutputKey, OutputData>, m': map<OutputKey, OutputData>, q: Query,
      outs: seq<OutputData>, outs': seq<OutputData>)
    requires SameButLog(m, m') && Enumerates(outs, m) && Enumerates(outs', m')
    ensures Total(Eligible(outs', q.parent, q.height, q.minimumConfirmations))
      == Total(Eligible(outs, q.parent, q.height, q.minimumConfirmations))
  {
    hide Eligible, Total, SumOf, SumSeq;
    EligibleTotal(outs, q);
    EligibleTotal(outs', q);
    SumListed(outs, KeysOf(outs), m, q.EligibleValue());
    SumListed(outs', KeysOf(outs'), m', q.EligibleValue());
    SameEligibility(m, m', q);
    SumCongruence(m', m, q.EligibleValue(), q.EligibleValue());
  }
}
