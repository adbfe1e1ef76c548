/** A whole transaction between two wallets: `init_send_tx` of the owner's API
    (src/wallet/api/owner.rs:361-440) with a recipient that answers at once, and the same
    when other things happen to the wallet between the steps. */
module Owner {
  import opened Wrappers
  import opened Outputs
  import opened Contexts
  import opened Funding
  import opened Ledger
  import opened LedgerInvariant
  import LedgerSend
  import ChainScan
  import Restore
  import RestoreAccounts
  import opened LedgerRuns
  import opened Wallet
  import opened Curve
  import opened Slates
  import opened SlateRuns
  import opened TxProofs
  import opened Payments
  import opened Transactions

  // ----- when a transaction completes

  /** The final transaction of two parties whose coins are joined in `w`. */
  ghost function Final(e: Challenge, w: SlateData, sender: Party, receiver: Party): Transaction {
    assert Within([1, 0], 2) by { BothSign(); }
    var signed := SignAll(e, w, [sender, receiver], [1, 0]);
    if signed.Returns? && signed.value.FinalSignature(e).Returns? && |signed.value.tx.kernels| == 1 then
      signed.value.FinalTx(signed.value.FinalSignature(e).value)
    else w.tx
  }

  /** The coins of both can be joined in the slate of the send, leaving both with keys, and
      nonces and keys have sums. */
  ghost predicate Joins(secrets: Secrets, st: State, a: SendArgs, s: Selection, receiver: Party)
    requires !SplitAborts(Change(s), a.changeOutputs)
  {
    var joined := Joined(NewSlate(a, s), [Sender(secrets, st, a, s), receiver]);
    joined.Ok? && joined.value.HasSums()
  }

  /** Splitting the change loses nothing, and the final transaction is valid. */
  ghost predicate Completes(e: Challenge, secrets: Secrets, st: State, a: SendArgs, s: Selection, receiver: Party, valid: Transaction -> bool)
    requires !SplitAborts(Change(s), a.changeOutputs) && Joins(secrets, st, a, s, receiver)
  {
    var sender := Sender(secrets, st, a, s);
    && SplitsEvenly(Change(s), a.changeOutputs)
    && valid(Final(e, Joined(NewSlate(a, s), [sender, receiver]).value, sender, receiver))
  }

  /** The slate after the recipient's answer. */
  function Answer(e: Challenge, v: SlateData, receiver: Party): Outcome<SlateData, SlateError> {
    Contributes(e, v, receiver, 1, false)
  }

  ghost predicate Starts(secrets: Secrets, st: State, a: SendArgs, outs: seq<OutputData>, s: Selection, receiver: Party, blind: Scalar) {
    && CanSend(st, a, outs, s) && !SplitAborts(Change(s), a.changeOutputs) && a.changeOutputs < U64
    && receiver.elements == [OutputElement(a.amount, blind)]
    && Join(NewSlate(a, s), Sender(secrets, st, a, s), 0).Ok?
  }

  /** The recipient's answer succeeds exactly when the coins can be joined. */
  lemma AnswerJoins(e: Challenge, secrets: Secrets, st: State, a: SendArgs, outs: seq<OutputData>, s: Selection, receiver: Party, blind: Scalar)
    requires Starts(secrets, st, a, outs, s, receiver, blind)
    ensures var sent := Join(NewSlate(a, s), Sender(secrets, st, a, s), 0).value;
      Answer(e, sent, receiver).Returns? <==> Joins(secrets, st, a, s, receiver)
  {
    var v, sender := NewSlate(a, s), Sender(secrets, st, a, s);
    var sent := Join(v, sender, 0).value;
    JoinedTwo(v, sender, receiver);
    OneUnsigned(v, sender);
    UsualAnswer(e, sent, receiver);
    if Join(sent, receiver, 1).Ok? {
      var p := Payment(a.amount, a.changeOutputs, s, ChangeCoins(st, Amounts(a, s)), sender, receiver);
      var sorted := CoinSelection.SortByValue(CoinSelection.Eligible(outs, a.parent, a.height, a.minimumConfirmations));
      SendIsDecided(st, a, outs, s, secrets, receiver, blind, p);
      hide CanSend, Join, Joined, Payment.Decided, SlateData.FeesPass, SlateData.HasSums, SenderElements, Contributes;
      PaymentFeePasses(p, sorted, a.maxOutputs, a.selectAll, secrets.derive, blind, Join(sent, receiver, 1).value);
    }
    hide CanSend, Join, Joined, SlateData.FeesPass, SlateData.HasSums, SenderElements, Contributes;
  }

  lemma OneUnsigned(v: SlateData, p: Party)
    requires v.participantData == []
    ensures Join(v, p, 0).Ok? ==>
      |Join(v, p, 0).value.participantData| == 1 && Join(v, p, 0).value.participantData[0].partSig.None?
  {
    hide InputsOf, OutputsOf, BlindOf, Reduce;
  }

  /** And then what the sender saved completes the slate exactly when splitting the change
      loses nothing and the transaction is valid. */
  lemma AnswerCompletes(e: Challenge, secrets: Secrets, st: State, a: SendArgs, outs: seq<OutputData>, s: Selection,
      receiver: Party, blind: Scalar, valid: Transaction -> bool)
    requires Starts(secrets, st, a, outs, s, receiver, blind) && Joins(secrets, st, a, s, receiver)
    ensures var sent, own := Join(NewSlate(a, s), Sender(secrets, st, a, s), 0).value, SenderOwn(secrets, st, a, s);
      var answer := Answer(e, sent, receiver);
      && answer.Returns? && answer.value.fee == s.fee
      && (Completed(e, answer.value, own.secKey, own.secNonce, 0, valid).Returns? <==>
            Completes(e, secrets, st, a, s, receiver, valid))
  {
    var v, sender := NewSlate(a, s), Sender(secrets, st, a, s);
    var w := Joined(v, [sender, receiver]).value;
    AnswerJoins(e, secrets, st, a, outs, s, receiver, blind);
    SendGoesThrough(e, st, a, outs, s, secrets, receiver, blind, w, valid);
    ExchangeCompletes(e, v, sender, receiver, valid);
    AnswerKeepsFee(e, v, sender, receiver);
    RemainingIsChange(st, a, outs, s, sender, receiver);
    hide CanSend, Join, Joined, Exchange, Completed, SignAll, SenderElements, SlateData.HasSums, SlateData.FinalSignature, SlateData.FinalTx;
    hide Contributes, SplitsEvenly, KeyLeft;
  }

  lemma RemainingIsChange(st: State, a: SendArgs, outs: seq<OutputData>, s: Selection, sender: Party, receiver: Party)
    requires CanSend(st, a, outs, s) && !SplitAborts(Change(s), a.changeOutputs)
    ensures Payment(a.amount, a.changeOutputs, s, ChangeCoins(st, Amounts(a, s)), sender, receiver).Remaining() == Change(s)
  {
    ChosenIsFunded(st, a, outs, s);
    hide CanSend;
  }

  lemma ExchangeCompletes(e: Challenge, v: SlateData, sender: Party, receiver: Party, valid: Transaction -> bool)
    requires Join(v, sender, 0).Ok? && Answer(e, Join(v, sender, 0).value, receiver).Returns?
    ensures Exchange(e, v, sender, receiver, valid)
      == Completed(e, Answer(e, Join(v, sender, 0).value, receiver).value, KeyLeft(v, sender, 0), sender.nonce, 0, valid)
  {
    hide Join, Completed, KeyLeft, SlateData.Round2;
    assert Contributes(e, v, sender, 0, true) == Returns(Join(v, sender, 0).value);
  }

  lemma AnswerKeepsFee(e: Challenge, v: SlateData, sender: Party, receiver: Party)
    requires Join(v, sender, 0).Ok? && Answer(e, Join(v, sender, 0).value, receiver).Returns?
    ensures Answer(e, Join(v, sender, 0).value, receiver).value.fee == v.fee
  {
    JoinKeeps(v, sender, 0);
    JoinKeeps(Join(v, sender, 0).value, receiver, 1);
    hide Join, KeyLeft, SlateData.FeesPass, SlateData.VerifyPartSigs, SlateData.HasSums;
  }

  // ----- with other steps in between

  /** The step neither initiates the slate again nor finalizes it. */
  predicate LeavesContext(step: Step, slateId: nat) {
    !(step.InitStep? && step.args.slateId == slateId) && !(step.FinalizeStep? && step.slateId == slateId)
  }

  lemma {:induction false} ApplyKeepsContexts(st: State, order: seq<OutputCommit>, tracked: map<OutputCommit, OutputKey>,
      api: NodeAnswer, parent: Identifier)
    ensures ApplyInOrder(st, order, tracked, api, parent).contexts == st.contexts
  {
    if order == [] {
    } else {
      ApplyKeepsContexts(st, order[..|order| - 1], tracked, api, parent);
    }
  }

  lemma StepKeepsContext(st: State, sent: History, step: Step, st': State, sent': History, slateId: nat)
    requires Next(st, sent, step, st', sent') && LeavesContext(step, slateId) && (slateId, 0) in st.contexts
    ensures (slateId, 0) in st'.contexts && st'.contexts[(slateId, 0)] == st.contexts[(slateId, 0)]
  {
    hide CanSend, LedgerSend.LockSafe, LedgerSend.AfterSend, Lock, Receive, Cancel, Coinbase, Apply, Clean, Restore.Restored;
    hide Maps, Orders, ChangeCoins, ContextOk, AfterChildren, SendContext, Cancellable, AlreadyReceived, MayReplace, ChainScan.Ascending;
    match step
    case InitStep(a, outs, s, own) =>
      CanSendSplits(st, a, outs, s);
      InitiatedParts(st, a, s, own);
      LedgerSend.SameButChildren(st, |Amounts(a, s)|);
    case LockStep(slateId', height, fee) => LedgerSend.LockLogs(st, st.contexts[(slateId', 0)], slateId', height, fee);
    case ReceiveStep(parent, slateId', amount, height) => ReceiveKeepsContexts(st, parent, slateId', amount, height);
    case CancelStep(e) => CancelKeepsContexts(st, st.logs[e]);
    case RefreshStep(parent, updateAll, tracked, order, api, height) =>
      RefreshKeepsContexts(st, order, tracked, api, height, parent);
    case CoinbaseStep(key, value, height) => CoinbaseKeepsContexts(st, key, value, height);
    case AbandonStep(keys) => LedgerSend.SameButChildren(st, keys);
    case RestoreStep(seen) => RestoreAccounts.RestoredContexts(st, seen);
    case _ =>
  }

  lemma ReceiveKeepsContexts(st: State, parent: Identifier, slateId: nat, amount: nat, height: nat)
    ensures Receive(st, parent, slateId, amount, height).contexts == st.contexts
  {
  }

  lemma CancelKeepsContexts(st: State, t: TxLogEntry)
    ensures Cancel(st, t).contexts == st.contexts
  {
    hide CancelOutputs;
  }

  lemma CoinbaseKeepsContexts(st: State, key: Option<Identifier>, value: nat, height: nat)
    ensures Coinbase(st, key, value, height).contexts == st.contexts
  {
    hide CoinbaseOutput, Identifier.Child;
  }

  lemma RefreshKeepsContexts(st: State, order: seq<OutputCommit>, tracked: map<OutputCommit, OutputKey>, api: NodeAnswer,
      height: nat, parent: Identifier)
    ensures Clean(Apply(st, order, tracked, api, height, parent), height).contexts == st.contexts
  {
    ApplyKeepsContexts(st, order, tracked, api, parent);
    hide ApplyInOrder, StaleKeys;
  }

  /** The context of a slate stays while the slate is neither initiated again nor
      finalized. */
  lemma {:induction false} ContextStays(run: Run, i: nat, j: nat, slateId: nat)
    requires run.Valid() && i <= j < |run.states| && (slateId, 0) in run.states[i].contexts
    requires forall k :: i <= k < j ==> LeavesContext(run.steps[k], slateId)
    ensures (slateId, 0) in run.states[j].contexts && run.states[j].contexts[(slateId, 0)] == run.states[i].contexts[(slateId, 0)]
    decreases j - i
  {
    hide Next, LeavesContext;
    if i == j {
    } else {
      ContextStays(run, i, j - 1, slateId);
      StepKeepsContext(run.states[j - 1], run.histories[j - 1], run.steps[j - 1], run.states[j], run.histories[j], slateId);
    }
  }

  /** In every run, a send that was initiated at one time and answered can be completed at
      any later time, exactly when splitting its change loses nothing and the transaction
      is valid, whatever happened in between to the rest of the wallet. */
  lemma LateCompletion(run: Run, i: nat, j: nat, e: Challenge, secrets: Secrets, a: SendArgs, outs: seq<OutputData>, s: Selection,
      receiver: Party, blind: Scalar, valid: Transaction -> bool)
    requires run.Valid() && i < j < |run.states|
    requires Starts(secrets, run.states[i], a, outs, s, receiver, blind) && Joins(secrets, run.states[i], a, s, receiver)
    requires run.steps[i] == InitStep(a, outs, s, SenderOwn(secrets, run.states[i], a, s))
    requires forall k :: i < k < j ==> LeavesContext(run.steps[k], a.slateId)
    ensures (a.slateId, 0) in run.states[j].contexts
    ensures var st := run.states[i];
      var answer := Answer(e, Join(NewSlate(a, s), Sender(secrets, st, a, s), 0).value, receiver);
      var own := run.states[j].contexts[(a.slateId, 0)].own;
      && answer.Returns?
      && (Completed(e, answer.value, own.secKey, own.secNonce, 0, valid).Returns? <==>
            Completes(e, secrets, st, a, s, receiver, valid))
  {
    var st, own := run.states[i], SenderOwn(secrets, run.states[i], a, s);
    assert Next(st, run.histories[i], run.steps[i], run.states[i + 1], run.histories[i + 1]);
    InitiatedParts(st, a, s, own);
    hide Run.Valid, Next, LeavesContext, Initiated, Starts, Joins, SenderOwn, Completed, Completes, Answer, ChangeCoins, ContextInputs;
    ContextStays(run, i + 1, j, a.slateId);
    AnswerCompletes(e, secrets, st, a, outs, s, receiver, blind, valid);
  }

  // ----- the transaction in one go

  /** The sender's store once its send was initiated and locked. */
  ghost predicate LockedAfter(st: State, sent: History, a: SendArgs, outs: seq<OutputData>, s: Selection, own: SlateContext,
      st': State, sent': History)
  {
    && !SplitAborts(Change(s), a.changeOutputs)
    && Next(st, sent, InitStep(a, outs, s, own), Initiated(st, a, s, own), sent)
    && Next(Initiated(st, a, s, own), sent, LockStep(a.slateId, a.height, s.fee), st', sent')
  }

  /** A send just initiated may be locked; it is logged then, and its context stays. */
  lemma LocksAtOnce(mid: State, sent: History, a: SendArgs, outs: seq<OutputData>, s: Selection, own: SlateContext)
    requires Inv(mid, sent) && CanSend(mid, a, outs, s)
    ensures !SplitAborts(Change(s), a.changeOutputs)
    ensures var start := Initiated(mid, a, s, own);
      && (a.slateId, 0) in start.contexts && start.contexts[(a.slateId, 0)].own == own
      && var ctx := start.contexts[(a.slateId, 0)];
         CoinKeys(ctx.inputIds) <= start.outputs.Keys && LedgerSend.LockSafe(start, ctx)
         && var st', sent' := Lock(start, ctx, a.slateId, a.height, s.fee), LedgerSend.AfterSend(sent, start, ctx);
            LockedAfter(mid, sent, a, outs, s, own, st', sent')
            && st'.contexts == start.contexts && SentFor(st', a.slateId)
  {
    CanSendSplits(mid, a, outs, s);
    var start, ctx := Initiated(mid, a, s, own), ContextOf(mid, a, s, own);
    hide Inv, CanSend, LedgerSend.LockSafe, LedgerSend.Lockable, Lock, LedgerSend.AfterSend, Next, ContextInputs, ChangeCoins, AfterChildren;
    InitiatedParts(mid, a, s, own);
    assert start.contexts[(a.slateId, 0)] == ctx && ctx.own == own;
    hide Initiated, ContextOf, CoinKeys;
    InitIsStep(mid, sent, a, outs, s, own);
    SendMayLock(mid, sent, a, outs, s, own);
    SendKeeps(mid, sent, a, outs, s, own, s.fee);
    LockIsLogged(start, ctx, a.slateId, a.height, s.fee);
  }

  lemma LockIsLogged(st: State, ctx: Context, slateId: nat, height: nat, fee: nat)
    requires CoinKeys(ctx.inputIds) <= st.outputs.Keys
    ensures Lock(st, ctx, slateId, height, fee).contexts == st.contexts
    ensures SentFor(Lock(st, ctx, slateId, height, fee), slateId)
  {
    LedgerSend.LockLogs(st, ctx, slateId, height, fee);
    hide Lock, CoinKeys, Debited, CoinSum;
    assert LedgerSend.SentKey(st, ctx) in Lock(st, ctx, slateId, height, fee).logs;
  }

  /** Initiate, let the recipient answer, lock, and finalize. The transaction is made exactly
      when coins can be chosen, the recipient has not received the slate before, the coins
      of both can be joined and, if it is finalized at once, splitting the change loses
      nothing and the transaction is valid. Without an answer nothing is locked; a
      transaction that cannot be finalized leaves the coins locked. */
  method SendTx(b: Backend, other: Backend, a: SendArgs, api: NodeAnswer, tip: nat, secrets: Secrets, e: Challenge,
      account: Identifier, tip': nat, secrets': Secrets, finalize: bool, valid: Transaction -> bool)
    returns (r: Outcome<(), TxError>, slate: Slate, ghost refresh: Step, ghost mid: State, ghost outs: seq<OutputData>,
             ghost chosen: Option<Selection>, ghost locked: State)
    requires b != other && b.Valid() && other.Valid() && a.changeOutputs < U64
    modifies b, other
    ensures b.Valid() && other.Valid() && other.sent == old(other.sent)
    ensures Refreshed(old(b.View()), old(b.sent), a.parent, refresh, mid)
    ensures chosen.None? ==>
      && !r.Returns? && b.View() == mid && b.sent == old(b.sent) && other.View() == old(other.View())
      && forall s :: !CanSend(mid, a, outs, s)
    ensures chosen.Some? ==> CanSend(mid, a, outs, chosen.value) && !SplitAborts(Change(chosen.value), a.changeOutputs)
    ensures chosen.Some? ==>
      var s, receiver := chosen.value, Receiver(secrets', old(other.View()), a.amount);
      r.Returns? <==>
        && !AlreadyReceived(old(other.View()), account, a.slateId) && Joins(secrets, mid, a, s, receiver)
        && (finalize ==> Completes(e, secrets, mid, a, s, receiver, valid))
    ensures chosen.Some? ==>
      var s, receiver := chosen.value, Receiver(secrets', old(other.View()), a.amount);
      if Join(NewSlate(a, s), Sender(secrets, mid, a, s), 0).Err? then
        && Next(mid, b.sent, AbandonStep(|Amounts(a, s)|), b.View(), b.sent) && b.sent == old(b.sent)
        && other.View() == old(other.View())
      else
        var own := SenderOwn(secrets, mid, a, s);
        && other.View() == (if AlreadyReceived(old(other.View()), account, a.slateId) then old(other.View())
                            else Receive(old(other.View()), account, a.slateId, a.amount, tip'))
        && if AlreadyReceived(old(other.View()), account, a.slateId) || !Joins(secrets, mid, a, s, receiver) then
             b.View() == Initiated(mid, a, s, own) && b.sent == old(b.sent)
           else
             LockedAfter(mid, old(b.sent), a, outs, s, own, locked, b.sent)
             && b.View() == if finalize && r.Returns? then Finalize(locked, a.slateId) else locked
  {
    hide Inv, CanSend, Join, Joins, Completes, LockedAfter, Initiated, Lock, LedgerSend.LockSafe, LedgerSend.AfterSend, Next, SenderOwn;
    hide AlreadyReceived, Receive, Refreshed, Contributes, Completed, SenderElements, ChangeCoins, AfterChildren, SplitAborts, SentFor, Starts;
    ghost var theirs := other.View();
    var context;
    context, slate, refresh, mid, outs, chosen := InitSendTx(b, a, api, tip, secrets, e);
    locked := b.View();
    match context
    case Panics => return Panics, slate, refresh, mid, outs, chosen, locked;
    case Fails(error) =>
      Refuses(e, secrets, mid, a, outs, chosen, Receiver(secrets', theirs, a.amount));
      return Fails(error), slate, refresh, mid, outs, chosen, locked;
    case Returns(own) =>
      ghost var s, receiver := chosen.value, Receiver(secrets', theirs, a.amount);
      LocksAtOnce(mid, b.sent, a, outs, s, own);
      JoinKeeps(NewSlate(a, s), Sender(secrets, mid, a, s), 0);
      assert Starts(secrets, mid, a, outs, s, receiver, secrets'.derive(theirs.NextKey(), a.amount)) by { StartsFrom(secrets, mid, a, outs, s, receiver, secrets'.derive(theirs.NextKey(), a.amount)); }
      AnswerJoins(e, secrets, mid, a, outs, s, receiver, secrets'.derive(theirs.NextKey(), a.amount));
      var answered := ReceiveTx(other, slate, account, a.slateId, tip', secrets', e);
      match answered
      case Panics => return Panics, slate, refresh, mid, outs, chosen, locked;
      case Fails(error) => return Fails(error), slate, refresh, mid, outs, chosen, locked;
      case Returns(_) =>
        AnswerCompletes(e, secrets, mid, a, outs, s, receiver, secrets'.derive(theirs.NextKey(), a.amount), valid);
        var done := b.TxLockOutputs(a.slateId, a.height, slate.fee);
        locked := b.View();
        if !finalize {
          return Returns(()), slate, refresh, mid, outs, chosen, locked;
        }
        r := FinalizeTx(b, slate, a.slateId, null, e, valid);
  }

  lemma StartsFrom(secrets: Secrets, st: State, a: SendArgs, outs: seq<OutputData>, s: Selection, receiver: Party, blind: Scalar)
    requires CanSend(st, a, outs, s) && a.changeOutputs < U64 && receiver.elements == [OutputElement(a.amount, blind)]
    ensures !SplitAborts(Change(s), a.changeOutputs)
    ensures Join(NewSlate(a, s), Sender(secrets, st, a, s), 0).Ok? ==> Starts(secrets, st, a, outs, s, receiver, blind)
  {
    CanSendSplits(st, a, outs, s);
    hide CanSend, Join;
  }

  lemma Refuses(e: Challenge, secrets: Secrets, st: State, a: SendArgs, outs: seq<OutputData>, chosen: Option<Selection>, receiver: Party)
    requires chosen.Some? ==> CanSend(st, a, outs, chosen.value)
    ensures chosen.Some? ==> !SplitAborts(Change(chosen.value), a.changeOutputs)
    ensures chosen.Some? && Join(NewSlate(a, chosen.value), Sender(secrets, st, a, chosen.value), 0).Err? ==>
      !Joins(secrets, st, a, chosen.value, receiver)
  {
    if chosen.Some? {
      CanSendSplits(st, a, outs, chosen.value);
      JoinedTwo(NewSlate(a, chosen.value), Sender(secrets, st, a, chosen.value), receiver);
    }
    hide CanSend, Join, Joined;
  }
}
