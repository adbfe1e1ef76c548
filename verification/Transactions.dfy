/** Transactions on both sides, the wallet's store and the slate (src/internal/tx.rs). */
module Transactions {
  import opened Wrappers
  import opened Outputs
  import opened Contexts
  import opened Funding
  import opened Summary
  import opened Ledger
  import opened LedgerInvariant
  import opened LedgerRuns
  import opened LedgerUndo
  import opened Wallet
  import opened Curve
  import opened Slates
  import opened SlateRuns
  import opened TxProofs
  import opened Payments

  datatype TxError = WalletFailed(error: WalletError) | SlateFailed(slateError: SlateError)

  /** What a party's keychain and its randomness give. */
  datatype Secrets = Secrets(derive: Derivation, nonce: SecretKey, offset: SecretKey)

  // ----- sending

  /** The slate a sender starts from, with the fee it settled on. */
  function NewSlate(a: SendArgs, s: Selection): SlateData {
    SlateData(a.amount, s.fee, 0, EMPTY, [])
  }

  ghost function Sender(secrets: Secrets, st: State, a: SendArgs, s: Selection): Party
    requires !SplitAborts(Change(s), a.changeOutputs)
  {
    Party(SenderElements(secrets.derive, s.coins, ChangeCoins(st, Amounts(a, s))), secrets.nonce, secrets.offset)
  }

  /** What the sender keeps: the key its round 1 leaves it with, and what it built in. */
  ghost function SenderOwn(secrets: Secrets, st: State, a: SendArgs, s: Selection): SlateContext
    requires !SplitAborts(Change(s), a.changeOutputs) && Join(NewSlate(a, s), Sender(secrets, st, a, s), 0).Ok?
  {
    var v, p := NewSlate(a, s), Sender(secrets, st, a, s);
    SlateContext(KeyLeft(v, p, 0), p.nonce, a.amount, s.fee, Join(v, p, 0).value.tx.inputs, Join(v, p, 0).value.tx.outputs)
  }

  /** A refresh as the operations of this module ask for it. */
  ghost predicate Refreshed(st: State, sent: History, parent: Identifier, step: Step, st': State) {
    step.RefreshStep? && step.parent == parent && !step.updateAll && Next(st, sent, step, st', sent)
  }

  /** What choosing coins and fee in a store comes to. Without any coin allowed the windows
      of coins cannot be formed. */
  ghost function Chosen(a: SendArgs, outs: seq<OutputData>): Outcome<Selection, NotEnoughFunds> {
    var eligible := CoinSelection.Eligible(outs, a.parent, a.height, a.minimumConfirmations);
    if a.maxOutputs == 0 && eligible != [] then Panics
    else
      match Funded(CoinSelection.SortByValue(eligible), a.amount, a.maxOutputs, a.changeOutputs, a.selectAll)
      case Ok(s) => Returns(s)
      case Err(error) => Fails(error)
  }

  /** Total and fee of a send, estimated after a refresh: those of the send that is then
      possible, if its change can be split. */
  method EstimateSendTx(b: Backend, a: SendArgs, api: NodeAnswer, tip: nat)
    returns (r: Outcome<(nat, nat), WalletError>, ghost refresh: Step, ghost outs: seq<OutputData>)
    requires b.Valid()
    modifies b
    ensures b.Valid() && b.sent == old(b.sent)
    ensures Refreshed(old(b.View()), b.sent, a.parent, refresh, b.View()) && Enumerates(outs, b.outputs)
    ensures match Chosen(a, outs)
      case Returns(s) =>
        r == Returns((s.total, s.fee)) && (CanSend(b.View(), a, outs, s) <==> !SplitAborts(Change(s), a.changeOutputs))
      case Fails(error) => r == Fails(NoFunds(error)) && forall s :: !CanSend(b.View(), a, outs, s)
      case Panics => r == Panics && forall s :: !CanSend(b.View(), a, outs, s)
  {
    hide Inv, CanSend, Next, Enumerates, Funded, CoinSelection.SortByValue, CoinSelection.Eligible;
    ghost var tracked, order;
    tracked, order := b.RefreshOutputs(a.parent, false, api, tip);
    refresh := RefreshStep(a.parent, false, tracked, order, api, tip);
    RefreshKeepsSent(old(b.View()), old(b.sent), refresh, b.View(), b.sent);
    var chosen;
    chosen, outs := b.ChooseCoins(a);
    ChosenIsSend(b.View(), a, outs);
    match chosen
    case Returns(s) => return Returns((s.total, s.fee)), refresh, outs;
    case Fails(error) => return Fails(error), refresh, outs;
    case Panics => return Panics, refresh, outs;
  }

  lemma ChosenIsSend(st: State, a: SendArgs, outs: seq<OutputData>)
    requires Enumerates(outs, st.outputs)
    ensures forall s :: CanSend(st, a, outs, s) <==> Chosen(a, outs) == Returns(s) && !SplitAborts(Change(s), a.changeOutputs)
  {
    hide Funded, CoinSelection.SortByValue, CoinSelection.Eligible, Enumerates, SplitAborts;
  }

  lemma RefreshKeepsSent(st: State, sent: History, refresh: Step, st': State, sent': History)
    requires refresh.RefreshStep? && Next(st, sent, refresh, st', sent')
    ensures sent' == sent
  {
  }

  /** `init_send_tx`: refresh, choose coins, hand out the change keys, make the sender's
      part of the slate, save its context. A key that the slate refuses leaves the change
      keys handed out and nothing saved. */
  method InitSendTx(b: Backend, a: SendArgs, api: NodeAnswer, tip: nat, secrets: Secrets, e: Challenge)
    returns (r: Outcome<SlateContext, TxError>, slate: Slate, ghost refresh: Step, ghost mid: State,
             ghost outs: seq<OutputData>, ghost chosen: Option<Selection>)
    requires b.Valid()
    modifies b
    ensures b.Valid() && b.sent == old(b.sent) && fresh(slate)
    ensures Refreshed(old(b.View()), b.sent, a.parent, refresh, mid) && Inv(mid, b.sent)
    ensures chosen.None? ==> !r.Returns? && b.View() == mid && forall s :: !CanSend(mid, a, outs, s)
    ensures chosen.Some? ==> CanSend(mid, a, outs, chosen.value)
    ensures chosen.Some? ==>
      var s := chosen.value;
      var v, p := NewSlate(a, s), Sender(secrets, mid, a, s);
      match Join(v, p, 0)
      case Ok(w) =>
        var own := SenderOwn(secrets, mid, a, s);
        && r == Returns(own) && slate.View() == w && b.View() == Initiated(mid, a, s, own)
        && Next(mid, b.sent, InitStep(a, outs, s, own), b.View(), b.sent)
      case Err(error) =>
        r == Fails(SlateFailed(error)) && Next(mid, b.sent, AbandonStep(|Amounts(a, s)|), b.View(), b.sent)
  {
    hide Inv, CanSend, Next, Enumerates, AfterChildren, Join, KeyLeft, InitSend, SenderElements, ChangeCoins;
    slate := new Slate.Blank();
    slate.amount := a.amount;
    ghost var tracked, order;
    tracked, order := b.RefreshOutputs(a.parent, false, api, tip);
    refresh, mid := RefreshStep(a.parent, false, tracked, order, api, tip), b.View();
    RefreshKeepsSent(old(b.View()), old(b.sent), refresh, mid, b.sent);
    var built;
    built, outs := b.BuildSendTx(a);
    match built
    case Panics => return Panics, slate, refresh, mid, outs, None;
    case Fails(error) => return Fails(WalletFailed(error)), slate, refresh, mid, outs, None;
    case Returns((s, inputs, change)) =>
      chosen := Some(s);
      CanSendSplits(mid, a, outs, s);
      var sender := Party(SenderElements(secrets.derive, s.coins, change), secrets.nonce, secrets.offset);
      var added := AddInputsToSlate(slate, s.fee, sender, 0, true, e);
      InitiatorJoins(e, NewSlate(a, s), sender);
      match added
      case Returns(own) =>
        MaySaveContext(mid, b.sent, a, outs, s, own);
        b.SavePrivateContext(a.slateId, Context(a.parent, inputs, change, own));
        return Returns(own), slate, refresh, mid, outs, chosen;
      case Fails(error) =>
        AbandonIsStep(mid, b.sent, |Amounts(a, s)|);
        return Fails(SlateFailed(error)), slate, refresh, mid, outs, chosen;
      case Panics => return Panics, slate, refresh, mid, outs, chosen;
  }

  /** The context of a send may be saved, which is the step that initiates it. */
  lemma MaySaveContext(st: State, sent: History, a: SendArgs, outs: seq<OutputData>, s: Selection, own: SlateContext)
    requires Inv(st, sent) && CanSend(st, a, outs, s)
    ensures !SplitAborts(Change(s), a.changeOutputs)
    ensures var mid := AfterChildren(st, |Amounts(a, s)|);
      var st' := mid.(contexts := mid.contexts[(a.slateId, 0) := Context(a.parent, ContextInputs(s.coins), ChangeCoins(st, Amounts(a, s)), own)]);
      st' == Initiated(st, a, s, own) && Inv(st', sent) && Next(st, sent, InitStep(a, outs, s, own), st', sent)
  {
    InitIsStep(st, sent, a, outs, s, own);
    InitiatedParts(st, a, s, own);
    InitKeeps(st, sent, a, outs, s, own);
    hide Inv, Next, Initiated, CanSend, AfterChildren, ContextInputs, ChangeCoins, SpentStays, CountersGrow;
  }

  lemma InitIsStep(st: State, sent: History, a: SendArgs, outs: seq<OutputData>, s: Selection, own: SlateContext)
    requires CanSend(st, a, outs, s)
    ensures !SplitAborts(Change(s), a.changeOutputs)
    ensures Next(st, sent, InitStep(a, outs, s, own), Initiated(st, a, s, own), sent)
  {
    hide Initiated;
  }

  lemma JoinKeeps(v: SlateData, p: Party, id: nat)
    ensures Join(v, p, id).Ok? ==> Join(v, p, id).value.fee == v.fee && Join(v, p, id).value.amount == v.amount
  {
    hide InputsOf, OutputsOf, BlindOf, Reduce;
  }

  lemma InitiatorJoins(e: Challenge, v: SlateData, p: Party)
    ensures Contributes(e, v, p, 0, true) == match Join(v, p, 0) case Ok(w) => Returns(w) case Err(error) => Fails(error)
    ensures Join(v, p, 0).Ok? ==>
      var w := Join(v, p, 0).value; w.tx.inputs == v.AddElements(p.elements).tx.inputs && w.tx.outputs == v.AddElements(p.elements).tx.outputs
  {
    hide InputsOf, OutputsOf, BlindOf;
  }

  lemma InitiatedParts(st: State, a: SendArgs, s: Selection, own: SlateContext)
    requires !SplitAborts(Change(s), a.changeOutputs)
    ensures var mid := AfterChildren(st, |Amounts(a, s)|);
      Initiated(st, a, s, own) == mid.(contexts := mid.contexts[(a.slateId, 0) := ContextOf(st, a, s, own)])
  {
    hide ChangeAmounts, ChangeCoins, ContextInputs;
  }

  lemma AbandonIsStep(st: State, sent: History, keys: nat)
    ensures Next(st, sent, AbandonStep(keys), AfterChildren(st, keys), sent)
  {
  }

  /** A send that locks at once: after the refresh it is initiated and locked, or, if the
      slate refuses its key, given up. */
  method SendAndLock(b: Backend, a: SendArgs, api: NodeAnswer, tip: nat, secrets: Secrets, e: Challenge)
    returns (r: Outcome<SlateContext, TxError>, slate: Slate, ghost refresh: Step, ghost mid: State,
             ghost outs: seq<OutputData>, ghost chosen: Option<Selection>)
    requires b.Valid()
    modifies b
    ensures b.Valid() && fresh(slate)
    ensures Refreshed(old(b.View()), old(b.sent), a.parent, refresh, mid)
    ensures chosen.None? ==> !r.Returns? && b.View() == mid && b.sent == old(b.sent) && forall s :: !CanSend(mid, a, outs, s)
    ensures chosen.Some? ==> CanSend(mid, a, outs, chosen.value)
    ensures chosen.Some? ==>
      var s := chosen.value;
      match Join(NewSlate(a, s), Sender(secrets, mid, a, s), 0)
      case Ok(w) =>
        var own := SenderOwn(secrets, mid, a, s);
        && r == Returns(own) && slate.View() == w
        && Next(mid, old(b.sent), InitStep(a, outs, s, own), Initiated(mid, a, s, own), old(b.sent))
        && Next(Initiated(mid, a, s, own), old(b.sent), LockStep(a.slateId, a.height, s.fee), b.View(), b.sent)
      case Err(error) =>
        && r == Fails(SlateFailed(error)) && b.sent == old(b.sent)
        && Next(mid, b.sent, AbandonStep(|Amounts(a, s)|), b.View(), b.sent)
  {
    hide Inv, Lock, LedgerSend.Lockable, LedgerSend.LockSafe, CanSend, Join, SenderOwn, InitSend, SenderElements, ChangeCoins, Refreshed, Next;
    r, slate, refresh, mid, outs, chosen := InitSendTx(b, a, api, tip, secrets, e);
    if r.Returns? {
      ghost var own := r.value;
      CanSendSplits(mid, a, outs, chosen.value);
      SendMayLock(mid, b.sent, a, outs, chosen.value, own);
      SendKeeps(mid, b.sent, a, outs, chosen.value, own, chosen.value.fee);
      InitiatedParts(mid, a, chosen.value, own);
      JoinKeeps(NewSlate(a, chosen.value), Sender(secrets, mid, a, chosen.value), 0);
      var locked := b.TxLockOutputs(a.slateId, a.height, slate.fee);
    }
  }

  /** A send of the wallet is a funded payment: answered by a recipient, it goes through
      exactly when splitting its change loses nothing and the result is valid. */
  lemma SendGoesThrough(e: Challenge, st: State, a: SendArgs, outs: seq<OutputData>, s: Selection, secrets: Secrets,
      receiver: Party, blind: Scalar, w: SlateData, valid: Transaction -> bool)
    requires CanSend(st, a, outs, s) && !SplitAborts(Change(s), a.changeOutputs) && a.changeOutputs < U64
    requires receiver.elements == [OutputElement(a.amount, blind)]
    requires Joined(NewSlate(a, s), [Sender(secrets, st, a, s), receiver]) == Ok(w) && w.HasSums()
    ensures var p := Payment(a.amount, a.changeOutputs, s, ChangeCoins(st, Amounts(a, s)), Sender(secrets, st, a, s), receiver);
      p.Remaining() >= 0 && GoesThrough(e, p, w, valid)
  {
    var p := Payment(a.amount, a.changeOutputs, s, ChangeCoins(st, Amounts(a, s)), Sender(secrets, st, a, s), receiver);
    var sorted := CoinSelection.SortByValue(CoinSelection.Eligible(outs, a.parent, a.height, a.minimumConfirmations));
    SendIsDecided(st, a, outs, s, secrets, receiver, blind, p);
    hide CanSend, Joined, GoesThrough, SenderElements, Payment.Decided, SlateData.HasSums, ChangeCoins;
    PaymentGoesThrough(e, p, sorted, a.maxOutputs, a.selectAll, secrets.derive, blind, w, valid);
  }

  lemma SendIsDecided(st: State, a: SendArgs, outs: seq<OutputData>, s: Selection, secrets: Secrets, receiver: Party, blind: Scalar, p: Payment)
    requires CanSend(st, a, outs, s) && !SplitAborts(Change(s), a.changeOutputs)
    requires receiver.elements == [OutputElement(a.amount, blind)]
    requires p == Payment(a.amount, a.changeOutputs, s, ChangeCoins(st, Amounts(a, s)), Sender(secrets, st, a, s), receiver)
    ensures var sorted := CoinSelection.SortByValue(CoinSelection.Eligible(outs, a.parent, a.height, a.minimumConfirmations));
      p.Decided(sorted, a.maxOutputs, a.selectAll, secrets.derive, blind)
  {
    var sorted := CoinSelection.SortByValue(CoinSelection.Eligible(outs, a.parent, a.height, a.minimumConfirmations));
    ChosenIsFunded(st, a, outs, s);
    hide CanSend, Funded, SenderElements, CoinSelection.SortByValue, CoinSelection.Eligible, ChangeAmounts, ChangeCoins, ContextInputs;
    ChangeIsReceived(st, Amounts(a, s));
    hide Receives, SplitAborts, Payment.Decided;
    assert p.Remaining() == Change(s);
    assert p.change == ChangeCoins(st, Amounts(a, s));
    assert Amounts(a, s) == ChangeAmounts(p.Remaining(), p.changeOutputs);
    assert p.sender.elements == SenderElements(secrets.derive, p.chosen.coins, p.change);
    DecidedBy(p, sorted, a, secrets.derive, blind);
  }

  lemma DecidedBy(p: Payment, sorted: seq<OutputData>, a: SendArgs, derive: Derivation, blind: Scalar)
    requires Funded(sorted, p.amount, a.maxOutputs, p.changeOutputs, a.selectAll) == Ok(p.chosen)
    requires p.Remaining() >= 0 && !SplitAborts(p.Remaining(), p.changeOutputs)
    requires Receives(p.change, ChangeAmounts(p.Remaining(), p.changeOutputs))
    requires p.sender.elements == SenderElements(derive, p.chosen.coins, p.change)
    requires p.receiver.elements == [OutputElement(p.amount, blind)]
    ensures p.Decided(sorted, a.maxOutputs, a.selectAll, derive, blind)
  {
    hide Funded, SplitAborts, Receives, ChangeAmounts, SenderElements;
  }

  lemma ChosenIsFunded(st: State, a: SendArgs, outs: seq<OutputData>, s: Selection)
    requires CanSend(st, a, outs, s)
    ensures var sorted := CoinSelection.SortByValue(CoinSelection.Eligible(outs, a.parent, a.height, a.minimumConfirmations));
      Funded(sorted, a.amount, a.maxOutputs, a.changeOutputs, a.selectAll) == Ok(s)
    ensures s.total - a.amount - s.fee == Change(s) && s.amount == a.amount
  {
    var sorted := CoinSelection.SortByValue(CoinSelection.Eligible(outs, a.parent, a.height, a.minimumConfirmations));
    FundedCovers(sorted, a.amount, a.maxOutputs, a.changeOutputs, a.selectAll);
    hide Funded, CoinSelection.SortByValue, CoinSelection.Eligible, Enumerates;
  }

  lemma ChangeIsReceived(st: State, amounts: seq<nat>)
    ensures Receives(ChangeCoins(st, amounts), amounts)
  {
  }

  // ----- receiving

  /** The recipient's party: its output goes to the key it is about to hand out. */
  function Receiver(secrets: Secrets, st: State, amount: nat): Party {
    Recipient(amount, secrets.derive(st.NextKey(), amount), secrets.nonce, secrets.offset)
  }

  /** `receive_tx`, on a copy of the sender's slate. The output and its entry are
      committed before the slate is signed: a failure of either round leaves them
      behind. */
  method ReceiveTx(b: Backend, slate: Slate, parent: Identifier, slateId: nat, height: nat, secrets: Secrets, e: Challenge)
    returns (r: Outcome<(), TxError>)
    requires b.Valid()
    modifies b, slate
    ensures b.Valid() && b.sent == old(b.sent)
    ensures AlreadyReceived(old(b.View()), parent, slateId) ==>
      r == Fails(WalletFailed(TransactionAlreadyReceived)) && b.View() == old(b.View())
    ensures r == Fails(WalletFailed(TransactionAlreadyReceived)) <==>
      exists k :: k in old(b.txLogs) && k.0 == parent
        && old(b.txLogs)[k].txSlateId == Some(slateId) && old(b.txLogs)[k].txType == TxReceived
    ensures !AlreadyReceived(old(b.View()), parent, slateId) ==>
      b.View() == Receive(old(b.View()), parent, slateId, old(slate.amount), height)
    ensures !AlreadyReceived(old(b.View()), parent, slateId) ==>
      match Contributes(e, old(slate.View()), Receiver(secrets, old(b.View()), old(slate.amount)), 1, false)
      case Returns(w) => r == Returns(()) && slate.View() == w
      case Fails(error) => r == Fails(SlateFailed(error))
      case Panics => r == Panics
  {
    ReceivedMeans(b.View(), b.sent, parent, slateId);
    hide Inv, AlreadyReceived, Receive, Contributes, KeyLeft;
    var received := b.IsReceived(parent, slateId);
    if received {
      return Fails(WalletFailed(TransactionAlreadyReceived));
    }
    var keyId := b.BuildRecipientOutput(parent, slateId, slate.amount, height);
    var added := AddOutputToSlate(slate, secrets.derive(keyId, slate.amount), secrets.nonce, secrets.offset, 1, false, e);
    match added
    case Returns(_) => return Returns(());
    case Fails(error) => return Fails(SlateFailed(error));
    case Panics => return Panics;
  }

  /** What it is to have received a slate, in the log. */
  lemma ReceivedMeans(st: State, sent: History, parent: Identifier, slateId: nat)
    requires Inv(st, sent)
    ensures AlreadyReceived(st, parent, slateId) <==>
      exists k :: k in st.logs && k.0 == parent && st.logs[k].txSlateId == Some(slateId) && st.logs[k].txType == TxReceived
  {
    forall k | k in st.logs ensures st.logs[k].parentKeyId == k.0 {
      EntryIsOk(st, sent, k);
    }
    hide Inv;
  }

  /** The recipient's answer to any slate whatever succeeds exactly when its key is no
      zero, the fee suffices, nonces and keys have sums, the signatures already there
      verify, and somebody has taken part before. */
  lemma AnswerSucceeds(e: Challenge, v: SlateData, p: Party)
    ensures Contributes(e, v, p, 1, false).Returns? <==>
      && Join(v, p, 1).Ok?
      && var w := Join(v, p, 1).value;
         w.FeesPass() && w.HasSums() && w.AllVerify(e) && |v.participantData| >= 1
  {
    hide InputsOf, OutputsOf, BlindOf, Reduce, Combination, KeyLeft, Verifies, SlateData.FeesPass;
    if Join(v, p, 1).Ok? {
      var w := Join(v, p, 1).value;
      assert |w.participantData| == |v.participantData| + 1;
      if w.HasSums() && !w.SomeSigned() {
        forall i | 0 <= i < |w.participantData| ensures w.PartSigVerifies(e, w.participantData[i]) {
        }
      }
    }
  }

  /** A slate with the sender alone that it did not sign is the usual case. */
  lemma UsualAnswer(e: Challenge, v: SlateData, p: Party)
    requires |v.participantData| == 1 && v.participantData[0].partSig.None?
    ensures Contributes(e, v, p, 1, false).Returns? <==>
      Join(v, p, 1).Ok? && Join(v, p, 1).value.FeesPass() && Join(v, p, 1).value.HasSums()
  {
    AnswerSucceeds(e, v, p);
    hide Contributes, InputsOf, OutputsOf, BlindOf, Reduce, Combination, SlateData.FeesPass, Verifies;
    if Join(v, p, 1).Ok? {
      var w := Join(v, p, 1).value;
      assert |w.participantData| == 2 && w.participantData[0] == v.participantData[0];
      if w.HasSums() {
        forall i | 0 <= i < |w.participantData| ensures w.PartSigVerifies(e, w.participantData[i]) {
        }
      }
    }
  }

  /** Whatever became of the slate, the same one cannot be received again. */
  lemma ReceivedOnce(st: State, parent: Identifier, slateId: nat, amount: nat, height: nat)
    ensures AlreadyReceived(Receive(st, parent, slateId, amount, height), parent, slateId)
  {
    var st' := Receive(st, parent, slateId, amount, height);
    assert (parent, st.NextLogId(parent)) in st'.logs;
  }

  /** It can after the receipt is cancelled, which also takes the output away. */
  lemma CancelledReceipt(st: State, sent: History, parent: Identifier, slateId: nat, amount: nat, height: nat)
    requires Inv(st, sent) && !AlreadyReceived(st, parent, slateId)
    ensures var st', e := Receive(st, parent, slateId, amount, height), (parent, st.NextLogId(parent));
      && e in st'.logs && Cancellable(st'.logs[e])
      && !AlreadyReceived(Cancel(st', st'.logs[e]), parent, slateId)
      && Cancel(st', st'.logs[e]).outputs.Keys == st.outputs.Keys
  {
    var st', e := Receive(st, parent, slateId, amount, height), (parent, st.NextLogId(parent));
    NextKeyIsNew(st, sent, 0);
    NextLogIdIsNew(st, sent, parent);
    ReceivedEntry(st, parent, slateId, amount, height);
    CancelledLogs(st, st', e, parent, slateId);
    hide AlreadyReceived, Cancel;
    ReceivedOutputs(st, sent, parent, slateId, amount, height, st'.logs[e]);
    hide Receive, Inv;
  }

  lemma ReceivedOutputs(st: State, sent: History, parent: Identifier, slateId: nat, amount: nat, height: nat, t: TxLogEntry)
    requires Inv(st, sent) && t.parentKeyId == parent && t.id == st.NextLogId(parent)
    ensures Cancel(Receive(st, parent, slateId, amount, height), t).outputs.Keys == st.outputs.Keys
  {
    var o := PendingOutput(parent, st.NextKey(), amount, height, t.id);
    var m := st.outputs[o.Key() := o];
    NextKeyIsNew(st, sent, 0);
    forall k | k in st.outputs ensures !BelongsTo(st.outputs[k], t) && k in m && m[k] == st.outputs[k] {
      NotOfTheSend(st, sent, parent, k);
    }
    hide Inv;
    assert BelongsTo(o, t) && o.status == Unconfirmed;
    OnlyOneCancelled(st.outputs, o.Key(), o, t);
  }

  lemma OnlyOneCancelled(m: map<OutputKey, OutputData>, k: OutputKey, o: OutputData, t: TxLogEntry)
    requires k !in m && (forall k' :: k' in m ==> !BelongsTo(m[k'], t)) && BelongsTo(o, t) && o.status == Unconfirmed
    ensures CancelOutputs(m[k := o], t).Keys == m.Keys
  {
    hide BelongsTo, Unlocked;
  }

  lemma ReceivedEntry(st: State, parent: Identifier, slateId: nat, amount: nat, height: nat)
    ensures var st', e := Receive(st, parent, slateId, amount, height), (parent, st.NextLogId(parent));
      && st'.logs == st.logs[e := st'.logs[e]] && st'.logs[e].txType == TxReceived && !st'.logs[e].confirmed
      && st'.logs[e].parentKeyId == parent && st'.logs[e].id == e.1
  {
  }

  lemma CancelledLogs(st: State, st': State, e: LogKey, parent: Identifier, slateId: nat)
    requires !AlreadyReceived(st, parent, slateId) && e in st'.logs && st'.logs == st.logs[e := st'.logs[e]]
    requires st'.logs[e].txType == TxReceived && (st'.logs[e].parentKeyId, st'.logs[e].id) == e
    ensures !AlreadyReceived(Cancel(st', st'.logs[e]), parent, slateId)
  {
    var logs := Cancel(st', st'.logs[e]).logs;
    forall k | k in logs && k != e ensures k in st.logs && logs[k] == st.logs[k] {
    }
  }

  // ----- finalizing

  /** A send of the slate that was not cancelled is logged. */
  predicate SentFor(st: State, slateId: nat) {
    exists k :: k in st.logs && st.logs[k].txSlateId == Some(slateId) && st.logs[k].txType == TxSent
  }

  /** `finalize_tx`, with what was saved in the context. The slate is completed, the
      logged send is looked for, and only then the context is deleted. */
  method FinalizeTx(b: Backend, slate: Slate, slateId: nat, proof: TxProof?, e: Challenge, valid: Transaction -> bool)
    returns (r: Outcome<(), TxError>)
    requires b.Valid()
    modifies b, slate, proof
    ensures b.Valid() && b.sent == old(b.sent)
    ensures r.Returns? ==> b.View() == Finalize(old(b.View()), slateId)
    ensures !r.Returns? ==> b.View() == old(b.View())
    ensures (slateId, 0) !in old(b.contexts) ==> r == Fails(WalletFailed(ContextNotFound)) && slate.View() == old(slate.View())
    ensures (slateId, 0) in old(b.contexts) ==>
      var own := old(b.contexts)[(slateId, 0)].own;
      match Completed(e, old(slate.View()), own.secKey, own.secNonce, 0, valid)
      case Returns(w) =>
        && slate.View() == w
        && r == (if SentFor(old(b.View()), slateId) then Returns(()) else Fails(WalletFailed(TransactionDoesntExist)))
      case Fails(error) => r == Fails(SlateFailed(error))
      case Panics => r == Panics
    ensures r.Returns? ==>
      exists k :: k in old(b.txLogs) && old(b.txLogs)[k].txSlateId == Some(slateId) && old(b.txLogs)[k].txType == TxSent
    ensures (slateId, 0) in old(b.contexts) && proof != null ==>
      proof.View() == old(proof.View()).Filled(old(b.contexts)[(slateId, 0)].own)
  {
    hide Inv, Completed;
    if (slateId, 0) !in b.contexts {
      return Fails(WalletFailed(ContextNotFound));
    }
    var context := b.contexts[(slateId, 0)];
    var completed := CompleteWithProof(slate, proof, context.own, e, valid);
    match completed
    case Fails(error) => return Fails(SlateFailed(error));
    case Panics => return Panics;
    case Returns(_) =>
      var logged := exists k :: (k in b.txLogs && b.txLogs[k].txSlateId == Some(slateId) && b.txLogs[k].txType == TxSent);
      if !logged {
        return Fails(WalletFailed(TransactionDoesntExist));
      }
      b.DeletePrivateContext(slateId);
      return Returns(());
  }

  /** A cancelled send cannot be finalized. */
  lemma CancelledIsNotSent(st: State, sent: History, e: LogKey, slateId: nat)
    requires Inv(st, sent) && e in st.logs && st.logs[e].txType == TxSent
    requires forall k :: k in st.logs && st.logs[k].txSlateId == Some(slateId) && st.logs[k].txType == TxSent ==> k == e
    ensures !SentFor(Cancel(st, st.logs[e]), slateId)
  {
    assert EntryOk(st, sent, e);
    var logs := Cancel(st, st.logs[e]).logs;
    forall k | k in logs && k != e ensures k in st.logs && logs[k] == st.logs[k] {
    }
  }
}
