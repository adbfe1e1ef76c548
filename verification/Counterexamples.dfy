/** Inputs on which a promise one might expect does not hold. The exact conditions are
    proved beside the operations. */
module Counterexamples {
  import opened Wrappers
  import opened Numerals
  import opened Base58Spec
  import opened Outputs
  import opened Contexts
  import opened CoinSelection
  import Funding
  import opened Sums
  import opened Summary
  import opened Ledger
  import opened LedgerInvariant
  import opened LedgerSend
  import opened ChainScan
  import opened Restore
  import opened LedgerRuns
  import LedgerSteps
  import Curve
  import Slates
  import SlateRuns
  import TxProofs
  import Transactions
  import Payments
  import GrinboxAddress

  /** A change of 5 over 3 outputs: they receive 3, and 2 are lost. */
  lemma ChangeIsLost()
    ensures Sum(Funding.ChangeAmounts(5, 3)) == 3 && Funding.Shortfall(5, 3) == 2
  {
    Funding.ChangeConservation(5, 3);
    assert 5 / 3 == 1 && 5 % 3 == 2 && 2 % 1 == 0;
  }

  lemma OneSelected(coin: OutputData, amount: nat)
    requires 0 < amount <= coin.value
    ensures Selected([coin], amount, 500, false) == [coin] && Outputs.Total([coin]) == coin.value
  {
    TotalAppend([], coin);
    assert [] + [coin] == [coin];
    assert [coin][..0] == [] && [coin][..1] == [coin];
  }

  /** One coin spent exactly, without change: it does not cover the fee of a
      transaction with change, and is still sent. */
  lemma ExactSpendNeedsLess(coin: OutputData, changeOutputs: nat)
    requires coin.value == 100 + Funding.TxFee(1, 1, 1)
    ensures Funding.Funded([coin], 100, 500, changeOutputs, false).Ok?
    ensures changeOutputs > 0 ==> Outputs.Total([coin]) < 100 + Funding.FeeWithChange([coin], changeOutputs)
  {
    OneSelected(coin, 100);
    assert SortedByValue([coin]);
    Funding.FundingIsComplete([coin], 100, 500, changeOutputs, false);
  }

  /** Nothing is not funded, whatever the coin is worth. */
  lemma NothingIsNotFunded(coin: OutputData, changeOutputs: nat)
    ensures Funding.Funded([coin], 0, 500, changeOutputs, false).Err?
  {
    assert SortedByValue([coin]);
    Funding.FundingIsComplete([coin], 0, 500, changeOutputs, false);
  }

  lemma OnesAreZeros(n: nat)
    ensures var s := Repeat('1', n);
      IsBase58(s) && LeadingCount(s, '1') == n && Value(58, DigitsOf(s)) == 0
  {
    var s := Repeat('1', n);
    assert IsBase58(s);
    hide Repeat, LeadingCount, Value;
    LeadingCountIs(s, '1', n);
    ValueOfZeros(58, DigitsOf(s));
  }

  /** 133 zero bytes are encoded as 133 ones, and decoding that aborts. */
  lemma LongZerosAbort()
    ensures Encoded(Repeat(0, 133)) == Repeat('1', 133) && Decoded(Encoded(Repeat(0, 133))) == Panics
  {
    ZerosAreOnes(133);
    OnesAreZeros(133);
    PowPositive(256, CAPACITY);
    assert Digits(256, 0) == [];
    hide Repeat, LeadingCount, Value, Pow, Digits, DecodedInto, IsBase58, DigitsOf, Encoded;
    DecodedOfAlphabet(Repeat('1', 133), CAPACITY);
  }

  lemma ZerosAreOnes(n: nat)
    ensures Encoded(Repeat(0, n)) == Repeat('1', n)
  {
    var b := Repeat(0, n);
    hide LeadingCount;
    LeadingCountIs(b, 0, n);
    assert b[n..] == [] && Digits(58, 0) == [];
  }

  const ACCOUNT: Identifier := Identifier([0])

  function Key(): Identifier {
    ACCOUNT.Child(0)
  }

  /** A new wallet. */
  function Empty(): State {
    State(ACCOUNT, map[], map[], map[], map[], map[], map[])
  }

  // ----- cancelling confirms

  const PAID: nat := 4_000_010

  /** A coin received and not confirmed. */
  function PendingCoin(): OutputData {
    OutputData(ACCOUNT, Key(), 0, None, PAID, Unconfirmed, 1, 0, false, Some(0))
  }

  function ReceivedState(): State {
    Receive(Empty(), ACCOUNT, 1, PAID, 1)
  }

  const SPEND_FEE: nat := 4_000_000

  function SpendArgs(slateId: nat): SendArgs {
    SendArgs(slateId, ACCOUNT, 10, 1, 0, 500, 1, false)
  }

  function Spend(): Funding.Selection {
    Funding.Selection([PendingCoin()], PAID, 10, SPEND_FEE)
  }

  lemma ReceivedCoin()
    ensures ReceivedState().outputs == map[(Key(), None) := PendingCoin()]
    ensures ReceivedState().NextLogId(ACCOUNT) == 1 && ReceivedState().contexts == map[]
  {
    assert ACCOUNT.Child(0).LastPathIndex() == 0;
  }

  lemma PendingIsSent(st: State, slateId: nat)
    requires st.outputs == map[(Key(), None) := PendingCoin()]
    ensures CanSend(st, SpendArgs(slateId), [PendingCoin()], Spend()) && Change(Spend()) == 0
  {
    var coin := PendingCoin();
    assert KeysOf([coin]) == [(Key(), None)];
    assert [coin][..0] == [];
    assert Eligible([coin], ACCOUNT, 1, 0) == [coin];
    assert SortByValue([coin]) == [coin];
    ExactSpend(coin, 1);
    hide Eligible, SortByValue, Funding.Funded;
  }

  lemma ExactSpend(coin: OutputData, changeOutputs: nat)
    requires coin.value == PAID
    ensures Funding.Funded([coin], 10, 500, changeOutputs, false) == Ok(Funding.Selection([coin], PAID, 10, 4_000_000))
  {
    OneSelected(coin, 10);
    hide Selected;
  }

  /** Both sends keep the same coins. */
  function SpendOwn(): SlateContext {
    SlateContext(1, 1, 10, SPEND_FEE, [], [])
  }

  function SpendContext(): Context {
    Context(ACCOUNT, [(Key(), None, PAID)], [], SpendOwn())
  }

  /** The sends with slates 2 and 3 are initiated one after the other. */
  function FirstState(): State {
    ReceivedState().(contexts := map[(2, 0) := SpendContext()])
  }

  function SecondState(): State {
    ReceivedState().(contexts := map[(2, 0) := SpendContext(), (3, 0) := SpendContext()])
  }

  lemma SpendKeys()
    ensures CoinKeys(SpendContext().inputIds) == {(Key(), None)} && {(Key(), None)} <= ReceivedState().outputs.Keys
  {
    ReceivedCoin();
    assert CoinKey(SpendContext().inputIds[0]) == (Key(), None);
  }

  lemma SpendIsInitiated(st: State, slateId: nat)
    requires st.outputs == map[(Key(), None) := PendingCoin()]
    ensures Next(st, map[], InitStep(SpendArgs(slateId), [PendingCoin()], Spend(), SpendOwn()),
                 st.(contexts := st.contexts[(slateId, 0) := SpendContext()]), map[])
  {
    var a, s, own := SpendArgs(slateId), Spend(), SpendOwn();
    PendingIsSent(st, slateId);
    Transactions.InitIsStep(st, map[], a, [PendingCoin()], s, own);
    Transactions.InitiatedParts(st, a, s, own);
    ContextOfSpend(st, slateId);
    assert AfterChildren(st, 0) == st && Amounts(a, s) == [];
    hide CanSend, Next, Initiated, ContextOf, AfterChildren, Amounts, SpendContext, Funding.SplitAborts;
  }

  lemma ContextOfSpend(st: State, slateId: nat)
    ensures !Funding.SplitAborts(Change(Spend()), 1)
    ensures ContextOf(st, SpendArgs(slateId), Spend(), SpendOwn()) == SpendContext()
  {
  }

  function LockedState(): State
    requires CoinKeys(SpendContext().inputIds) <= SecondState().outputs.Keys
  {
    Lock(SecondState(), SpendContext(), 2, 1, SPEND_FEE)
  }

  lemma SpendIsLocked()
    ensures CoinKeys(SpendContext().inputIds) <= SecondState().outputs.Keys
    ensures LockedState().outputs == map[(Key(), None) := LockedFor(PendingCoin(), 1)]
    ensures (ACCOUNT, 1) in LockedState().logs && LockedState().logs[(ACCOUNT, 1)].txType == TxSent
    ensures !LockedState().logs[(ACCOUNT, 1)].confirmed && LockedState().logs[(ACCOUNT, 1)].parentKeyId == ACCOUNT
    ensures LockedState().logs[(ACCOUNT, 1)].id == 1
    ensures LockedState().NextLogId(ACCOUNT) == 2 && LockedState().contexts == SecondState().contexts
  {
    ReceivedCoin();
    SpendKeys();
    assert ChangeOutputs(SpendContext(), 1, 1) == [];
    hide ReceivedState, CoinKeys, Debited, CoinSum;
  }

  function SpentHistory(): History {
    map[(ACCOUNT, 1) := {(Key(), None)}]
  }

  lemma ReceiveIsStep()
    ensures Next(Empty(), map[], ReceiveStep(ACCOUNT, 1, PAID, 1), ReceivedState(), map[])
  {
  }

  lemma LockIsStep()
    ensures CoinKeys(SpendContext().inputIds) <= SecondState().outputs.Keys
    ensures Next(SecondState(), map[], LockStep(2, 1, SPEND_FEE), LockedState(), SpentHistory())
  {
    ReceivedCoin();
    SpendKeys();
    hide Lock, ReceivedState, CoinKeys;
    assert SentKey(SecondState(), SpendContext()) == (ACCOUNT, 1);
  }

  lemma CancelIsStep()
    ensures CoinKeys(SpendContext().inputIds) <= SecondState().outputs.Keys && (ACCOUNT, 1) in LockedState().logs
    ensures Next(LockedState(), SpentHistory(), CancelStep((ACCOUNT, 1)),
                 Cancel(LockedState(), LockedState().logs[(ACCOUNT, 1)]), SpentHistory())
  {
    SpendIsLocked();
    hide LockedState, SecondState, SpendContext, CoinKeys, Cancel;
  }

  /** A coin is received, two sends of it are initiated, the first is locked and then
      cancelled. */
  function SpendRun(): LedgerRuns.Run
    requires CoinKeys(SpendContext().inputIds) <= SecondState().outputs.Keys && (ACCOUNT, 1) in LockedState().logs
  {
    LedgerRuns.Run([Empty(), ReceivedState(), FirstState(), SecondState(), LockedState(),
                    Cancel(LockedState(), LockedState().logs[(ACCOUNT, 1)])],
                   [map[], map[], map[], map[], SpentHistory(), SpentHistory()],
                   [ReceiveStep(ACCOUNT, 1, PAID, 1), InitStep(SpendArgs(2), [PendingCoin()], Spend(), SpendOwn()),
                    InitStep(SpendArgs(3), [PendingCoin()], Spend(), SpendOwn()), LockStep(2, 1, SPEND_FEE),
                    CancelStep((ACCOUNT, 1))])
  }

  lemma FiveSteps(states: seq<State>, histories: seq<History>, steps: seq<Step>)
    requires |states| == 6 && |histories| == 6 && |steps| == 5 && Start(states[0]) && histories[0] == map[]
    requires Next(states[0], histories[0], steps[0], states[1], histories[1])
    requires Next(states[1], histories[1], steps[1], states[2], histories[2])
    requires Next(states[2], histories[2], steps[2], states[3], histories[3])
    requires Next(states[3], histories[3], steps[3], states[4], histories[4])
    requires Next(states[4], histories[4], steps[4], states[5], histories[5])
    ensures LedgerRuns.Run(states, histories, steps).Valid()
  {
    hide Next, Start;
    forall i | 0 <= i < 5 ensures Next(states[i], histories[i], steps[i], states[i + 1], histories[i + 1]) {
      assert i == 0 || i == 1 || i == 2 || i == 3 || i == 4;
    }
  }

  lemma SpendsInitiated()
    ensures Next(ReceivedState(), map[], InitStep(SpendArgs(2), [PendingCoin()], Spend(), SpendOwn()), FirstState(), map[])
    ensures Next(FirstState(), map[], InitStep(SpendArgs(3), [PendingCoin()], Spend(), SpendOwn()), SecondState(), map[])
  {
    ReceivedCoin();
    SpendIsInitiated(ReceivedState(), 2);
    SpendIsInitiated(FirstState(), 3);
    hide ReceivedState, SpendContext, Next;
    assert FirstState() == ReceivedState().(contexts := ReceivedState().contexts[(2, 0) := SpendContext()]);
    assert SecondState() == FirstState().(contexts := FirstState().contexts[(3, 0) := SpendContext()]);
  }

  lemma SpendRunIsValid()
    ensures CoinKeys(SpendContext().inputIds) <= SecondState().outputs.Keys && (ACCOUNT, 1) in LockedState().logs
    ensures SpendRun().Valid()
  {
    ReceiveIsStep();
    SpendsInitiated();
    LockIsStep();
    CancelIsStep();
    hide ReceivedState, FirstState, SecondState, LockedState, SpendContext, CoinKeys, Next, Cancel, LedgerRuns.Run.Valid;
    var run := SpendRun();
    FiveSteps(run.states, run.histories, run.steps);
  }

  lemma CancelledCoin()
    ensures CoinKeys(SpendContext().inputIds) <= SecondState().outputs.Keys && (ACCOUNT, 1) in LockedState().logs
    ensures var outputs := Cancel(LockedState(), LockedState().logs[(ACCOUNT, 1)]).outputs;
      (Key(), None) in outputs && outputs[(Key(), None)].status == Unspent
  {
    SpendIsLocked();
    hide LockedState, SecondState, SpendContext, CoinKeys;
  }

  /** A coin is received, sent on unconfirmed, and the send is cancelled: it is unspent,
      and no node was ever asked. */
  lemma CancellingConfirms()
    ensures CoinKeys(SpendContext().inputIds) <= SecondState().outputs.Keys && (ACCOUNT, 1) in LockedState().logs
    ensures var run := SpendRun();
      && run.Valid() && (forall i :: 0 <= i < |run.steps| ==> !run.steps[i].RefreshStep?)
      && (Key(), None) in run.states[1].outputs && run.states[1].outputs[(Key(), None)].status == Unconfirmed
      && (Key(), None) in run.states[5].outputs && run.states[5].outputs[(Key(), None)].status == Unspent
  {
    hide ReceivedState, LockedState, SecondState, SpendContext, CoinKeys, LedgerRuns.Run.Valid, Cancel;
    ReceivedCoin();
    CancelledCoin();
    SpendRunIsValid();
  }

  /** The same run before the cancel: a coinbase asked for on the key of the coin that
      is locked replaces it, and the pending send has lost its input. */
  lemma ReplacingReleases(value: nat, height: nat)
    ensures CoinKeys(SpendContext().inputIds) <= SecondState().outputs.Keys && (ACCOUNT, 1) in LockedState().logs
    ensures var run := SpendRun();
      var st, sent := run.states[4], run.histories[4];
      && run.Valid() && (ACCOUNT, 1) in sent && Live(st, (ACCOUNT, 1)) && (Key(), None) in sent[(ACCOUNT, 1)]
      && var st' := Coinbase(st, Some(Key()), value, height);
         (Key(), None) in st'.outputs && st'.outputs[(Key(), None)].status == Unconfirmed && !Inv(st', sent)
  {
    hide ReceivedState, LockedState, SecondState, SpendContext, CoinKeys, LedgerRuns.Run.Valid, Cancel, Inv, CountersGrow, SpentStays;
    SpendIsLocked();
    SpendRunIsValid();
    RunKeepsInv(SpendRun(), 4);
    LockedCoinReplaced(LockedState(), SpentHistory(), value, height);
  }

  lemma LockedCoinReplaced(st: State, sent: History, value: nat, height: nat)
    requires Inv(st, sent) && (Key(), None) in st.outputs && st.outputs[(Key(), None)].status == Locked
    ensures var st' := Coinbase(st, Some(Key()), value, height);
      && (Key(), None) in st'.outputs && st'.outputs[(Key(), None)].status == Unconfirmed && !Inv(st', sent)
  {
    hide Inv, CountersGrow;
    var st' := Coinbase(st, Some(Key()), value, height);
    LedgerSteps.CoinbaseKeeps(st, sent, Some(Key()), value, height);
    assert SpentStays(st, st');
  }

  /** Locking slate 3 makes the coin an input of two sends that are both not cancelled. */
  ghost predicate SpendsTwice(st: State, sent: History, ctx: Context)
    requires CoinKeys(ctx.inputIds) <= st.outputs.Keys
  {
    var st', sent' := Lock(st, ctx, 3, 1, SPEND_FEE), AfterSend(sent, st, ctx);
    var e, e', k := (ACCOUNT, 1), (ACCOUNT, 2), (Key(), None);
    Live(st', e) && Live(st', e') && e in sent' && e' in sent' && k in sent'[e] && k in sent'[e']
  }

  /** So it does in this run before the cancel, where that is not safe. */
  lemma SecondLockSpendsTwice()
    ensures CoinKeys(SpendContext().inputIds) <= SecondState().outputs.Keys && (ACCOUNT, 1) in LockedState().logs
    ensures var run := SpendRun();
      var st, sent := run.states[4], run.histories[4];
      && run.Valid() && (3, 0) in st.contexts && CoinKeys(st.contexts[(3, 0)].inputIds) <= st.outputs.Keys
      && !LockSafe(st, st.contexts[(3, 0)]) && SpendsTwice(st, sent, st.contexts[(3, 0)])
  {
    SpendIsLocked();
    SpendKeys();
    assert (3, 0) in SecondState().contexts && SecondState().contexts[(3, 0)] == SpendContext();
    hide *;
    SpendRunIsValid();
    SecondLock(LockedState());
    SpendRunAt();
  }

  lemma SpendRunAt()
    requires CoinKeys(SpendContext().inputIds) <= SecondState().outputs.Keys && (ACCOUNT, 1) in LockedState().logs
    ensures SpendRun().states[4] == LockedState() && SpendRun().histories[4] == SpentHistory()
  {
    hide LockedState, SecondState, CoinKeys, ReceivedState, Cancel;
  }

  lemma SecondLock(st: State)
    requires CoinKeys(SpendContext().inputIds) == {(Key(), None)}
    requires st.outputs == map[(Key(), None) := LockedFor(PendingCoin(), 1)] && st.NextLogId(ACCOUNT) == 2 && Live(st, (ACCOUNT, 1))
    ensures CoinKeys(SpendContext().inputIds) <= st.outputs.Keys
    ensures !LockSafe(st, SpendContext()) && SpendsTwice(st, SpentHistory(), SpendContext())
  {
    LockLogs(st, SpendContext(), 3, 1, SPEND_FEE);
    assert !Spendable(st, SpendContext(), (Key(), None));
    hide CoinKeys, Lock, Debited;
  }

  // ----- a receipt in vain

  function StrangerSecrets(): Transactions.Secrets {
    Transactions.Secrets((id, value) => 5, 2, 1)
  }

  /** A slate of 10 that nobody has taken part in, with enough of a fee, and one of the
      sender's alone without a fee. */
  function EmptySlate(): Slates.SlateData {
    Slates.SlateData(10, 5_000_000, 0, Slates.EMPTY, [])
  }

  function FreeSlate(): Slates.SlateData {
    Slates.SlateData(10, 0, 0, Slates.EMPTY, [Slates.ParticipantData(0, 3, 1, None)])
  }

  lemma StrangerJoins(fee: nat, data: seq<Slates.ParticipantData>)
    ensures var v := Slates.SlateData(10, fee, 0, Slates.EMPTY, data);
      SlateRuns.Join(v, TxProofs.Recipient(10, 5, 2, 1), 1) == Ok(
        Slates.SlateData(10, fee, 0, Slates.Transaction([], [Curve.Commit(10, 5)], [Slates.WithFeatures(Slates.Plain(fee))], 1),
                         data + [Slates.ParticipantData(1, 4, 2, None)]))
  {
    TxProofs.OneOutput(10, 5);
    hide Slates.InputsOf, Slates.OutputsOf, Slates.BlindOf, Curve.Commit;
    var v, p := Slates.SlateData(10, fee, 0, Slates.EMPTY, data), TxProofs.Recipient(10, 5, 2, 1);
    assert v.AddElements(p.elements).tx == Slates.Transaction([], [Curve.Commit(10, 5)], [Slates.WithFeatures(Slates.Plain(fee))], 0) by {
      assert [] + [Curve.Commit(10, 5)] == [Curve.Commit(10, 5)];
    }
    assert Curve.Reduce(5) == 5 && Curve.Reduce(4) == 4;
  }

  lemma OneFee(fee: nat)
    ensures Slates.FeeOf([Slates.WithFeatures(Slates.Plain(fee))]) == fee
  {
    assert [Slates.WithFeatures(Slates.Plain(fee))][..0] == [];
  }

  lemma AnswerAborts(e: Slates.Challenge)
    ensures TxProofs.Contributes(e, EmptySlate(), TxProofs.Recipient(10, 5, 2, 1), 1, false) == Panics
  {
    StrangerJoins(5_000_000, []);
    OneFee(5_000_000);
    hide SlateRuns.Join;
    var w := SlateRuns.Join(EmptySlate(), TxProofs.Recipient(10, 5, 2, 1), 1).value;
    assert !w.SomeSigned() && w.FeesPass();
    SumOfOne(2);
    SumOfOne(4);
    assert w.PubNonces() == [2] && w.PubBlinds() == [4];
  }

  lemma SumOfOne(a: int)
    ensures Sum([a]) == a
  {
    assert [a][..0] == [];
  }

  lemma AnswerIsDisputed(e: Slates.Challenge)
    ensures TxProofs.Contributes(e, FreeSlate(), TxProofs.Recipient(10, 5, 2, 1), 1, false) == Fails(Slates.FeeDispute)
  {
    StrangerJoins(0, FreeSlate().participantData);
    OneFee(0);
    hide SlateRuns.Join;
  }

  /** A wallet that receives either slate ends in a state of a run in which the output and
      its entry are stored and the slate counts as received, and gives no answer. */
  lemma ReceivedInVain(e: Slates.Challenge)
    ensures var run := LedgerRuns.Run([Empty(), Receive(Empty(), ACCOUNT, 1, 10, 1)], [map[], map[]],
                                      [ReceiveStep(ACCOUNT, 1, 10, 1)]);
      var st := run.states[1];
      && run.Valid() && (Key(), None) in st.outputs && st.outputs[(Key(), None)].status == Unconfirmed
      && (ACCOUNT, 0) in st.logs && st.logs[(ACCOUNT, 0)].txType == TxReceived && AlreadyReceived(st, ACCOUNT, 1)
    ensures var receiver := Transactions.Receiver(StrangerSecrets(), Empty(), 10);
      && TxProofs.Contributes(e, EmptySlate(), receiver, 1, false) == Panics
      && TxProofs.Contributes(e, FreeSlate(), receiver, 1, false) == Fails(Slates.FeeDispute)
  {
    hide AlreadyReceived, TxProofs.Contributes, Next, Receive;
    AnswerAborts(e);
    AnswerIsDisputed(e);
    Transactions.ReceivedOnce(Empty(), ACCOUNT, 1, 10, 1);
    ReceivedVainly();
  }

  lemma ReceivedVainly()
    ensures var st := Receive(Empty(), ACCOUNT, 1, 10, 1);
      && Next(Empty(), map[], ReceiveStep(ACCOUNT, 1, 10, 1), st, map[])
      && (Key(), None) in st.outputs && st.outputs[(Key(), None)].status == Unconfirmed
      && (ACCOUNT, 0) in st.logs && st.logs[(ACCOUNT, 0)].txType == TxReceived
  {
  }

  // ----- spendable too early

  /** A coin on the chain at height 50. */
  function FoundCoin(): ChainOutput {
    ChainOutput(1, false, 50, Some((10, Key())))
  }

  function RestoredCoin(height: nat): OutputData {
    OutputData(ACCOUNT, Key(), 0, Some(1), 10, Unspent, height, 50, false, Some(0))
  }

  lemma CoinIsRestored()
    ensures var st := Restored(Empty(), [FoundCoin()]);
      && st.outputs == map[(Key(), Some(1)) := RestoredCoin(50)] && st.active == ACCOUNT
      && st.contexts == map[] && st.confirmedHeight == map[]
  {
    CoinIsIdentified();
    CoinIsStored();
    var r := ResultOf(FoundCoin());
    assert [r][..0] == [];
    hide Progress.RestoreOne, Identified, WithEntries, WithChildren;
    assert RestoreAll(Empty(), []) == Progress(Empty(), map[], map[]);
    assert RestoreAll(Empty(), [r]) == RestoreAll(Empty(), []).RestoreOne(r);
  }

  lemma CoinIsIdentified()
    ensures Identified([FoundCoin()]) == [ResultOf(FoundCoin())]
  {
    assert [FoundCoin()][..0] == [];
  }

  lemma CoinIsStored()
    ensures var s := Progress(Empty(), map[], map[]).RestoreOne(ResultOf(FoundCoin()));
      && s.st.outputs == map[(Key(), Some(1)) := RestoredCoin(50)] && s.st.active == ACCOUNT
      && s.st.contexts == map[] && s.st.confirmedHeight == map[]
  {
    var r := ResultOf(FoundCoin());
    assert r.Parent() == ACCOUNT && r.nChild == 0;
  }

  /** The node is at height 20 then, and has the coin at height 10. */
  function RefreshedState(): State {
    Clean(Apply(Restored(Empty(), [FoundCoin()]), [(10, Key())], map[(10, Key()) := (Key(), Some(1))], map[(10, Key()) := 10], 20, ACCOUNT), 20)
  }

  lemma CoinIsRefreshed()
    ensures RefreshedState().outputs == map[(Key(), Some(1)) := RestoredCoin(10)]
    ensures RefreshedState().LastConfirmedHeight() == 20
  {
    CoinIsRestored();
    var st := Restored(Empty(), [FoundCoin()]);
    hide Restored;
    assert [(10, Key())][..0] == [];
    assert StaleKeys(map[(Key(), Some(1)) := RestoredCoin(10)], 20) == {};
  }

  function EarlyRun(): LedgerRuns.Run {
    LedgerRuns.Run([Empty(), Restored(Empty(), [FoundCoin()]), RefreshedState()], [map[], map[], map[]],
                   [RestoreStep([FoundCoin()]),
                    RefreshStep(ACCOUNT, true, map[(10, Key()) := (Key(), Some(1))], [(10, Key())], map[(10, Key()) := 10], 20)])
  }

  lemma EarlyRunIsValid()
    ensures EarlyRun().Valid()
  {
    CoinIsRestored();
    var run := EarlyRun();
    hide Restored, RefreshedState;
    assert Next(run.states[0], run.histories[0], run.steps[0], run.states[1], run.histories[1]);
    assert Next(run.states[1], run.histories[1], run.steps[1], run.states[2], run.histories[2]) by { RefreshIsStep(); }
  }

  lemma RefreshIsStep()
    ensures Next(Restored(Empty(), [FoundCoin()]), map[],
                 RefreshStep(ACCOUNT, true, map[(10, Key()) := (Key(), Some(1))], [(10, Key())], map[(10, Key()) := 10], 20),
                 RefreshedState(), map[])
  {
    CoinIsRestored();
    hide Restored, Apply, Clean;
  }

  /** A coin restored at height 50, and then reported at height 10 by a node at height
      20, keeps the lock height 50: the summary calls it spendable, and coin selection
      does not take it. */
  lemma SpendableTooEarly()
    ensures EarlyRun().Valid()
    ensures var st, q := EarlyRun().states[2], Query(ACCOUNT, 20, 10);
      && st.LastConfirmedHeight() == 20 && Enumerates([RestoredCoin(10)], st.outputs)
      && InfoOf(st.outputs, q).amountCurrentlySpendable == 10
      && Eligible([RestoredCoin(10)], ACCOUNT, 20, 10) == []
  {
    EarlyRunIsValid();
    CoinIsRefreshed();
    EarlyCoin();
    hide RefreshedState, LedgerRuns.Run.Valid, Restored, InfoOf, Eligible, Enumerates;
    assert EarlyRun().states[2] == RefreshedState();
  }

  lemma EarlyCoin()
    ensures var coin, q := RestoredCoin(10), Query(ACCOUNT, 20, 10);
      var m := map[(Key(), Some(1)) := coin];
      && Enumerates([coin], m) && InfoOf(m, q).amountCurrentlySpendable == 10 && Eligible([coin], ACCOUNT, 20, 10) == []
  {
    var coin, q := RestoredCoin(10), Query(ACCOUNT, 20, 10);
    var m := map[(Key(), Some(1)) := coin];
    assert KeysOf([coin]) == [(Key(), Some(1))];
    assert [coin][..0] == [];
    SumRemove(m, q.SpendableValue(), (Key(), Some(1)));
    assert m - {(Key(), Some(1))} == map[];
    assert q.SpendableValue()(coin) == 10;
  }

  // ----- a payment that loses change

  const PAYMENT_FEE: nat := 16_000_000

  function RichCoin(): OutputData {
    OutputData(ACCOUNT, Key(), 0, None, 100 + PAYMENT_FEE + 5, Unspent, 1, 0, false, None)
  }

  /** A key for each path. */
  function PathKey(id: Identifier, value: nat): Curve.Scalar {
    if id.LastPathIndex() < 10 then id.LastPathIndex() + 1 else 1
  }

  /** 100 paid from one coin with a change of 5 over 3 outputs. */
  function LossyPayment(): Payments.Payment {
    var change := [(ACCOUNT.Child(1), None, 1), (ACCOUNT.Child(2), None, 1), (ACCOUNT.Child(3), None, 1)];
    Payments.Payment(
      100, 3, Funding.Selection([RichCoin()], 100 + PAYMENT_FEE + 5, 100, PAYMENT_FEE), change,
      SlateRuns.Party(Payments.SenderElements(PathKey, [RichCoin()], change), 1, 1),
      TxProofs.Recipient(100, 5, 2, 1))
  }

  lemma LossyFunding()
    ensures Funding.Funded([RichCoin()], 100, 500, 3, false) == Ok(LossyPayment().chosen)
  {
    OneSelected(RichCoin(), 100);
    assert Funding.FeeWithChange([RichCoin()], 3) == PAYMENT_FEE;
    hide Selected, Outputs.Total, Funding.FeeWithChange, Payments.SenderElements;
  }

  lemma LossyChange()
    ensures !Funding.SplitAborts(5, 3) && Funding.ChangeAmounts(5, 3) == [1, 1, 1]
  {
    assert 5 / 3 == 1 && 5 % 3 == 2 && 2 % 1 == 0;
  }

  lemma LossyIsDecided()
    ensures LossyPayment().Decided([RichCoin()], 500, false, PathKey, 5)
  {
    LossyFunding();
    LossyChange();
    hide Funding.Funded, Funding.SplitAborts, Funding.ChangeAmounts, Payments.SenderElements;
  }

  lemma PathKeys()
    ensures PathKey(Key(), 0) == 1 && forall value: nat :: PathKey(Key(), value) == 1
    ensures PathKey(ACCOUNT.Child(1), 1) == 2 && PathKey(ACCOUNT.Child(2), 1) == 3 && PathKey(ACCOUNT.Child(3), 1) == 4
  {
  }

  lemma LossyElements()
    ensures LossyPayment().sender.elements
      == [Slates.InputElement(RichCoin().value, 1), Slates.OutputElement(1, 2), Slates.OutputElement(1, 3), Slates.OutputElement(1, 4)]
  {
    var p := LossyPayment();
    PathKeys();
    hide PathKey;
    assert p.change[..2][..1][..0] == [] && [RichCoin()][..0] == [];
    assert p.change[..2][..1] == [p.change[0]] && p.change[..2] == [p.change[0], p.change[1]];
    assert Payments.OutputElements(PathKey, [p.change[0]]) == [Slates.OutputElement(1, 2)];
    assert Payments.OutputElements(PathKey, p.change[..2]) == [Slates.OutputElement(1, 2), Slates.OutputElement(1, 3)];
    assert Payments.InputElements(PathKey, [RichCoin()]) == [Slates.InputElement(RichCoin().value, 1)];
  }

  lemma LossyBlinds(value: nat)
    ensures Slates.BlindOf([Slates.InputElement(value, 1), Slates.OutputElement(1, 2), Slates.OutputElement(1, 3),
                            Slates.OutputElement(1, 4)]) == 8
  {
    var elems := [Slates.InputElement(value, 1), Slates.OutputElement(1, 2), Slates.OutputElement(1, 3), Slates.OutputElement(1, 4)];
    assert elems[..3] == [elems[0], elems[1], elems[2]] && elems[..3][..2] == [elems[0], elems[1]];
    assert elems[..3][..2][..1] == [elems[0]] && [elems[0]][..0] == [];
    assert Slates.BlindOf([elems[0]]) == -1;
    assert Slates.BlindOf([elems[0], elems[1]]) == 1;
    assert Slates.BlindOf([elems[0], elems[1], elems[2]]) == 4;
  }

  lemma LossyKeys()
    ensures var p := LossyPayment(); var ps := [p.sender, p.receiver];
      SlateRuns.KeyAfter(ps, 0) == 7 && SlateRuns.KeyAfter(ps, 1) == 5
  {
    LossyElements();
    LossyBlinds(RichCoin().value);
    TxProofs.OneOutput(100, 5);
    hide Slates.BlindOf, Payments.SenderElements;
  }

  lemma LossyJoins()
    ensures var p := LossyPayment();
      var joined := SlateRuns.Joined(p.Slate(), [p.sender, p.receiver]); joined.Ok? && joined.value.HasSums()
  {
    var p := LossyPayment();
    LossyKeys();
    hide SlateRuns.Joined, SlateRuns.KeyAfter, Payments.SenderElements;
    TwoKeys(p.Slate(), p.sender, p.receiver, 7, 5);
  }

  lemma SumOfTwo(a: int, b: int)
    ensures Sum([a, b]) == a + b
  {
    assert [a, b][..1] == [a] && [a][..0] == [];
    assert Sum([a]) == a;
  }

  /** The payment is funded and both sides take part, and it is refused all the same:
      its final transaction does not balance. */
  lemma LossyPaymentIsRefused(e: Slates.Challenge)
    ensures var p := LossyPayment();
      !TxProofs.Exchange(e, p.Slate(), p.sender, p.receiver, (tx: Slates.Transaction) => true).Returns?
  {
    var p := LossyPayment();
    LossyIsDecided();
    LossyJoins();
    var w := SlateRuns.Joined(p.Slate(), [p.sender, p.receiver]).value;
    assert p.Remaining() == 5 && p.changeOutputs == 3 && !Payments.SplitsEvenly(5, 3) && 3 < TxProofs.U64;
    var valid := (tx: Slates.Transaction) => true;
    hide LossyPayment, SlateRuns.Joined, Payments.SplitsEvenly, TxProofs.Exchange, Slates.SlateData.HasSums, SlateRuns.SignAll;
    Payments.PaymentGoesThrough(e, p, [RichCoin()], 500, false, PathKey, 5, w, valid);
  }

  // ----- an honest proof that is refused

  const COLLIDING_FEE: nat := 8_000_000

  /** 10 are sent from a coin, with a change of 10 to the very key the recipient uses. */
  function CollidingSlate(): Slates.SlateData {
    Slates.SlateData(10, COLLIDING_FEE, 0, Slates.EMPTY, [])
  }

  function CollidingSender(): SlateRuns.Party {
    SlateRuns.Party([Slates.InputElement(20 + COLLIDING_FEE, 1), Slates.OutputElement(10, 5)], 1, 1)
  }

  lemma CollidingElements()
    ensures var elems := CollidingSender().elements;
      && Slates.BlindOf(elems) == 4 && Slates.ValueOf(elems) == 0 - 10 - COLLIDING_FEE
      && Slates.InputsOf(elems) == [Curve.Commit(20 + COLLIDING_FEE, 1)] && Slates.OutputsOf(elems) == [Curve.Commit(10, 5)]
  {
    var elems := CollidingSender().elements;
    assert elems[..1] == [elems[0]] && elems[..1][..0] == [];
    hide Curve.Commit;
    assert Slates.BlindOf([elems[0]]) == -1 && Slates.ValueOf([elems[0]]) == 0 - 20 - COLLIDING_FEE;
    assert Slates.InputsOf([elems[0]]) == [Curve.Commit(20 + COLLIDING_FEE, 1)] && Slates.OutputsOf([elems[0]]) == [];
  }

  lemma CollidingKeys()
    ensures var ps := [CollidingSender(), TxProofs.Recipient(10, 5, 2, 1)];
      SlateRuns.KeyAfter(ps, 0) == 3 && SlateRuns.KeyAfter(ps, 1) == 5
  {
    CollidingElements();
    TxProofs.OneOutput(10, 5);
    hide Slates.BlindOf;
  }

  lemma CollidingJoins()
    ensures var v, p, r := CollidingSlate(), CollidingSender(), TxProofs.Recipient(10, 5, 2, 1);
      var joined := SlateRuns.Joined(v, [p, r]);
      joined.Ok? && joined.value.HasSums() && joined.value.FeesPass()
  {
    var v, p, r := CollidingSlate(), CollidingSender(), TxProofs.Recipient(10, 5, 2, 1);
    CollidingKeys();
    TwoKeys(v, p, r, 3, 5);
    CollidingElements();
    CollidingFees(SlateRuns.Joined(v, [p, r]).value);
  }

  lemma CollidingFees(w: Slates.SlateData)
    requires SlateRuns.Joined(CollidingSlate(), [CollidingSender(), TxProofs.Recipient(10, 5, 2, 1)]) == Ok(w)
    ensures w.FeesPass()
  {
    var v, p, r := CollidingSlate(), CollidingSender(), TxProofs.Recipient(10, 5, 2, 1);
    CollidingElements();
    TxProofs.HonestTransaction(v, p, r, 5, w);
    SlateRuns.JoinedAddsUp(v, [p, r]);
    SlateRuns.OneKernelFee(v.Features());
    hide SlateRuns.Joined, SlateRuns.EachJoined, SlateRuns.KeysAddUp, SlateRuns.ValuesAddUp, Slates.InputsOf, Slates.OutputsOf;
  }

  /** Two parties with nonces 1 and 2 whose keys add up to less than the order. */
  lemma TwoKeys(v: Slates.SlateData, p: SlateRuns.Party, r: SlateRuns.Party, a: Curve.SecretKey, b: Curve.SecretKey)
    requires SlateRuns.Fresh(v) && p.nonce == 1 && r.nonce == 2 && a + b < Curve.ORDER
    requires SlateRuns.KeyAfter([p, r], 0) == a && SlateRuns.KeyAfter([p, r], 1) == b
    ensures var joined := SlateRuns.Joined(v, [p, r]); joined.Ok? && joined.value.HasSums()
  {
    TwoJoin(v, p, r);
    var w := SlateRuns.Joined(v, [p, r]).value;
    TwoPublicKeys(w, p, r);
    hide SlateRuns.Joined, SlateRuns.EachJoined, SlateRuns.KeyAfter;
    assert w.PubNonces() == [1, 2] && w.PubBlinds() == [a, b];
    SumOfTwo(1, 2);
    SumOfTwo(a, b);
  }

  lemma TwoJoin(v: Slates.SlateData, p: SlateRuns.Party, r: SlateRuns.Party)
    requires SlateRuns.Fresh(v) && SlateRuns.KeyAfter([p, r], 0) != 0 && SlateRuns.KeyAfter([p, r], 1) != 0
    ensures SlateRuns.Joined(v, [p, r]).Ok? && SlateRuns.EachJoined(SlateRuns.Joined(v, [p, r]).value, [p, r])
  {
    hide SlateRuns.Joined, SlateRuns.KeyAfter, SlateRuns.KeysAddUp, SlateRuns.ValuesAddUp, SlateRuns.EachJoined;
    SlateRuns.JoinedSucceeds(v, [p, r]);
    SlateRuns.JoinedAddsUp(v, [p, r]);
  }

  lemma TwoPublicKeys(w: Slates.SlateData, p: SlateRuns.Party, r: SlateRuns.Party)
    requires SlateRuns.EachJoined(w, [p, r])
    ensures |w.participantData| == 2
    ensures w.participantData[0].publicBlindExcess == SlateRuns.KeyAfter([p, r], 0) && w.participantData[0].publicNonce == p.nonce
    ensures w.participantData[1].publicBlindExcess == SlateRuns.KeyAfter([p, r], 1) && w.participantData[1].publicNonce == r.nonce
  {
    assert SlateRuns.IsParticipant(w.participantData[0], [p, r], 0) && SlateRuns.IsParticipant(w.participantData[1], [p, r], 1);
    hide SlateRuns.KeyAfter;
  }

  /** The slate with its two equal outputs merged into one. */
  function Merged(v: Slates.SlateData): Slates.SlateData {
    v.(tx := v.tx.(outputs := [Curve.Commit(10, 5)]))
  }

  lemma NothingLeft(proof: TxProofs.ProofData, slate: Slates.SlateData, destination: GrinboxAddress.Address)
    requires forall i :: 0 <= i < |slate.tx.inputs| ==> slate.tx.inputs[i] in proof.inputs
    requires forall i :: 0 <= i < |slate.tx.outputs| ==> slate.tx.outputs[i] in proof.outputs
    requires proof.amount == 10
    ensures !TxProofs.VerifyTxProof(proof, Some((destination, slate))).Returns?
  {
    TxProofs.NoneWithout(slate.tx.inputs, proof.inputs);
    TxProofs.NoneWithout(slate.tx.outputs, proof.outputs);
    OnlyTheAmount();
    assert [] + [Curve.Commit(10, 0)] == [Curve.Commit(10, 0)];
    hide TxProofs.Without, TxProofs.KernelExcess, Curve.CommitSum, Curve.Commit, Curve.Combination;
  }

  lemma OnlyTheAmount()
    ensures Curve.CommitSum([], [Curve.Commit(10, 0)]).ToPubkey().None?
  {
    assert [Curve.Commit(10, 0)][..0] == [];
    assert Curve.Reduce(10) == 10;
    assert Curve.Values([]) == 0 && Curve.Values([Curve.Commit(10, 0)]) == 10;
    assert Curve.Reduce(0 - 10) == Curve.ORDER - 10;
    hide Curve.Values, Curve.Blinds, Curve.Reduce;
  }

  /** Both are honest, and the sender's proof is refused, whether or not the equal outputs
      are merged. */
  lemma CollidingProofIsRefused(e: Slates.Challenge, address: GrinboxAddress.Address, destination: GrinboxAddress.Address)
    ensures var v, p, r := CollidingSlate(), CollidingSender(), TxProofs.Recipient(10, 5, 2, 1);
      var sent := TxProofs.Contributes(e, v, p, 0, true);
      && sent.Returns?
      && var answer := TxProofs.Contributes(e, sent.value, r, 1, false);
      && answer.Returns?
      && !TxProofs.VerifyTxProof(TxProofs.SenderProof(address, v, p), Some((destination, answer.value))).Returns?
      && !TxProofs.VerifyTxProof(TxProofs.SenderProof(address, v, p), Some((destination, Merged(answer.value)))).Returns?
  {
    var v, p, r := CollidingSlate(), CollidingSender(), TxProofs.Recipient(10, 5, 2, 1);
    CollidingJoins();
    CollidingElements();
    assert Curve.Commit(10, 5) in [Curve.Commit(10, 5)];
    var w := SlateRuns.Joined(v, [p, r]).value;
    assert SlateRuns.Fresh(v) && r.elements == [Slates.OutputElement(10, 5)] && v.amount == 10 && v.fee == COLLIDING_FEE;
    var proof := TxProofs.SenderProof(address, v, p);
    assert proof.inputs == Slates.InputsOf(p.elements) && proof.outputs == Slates.OutputsOf(p.elements) && proof.amount == 10;
    hide *;
    TxProofs.HonestProofAccepted(e, v, p, r, 5, w, address, destination);
    var answer := TxProofs.RecipientAnswers(e, v, p, r, w);
    TxProofs.HonestTransaction(v, p, r, 5, w);
    MergedIsRefused(proof, answer, Slates.InputsOf(p.elements), destination);
  }

  lemma MergedIsRefused(proof: TxProofs.ProofData, slate: Slates.SlateData, inputs: seq<Curve.Commitment>, destination: GrinboxAddress.Address)
    requires slate.tx.inputs == inputs && proof.inputs == inputs && proof.outputs == [Curve.Commit(10, 5)] && proof.amount == 10
    ensures !TxProofs.VerifyTxProof(proof, Some((destination, Merged(slate)))).Returns?
  {
    NothingLeft(proof, Merged(slate), destination);
  }
}
