/** The wallet's store and what each committed batch does to it
    (src/wallet/backend/lmdb_backend.rs, src/internal/selection.rs, updater.rs, tx.rs). */
module Ledger {
  import opened Wrappers
  import opened Outputs
  import opened Contexts

  datatype TxLogEntryType = ConfirmedCoinbase | TxReceived | TxSent | TxReceivedCancelled | TxSentCancelled

  datatype TxLogEntry = TxLogEntry(
    parentKeyId: Identifier,
    id: nat,
    txSlateId: Option<nat>,
    txType: TxLogEntryType,
    confirmed: bool,
    numInputs: nat,
    numOutputs: nat,
    amountCredited: nat,
    amountDebited: nat,
    fee: Option<nat>)

  function NewEntry(parent: Identifier, txType: TxLogEntryType, id: nat): TxLogEntry {
    TxLogEntry(parent, id, None, txType, false, 0, 0, 0, 0, None)
  }

  type LogKey = (Identifier, nat)
  type ContextKey = (nat, nat)

  /** A coin of a context: its key and its value. */
  type ContextCoin = (Identifier, Option<nat>, nat)

  datatype Context = Context(
    parentKeyId: Identifier,
    inputIds: seq<ContextCoin>,
    outputIds: seq<ContextCoin>,
    own: SlateContext)

  /** The committed contents of the store, and the active account. */
  datatype State = State(
    active: Identifier,
    outputs: map<OutputKey, OutputData>,
    logs: map<LogKey, TxLogEntry>,
    nextLogId: map<Identifier, nat>,
    childIndex: map<Identifier, nat>,
    confirmedHeight: map<Identifier, nat>,
    contexts: map<ContextKey, Context>)
  {
    function NextLogId(parent: Identifier): nat {
      if parent in nextLogId then nextLogId[parent] else 0
    }

    function ChildIndex(parent: Identifier): nat {
      if parent in childIndex then childIndex[parent] else 0
    }

    function LastConfirmedHeight(): nat {
      if active in confirmedHeight then confirmedHeight[active] else 0
    }

    /** The key `next_child` hands out. */
    function NextKey(): Identifier {
      active.Child(ChildIndex(active))
    }

    function AfterNextChild(): State {
      this.(childIndex := childIndex[active := ChildIndex(active) + 1])
    }

    function AfterNextLogId(parent: Identifier): State {
      this.(nextLogId := nextLogId[parent := NextLogId(parent) + 1])
    }

    function SaveOutput(o: OutputData): State {
      this.(outputs := outputs[o.Key() := o])
    }

    function SaveLog(t: TxLogEntry): State {
      this.(logs := logs[(t.parentKeyId, t.id) := t])
    }
  }

  /** Saving outputs one after the other. */
  function Saved(m: map<OutputKey, OutputData>, outs: seq<OutputData>): map<OutputKey, OutputData> {
    if outs == [] then m
    else Saved(m, outs[..|outs| - 1])[outs[|outs| - 1].Key() := outs[|outs| - 1]]
  }

  // ----- sending: the keys of the change, the context, and the locking batch

  function CoinKey(c: ContextCoin): OutputKey {
    (c.0, c.1)
  }

  function CoinKeys(coins: seq<ContextCoin>): set<OutputKey> {
    set i | 0 <= i < |coins| :: CoinKey(coins[i])
  }

  function CoinSum(coins: seq<ContextCoin>): nat {
    if coins == [] then 0 else CoinSum(coins[..|coins| - 1]) + coins[|coins| - 1].2
  }

  function ContextInputs(coins: seq<OutputData>): (r: seq<ContextCoin>)
    ensures |r| == |coins|
  {
    seq(|coins|, i requires 0 <= i < |coins| => (coins[i].keyId, coins[i].mmrIndex, coins[i].value))
  }

  /** Change amount number `i` goes to the i-th key handed out next. */
  function ChangeCoins(st: State, amounts: seq<nat>): (r: seq<ContextCoin>)
    ensures |r| == |amounts|
  {
    seq(|amounts|, i requires 0 <= i < |amounts| => (st.active.Child(st.ChildIndex(st.active) + i), None, amounts[i]))
  }

  function AfterChildren(st: State, n: nat): State {
    if n == 0 then st else st.(childIndex := st.childIndex[st.active := st.ChildIndex(st.active) + n])
  }

  function SendContext(st: State, parent: Identifier, coins: seq<OutputData>, amounts: seq<nat>, own: SlateContext): Context {
    Context(parent, ContextInputs(coins), ChangeCoins(st, amounts), own)
  }

  /** `init_send_tx` once coins and fee are chosen: hand out the change keys and
      save the context of the slate's sender. */
  function InitSend(st: State, slateId: nat, parent: Identifier, coins: seq<OutputData>, amounts: seq<nat>, own: SlateContext): State {
    var ctx := SendContext(st, parent, coins, amounts, own);
    AfterChildren(st, |amounts|).(contexts := st.contexts[(slateId, 0) := ctx])
  }

  /** An output the wallet creates and waits to see confirmed. */
  function PendingOutput(root: Identifier, key: Identifier, value: nat, height: nat, logId: nat): OutputData {
    OutputData(root, key, key.LastPathIndex(), None, value, Unconfirmed, height, 0, false, Some(logId))
  }

  function ChangeOutputs(ctx: Context, height: nat, logId: nat): (r: seq<OutputData>)
    ensures |r| == |ctx.outputIds|
  {
    seq(|ctx.outputIds|, i requires 0 <= i < |ctx.outputIds| =>
      PendingOutput(ctx.parentKeyId, ctx.outputIds[i].0, ctx.outputIds[i].2, height, logId))
  }

  function LockedFor(o: OutputData, logId: nat): OutputData {
    o.(txLogEntry := Some(logId)).Lock()
  }

  function LockOutputs(m: map<OutputKey, OutputData>, keys: set<OutputKey>, logId: nat): map<OutputKey, OutputData> {
    map k | k in m :: if k in keys then LockedFor(m[k], logId) else m[k]
  }

  /** What the inputs are worth in the store. */
  function Debited(m: map<OutputKey, OutputData>, coins: seq<ContextCoin>): nat
    requires CoinKeys(coins) <= m.Keys
  {
    if coins == [] then 0
    else
      var front, last := coins[..|coins| - 1], coins[|coins| - 1];
      LastCoinIsKey(coins);
      Debited(m, front) + m[CoinKey(last)].value
  }

  lemma LastCoinIsKey(coins: seq<ContextCoin>)
    requires coins != []
    ensures CoinKeys(coins) == CoinKeys(coins[..|coins| - 1]) + {CoinKey(coins[|coins| - 1])}
  {
    var front := coins[..|coins| - 1];
    forall k | k in CoinKeys(coins) ensures k in CoinKeys(front) + {CoinKey(coins[|coins| - 1])} {
      var i :| 0 <= i < |coins| && CoinKey(coins[i]) == k;
      assert i < |front| ==> CoinKey(front[i]) == k;
    }
    forall k | k in CoinKeys(front) ensures k in CoinKeys(coins) {
      var i :| 0 <= i < |front| && CoinKey(front[i]) == k;
      assert CoinKey(coins[i]) == k;
    }
  }

  function SentEntry(m: map<OutputKey, OutputData>, ctx: Context, slateId: nat, fee: nat, logId: nat): TxLogEntry
    requires CoinKeys(ctx.inputIds) <= m.Keys
  {
    NewEntry(ctx.parentKeyId, TxSent, logId).(
      txSlateId := Some(slateId), fee := Some(fee),
      numInputs := |ctx.inputIds|, numOutputs := |ctx.outputIds|,
      amountDebited := Debited(m, ctx.inputIds), amountCredited := CoinSum(ctx.outputIds))
  }

  /** The batch of `lock_tx_context`: lock the inputs, store the change, log the send. */
  function Lock(st: State, ctx: Context, slateId: nat, height: nat, fee: nat): State
    requires CoinKeys(ctx.inputIds) <= st.outputs.Keys
  {
    var parent := ctx.parentKeyId;
    var logId := st.NextLogId(parent);
    st.AfterNextLogId(parent).(
      outputs := Saved(LockOutputs(st.outputs, CoinKeys(ctx.inputIds), logId), ChangeOutputs(ctx, height, logId)))
      .SaveLog(SentEntry(st.outputs, ctx, slateId, fee, logId))
  }

  // ----- receiving

  /** The slate was already received into the account. */
  predicate AlreadyReceived(st: State, parent: Identifier, slateId: nat) {
    exists k :: k in st.logs && st.logs[k].parentKeyId == parent
      && st.logs[k].txSlateId == Some(slateId) && st.logs[k].txType == TxReceived
  }

  /** The batch of `build_recipient_output`. */
  function StoreReceived(st: State, parent: Identifier, key: Identifier, slateId: nat, amount: nat, height: nat): State {
    var logId := st.NextLogId(parent);
    st.AfterNextLogId(parent)
      .SaveOutput(PendingOutput(parent, key, amount, height, logId))
      .SaveLog(NewEntry(parent, TxReceived, logId).(
                 txSlateId := Some(slateId), amountCredited := amount, numOutputs := 1))
  }

  /** Receiving on a fresh key. */
  function Receive(st: State, parent: Identifier, slateId: nat, amount: nat, height: nat): State {
    StoreReceived(st.AfterNextChild(), parent, st.NextKey(), slateId, amount, height)
  }

  const COINBASE_MATURITY: nat := 1_440

  function CoinbaseOutput(root: Identifier, key: Identifier, value: nat, height: nat): OutputData {
    OutputData(root, key, key.LastPathIndex(), None, value, Unconfirmed, height, height + COINBASE_MATURITY, true, None)
  }

  /** `receive_coinbase`, on the key asked for if something is stored under it, else on
      a fresh one. */
  function Coinbase(st: State, key: Option<Identifier>, value: nat, height: nat): State {
    if Replaces(st, key) then st.SaveOutput(CoinbaseOutput(st.active, key.value, value, height))
    else st.AfterNextChild().SaveOutput(CoinbaseOutput(st.active, st.NextKey(), value, height))
  }

  predicate Replaces(st: State, key: Option<Identifier>) {
    key.Some? && (key.value, None) in st.outputs
  }

  /** Nothing locked or spent is stored under the key. */
  predicate Replaceable(st: State, k: OutputKey) {
    k in st.outputs ==> st.outputs[k].status == Unspent || st.outputs[k].status == Unconfirmed
  }

  /** What a coinbase replaces is neither locked nor spent. */
  predicate MayReplace(st: State, key: Option<Identifier>) {
    key.Some? ==> Replaceable(st, (key.value, None))
  }

  // ----- cancelling

  predicate Cancellable(t: TxLogEntry) {
    (t.txType == TxSent || t.txType == TxReceived) && !t.confirmed
  }

  predicate BelongsTo(o: OutputData, t: TxLogEntry) {
    o.status != Spent && o.txLogEntry == Some(t.id) && o.rootKeyId == t.parentKeyId
  }

  function Unlocked(o: OutputData, t: TxLogEntry): OutputData {
    if BelongsTo(o, t) && o.status == Locked then o.(status := Unspent) else o
  }

  function Cancelled(t: TxLogEntry): TxLogEntry {
    if t.txType == TxSent then t.(txType := TxSentCancelled)
    else if t.txType == TxReceived then t.(txType := TxReceivedCancelled)
    else t
  }

  function CancelOutputs(m: map<OutputKey, OutputData>, t: TxLogEntry): map<OutputKey, OutputData> {
    map k | k in m && !(BelongsTo(m[k], t) && m[k].status == Unconfirmed) :: Unlocked(m[k], t)
  }

  /** The batch of `cancel_tx_and_outputs`. */
  function Cancel(st: State, t: TxLogEntry): State {
    st.(outputs := CancelOutputs(st.outputs, t)).SaveLog(Cancelled(t))
  }

  // ----- refreshing against a node

  predicate Outstanding(t: TxLogEntry) {
    !t.confirmed && (t.txType == TxReceived || t.txType == TxSent)
  }

  /** The outputs a refresh asks the node about. */
  predicate Tracked(st: State, parent: Identifier, updateAll: bool, o: OutputData) {
    && o.rootKeyId == parent && o.status != Spent
    && (|| updateAll || o.txLogEntry.None?
        || exists k :: k in st.logs && st.logs[k].parentKeyId == parent
             && st.logs[k].id == o.txLogEntry.value && Outstanding(st.logs[k]))
  }

  /** The map from commitments to keys that a refresh works on: each entry is the
      key of a tracked output, and each tracked output's commitment is in it. */
  ghost predicate Maps(st: State, parent: Identifier, updateAll: bool, tracked: map<OutputCommit, OutputKey>) {
    && (forall c :: c in tracked ==>
          tracked[c] in st.outputs && st.outputs[tracked[c]].Commit() == c
          && Tracked(st, parent, updateAll, st.outputs[tracked[c]]))
    && (forall k :: k in st.outputs && Tracked(st, parent, updateAll, st.outputs[k]) ==> st.outputs[k].Commit() in tracked)
  }

  /** The node's answer: the height at which each commitment it knows was confirmed. */
  type NodeAnswer = map<OutputCommit, nat>

  function ConfirmedEntry(parent: Identifier, logId: nat, o: OutputData): TxLogEntry {
    NewEntry(parent, ConfirmedCoinbase, logId).(confirmed := true, amountCredited := o.value, numOutputs := 1)
  }

  /** A coinbase found on the chain is logged as confirmed. */
  function MineCoinbase(st: State, o: OutputData, parent: Identifier, height: nat): State {
    var logId := st.NextLogId(parent);
    st.AfterNextLogId(parent)
      .SaveLog(ConfirmedEntry(parent, logId, o))
      .SaveOutput(o.(txLogEntry := Some(logId), height := height).MarkUnspent())
  }

  /** Another pending output found on the chain confirms the entry `t` it belongs to. */
  function ConfirmTx(st: State, t: TxLogEntry, o: OutputData, height: nat): State {
    st.SaveLog(t.(confirmed := true)).SaveOutput(o.(height := height).MarkUnspent())
  }

  /** The update of one output within the batch. The output and the log entry are
      read from the committed store `st0`; `st` is the batch so far. */
  function ApplyOne(st0: State, st: State, key: OutputKey, commit: OutputCommit, api: NodeAnswer, parent: Identifier): State {
    if key !in st0.outputs then st
    else
      var o := st0.outputs[key];
      if commit !in api then st.SaveOutput(o.MarkSpent())
      else if o.isCoinbase && o.status == Unconfirmed then MineCoinbase(st, o, parent, api[commit])
      else if o.status == Unconfirmed && o.txLogEntry.Some? && (parent, o.txLogEntry.value) in st0.logs then
        ConfirmTx(st, st0.logs[(parent, o.txLogEntry.value)], o, api[commit])
      else st.SaveOutput(o.(height := api[commit]).MarkUnspent())
  }

  /** The updates in the order in which the batch makes them. */
  function ApplyInOrder(st0: State, order: seq<OutputCommit>, tracked: map<OutputCommit, OutputKey>, api: NodeAnswer, parent: Identifier): State {
    if order == [] then st0
    else
      var commit := order[|order| - 1];
      var st := ApplyInOrder(st0, order[..|order| - 1], tracked, api, parent);
      if commit in tracked then ApplyOne(st0, st, tracked[commit], commit, api, parent) else st
  }

  /** The batch of `apply_api_outputs`. A node below the last confirmed height is
      not believed. */
  function Apply(st: State, order: seq<OutputCommit>, tracked: map<OutputCommit, OutputKey>, api: NodeAnswer, height: nat, parent: Identifier): State {
    if height < st.LastConfirmedHeight() then st
    else
      var st' := ApplyInOrder(st, order, tracked, api, parent);
      st'.(confirmedHeight := st'.confirmedHeight[st'.active := height])
  }

  ghost predicate Orders(order: seq<OutputCommit>, tracked: map<OutputCommit, OutputKey>) {
    && (forall i, j :: 0 <= i < j < |order| ==> order[i] != order[j])
    && (forall c :: c in order <==> c in tracked)
  }

  predicate IsStale(o: OutputData, height: nat) {
    height >= 50 && o.status == Unconfirmed && o.height > 0 && o.height < height - 50 && o.isCoinbase
  }

  function StaleKeys(m: map<OutputKey, OutputData>, height: nat): set<OutputKey> {
    set k | k in m && IsStale(m[k], height) :: (m[k].keyId, None)
  }

  /** The batch of `clean_old_unconfirmed`. */
  function Clean(st: State, height: nat): State {
    st.(outputs := st.outputs - StaleKeys(st.outputs, height))
  }

  function SwitchAccount(st: State, account: Identifier): State {
    st.(active := account)
  }

  function Finalize(st: State, slateId: nat): State {
    st.(contexts := st.contexts - {(slateId, 0)})
  }
}
