/** What a refresh does to each output and each entry, in terms of the records stored
    (src/internal/updater.rs:147-380). */
module LedgerRefresh {
  import opened Wrappers
  import opened Outputs
  import opened CoinSelection
  import opened Summary
  import opened Ledger
  import opened LedgerInvariant
  import opened LedgerSteps
  import opened LedgerRuns
  import opened LedgerEffects

  // ----- one output

  /** The node knows the commitment of the output. */
  predicate Known(o: OutputData, api: NodeAnswer) {
    (o.value, o.keyId) in api
  }

  /** A coinbase that waits to be mined and is found on the chain. */
  predicate IsMined(o: OutputData, api: NodeAnswer) {
    o.isCoinbase && o.status == Unconfirmed && Known(o, api)
  }

  /** The record of a mined coinbase. */
  predicate IsReward(t: TxLogEntry, p: Identifier, id: nat, value: nat) {
    && t.parentKeyId == p && t.id == id && t.txSlateId == None && t.txType == ConfirmedCoinbase && t.confirmed
    && t.numInputs == 0 && t.numOutputs == 1 && t.amountCredited == value && t.amountDebited == 0 && t.fee == None
  }

  /** An output the node does not know is spent, unless it is pending. One it knows is at
      the height it says and no longer pending; a coinbase then gets a new entry that
      credits it, and the entry another pending output names is confirmed. Nothing else of
      the output changes. */
  ghost predicate RefreshedAs(st: State, st': State, api: NodeAnswer, parent: Identifier, k: OutputKey)
    requires k in st.outputs && k in st'.outputs
  {
    var o, o' := st.outputs[k], st'.outputs[k];
    if !Known(o, api) then
      o' == o.(status := if o.status == Unspent || o.status == Locked then Spent else o.status)
    else
      var h := api[(o.value, o.keyId)];
      if o.isCoinbase && o.status == Unconfirmed then
        && o'.txLogEntry.Some? && o' == o.(status := Unspent, height := h, txLogEntry := o'.txLogEntry)
        && (parent, o'.txLogEntry.value) !in st.logs && (parent, o'.txLogEntry.value) in st'.logs
        && IsReward(st'.logs[(parent, o'.txLogEntry.value)], parent, o'.txLogEntry.value, o.value)
      else
        && o' == o.(height := h, status := if o.status == Unconfirmed then Unspent else o.status)
        && (o.status == Unconfirmed && o.txLogEntry.Some? ==>
              && (parent, o.txLogEntry.value) in st.logs && (parent, o.txLogEntry.value) in st'.logs
              && st'.logs[(parent, o.txLogEntry.value)] == st.logs[(parent, o.txLogEntry.value)].(confirmed := true))
  }

  /** The output is pending, no coinbase, known to the node, and names the entry. */
  predicate Confirms(o: OutputData, api: NodeAnswer, e: LogKey) {
    o.status == Unconfirmed && !o.isCoinbase && Known(o, api) && o.rootKeyId == e.0 && o.txLogEntry == Some(e.1)
  }

  /** Entries that were there are as they were, or confirmed by such an output. */
  ghost predicate OldEntries(st: State, st': State, api: NodeAnswer, done: set<OutputKey>) {
    forall e :: e in st.logs ==>
      && e in st'.logs
      && (|| st'.logs[e] == st.logs[e]
          || (st'.logs[e] == st.logs[e].(confirmed := true) && exists k :: k in done && k in st.outputs && Confirms(st.outputs[k], api, e)))
  }

  /** An output of `done` that was a coinbase found on the chain. */
  predicate MinedIn(st: State, st': State, api: NodeAnswer, done: set<OutputKey>, k: OutputKey) {
    k in done && k in st.outputs && k in st'.outputs && IsMined(st.outputs[k], api)
  }

  /** New ones are those of the coinbases found, one for each. */
  ghost predicate NewEntries(st: State, st': State, api: NodeAnswer, done: set<OutputKey>) {
    && (forall e :: e in st'.logs && e !in st.logs ==> exists k :: MinedIn(st, st', api, done, k) && NamesEntry(st'.outputs[k], e))
    && (forall k, k' :: MinedIn(st, st', api, done, k) && MinedIn(st, st', api, done, k') && k != k' ==>
          st'.outputs[k].txLogEntry != st'.outputs[k'].txLogEntry)
  }

  /** The outputs in `done` are refreshed, and all else is as before. */
  ghost predicate Refreshed(st: State, st': State, api: NodeAnswer, parent: Identifier, done: set<OutputKey>) {
    && st'.outputs.Keys == st.outputs.Keys && done <= st.outputs.Keys
    && (forall k :: k in done ==> RefreshedAs(st, st', api, parent, k))
    && (forall k :: k in st.outputs && k !in done ==> st'.outputs[k] == st.outputs[k])
    && OldEntries(st, st', api, done) && NewEntries(st, st', api, done)
    && st'.active == st.active && st'.childIndex == st.childIndex && st'.contexts == st.contexts
  }

  // ----- one update more

  /** What one update does to the log: a new entry for a mined coinbase, or one confirmed. */
  ghost predicate LogStep(st0: State, st: State, st': State, api: NodeAnswer, k: OutputKey)
    requires k in st0.outputs && k in st'.outputs
  {
    && (forall e :: e in st.logs ==>
          && e in st'.logs
          && (|| st'.logs[e] == st.logs[e]
              || (e in st0.logs && st'.logs[e] == st0.logs[e].(confirmed := true) && Confirms(st0.outputs[k], api, e))))
    && (forall e :: e in st'.logs && e !in st.logs ==> IsMined(st0.outputs[k], api) && NamesEntry(st'.outputs[k], e))
  }

  ghost predicate OneUpdate(st0: State, st: State, st': State, api: NodeAnswer, parent: Identifier, k: OutputKey) {
    && k in st0.outputs && k in st'.outputs && st'.outputs == st.outputs[k := st'.outputs[k]]
    && RefreshedAs(st0, st', api, parent, k) && LogStep(st0, st, st', api, k)
    && (IsMined(st0.outputs[k], api) ==> st'.outputs[k].txLogEntry.Some? && (parent, st'.outputs[k].txLogEntry.value) !in st.logs)
    && st'.active == st.active && st'.childIndex == st.childIndex && st'.contexts == st.contexts
  }

  lemma StaysRefreshed(st0: State, st: State, st': State, api: NodeAnswer, parent: Identifier, k: OutputKey, k': OutputKey)
    requires OneUpdate(st0, st, st', api, parent, k) && k' != k && k' in st0.outputs && k' in st.outputs
    requires RefreshedAs(st0, st, api, parent, k')
    ensures k' in st'.outputs && RefreshedAs(st0, st', api, parent, k')
  {
    assert st'.outputs[k'] == st.outputs[k'];
    hide IsReward;
  }

  lemma OldEntriesStep(st0: State, st: State, st': State, api: NodeAnswer, parent: Identifier, done: set<OutputKey>, k: OutputKey)
    requires OneUpdate(st0, st, st', api, parent, k) && OldEntries(st0, st, api, done)
    ensures OldEntries(st0, st', api, done + {k})
  {
    hide RefreshedAs, Confirms;
  }

  lemma NewEntriesStep(st0: State, st: State, st': State, api: NodeAnswer, parent: Identifier, done: set<OutputKey>, k: OutputKey)
    requires OneUpdate(st0, st, st', api, parent, k) && NewEntries(st0, st, api, done) && k !in done && done <= st.outputs.Keys
    requires forall k' :: k' in done && k' in st0.outputs && IsMined(st0.outputs[k'], api) ==>
      st.outputs[k'].txLogEntry.Some? && (parent, st.outputs[k'].txLogEntry.value) in st.logs
    ensures NewEntries(st0, st', api, done + {k})
  {
    forall e | e in st'.logs && e !in st0.logs ensures exists k' :: MinedIn(st0, st', api, done + {k}, k') && NamesEntry(st'.outputs[k'], e) {
      NewEntryNamed(st0, st, st', api, parent, done, k, e);
    }
    forall a, b | MinedIn(st0, st', api, done + {k}, a) && MinedIn(st0, st', api, done + {k}, b) && a != b
      ensures st'.outputs[a].txLogEntry != st'.outputs[b].txLogEntry
    {
      EntriesDiffer(st0, st, st', api, parent, done, k, a, b);
    }
    hide OneUpdate, MinedIn;
  }

  lemma NewEntryNamed(st0: State, st: State, st': State, api: NodeAnswer, parent: Identifier, done: set<OutputKey>, k: OutputKey, e: LogKey)
    requires OneUpdate(st0, st, st', api, parent, k) && NewEntries(st0, st, api, done) && k !in done
    requires e in st'.logs && e !in st0.logs
    ensures exists k' :: MinedIn(st0, st', api, done + {k}, k') && NamesEntry(st'.outputs[k'], e)
  {
    hide RefreshedAs, IsMined, Confirms;
    if e in st.logs {
      var k' :| MinedIn(st0, st, api, done, k') && NamesEntry(st.outputs[k'], e);
      assert st'.outputs[k'] == st.outputs[k'] && MinedIn(st0, st', api, done + {k}, k');
    } else {
      assert MinedIn(st0, st', api, done + {k}, k);
    }
  }

  lemma EntriesDiffer(st0: State, st: State, st': State, api: NodeAnswer, parent: Identifier, done: set<OutputKey>, k: OutputKey,
      a: OutputKey, b: OutputKey)
    requires OneUpdate(st0, st, st', api, parent, k) && NewEntries(st0, st, api, done) && k !in done && done <= st.outputs.Keys
    requires forall k' :: k' in done && k' in st0.outputs && IsMined(st0.outputs[k'], api) ==>
      st.outputs[k'].txLogEntry.Some? && (parent, st.outputs[k'].txLogEntry.value) in st.logs
    requires MinedIn(st0, st', api, done + {k}, a) && MinedIn(st0, st', api, done + {k}, b) && a != b
    ensures st'.outputs[a].txLogEntry != st'.outputs[b].txLogEntry
  {
    hide RefreshedAs, IsMined, Confirms, LogStep;
    assert a != k ==> MinedIn(st0, st, api, done, a) && st'.outputs[a] == st.outputs[a];
    assert b != k ==> MinedIn(st0, st, api, done, b) && st'.outputs[b] == st.outputs[b];
  }

  lemma MinedIsLogged(st0: State, st: State, api: NodeAnswer, parent: Identifier, k: OutputKey)
    requires k in st0.outputs && k in st.outputs && RefreshedAs(st0, st, api, parent, k)
    ensures IsMined(st0.outputs[k], api) ==>
      st.outputs[k].txLogEntry.Some? && (parent, st.outputs[k].txLogEntry.value) in st.logs
  {
    hide IsReward;
  }

  lemma RefreshedStep(st0: State, st: State, st': State, api: NodeAnswer, parent: Identifier, done: set<OutputKey>, k: OutputKey)
    requires Refreshed(st0, st, api, parent, done) && OneUpdate(st0, st, st', api, parent, k) && k !in done
    ensures Refreshed(st0, st', api, parent, done + {k})
  {
    forall k' | k' in done
      ensures IsMined(st0.outputs[k'], api) ==>
        st.outputs[k'].txLogEntry.Some? && (parent, st.outputs[k'].txLogEntry.value) in st.logs
      ensures k' in st'.outputs && RefreshedAs(st0, st', api, parent, k')
    {
      MinedIsLogged(st0, st, api, parent, k');
      StaysRefreshed(st0, st, st', api, parent, k, k');
    }
    OldEntriesStep(st0, st, st', api, parent, done, k);
    NewEntriesStep(st0, st, st', api, parent, done, k);
    hide RefreshedAs, OldEntries, NewEntries, LogStep, IsMined;
  }

  // ----- what the batch does is such an update

  lemma StoreIsUpdate(st0: State, st: State, o: OutputData, o': OutputData, api: NodeAnswer, parent: Identifier)
    requires o.Key() in st0.outputs && st0.outputs[o.Key()] == o && o'.Key() == o.Key()
    requires RefreshedAs(st0, st.SaveOutput(o'), api, parent, o.Key()) && !IsMined(o, api)
    ensures OneUpdate(st0, st, st.SaveOutput(o'), api, parent, o.Key())
  {
    hide RefreshedAs, IsMined;
  }

  lemma MineIsUpdate(st0: State, st: State, o: OutputData, api: NodeAnswer, parent: Identifier)
    requires o.Key() in st0.outputs && st0.outputs[o.Key()] == o && o.rootKeyId == parent && IsMined(o, api)
    requires (parent, st.NextLogId(parent)) !in st.logs && st0.logs.Keys <= st.logs.Keys
    ensures OneUpdate(st0, st, MineCoinbase(st, o, parent, api[(o.value, o.keyId)]), api, parent, o.Key())
  {
    var st' := MineCoinbase(st, o, parent, api[(o.value, o.keyId)]);
    assert st'.outputs[o.Key()].txLogEntry == Some(st.NextLogId(parent));
  }

  lemma ConfirmIsUpdate(st0: State, st: State, o: OutputData, api: NodeAnswer, parent: Identifier)
    requires o.Key() in st0.outputs && st0.outputs[o.Key()] == o && o.rootKeyId == parent && Known(o, api)
    requires o.status == Unconfirmed && !o.isCoinbase && o.txLogEntry.Some? && (parent, o.txLogEntry.value) in st0.logs
    requires var e := (parent, o.txLogEntry.value); (st0.logs[e].parentKeyId, st0.logs[e].id) == e && e in st.logs
    ensures OneUpdate(st0, st, ConfirmTx(st, st0.logs[(parent, o.txLogEntry.value)], o, api[(o.value, o.keyId)]), api, parent, o.Key())
  {
  }

  lemma VanishedIsUpdate(st0: State, st: State, o: OutputData, api: NodeAnswer, parent: Identifier)
    requires o.Key() in st0.outputs && st0.outputs[o.Key()] == o && o.status != Spent && !Known(o, api)
    ensures OneUpdate(st0, st, st.SaveOutput(o.MarkSpent()), api, parent, o.Key())
  {
    assert RefreshedAs(st0, st.SaveOutput(o.MarkSpent()), api, parent, o.Key());
    StoreIsUpdate(st0, st, o, o.MarkSpent(), api, parent);
  }

  lemma SeenIsUpdate(st0: State, st: State, o: OutputData, api: NodeAnswer, parent: Identifier)
    requires o.Key() in st0.outputs && st0.outputs[o.Key()] == o && o.status != Spent && Known(o, api)
    requires o.status == Unconfirmed ==> !o.isCoinbase && o.txLogEntry.None?
    ensures OneUpdate(st0, st, st.SaveOutput(o.(height := api[(o.value, o.keyId)]).MarkUnspent()), api, parent, o.Key())
  {
    var o' := o.(height := api[(o.value, o.keyId)]).MarkUnspent();
    assert RefreshedAs(st0, st.SaveOutput(o'), api, parent, o.Key());
    StoreIsUpdate(st0, st, o, o', api, parent);
  }

  lemma ApplyOneIsUpdate(st0: State, sent: History, st: State, k: OutputKey, api: NodeAnswer, parent: Identifier)
    requires Inv(st0, sent) && k in st0.outputs && st0.outputs[k].rootKeyId == parent && st0.outputs[k].status != Spent
    requires (parent, st.NextLogId(parent)) !in st.logs && st0.logs.Keys <= st.logs.Keys
    ensures OneUpdate(st0, st, ApplyOne(st0, st, k, (st0.outputs[k].value, st0.outputs[k].keyId), api, parent), api, parent, k)
  {
    var o := st0.outputs[k];
    OutputIsOk(st0, sent, k);
    if o.txLogEntry.Some? {
      EntryIsOk(st0, sent, EntryOf(o));
    }
    hide Inv, OneUpdate, RefreshedAs, MineCoinbase, ConfirmTx, OutputData.MarkSpent, OutputData.MarkUnspent;
    if !Known(o, api) {
      VanishedIsUpdate(st0, st, o, api, parent);
    } else if o.isCoinbase && o.status == Unconfirmed {
      MineIsUpdate(st0, st, o, api, parent);
    } else if o.status == Unconfirmed && o.txLogEntry.Some? {
      ConfirmIsUpdate(st0, st, o, api, parent);
    } else {
      SeenIsUpdate(st0, st, o, api, parent);
    }
  }

  // ----- the whole batch

  ghost function Done(tracked: map<OutputCommit, OutputKey>, order: seq<OutputCommit>): set<OutputKey> {
    set c | c in tracked && c in order :: tracked[c]
  }

  lemma OneMoreDone(st: State, tracked: map<OutputCommit, OutputKey>, order: seq<OutputCommit>)
    requires forall c :: c in tracked ==> tracked[c] in st.outputs && st.outputs[tracked[c]].Commit() == c
    requires forall i, j :: 0 <= i < j < |order| ==> order[i] != order[j]
    requires order != [] && order[|order| - 1] in tracked
    ensures var k := tracked[order[|order| - 1]];
      k !in Done(tracked, order[..|order| - 1]) && Done(tracked, order) == Done(tracked, order[..|order| - 1]) + {k}
  {
    var front, commit := order[..|order| - 1], order[|order| - 1];
    assert forall c :: c in order <==> c in front || c == commit;
    assert commit !in front;
  }

  lemma {:induction false} ApplyRefreshes(st: State, sent: History, order: seq<OutputCommit>, tracked: map<OutputCommit, OutputKey>,
      api: NodeAnswer, parent: Identifier, updateAll: bool)
    requires Inv(st, sent) && Maps(st, parent, updateAll, tracked)
    requires forall i, j :: 0 <= i < j < |order| ==> order[i] != order[j]
    requires forall c :: c in order ==> c in tracked
    ensures Refreshed(st, ApplyInOrder(st, order, tracked, api, parent), api, parent, Done(tracked, order))
  {
    if order == [] {
      NothingRefreshed(st, api, parent);
      assert Done(tracked, []) == {};
      hide Inv, Maps, Refreshed;
    } else {
      var front, commit := order[..|order| - 1], order[|order| - 1];
      hide Inv, Maps, Done, ApplyOne, Refreshed;
      ApplyRefreshes(st, sent, front, tracked, api, parent, updateAll);
      FrontKeepsInv(st, sent, front, tracked, api, parent, updateAll);
      OneMoreRefreshed(st, sent, ApplyInOrder(st, front, tracked, api, parent), order, tracked, api, parent, updateAll);
    }
  }

  lemma OneMoreRefreshed(st: State, sent: History, mid: State, order: seq<OutputCommit>, tracked: map<OutputCommit, OutputKey>,
      api: NodeAnswer, parent: Identifier, updateAll: bool)
    requires Inv(st, sent) && Inv(mid, sent) && Maps(st, parent, updateAll, tracked)
    requires forall i, j :: 0 <= i < j < |order| ==> order[i] != order[j]
    requires order != [] && order[|order| - 1] in tracked
    requires Refreshed(st, mid, api, parent, Done(tracked, order[..|order| - 1]))
    ensures var commit := order[|order| - 1];
      Refreshed(st, ApplyOne(st, mid, tracked[commit], commit, api, parent), api, parent, Done(tracked, order))
  {
    var front, commit := order[..|order| - 1], order[|order| - 1];
    OneMoreDone(st, tracked, order);
    TrackedIsOk(st, sent, parent, updateAll, tracked, commit);
    hide Inv, Maps, Done, ApplyOne, OneUpdate, Refreshed;
    NextLogIdIsNew(mid, sent, parent);
    OldKeysStay(st, mid, api, Done(tracked, front), parent);
    ApplyOneIsUpdate(st, sent, mid, tracked[commit], api, parent);
    RefreshedStep(st, mid, ApplyOne(st, mid, tracked[commit], commit, api, parent), api, parent, Done(tracked, front), tracked[commit]);
  }

  lemma NothingRefreshed(st: State, api: NodeAnswer, parent: Identifier)
    ensures Refreshed(st, st, api, parent, {})
  {
    hide RefreshedAs;
  }

  lemma FrontKeepsInv(st: State, sent: History, order: seq<OutputCommit>, tracked: map<OutputCommit, OutputKey>,
      api: NodeAnswer, parent: Identifier, updateAll: bool)
    requires Inv(st, sent) && Maps(st, parent, updateAll, tracked)
    requires forall i, j :: 0 <= i < j < |order| ==> order[i] != order[j]
    requires forall c :: c in order ==> c in tracked
    ensures Inv(ApplyInOrder(st, order, tracked, api, parent), sent)
  {
    hide Inv, Maps, ApplyInOrder, Halfway, EntriesNumbered, SpentStays, CountersGrow;
    StartIsGood(st, sent, Pending(tracked, []));
    ApplyInOrderIsGood(st, sent, order, tracked, api, parent, updateAll);
  }

  lemma OldKeysStay(st: State, st': State, api: NodeAnswer, done: set<OutputKey>, parent: Identifier)
    requires Refreshed(st, st', api, parent, done)
    ensures st.logs.Keys <= st'.logs.Keys
  {
    hide RefreshedAs, NewEntries;
  }

  /** What a refresh asks the node about: every output of the account that is not spent and,
      unless all are asked for, names no entry or that of a send or receipt not confirmed. */
  lemma TrackedExactly(st: State, sent: History, parent: Identifier, updateAll: bool, tracked: map<OutputCommit, OutputKey>)
    requires Inv(st, sent) && Maps(st, parent, updateAll, tracked)
    ensures forall k :: k in st.outputs && IsAsked(st, parent, updateAll, k) ==> (st.outputs[k].value, st.outputs[k].keyId) in tracked
    ensures forall c :: c in tracked ==>
      tracked[c] in st.outputs && IsAsked(st, parent, updateAll, tracked[c])
      && (st.outputs[tracked[c]].value, st.outputs[tracked[c]].keyId) == c
  {
    hide Inv, Tracked, IsAsked;
    forall k | k in st.outputs ensures IsAsked(st, parent, updateAll, k) <==> Tracked(st, parent, updateAll, st.outputs[k]) {
      AskedIsTracked(st, sent, parent, updateAll, k);
    }
  }

  predicate IsAsked(st: State, parent: Identifier, updateAll: bool, k: OutputKey)
    requires k in st.outputs
  {
    var o := st.outputs[k];
    && o.rootKeyId == parent && o.status != Spent
    && (|| updateAll || o.txLogEntry == None
        || ((parent, o.txLogEntry.value) in st.logs
            && var t := st.logs[(parent, o.txLogEntry.value)]; !t.confirmed && (t.txType == TxSent || t.txType == TxReceived)))
  }

  lemma AskedIsTracked(st: State, sent: History, parent: Identifier, updateAll: bool, k: OutputKey)
    requires Inv(st, sent) && k in st.outputs
    ensures IsAsked(st, parent, updateAll, k) <==> Tracked(st, parent, updateAll, st.outputs[k])
  {
    var o := st.outputs[k];
    if o.txLogEntry.Some? {
      var e := (parent, o.txLogEntry.value);
      forall e' | e' in st.logs && st.logs[e'].parentKeyId == parent && st.logs[e'].id == o.txLogEntry.value ensures e' == e {
        EntryIsOk(st, sent, e');
      }
      if e in st.logs {
        EntryIsOk(st, sent, e);
      }
    }
    hide Inv;
  }

  /** A refresh by a node that is not below the last confirmed height refreshes exactly the
      outputs it asks about, and notes the height. A lower node changes nothing. */
  lemma RefreshEffect(st: State, sent: History, parent: Identifier, updateAll: bool, tracked: map<OutputCommit, OutputKey>,
      order: seq<OutputCommit>, api: NodeAnswer, height: nat)
    requires Inv(st, sent) && Maps(st, parent, updateAll, tracked) && Orders(order, tracked)
    ensures var st' := Apply(st, order, tracked, api, height, parent);
      if height < Count(st.confirmedHeight, st.active) then st' == st
      else
        && Refreshed(st, st', api, parent, tracked.Values)
        && Count(st'.confirmedHeight, st.active) == height
  {
    AllDone(tracked, order);
    OrderIs(tracked, order);
    hide *;
    ApplyRefreshes(st, sent, order, tracked, api, parent, updateAll);
    var mid := ApplyInOrder(st, order, tracked, api, parent);
    HeightIsNoted(st, mid, api, parent, tracked.Values, height);
    ApplyParts(st, order, tracked, api, height, parent);
    HeightIs(mid, height);
  }

  lemma OrderIs(tracked: map<OutputCommit, OutputKey>, order: seq<OutputCommit>)
    requires Orders(order, tracked)
    ensures (forall i, j :: 0 <= i < j < |order| ==> order[i] != order[j]) && forall c :: c in order ==> c in tracked
  {
  }

  lemma ApplyParts(st: State, order: seq<OutputCommit>, tracked: map<OutputCommit, OutputKey>, api: NodeAnswer, height: nat, parent: Identifier)
    ensures var mid := ApplyInOrder(st, order, tracked, api, parent);
      Apply(st, order, tracked, api, height, parent)
        == if height < Count(st.confirmedHeight, st.active) then st
           else mid.(confirmedHeight := mid.confirmedHeight[mid.active := height])
  {
    hide ApplyInOrder;
  }

  lemma HeightIs(mid: State, height: nat)
    ensures Count(mid.(confirmedHeight := mid.confirmedHeight[mid.active := height]).confirmedHeight, mid.active) == height
  {
  }

  lemma AllDone(tracked: map<OutputCommit, OutputKey>, order: seq<OutputCommit>)
    requires Orders(order, tracked)
    ensures Done(tracked, order) == tracked.Values
  {
  }

  lemma HeightIsNoted(st: State, st': State, api: NodeAnswer, parent: Identifier, done: set<OutputKey>, height: nat)
    requires Refreshed(st, st', api, parent, done)
    ensures var noted := st'.(confirmedHeight := st'.confirmedHeight[st'.active := height]);
      Refreshed(st, noted, api, parent, done) && noted.active == st.active
  {
    var noted := st'.(confirmedHeight := st'.confirmedHeight[st'.active := height]);
    forall k | k in done ensures RefreshedAs(st, noted, api, parent, k) {
      SameRefreshed(st, st', noted, api, parent, k);
    }
    hide RefreshedAs, IsMined, Confirms;
    assert OldEntries(st, noted, api, done);
    NewEntriesSame(st, st', noted, api, done);
    hide OldEntries, NewEntries;
  }

  lemma SameRefreshed(st: State, st': State, noted: State, api: NodeAnswer, parent: Identifier, k: OutputKey)
    requires k in st.outputs && k in st'.outputs && RefreshedAs(st, st', api, parent, k)
    requires noted.outputs == st'.outputs && noted.logs == st'.logs
    ensures RefreshedAs(st, noted, api, parent, k)
  {
    hide IsReward;
  }

  lemma NewEntriesSame(st: State, st': State, noted: State, api: NodeAnswer, done: set<OutputKey>)
    requires NewEntries(st, st', api, done) && noted.outputs == st'.outputs && noted.logs == st'.logs
    ensures NewEntries(st, noted, api, done)
  {
    hide IsMined;
    assert forall k :: MinedIn(st, noted, api, done, k) <==> MinedIn(st, st', api, done, k);
    hide MinedIn;
  }

  // ----- a refresh as a step of the wallet

  /** A coinbase that is pending for more than 50 blocks. */
  predicate IsOld(o: OutputData, tip: nat) {
    o.isCoinbase && o.status == Unconfirmed && 0 < o.height && o.height + 50 < tip
  }

  /** In a step of a refresh, of the outputs that are asked about by a node that is believed
      those are deleted that stay pending coinbases for more than 50 blocks, and all others
      are refreshed; of the rest only such coinbases are deleted. */
  lemma StepRefreshes(st: State, sent: History, step: Step, st': State, sent': History, k: OutputKey)
    requires Inv(st, sent) && Next(st, sent, step, st', sent') && step.RefreshStep? && k in st.outputs
    ensures var o := st.outputs[k];
      var asked := k in step.tracked.Values && step.height >= Count(st.confirmedHeight, st.active);
      if IsOld(o, step.height) && !(asked && Known(o, step.api)) then k !in st'.outputs
      else
        && k in st'.outputs
        && if asked then RefreshedAs(st, st', step.api, step.parent, k) else st'.outputs[k] == o
  {
    StepParts(st, sent, step, st', sent');
    hide *;
    var mid := Apply(st, step.order, step.tracked, step.api, step.height, step.parent);
    RefreshEffect(st, sent, step.parent, step.updateAll, step.tracked, step.order, step.api, step.height);
    ApplyKept(st, sent, step);
    CleanEffect(mid, sent, step.height);
    if step.height >= Count(st.confirmedHeight, st.active) {
      MidAt(st, mid, step.api, step.parent, step.tracked.Values, k, step.height);
    }
    CleanedAt(mid, st', step.height, k);
    if k in st'.outputs && step.height >= Count(st.confirmedHeight, st.active) && k in step.tracked.Values {
      CleanKeepsRefreshed(st, mid, st', step.api, step.parent, k);
    }
  }

  lemma StepParts(st: State, sent: History, step: Step, st': State, sent': History)
    requires Next(st, sent, step, st', sent') && step.RefreshStep?
    ensures Maps(st, step.parent, step.updateAll, step.tracked) && Orders(step.order, step.tracked)
    ensures st' == Clean(Apply(st, step.order, step.tracked, step.api, step.height, step.parent), step.height)
  {
    hide Maps, Orders, Apply, Clean;
  }

  lemma ApplyKept(st: State, sent: History, step: Step)
    requires Inv(st, sent) && step.RefreshStep? && Maps(st, step.parent, step.updateAll, step.tracked) && Orders(step.order, step.tracked)
    ensures Inv(Apply(st, step.order, step.tracked, step.api, step.height, step.parent), sent)
  {
    hide Inv, Maps, Orders, Apply, SpentStays, CountersGrow;
    ApplyKeeps(st, sent, step.order, step.tracked, step.api, step.height, step.parent, step.updateAll);
  }

  lemma MidAt(st: State, mid: State, api: NodeAnswer, parent: Identifier, done: set<OutputKey>, k: OutputKey, tip: nat)
    requires Refreshed(st, mid, api, parent, done) && k in st.outputs
    ensures k in mid.outputs
    ensures if k in done then RefreshedAs(st, mid, api, parent, k) && (IsOld(mid.outputs[k], tip) <==> IsOld(st.outputs[k], tip) && !Known(st.outputs[k], api))
            else mid.outputs[k] == st.outputs[k]
  {
    if k in done {
      RefreshedAt(st, mid, api, parent, done, k);
      OldAfter(st, mid, api, parent, k, tip);
    } else {
      NotRefreshedAt(st, mid, api, parent, done, k);
    }
    hide Refreshed, RefreshedAs, IsOld;
  }

  lemma RefreshedAt(st: State, st': State, api: NodeAnswer, parent: Identifier, done: set<OutputKey>, k: OutputKey)
    requires Refreshed(st, st', api, parent, done) && k in done
    ensures k in st.outputs && k in st'.outputs && RefreshedAs(st, st', api, parent, k)
  {
    hide RefreshedAs, OldEntries, NewEntries;
  }

  lemma NotRefreshedAt(st: State, st': State, api: NodeAnswer, parent: Identifier, done: set<OutputKey>, k: OutputKey)
    requires Refreshed(st, st', api, parent, done) && k !in done && k in st.outputs
    ensures k in st'.outputs && st'.outputs[k] == st.outputs[k]
  {
    hide RefreshedAs, OldEntries, NewEntries;
  }

  lemma CleanedAt(mid: State, st': State, tip: nat, k: OutputKey)
    requires k in mid.outputs && st'.(outputs := mid.outputs) == mid
    requires k in st'.outputs <==> k in mid.outputs && !(mid.outputs[k].isCoinbase && mid.outputs[k].status == Unconfirmed
                                                       && 0 < mid.outputs[k].height && mid.outputs[k].height + 50 < tip)
    requires k in st'.outputs ==> st'.outputs[k] == mid.outputs[k]
    ensures st'.logs == mid.logs
    ensures if IsOld(mid.outputs[k], tip) then k !in st'.outputs else k in st'.outputs && st'.outputs[k] == mid.outputs[k]
  {
  }

  lemma OldAfter(st: State, mid: State, api: NodeAnswer, parent: Identifier, k: OutputKey, tip: nat)
    requires k in st.outputs && k in mid.outputs && RefreshedAs(st, mid, api, parent, k)
    ensures IsOld(mid.outputs[k], tip) <==> IsOld(st.outputs[k], tip) && !Known(st.outputs[k], api)
  {
    hide IsReward;
  }

  lemma CleanKeepsRefreshed(st: State, mid: State, st': State, api: NodeAnswer, parent: Identifier, k: OutputKey)
    requires k in st.outputs && k in mid.outputs && k in st'.outputs && RefreshedAs(st, mid, api, parent, k)
    requires st'.outputs[k] == mid.outputs[k] && st'.logs == mid.logs
    ensures RefreshedAs(st, st', api, parent, k)
  {
    hide IsReward;
  }

  /** So an output that a believed node reports at height `h0` can be spent with `m`
      confirmations from height `h0 + m - 1` on, if its lock height is reached and no send
      has locked it. */
  lemma ReportedIsSelectable(st: State, sent: History, step: Step, st': State, sent': History, k: OutputKey,
      outs: seq<OutputData>, h: nat, m: nat)
    requires Inv(st, sent) && Next(st, sent, step, st', sent') && step.RefreshStep? && k in step.tracked.Values && k in st.outputs
    requires step.height >= Count(st.confirmedHeight, st.active) && Known(st.outputs[k], step.api)
    requires var o := st.outputs[k]; o.status != Locked && o.status != Spent && o.rootKeyId == step.parent
    requires m >= 1 && step.api[(st.outputs[k].value, st.outputs[k].keyId)] > 0 && Enumerates(outs, st'.outputs)
    ensures k in st'.outputs
    ensures var o, h0 := st'.outputs[k], step.api[(st.outputs[k].value, st.outputs[k].keyId)];
      o in Eligible(outs, step.parent, h, m) <==> h >= h0 + m - 1 && o.lockHeight <= h
  {
    StepRefreshes(st, sent, step, st', sent', k);
    ReportedRecord(st, st', step.api, step.parent, k);
    hide RefreshedAs, Next, Inv;
    var o := st'.outputs[k];
    ListedStored(outs, st'.outputs, k);
    EligibleExactly(outs, step.parent, h, m, o);
    hide Enumerates, Eligible;
    assert o in Eligible(outs, step.parent, h, m) <==> multiset(Eligible(outs, step.parent, h, m))[o] > 0;
  }

  lemma ListedStored(outs: seq<OutputData>, m: map<OutputKey, OutputData>, k: OutputKey)
    requires Enumerates(outs, m) && k in m
    ensures multiset(outs)[m[k]] > 0
  {
    var i :| 0 <= i < |outs| && KeysOf(outs)[i] == k;
    assert outs[i] == m[k];
  }

  lemma ReportedRecord(st: State, st': State, api: NodeAnswer, parent: Identifier, k: OutputKey)
    requires k in st.outputs && k in st'.outputs && RefreshedAs(st, st', api, parent, k) && Known(st.outputs[k], api)
    requires st.outputs[k].status == Unspent || st.outputs[k].status == Unconfirmed
    ensures var o, o' := st.outputs[k], st'.outputs[k];
      o'.status == Unspent && o'.height == api[(o.value, o.keyId)] && o'.rootKeyId == o.rootKeyId
  {
    hide IsReward;
  }
}
