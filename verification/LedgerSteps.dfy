/** Each batch that logs no send keeps the invariant, and spent outputs stay. */
module LedgerSteps {
  import opened Wrappers
  import opened Outputs
  import opened Ledger
  import opened LedgerInvariant

  /** What a step keeps. */
  ghost predicate Keeps(st: State, st': State, sent: History, sent': History) {
    Inv(st', sent') && SpentStays(st, st') && CountersGrow(st, st')
  }

  lemma ContextsStayHandedOut(st: State, st': State, sent: History)
    requires Inv(st, sent) && CountersGrow(st, st')
    requires forall c :: c in st'.contexts ==> c in st.contexts && st'.contexts[c] == st.contexts[c]
    ensures forall c :: c in st'.contexts ==> ContextOk(st', c)
  {
    hide Inv, CountersGrow;
    forall c | c in st'.contexts ensures ContextOk(st', c) {
      ContextIsOk(st, sent, c);
      CoinsStayHandedOut(st, st', st.contexts[c].inputIds);
      CoinsStayHandedOut(st, st', st.contexts[c].outputIds);
    }
  }

  lemma CoinsStayHandedOut(st: State, st': State, coins: seq<ContextCoin>)
    requires CountersGrow(st, st') && CoinsHandedOut(st, coins)
    ensures CoinsHandedOut(st', coins)
  {
    forall i | 0 <= i < |coins| ensures HandedOut(st', coins[i].0) {
      assert HandedOut(st, coins[i].0);
      assert st.ChildIndex(coins[i].0.ParentPath()) <= st'.ChildIndex(coins[i].0.ParentPath());
    }
  }

  lemma KeepsCompose(a: State, b: State, c: State, sent: History, sent': History)
    requires SpentStays(a, b) && CountersGrow(a, b) && Keeps(b, c, sent, sent')
    ensures Keeps(a, c, sent, sent')
  {
    forall k | k in a.outputs && a.outputs[k].status == Spent ensures k in c.outputs && c.outputs[k] == a.outputs[k] {
      assert b.outputs[k] == a.outputs[k];
    }
    forall p ensures a.ChildIndex(p) <= c.ChildIndex(p) && a.NextLogId(p) <= c.NextLogId(p) {
      assert a.ChildIndex(p) <= b.ChildIndex(p) && a.NextLogId(p) <= b.NextLogId(p);
    }
  }

  /** What makes a batch keep what it must. */
  lemma BatchKeeps(st: State, st': State, sent: History)
    requires Inv(st, sent) && CountersGrow(st, st') && st.logs.Keys <= st'.logs.Keys
    requires forall k :: k in st'.outputs ==> OutputFollows(st, st', k)
    requires forall k :: k in st.outputs ==> OutputIsKept(st, st', k)
    requires forall e :: e in st'.logs ==> EntryFollows(st, st', e)
    requires forall c :: c in st'.contexts ==> c in st.contexts && st'.contexts[c] == st.contexts[c]
    ensures Keeps(st, st', sent, sent)
  {
    hide Inv, CountersGrow, OutputFollows, OutputIsKept, EntryFollows, ContextOk, SpentStays;
    ContextsStayHandedOut(st, st', sent);
    FollowsKeepsInv(st, st', sent);
  }

  // ----- the small steps that batches are made of

  /** The outputs are untouched, and no live send lost its entry. */
  lemma SameOutputs(st: State, st': State, sent: History)
    requires Inv(st, sent) && st'.outputs == st.outputs && st.logs.Keys <= st'.logs.Keys
    requires forall e :: Live(st, e) ==> Live(st', e)
    ensures forall k :: k in st.outputs ==> OutputFollows(st, st', k) && OutputIsKept(st, st', k)
  {
    hide Inv;
    forall k | k in st.outputs ensures OutputFollows(st, st', k) && OutputIsKept(st, st', k) {
      OutputIsOk(st, sent, k);
    }
  }

  lemma ChildKeeps(st: State, sent: History)
    requires Inv(st, sent)
    ensures Keeps(st, st.AfterNextChild(), sent, sent)
    ensures HandedOut(st.AfterNextChild(), st.NextKey()) && (st.NextKey(), None) !in st.outputs
  {
    var st' := st.AfterNextChild();
    NextKeyIsNew(st, sent, 0);
    ContextsStayHandedOut(st, st', sent);
    SameOutputsAndLogs(st, st', sent);
  }

  /** Numbering and logging a new entry that is not a send. */
  lemma EntryKeeps(st: State, sent: History, t: TxLogEntry)
    requires Inv(st, sent) && t.id == st.NextLogId(t.parentKeyId) && t.txType != TxSent
    ensures Keeps(st, st.AfterNextLogId(t.parentKeyId).SaveLog(t), sent, sent)
  {
    var st' := st.AfterNextLogId(t.parentKeyId).SaveLog(t);
    NextLogIdIsNew(st, sent, t.parentKeyId);
    CountersGrowByEntry(st, t);
    LiveStays(st, st');
    hide Inv, OutputFollows, OutputIsKept, EntryFollows, Keeps, CountersGrow, Live;
    SameOutputs(st, st', sent);
    forall e | e in st'.logs ensures EntryFollows(st, st', e) {
      NewEntryFollows(st, sent, t, e);
    }
    BatchKeeps(st, st', sent);
  }

  /** Sends stay live when entries keep their types. */
  lemma LiveStays(st: State, st': State)
    requires forall e :: e in st.logs ==> e in st'.logs && st'.logs[e].txType == st.logs[e].txType
    ensures forall e :: Live(st, e) ==> Live(st', e)
  {
  }

  lemma CountersGrowByEntry(st: State, t: TxLogEntry)
    ensures CountersGrow(st, st.AfterNextLogId(t.parentKeyId).SaveLog(t))
  {
  }

  lemma NewEntryFollows(st: State, sent: History, t: TxLogEntry, e: LogKey)
    requires Inv(st, sent) && t.id == st.NextLogId(t.parentKeyId) && t.txType != TxSent
    requires e in st.AfterNextLogId(t.parentKeyId).SaveLog(t).logs
    ensures EntryFollows(st, st.AfterNextLogId(t.parentKeyId).SaveLog(t), e)
  {
    if e in st.logs {
      EntryIsOk(st, sent, e);
    }
    hide Inv;
  }

  /** Entries that are untouched follow. */
  lemma SameEntryFollows(st: State, st': State, sent: History, e: LogKey)
    requires Inv(st, sent) && e in st.logs && e in st'.logs && st'.logs[e] == st.logs[e]
    requires st.NextLogId(e.0) <= st'.NextLogId(e.0)
    ensures EntryFollows(st, st', e)
  {
    EntryIsOk(st, sent, e);
    hide Inv;
  }

  /** Writing an entry again, its type kept. */
  lemma RewriteEntryKeeps(st: State, sent: History, e: LogKey, t: TxLogEntry)
    requires Inv(st, sent) && e in st.logs && t.parentKeyId == e.0 && t.id == e.1
    requires t.txType == st.logs[e].txType
    ensures Keeps(st, st.SaveLog(t), sent, sent)
  {
    var st' := st.SaveLog(t);
    assert CountersGrow(st, st');
    LiveStays(st, st');
    hide Inv, OutputFollows, OutputIsKept, EntryFollows, Keeps, CountersGrow, Live;
    SameOutputs(st, st', sent);
    forall e' | e' in st'.logs ensures EntryFollows(st, st', e') {
      RewrittenFollows(st, sent, e, t, e');
    }
    BatchKeeps(st, st', sent);
  }

  lemma RewrittenFollows(st: State, sent: History, e: LogKey, t: TxLogEntry, e': LogKey)
    requires Inv(st, sent) && e in st.logs && t.parentKeyId == e.0 && t.id == e.1
    requires t.txType == st.logs[e].txType && e' in st.SaveLog(t).logs
    ensures EntryFollows(st, st.SaveLog(t), e')
  {
    EntryIsOk(st, sent, e');
    hide Inv;
  }

  /** A pending output that may be stored: on a key that was handed out, where nothing
      locked or spent is, with an entry that is logged. */
  predicate PendingFits(st: State, o: OutputData) {
    && o.mmrIndex.None? && HandedOut(st, o.keyId) && o.status == Unconfirmed && Replaceable(st, o.Key())
    && (o.txLogEntry.Some? ==> EntryOf(o) in st.logs)
  }

  lemma PendingKeeps(st: State, sent: History, o: OutputData)
    requires Inv(st, sent) && PendingFits(st, o)
    ensures Keeps(st, st.SaveOutput(o), sent, sent)
  {
    var st' := st.SaveOutput(o);
    hide Inv, OutputOk, EntryOk, SendOk, ContextOk, NoDoubleSpend, PendingFits;
    forall k | k in st'.outputs ensures OutputOk(st', sent, k) {
      PendingOutputOk(st, sent, o, k);
    }
    forall e | e in sent ensures SendOk(st', sent, e) {
      PendingSendOk(st, sent, o, e);
    }
    OthersOk(st, st', sent);
    PendingKeepsSpent(st, o);
  }

  lemma PendingOutputOk(st: State, sent: History, o: OutputData, k: OutputKey)
    requires Inv(st, sent) && PendingFits(st, o) && k in st.SaveOutput(o).outputs
    ensures OutputOk(st.SaveOutput(o), sent, k)
  {
    if k != o.Key() {
      OutputIsOk(st, sent, k);
    }
    hide Inv;
  }

  lemma PendingKeepsSpent(st: State, o: OutputData)
    requires PendingFits(st, o)
    ensures SpentStays(st, st.SaveOutput(o)) && CountersGrow(st, st.SaveOutput(o))
  {
  }

  /** A live send holds its inputs, so what may be replaced is none. */
  lemma NotHeld(st: State, sent: History, k: OutputKey, e: LogKey)
    requires Inv(st, sent) && Replaceable(st, k) && e in sent && Live(st, e)
    ensures k !in sent[e]
  {
    SendIsOk(st, sent, e);
    hide Inv;
    assert k in sent[e] ==> Held(st, k, e);
  }

  lemma PendingSendOk(st: State, sent: History, o: OutputData, e: LogKey)
    requires Inv(st, sent) && PendingFits(st, o) && e in sent
    ensures SendOk(st.SaveOutput(o), sent, e)
  {
    SendIsOk(st, sent, e);
    if Live(st, e) {
      NotHeld(st, sent, o.Key(), e);
      hide Inv, PendingFits;
      forall k | k in sent[e] ensures Held(st.SaveOutput(o), k, e) {
        assert Held(st, k, e);
      }
    }
    hide Inv;
  }

  lemma OthersOk(st: State, st': State, sent: History)
    requires Inv(st, sent) && st'.(outputs := st.outputs) == st
    requires forall k :: k in st'.outputs ==> OutputOk(st', sent, k)
    requires forall e :: e in sent ==> SendOk(st', sent, e)
    ensures Inv(st', sent)
  {
    hide OutputOk, SendOk;
  }

  /** What a refresh may do to an output: a locked one stays locked for its send or
      becomes spent, and no other becomes locked. */
  ghost predicate Refreshes(o: OutputData, o': OutputData) {
    && o'.Key() == o.Key() && o'.rootKeyId == o.rootKeyId && o.status != Spent
    && (o'.status == Locked ==> o.status == Locked)
    && (o'.status == Unconfirmed ==> o.status == Unconfirmed)
    && (o.status == Locked ==> o'.txLogEntry == o.txLogEntry && (o'.status == Locked || o'.status == Spent))
  }

  lemma UpdateKeeps(st: State, sent: History, o': OutputData)
    requires Inv(st, sent) && o'.Key() in st.outputs && Refreshes(st.outputs[o'.Key()], o')
    requires o'.txLogEntry.Some? ==> EntryOf(o') in st.logs
    ensures Keeps(st, st.SaveOutput(o'), sent, sent)
  {
    var st' := st.SaveOutput(o');
    assert CountersGrow(st, st');
    hide Inv, OutputFollows, OutputIsKept, EntryFollows, Keeps, CountersGrow, Live, Refreshes;
    forall k | k in st'.outputs ensures OutputFollows(st, st', k) && OutputIsKept(st, st', k) {
      UpdateFollows(st, sent, o', k);
    }
    forall e | e in st'.logs ensures EntryFollows(st, st', e) {
      SameEntryFollows(st, st', sent, e);
    }
    BatchKeeps(st, st', sent);
  }

  lemma UpdateFollows(st: State, sent: History, o': OutputData, k: OutputKey)
    requires Inv(st, sent) && o'.Key() in st.outputs && Refreshes(st.outputs[o'.Key()], o') && k in st.outputs
    requires o'.txLogEntry.Some? ==> EntryOf(o') in st.logs
    ensures OutputFollows(st, st.SaveOutput(o'), k) && OutputIsKept(st, st.SaveOutput(o'), k)
  {
    OutputIsOk(st, sent, k);
    hide Inv, HandedOut;
    UpdateIsKept(st, sent, o', k);
    hide OutputIsKept;
  }

  lemma UpdateIsKept(st: State, sent: History, o': OutputData, k: OutputKey)
    requires o'.Key() in st.outputs && Refreshes(st.outputs[o'.Key()], o') && k in st.outputs && OutputOk(st, sent, k)
    ensures OutputIsKept(st, st.SaveOutput(o'), k)
  {
    hide HandedOut;
  }

  // ----- receiving and mining

  lemma ReceiveKeeps(st: State, sent: History, parent: Identifier, slateId: nat, amount: nat, height: nat)
    requires Inv(st, sent)
    ensures Keeps(st, Receive(st, parent, slateId, amount, height), sent, sent)
  {
    hide Inv;
    var key, logId := st.NextKey(), st.NextLogId(parent);
    var t := NewEntry(parent, TxReceived, logId).(txSlateId := Some(slateId), amountCredited := amount, numOutputs := 1);
    var o := PendingOutput(parent, key, amount, height, logId);
    var a := st.AfterNextChild();
    var b := a.AfterNextLogId(parent).SaveLog(t);
    ChildKeeps(st, sent);
    EntryKeeps(a, sent, t);
    KeepsCompose(st, a, b, sent, sent);
    PendingKeeps(b, sent, o);
    KeepsCompose(st, b, b.SaveOutput(o), sent, sent);
  }

  lemma LockedIsHeld(st: State, sent: History, k: OutputKey)
    requires Inv(st, sent) && k in st.outputs && st.outputs[k].status == Locked
    ensures var e := EntryOf(st.outputs[k]); st.outputs[k].txLogEntry.Some? && e in sent && Live(st, e) && k in sent[e]
  {
    OutputIsOk(st, sent, k);
    hide Inv;
  }

  /** A coinbase keeps the invariant and spent outputs exactly when it replaces nothing
      that is locked or spent. */
  lemma CoinbaseKeeps(st: State, sent: History, key: Option<Identifier>, value: nat, height: nat)
    requires Inv(st, sent)
    ensures CountersGrow(st, Coinbase(st, key, value, height))
    ensures Keeps(st, Coinbase(st, key, value, height), sent, sent) <==> MayReplace(st, key)
  {
    hide Inv;
    var st' := Coinbase(st, key, value, height);
    if Replaces(st, key) {
      var k := (key.value, None);
      OutputIsOk(st, sent, k);
      if Replaceable(st, k) {
        PendingKeeps(st, sent, CoinbaseOutput(st.active, key.value, value, height));
      } else if st.outputs[k].status == Locked {
        LockedIsHeld(st, sent, k);
        ReleasedIsNotHeld(st, st', sent, k);
      }
    } else {
      var a := st.AfterNextChild();
      ChildKeeps(st, sent);
      NextKeyIsNew(st, sent, 0);
      PendingKeeps(a, sent, CoinbaseOutput(st.active, st.NextKey(), value, height));
      KeepsCompose(st, a, st', sent, sent);
    }
  }

  lemma ReleasedIsNotHeld(st: State, st': State, sent: History, k: OutputKey)
    requires k in st.outputs && st.outputs[k].txLogEntry.Some? && EntryOf(st.outputs[k]) in sent && k in sent[EntryOf(st.outputs[k])]
    requires Live(st, EntryOf(st.outputs[k])) && st'.logs == st.logs && k in st'.outputs && st'.outputs[k].status == Unconfirmed
    ensures !Inv(st', sent)
  {
    var e := EntryOf(st.outputs[k]);
    assert !Held(st', k, e);
    if Inv(st', sent) {
      SendIsOk(st', sent, e);
    }
  }

  // ----- cancelling

  lemma CancelKeeps(st: State, sent: History, e: LogKey)
    requires Inv(st, sent) && e in st.logs && Cancellable(st.logs[e])
    ensures Keeps(st, Cancel(st, st.logs[e]), sent, sent)
  {
    var t := st.logs[e];
    var st' := Cancel(st, t);
    EntryIsOk(st, sent, e);
    assert t.parentKeyId == e.0 && t.id == e.1 && CountersGrow(st, st');
    assert st'.outputs.Keys <= st.outputs.Keys && st'.logs.Keys == st.logs.Keys;
    hide Inv, OutputFollows, OutputIsKept, EntryFollows, Keeps, CountersGrow, Live, CancelOutputs;
    forall k | k in st.outputs ensures OutputIsKept(st, st', k) && (k in st'.outputs ==> OutputFollows(st, st', k)) {
      CancelledOutput(st, sent, e, k);
    }
    forall e' | e' in st'.logs ensures EntryFollows(st, st', e') {
      CancelledEntry(st, sent, e, e');
    }
    BatchKeeps(st, st', sent);
  }

  lemma CancelledEntry(st: State, sent: History, e: LogKey, e': LogKey)
    requires Inv(st, sent) && e in st.logs && Cancellable(st.logs[e]) && e' in st.logs
    requires st.logs[e].parentKeyId == e.0 && st.logs[e].id == e.1
    ensures e' in Cancel(st, st.logs[e]).logs && EntryFollows(st, Cancel(st, st.logs[e]), e')
  {
    EntryIsOk(st, sent, e');
    hide Inv, CancelOutputs;
  }

  lemma CancelledOutput(st: State, sent: History, e: LogKey, k: OutputKey)
    requires Inv(st, sent) && e in st.logs && Cancellable(st.logs[e]) && k in st.outputs
    requires st.logs[e].parentKeyId == e.0 && st.logs[e].id == e.1
    ensures var st' := Cancel(st, st.logs[e]);
      OutputIsKept(st, st', k) && (k in st'.outputs ==> OutputFollows(st, st', k))
  {
    OutputIsOk(st, sent, k);
    CancelledAt(st.outputs, st.logs[e], k);
    hide Inv, CancelOutputs;
    CancelledIsKept(st, sent, e, k);
    if k in Cancel(st, st.logs[e]).outputs {
      CancelledFollows(st, sent, e, k);
    }
  }

  lemma CancelledIsKept(st: State, sent: History, e: LogKey, k: OutputKey)
    requires e in st.logs && Cancellable(st.logs[e]) && k in st.outputs && OutputOk(st, sent, k)
    requires st.logs[e].parentKeyId == e.0 && st.logs[e].id == e.1
    ensures OutputIsKept(st, Cancel(st, st.logs[e]), k)
  {
    CancelledAt(st.outputs, st.logs[e], k);
    hide CancelOutputs, HandedOut;
  }

  lemma CancelledFollows(st: State, sent: History, e: LogKey, k: OutputKey)
    requires e in st.logs && Cancellable(st.logs[e]) && k in st.outputs && OutputOk(st, sent, k)
    requires st.logs[e].parentKeyId == e.0 && st.logs[e].id == e.1
    requires k in Cancel(st, st.logs[e]).outputs
    ensures OutputFollows(st, Cancel(st, st.logs[e]), k)
  {
    CancelledAt(st.outputs, st.logs[e], k);
    hide CancelOutputs, HandedOut;
  }

  lemma CancelledAt(m: map<OutputKey, OutputData>, t: TxLogEntry, k: OutputKey)
    requires k in m
    ensures k in CancelOutputs(m, t) <==> !(BelongsTo(m[k], t) && m[k].status == Unconfirmed)
    ensures k in CancelOutputs(m, t) ==> CancelOutputs(m, t)[k] == Unlocked(m[k], t)
  {
  }

  // ----- cleaning, switching accounts, finalizing

  lemma CleanKeeps(st: State, sent: History, height: nat)
    requires Inv(st, sent)
    ensures Keeps(st, Clean(st, height), sent, sent)
  {
    var st' := Clean(st, height);
    assert CountersGrow(st, st');
    hide Inv, OutputFollows, OutputIsKept, EntryFollows, Keeps, CountersGrow, Live, StaleKeys, IsStale;
    forall k | k in st.outputs ensures OutputIsKept(st, st', k) && (k in st'.outputs ==> OutputFollows(st, st', k)) {
      CleanedOutput(st, sent, height, k);
    }
    forall e | e in st'.logs ensures EntryFollows(st, st', e) {
      SameEntryFollows(st, st', sent, e);
    }
    BatchKeeps(st, st', sent);
  }

  lemma CleanedOutput(st: State, sent: History, height: nat, k: OutputKey)
    requires Inv(st, sent) && k in st.outputs
    ensures var st' := Clean(st, height); OutputIsKept(st, st', k) && (k in st'.outputs ==> OutputFollows(st, st', k))
  {
    StaleKeysAreStale(st, sent, height, k);
    hide Inv, StaleKeys;
  }

  /** Only stale outputs themselves are deleted: each is stored under the key it is
      deleted by. */
  lemma StaleKeysAreStale(st: State, sent: History, height: nat, k: OutputKey)
    requires Inv(st, sent) && k in st.outputs
    ensures OutputOk(st, sent, k)
    ensures k in StaleKeys(st.outputs, height) <==> IsStale(st.outputs[k], height)
  {
    OutputIsOk(st, sent, k);
    if IsStale(st.outputs[k], height) {
      assert k == (st.outputs[k].keyId, None);
    }
    if k in StaleKeys(st.outputs, height) {
      var k' :| k' in st.outputs && IsStale(st.outputs[k'], height) && k == (st.outputs[k'].keyId, None);
      OutputIsOk(st, sent, k');
    }
    hide Inv;
  }

  lemma SwitchAccountKeeps(st: State, sent: History, account: Identifier)
    requires Inv(st, sent)
    ensures Keeps(st, SwitchAccount(st, account), sent, sent)
  {
    var st' := SwitchAccount(st, account);
    ContextsStayHandedOut(st, st', sent);
    SameOutputsAndLogs(st, st', sent);
  }

  lemma FinalizeKeeps(st: State, sent: History, slateId: nat)
    requires Inv(st, sent)
    ensures Keeps(st, Finalize(st, slateId), sent, sent)
  {
    var st' := Finalize(st, slateId);
    ContextsStayHandedOut(st, st', sent);
    SameOutputsAndLogs(st, st', sent);
  }

  lemma SameOutputsAndLogs(st: State, st': State, sent: History)
    requires Inv(st, sent) && st'.outputs == st.outputs && st'.logs == st.logs && CountersGrow(st, st')
    requires forall c :: c in st'.contexts ==> ContextOk(st', c)
    ensures Keeps(st, st', sent, sent)
  {
    hide Inv, OutputFollows, OutputIsKept, EntryFollows, ContextOk;
    SameOutputs(st, st', sent);
    forall e | e in st'.logs ensures EntryFollows(st, st', e) {
      assert st.NextLogId(e.0) <= st'.NextLogId(e.0);
      SameEntryFollows(st, st', sent, e);
    }
    FollowsKeepsInv(st, st', sent);
  }

  // ----- refreshing

  /** Halfway through a refresh: outputs not updated yet are as committed, and log
      entries are as committed or confirmed. */
  ghost predicate Halfway(st0: State, st: State, pending: set<OutputKey>) {
    && st.outputs.Keys == st0.outputs.Keys && st.active == st0.active && st.contexts == st0.contexts
    && (forall k :: k in pending && k in st0.outputs ==> st.outputs[k] == st0.outputs[k])
    && (forall e :: e in st0.logs ==> e in st.logs && (st.logs[e] == st0.logs[e] || st.logs[e] == st0.logs[e].(confirmed := true)))
  }

  ghost predicate EntriesNumbered(st: State) {
    forall e :: e in st.logs ==> st.logs[e].parentKeyId == e.0 && st.logs[e].id == e.1
  }

  /** The batch so far kept what it must. */
  ghost predicate Good(st0: State, st: State, sent: History, pending: set<OutputKey>) {
    Keeps(st0, st, sent, sent) && Halfway(st0, st, pending) && EntriesNumbered(st0)
  }

  lemma HalfwayAfterUpdate(st0: State, st: State, pending: set<OutputKey>, o': OutputData)
    requires Halfway(st0, st, pending) && o'.Key() in st0.outputs
    ensures Halfway(st0, st.SaveOutput(o'), pending - {o'.Key()})
    ensures o'.Key() in pending ==> o'.Key() in st.outputs && st.outputs[o'.Key()] == st0.outputs[o'.Key()]
  {
  }

  lemma UpdateIsGood(st0: State, st: State, sent: History, pending: set<OutputKey>, o': OutputData)
    requires Good(st0, st, sent, pending)
    requires o'.Key() in pending && o'.Key() in st0.outputs && Refreshes(st0.outputs[o'.Key()], o')
    requires o'.txLogEntry.Some? ==> EntryOf(o') in st.logs
    ensures Good(st0, st.SaveOutput(o'), sent, pending - {o'.Key()})
  {
    HalfwayAfterUpdate(st0, st, pending, o');
    hide Inv, SpentStays, CountersGrow, Refreshes, Halfway;
    UpdateKeeps(st, sent, o');
    KeepsCompose(st0, st, st.SaveOutput(o'), sent, sent);
  }

  lemma EntryIsGood(st0: State, st: State, sent: History, pending: set<OutputKey>, t: TxLogEntry)
    requires Good(st0, st, sent, pending)
    requires t.id == st.NextLogId(t.parentKeyId) && t.txType != TxSent
    ensures Good(st0, st.AfterNextLogId(t.parentKeyId).SaveLog(t), sent, pending)
  {
    NextLogIdIsNew(st, sent, t.parentKeyId);
    HalfwayAfterEntry(st0, st, pending, t);
    hide Inv, SpentStays, CountersGrow, Halfway;
    EntryKeeps(st, sent, t);
    KeepsCompose(st0, st, st.AfterNextLogId(t.parentKeyId).SaveLog(t), sent, sent);
  }

  lemma HalfwayAfterEntry(st0: State, st: State, pending: set<OutputKey>, t: TxLogEntry)
    requires Halfway(st0, st, pending) && (t.parentKeyId, t.id) !in st.logs
    ensures Halfway(st0, st.AfterNextLogId(t.parentKeyId).SaveLog(t), pending)
  {
  }

  lemma ConfirmIsGood(st0: State, st: State, sent: History, pending: set<OutputKey>, e: LogKey)
    requires Good(st0, st, sent, pending) && e in st0.logs
    ensures Good(st0, st.SaveLog(st0.logs[e].(confirmed := true)), sent, pending)
  {
    hide Inv, SpentStays, CountersGrow;
    var t := st0.logs[e].(confirmed := true);
    RewriteEntryKeeps(st, sent, e, t);
    KeepsCompose(st0, st, st.SaveLog(t), sent, sent);
  }

  /** A mined coinbase: logged, then marked. */
  lemma CoinbaseIsGood(st0: State, st: State, sent: History, pending: set<OutputKey>, o: OutputData, parent: Identifier, height: nat)
    requires Good(st0, st, sent, pending) && o.Key() in pending && o.Key() in st0.outputs && st0.outputs[o.Key()] == o
    requires o.rootKeyId == parent && o.status == Unconfirmed
    ensures Good(st0, MineCoinbase(st, o, parent, height), sent, pending - {o.Key()})
  {
    hide Good, Refreshes;
    var logId := st.NextLogId(parent);
    RefreshedWell(o, height, logId);
    var t, o' := ConfirmedEntry(parent, logId, o), o.(txLogEntry := Some(logId), height := height).MarkUnspent();
    EntryIsGood(st0, st, sent, pending, t);
    UpdateIsGood(st0, st.AfterNextLogId(parent).SaveLog(t), sent, pending, o');
  }

  /** A transaction's first confirmed output: its entry confirmed, then marked. */
  lemma ConfirmedTxIsGood(st0: State, st: State, sent: History, pending: set<OutputKey>, o: OutputData, height: nat)
    requires Good(st0, st, sent, pending) && o.Key() in pending && o.Key() in st0.outputs && st0.outputs[o.Key()] == o
    requires o.status == Unconfirmed && o.txLogEntry.Some? && EntryOf(o) in st0.logs
    requires st0.logs[EntryOf(o)].parentKeyId == o.rootKeyId && st0.logs[EntryOf(o)].id == o.txLogEntry.value
    ensures Good(st0, ConfirmTx(st, st0.logs[EntryOf(o)], o, height), sent, pending - {o.Key()})
  {
    hide Good, Refreshes;
    RefreshedWell(o, height, 0);
    ConfirmIsGood(st0, st, sent, pending, EntryOf(o));
    UpdateIsGood(st0, st.SaveLog(st0.logs[EntryOf(o)].(confirmed := true)), sent, pending, o.(height := height).MarkUnspent());
  }

  /** An output missing from the chain, or one seen there again. */
  lemma MarkIsGood(st0: State, st: State, sent: History, pending: set<OutputKey>, o: OutputData, height: nat)
    requires Good(st0, st, sent, pending) && o.Key() in pending && o.Key() in st0.outputs && st0.outputs[o.Key()] == o
    requires o.status != Spent && (o.txLogEntry.Some? ==> EntryOf(o) in st.logs)
    ensures Good(st0, st.SaveOutput(o.MarkSpent()), sent, pending - {o.Key()})
    ensures Good(st0, st.SaveOutput(o.(height := height).MarkUnspent()), sent, pending - {o.Key()})
  {
    hide Good, Refreshes;
    RefreshedWell(o, height, 0);
    UpdateIsGood(st0, st, sent, pending, o.MarkSpent());
    UpdateIsGood(st0, st, sent, pending, o.(height := height).MarkUnspent());
  }

  lemma ApplyOneIsGood(st0: State, st: State, sent: History, key: OutputKey, api: NodeAnswer, parent: Identifier, pending: set<OutputKey>)
    requires Good(st0, st, sent, pending) && key in pending && key in st0.outputs
    requires var o := st0.outputs[key];
      o.Key() == key && o.rootKeyId == parent && o.status != Spent && (o.txLogEntry.Some? ==> EntryOf(o) in st0.logs)
    ensures Good(st0, ApplyOne(st0, st, key, st0.outputs[key].Commit(), api, parent), sent, pending - {key})
  {
    var o := st0.outputs[key];
    var commit := o.Commit();
    EntriesStay(st0, st, sent, pending, o);
    hide Good, MineCoinbase, ConfirmTx;
    if commit !in api {
      MarkIsGood(st0, st, sent, pending, o, 0);
    } else if o.isCoinbase && o.status == Unconfirmed {
      CoinbaseIsGood(st0, st, sent, pending, o, parent, api[commit]);
    } else if o.status == Unconfirmed && o.txLogEntry.Some? {
      ConfirmedTxIsGood(st0, st, sent, pending, o, api[commit]);
    } else {
      MarkIsGood(st0, st, sent, pending, o, api[commit]);
    }
  }

  lemma EntriesStay(st0: State, st: State, sent: History, pending: set<OutputKey>, o: OutputData)
    requires Good(st0, st, sent, pending) && (o.txLogEntry.Some? ==> EntryOf(o) in st0.logs)
    ensures o.txLogEntry.Some? ==> EntryOf(o) in st.logs
    ensures o.txLogEntry.Some? ==>
      st0.logs[EntryOf(o)].parentKeyId == o.rootKeyId && st0.logs[EntryOf(o)].id == o.txLogEntry.value
  {
  }

  /** The three updates of a refresh. */
  lemma RefreshedWell(o: OutputData, height: nat, logId: nat)
    requires o.status != Spent
    ensures Refreshes(o, o.MarkSpent()) && Refreshes(o, o.(height := height).MarkUnspent())
    ensures o.status == Unconfirmed ==> Refreshes(o, o.(txLogEntry := Some(logId), height := height).MarkUnspent())
  {
  }

  /** The keys behind the commitments not in `done`. */
  ghost function Pending(tracked: map<OutputCommit, OutputKey>, done: seq<OutputCommit>): set<OutputKey> {
    set c | c in tracked && c !in done :: tracked[c]
  }

  /** Updating one commitment's output leaves the outputs of the others pending. */
  lemma PendingShrinks(st: State, tracked: map<OutputCommit, OutputKey>, order: seq<OutputCommit>)
    requires forall c :: c in tracked ==> tracked[c] in st.outputs && st.outputs[tracked[c]].Commit() == c
    requires forall i, j :: 0 <= i < j < |order| ==> order[i] != order[j]
    requires order != [] && order[|order| - 1] in tracked
    ensures var commit := order[|order| - 1];
      tracked[commit] in Pending(tracked, order[..|order| - 1])
      && Pending(tracked, order) <= Pending(tracked, order[..|order| - 1]) - {tracked[commit]}
  {
    var front, commit := order[..|order| - 1], order[|order| - 1];
    assert commit in order && forall c :: c in front ==> c in order;
    assert commit !in front;
  }

  lemma FewerPending(st0: State, st: State, sent: History, pending: set<OutputKey>, pending': set<OutputKey>)
    requires Good(st0, st, sent, pending) && pending' <= pending
    ensures Good(st0, st, sent, pending')
  {
    hide Keeps;
  }

  lemma TrackedIsOk(st: State, sent: History, parent: Identifier, updateAll: bool, tracked: map<OutputCommit, OutputKey>, commit: OutputCommit)
    requires Inv(st, sent) && Maps(st, parent, updateAll, tracked) && commit in tracked
    ensures tracked[commit] in st.outputs
    ensures var o := st.outputs[tracked[commit]];
      o.Key() == tracked[commit] && o.rootKeyId == parent && o.status != Spent && o.Commit() == commit
      && (o.txLogEntry.Some? ==> EntryOf(o) in st.logs)
  {
    OutputIsOk(st, sent, tracked[commit]);
    hide Inv, HandedOut;
  }

  lemma {:induction false} ApplyInOrderIsGood(st: State, sent: History, order: seq<OutputCommit>, tracked: map<OutputCommit, OutputKey>,
      api: NodeAnswer, parent: Identifier, updateAll: bool)
    requires Good(st, st, sent, Pending(tracked, [])) && Maps(st, parent, updateAll, tracked)
    requires forall i, j :: 0 <= i < j < |order| ==> order[i] != order[j]
    requires forall c :: c in order ==> c in tracked
    ensures Good(st, ApplyInOrder(st, order, tracked, api, parent), sent, Pending(tracked, order))
  {
    hide Inv, SpentStays, CountersGrow, Halfway, EntriesNumbered;
    if order == [] {
    } else {
      var front, commit := order[..|order| - 1], order[|order| - 1];
      TrackedIsOk(st, sent, parent, updateAll, tracked, commit);
      PendingShrinks(st, tracked, order);
      hide Good, Maps, Pending, ApplyOne;
      ApplyInOrderIsGood(st, sent, front, tracked, api, parent, updateAll);
      var mid := ApplyInOrder(st, front, tracked, api, parent);
      ApplyOneIsGood(st, mid, sent, tracked[commit], api, parent, Pending(tracked, front));
      FewerPending(st, ApplyInOrder(st, order, tracked, api, parent), sent,
                   Pending(tracked, front) - {tracked[commit]}, Pending(tracked, order));
    }
  }

  lemma StartIsGood(st: State, sent: History, pending: set<OutputKey>)
    requires Inv(st, sent)
    ensures Good(st, st, sent, pending)
  {
    forall e | e in st.logs ensures st.logs[e].parentKeyId == e.0 && st.logs[e].id == e.1 {
      assert EntryOk(st, sent, e);
    }
  }

  lemma ConfirmHeightKeeps(st: State, sent: History, height: nat)
    requires Inv(st, sent)
    ensures Keeps(st, st.(confirmedHeight := st.confirmedHeight[st.active := height]), sent, sent)
  {
    var st' := st.(confirmedHeight := st.confirmedHeight[st.active := height]);
    ContextsStayHandedOut(st, st', sent);
    SameOutputsAndLogs(st, st', sent);
  }

  lemma ApplyKeeps(st: State, sent: History, order: seq<OutputCommit>, tracked: map<OutputCommit, OutputKey>,
      api: NodeAnswer, height: nat, parent: Identifier, updateAll: bool)
    requires Inv(st, sent) && Maps(st, parent, updateAll, tracked) && Orders(order, tracked)
    ensures Keeps(st, Apply(st, order, tracked, api, height, parent), sent, sent)
  {
    hide Inv, Maps, ApplyInOrder, Halfway, EntriesNumbered;
    StartIsGood(st, sent, Pending(tracked, []));
    ApplyInOrderIsGood(st, sent, order, tracked, api, parent, updateAll);
    var mid := ApplyInOrder(st, order, tracked, api, parent);
    ConfirmHeightKeeps(mid, sent, height);
    KeepsCompose(st, mid, mid.(confirmedHeight := mid.confirmedHeight[mid.active := height]), sent, sent);
  }
}
