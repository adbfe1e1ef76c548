/** What every batch keeps. */
module LedgerInvariant {
  import opened Wrappers
  import opened Outputs
  import opened Ledger

  /** The inputs each send was logged with: a history of the run. */
  type History = map<LogKey, set<OutputKey>>

  /** A key handed out earlier: its child number is below the account's index. */
  predicate HandedOut(st: State, id: Identifier) {
    id.LastPathIndex() < st.ChildIndex(id.ParentPath())
  }

  ghost predicate CoinsHandedOut(st: State, coins: seq<ContextCoin>) {
    forall i :: 0 <= i < |coins| ==> HandedOut(st, coins[i].0)
  }

  ghost predicate ContextOk(st: State, c: ContextKey)
    requires c in st.contexts
  {
    CoinsHandedOut(st, st.contexts[c].inputIds) && CoinsHandedOut(st, st.contexts[c].outputIds)
  }

  function EntryOf(o: OutputData): LogKey
    requires o.txLogEntry.Some?
  {
    (o.rootKeyId, o.txLogEntry.value)
  }

  /** A send that was not cancelled. */
  predicate Live(st: State, e: LogKey) {
    e in st.logs && st.logs[e].txType == TxSent
  }

  /** An output is stored under its own key, which was handed out, without an index
      while it is pending, and its log entry is in its account's log. A locked output
      points to a live send of its account that it is an input of. */
  ghost predicate OutputOk(st: State, sent: History, k: OutputKey)
    requires k in st.outputs
  {
    var o := st.outputs[k];
    && o.Key() == k && HandedOut(st, k.0)
    && (o.status == Unconfirmed ==> k.1.None?)
    && (o.txLogEntry.Some? ==> EntryOf(o) in st.logs)
    && (o.status == Locked ==>
          o.txLogEntry.Some? && Live(st, EntryOf(o)) && EntryOf(o) in sent && k in sent[EntryOf(o)])
  }

  ghost predicate EntryOk(st: State, sent: History, e: LogKey)
    requires e in st.logs
  {
    && st.logs[e].parentKeyId == e.0 && st.logs[e].id == e.1 && e.1 < st.NextLogId(e.0)
    && (Live(st, e) ==> e in sent)
  }

  /** An input of a send is spent, or locked for that send. */
  predicate Held(st: State, k: OutputKey, e: LogKey) {
    k in st.outputs && st.outputs[k].rootKeyId == e.0
    && (st.outputs[k].status == Spent || (st.outputs[k].status == Locked && st.outputs[k].txLogEntry == Some(e.1)))
  }

  ghost predicate SendOk(st: State, sent: History, e: LogKey)
    requires e in sent
  {
    e in st.logs && (Live(st, e) ==> forall k :: k in sent[e] ==> Held(st, k, e))
  }

  /** No output is an input of two live sends. */
  ghost predicate NoDoubleSpend(st: State, sent: History) {
    forall e, e' :: e in sent && e' in sent && Live(st, e) && Live(st, e') && e != e' ==> sent[e] !! sent[e']
  }

  ghost predicate Inv(st: State, sent: History) {
    && (forall k :: k in st.outputs ==> OutputOk(st, sent, k))
    && (forall e :: e in st.logs ==> EntryOk(st, sent, e))
    && (forall c :: c in st.contexts ==> ContextOk(st, c))
    && (forall e :: e in sent ==> SendOk(st, sent, e))
    && NoDoubleSpend(st, sent)
  }

  lemma OutputIsOk(st: State, sent: History, k: OutputKey)
    requires Inv(st, sent) && k in st.outputs
    ensures OutputOk(st, sent, k)
  {
    hide OutputOk, EntryOk, ContextOk, SendOk, NoDoubleSpend;
  }

  lemma EntryIsOk(st: State, sent: History, e: LogKey)
    requires Inv(st, sent) && e in st.logs
    ensures EntryOk(st, sent, e)
  {
    hide OutputOk, EntryOk, ContextOk, SendOk, NoDoubleSpend;
  }

  lemma ContextIsOk(st: State, sent: History, c: ContextKey)
    requires Inv(st, sent) && c in st.contexts
    ensures ContextOk(st, c)
  {
    hide OutputOk, EntryOk, ContextOk, SendOk, NoDoubleSpend;
  }

  lemma SendIsOk(st: State, sent: History, e: LogKey)
    requires Inv(st, sent) && e in sent
    ensures SendOk(st, sent, e)
  {
    hide OutputOk, EntryOk, ContextOk, SendOk, NoDoubleSpend;
  }

  /** Spent outputs stay as they are. */
  ghost predicate SpentStays(st: State, st': State) {
    forall k :: k in st.outputs && st.outputs[k].status == Spent ==> k in st'.outputs && st'.outputs[k] == st.outputs[k]
  }

  /** Counters only grow, so what was handed out stays handed out. */
  ghost predicate CountersGrow(st: State, st': State) {
    && (forall p :: st.ChildIndex(p) <= st'.ChildIndex(p))
    && (forall p :: st.NextLogId(p) <= st'.NextLogId(p))
  }

  // ----- fresh keys and log ids

  /** The keys handed out next are new: nothing is stored under them. */
  lemma NextKeyIsNew(st: State, sent: History, i: nat)
    requires Inv(st, sent)
    ensures var id := st.active.Child(st.ChildIndex(st.active) + i);
      && id.ParentPath() == st.active && id.LastPathIndex() == st.ChildIndex(st.active) + i
      && (forall k :: k in st.outputs ==> k.0 != id)
  {
    var id := st.active.Child(st.ChildIndex(st.active) + i);
    assert id.path[..|id.path| - 1] == st.active.path;
    assert !HandedOut(st, id);
    forall k | k in st.outputs ensures k.0 != id {
      assert OutputOk(st, sent, k);
    }
  }

  /** So are the log ids. */
  lemma NextLogIdIsNew(st: State, sent: History, parent: Identifier)
    requires Inv(st, sent)
    ensures (parent, st.NextLogId(parent)) !in st.logs
  {
  }

  lemma LaterLogIdIsNew(st: State, sent: History, parent: Identifier, i: nat)
    requires Inv(st, sent)
    ensures (parent, st.NextLogId(parent) + i) !in st.logs
  {
  }

  // ----- a rule for batches that log no send

  /** An output after the batch: one from before with the same key and account that
      is not newly locked, or a new pending one. */
  ghost predicate OutputFollows(st: State, st': State, k: OutputKey)
    requires k in st'.outputs
  {
    var o' := st'.outputs[k];
    && o'.Key() == k && (o'.status == Unconfirmed ==> k.1.None?)
    && (o'.txLogEntry.Some? ==> EntryOf(o') in st'.logs)
    && (if k in st.outputs then
          o'.rootKeyId == st.outputs[k].rootKeyId
          && (o'.status == Locked ==>
                st.outputs[k].status == Locked && o'.txLogEntry == st.outputs[k].txLogEntry
                && o'.txLogEntry.Some? && Live(st', EntryOf(o')))
        else
          HandedOut(st', k.0) && o'.status != Locked)
  }

  /** A spent output stays; a locked one whose send is still live stays locked for
      it or becomes spent. */
  ghost predicate OutputIsKept(st: State, st': State, k: OutputKey)
    requires k in st.outputs
  {
    var o := st.outputs[k];
    && (o.status == Spent ==> k in st'.outputs && st'.outputs[k] == o)
    && (o.status == Locked && o.txLogEntry.Some? && Live(st', EntryOf(o)) ==>
          k in st'.outputs && st'.outputs[k].rootKeyId == o.rootKeyId && st'.outputs[k].txLogEntry == o.txLogEntry
          && (st'.outputs[k].status == Locked || st'.outputs[k].status == Spent))
  }

  ghost predicate EntryFollows(st: State, st': State, e: LogKey)
    requires e in st'.logs
  {
    && st'.logs[e].parentKeyId == e.0 && st'.logs[e].id == e.1 && e.1 < st'.NextLogId(e.0)
    && (Live(st', e) ==> Live(st, e))
  }

  ghost predicate Follows(st: State, st': State) {
    && CountersGrow(st, st')
    && (forall k :: k in st'.outputs ==> OutputFollows(st, st', k))
    && (forall k :: k in st.outputs ==> OutputIsKept(st, st', k))
    && (forall e :: e in st'.logs ==> EntryFollows(st, st', e))
    && st.logs.Keys <= st'.logs.Keys
    && (forall c :: c in st'.contexts ==> ContextOk(st', c))
  }

  lemma FollowsKeepsInv(st: State, st': State, sent: History)
    requires Inv(st, sent) && Follows(st, st')
    ensures Inv(st', sent) && SpentStays(st, st')
  {
    FollowsKeepsSpent(st, st');
    FollowsKeepsNoDoubleSpend(st, st', sent);
    forall k | k in st'.outputs ensures OutputOk(st', sent, k) {
      OutputStaysOk(st, st', sent, k);
    }
    forall e | e in st'.logs ensures EntryOk(st', sent, e) {
      EntryStaysOk(st, st', sent, e);
    }
    forall e | e in sent ensures SendOk(st', sent, e) {
      SendIsKept(st, st', sent, e);
    }
    hide OutputOk, EntryOk, SendOk, ContextOk, NoDoubleSpend, OutputFollows, OutputIsKept, EntryFollows, SpentStays, CountersGrow;
  }

  lemma OutputStaysOk(st: State, st': State, sent: History, k: OutputKey)
    requires Inv(st, sent) && Follows(st, st') && k in st'.outputs
    ensures OutputOk(st', sent, k)
  {
    if k in st.outputs {
      OutputIsOk(st, sent, k);
    }
    hide Inv;
    assert OutputFollows(st, st', k);
    assert st.ChildIndex(k.0.ParentPath()) <= st'.ChildIndex(k.0.ParentPath());
  }

  lemma EntryStaysOk(st: State, st': State, sent: History, e: LogKey)
    requires Inv(st, sent) && Follows(st, st') && e in st'.logs
    ensures EntryOk(st', sent, e)
  {
    assert EntryFollows(st, st', e);
    if Live(st', e) {
      EntryIsOk(st, sent, e);
    }
    hide Inv, Follows;
  }

  lemma FollowsKeepsNoDoubleSpend(st: State, st': State, sent: History)
    requires Inv(st, sent) && Follows(st, st')
    ensures NoDoubleSpend(st', sent)
  {
    assert NoDoubleSpend(st, sent);
    hide Inv;
    forall e, e' | e in sent && e' in sent && Live(st', e) && Live(st', e') && e != e' ensures sent[e] !! sent[e'] {
      assert EntryFollows(st, st', e) && EntryFollows(st, st', e');
    }
  }

  lemma FollowsKeepsSpent(st: State, st': State)
    requires Follows(st, st')
    ensures SpentStays(st, st')
  {
    forall k | k in st.outputs && st.outputs[k].status == Spent ensures k in st'.outputs && st'.outputs[k] == st.outputs[k] {
      assert OutputIsKept(st, st', k);
    }
  }

  lemma SendIsKept(st: State, st': State, sent: History, e: LogKey)
    requires Inv(st, sent) && Follows(st, st') && e in sent
    ensures SendOk(st', sent, e)
  {
    SendIsOk(st, sent, e);
    hide Inv;
    if Live(st', e) {
      assert EntryFollows(st, st', e);
      forall k | k in sent[e] ensures Held(st', k, e) {
        assert Held(st, k, e);
        assert OutputIsKept(st, st', k);
      }
    }
  }
}
