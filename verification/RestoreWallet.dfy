/** The operations of a restore (src/internal/restore.rs:175-255, 418-478). */
module RestoreWallet {
  import opened Wrappers
  import opened Outputs
  import opened Ledger
  import opened LedgerInvariant
  import opened LedgerRuns
  import opened Wallet
  import opened ChainScan
  import opened Restore
  import opened RestoreAccounts

  method RestoreMissingOutput(b: Backend, output: OutputResult, foundParents: map<Identifier, nat>, txStats: map<Identifier, RestoredTxStats>)
    returns (foundParents': map<Identifier, nat>, txStats': map<Identifier, RestoredTxStats>)
    requires output.Parent() in foundParents ==> output.Parent() in txStats
    modifies b
    ensures b.sent == old(b.sent)
    ensures Progress(b.View(), foundParents', txStats') == Progress(old(b.View()), foundParents, txStats).RestoreOne(output)
  {
    ghost var start := Progress(b.View(), foundParents, txStats);
    foundParents', txStats' := foundParents, txStats;
    var parentKeyId := output.Parent();
    if parentKeyId !in foundParents {
      foundParents' := foundParents'[parentKeyId := 0];
      var logId := b.NextTxLogId(parentKeyId);
      txStats' := txStats'[parentKeyId := RestoredTxStats(logId, 0, 0)];
    }
    ghost var found := start.FindParent(parentKeyId);
    assert Progress(b.View(), foundParents', txStats') == found;
    hide Progress.FindParent;
    var logId;
    if output.isCoinbase {
      logId := b.NextTxLogId(parentKeyId);
      var t := NewEntry(parentKeyId, ConfirmedCoinbase, logId).(confirmed := true, amountCredited := output.value, numOutputs := 1);
      b.txLogs := b.txLogs[(parentKeyId, logId) := t];
    } else {
      var ts := txStats'[parentKeyId];
      txStats' := txStats'[parentKeyId := RestoredTxStats(ts.logId, ts.amountCredited + output.value, ts.numOutputs + 1)];
      logId := ts.logId;
    }
    var o := OutputData(parentKeyId, output.keyId, output.nChild, Some(output.mmrIndex), output.value, Unspent, output.height,
                        output.lockHeight, output.isCoinbase, Some(logId));
    b.outputs := b.outputs[o.Key() := o];
    ghost var saved := if output.isCoinbase then found.RestoreCoinbase(output) else found.RestorePlain(output);
    assert Progress(b.View(), foundParents', txStats') == saved;
    hide Progress.RestoreCoinbase, Progress.RestorePlain;
    var maxChildIndex := foundParents'[parentKeyId];
    if output.nChild >= maxChildIndex {
      foundParents' := foundParents'[parentKeyId := output.nChild];
    }
  }

  method RestoreOutputs(b: Backend, outputs: seq<OutputResult>)
    returns (foundParents: map<Identifier, nat>, restoreStats: map<Identifier, RestoredTxStats>)
    modifies b
    ensures b.sent == old(b.sent)
    ensures Progress(b.View(), foundParents, restoreStats) == RestoreAll(old(b.View()), outputs)
  {
    foundParents, restoreStats := map[], map[];
    for i := 0 to |outputs|
      invariant b.sent == old(b.sent)
      invariant Progress(b.View(), foundParents, restoreStats) == RestoreAll(old(b.View()), outputs[..i])
    {
      assert outputs[..i + 1][..i] == outputs[..i];
      hide Progress.RestoreOne;
      assert foundParents.Keys == restoreStats.Keys;
      foundParents, restoreStats := RestoreMissingOutput(b, outputs[i], foundParents, restoreStats);
    }
    assert outputs[..|outputs|] == outputs;
  }

  method SaveAccount(b: Backend, path: Identifier, s: RestoredTxStats, maxChildIndex: nat)
    modifies b
    ensures b.sent == old(b.sent)
    ensures b.View() == old(b.View()).(
      logs := old(b.txLogs)[(path, s.logId) := StatsEntry(path, s)], childIndex := old(b.derivations)[path := maxChildIndex + 1])
  {
    var t := NewEntry(path, TxReceived, s.logId).(confirmed := true, amountCredited := s.amountCredited, numOutputs := s.numOutputs);
    b.txLogs := b.txLogs[(path, s.logId) := t];
    b.derivations := b.derivations[path := maxChildIndex + 1];
  }

  /** The accounts in some order: log entry and next child of each. */
  method SaveAccounts(b: Backend, foundParents: map<Identifier, nat>, restoreStats: map<Identifier, RestoredTxStats>)
    requires foundParents.Keys == restoreStats.Keys
    modifies b
    ensures b.sent == old(b.sent)
    ensures b.View() == Progress(old(b.View()), foundParents, restoreStats).Finished()
  {
    hide Progress.Finished, StatsEntry;
    var left := foundParents.Keys;
    NoAccountYet(b.View(), foundParents, restoreStats, left);
    ghost var before := b.View();
    while left != {}
      invariant left <= foundParents.Keys && b.sent == old(b.sent)
      invariant b.View() == Progress(before, foundParents - left, restoreStats - left).Finished()
      decreases |left|
    {
      var path :| path in left;
      OneMoreAccount(before, foundParents, restoreStats, left, path);
      SaveAccount(b, path, restoreStats[path], foundParents[path]);
      left := left - {path};
    }
    assert foundParents - {} == foundParents && restoreStats - {} == restoreStats;
  }

  lemma NoAccountYet(st: State, found: map<Identifier, nat>, stats: map<Identifier, RestoredTxStats>, left: set<Identifier>)
    requires left == found.Keys == stats.Keys
    ensures Progress(st, found - left, stats - left).Finished() == st
  {
    assert WithEntries(st.logs, stats - left) == st.logs;
    assert WithChildren(st.childIndex, found - left) == st.childIndex;
    hide WithEntries, WithChildren;
  }

  lemma OneMoreAccount(st: State, found: map<Identifier, nat>, stats: map<Identifier, RestoredTxStats>, left: set<Identifier>, path: Identifier)
    requires path in left && path in found && path in stats
    ensures var before := Progress(st, found - left, stats - left).Finished();
      var after := Progress(st, found - (left - {path}), stats - (left - {path})).Finished();
      after == before.(logs := before.logs[(path, stats[path].logId) := StatsEntry(path, stats[path])],
                       childIndex := before.childIndex[path := found[path] + 1])
  {
    OneMoreEntry(st.logs, stats, left, path);
    OneMoreChild(st.childIndex, found, left, path);
    hide WithEntries, WithChildren, StatsEntry;
  }

  lemma OneMoreEntry(logs: map<LogKey, TxLogEntry>, stats: map<Identifier, RestoredTxStats>, left: set<Identifier>, path: Identifier)
    requires path in left && path in stats
    ensures WithEntries(logs, stats - (left - {path}))
      == WithEntries(logs, stats - left)[(path, stats[path].logId) := StatsEntry(path, stats[path])]
  {
    hide StatsEntry;
    OneMoreKey(stats, left, path);
    hide EntryKeys;
  }

  lemma OneMoreKey(stats: map<Identifier, RestoredTxStats>, left: set<Identifier>, path: Identifier)
    requires path in left && path in stats
    ensures EntryKeys(stats - (left - {path})) == EntryKeys(stats - left) + {(path, stats[path].logId)}
    ensures forall e :: e in EntryKeys(stats - left) ==> e.0 in stats - left
  {
    var before, after := stats - left, stats - (left - {path});
    forall p ensures p in after <==> p in before || p == path {
    }
    forall e ensures e in EntryKeys(after) <==> e in EntryKeys(before) + {(path, stats[path].logId)} {
      if e in EntryKeys(before) {
        assert e.0 in after && e == (e.0, after[e.0].logId);
      }
      if e == (path, stats[path].logId) {
        assert path in after && e == (path, after[path].logId);
      }
    }
  }

  lemma OneMoreChild(childIndex: map<Identifier, nat>, found: map<Identifier, nat>, left: set<Identifier>, path: Identifier)
    requires path in left && path in found
    ensures WithChildren(childIndex, found - (left - {path})) == WithChildren(childIndex, found - left)[path := found[path] + 1]
  {
  }

  lemma RestoreIsStep(st: State, sent: History, seen: seq<ChainOutput>)
    requires st.outputs == map[] && Inv(st, sent) && Ascending(seen)
    ensures var st' := Restored(st, seen);
      && st'.contexts == st.contexts
      && ((forall c :: c in st'.contexts ==> ContextOk(st', c)) ==>
            Inv(st', sent) && Next(st, sent, RestoreStep(seen), st', sent))
  {
    hide Inv, Restored, ContextOk, Ascending, SpentStays;
    RestoredKeepsInv(st, sent, seen);
  }

  /** `restore`. It keeps the invariant, as a step of the ledger, when no context of a
      send names a key above the children found; in particular for a new wallet. */
  method RestoreWallet(b: Backend, node: Node, ghost chain: nat -> Chain, ghost limit: nat)
    returns (r: Result<(), ()>, ghost seen: seq<ChainOutput>)
    requires b.Valid() && PageContract(node, chain, limit)
    modifies b
    ensures seen == Scanned(node, chain, limit, 0, 1)
    ensures r.Err? <==> old(b.outputs) != map[]
    ensures r.Err? ==> b.View() == old(b.View())
    ensures r.Ok? ==> b.View() == Restored(old(b.View()), seen)
    ensures r.Ok? && (forall c :: c in b.contexts ==> ContextOk(b.View(), c)) ==>
      b.Valid() && Next(old(b.View()), old(b.sent), RestoreStep(seen), b.View(), b.sent)
    ensures r.Ok? && old(b.contexts) == map[] ==> b.Valid()
  {
    seen := Scanned(node, chain, limit, 0, 1);
    if b.outputs != map[] {
      return Err(()), seen;
    }
    ghost var before := b.View();
    ScannedOnce(node, chain, limit, 0, 1);
    RestoreIsStep(before, b.sent, seen);
    var resultVec := CollectChainOutputs(node, chain, limit);
    hide RestoreAll, Progress.Finished, PageContract, Inv, Scanned, ContextOk, Identified, Next;
    var foundParents, restoreStats := RestoreOutputs(b, resultVec);
    SaveAccounts(b, foundParents, restoreStats);
    return Ok(()), seen;
  }
}
