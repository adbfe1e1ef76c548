/** What restoring a wallet from the chain comes to (src/internal/restore.rs:175-255,
    418-478). */
module Restore {
  import opened Wrappers
  import opened Outputs
  import opened Ledger
  import opened ChainScan

  /** What the outputs restored without a log entry of their own add up to. */
  datatype RestoredTxStats = RestoredTxStats(logId: nat, amountCredited: nat, numOutputs: nat)

  /** The store during a restore, the highest child found per account, and the stats. */
  datatype Progress = Progress(st: State, foundParents: map<Identifier, nat>, stats: map<Identifier, RestoredTxStats>) {
    /** The first output of an account reserves a log id for it. */
    function FindParent(parent: Identifier): (s: Progress)
      ensures parent in s.foundParents && (parent in stats || parent !in foundParents ==> parent in s.stats)
    {
      if parent in foundParents then this
      else
        Progress(st.AfterNextLogId(parent), foundParents[parent := 0],
                 stats[parent := RestoredTxStats(st.NextLogId(parent), 0, 0)])
    }

    /** A coinbase gets a log entry of its own. */
    function RestoreCoinbase(r: OutputResult): Progress {
      var parent := r.Parent();
      var logId := st.NextLogId(parent);
      this.(st := st.AfterNextLogId(parent).SaveLog(CoinbaseEntry(r, logId)).SaveOutput(RestoredOutput(r, logId)))
    }

    /** Any other output is added to the stats of its account. */
    function RestorePlain(r: OutputResult): Progress
      requires r.Parent() in stats
    {
      var ts := stats[r.Parent()];
      this.(stats := stats[r.Parent() := RestoredTxStats(ts.logId, ts.amountCredited + r.value, ts.numOutputs + 1)],
            st := st.SaveOutput(RestoredOutput(r, ts.logId)))
    }

    function SeeChild(r: OutputResult): Progress
      requires r.Parent() in foundParents
    {
      if r.nChild >= foundParents[r.Parent()] then this.(foundParents := foundParents[r.Parent() := r.nChild]) else this
    }

    function RestoreOne(r: OutputResult): Progress
      requires r.Parent() in foundParents ==> r.Parent() in stats
    {
      var s := FindParent(r.Parent());
      (if r.isCoinbase then s.RestoreCoinbase(r) else s.RestorePlain(r)).SeeChild(r)
    }

    /** At the end the stats become log entries, and each account's next child is set. */
    function Finished(): State {
      st.(logs := WithEntries(st.logs, stats), childIndex := WithChildren(st.childIndex, foundParents))
    }
  }

  function EntryKeys(stats: map<Identifier, RestoredTxStats>): set<LogKey> {
    set parent | parent in stats :: (parent, stats[parent].logId)
  }

  function WithEntries(logs: map<LogKey, TxLogEntry>, stats: map<Identifier, RestoredTxStats>): map<LogKey, TxLogEntry> {
    map e | e in logs.Keys + EntryKeys(stats) :: if e in EntryKeys(stats) then StatsEntry(e.0, stats[e.0]) else logs[e]
  }

  function WithChildren(childIndex: map<Identifier, nat>, foundParents: map<Identifier, nat>): map<Identifier, nat> {
    map p | p in childIndex.Keys + foundParents.Keys :: if p in foundParents then foundParents[p] + 1 else childIndex[p]
  }

  function CoinbaseEntry(r: OutputResult, logId: nat): TxLogEntry {
    NewEntry(r.Parent(), ConfirmedCoinbase, logId).(confirmed := true, amountCredited := r.value, numOutputs := 1)
  }

  function StatsEntry(parent: Identifier, s: RestoredTxStats): TxLogEntry {
    NewEntry(parent, TxReceived, s.logId).(confirmed := true, amountCredited := s.amountCredited, numOutputs := s.numOutputs)
  }

  function RestoredOutput(r: OutputResult, logId: nat): OutputData {
    OutputData(r.Parent(), r.keyId, r.nChild, Some(r.mmrIndex), r.value, Unspent, r.height, r.lockHeight, r.isCoinbase, Some(logId))
  }

  function RestoreAll(st: State, rs: seq<OutputResult>): (s: Progress)
    ensures s.foundParents.Keys == s.stats.Keys
  {
    if rs == [] then Progress(st, map[], map[])
    else RestoreAll(st, rs[..|rs| - 1]).RestoreOne(rs[|rs| - 1])
  }

  /** The store after a restore that has seen these outputs. */
  function Restored(st: State, seen: seq<ChainOutput>): State {
    RestoreAll(st, Identified(seen)).Finished()
  }
}
