/** After a restore the log accounts for every output (src/internal/restore.rs:175-255,
    418-478). */
module RestoreAccounts {
  import opened Wrappers
  import opened Outputs
  import opened Sums
  import opened Summary
  import opened Ledger
  import opened LedgerInvariant
  import opened ChainScan
  import opened Restore

  /** What is added up: values, or how many. */
  datatype Measure = Amounts | Counts {
    function OfOutput(o: OutputData): nat {
      if Amounts? then o.value else 1
    }

    function OfEntry(t: TxLogEntry): nat {
      if Amounts? then t.amountCredited else t.numOutputs
    }

    function OfStats(s: RestoredTxStats): nat {
      if Amounts? then s.amountCredited else s.numOutputs
    }

    function IfNamed(o: OutputData, e: LogKey): nat {
      if Names(o, e) then OfOutput(o) else 0
    }

    function InEntry(e: LogKey): OutputData -> nat {
      (o: OutputData) => IfNamed(o, e)
    }

    function InAccount(p: Identifier): OutputData -> nat {
      (o: OutputData) => if o.rootKeyId == p then OfOutput(o) else 0
    }

    function OfAccount(p: Identifier): TxLogEntry -> nat {
      (t: TxLogEntry) => if t.parentKeyId == p then OfEntry(t) else 0
    }

    /** What the outputs that name an entry add up to. */
    ghost function Named(m: map<OutputKey, OutputData>, e: LogKey): nat {
      SumOf(m, InEntry(e))
    }
  }

  /** An output names the entry of its account that it belongs to. */
  predicate Names(o: OutputData, e: LogKey) {
    o.txLogEntry.Some? && EntryOf(o) == e
  }

  lemma NamedInsert(q: Measure, m: map<OutputKey, OutputData>, k: OutputKey, o: OutputData, e: LogKey)
    requires k !in m
    ensures q.Named(m[k := o], e) == q.Named(m, e) + q.IfNamed(o, e)
  {
    SumInsert(m, q.InEntry(e), k, o);
  }

  lemma NamedByNone(q: Measure, m: map<OutputKey, OutputData>, e: LogKey)
    requires forall k :: k in m ==> !Names(m[k], e)
    ensures q.Named(m, e) == 0
  {
    SumOfZero(m, q.InEntry(e));
  }

  // ----- what holds during a restore

  /** A restored output is under its own key, in an account that was found, and names
      its own coinbase entry or the one reserved for the account. */
  ghost predicate OutputSound(st0: State, s: Progress, k: OutputKey)
    requires k in s.st.outputs
  {
    var o := s.st.outputs[k];
    && o.Key() == k && o.txLogEntry.Some? && EntryOf(o).1 < s.st.NextLogId(o.rootKeyId) && EntryOf(o) !in st0.logs
    && o.rootKeyId == o.keyId.ParentPath() && o.nChild == o.keyId.LastPathIndex()
    && o.rootKeyId in s.foundParents && o.nChild <= s.foundParents[o.rootKeyId] && o.rootKeyId in s.stats
    && (if o.isCoinbase then EntryOf(o) in s.st.logs else EntryOf(o) == (o.rootKeyId, s.stats[o.rootKeyId].logId))
  }

  /** The entry reserved for an account is not written yet; its stats are those of the
      outputs that name it. */
  ghost predicate StatsSound(s: Progress, p: Identifier)
    requires p in s.stats
  {
    var e := (p, s.stats[p].logId);
    && e.1 < s.st.NextLogId(p) && e !in s.st.logs
    && forall q: Measure :: q.OfStats(s.stats[p]) == q.Named(s.st.outputs, e)
  }

  /** An entry is as before, or a coinbase's. */
  ghost predicate EntrySound(st0: State, s: Progress, e: LogKey)
    requires e in s.st.logs
  {
    var t := s.st.logs[e];
    && t.parentKeyId == e.0 && t.id == e.1 && e.1 < s.st.NextLogId(e.0)
    && (if e in st0.logs then t == st0.logs[e]
        else
          && t.confirmed && t.txType == ConfirmedCoinbase
          && t.txSlateId == None && t.numInputs == 0 && t.amountDebited == 0 && t.fee == None
          && forall q: Measure :: q.OfEntry(t) == q.Named(s.st.outputs, e))
  }

  ghost predicate Sound(st0: State, s: Progress) {
    && s.foundParents.Keys == s.stats.Keys && st0.logs.Keys <= s.st.logs.Keys
    && (forall k :: k in s.st.outputs ==> OutputSound(st0, s, k))
    && (forall p :: p in s.stats ==> StatsSound(s, p))
    && (forall e :: e in s.st.logs ==> EntrySound(st0, s, e))
  }

  lemma OutputIsSound(st0: State, s: Progress, k: OutputKey)
    requires Sound(st0, s) && k in s.st.outputs
    ensures OutputSound(st0, s, k)
  {
    hide OutputSound, StatsSound, EntrySound;
  }

  lemma StatsAreSound(st0: State, s: Progress, p: Identifier)
    requires Sound(st0, s) && p in s.stats
    ensures StatsSound(s, p)
  {
    hide OutputSound, StatsSound, EntrySound;
  }

  lemma EntryIsSound(st0: State, s: Progress, e: LogKey)
    requires Sound(st0, s) && e in s.st.logs
    ensures EntrySound(st0, s, e)
  {
    hide OutputSound, StatsSound, EntrySound;
  }

  /** The log ids used before are below the next one. */
  predicate IdsBelow(st0: State, st: State) {
    forall e :: e in st0.logs ==> e.1 < st.NextLogId(e.0)
  }

  /** Nothing names an entry that is not handed out. */
  lemma NextIsUnnamed(st0: State, s: Progress, p: Identifier, q: Measure)
    requires Sound(st0, s)
    ensures q.Named(s.st.outputs, (p, s.st.NextLogId(p))) == 0
  {
    forall k | k in s.st.outputs ensures !Names(s.st.outputs[k], (p, s.st.NextLogId(p))) {
      assert OutputSound(st0, s, k);
    }
    NamedByNone(q, s.st.outputs, (p, s.st.NextLogId(p)));
  }

  lemma FoundParts(s: Progress, p: Identifier)
    requires p !in s.foundParents
    ensures var s' := s.FindParent(p);
      && s'.foundParents == s.foundParents[p := 0] && s'.stats == s.stats[p := RestoredTxStats(s.st.NextLogId(p), 0, 0)]
      && s'.st.outputs == s.st.outputs && s'.st.logs == s.st.logs
      && s'.st.NextLogId(p) == s.st.NextLogId(p) + 1 && forall p' :: p' != p ==> s'.st.NextLogId(p') == s.st.NextLogId(p')
  {
  }

  lemma FoundOutputSound(st0: State, s: Progress, p: Identifier, k: OutputKey)
    requires p !in s.foundParents && k in s.st.outputs && OutputSound(st0, s, k)
    ensures k in s.FindParent(p).st.outputs && OutputSound(st0, s.FindParent(p), k)
  {
    FoundParts(s, p);
    hide Progress.FindParent;
  }

  lemma FoundStatsSound(st0: State, s: Progress, p: Identifier, p': Identifier)
    requires Sound(st0, s) && p !in s.foundParents && p' in s.FindParent(p).stats
    ensures StatsSound(s.FindParent(p), p')
  {
    FoundParts(s, p);
    var e := (p, s.st.NextLogId(p));
    if p' == p {
      if e in s.st.logs {
        EntryIsSound(st0, s, e);
      }
      hide Progress.FindParent, Sound, SumOf, Measure.Named;
      forall q: Measure ensures q.Named(s.st.outputs, e) == 0 {
        NextIsUnnamed(st0, s, p, q);
      }
    } else {
      StatsAreSound(st0, s, p');
      hide Progress.FindParent, Sound, SumOf, Measure.Named;
    }
  }

  lemma FoundEntrySound(st0: State, s: Progress, p: Identifier, e: LogKey)
    requires p !in s.foundParents && e in s.st.logs && EntrySound(st0, s, e)
    ensures e in s.FindParent(p).st.logs && EntrySound(st0, s.FindParent(p), e)
  {
    FoundParts(s, p);
    hide Progress.FindParent, SumOf, Measure.Named;
  }

  lemma FindParentSound(st0: State, s: Progress, p: Identifier)
    requires Sound(st0, s)
    ensures Sound(st0, s.FindParent(p))
  {
    var s' := s.FindParent(p);
    hide OutputSound, StatsSound, EntrySound;
    if p !in s.foundParents {
      FoundParts(s, p);
      hide Progress.FindParent;
      forall k | k in s'.st.outputs ensures OutputSound(st0, s', k) {
        FoundOutputSound(st0, s, p, k);
      }
      forall p' | p' in s'.stats ensures StatsSound(s', p') {
        FoundStatsSound(st0, s, p, p');
      }
      forall e | e in s'.st.logs ensures EntrySound(st0, s', e) {
        FoundEntrySound(st0, s, p, e);
      }
    }
  }

  /** Two stages of a restore that differ in the children seen only. */
  ghost predicate OnlyChildrenSeen(s: Progress, s': Progress) {
    && s'.st == s.st && s'.stats == s.stats && s.foundParents.Keys == s'.foundParents.Keys
    && forall p :: p in s.foundParents ==> s.foundParents[p] <= s'.foundParents[p]
  }

  lemma SeenKeepsOutput(st0: State, s: Progress, s': Progress, k: OutputKey)
    requires OnlyChildrenSeen(s, s') && k in s.st.outputs && OutputSound(st0, s, k)
    ensures OutputSound(st0, s', k)
  {
  }

  lemma SeenKeepsStats(s: Progress, s': Progress, p: Identifier)
    requires OnlyChildrenSeen(s, s') && p in s.stats && StatsSound(s, p)
    ensures StatsSound(s', p)
  {
    hide Measure.Named;
  }

  lemma SeenKeepsEntry(st0: State, s: Progress, s': Progress, e: LogKey)
    requires OnlyChildrenSeen(s, s') && e in s.st.logs && EntrySound(st0, s, e)
    ensures EntrySound(st0, s', e)
  {
    hide Measure.Named;
  }

  lemma SeeChildSound(st0: State, s: Progress, r: OutputResult)
    requires Sound(st0, s) && r.Parent() in s.foundParents
    ensures Sound(st0, s.SeeChild(r)) && r.nChild <= s.SeeChild(r).foundParents[r.Parent()]
  {
    var s' := s.SeeChild(r);
    hide OutputSound, StatsSound, EntrySound;
    assert OnlyChildrenSeen(s, s');
    hide OnlyChildrenSeen;
    forall k | k in s'.st.outputs ensures OutputSound(st0, s', k) {
      SeenKeepsOutput(st0, s, s', k);
    }
    forall p | p in s'.stats ensures StatsSound(s', p) {
      SeenKeepsStats(s, s', p);
    }
    forall e | e in s'.st.logs ensures EntrySound(st0, s', e) {
      SeenKeepsEntry(st0, s, s', e);
    }
  }

  /** An output that can be restored next. */
  ghost predicate FitsNext(s: Progress, r: OutputResult) {
    && r.nChild == r.keyId.LastPathIndex() && r.Key() !in s.st.outputs
    && r.Parent() in s.foundParents && r.Parent() in s.stats && r.nChild <= s.foundParents[r.Parent()]
  }

  lemma CoinbaseParts(s: Progress, r: OutputResult)
    ensures var s', e := s.RestoreCoinbase(r), (r.Parent(), s.st.NextLogId(r.Parent()));
      && s'.foundParents == s.foundParents && s'.stats == s.stats
      && s'.st.outputs == s.st.outputs[r.Key() := RestoredOutput(r, e.1)]
      && s'.st.logs == s.st.logs[e := CoinbaseEntry(r, e.1)]
      && s'.st.NextLogId(e.0) == e.1 + 1 && forall p :: s.st.NextLogId(p) <= s'.st.NextLogId(p)
  {
  }

  lemma NewCoinbaseSound(st0: State, s: Progress, r: OutputResult)
    requires FitsNext(s, r) && r.isCoinbase && IdsBelow(st0, s.st)
    ensures r.Key() in s.RestoreCoinbase(r).st.outputs && OutputSound(st0, s.RestoreCoinbase(r), r.Key())
  {
    CoinbaseParts(s, r);
    hide Progress.RestoreCoinbase;
  }

  lemma CoinbaseOutputSound(st0: State, s: Progress, r: OutputResult, k: OutputKey)
    requires Sound(st0, s) && FitsNext(s, r) && r.isCoinbase && IdsBelow(st0, s.st) && k in s.RestoreCoinbase(r).st.outputs
    ensures OutputSound(st0, s.RestoreCoinbase(r), k)
  {
    CoinbaseParts(s, r);
    hide Sound, Progress.RestoreCoinbase, IdsBelow;
    if k == r.Key() {
      hide OutputSound;
      NewCoinbaseSound(st0, s, r);
    } else {
      hide FitsNext;
      OutputIsSound(st0, s, k);
    }
  }

  lemma CoinbaseStatsSound(st0: State, s: Progress, r: OutputResult, p: Identifier)
    requires Sound(st0, s) && FitsNext(s, r) && r.isCoinbase && p in s.stats
    ensures StatsSound(s.RestoreCoinbase(r), p)
  {
    hide SumOf, Measure.Named, Measure.InEntry;
    var s' := s.RestoreCoinbase(r);
    assert StatsSound(s, p);
    forall q: Measure ensures q.Named(s'.st.outputs, (p, s.stats[p].logId)) == q.Named(s.st.outputs, (p, s.stats[p].logId)) {
      NamedElsewhere(q, s.st.outputs, r, s.st.NextLogId(r.Parent()), (p, s.stats[p].logId));
    }
  }

  lemma CoinbaseSound(st0: State, s: Progress, r: OutputResult)
    requires Sound(st0, s) && FitsNext(s, r) && r.isCoinbase && IdsBelow(st0, s.st)
    ensures Sound(st0, s.RestoreCoinbase(r))
  {
    hide OutputSound, StatsSound, EntrySound, FitsNext, IdsBelow;
    var s' := s.RestoreCoinbase(r);
    forall k | k in s'.st.outputs ensures OutputSound(st0, s', k) {
      CoinbaseOutputSound(st0, s, r, k);
    }
    forall p | p in s'.stats ensures StatsSound(s', p) {
      CoinbaseStatsSound(st0, s, r, p);
    }
    forall e | e in s'.st.logs ensures EntrySound(st0, s', e) {
      CoinbaseEntrySound(st0, s, r, e);
    }
  }

  lemma NamedElsewhere(q: Measure, m: map<OutputKey, OutputData>, r: OutputResult, logId: nat, e: LogKey)
    requires r.Key() !in m && e != (r.Parent(), logId)
    ensures q.Named(m[r.Key() := RestoredOutput(r, logId)], e) == q.Named(m, e)
  {
    NamedInsert(q, m, r.Key(), RestoredOutput(r, logId), e);
  }

  lemma CoinbaseEntrySound(st0: State, s: Progress, r: OutputResult, e: LogKey)
    requires Sound(st0, s) && FitsNext(s, r) && r.isCoinbase && IdsBelow(st0, s.st)
    requires e in s.RestoreCoinbase(r).st.logs
    ensures EntrySound(st0, s.RestoreCoinbase(r), e)
  {
    CoinbaseParts(s, r);
    hide SumOf, Measure.Named, Measure.InEntry, Sound, Progress.RestoreCoinbase, RestoredOutput;
    if e == (r.Parent(), s.st.NextLogId(r.Parent())) {
      CoinbaseIsAccounted(st0, s, r);
    } else {
      EntryIsSound(st0, s, e);
      forall q: Measure ensures q.Named(s.RestoreCoinbase(r).st.outputs, e) == q.Named(s.st.outputs, e) {
        NamedElsewhere(q, s.st.outputs, r, s.st.NextLogId(r.Parent()), e);
      }
    }
  }

  lemma CoinbaseIsAccounted(st0: State, s: Progress, r: OutputResult)
    requires Sound(st0, s) && r.Key() !in s.st.outputs
    ensures var e := (r.Parent(), s.st.NextLogId(r.Parent()));
      forall q: Measure ::
        q.Named(s.st.outputs[r.Key() := RestoredOutput(r, e.1)], e) == q.OfEntry(CoinbaseEntry(r, e.1))
  {
    var logId := s.st.NextLogId(r.Parent());
    hide SumOf, Measure.Named, Measure.InEntry, Sound;
    forall q: Measure
      ensures q.Named(s.st.outputs[r.Key() := RestoredOutput(r, logId)], (r.Parent(), logId)) == q.OfEntry(CoinbaseEntry(r, logId))
    {
      NextIsUnnamed(st0, s, r.Parent(), q);
      NamedInsert(q, s.st.outputs, r.Key(), RestoredOutput(r, logId), (r.Parent(), logId));
    }
  }

  lemma PlainParts(s: Progress, r: OutputResult)
    requires r.Parent() in s.stats
    ensures var s', p := s.RestorePlain(r), r.Parent();
      && s'.foundParents == s.foundParents && s'.stats == s.stats[p := s'.stats[p]] && s'.stats[p].logId == s.stats[p].logId
      && s'.st == s.st.(outputs := s.st.outputs[r.Key() := RestoredOutput(r, s.stats[p].logId)])
  {
  }

  lemma NewPlainSound(st0: State, s: Progress, r: OutputResult)
    requires FitsNext(s, r) && !r.isCoinbase && StatsSound(s, r.Parent()) && st0.logs.Keys <= s.st.logs.Keys
    ensures r.Key() in s.RestorePlain(r).st.outputs && OutputSound(st0, s.RestorePlain(r), r.Key())
  {
    PlainParts(s, r);
    hide Progress.RestorePlain, SumOf, Measure.Named;
  }

  lemma OtherPlainSound(st0: State, s: Progress, r: OutputResult, k: OutputKey)
    requires r.Parent() in s.stats && k in s.st.outputs && k != r.Key() && OutputSound(st0, s, k)
    ensures k in s.RestorePlain(r).st.outputs && OutputSound(st0, s.RestorePlain(r), k)
  {
    PlainParts(s, r);
    hide Progress.RestorePlain, RestoredOutput;
  }

  lemma PlainOutputSound(st0: State, s: Progress, r: OutputResult, k: OutputKey)
    requires Sound(st0, s) && FitsNext(s, r) && !r.isCoinbase && k in s.RestorePlain(r).st.outputs
    ensures OutputSound(st0, s.RestorePlain(r), k)
  {
    PlainParts(s, r);
    assert st0.logs.Keys <= s.st.logs.Keys;
    hide Sound, Progress.RestorePlain, StatsSound, RestoredOutput;
    hide OutputSound;
    if k == r.Key() {
      StatsAreSound(st0, s, r.Parent());
      NewPlainSound(st0, s, r);
    } else {
      OutputIsSound(st0, s, k);
      OtherPlainSound(st0, s, r, k);
    }
  }

  lemma PlainStatsSound(st0: State, s: Progress, r: OutputResult, p: Identifier)
    requires Sound(st0, s) && FitsNext(s, r) && !r.isCoinbase && p in s.stats
    ensures StatsSound(s.RestorePlain(r), p)
  {
    hide SumOf, Measure.Named, Measure.InEntry;
    var s' := s.RestorePlain(r);
    var e := (p, s.stats[p].logId);
    assert StatsSound(s, p);
    forall q: Measure ensures q.OfStats(s'.stats[p]) == q.Named(s'.st.outputs, e) {
      NamedInsert(q, s.st.outputs, r.Key(), RestoredOutput(r, s.stats[r.Parent()].logId), e);
    }
  }

  lemma PlainEntrySound(st0: State, s: Progress, r: OutputResult, e: LogKey)
    requires Sound(st0, s) && FitsNext(s, r) && !r.isCoinbase && e in s.st.logs
    ensures EntrySound(st0, s.RestorePlain(r), e)
  {
    hide SumOf, Measure.Named, Measure.InEntry;
    var s' := s.RestorePlain(r);
    assert EntrySound(st0, s, e) && StatsSound(s, r.Parent());
    forall q: Measure ensures q.Named(s'.st.outputs, e) == q.Named(s.st.outputs, e) {
      NamedElsewhere(q, s.st.outputs, r, s.stats[r.Parent()].logId, e);
    }
  }

  lemma PlainSound(st0: State, s: Progress, r: OutputResult)
    requires Sound(st0, s) && FitsNext(s, r) && !r.isCoinbase
    ensures Sound(st0, s.RestorePlain(r))
  {
    hide OutputSound, StatsSound, EntrySound;
    var s' := s.RestorePlain(r);
    forall k | k in s'.st.outputs ensures OutputSound(st0, s', k) {
      PlainOutputSound(st0, s, r, k);
    }
    forall p | p in s'.stats ensures StatsSound(s', p) {
      PlainStatsSound(st0, s, r, p);
    }
    forall e | e in s'.st.logs ensures EntrySound(st0, s', e) {
      PlainEntrySound(st0, s, r, e);
    }
  }

  /** The children seen can be noted first. */
  lemma SeenFirst(s: Progress, r: OutputResult)
    requires r.Parent() in s.foundParents ==> r.Parent() in s.stats
    ensures var s2 := s.FindParent(r.Parent()).SeeChild(r);
      s.RestoreOne(r) == if r.isCoinbase then s2.RestoreCoinbase(r) else s2.RestorePlain(r)
  {
  }

  lemma SeenIsNext(s: Progress, r: OutputResult)
    requires r.nChild == r.keyId.LastPathIndex() && r.Key() !in s.st.outputs
    requires r.Parent() in s.foundParents ==> r.Parent() in s.stats
    ensures FitsNext(s.FindParent(r.Parent()).SeeChild(r), r)
  {
  }

  lemma IdsStayBelow(st0: State, s: Progress, r: OutputResult)
    requires IdsBelow(st0, s.st) && (r.Parent() in s.foundParents ==> r.Parent() in s.stats)
    ensures IdsBelow(st0, s.FindParent(r.Parent()).SeeChild(r).st) && IdsBelow(st0, s.RestoreOne(r).st)
  {
  }

  lemma RestoreOneSound(st0: State, s: Progress, r: OutputResult)
    requires Sound(st0, s) && IdsBelow(st0, s.st)
    requires r.nChild == r.keyId.LastPathIndex() && r.Key() !in s.st.outputs
    ensures Sound(st0, s.RestoreOne(r)) && IdsBelow(st0, s.RestoreOne(r).st)
  {
    assert s.foundParents.Keys == s.stats.Keys;
    hide *;
    FindParentSound(st0, s, r.Parent());
    SeeChildSound(st0, s.FindParent(r.Parent()), r);
    SeenFirst(s, r);
    SeenIsNext(s, r);
    IdsStayBelow(st0, s, r);
    if r.isCoinbase {
      CoinbaseSound(st0, s.FindParent(r.Parent()).SeeChild(r), r);
    } else {
      PlainSound(st0, s.FindParent(r.Parent()).SeeChild(r), r);
    }
  }

  // ----- the outputs

  /** Each of the results is saved, and nothing else. */
  ghost predicate Holds(st: State, rs: seq<OutputResult>) {
    && (forall i :: 0 <= i < |rs| ==> IsSaved(st, rs[i]))
    && (forall k :: k in st.outputs ==> exists i :: 0 <= i < |rs| && rs[i].Key() == k)
  }

  ghost predicate IsSaved(st: State, r: OutputResult) {
    && r.Key() in st.outputs && st.outputs[r.Key()].txLogEntry.Some?
    && st.outputs[r.Key()] == RestoredOutput(r, st.outputs[r.Key()].txLogEntry.value)
  }

  ghost predicate Restorable(rs: seq<OutputResult>) {
    && (forall i :: 0 <= i < |rs| ==> rs[i].nChild == rs[i].keyId.LastPathIndex())
    && DistinctKeys(rs)
  }

  lemma RestoreOneSaves(s: Progress, r: OutputResult)
    requires r.Parent() in s.foundParents ==> r.Parent() in s.stats
    ensures var s' := s.RestoreOne(r);
      IsSaved(s'.st, r) && s'.st.outputs == s.st.outputs[r.Key() := s'.st.outputs[r.Key()]]
  {
  }

  lemma {:induction false} RestoreAllSound(st0: State, rs: seq<OutputResult>)
    requires st0.outputs == map[] && Restorable(rs) && LogOk(st0)
    ensures Sound(st0, RestoreAll(st0, rs)) && IdsBelow(st0, RestoreAll(st0, rs).st) && Holds(RestoreAll(st0, rs).st, rs)
  {
    if rs == [] {
    } else {
      var n := |rs| - 1;
      var s := RestoreAll(st0, rs[..n]);
      RestorableFront(rs);
      hide Sound, IdsBelow, Progress.RestoreOne, LogOk, IsSaved, Restorable, DistinctKeys, Holds;
      RestoreAllSound(st0, rs[..n]);
      NotYetSaved(s.st, rs);
      RestoreOneSound(st0, s, rs[n]);
      RestoreOneSaves(s, rs[n]);
      OneMoreHeld(s.st, RestoreAll(st0, rs).st, rs);
    }
  }

  lemma RestorableFront(rs: seq<OutputResult>)
    requires rs != [] && Restorable(rs)
    ensures Restorable(rs[..|rs| - 1]) && DistinctKeys(rs) && rs[|rs| - 1].nChild == rs[|rs| - 1].keyId.LastPathIndex()
  {
    var n := |rs| - 1;
    forall i | 0 <= i < n ensures rs[..n][i].nChild == rs[..n][i].keyId.LastPathIndex() {
      assert rs[..n][i] == rs[i];
    }
    forall i, j | 0 <= i < j < n ensures rs[..n][i].Key() != rs[..n][j].Key() {
      assert rs[..n][i] == rs[i] && rs[..n][j] == rs[j];
    }
  }

  lemma NotYetSaved(st: State, rs: seq<OutputResult>)
    requires rs != [] && Holds(st, rs[..|rs| - 1]) && DistinctKeys(rs)
    ensures rs[|rs| - 1].Key() !in st.outputs
  {
    hide IsSaved;
    var n := |rs| - 1;
    forall i | 0 <= i < n ensures rs[..n][i].Key() != rs[n].Key() {
      assert rs[..n][i] == rs[i];
    }
  }

  lemma OneMoreHeld(st: State, st': State, rs: seq<OutputResult>)
    requires rs != [] && Holds(st, rs[..|rs| - 1]) && DistinctKeys(rs) && IsSaved(st', rs[|rs| - 1])
    requires st'.outputs == st.outputs[rs[|rs| - 1].Key() := st'.outputs[rs[|rs| - 1].Key()]]
    ensures Holds(st', rs)
  {
    var n := |rs| - 1;
    forall i | 0 <= i < |rs| ensures IsSaved(st', rs[i]) {
      if i < n {
        assert IsSaved(st, rs[..n][i]);
      }
    }
    forall k | k in st'.outputs ensures exists i :: 0 <= i < |rs| && rs[i].Key() == k {
      if k != rs[n].Key() {
        var i :| 0 <= i < n && rs[..n][i].Key() == k;
        assert rs[i].Key() == k;
      }
    }
  }

  /** Log entries are stored under their own account and id, and ids in use are below
      the next one. */
  ghost predicate LogOk(st: State) {
    forall e :: e in st.logs ==> st.logs[e].parentKeyId == e.0 && st.logs[e].id == e.1 && e.1 < st.NextLogId(e.0)
  }

  // ----- what a restore leaves behind

  function NewEntries(st0: State, st: State): map<LogKey, TxLogEntry> {
    map e | e in st.logs.Keys - st0.logs.Keys :: st.logs[e]
  }

  /** A new entry is confirmed and credits what the outputs that name it add up to. */
  ghost predicate EntryAccounts(st: State, e: LogKey)
    requires e in st.logs
  {
    var t := st.logs[e];
    && t.parentKeyId == e.0 && t.id == e.1 && e.1 < st.NextLogId(e.0)
    && t.confirmed && (t.txType == ConfirmedCoinbase || t.txType == TxReceived)
    && t.txSlateId == None && t.numInputs == 0 && t.amountDebited == 0 && t.fee == None
    && forall q: Measure :: q.OfEntry(t) == q.Named(st.outputs, e)
  }

  /** An output names a new entry, of its kind and account, and its key will not be
      handed out again. */
  ghost predicate OutputAccounts(st0: State, st: State, k: OutputKey)
    requires k in st.outputs
  {
    var o := st.outputs[k];
    && o.Key() == k && o.txLogEntry.Some? && EntryOf(o) in st.logs && EntryOf(o) !in st0.logs
    && st.logs[EntryOf(o)].txType == (if o.isCoinbase then ConfirmedCoinbase else TxReceived)
    && o.rootKeyId == o.keyId.ParentPath() && o.nChild == o.keyId.LastPathIndex() && o.nChild < st.ChildIndex(o.rootKeyId)
  }

  lemma FinishedParts(s: Progress)
    ensures var st := s.Finished();
      && st.outputs == s.st.outputs && st.nextLogId == s.st.nextLogId
      && st.logs == WithEntries(s.st.logs, s.stats) && st.childIndex == WithChildren(s.st.childIndex, s.foundParents)
  {
  }

  lemma FinishedEntry(st0: State, s: Progress, e: LogKey)
    requires Sound(st0, s) && e in s.Finished().logs
    ensures if e in st0.logs then s.Finished().logs[e] == st0.logs[e] else EntryAccounts(s.Finished(), e)
  {
    FinishedParts(s);
    assert st0.logs.Keys <= s.st.logs.Keys;
    hide SumOf, Measure.Named, Progress.Finished, WithChildren, Sound, EntryAccounts;
    if e in EntryKeys(s.stats) {
      StatsAreSound(st0, s, e.0);
      FinishedStats(s, e.0);
    } else {
      EntryIsSound(st0, s, e);
      FinishedOther(st0, s, e);
    }
  }

  lemma FinishedStats(s: Progress, p: Identifier)
    requires p in s.stats && StatsSound(s, p)
    ensures (p, s.stats[p].logId) in s.Finished().logs && EntryAccounts(s.Finished(), (p, s.stats[p].logId))
  {
    FinishedParts(s);
    hide SumOf, Measure.Named, Progress.Finished, WithChildren;
  }

  lemma FinishedOther(st0: State, s: Progress, e: LogKey)
    requires e in s.st.logs && EntrySound(st0, s, e) && e !in EntryKeys(s.stats)
    ensures e in s.Finished().logs
    ensures if e in st0.logs then s.Finished().logs[e] == st0.logs[e] else EntryAccounts(s.Finished(), e)
  {
    FinishedParts(s);
    hide SumOf, Measure.Named, Progress.Finished, WithChildren, EntryKeys;
  }

  lemma FinishedKind(st0: State, s: Progress, k: OutputKey)
    requires Sound(st0, s) && k in s.st.outputs
    ensures var o, logs := s.st.outputs[k], s.Finished().logs;
      && o.txLogEntry.Some? && EntryOf(o) in logs && EntryOf(o) !in st0.logs
      && logs[EntryOf(o)].txType == if o.isCoinbase then ConfirmedCoinbase else TxReceived
  {
    hide SumOf, Measure.Named;
    var o := s.st.outputs[k];
    assert OutputSound(st0, s, k) && StatsSound(s, o.rootKeyId);
    if o.isCoinbase {
      assert EntrySound(st0, s, EntryOf(o)) && EntryOf(o) !in EntryKeys(s.stats);
    } else {
      assert EntryOf(o) in EntryKeys(s.stats);
    }
  }

  lemma FinishedOutput(st0: State, s: Progress, k: OutputKey)
    requires Sound(st0, s) && k in s.Finished().outputs
    ensures OutputAccounts(st0, s.Finished(), k)
  {
    FinishedKind(st0, s, k);
    assert OutputSound(st0, s, k);
    hide WithEntries;
  }

  // ----- sums per account

  function InEntries(q: Measure, es: set<LogKey>, p: Identifier): OutputData -> nat {
    (o: OutputData) => if o.txLogEntry.Some? && EntryOf(o) in es && o.rootKeyId == p then q.OfOutput(o) else 0
  }

  lemma OneMoreEntryIn(q: Measure, es: set<LogKey>, e: LogKey, outs: map<OutputKey, OutputData>, p: Identifier)
    requires e !in es
    ensures SumOf(outs, InEntries(q, es + {e}, p)) == SumOf(outs, InEntries(q, es, p)) + if e.0 == p then q.Named(outs, e) else 0
  {
    if e.0 == p {
      SumAdds(outs, q.InEntry(e), InEntries(q, es, p), InEntries(q, es + {e}, p));
    } else {
      SumCongruence(outs, outs, InEntries(q, es, p), InEntries(q, es + {e}, p));
    }
  }

  /** What the entries of an account credit is what the outputs naming them are worth. */
  lemma {:induction false} SumOfEntries(q: Measure, logs: map<LogKey, TxLogEntry>, outs: map<OutputKey, OutputData>, p: Identifier)
    requires forall e :: e in logs ==> logs[e].parentKeyId == e.0 && q.OfEntry(logs[e]) == q.Named(outs, e)
    ensures SumOf(logs, q.OfAccount(p)) == SumOf(outs, InEntries(q, logs.Keys, p))
    decreases |logs|
  {
    hide SumOf, Measure.Named, InEntries;
    if logs == map[] {
      NoEntries(q, logs, outs, p);
    } else {
      var e :| e in logs;
      var rest := logs - {e};
      SumRemove(logs, q.OfAccount(p), e);
      SumOfEntries(q, rest, outs, p);
      OneMoreEntryIn(q, rest.Keys, e, outs, p);
      assert rest.Keys + {e} == logs.Keys;
    }
  }

  lemma NoEntries(q: Measure, logs: map<LogKey, TxLogEntry>, outs: map<OutputKey, OutputData>, p: Identifier)
    requires logs == map[]
    ensures SumOf(logs, q.OfAccount(p)) == SumOf(outs, InEntries(q, logs.Keys, p))
  {
    SumOfZero(outs, InEntries(q, logs.Keys, p));
  }

  lemma AccountSums(q: Measure, logs: map<LogKey, TxLogEntry>, outs: map<OutputKey, OutputData>, p: Identifier)
    requires forall e :: e in logs ==> logs[e].parentKeyId == e.0 && q.OfEntry(logs[e]) == q.Named(outs, e)
    requires forall k :: k in outs ==> outs[k].txLogEntry.Some? && EntryOf(outs[k]) in logs
    ensures SumOf(logs, q.OfAccount(p)) == SumOf(outs, q.InAccount(p))
  {
    SumOfEntries(q, logs, outs, p);
    SumCongruence(outs, outs, InEntries(q, logs.Keys, p), q.InAccount(p));
  }

  lemma {:induction false} IdentifiedChildren(chain: seq<ChainOutput>)
    ensures forall i :: 0 <= i < |Identified(chain)| ==> Identified(chain)[i].nChild == Identified(chain)[i].keyId.LastPathIndex()
  {
    if chain == [] {
    } else {
      IdentifiedChildren(chain[..|chain| - 1]);
    }
  }

  /** A restore into a store without outputs saves exactly the wallet's outputs among
      those seen. Every entry it writes credits, and counts, exactly the outputs that
      name it; every output names such an entry of its account and kind, under a key
      below the account's next child; older entries stay. */
  lemma RestoreAccountsForAll(st0: State, seen: seq<ChainOutput>)
    requires st0.outputs == map[] && LogOk(st0) && Ascending(seen)
    ensures Accounts(st0, Restored(st0, seen), Identified(seen))
  {
    var rs := Identified(seen);
    IdentifiedDistinct(seen);
    IdentifiedChildren(seen);
    RestoreAllSound(st0, rs);
    hide Identified, RestoreAll, LogOk, Ascending, Restorable;
    FinishedAccounts(st0, RestoreAll(st0, rs), rs);
  }

  ghost predicate Accounts(st0: State, st: State, rs: seq<OutputResult>) {
    && Holds(st, rs)
    && (forall e :: e in st0.logs ==> e in st.logs && st.logs[e] == st0.logs[e] && e.1 < st.NextLogId(e.0))
    && (forall e :: e in st.logs && e !in st0.logs ==> EntryAccounts(st, e))
    && (forall k :: k in st.outputs ==> OutputAccounts(st0, st, k))
  }

  lemma FinishedAccounts(st0: State, s: Progress, rs: seq<OutputResult>)
    requires Sound(st0, s) && IdsBelow(st0, s.st) && Holds(s.st, rs)
    ensures Accounts(st0, s.Finished(), rs)
  {
    var st := s.Finished();
    FinishedHolds(s, rs);
    FinishedKeepsOld(st0, s);
    hide *;
    forall e | e in st.logs ensures if e in st0.logs then st.logs[e] == st0.logs[e] else EntryAccounts(st, e) {
      FinishedEntry(st0, s, e);
    }
    forall k | k in st.outputs ensures OutputAccounts(st0, st, k) {
      FinishedOutput(st0, s, k);
    }
    PartsAccount(st0, st, rs);
  }

  lemma PartsAccount(st0: State, st: State, rs: seq<OutputResult>)
    requires Holds(st, rs) && forall e :: e in st0.logs ==> e in st.logs && e.1 < st.NextLogId(e.0)
    requires forall e :: e in st.logs ==> if e in st0.logs then st.logs[e] == st0.logs[e] else EntryAccounts(st, e)
    requires forall k :: k in st.outputs ==> OutputAccounts(st0, st, k)
    ensures Accounts(st0, st, rs)
  {
    hide Holds, EntryAccounts, OutputAccounts;
  }

  lemma FinishedHolds(s: Progress, rs: seq<OutputResult>)
    requires Holds(s.st, rs)
    ensures Holds(s.Finished(), rs)
  {
    forall i | 0 <= i < |rs| ensures IsSaved(s.Finished(), rs[i]) {
      assert IsSaved(s.st, rs[i]);
    }
  }

  lemma FinishedKeepsOld(st0: State, s: Progress)
    requires Sound(st0, s) && IdsBelow(st0, s.st)
    ensures forall e :: e in st0.logs ==> e in s.Finished().logs && e.1 < s.Finished().NextLogId(e.0)
  {
    hide OutputSound, StatsSound, EntrySound;
  }

  /** So account by account the amounts credited, and the numbers of outputs, of the
      entries written add up to those of the outputs saved. */
  lemma RestoreSums(st0: State, seen: seq<ChainOutput>, p: Identifier, q: Measure)
    requires st0.outputs == map[] && LogOk(st0) && Ascending(seen)
    ensures var st := Restored(st0, seen);
      SumOf(NewEntries(st0, st), q.OfAccount(p)) == SumOf(st.outputs, q.InAccount(p))
  {
    RestoreAccountsForAll(st0, seen);
    hide Restored, SumOf, Measure.Named, Holds;
    var st := Restored(st0, seen);
    forall e | e in NewEntries(st0, st) ensures EntryAccounts(st, e) {
    }
    forall k | k in st.outputs ensures OutputAccounts(st0, st, k) {
    }
    AccountSums(q, NewEntries(st0, st), st.outputs, p);
  }

  /** And whichever account is active then, the next key is new. */
  lemma NextKeyAfterRestore(st0: State, seen: seq<ChainOutput>, account: Identifier)
    requires st0.outputs == map[] && LogOk(st0) && Ascending(seen)
    ensures var st := SwitchAccount(Restored(st0, seen), account);
      forall k :: k in st.outputs ==> st.outputs[k].keyId != st.NextKey()
  {
    RestoreAccountsForAll(st0, seen);
    hide Restored, Holds, EntryAccounts;
    var st := Restored(st0, seen);
    var next := SwitchAccount(st, account).NextKey();
    assert next.path[..|next.path| - 1] == account.path;
    forall k | k in st.outputs ensures st.outputs[k].keyId != next {
      assert OutputAccounts(st0, st, k);
    }
  }

  // ----- the next children

  /** An output of the account, with this child number. */
  ghost predicate HasChild(m: map<OutputKey, OutputData>, p: Identifier, n: nat) {
    exists k :: k in m && m[k].rootKeyId == p && m[k].nChild == n
  }

  /** The highest child found of each account is that of one of its outputs. */
  ghost predicate ChildrenFound(st0: State, s: Progress) {
    && s.st.childIndex == st0.childIndex
    && (forall p :: p in s.foundParents ==> HasChild(s.st.outputs, p, s.foundParents[p]))
    && (forall k :: k in s.st.outputs ==>
          s.st.outputs[k].rootKeyId in s.foundParents && s.st.outputs[k].nChild <= s.foundParents[s.st.outputs[k].rootKeyId])
  }

  lemma ChildStays(m: map<OutputKey, OutputData>, k: OutputKey, o: OutputData, p: Identifier, n: nat)
    requires k !in m && HasChild(m, p, n)
    ensures HasChild(m[k := o], p, n)
  {
    var k' :| k' in m && m[k'].rootKeyId == p && m[k'].nChild == n;
    assert m[k := o][k'] == m[k'];
  }

  lemma OneMoreChildFound(st0: State, s: Progress, r: OutputResult)
    requires ChildrenFound(st0, s) && r.Key() !in s.st.outputs && (r.Parent() in s.foundParents ==> r.Parent() in s.stats)
    ensures ChildrenFound(st0, s.RestoreOne(r))
  {
    RestoreOneSaves(s, r);
    FoundAfter(s, r);
    SavedUnder(s.RestoreOne(r).st, r);
    hide Progress.RestoreOne, RestoredOutput, IsSaved;
    FoundOneMore(st0, s, s.RestoreOne(r), r.Key(), r.Parent(), r.nChild);
  }

  lemma SavedUnder(st: State, r: OutputResult)
    requires IsSaved(st, r)
    ensures r.Key() in st.outputs && st.outputs[r.Key()].rootKeyId == r.Parent() && st.outputs[r.Key()].nChild == r.nChild
  {
  }

  lemma FoundOneMore(st0: State, s: Progress, s': Progress, k: OutputKey, p: Identifier, n: nat)
    requires ChildrenFound(st0, s) && k !in s.st.outputs && s'.st.childIndex == s.st.childIndex
    requires k in s'.st.outputs && s'.st.outputs == s.st.outputs[k := s'.st.outputs[k]]
    requires s'.st.outputs[k].rootKeyId == p && s'.st.outputs[k].nChild == n
    requires s'.foundParents.Keys == s.foundParents.Keys + {p}
    requires forall q :: q in s.foundParents && q != p ==> s'.foundParents[q] == s.foundParents[q]
    requires s'.foundParents[p] == if p in s.foundParents && s.foundParents[p] > n then s.foundParents[p] else n
    ensures ChildrenFound(st0, s')
  {
    NewChild(s'.st.outputs, k, p, n);
    hide HasChild;
    forall q | q in s'.foundParents ensures HasChild(s'.st.outputs, q, s'.foundParents[q]) {
      if q in s.foundParents && s'.foundParents[q] == s.foundParents[q] {
        ChildStays(s.st.outputs, k, s'.st.outputs[k], q, s.foundParents[q]);
      }
    }
  }

  lemma NewChild(m: map<OutputKey, OutputData>, k: OutputKey, p: Identifier, n: nat)
    requires k in m && m[k].rootKeyId == p && m[k].nChild == n
    ensures HasChild(m, p, n)
  {
  }

  lemma FoundAfter(s: Progress, r: OutputResult)
    requires r.Parent() in s.foundParents ==> r.Parent() in s.stats
    ensures var s', p := s.RestoreOne(r), r.Parent();
      && s'.st.childIndex == s.st.childIndex && s'.foundParents.Keys == s.foundParents.Keys + {p}
      && (forall q :: q in s.foundParents && q != p ==> s'.foundParents[q] == s.foundParents[q])
      && s'.foundParents[p] == if p in s.foundParents && s.foundParents[p] > r.nChild then s.foundParents[p] else r.nChild
  {
    var f := s.FindParent(r.Parent());
    var g := if r.isCoinbase then f.RestoreCoinbase(r) else f.RestorePlain(r);
    assert g.foundParents == f.foundParents && g.st.childIndex == f.st.childIndex;
    hide Progress.RestoreCoinbase, Progress.RestorePlain;
    FoundKeys(s, r.Parent());
    hide Progress.FindParent;
  }

  lemma FoundKeys(s: Progress, p: Identifier)
    ensures var f := s.FindParent(p);
      && f.st.childIndex == s.st.childIndex
      && f.foundParents == if p in s.foundParents then s.foundParents else s.foundParents[p := 0]
  {
  }

  lemma {:induction false} AllChildrenFound(st0: State, rs: seq<OutputResult>)
    requires st0.outputs == map[] && Restorable(rs) && LogOk(st0)
    ensures ChildrenFound(st0, RestoreAll(st0, rs))
  {
    if rs == [] {
    } else {
      var n := |rs| - 1;
      RestorableFront(rs);
      hide ChildrenFound, Progress.RestoreOne, LogOk, IsSaved, Restorable, DistinctKeys, Holds, Sound, IdsBelow;
      AllChildrenFound(st0, rs[..n]);
      RestoreAllSound(st0, rs[..n]);
      NotYetSaved(RestoreAll(st0, rs[..n]).st, rs);
      OneMoreChildFound(st0, RestoreAll(st0, rs[..n]), rs[n]);
    }
  }

  /** After a restore the next child of an account is the one past its highest output; an
      account without outputs keeps its next child. */
  lemma NextChildExactly(st0: State, seen: seq<ChainOutput>, p: Identifier)
    requires st0.outputs == map[] && LogOk(st0) && Ascending(seen)
    ensures var st := Restored(st0, seen);
      && (forall k :: k in st.outputs && st.outputs[k].rootKeyId == p ==> st.outputs[k].nChild < st.ChildIndex(p))
      && ((exists k :: k in st.outputs && st.outputs[k].rootKeyId == p) ==>
            exists k :: k in st.outputs && st.outputs[k].rootKeyId == p && st.outputs[k].nChild + 1 == st.ChildIndex(p))
      && ((forall k :: k in st.outputs ==> st.outputs[k].rootKeyId != p) ==> st.ChildIndex(p) == st0.ChildIndex(p))
  {
    var rs := Identified(seen);
    IdentifiedDistinct(seen);
    IdentifiedChildren(seen);
    AllChildrenFound(st0, rs);
    var s := RestoreAll(st0, rs);
    FinishedParts(s);
    hide RestoreAll, LogOk, Ascending, Restorable, Identified, WithEntries;
    if p in s.foundParents {
      var k :| k in s.st.outputs && s.st.outputs[k].rootKeyId == p && s.st.outputs[k].nChild == s.foundParents[p];
      assert s.st.outputs[k].nChild + 1 == s.Finished().ChildIndex(p);
    }
  }

  // ----- what is stored of an output

  /** The record of an output found on the chain: a coinbase is locked for 1440 blocks, any
      other up to its own height. */
  predicate IsRestored(o: OutputData, c: ChainOutput) {
    && c.found.Some? && o.value == c.found.value.0 && o.keyId == c.found.value.1 && o.mmrIndex == Some(c.mmrIndex)
    && o.status == Unspent && o.height == c.height && o.isCoinbase == c.isCoinbase
    && o.lockHeight == c.height + (if c.isCoinbase then 1_440 else 0)
    && (o.keyId.path != [] ==>
          && o.rootKeyId == Identifier(o.keyId.path[..|o.keyId.path| - 1]) && o.nChild == o.keyId.path[|o.keyId.path| - 1])
  }

  /** Results come from outputs that were found, with their records. */
  predicate Describes(r: OutputResult, c: ChainOutput) {
    && c.found.Some? && r.value == c.found.value.0 && r.keyId == c.found.value.1 && r.mmrIndex == c.mmrIndex
    && r.height == c.height && r.isCoinbase == c.isCoinbase
    && r.lockHeight == c.height + (if c.isCoinbase then 1_440 else 0)
    && (r.keyId.path != [] ==> r.nChild == r.keyId.path[|r.keyId.path| - 1])
  }

  lemma {:induction false} IdentifiedExactly(cs: seq<ChainOutput>)
    ensures forall c :: c in cs && c.found.Some? ==> exists r :: r in Identified(cs) && Describes(r, c)
    ensures forall r :: r in Identified(cs) ==> exists c :: c in cs && Describes(r, c)
  {
    if cs == [] {
    } else {
      var front, last := cs[..|cs| - 1], cs[|cs| - 1];
      IdentifiedExactly(front);
      LastDescribed(last);
      assert cs == front + [last];
      assert Identified(cs) == Identified(front) + (if last.found.Some? then [ResultOf(last)] else []);
      OneMoreDescribed(cs, Identified(front), Identified(cs));
    }
  }

  lemma OneMoreDescribed(cs: seq<ChainOutput>, rs: seq<OutputResult>, rs': seq<OutputResult>)
    requires cs != [] && var last := cs[|cs| - 1]; rs' == rs + (if last.found.Some? then [ResultOf(last)] else [])
    requires cs[|cs| - 1].found.Some? ==> Describes(ResultOf(cs[|cs| - 1]), cs[|cs| - 1])
    requires forall c :: c in cs[..|cs| - 1] && c.found.Some? ==> exists r :: r in rs && Describes(r, c)
    requires forall r :: r in rs ==> exists c :: c in cs[..|cs| - 1] && Describes(r, c)
    ensures forall c :: c in cs && c.found.Some? ==> exists r :: r in rs' && Describes(r, c)
    ensures forall r :: r in rs' ==> exists c :: c in cs && Describes(r, c)
  {
    hide Describes, ResultOf;
    var front, last := cs[..|cs| - 1], cs[|cs| - 1];
    assert cs == front + [last];
    forall c | c in cs && c.found.Some? ensures exists r :: r in rs' && Describes(r, c) {
      if c in front {
        var r :| r in rs && Describes(r, c);
        assert r in rs';
      } else {
        assert ResultOf(last) in rs';
      }
    }
    forall r | r in rs' ensures exists c :: c in cs && Describes(r, c) {
      if r in rs {
        var c :| c in front && Describes(r, c);
        assert c in cs;
      }
    }
  }

  lemma LastDescribed(c: ChainOutput)
    ensures c.found.Some? ==> Describes(ResultOf(c), c)
  {
  }

  /** After a restore exactly the outputs that were found among those seen are stored, each
      with its own record. */
  lemma StoredExactly(st0: State, seen: seq<ChainOutput>)
    requires st0.outputs == map[] && LogOk(st0) && Ascending(seen)
    ensures var m := Restored(st0, seen).outputs;
      && (forall c :: c in seen && c.found.Some? ==>
            (c.found.value.1, Some(c.mmrIndex)) in m && IsRestored(m[(c.found.value.1, Some(c.mmrIndex))], c))
      && (forall k :: k in m ==> exists c :: c in seen && c.found.Some? && k == (c.found.value.1, Some(c.mmrIndex)))
  {
    RestoreAccountsForAll(st0, seen);
    IdentifiedExactly(seen);
    HeldRecords(Restored(st0, seen), Identified(seen), seen);
    hide Restored, Identified, LogOk, Ascending, EntryAccounts, OutputAccounts, Holds, IsRestored, Describes;
  }

  lemma HeldRecords(st: State, rs: seq<OutputResult>, seen: seq<ChainOutput>)
    requires Holds(st, rs)
    requires forall c :: c in seen && c.found.Some? ==> exists r :: r in rs && Describes(r, c)
    requires forall r :: r in rs ==> exists c :: c in seen && Describes(r, c)
    ensures forall c :: c in seen && c.found.Some? ==>
      (c.found.value.1, Some(c.mmrIndex)) in st.outputs && IsRestored(st.outputs[(c.found.value.1, Some(c.mmrIndex))], c)
    ensures forall k :: k in st.outputs ==> exists c :: c in seen && c.found.Some? && k == (c.found.value.1, Some(c.mmrIndex))
  {
    hide IsSaved, Describes, IsRestored;
    forall c | c in seen && c.found.Some?
      ensures (c.found.value.1, Some(c.mmrIndex)) in st.outputs && IsRestored(st.outputs[(c.found.value.1, Some(c.mmrIndex))], c)
    {
      var r :| r in rs && Describes(r, c);
      SavedRecord(st, r, c);
    }
    forall k | k in st.outputs ensures exists c :: c in seen && c.found.Some? && k == (c.found.value.1, Some(c.mmrIndex)) {
      var i :| 0 <= i < |rs| && rs[i].Key() == k;
      assert rs[i] in rs;
      var c :| c in seen && Describes(rs[i], c);
      DescribedKey(rs[i], c);
    }
  }

  lemma DescribedKey(r: OutputResult, c: ChainOutput)
    requires Describes(r, c)
    ensures c.found.Some? && r.Key() == (c.found.value.1, Some(c.mmrIndex))
  {
  }

  lemma SavedRecord(st: State, r: OutputResult, c: ChainOutput)
    requires IsSaved(st, r) && Describes(r, c)
    ensures var k := (c.found.value.1, Some(c.mmrIndex)); k in st.outputs && IsRestored(st.outputs[k], c)
  {
  }

  // ----- the invariant of the ledger

  lemma RestoredOutputOk(st0: State, st: State, sent: History, rs: seq<OutputResult>, k: OutputKey)
    requires Accounts(st0, st, rs) && k in st.outputs
    ensures OutputOk(st, sent, k)
  {
    assert OutputAccounts(st0, st, k);
    assert Holds(st, rs);
    var i :| 0 <= i < |rs| && rs[i].Key() == k;
    assert IsSaved(st, rs[i]);
  }

  lemma RestoredEntryOk(st0: State, st: State, sent: History, rs: seq<OutputResult>, e: LogKey)
    requires Accounts(st0, st, rs) && Inv(st0, sent) && e in st.logs
    ensures EntryOk(st, sent, e) && (Live(st, e) ==> Live(st0, e))
  {
    if e in st0.logs {
      assert EntryOk(st0, sent, e);
    } else {
      assert EntryAccounts(st, e);
    }
  }

  lemma RestoredSendOk(st0: State, st: State, sent: History, rs: seq<OutputResult>, e: LogKey)
    requires Accounts(st0, st, rs) && Inv(st0, sent) && st0.outputs == map[] && e in sent
    ensures SendOk(st, sent, e)
  {
    assert SendOk(st0, sent, e);
    RestoredKeepsEntry(st0, st, rs, e);
    assert Live(st0, e) ==> forall k :: k in sent[e] ==> Held(st0, k, e);
  }

  lemma RestoredNoDoubleSpend(st0: State, st: State, sent: History, rs: seq<OutputResult>)
    requires Accounts(st0, st, rs) && Inv(st0, sent)
    ensures NoDoubleSpend(st, sent)
  {
    assert NoDoubleSpend(st0, sent);
    hide Inv, Accounts;
    forall e, e' | e in sent && e' in sent && Live(st, e) && Live(st, e') && e != e' ensures sent[e] !! sent[e'] {
      RestoredEntryOk(st0, st, sent, rs, e);
      RestoredEntryOk(st0, st, sent, rs, e');
    }
  }

  lemma InvHasLogOk(st: State, sent: History)
    requires Inv(st, sent)
    ensures LogOk(st)
  {
    forall e | e in st.logs ensures st.logs[e].parentKeyId == e.0 && st.logs[e].id == e.1 && e.1 < st.NextLogId(e.0) {
      assert EntryOk(st, sent, e);
    }
  }

  /** A restore keeps the invariant exactly when the keys in saved contexts are still
      below the next children. */
  lemma RestoredKeepsInv(st0: State, sent: History, seen: seq<ChainOutput>)
    requires st0.outputs == map[] && Inv(st0, sent) && Ascending(seen)
    ensures var st := Restored(st0, seen);
      && st.contexts == st0.contexts && SpentStays(st0, st)
      && (Inv(st, sent) <==> forall c :: c in st.contexts ==> ContextOk(st, c))
  {
    hide *;
    var st := Restored(st0, seen);
    InvHasLogOk(st0, sent);
    RestoreAccountsForAll(st0, seen);
    RestoredContexts(st0, seen);
    EachIsOk(st0, st, sent, Identified(seen));
    RestoredNoDoubleSpend(st0, st, sent, Identified(seen));
    PartsOfInv(st0, st, sent);
  }

  lemma PartsOfInv(st0: State, st: State, sent: History)
    requires forall k :: k in st.outputs ==> OutputOk(st, sent, k)
    requires forall e :: e in st.logs ==> EntryOk(st, sent, e)
    requires forall e :: e in sent ==> SendOk(st, sent, e)
    requires NoDoubleSpend(st, sent)
    ensures Inv(st, sent) <==> forall c :: c in st.contexts ==> ContextOk(st, c)
    ensures st0.outputs == map[] ==> SpentStays(st0, st)
  {
    hide OutputOk, EntryOk, SendOk, NoDoubleSpend, ContextOk;
  }

  lemma EachIsOk(st0: State, st: State, sent: History, rs: seq<OutputResult>)
    requires Accounts(st0, st, rs) && Inv(st0, sent) && st0.outputs == map[]
    ensures forall k :: k in st.outputs ==> OutputOk(st, sent, k)
    ensures forall e :: e in st.logs ==> EntryOk(st, sent, e)
    ensures forall e :: e in sent ==> SendOk(st, sent, e)
  {
    hide *;
    forall k | k in st.outputs ensures OutputOk(st, sent, k) {
      RestoredOutputOk(st0, st, sent, rs, k);
    }
    forall e | e in st.logs ensures EntryOk(st, sent, e) {
      RestoredEntryOk(st0, st, sent, rs, e);
    }
    forall e | e in sent ensures SendOk(st, sent, e) {
      RestoredSendOk(st0, st, sent, rs, e);
    }
  }

  lemma RestoredKeepsEntry(st0: State, st: State, rs: seq<OutputResult>, e: LogKey)
    requires Accounts(st0, st, rs) && e in st0.logs
    ensures e in st.logs && st.logs[e] == st0.logs[e]
  {
  }

  lemma RestoredContexts(st0: State, seen: seq<ChainOutput>)
    ensures Restored(st0, seen).contexts == st0.contexts
  {
    RestoreAllContexts(st0, Identified(seen));
  }

  lemma {:induction false} RestoreAllContexts(st0: State, rs: seq<OutputResult>)
    ensures RestoreAll(st0, rs).st.contexts == st0.contexts
  {
    if rs == [] {
    } else {
      RestoreAllContexts(st0, rs[..|rs| - 1]);
    }
  }
}
