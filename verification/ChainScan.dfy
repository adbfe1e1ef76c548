/** Scanning the chain for the wallet's own outputs, page by page
    (src/internal/restore.rs:58-172). */
module ChainScan {
  import opened Wrappers
  import opened Outputs
  import opened Ledger

  // ----- collecting the outputs, page by page

  /** An unspent output of the chain. `found` is what rewinding its range proof gives
      the wallet: value and key if the output is its own. */
  datatype ChainOutput = ChainOutput(mmrIndex: nat, isCoinbase: bool, height: nat, found: Option<(nat, Identifier)>)

  datatype OutputResult = OutputResult(
    keyId: Identifier,
    nChild: nat,
    mmrIndex: nat,
    value: nat,
    height: nat,
    lockHeight: nat,
    isCoinbase: bool)
  {
    function Key(): OutputKey {
      (keyId, Some(mmrIndex))
    }

    function Parent(): Identifier {
      keyId.ParentPath()
    }
  }

  function ResultOf(c: ChainOutput): OutputResult
    requires c.found.Some?
  {
    var (amount, keyId) := c.found.value;
    OutputResult(keyId, keyId.LastPathIndex(), c.mmrIndex, amount, c.height,
                 if c.isCoinbase then c.height + COINBASE_MATURITY else c.height, c.isCoinbase)
  }

  /** The wallet's own outputs among these. */
  function Identified(cs: seq<ChainOutput>): seq<OutputResult> {
    if cs == [] then []
    else
      var front, last := Identified(cs[..|cs| - 1]), cs[|cs| - 1];
      if last.found.Some? then front + [ResultOf(last)] else front
  }

  method IdentifyUtxoOutputs(outputs: seq<ChainOutput>) returns (results: seq<OutputResult>)
    ensures results == Identified(outputs)
  {
    results := [];
    for i := 0 to |outputs|
      invariant results == Identified(outputs[..i])
    {
      assert outputs[..i + 1][..i] == outputs[..i];
      if outputs[i].found.None? {
        continue;
      }
      results := results + [ResultOf(outputs[i])];
    }
    assert outputs[..|outputs|] == outputs;
  }

  /** The node's answer to a request for outputs from an index on. */
  datatype Page = Page(highestIndex: nat, lastRetrievedIndex: nat, outputs: seq<ChainOutput>)

  /** The outputs with index at least `lo` and at most `hi`. */
  function Between(chain: seq<ChainOutput>, lo: nat, hi: nat): seq<ChainOutput> {
    if chain == [] then []
    else
      var front, last := Between(chain[..|chain| - 1], lo, hi), chain[|chain| - 1];
      if lo <= last.mmrIndex <= hi then front + [last] else front
  }

  predicate Ascending(chain: seq<ChainOutput>) {
    forall i, j :: 0 <= i < j < |chain| ==> chain[i].mmrIndex < chain[j].mmrIndex
  }

  /** The unspent outputs at some moment, and the highest index in use then. */
  datatype Chain = Chain(outputs: seq<ChainOutput>, highest: nat)

  ghost predicate WellIndexed(c: Chain, limit: nat) {
    && Ascending(c.outputs) && (forall i :: 0 <= i < |c.outputs| ==> 1 <= c.outputs[i].mmrIndex <= c.highest)
    && c.highest <= limit
  }

  /** The answer to request number `n` from an index on. */
  type Node = (nat, nat) -> Page

  /** What the node promises: a page holds the outputs, as they are then, from the
      index asked for up to the last index it retrieved; short of the highest index it
      retrieves some. The chain may change between requests in any way; all that the
      end of the scan takes is that it does not grow for ever. */
  ghost predicate PageContract(node: Node, chain: nat -> Chain, limit: nat) {
    && (forall n: nat :: WellIndexed(chain(n), limit))
    && forall n: nat, start: nat :: GoodPage(node(n, start), chain(n), start)
  }

  ghost predicate GoodPage(p: Page, c: Chain, start: nat) {
    && p.highestIndex == c.highest && p.lastRetrievedIndex <= c.highest
    && (p.lastRetrievedIndex < c.highest ==> start <= p.lastRetrievedIndex)
    && p.outputs == Between(c.outputs, start, p.lastRetrievedIndex)
  }

  /** What a scan is shown from request `n` on, which asks from `start`. */
  ghost function Scanned(node: Node, chain: nat -> Chain, limit: nat, n: nat, start: nat): seq<ChainOutput>
    requires PageContract(node, chain, limit)
    decreases limit + 1 - start
  {
    var page := node(n, start);
    assert GoodPage(page, chain(n), start) && WellIndexed(chain(n), limit);
    if page.lastRetrievedIndex == page.highestIndex then page.outputs
    else page.outputs + Scanned(node, chain, limit, n + 1, page.lastRetrievedIndex + 1)
  }

  lemma {:induction false} BetweenJoins(chain: seq<ChainOutput>, lo: nat, mid: nat, hi: nat)
    requires Ascending(chain) && lo <= mid + 1 && mid <= hi
    ensures Between(chain, lo, hi) == Between(chain, lo, mid) + Between(chain, mid + 1, hi)
  {
    if chain == [] {
    } else {
      var n := |chain| - 1;
      BetweenJoins(chain[..n], lo, mid, hi);
      if chain[n].mmrIndex <= mid {
        NoneBetween(chain[..n], mid + 1, hi);
      }
    }
  }

  lemma {:induction false} NoneBetween(chain: seq<ChainOutput>, lo: nat, hi: nat)
    requires forall i :: 0 <= i < |chain| ==> chain[i].mmrIndex < lo
    ensures Between(chain, lo, hi) == []
  {
    if chain == [] {
    } else {
      NoneBetween(chain[..|chain| - 1], lo, hi);
    }
  }

  lemma {:induction false} AllBetween(chain: seq<ChainOutput>, lo: nat, hi: nat)
    requires forall i :: 0 <= i < |chain| ==> lo <= chain[i].mmrIndex <= hi
    ensures Between(chain, lo, hi) == chain
  {
    if chain == [] {
    } else {
      AllBetween(chain[..|chain| - 1], lo, hi);
    }
  }

  lemma {:induction false} IdentifiedConcat(a: seq<ChainOutput>, b: seq<ChainOutput>)
    ensures Identified(a + b) == Identified(a) + Identified(b)
  {
    if b == [] {
      assert a + b == a;
    } else {
      var n := |b| - 1;
      IdentifiedConcat(a, b[..n]);
      assert (a + b)[..|a + b| - 1] == a + b[..n];
    }
  }

  /** One request of a scan. */
  lemma ScanStep(node: Node, chain: nat -> Chain, limit: nat, n: nat, start: nat)
    requires PageContract(node, chain, limit)
    ensures var page := node(n, start);
      && Ascending(chain(n).outputs) && chain(n).highest <= limit
      && (forall i :: 0 <= i < |chain(n).outputs| ==> 1 <= chain(n).outputs[i].mmrIndex <= chain(n).highest)
      && page.highestIndex == chain(n).highest && page.lastRetrievedIndex <= page.highestIndex
      && (page.lastRetrievedIndex < page.highestIndex ==> start <= page.lastRetrievedIndex)
      && page.outputs == Between(chain(n).outputs, start, page.lastRetrievedIndex)
      && Scanned(node, chain, limit, n, start) ==
           if page.lastRetrievedIndex == page.highestIndex then page.outputs
           else page.outputs + Scanned(node, chain, limit, n + 1, page.lastRetrievedIndex + 1)
  {
    hide Between;
    assert GoodPage(node(n, start), chain(n), start) && WellIndexed(chain(n), limit);
  }

  method CollectChainOutputs(node: Node, ghost chain: nat -> Chain, ghost limit: nat) returns (results: seq<OutputResult>)
    requires PageContract(node, chain, limit)
    ensures results == Identified(Scanned(node, chain, limit, 0, 1))
  {
    hide PageContract, Scanned, Identified, Between, Ascending;
    var startIndex, requests := 1, 0;
    results := [];
    ghost var all := Scanned(node, chain, limit, 0, 1);
    ghost var seen: seq<ChainOutput> := [];
    NothingIdentified();
    while true
      invariant results == Identified(seen)
      invariant all == seen + Scanned(node, chain, limit, requests, startIndex)
      decreases limit + 1 - startIndex
    {
      var page := node(requests, startIndex);
      ScanStep(node, chain, limit, requests, startIndex);
      IdentifiedConcat(seen, page.outputs);
      var identified := IdentifyUtxoOutputs(page.outputs);
      results := results + identified;
      seen := seen + page.outputs;
      if page.highestIndex == page.lastRetrievedIndex {
        break;
      }
      startIndex, requests := page.lastRetrievedIndex + 1, requests + 1;
    }
  }

  lemma NothingIdentified()
    ensures Identified([]) == []
  {
  }

  // ----- what a scan has seen

  lemma AppendAscending(chain: seq<ChainOutput>, last: ChainOutput)
    requires Ascending(chain) && forall i :: 0 <= i < |chain| ==> chain[i].mmrIndex < last.mmrIndex
    ensures Ascending(chain + [last])
  {
  }

  lemma FrontAscending(chain: seq<ChainOutput>)
    requires Ascending(chain) && chain != []
    ensures Ascending(chain[..|chain| - 1])
    ensures var front := chain[..|chain| - 1]; forall i :: 0 <= i < |front| ==> front[i].mmrIndex < chain[|chain| - 1].mmrIndex
  {
  }

  lemma {:induction false} BetweenBounds(chain: seq<ChainOutput>, lo: nat, hi: nat)
    requires Ascending(chain)
    ensures var b := Between(chain, lo, hi);
      && Ascending(b) && (forall i :: 0 <= i < |b| ==> lo <= b[i].mmrIndex <= hi)
      && (forall c :: c in b <==> c in chain && lo <= c.mmrIndex <= hi)
  {
    BetweenMembers(chain, lo, hi);
    BetweenAscends(chain, lo, hi);
    hide Between, Ascending;
    var b := Between(chain, lo, hi);
    forall i | 0 <= i < |b| ensures lo <= b[i].mmrIndex <= hi {
      assert b[i] in b;
    }
  }

  lemma {:induction false} BetweenMembers(chain: seq<ChainOutput>, lo: nat, hi: nat)
    ensures forall c :: c in Between(chain, lo, hi) <==> c in chain && lo <= c.mmrIndex <= hi
  {
    if chain == [] {
    } else {
      var front, last := chain[..|chain| - 1], chain[|chain| - 1];
      BetweenMembers(front, lo, hi);
      assert chain == front + [last];
    }
  }

  lemma {:induction false} BetweenAscends(chain: seq<ChainOutput>, lo: nat, hi: nat)
    requires Ascending(chain)
    ensures Ascending(Between(chain, lo, hi))
  {
    if chain == [] {
    } else {
      hide Ascending;
      var front, last := chain[..|chain| - 1], chain[|chain| - 1];
      FrontAscending(chain);
      BetweenAscends(front, lo, hi);
      BetweenOf(front, lo, hi, last.mmrIndex);
      AppendAscending(Between(front, lo, hi), last);
    }
  }

  lemma {:induction false} BetweenOf(chain: seq<ChainOutput>, lo: nat, hi: nat, bound: nat)
    requires forall i :: 0 <= i < |chain| ==> chain[i].mmrIndex < bound
    ensures forall i :: 0 <= i < |Between(chain, lo, hi)| ==> Between(chain, lo, hi)[i].mmrIndex < bound
  {
    if chain == [] {
    } else {
      BetweenOf(chain[..|chain| - 1], lo, hi, bound);
    }
  }

  /** However the chain changes during a scan, no index is seen twice, and indices are
      seen in order. */
  lemma {:induction false} ScannedOnce(node: Node, chain: nat -> Chain, limit: nat, n: nat, start: nat)
    requires PageContract(node, chain, limit)
    ensures var seen := Scanned(node, chain, limit, n, start);
      Ascending(seen) && forall i :: 0 <= i < |seen| ==> start <= seen[i].mmrIndex
    decreases limit + 1 - start
  {
    hide *;
    var page := node(n, start);
    ScanStep(node, chain, limit, n, start);
    BetweenBounds(chain(n).outputs, start, page.lastRetrievedIndex);
    if page.lastRetrievedIndex == page.highestIndex {
    } else {
      ScannedOnce(node, chain, limit, n + 1, page.lastRetrievedIndex + 1);
      AscendingJoins(page.outputs, Scanned(node, chain, limit, n + 1, page.lastRetrievedIndex + 1), page.lastRetrievedIndex);
    }
  }

  lemma AscendingJoins(a: seq<ChainOutput>, b: seq<ChainOutput>, mid: nat)
    requires Ascending(a) && Ascending(b)
    requires forall i :: 0 <= i < |a| ==> a[i].mmrIndex <= mid
    requires forall i :: 0 <= i < |b| ==> mid < b[i].mmrIndex
    ensures Ascending(a + b)
  {
  }

  /** What is seen was on the chain when it was asked for. */
  lemma {:induction false} ScannedWasThere(node: Node, chain: nat -> Chain, limit: nat, n: nat, start: nat, c: ChainOutput)
    requires PageContract(node, chain, limit) && c in Scanned(node, chain, limit, n, start)
    ensures exists m: nat :: n <= m && c in chain(m).outputs
    decreases limit + 1 - start
  {
    hide *;
    var page := node(n, start);
    ScanStep(node, chain, limit, n, start);
    BetweenBounds(chain(n).outputs, start, page.lastRetrievedIndex);
    if c in page.outputs {
      assert c in chain(n).outputs;
    } else {
      ScannedWasThere(node, chain, limit, n + 1, page.lastRetrievedIndex + 1, c);
    }
  }

  /** What stays on the chain during the scan is seen. */
  lemma {:induction false} StayingIsScanned(node: Node, chain: nat -> Chain, limit: nat, n: nat, start: nat, c: ChainOutput)
    requires PageContract(node, chain, limit) && start <= c.mmrIndex
    requires forall m: nat :: n <= m ==> c in chain(m).outputs
    ensures c in Scanned(node, chain, limit, n, start)
    decreases limit + 1 - start
  {
    hide *;
    var page := node(n, start);
    ScanStep(node, chain, limit, n, start);
    assert c in chain(n).outputs;
    BetweenBounds(chain(n).outputs, start, page.lastRetrievedIndex);
    if c.mmrIndex <= page.lastRetrievedIndex {
      assert c in page.outputs;
    } else {
      StayingIsScanned(node, chain, limit, n + 1, page.lastRetrievedIndex + 1, c);
    }
  }

  /** On a chain that does not change, whatever the sizes of the pages, every output is
      seen once, in order. */
  lemma {:induction false} StillChainIsScanned(node: Node, chain: nat -> Chain, limit: nat, still: Chain, n: nat, start: nat)
    requires PageContract(node, chain, limit) && start >= 1
    requires forall m: nat :: chain(m) == still
    ensures Scanned(node, chain, limit, n, start) == Between(still.outputs, start, still.highest)
    ensures start == 1 ==> Scanned(node, chain, limit, n, start) == still.outputs
    decreases limit + 1 - start
  {
    hide *;
    var page := node(n, start);
    ScanStep(node, chain, limit, n, start);
    assert chain(n) == still;
    if page.lastRetrievedIndex == page.highestIndex {
    } else {
      StillChainIsScanned(node, chain, limit, still, n + 1, page.lastRetrievedIndex + 1);
      BetweenJoins(still.outputs, start, page.lastRetrievedIndex, still.highest);
    }
    AllBetween(still.outputs, 1, still.highest);
  }

  /** No two outputs of a wallet are found under the same key. */
  ghost predicate DistinctKeys(rs: seq<OutputResult>) {
    forall i, j :: 0 <= i < j < |rs| ==> rs[i].Key() != rs[j].Key()
  }

  lemma {:induction false} IdentifiedDistinct(chain: seq<ChainOutput>)
    requires Ascending(chain)
    ensures DistinctKeys(Identified(chain))
    ensures forall i :: 0 <= i < |Identified(chain)| ==> exists j :: 0 <= j < |chain| && Identified(chain)[i].mmrIndex == chain[j].mmrIndex
  {
    if chain == [] {
    } else {
      var n := |chain| - 1;
      var front, all := Identified(chain[..n]), Identified(chain);
      IdentifiedDistinct(chain[..n]);
      forall i | 0 <= i < |all| ensures exists j :: 0 <= j < |chain| && all[i].mmrIndex == chain[j].mmrIndex {
        if i < |front| {
          var j :| 0 <= j < n && front[i].mmrIndex == chain[..n][j].mmrIndex;
          assert all[i].mmrIndex == chain[j].mmrIndex;
        } else {
          assert all[i].mmrIndex == chain[n].mmrIndex;
        }
      }
      forall i, j | 0 <= i < j < |all| ensures all[i].Key() != all[j].Key() {
        if j == |front| {
          var k :| 0 <= k < n && front[i].mmrIndex == chain[..n][k].mmrIndex;
          assert chain[k].mmrIndex < chain[n].mmrIndex;
        }
      }
    }
  }
}
