/** Choosing coins to spend (src/internal/selection.rs). */
module CoinSelection {
  import opened Wrappers
  import opened Outputs

  // ----- sorting

  predicate SortedByValue(s: seq<OutputData>) {
    forall i, j :: 0 <= i < j < |s| ==> s[i].value <= s[j].value
  }

  /** Where `x` goes in the sorted `s`: behind the coins of the same value. */
  function Position(s: seq<OutputData>, x: OutputData): (n: nat)
    ensures n <= |s|
    ensures n > 0 ==> s[n - 1].value <= x.value
    ensures forall i :: n <= i < |s| ==> x.value < s[i].value
  {
    if s == [] || s[|s| - 1].value <= x.value then |s| else Position(s[..|s| - 1], x)
  }

  function Insert(s: seq<OutputData>, x: OutputData): seq<OutputData> {
    var n := Position(s, x);
    s[..n] + [x] + s[n..]
  }

  /** The stable sort of the coins by value. */
  function SortByValue(s: seq<OutputData>): seq<OutputData> {
    if s == [] then [] else Insert(SortByValue(s[..|s| - 1]), s[|s| - 1])
  }

  lemma {:induction false} SortIsSorted(s: seq<OutputData>)
    ensures SortedByValue(SortByValue(s))
  {
    if s == [] {
    } else {
      SortIsSorted(s[..|s| - 1]);
      InsertKeepsSorted(SortByValue(s[..|s| - 1]), s[|s| - 1]);
    }
  }

  lemma InsertKeepsSorted(s: seq<OutputData>, x: OutputData)
    requires SortedByValue(s)
    ensures SortedByValue(Insert(s, x))
  {
    var n := Position(s, x);
    assert forall i :: 0 <= i < n ==> s[i].value <= s[n - 1].value;
  }

  lemma InsertAddsOne(s: seq<OutputData>, x: OutputData)
    ensures multiset(Insert(s, x)) == multiset(s) + multiset{x}
  {
    var n := Position(s, x);
    assert s == s[..n] + s[n..];
  }

  lemma {:induction false} SortIsPermutation(s: seq<OutputData>)
    ensures multiset(SortByValue(s)) == multiset(s)
  {
    if s == [] {
    } else {
      SortIsPermutation(s[..|s| - 1]);
      DropLast(s);
      InsertAddsOne(SortByValue(s[..|s| - 1]), s[|s| - 1]);
    }
  }

  function Reversed(s: seq<OutputData>): (r: seq<OutputData>)
    ensures |r| == |s| && forall i :: 0 <= i < |s| ==> r[i] == s[|s| - 1 - i]
  {
    seq(|s|, i requires 0 <= i < |s| => s[|s| - 1 - i])
  }

  // ----- sums of sub-collections

  ghost predicate SubCollection(t: seq<OutputData>, s: seq<OutputData>) {
    multiset(t) <= multiset(s)
  }

  /** Take one occurrence of `x` out of `t`. */
  lemma TakeOut(t: seq<OutputData>, x: OutputData) returns (t': seq<OutputData>)
    requires x in t
    ensures |t| == |t'| + 1 && Total(t) == Total(t') + x.value && multiset(t) == multiset(t') + multiset{x}
  {
    var i :| 0 <= i < |t| && t[i] == x;
    t' := t[..i] + t[i + 1..];
    assert t == t[..i] + [x] + t[i + 1..];
    TotalAround(t[..i], x, t[i + 1..]);
  }

  lemma CancelOne(a: multiset<OutputData>, b: multiset<OutputData>, x: OutputData)
    requires a + multiset{x} <= b + multiset{x}
    ensures a <= b
  {
    forall y ensures a[y] <= b[y] {
      assert (a + multiset{x})[y] <= (b + multiset{x})[y];
    }
  }

  lemma DropLast(s: seq<OutputData>)
    requires s != []
    ensures multiset(s) == multiset(s[..|s| - 1]) + multiset{s[|s| - 1]}
  {
    assert s == s[..|s| - 1] + [s[|s| - 1]];
  }

  lemma TakeOutLast(s: seq<OutputData>, t: seq<OutputData>) returns (t': seq<OutputData>)
    requires SubCollection(t, s) && s != [] && s[|s| - 1] in t
    ensures |t| == |t'| + 1 && Total(t) == Total(t') + s[|s| - 1].value
    ensures SubCollection(t', s[..|s| - 1])
  {
    t' := TakeOut(t, s[|s| - 1]);
    DropLast(s);
    CancelOne(multiset(t'), multiset(s[..|s| - 1]), s[|s| - 1]);
  }

  /** A coin of `t` to take out with the largest coin of `s`: that coin itself
      when `t` has it. The rest of `t` comes from the rest of `s`. */
  lemma TakeOutLargest(s: seq<OutputData>, t: seq<OutputData>) returns (t': seq<OutputData>, v: nat)
    requires SortedByValue(s) && SubCollection(t, s) && s != [] && t != []
    ensures |t| == |t'| + 1 && Total(t) == Total(t') + v && v <= s[|s| - 1].value
    ensures SubCollection(t', s[..|s| - 1])
  {
    hide Total;
    var last := s[|s| - 1];
    if last in t {
      v := last.value;
      t' := TakeOutLast(s, t);
    } else {
      v := t[0].value;
      t' := TakeOut(t, t[0]);
      assert t[0] in multiset(t) && t[0] in multiset(s) && t[0] in s;
      DropLast(s);
      assert last !in multiset(t) && last !in multiset(t');
      WithoutLast(multiset(t'), multiset(s[..|s| - 1]), last);
    }
  }

  lemma WithoutLast(a: multiset<OutputData>, b: multiset<OutputData>, x: OutputData)
    requires a <= b + multiset{x} && x !in a
    ensures a <= b
  {
    forall y ensures a[y] <= b[y] {
      assert a[y] <= (b + multiset{x})[y];
    }
  }

  lemma TotalIsNat(s: seq<OutputData>)
    ensures Total([]) <= Total(s)
  {
  }

  /** No `k` coins of `s` are worth more than its `k` largest. */
  lemma {:induction false} LargestAreWorthMost(s: seq<OutputData>, t: seq<OutputData>, k: nat)
    requires SortedByValue(s) && SubCollection(t, s) && |t| <= k <= |s|
    ensures Total(t) <= Total(s[|s| - k..])
  {
    if t == [] {
      TotalIsNat(s[|s| - k..]);
    } else {
      SortedFront(s);
      hide Total, SubCollection, SortedByValue;
      var front := s[..|s| - 1];
      var t', v := TakeOutLargest(s, t);
      LargestAreWorthMost(front, t', k - 1);
      LargestAndOthers(s, k);
    }
  }

  lemma LargestAndOthers(s: seq<OutputData>, k: nat)
    requires 1 <= k <= |s|
    ensures var front := s[..|s| - 1]; Total(s[|s| - k..]) == Total(front[|front| - (k - 1)..]) + s[|s| - 1].value
  {
    hide Total;
    var front := s[..|s| - 1];
    assert s[|s| - k..] == front[|front| - (k - 1)..] + [s[|s| - 1]];
    TotalAppend(front[|front| - (k - 1)..], s[|s| - 1]);
  }

  lemma SortedFront(s: seq<OutputData>)
    requires SortedByValue(s) && s != []
    ensures SortedByValue(s[..|s| - 1])
  {
  }

  /** The `|t|` smallest coins of `s` are worth no more than `t`. */
  lemma {:induction false} SmallestAreWorthLeast(s: seq<OutputData>, t: seq<OutputData>)
    requires SortedByValue(s) && SubCollection(t, s)
    ensures |t| <= |s| && Total(s[..|t|]) <= Total(t)
    decreases |s|, 1
  {
    SubCollectionIsShorter(t, s);
    if t == [] {
      assert s[..|t|] == t;
    } else {
      SortedFront(s);
      if s[|s| - 1] in t {
        SmallestWithLast(s, t);
      } else {
        WithoutTheLast(s, t);
        hide Total, SubCollection, SortedByValue;
        var front := s[..|s| - 1];
        SmallestAreWorthLeast(front, t);
        assert s[..|t|] == front[..|t|];
      }
    }
  }

  lemma WithoutTheLast(s: seq<OutputData>, t: seq<OutputData>)
    requires SubCollection(t, s) && s != [] && s[|s| - 1] !in t
    ensures SubCollection(t, s[..|s| - 1])
  {
    DropLast(s);
    WithoutLast(multiset(t), multiset(s[..|s| - 1]), s[|s| - 1]);
  }

  lemma {:induction false} SmallestWithLast(s: seq<OutputData>, t: seq<OutputData>)
    requires SortedByValue(s) && SubCollection(t, s) && |t| <= |s| && s != [] && s[|s| - 1] in t
    ensures Total(s[..|t|]) <= Total(t)
    decreases |s|, 0
  {
    SortedFront(s);
    var n := |t| - 1;
    assert s[n].value <= s[|s| - 1].value;
    var t' := TakeOutLast(s, t);
    hide Total, SubCollection, SortedByValue;
    var front := s[..|s| - 1];
    SmallestAreWorthLeast(front, t');
    assert s[..|t|] == front[..n] + [s[n]];
    TotalAppend(front[..n], s[n]);
  }

  lemma SubCollectionIsShorter(t: seq<OutputData>, s: seq<OutputData>)
    requires SubCollection(t, s)
    ensures |t| <= |s|
  {
    assert multiset(s) == multiset(t) + (multiset(s) - multiset(t));
    assert |multiset(s)| == |multiset(t)| + |multiset(s) - multiset(t)|;
  }

  // ----- select_from

  /** The first length from `n` on whose coins reach `amount`, or all coins. */
  function ReachingLength(s: seq<OutputData>, amount: nat, n: nat): (k: nat)
    requires n <= |s|
    ensures n <= k <= |s|
    ensures k < |s| ==> Total(s[..k]) >= amount
    ensures forall i :: n <= i < k ==> Total(s[..i]) < amount
    decreases |s| - n
  {
    if n == |s| || Total(s[..n]) >= amount then n else ReachingLength(s, amount, n + 1)
  }

  /** The shortest prefix that reaches `amount`, or all coins on request; none if
      all together do not reach it. */
  function SelectedFrom(amount: nat, selectAll: bool, s: seq<OutputData>): (r: Option<seq<OutputData>>)
    ensures r.Some? <==> Total(s) >= amount
  {
    if Total(s) < amount then None
    else if selectAll then Some(s)
    else Some(s[..ReachingLength(s, amount, 0)])
  }

  lemma SelectedFromReaches(amount: nat, selectAll: bool, s: seq<OutputData>)
    requires Total(s) >= amount
    ensures var r := SelectedFrom(amount, selectAll, s).value;
      r <= s && Total(r) >= amount
  {
    assert s[..|s|] == s;
  }

  method SelectFrom(amount: nat, selectAll: bool, outputs: seq<OutputData>) returns (r: Option<seq<OutputData>>)
    ensures r == SelectedFrom(amount, selectAll, outputs)
  {
    var total := Total(outputs);
    if total < amount {
      return None;
    }
    if selectAll {
      return Some(outputs);
    }
    var selectedAmount, n := 0, 0;
    while n < |outputs| && selectedAmount < amount
      invariant n <= |outputs| && selectedAmount == Total(outputs[..n])
      invariant ReachingLength(outputs, amount, 0) == ReachingLength(outputs, amount, n)
    {
      assert outputs[..n + 1] == outputs[..n] + [outputs[n]];
      TotalAppend(outputs[..n], outputs[n]);
      selectedAmount := selectedAmount + outputs[n].value;
      n := n + 1;
    }
    return Some(outputs[..n]);
  }

  // ----- select_coins

  function Window(s: seq<OutputData>, i: nat, m: nat): seq<OutputData>
    requires i + m <= |s|
  {
    s[i..i + m]
  }

  /** The first window of `m` coins from `i` on that reaches `amount`, or the
      number of windows. */
  ghost function FirstWindow(s: seq<OutputData>, m: nat, amount: nat, i: nat): (k: nat)
    requires m <= |s| && i <= |s| - m + 1
    ensures i <= k <= |s| - m + 1
    ensures k <= |s| - m ==> Total(Window(s, k, m)) >= amount
    ensures forall j :: i <= j < k ==> Total(Window(s, j, m)) < amount
    decreases |s| - i
  {
    if i == |s| - m + 1 || Total(Window(s, i, m)) >= amount then i else FirstWindow(s, m, amount, i + 1)
  }

  /** What is taken from the eligible coins `s`, sorted by value. Beyond
      `maxOutputs` coins a window of that many is preferred, then any number of the
      smallest; if nothing reaches the amount, the largest coins are returned. */
  ghost function Selected(s: seq<OutputData>, amount: nat, maxOutputs: nat, selectAll: bool): seq<OutputData> {
    if |s| > maxOutputs then
      var k := FirstWindow(s, maxOutputs, amount, 0);
      if k <= |s| - maxOutputs then SelectedFrom(amount, selectAll, Window(s, k, maxOutputs)).value
      else if Total(s) >= amount then SelectedFrom(amount, false, s).value
      else Reversed(s)[..maxOutputs]
    else if Total(s) >= amount then SelectedFrom(amount, selectAll, s).value
    else Reversed(s)
  }

  /** The coins of the account that may be spent now. */
  function Eligible(outputs: seq<OutputData>, parent: Identifier, currentHeight: nat, minimumConfirmations: nat): seq<OutputData> {
    if outputs == [] then [] else
      var front, out := Eligible(outputs[..|outputs| - 1], parent, currentHeight, minimumConfirmations), outputs[|outputs| - 1];
      if out.rootKeyId == parent && out.EligibleToSpend(currentHeight, minimumConfirmations) then front + [out] else front
  }

  /** The loop over the windows. */
  method SelectWindow(eligible: seq<OutputData>, amount: nat, maxOutputs: nat, selectAll: bool)
    returns (r: Option<seq<OutputData>>)
    requires 1 <= maxOutputs <= |eligible|
    ensures var k := FirstWindow(eligible, maxOutputs, amount, 0);
      r == if k <= |eligible| - maxOutputs then SelectedFrom(amount, selectAll, Window(eligible, k, maxOutputs)) else None
  {
    var i := 0;
    while i + maxOutputs <= |eligible|
      invariant i <= |eligible| - maxOutputs + 1
      invariant FirstWindow(eligible, maxOutputs, amount, 0) == FirstWindow(eligible, maxOutputs, amount, i)
    {
      r := SelectFrom(amount, selectAll, Window(eligible, i, maxOutputs));
      if r.Some? {
        return;
      }
      i := i + 1;
    }
    return None;
  }

  method SelectCoins(outputs: seq<OutputData>, amount: nat, currentHeight: nat, minimumConfirmations: nat,
      maxOutputs: nat, selectAll: bool, parent: Identifier)
    returns (maxAvailable: nat, coins: seq<OutputData>)
    requires maxOutputs >= 1 || Eligible(outputs, parent, currentHeight, minimumConfirmations) == []
    ensures var s := SortByValue(Eligible(outputs, parent, currentHeight, minimumConfirmations));
      maxAvailable == |s| && coins == Selected(s, amount, maxOutputs, selectAll)
  {
    hide Eligible, SortByValue, FirstWindow, ReachingLength, SelectedFrom, Total, Window;
    var eligible := Eligible(outputs, parent, currentHeight, minimumConfirmations);
    maxAvailable := |eligible|;
    SortKeepsLength(eligible);
    eligible := SortByValue(eligible);
    var found;
    if |eligible| > maxOutputs {
      found := SelectWindow(eligible, amount, maxOutputs, selectAll);
      if found.None? {
        found := SelectFrom(amount, false, eligible);
      }
    } else {
      found := SelectFrom(amount, selectAll, eligible);
    }
    if found.Some? {
      return maxAvailable, found.value;
    }
    coins := Reversed(eligible);
    coins := coins[..if maxOutputs < |coins| then maxOutputs else |coins|];
  }

  lemma SortKeepsLength(s: seq<OutputData>)
    ensures |SortByValue(s)| == |s|
  {
    SortIsPermutation(s);
    assert |multiset(SortByValue(s))| == |multiset(s)|;
  }

  // ----- what the selection promises

  /** Every selected coin is an eligible one, taken at most as often as it occurs. */
  lemma SelectedIsSubCollection(s: seq<OutputData>, amount: nat, maxOutputs: nat, selectAll: bool)
    ensures SubCollection(Selected(s, amount, maxOutputs, selectAll), s)
  {
    hide SubCollection, FirstWindow, ReachingLength, SelectedFrom, Total, Reversed;
    if |s| > maxOutputs {
      var k := FirstWindow(s, maxOutputs, amount, 0);
      if k <= |s| - maxOutputs {
        SliceIsSubCollection(s, k, k + maxOutputs);
        SelectedFromIsSubCollection(amount, selectAll, Window(s, k, maxOutputs));
        SubCollectionTransitive(SelectedFrom(amount, selectAll, Window(s, k, maxOutputs)).value, Window(s, k, maxOutputs), s);
      } else if Total(s) >= amount {
        SelectedFromIsSubCollection(amount, false, s);
      } else {
        ReversedIsSubCollection(s, maxOutputs);
      }
    } else if Total(s) >= amount {
      SelectedFromIsSubCollection(amount, selectAll, s);
    } else {
      ReversedIsSubCollection(s, |s|);
    }
  }

  lemma SubCollectionTransitive(a: seq<OutputData>, b: seq<OutputData>, c: seq<OutputData>)
    requires SubCollection(a, b) && SubCollection(b, c)
    ensures SubCollection(a, c)
  {
  }

  lemma ReversedIsSubCollection(s: seq<OutputData>, n: nat)
    requires n <= |s|
    ensures SubCollection(Reversed(s)[..n], s)
    ensures n == |s| ==> Reversed(s)[..n] == Reversed(s)
  {
    ReversedIsPermutation(s);
    hide Reversed, Total;
    PrefixIsSubCollection(Reversed(s)[..n], Reversed(s));
  }

  lemma SelectedFromIsSubCollection(amount: nat, selectAll: bool, s: seq<OutputData>)
    requires Total(s) >= amount
    ensures SubCollection(SelectedFrom(amount, selectAll, s).value, s)
  {
    SelectedFromReaches(amount, selectAll, s);
    PrefixIsSubCollection(SelectedFrom(amount, selectAll, s).value, s);
  }

  lemma PrefixIsSubCollection(t: seq<OutputData>, s: seq<OutputData>)
    requires t <= s
    ensures SubCollection(t, s)
  {
    assert s == t + s[|t|..];
  }

  lemma SliceIsSubCollection(s: seq<OutputData>, i: nat, j: nat)
    requires i <= j <= |s|
    ensures SubCollection(s[i..j], s)
  {
    assert s == s[..i] + s[i..j] + s[j..];
  }

  lemma {:induction false} ReversedIsPermutation(s: seq<OutputData>)
    ensures multiset(Reversed(s)) == multiset(s) && Total(Reversed(s)) == Total(s)
  {
    if s == [] {
      assert Reversed(s) == s;
    } else {
      var front, last := s[..|s| - 1], s[|s| - 1];
      ReversedIsPermutation(front);
      assert Reversed(s) == [last] + Reversed(front);
      hide Reversed;
      LastToFront(front, last, Reversed(front));
      assert s == front + [last];
    }
  }

  lemma LastToFront(front: seq<OutputData>, last: OutputData, r: seq<OutputData>)
    requires multiset(r) == multiset(front) && Total(r) == Total(front)
    ensures multiset([last] + r) == multiset(front + [last]) && Total([last] + r) == Total(front + [last])
  {
    TotalAround([], last, r);
    TotalAppend(front, last);
    assert [] + [last] + r == [last] + r && [] + r == r;
  }

  /** The coins reach the amount whenever all eligible coins together do. */
  lemma SelectedReaches(s: seq<OutputData>, amount: nat, maxOutputs: nat, selectAll: bool)
    requires SortedByValue(s)
    ensures Total(Selected(s, amount, maxOutputs, selectAll)) >= amount <==> Total(s) >= amount
  {
    hide FirstWindow, ReachingLength, SelectedFrom, Total, SubCollection, SortedByValue, Reversed;
    var r := Selected(s, amount, maxOutputs, selectAll);
    if |s| > maxOutputs {
      var k := FirstWindow(s, maxOutputs, amount, 0);
      if k <= |s| - maxOutputs {
        SelectedFromReaches(amount, selectAll, Window(s, k, maxOutputs));
      } else if Total(s) >= amount {
        SelectedFromReaches(amount, false, s);
      }
    } else if Total(s) >= amount {
      SelectedFromReaches(amount, selectAll, s);
    }
    SelectedIsSubCollection(s, amount, maxOutputs, selectAll);
    SubCollectionIsShorter(r, s);
    LargestAreWorthMost(s, r, |s|);
    assert s[0..] == s;
  }

  /** More than `maxOutputs` coins are selected only when no `maxOutputs` of the
      eligible coins, or fewer, reach the amount. */
  lemma SoftLimit(s: seq<OutputData>, amount: nat, maxOutputs: nat, selectAll: bool, t: seq<OutputData>)
    requires SortedByValue(s)
    requires |Selected(s, amount, maxOutputs, selectAll)| > maxOutputs
    requires SubCollection(t, s) && |t| <= maxOutputs
    ensures Total(t) < amount
  {
    hide FirstWindow, ReachingLength, SelectedFrom, Total, SubCollection, SortedByValue, Reversed;
    if |s| > maxOutputs {
      var k := FirstWindow(s, maxOutputs, amount, 0);
      if k <= |s| - maxOutputs {
        SelectedFromReaches(amount, selectAll, Window(s, k, maxOutputs));
      } else {
        LargestAreWorthMost(s, t, maxOutputs);
        assert s[|s| - maxOutputs..] == Window(s, |s| - maxOutputs, maxOutputs);
      }
    } else {
      SelectedIsSubCollection(s, amount, maxOutputs, selectAll);
      SubCollectionIsShorter(Selected(s, amount, maxOutputs, selectAll), s);
    }
  }

  // ----- which coins, in terms of what is stored of them

  /** A coin is eligible, as often as it occurs, exactly when it is of the account, its
      lock height is reached, and it is unspent with the confirmations asked for (the
      block it is in counts), or pending, no coinbase, and none are asked for. */
  lemma {:induction false} EligibleExactly(outs: seq<OutputData>, parent: Identifier, h: nat, m: nat, o: OutputData)
    ensures multiset(Eligible(outs, parent, h, m))[o] ==
      if && o.rootKeyId == parent && o.lockHeight <= h
         && (|| (o.status == Unspent && (m == 0 || (0 < o.height <= h && o.height + m <= h + 1)))
             || (o.status == Unconfirmed && !o.isCoinbase && m == 0))
      then multiset(outs)[o] else 0
  {
    if outs == [] {
    } else {
      EligibleExactly(outs[..|outs| - 1], parent, h, m, o);
      DropLast(outs);
    }
  }

  /** From `s` the shortest prefix that reaches the amount is taken, or all on request. */
  ghost predicate TakenFrom(r: seq<OutputData>, s: seq<OutputData>, amount: nat, selectAll: bool) {
    && r <= s && Total(r) >= amount
    && (if selectAll then r == s else r == [] || Total(r[..|r| - 1]) < amount)
  }

  lemma SelectedFromTakes(amount: nat, selectAll: bool, s: seq<OutputData>)
    requires Total(s) >= amount
    ensures TakenFrom(SelectedFrom(amount, selectAll, s).value, s, amount, selectAll)
  {
    SelectedFromReaches(amount, selectAll, s);
    var k := ReachingLength(s, amount, 0);
    if !selectAll && k > 0 {
      assert s[..k][..k - 1] == s[..k - 1];
    }
    hide Total;
  }

  /** The `m` coins from the `j`th on reach the amount. */
  predicate Reaches(s: seq<OutputData>, j: nat, m: nat, amount: nat) {
    j + m <= |s| && Total(s[j..j + m]) >= amount
  }

  /** No `m` coins next to each other do that begin before the `n`th. */
  ghost predicate NoneReaches(s: seq<OutputData>, m: nat, n: nat, amount: nat) {
    forall j :: 0 <= j < n ==> !Reaches(s, j, m, amount)
  }

  /** What is selected of the sorted coins. Up to `maxOutputs` coins: from all of them. Of
      more: from the first `maxOutputs` next to each other that reach the amount, else
      from all of them as few as reach it. If all do not reach it: the largest. */
  lemma SelectedExactly(s: seq<OutputData>, amount: nat, maxOutputs: nat, selectAll: bool)
    ensures var r := Selected(s, amount, maxOutputs, selectAll);
      && (|s| <= maxOutputs && Total(s) >= amount ==> TakenFrom(r, s, amount, selectAll))
      && (|s| > maxOutputs && !NoneReaches(s, maxOutputs, |s|, amount) ==>
            exists k :: 0 <= k && Reaches(s, k, maxOutputs, amount) && NoneReaches(s, maxOutputs, k, amount)
              && TakenFrom(r, s[k..k + maxOutputs], amount, selectAll))
      && (|s| > maxOutputs && NoneReaches(s, maxOutputs, |s|, amount) && Total(s) >= amount ==>
            TakenFrom(r, s, amount, false))
      && (Total(s) < amount && (|s| <= maxOutputs || NoneReaches(s, maxOutputs, |s|, amount)) ==>
            && |r| == (if |s| <= maxOutputs then |s| else maxOutputs)
            && forall i :: 0 <= i < |r| ==> r[i] == s[|s| - 1 - i])
  {
    hide Total, TakenFrom, SelectedFrom, ReachingLength;
    if |s| > maxOutputs {
      var k := FirstWindow(s, maxOutputs, amount, 0);
      FirstWindowIs(s, maxOutputs, amount);
      if k <= |s| - maxOutputs {
        SelectedFromTakes(amount, selectAll, s[k..k + maxOutputs]);
        assert Window(s, k, maxOutputs) == s[k..k + maxOutputs];
        assert TakenFrom(Selected(s, amount, maxOutputs, selectAll), s[k..k + maxOutputs], amount, selectAll);
        assert Total(s) >= amount by {
          SliceIsWorthLess(s, k, k + maxOutputs);
        }
      } else if Total(s) >= amount {
        SelectedFromTakes(amount, false, s);
      }
    } else if Total(s) >= amount {
      SelectedFromTakes(amount, selectAll, s);
    }
  }

  lemma SliceIsWorthLess(s: seq<OutputData>, i: nat, j: nat)
    requires i <= j <= |s|
    ensures Total(s[i..j]) <= Total(s)
  {
    assert s == s[..i] + s[i..j] + s[j..];
    TotalConcat(s[..i] + s[i..j], s[j..]);
    TotalConcat(s[..i], s[i..j]);
  }

  lemma FirstWindowIs(s: seq<OutputData>, m: nat, amount: nat)
    requires m < |s|
    ensures var k := FirstWindow(s, m, amount, 0);
      && NoneReaches(s, m, k, amount) && (k <= |s| - m <==> !NoneReaches(s, m, |s|, amount))
      && (k <= |s| - m ==> Reaches(s, k, m, amount))
  {
    var k := FirstWindow(s, m, amount, 0);
    hide FirstWindow, Total;
    forall j | 0 <= j < k ensures !Reaches(s, j, m, amount) {
      if j + m <= |s| {
        assert Window(s, j, m) == s[j..j + m];
      }
    }
    if k <= |s| - m {
      assert Window(s, k, m) == s[k..k + m];
      assert k < |s| by {
        assert m == 0 ==> Window(s, 0, m) == Window(s, k, m);
      }
      assert Reaches(s, k, m, amount);
    }
  }
}
