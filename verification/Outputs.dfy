/** Outputs tracked by the wallet (src/wallet/types/output_data.rs). */
module Outputs {
  import opened Wrappers

  /** A BIP-32 path; a key's parent is the account it was derived under. */
  datatype Identifier = Identifier(path: seq<nat>) {
    function Child(index: nat): Identifier {
      Identifier(path + [index])
    }

    function ParentPath(): Identifier {
      if path == [] then this else Identifier(path[..|path| - 1])
    }

    function LastPathIndex(): nat {
      if path == [] then 0 else path[|path| - 1]
    }
  }

  datatype OutputStatus = Unconfirmed | Unspent | Locked | Spent

  /** The key an output is stored under. */
  type OutputKey = (Identifier, Option<nat>)

  /** A commitment is fixed by the value and the derived key. */
  type OutputCommit = (nat, Identifier)

  datatype OutputData = OutputData(
    rootKeyId: Identifier,
    keyId: Identifier,
    nChild: nat,
    mmrIndex: Option<nat>,
    value: nat,
    status: OutputStatus,
    height: nat,
    lockHeight: nat,
    isCoinbase: bool,
    txLogEntry: Option<nat>)
  {
    function Key(): OutputKey {
      (keyId, mmrIndex)
    }

    function Commit(): OutputCommit {
      (value, keyId)
    }

    function Lock(): OutputData {
      this.(status := Locked)
    }

    function MarkUnspent(): OutputData {
      if status == Unconfirmed then this.(status := Unspent) else this
    }

    function MarkSpent(): OutputData {
      if status == Unspent || status == Locked then this.(status := Spent) else this
    }

    function NumConfirmations(currentHeight: nat): nat {
      if height > currentHeight then 0
      else if status == Unconfirmed then 0
      else if height == 0 then 0
      else 1 + (currentHeight - height)
    }

    predicate EligibleToSpend(currentHeight: nat, minimumConfirmations: nat) {
      if status == Spent || status == Locked then false
      else if status == Unconfirmed && isCoinbase then false
      else if lockHeight > currentHeight then false
      else if status == Unspent && NumConfirmations(currentHeight) >= minimumConfirmations then true
      else if status == Unconfirmed && minimumConfirmations == 0 then true
      else false
    }
  }

  function Total(coins: seq<OutputData>): nat {
    if coins == [] then 0 else Total(coins[..|coins| - 1]) + coins[|coins| - 1].value
  }

  lemma TotalAppend(coins: seq<OutputData>, coin: OutputData)
    ensures Total(coins + [coin]) == Total(coins) + coin.value
  {
    assert (coins + [coin])[..|coins|] == coins;
  }

  lemma {:induction false} TotalConcat(a: seq<OutputData>, b: seq<OutputData>)
    ensures Total(a + b) == Total(a) + Total(b)
  {
    if b == [] {
      assert a + b == a;
    } else {
      var front := b[..|b| - 1];
      TotalConcat(a, front);
      assert a + b == (a + front) + [b[|b| - 1]];
      TotalAppend(a + front, b[|b| - 1]);
    }
  }

  lemma TotalAround(before: seq<OutputData>, x: OutputData, after: seq<OutputData>)
    ensures Total(before + [x] + after) == Total(before + after) + x.value
  {
    TotalConcat(before + [x], after);
    TotalAppend(before, x);
    TotalConcat(before, after);
  }
}
