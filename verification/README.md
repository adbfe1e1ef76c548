# Verification of the wallet

A Dafny model of the parts of this wallet that decide who is paid, with what, and
what is remembered about it, with proofs of what those parts promise. It follows the
program's own structure, one module for each component:

| modules | what they model |
|---|---|
| `Base58`, `Base58Spec`, `Base58Check`, `Numerals`, `Bits`, `PowerBounds` | the in-place Base58 encoder and decoder, Base58Check, public keys as text |
| `GrinboxAddress` | printing and reading of addresses |
| `Outputs`, `CoinSelection`, `Funding` | the life of an output, choosing coins, the fee and its fixpoint, splitting change |
| `Ledger`, `LedgerInvariant`, `LedgerSteps`, `LedgerSend`, `LedgerRuns`, `LedgerUndo`, `LedgerCancel`, `LedgerEffects`, `LedgerRefresh`, `LedgerSummary`, `Contexts`, `Wallet` | the store, every committed batch, and all runs of them |
| `Sums`, `Summary` | the wallet summary |
| `ChainScan`, `Restore`, `RestoreAccounts`, `RestoreWallet` | restoring from the chain |
| `Curve`, `Slates`, `SlateRuns` | the slate, its two rounds, and all runs of them |
| `TxProofs`, `Payments`, `Transactions`, `Owner`, `Counterexamples` | the two-party exchange, the proof of payment, a payment from coin selection to the final transaction, the sender's and recipient's operations on store and slate together, a whole transaction between two wallets, and inputs on which expected promises fail |

`dafny verify dfyconfig.toml` checks the whole project.

## Reading the model

* Code that changes state is written as methods of classes (`Wallet.Backend`,
  `Slates.Slate`, `TxProofs.TxProof`) or as loops over arrays (`Base58`). Each such
  method is proved equal to a function on values, and the promises are proved about
  those functions. A batch of the store works on copies and is committed by assigning
  them, so reads during a batch see the committed store.
* The functions that specify the operations are in turn characterised on the fields of
  the records: `LedgerEffects` and `LedgerRefresh` say for each batch what is stored
  afterwards, `CoinSelection.EligibleExactly` and `SelectedExactly` which coins are taken,
  `Summary.InfoExactly` what is summed, `Slates.SigningDisputes` which fee is refused,
  `RestoreAccounts.StoredExactly` what a restore stores.
* `Outcome` separates a returned value, a returned error, and an aborted thread. An
  abort stands for a slice out of range, an `unwrap` of a failure, a division by zero
  or a failed `assert_eq!`.
* Text is a sequence of characters. A character beyond ASCII is refused at its first
  byte, whose index is that of the character.
* The byte and word widths of the codec are written out (`u8`, `u32` and `u64` in
  `Bits`), with masks and shifts as arithmetic. Amounts, heights and counters are
  unbounded.
* The fee of `grin_core::libtx::tx_fee` is its weight formula with a fixed base fee.
  The proofs use only that it does not grow with inputs, does not shrink with outputs
  and is positive.
* A hash is any function from bytes to at least four bytes. The serialization of
  public keys is any function to 33 bytes with an inverse; `Base58Check.FaithfulExists`
  shows that there is one.
* Scalars are integers modulo the order of secp256k1. A public key is known by its
  secret scalar, and a secret of zero has none. A Pedersen commitment is known by what
  it opens to, a key and a value, and commitments add up componentwise. A partial
  signature for nonce k and key x is k + e·x; the challenge e is any function of the
  nonce sum, the key sum and the kernel features, which fix the message. Random
  offsets and nonces are parameters.
* The node's answers, rewinding a range proof, and the validation of a whole
  transaction are parameters too. The chain may be another one at each request of a
  scan; a page is only required to hold the outputs the chain has then in the range it
  reports, and the output indices to stay below some bound.
* In the runs a send is initiated by one step and locked by another, at any later time;
  a coinbase, a lock and a restore are steps under the exact condition for keeping the
  invariant. Outputs with an index, which only a restore makes, are part of it.
* The port left out when an address is printed is 443, the default port on systems
  other than Windows.
* `hide` in a proof only keeps a definition out of the solver's sight.

## Findings

Some promises hold only under a condition. Each condition is proved to be exact, and
`Counterexamples` gives inputs on which they fail, built from steps of the model.

* Splitting the change can lose value. `inputs_and_change` takes the remainder of the
  change by the size of a part, not by the number of parts. A send conserves value
  exactly when there is no change or `change % n < change / n`; otherwise what is lost
  is `r - r % part` for `r = change % n` and `part = change / n`
  (`Funding.ChangeConservation`, `LedgerUndo.SendConservesValue`). The final
  transaction is then refused (`Payments.PaymentGoesThrough`,
  `Counterexamples.LossyPaymentIsRefused`).
* `NotEnoughFunds` is returned exactly when all eligible coins are worth less than the
  amount and the fee of spending them all with change, unless the first selection
  happens to be spent exactly, without change; and for an amount of zero, whatever the
  funds, unless all coins are asked for and the first ones have some value
  (`Funding.FundingIsComplete`, `Counterexamples.ExactSpendNeedsLess`,
  `Counterexamples.NothingIsNotFunded`).
* Locking a send and cancelling it gives every output back as it was, but for the log
  entry of the inputs, exactly when the inputs were confirmed. An input spent
  unconfirmed comes back as unspent (`LedgerUndo.LockThenCancel`,
  `Counterexamples.CancellingConfirms`).
* The summary's spendable amount counts outputs other than coinbases before their lock
  height, which coin selection does not spend (`Summary.SpendableIsEligible`). Only a
  restore stores such a lock height, and it takes a node that later reports a lower
  height for the output (`Counterexamples.SpendableTooEarly`). In every run without a
  restore the two amounts agree when at least one confirmation is asked for
  (`LedgerSummary.RunSpendable`).
* A coinbase asked for on a key that is in use replaces the output stored there. What
  every run keeps is kept exactly when that output is neither locked nor spent
  (`LedgerSteps.CoinbaseKeeps`, `Counterexamples.ReplacingReleases`).
* Locking is unconditional, and by the time a send is locked its coins may be locked by
  another one. The invariant, and with it that no coin is an input of two live sends, is
  kept exactly when the inputs are neither locked nor spent and belong to the account,
  and what is stored under the change keys is none of the inputs and neither locked nor
  spent (`LedgerSend.LockKeeps`, `Counterexamples.SecondLockSpendsTwice`).
* Receiving stores the output and its entry before the slate is signed. The answer
  succeeds exactly when the recipient's key is no zero, the fee suffices, nonces and keys
  have sums, the signatures already there verify, and somebody has taken part before
  (`Transactions.AnswerSucceeds`). Otherwise both stay, and the same slate is refused
  until the receipt is cancelled (`Transactions.ReceiveTx`, `Transactions.ReceivedOnce`,
  `Transactions.CancelledReceipt`, `Counterexamples.ReceivedInVain`).
* Decoding of valid Base58 aborts exactly when the number fits the 132-byte buffer but
  the zero bytes in front of it do not (`Base58Spec.DecodedOfAlphabet`). Decoding
  inverts encoding exactly for up to 132 bytes (`Base58Spec.DecodeEncode`).
* An honest sender's proof is refused exactly when the recipient's output commitment
  is one of the sender's own change commitments (`TxProofs.HonestProofAccepted`,
  `Counterexamples.CollidingProofIsRefused`, whether or not the two are merged).

## Model

| member | source | states |
|---|---|---|
| `Base58.AbsorbByte` | src/common/base58.rs:38-55 | one byte is multiplied into the digit array: the carry is used up, the `high` mark passes over zeros only, and the array's value in base 58 becomes 256 times its value plus the byte |
| `Base58.FillBuffer` | src/common/base58.rs:31-55 | after all bytes the array read in base 58 is the bytes read in base 256; the `j > 0` guard never drops a carry because the array is long enough |
| `Base58.ToBase58` | src/common/base58.rs:30-70 | the encoder computes the reference encoding: a `1` for each leading zero byte, then the numeral of the bytes in base 58 |
| `PowerBounds.BytesFit` | src/common/base58.rs:32 | n bytes always fit the guessed length: 256^n is below 58 to the power 138n/100 + 1 |
| `PowerBounds.AllButLastLeaveRoom` | src/common/base58.rs:32-48 | all but the last byte leave the first digit of the array free |
| `Base58.Accumulate` | src/common/base58.rs:104-125 | reading a character multiplies the 33 words by 58 and adds its digit; a carry out of the words means the number has reached 2^1056 |
| `Base58.MultiplyWord` | src/common/base58.rs:107-112 | the mask `0x3f00000000` keeps every bit of the carry: word times 58 plus carry is the new word plus 2^32 times the new carry |
| `Base58.Unpack` | src/common/base58.rs:127-150 | the words are unpacked to the 132 bytes of the same number |
| `Base58.FromBase58` | src/common/base58.rs:81-154 | the decoder computes the reference decoding, with the same errors and aborts |
| `Base58Spec.AlphabetIs` | src/common/base58.rs:4 | the digits are written 1-9, A-H, J-N, P-Z, a-k and m-z, in this order |
| `Base58Spec.DecodedOfAlphabet` | src/common/base58.rs:81-154 | for valid characters: a length error exactly when the number is at least 256^132, an abort exactly when only the leading zeros do not fit, else leading zeros and the bytes of the number |
| `Base58Spec.DecodedOfInvalid` | src/common/base58.rs:104-125 | the first invalid character is reported at its position, unless the digits before it overflow first |
| `Base58Spec.DecodeEncode` | src/common/base58.rs:30-154 | decoding an encoding gives the bytes back exactly when there are at most 132 of them |
| `Base58Spec.EncodeDecode` | src/common/base58.rs:30-154 | every text that decodes is the encoding of what it decodes to |
| `Base58Check.ToBase58Check` | src/common/base58.rs:72-77 | version, payload and checksum are encoded |
| `Base58Check.FromBase58Check` | src/common/base58.rs:156-171 | the text is decoded, its checksum compared and the version split off, with the same errors and aborts |
| `Base58Check.CheckRoundTrip` | src/common/base58.rs:72-171 | version and payload come back exactly when together they have 1 to 128 bytes |
| `Base58Check.CheckCanonical` | src/common/base58.rs:156-171 | every accepted text is the one encoding of its version and payload |
| `Base58Check.KeyRoundTrip` | src/common/crypto.rs:68-81 | a public key written under a version is read back under that version |
| `Base58Check.AddressShape` | src/common/crypto.rs:23-24 | whatever the checksum, a 33-byte key has 52 characters and starts with `g` under version [1,11] and with `x` under [1,120] |
| `GrinboxAddress.ParseIsMatch` | src/contacts/types.rs:26 | the parser accepts exactly the strings of the address expression, and each in one way only |
| `GrinboxAddress.DisplayRoundTrip` | src/contacts/types.rs:203-259 | reading a printed address gives the same key, domain and effective port, for any domain of the expression's characters |
| `GrinboxAddress.AcceptedIsStable` | src/contacts/types.rs:217-259 | whatever text is accepted, what is printed for it is accepted as the same address |
| `GrinboxAddress.NetworkAddress` | src/contacts/types.rs:188-215 | addresses of the main network start with a `g` and those of floonet with an `x`; domain and port are those given, else grinbox.io and 443 |
| `GrinboxAddress.DisplayIs` | src/contacts/types.rs:244-259 | the key is printed, then the domain if it or the port is not the default one, then the port if it is not |
| `CoinSelection.SelectFrom` | src/internal/selection.rs:521-543 | the shortest prefix that reaches the amount, all coins on request, none if all do not reach it |
| `CoinSelection.SelectWindow` | src/internal/selection.rs:487-492 | the first window of `max_outputs` coins that reaches the amount is selected from |
| `CoinSelection.SortIsSorted` | src/internal/selection.rs:477 | the eligible coins are sorted by increasing value |
| `CoinSelection.SortIsPermutation` | src/internal/selection.rs:477 | sorting neither loses nor adds a coin |
| `CoinSelection.SelectCoins` | src/internal/selection.rs:450-519 | the eligible coins by value, their number, and what is selected of them |
| `CoinSelection.SelectedIsSubCollection` | src/internal/selection.rs:465-519 | only eligible coins are selected, none more often than it occurs |
| `CoinSelection.SelectedReaches` | src/internal/selection.rs:465-519 | the selected coins reach the amount exactly when all eligible coins together do |
| `CoinSelection.SoftLimit` | src/internal/selection.rs:479-500 | more than `max_outputs` coins are selected only when no `max_outputs` eligible coins, or fewer, reach the amount |
| `CoinSelection.EligibleExactly` | src/wallet/types/output_data.rs:57-90 | a coin is eligible, as often as it occurs, exactly when it is of the account, its lock height is reached, and it is unspent with `h + 1 >= height + m` at a known height up to `h` (or `m` is 0), or pending, no coinbase, and `m` is 0 |
| `CoinSelection.SelectedExactly` | src/internal/selection.rs:475-543 | up to `max_outputs` coins the shortest prefix reaching the amount is taken, or all on request; of more, such a prefix of the first `max_outputs` neighbours that reach it, else of all; if all do not reach it, the largest ones, largest first |
| `Funding.ReselectionGrows` | src/internal/selection.rs:359-374 | a selection that replaces another one takes strictly more coins and reaches the target, or takes all coins |
| `Funding.Retry` | src/internal/selection.rs:344-374 | the loop ends and selects again at most once |
| `Funding.SelectCoinsAndFee` | src/internal/selection.rs:279-378 | coins, total and fee, or `NotEnoughFunds`, as the fixpoint of fee and selection |
| `Funding.FundedCovers` | src/internal/selection.rs:302-377 | every success is a sub-collection of the eligible coins that covers amount and fee, with the fee of its own numbers of inputs and outputs |
| `Funding.FundingIsComplete` | src/internal/selection.rs:302-377 | `NotEnoughFunds` exactly when all eligible coins are worth less than the amount and the fee of spending them all with change and the first selection is not spent exactly, or when the amount is zero and the first selection is worth nothing, as it is unless all coins are asked for |
| `Funding.RefusalNames` | src/internal/selection.rs:322-359 | a refusal names what all eligible coins are worth, or nothing if the first selection is worth nothing, and the amount with the fee of as many coins, without change exactly if all were selected at first and even that is too much |
| `Funding.ChangeConservation` | src/internal/selection.rs:405-445 | the change outputs and the shortfall make up the change; nothing is missing exactly when there is no change or its remainder is below a part, as for change of at least n squared |
| `Funding.ChangeIsSplit` | src/internal/selection.rs:429-445 | each of the n outputs receives `change / n`, and the last one the remainder of the change by that part on top |
| `Funding.SenderFeePasses` | src/wallet/types/slate/slate.rs:397-424 | the fee the sender settles on passes `check_fees` once the recipient has added its output: with change, without change and spent exactly |
| `Wallet.Backend.constructor` | src/wallet/backend/lmdb_backend.rs:103-112 | a new store is empty and keeps the invariant |
| `Wallet.Backend.NextChild` | src/wallet/backend/lmdb_backend.rs:420-437 | the key at the account's child index is handed out and the index goes up by one |
| `Wallet.Backend.NextTxLogId` | src/wallet/backend/lmdb_backend.rs:551-563 | the stored id, or zero, and its successor is written |
| `Wallet.Backend.InputsAndChange` | src/internal/selection.rs:408-447 | fresh keys for exactly the change amounts; an abort exactly when change cannot be split into that many parts |
| `Wallet.Backend.BuildSendTx` | src/internal/selection.rs:36-88 | on success a send is possible, its change keys are handed out, and inputs and change are recorded; on failure nothing changes and no send was possible |
| `Wallet.Backend.LockInputs` | src/internal/selection.rs:127-136 | the inputs are locked for the entry, other outputs stay, and what is debited is what the inputs are worth |
| `Wallet.Backend.StoreChange` | src/internal/selection.rs:139-157 | the change outputs are saved and what is credited is their sum |
| `Wallet.Backend.TxLockOutputs` | src/internal/tx.rs:436-449 | one batch locks the inputs, stores the change and logs the send; without a context, or with an input gone, nothing changes; the invariant and spent outputs are kept exactly when the lock is safe |
| `Wallet.Backend.BuildRecipientOutput` | src/internal/selection.rs:168-231 | a fresh key, one pending output on it and its entry, in one batch |
| `Wallet.Backend.ReceiveCoinbase` | src/internal/updater.rs:467-510 | a pending coinbase, locked until maturity, without an entry, on the key asked for if something is stored there, else on a fresh one; the invariant is kept if nothing locked or spent is replaced |
| `Wallet.Backend.CancelLoop` | src/internal/updater.rs:214-240 | of the entry's outputs pending ones are deleted and locked ones unlocked, others stay |
| `Wallet.Backend.CancelTx` | src/internal/tx.rs:308-349 | asked for by number it is that entry of the account, asked for by slate the one with the least number that has it; an error exactly when there is none, another when it is confirmed or no send or receipt; else its outputs are undone and it is marked cancelled |
| `Wallet.Backend.MapWalletOutputs` | src/internal/updater.rs:164-211 | exactly the outputs to refresh: of the account, not spent, and without an entry or with an outstanding one unless all are asked for |
| `Wallet.Backend.ApplyOutput` | src/internal/updater.rs:262-314 | one output is updated from the committed store: marked spent if the node does not know it, else confirmed with its entry |
| `Wallet.Backend.ApplyApiOutputs` | src/internal/updater.rs:250-325 | all tracked outputs are updated in one batch, in some order; a node below the last confirmed height changes nothing |
| `Wallet.Backend.CleanOldUnconfirmed` | src/internal/updater.rs:355-380 | coinbases pending for more than 50 blocks are deleted, nothing else |
| `Wallet.Backend.RefreshOutputs` | src/internal/updater.rs:147-160 | a refresh with whatever the node answers is a step of the ledger |
| `Wallet.Backend.RetrieveSummary` | src/internal/updater.rs:384-443 | the summary of the stored outputs at the last confirmed height |
| `Wallet.Backend.DeletePrivateContext` | src/internal/tx.rs:480-484 | the slate's context is deleted, nothing else changes |
| `LedgerInvariant.NextKeyIsNew` | src/wallet/backend/lmdb_backend.rs:420-437 | nothing is stored under the keys handed out next |
| `LedgerInvariant.NextLogIdIsNew` | src/wallet/backend/lmdb_backend.rs:551-563 | no entry has the log id handed out next |
| `LedgerInvariant.FollowsKeepsInv` | src/wallet/backend/lmdb_backend.rs:499-663 | any batch that logs no send and neither loses nor newly locks outputs keeps the whole invariant |
| `LedgerSend.LockKeeps` | src/internal/selection.rs:113-161 | locking a send at any time keeps the invariant and spent outputs exactly when its inputs belong to the account and are neither locked nor spent, and under its change keys, which were handed out, nothing locked or spent and none of the inputs is stored |
| `LedgerSteps.ReceiveKeeps` | src/internal/selection.rs:168-231 | receiving keeps the invariant, spent outputs and counters |
| `LedgerSteps.CoinbaseKeeps` | src/internal/updater.rs:467-510 | a coinbase keeps the invariant and spent outputs exactly when it replaces no locked or spent output |
| `LedgerSteps.CancelKeeps` | src/internal/updater.rs:225-246 | so does cancelling any entry that can be cancelled |
| `LedgerSteps.ApplyKeeps` | src/internal/updater.rs:250-325 | so does a refresh, in every order and for every answer of the node |
| `LedgerSteps.CleanKeeps` | src/internal/updater.rs:355-380 | so does deleting old coinbases |
| `LedgerRuns.SendKeeps` | src/internal/selection.rs:113-161 | a send just initiated may be locked at once, and initiating and locking keep the invariant |
| `LedgerRuns.InitKeeps` | src/internal/tx.rs:74-92 | initiating a send keeps the invariant, spent outputs and counters |
| `LedgerRuns.StepKeeps` | src/internal/updater.rs:147-160 | every kind of step keeps the invariant and spent outputs; every step but a restore lets counters only grow |
| `LedgerRuns.RunKeepsInv` | src/internal/tx.rs:33-545 | the invariant holds in every state of every run |
| `LedgerRuns.NoDoubleSpendEver` | src/internal/selection.rs:129-134 | in every run no output is an input of two sends that are both not cancelled |
| `LedgerRuns.LockedPointsToSend` | src/wallet/types/output_data.rs:47-50 | in every run a locked output points to a send of its account that is not cancelled, and is an input of it |
| `LedgerRuns.SpentNeverChanges` | src/wallet/types/output_data.rs:92-107 | in every run a spent output stays as it is |
| `LedgerRuns.HandedOutOnce` | src/wallet/backend/lmdb_backend.rs:420-563 | in every run the keys and log ids handed out next, for any account, are in no output, no context and no entry |
| `LedgerRuns.SendMayLock` | src/internal/selection.rs:466-473 | the coins selected for a send may be locked by it, and its change goes to new keys |
| `LedgerUndo.SendConservesValue` | src/internal/selection.rs:127-161 | a send locked at any later time leaves one new entry, which debits what it credits, the amount, the fee and the shortfall exactly when the inputs are still worth what they were; the shortfall is zero exactly when there is no change or its remainder is below a part |
| `LedgerUndo.UnchangedConserves` | src/internal/selection.rs:127-161 | so it does when no stored value changed since the coins were chosen, as when the send is locked at once |
| `LedgerUndo.CancelUndoesLock` | src/internal/updater.rs:225-246 | cancelling a send just locked gives back every output, the inputs as unspent with the log entry of the send |
| `LedgerUndo.LockThenCancel` | src/internal/selection.rs:113-161 | outputs come back unchanged but for the log entry of the inputs, exactly when the inputs were unspent |
| `LedgerUndo.LogDoesNotMatter` | src/internal/updater.rs:384-443 | outputs that differ by log entries only have the same summary and the same eligible value at every height and number of confirmations |
| `LedgerEffects.InitEffect` | src/internal/selection.rs:36-88 | initiating records key, index and value of each coin and gives the amounts of the change the next keys of the active account in order; only the context and the child index change |
| `LedgerEffects.LockEffect` | src/internal/selection.rs:113-161 | after the lock of a fresh send each change output is stored under its key with its own value, pending, at the lock height, without a lock height; the inputs are locked for the new entry; no other output changes; the entry has its slate, numbers and fee |
| `LedgerEffects.EntryIsStored` | src/internal/selection.rs:127-161 | what the entry credits is what its change is worth in the store, and what it debits what its locked inputs are worth |
| `LedgerEffects.StoreConservesValue` | src/internal/selection.rs:127-161 | so the store conserves value: the inputs locked by a send are worth its stored change, the amount, the fee and the shortfall |
| `LedgerEffects.ReceiveEffect` | src/internal/selection.rs:168-231 | receiving stores one pending output of the amount on the next key and an unconfirmed receipt that credits it, and changes nothing else |
| `LedgerEffects.CoinbaseEffect` | src/internal/updater.rs:467-510 | a coinbase is stored pending under the key named or the next one, locked for 1440 blocks, without an entry |
| `LedgerEffects.CancelEffect` | src/internal/updater.rs:214-246 | of the outputs that name the entry pending ones are deleted and locked ones unspent again; a send becomes a cancelled send and a receipt a cancelled receipt; nothing else changes |
| `LedgerEffects.CleanEffect` | src/internal/updater.rs:355-380 | exactly the pending coinbases with a height that lies more than 50 blocks back are deleted |
| `LedgerRefresh.TrackedExactly` | src/internal/updater.rs:164-211 | asked about are exactly the outputs of the account that are not spent and, unless all are wanted, name no entry or that of an unconfirmed send or receipt |
| `LedgerRefresh.RefreshEffect` | src/internal/updater.rs:250-325 | an output the node does not know is spent unless it was pending; one it knows is at the height it says and no longer pending, its coinbase is credited by an entry of its own, the entry another pending one names is confirmed; values, keys, all other outputs and all other entries are unchanged; a node below the last confirmed height changes nothing |
| `LedgerRefresh.StepRefreshes` | src/internal/updater.rs:147-380 | so in every step of a refresh, but for pending coinbases that are too old, which are deleted |
| `LedgerRefresh.ReportedIsSelectable` | src/wallet/types/output_data.rs:57-90 | an output reported at height `H` can be selected with `m` confirmations exactly from height `H + m - 1` on, once its lock height is reached |
| `LedgerCancel.RunMakes` | src/internal/selection.rs:139-221 | in every run a pending output that names the entry of a send or receipt was made by that very lock or receipt |
| `LedgerCancel.CancelInRun` | src/internal/updater.rs:214-246 | in every state of every run a cancel unlocks exactly the inputs of the send that are not spent, deletes exactly the outputs the entry made that are still pending for it, and leaves every other output and entry as it is |
| `LedgerSummary.RunNoTimeLock` | src/internal/selection.rs:139-223 | in every state of every run without a restore only coinbases have a lock height |
| `LedgerSummary.RunSpendable` | src/internal/updater.rs:394-443 | in every such state the amount the summary calls spendable is what coin selection may spend, for every account, height and at least one confirmation |
| `LedgerSummary.CancelRestoresSummary` | src/internal/updater.rs:225-246 | cancelling a send of unspent coins gives the summary and the eligible value of before the lock, for every query |
| `Summary.RetrieveInfo` | src/internal/updater.rs:394-443 | the loop computes the summary as sums over all outputs of the account |
| `Summary.SummaryIsComplete` | src/internal/updater.rs:394-443 | total, locked and awaiting finalization add up to all outputs but spent ones and pending coinbases |
| `Summary.SpendableAgrees` | src/internal/updater.rs:394-443 | spendable and eligible value differ exactly by pending outputs that may be spent and by outputs other than coinbases before their lock height |
| `Summary.SpendableIsEligible` | src/wallet/types/output_data.rs:57-90 | with at least one confirmation asked the two agree exactly when nothing is counted before its lock height |
| `Summary.InfoExactly` | src/internal/updater.rs:394-443 | each amount as the sum of the stored values it counts, by status, coinbase flag, lock height and `height + m <= h + 1` |
| `ChainScan.IdentifyUtxoOutputs` | src/internal/restore.rs:66-142 | the wallet's own outputs of a page, in order, coinbases with their maturity |
| `ChainScan.CollectChainOutputs` | src/internal/restore.rs:144-172 | the loop ends, and identifies what the pages show one after the other, whatever the page sizes and however the chain changes between pages |
| `ChainScan.ScannedOnce` | src/internal/restore.rs:144-172 | no output is looked at twice, and they come in the order of their indices |
| `ChainScan.ScannedWasThere` | src/internal/restore.rs:144-172 | each output looked at was on the chain at some request |
| `ChainScan.StayingIsScanned` | src/internal/restore.rs:144-172 | each output on the chain at every request is looked at |
| `ChainScan.StillChainIsScanned` | src/internal/restore.rs:144-172 | of a chain that does not change exactly its outputs are looked at |
| `ChainScan.IdentifiedDistinct` | src/internal/restore.rs:130-139 | no two outputs found have the same key and index |
| `RestoreWallet.RestoreMissingOutput` | src/internal/restore.rs:175-255 | one output is saved with its entry or its account's stats, reserving a log id and noting the child, and nothing else changes |
| `RestoreWallet.SaveAccounts` | src/internal/restore.rs:447-470 | for each account, in any order, the entry of its stats is saved and its next child set past the highest found |
| `RestoreWallet.RestoreWallet` | src/internal/restore.rs:418-478 | refused exactly when the store has outputs; else what the scan saw is restored, as a step of the ledger unless a saved context names a key beyond the next children |
| `RestoreAccounts.RestoreAllSound` | src/internal/restore.rs:175-255 | while restoring, every entry and every account's stats are exactly what the outputs naming them add up to |
| `RestoreAccounts.RestoreAccountsForAll` | src/internal/restore.rs:418-478 | exactly the outputs found are saved; every new entry credits and counts exactly the outputs that name it; every output names a new entry of its account and kind and is below its account's next child; older entries stay |
| `RestoreAccounts.RestoreSums` | src/internal/restore.rs:440-471 | per account the amounts credited, and the numbers of outputs, of the new entries add up to those of the outputs saved |
| `RestoreAccounts.NextKeyAfterRestore` | src/internal/restore.rs:468-470 | whichever account is active afterwards, its next key belongs to no restored output |
| `RestoreAccounts.NextChildExactly` | src/internal/restore.rs:447-470 | the next child of an account is the one past its highest restored output, and unchanged for an account without any |
| `RestoreAccounts.StoredExactly` | src/internal/restore.rs:66-250 | exactly the own outputs among those seen are stored, each unspent with the value, key, index and height found, coinbases with a lock height 1440 above it and others with their own |
| `RestoreAccounts.RestoredKeepsInv` | src/internal/restore.rs:418-478 | a restored store has the invariant of the runs exactly when the keys in saved contexts are below the next children |
| `Slates.Slate.AddTransactionElements` | src/wallet/types/slate/slate.rs:184-199 | the elements are added, the kernel is replaced by one with the slate's features, and the sum of the keys is returned |
| `Slates.Slate.FillRound1` | src/wallet/types/slate/slate.rs:206-230 | whoever finds no offset chooses it and takes it off its key; the participant's public key and nonce are added, or the key is refused |
| `Slates.Slate.GenerateOffset` | src/wallet/types/slate/slate.rs:377-395 | the remaining key and the offset make up the key given |
| `Slates.Slate.CheckPartSigs` | src/wallet/types/slate/slate.rs:427-442 | success exactly when every partial signature given verifies under the common challenge |
| `Slates.Slate.FillRound2` | src/wallet/types/slate/slate.rs:250-273 | fee and earlier signatures are checked, then the participant's partial signature is set; nothing else changes |
| `Slates.Slate.FinalizeSignature` | src/wallet/types/slate/slate.rs:522-543 | the sum of the partial signatures, if it verifies under the sum of the keys; a missing one aborts |
| `Slates.Slate.FinalizeTransaction` | src/wallet/types/slate/slate.rs:549-593 | the kernel gets the excess and the signature, and the slate the transaction, only if fee, kernel and transaction pass |
| `Slates.SigningDisputes` | src/wallet/types/slate/slate.rs:397-424 | round 2 is a fee dispute exactly when the fee of the transaction's numbers of inputs, outputs and kernels exceeds its kernels' fees or amount and fee of the slate |
| `Slates.FinalizingDisputes` | src/wallet/types/slate/slate.rs:549-560 | so is finalizing with a signature |
| `Slates.SignedPays` | src/wallet/types/slate/slate.rs:250-273 | nobody signs a transaction that pays less than the fee of its own numbers |
| `Slates.FinalizedPays` | src/wallet/types/slate/slate.rs:549-593 | and none is finalized |
| `SlateRuns.JoinedAddsUp` | src/wallet/types/slate/slate.rs:206-230 | after round 1 of any number of participants the offset is the first one's; exactly its key is split; keys and offset add up to the keys of the coins, and values to what was contributed |
| `SlateRuns.KernelIsOfSlate` | src/wallet/types/slate/slate.rs:184-199 | the one kernel carries the fee of the slate, and its lock height if there is one, and is not signed yet |
| `SlateRuns.JoinedSucceeds` | src/wallet/types/slate/slate.rs:324-351 | round 1 of all succeeds exactly when nobody is left with a zero key |
| `SlateRuns.SigningSucceeds` | src/wallet/types/slate/slate.rs:250-273 | after round 1 of all, rounds 2 in any order succeed exactly when the fee suffices and nonces and keys have sums |
| `SlateRuns.FinalSignatureAccepted` | src/wallet/types/slate/slate.rs:522-543 | partial signatures that verify give an accepted final signature exactly when their nonces add up to the published ones |
| `SlateRuns.ExcessIsKeySum` | src/wallet/types/slate/slate.rs:562-575 | the excess is the sum of all public keys, committing to what contributions and fee fail to balance by |
| `SlateRuns.RunFinalizes` | src/wallet/types/slate/slate.rs:206-593 | for any number of participants and any order of rounds 2: the final signature verifies, and the transaction is finalized exactly when contributions and fee balance, with the sum of the public keys as its kernel excess |
| `SlateRuns.LateJoinBreaks` | src/wallet/types/slate/slate.rs:57-68 | after someone joins late an earlier signature verifies only if the new challenge has the same product with the signer's key |
| `TxProofs.AddInputsToSlate` | src/internal/tx.rs:170-239 | the sender's step: elements, commitments kept for a proof, round 1, and round 2 unless it initiates |
| `TxProofs.AddOutputToSlate` | src/internal/tx.rs:256-278 | the recipient's step on the slate: one output of the amount, round 1, and round 2 unless it initiates |
| `TxProofs.CompleteTx` | src/internal/tx.rs:284-305 | round 2 and finalization |
| `TxProofs.CompleteWithProof` | src/internal/tx.rs:462-477 | the proof is filled from the context first, then the transaction completed |
| `TxProofs.TxProof.Fill` | src/internal/tx.rs:465-475 | amount and fee are set and the context's commitments appended |
| `TxProofs.ExchangeSucceeds` | src/internal/tx.rs:74-305 | sender, recipient, sender: the exchange finalizes exactly when the sender's coins balance with amount and fee and the result is valid |
| `TxProofs.ExchangePays` | src/internal/tx.rs:74-305 | what an exchange makes pays the fee of its own inputs and outputs |
| `TxProofs.AnswerDisputes` | src/wallet/types/slate/slate.rs:397-424 | the recipient's answer is a fee dispute exactly when the fee in the slate is below that of its inputs and outputs with the recipient's |
| `TxProofs.AcceptedExactly` | src/internal/tx.rs:566-641 | a proof is accepted exactly when the recipient's outputs less inputs carry the amount under the key it signed with, and the transaction balances under the sum of keys; the coins the sender named then pay amount and fee |
| `TxProofs.SenderPays` | src/internal/tx.rs:566-641 | when the recipient's coins carry the amount and the transaction balances, the coins the sender named pay amount and fee |
| `TxProofs.AmountIsExact` | src/internal/tx.rs:566-608 | with coins and amount of 64 bits the recipient's outputs less inputs carry exactly the amount |
| `TxProofs.FilledBySender` | src/internal/tx.rs:207-215 | the proof of a sender that came first lists exactly its inputs and change |
| `TxProofs.HonestProofAccepted` | src/internal/tx.rs:548-641 | an honest sender's proof of the recipient's answer is accepted exactly when the recipient's output is not one of the change outputs, and then names that output, the amount and the sum of keys |
| `Payments.PaymentFeePasses` | src/wallet/types/slate/slate.rs:397-424 | the fee of a funded payment passes the check in both parties' rounds |
| `Payments.SenderBuilds` | src/internal/selection.rs:381-448 | the sender builds in one input for each coin and one output for each change coin, in order, with its own value and the key derived for it |
| `Payments.MissingIsShortfall` | src/internal/selection.rs:381-448 | what a funded payment's transaction fails to balance by is the shortfall of splitting its change |
| `Payments.PaymentGoesThrough` | src/internal/selection.rs:233-448 | a funded payment between two parties is finalized exactly when splitting its change loses nothing and the transaction is valid; its kernel signature verifies in any case |
| `Transactions.EstimateSendTx` | src/internal/tx.rs:120-166 | after a refresh, total and fee of the choice of coins, or its error or abort; the choice is a possible send exactly when its change can be split |
| `Transactions.InitSendTx` | src/internal/tx.rs:33-97 | a refresh, then the sender's part of the slate and the saved context with the key the slate leaves it, as one step of the ledger; a key the slate refuses leaves only change keys handed out; an error or abort before that changes nothing more and no send was possible |
| `Transactions.SendAndLock` | src/internal/tx.rs:33-449 | a send that locks at once is a refresh, an initiation and a lock exactly when the slate takes its key, else a refresh and change keys given up; without coins or fee only the refresh happened |
| `Transactions.SendGoesThrough` | src/internal/tx.rs:170-305 | a send chosen from the store and answered by a recipient is finalized exactly when its change splits without loss and the transaction is valid |
| `Transactions.ReceiveTx` | src/internal/tx.rs:489-545 | refused, with nothing changed, exactly when the account's log has a receipt of the slate that was not cancelled; else output and entry are stored whatever becomes of the slate, which is answered as the recipient's step says |
| `Transactions.AnswerSucceeds` | src/internal/tx.rs:256-281 | for any slate, the answer succeeds exactly when the key is taken, the fee suffices, nonces and keys have sums, the signatures already there verify, and somebody has taken part before |
| `Transactions.ReceivedOnce` | src/internal/tx.rs:513-526 | after receiving, also in vain, the same slate counts as received |
| `Transactions.CancelledReceipt` | src/internal/updater.rs:214-246 | cancelling the receipt takes its output away and lets the slate be received again |
| `Transactions.FinalizeTx` | src/internal/tx.rs:452-487 | an error without a context, without a logged send or with a slate that the saved key and nonce cannot complete, and then the store is as before; else the slate is completed and only its context deleted |
| `Transactions.CancelledIsNotSent` | src/internal/tx.rs:404-421 | once its only send is cancelled a slate cannot be finalized |
| `Owner.AnswerJoins` | src/internal/tx.rs:489-545 | the recipient's answer to a send of the wallet succeeds exactly when the coins of both can be joined, leaving keys, nonces and their sums |
| `Owner.AnswerCompletes` | src/internal/tx.rs:284-305 | then what the sender saved completes the answered slate exactly when its change splits without loss and the transaction is valid |
| `Owner.ContextStays` | src/internal/tx.rs:86-92 | in every run a saved context stays until its slate is initiated again or finalized |
| `Owner.LateCompletion` | src/internal/tx.rs:452-487 | so in every run a send that was answered can be completed at any later time on the same exact condition, whatever happened to the wallet in between |
| `Owner.SendTx` | src/wallet/api/owner.rs:361-440 | initiating, answering, locking and finalizing between two wallets succeeds exactly when coins can be chosen, the slate was not received before, the coins join and, if finalized, the change splits without loss and the transaction is valid; the stores of both after each outcome |
| `Counterexamples.ChangeIsLost` | src/internal/selection.rs:429-445 | a change of 5 over 3 outputs loses 2 |
| `Counterexamples.LossyPaymentIsRefused` | src/internal/selection.rs:429-445 | a payment of 100 with a change of 5 over 3 outputs under different keys, fully funded, is refused when it is finalized |
| `Counterexamples.ExactSpendNeedsLess` | src/internal/selection.rs:317-344 | a coin spent exactly pays less than a fee with change needs, and is sent |
| `Counterexamples.NothingIsNotFunded` | src/internal/selection.rs:317-321 | an amount of zero is not funded by any coin |
| `Counterexamples.CancellingConfirms` | src/internal/updater.rs:232-235 | in a run that receives a coin, sends it on unconfirmed and cancels the send, the coin ends as unspent and no node was asked |
| `Counterexamples.ReplacingReleases` | src/internal/updater.rs:477-503 | in that run before the cancel a coinbase on the key of the locked coin takes it from the pending send |
| `Counterexamples.SecondLockSpendsTwice` | src/internal/selection.rs:127-136 | in that run, a second send of the same coin initiated before can be locked too, and the coin is then an input of two live sends |
| `Counterexamples.ReceivedInVain` | src/internal/tx.rs:256-278 | a slate nobody has taken part in and one without a fee are stored as received in a run, and the answer to the one aborts and to the other is a fee dispute |
| `Counterexamples.SpendableTooEarly` | src/internal/updater.rs:394-443 | after a run of a restore and a refresh a coin before its lock height is summed as spendable and is not eligible |
| `Counterexamples.LongZerosAbort` | src/common/base58.rs:152-153 | 133 zero bytes are encoded as 133 ones, and decoding that aborts |
| `Counterexamples.CollidingProofIsRefused` | src/internal/tx.rs:566-641 | the proof of a sender with a change of 10 under the very key the recipient uses for 10 is refused, with both equal outputs in the slate and with one |

## Left out

- Network, brokers, listeners, HTTP and RPC, the command line, display and logging: input and output only.
- Curve arithmetic, range proofs, hashing, encryption and key derivation: kept as the algebra described above.
- The sign conventions of aggregated nonces in libsecp256k1: the signature equation is the plain one.
- LMDB, files and serialization: the store is maps. Opening, closing and passwords are not modelled.
- The cache of commitments, and the masking of saved contexts: derived values.
- `check_repair`: it sets the child index without looking at the current one, so the freshness of keys is not claimed across it.
- A lock that is not safe: it ends the runs, as `LedgerSend.LockKeeps` states exactly. `Wallet.Backend.TxLockOutputs` states what it does.
- A restore over contexts that name keys beyond the next children it finds: it ends the runs, as `RestoreAccounts.RestoredKeepsInv` states exactly.
- Wallet.Backend.CancelTx: asked for by neither a number nor a slate, any entry of the account may be taken where the source takes the earliest. Entries of a slate are taken in the order of their ids where the source orders them by creation time; these agree as long as the clock is never set back.
- Transactions.FinalizeTx: the excess, the transaction and the proof written beside the log entry are not part of the state.
- Owner.SendTx: the recipient answers by `receive_tx`; looking up contacts, adapters that answer later, and posting the transaction are left out.
- Transactions.ReceiveTx: the excess written to the entry is not part of the state.
- Wallet.Backend.ApplyApiOutputs: the order of a hash map is any order.
- Wallet.Backend.MapWalletOutputs: of two outputs with the same commitment one is tracked, as in the map it fills; which one is not fixed.
- Messages between participants and their signatures, timestamps, addresses, labels, and the `excess`, `stored_tx` and message fields of log entries: not used by what is proved.
- Slates.Slate.AddTransactionElements: grin_core keeps inputs and outputs sorted and may merge equal ones, neither of which is modelled; the sums do not depend on the order.
- SlateRuns.JoinedAddsUp: equal commitments are kept apart, so the sums, and what follows from them, describe the program where no two coins of a transaction have the same commitment.
- Slates.Slate.FinalizeTransaction: grin_core's validation of the whole transaction is a parameter.
- TxProofs.AcceptedExactly: the signature and the encryption of the message a proof is taken from are not modelled; the extracted destination and slate are parameters.
- Identities of sums: a commitment to zero under a zero key is the identity, which has no public key.
- Overflow of 64-bit amounts, of 32-bit counters and of the signed fee, and the limit on the depth of key paths: amounts, counters and paths are unbounded.
- The order of listed outputs by child number: outputs come from the store in any order, and coins are sorted by value as the source sorts them.
- `parse_address`, keybase and HTTP addresses, slate version conversions, hexadecimal text and account labels: they would only add easy members.
