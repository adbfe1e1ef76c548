/** What a party keeps of a slate between its steps (src/wallet/types/context.rs). */
module Contexts {
  import opened Curve

  /** The secret part of a context, the amount and fee, and the commitments the party
      built in. */
  datatype SlateContext = SlateContext(
    secKey: SecretKey,
    secNonce: SecretKey,
    amount: nat,
    fee: nat,
    inputCommits: seq<Commitment>,
    outputCommits: seq<Commitment>)
}
