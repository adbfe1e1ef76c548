/** Runs of the slate's rounds with any number of participants
    (src/wallet/types/slate/slate.rs:197-276, 487-593). */
module SlateRuns {
  import opened Wrappers
  import opened Curve
  import opened Sums
  import opened Slates

  /** A participant: what it builds in, its nonce, and the offset it would choose. */
  datatype Party = Party(elements: seq<Element>, nonce: SecretKey, offset: SecretKey)

  /** A slate nobody has joined. */
  predicate Fresh(v: SlateData) {
    v.tx == EMPTY && v.participantData == []
  }

  /** Round 1 of one participant. */
  function Join(v: SlateData, p: Party, id: nat): Result<SlateData, SlateError> {
    v.AddElements(p.elements).Round1(Reduce(BlindOf(p.elements)), p.nonce, id, p.offset)
  }

  /** Round 1 of all participants, in order. */
  function Joined(v: SlateData, parties: seq<Party>): Result<SlateData, SlateError> {
    if parties == [] then Ok(v)
    else
      match Joined(v, parties[..|parties| - 1])
      case Ok(w) => Join(w, parties[|parties| - 1], |parties| - 1)
      case Err(error) => Err(error)
  }

  /** The key each participant is left with: the first has split the offset off. */
  function KeyAfter(parties: seq<Party>, i: nat): Scalar
    requires i < |parties|
  {
    if i == 0 then Reduce(Reduce(BlindOf(parties[i].elements)) - parties[i].offset) else Reduce(BlindOf(parties[i].elements))
  }

  /** What all participants contribute: outputs less inputs. */
  function Contributed(parties: seq<Party>): int {
    if parties == [] then 0 else Contributed(parties[..|parties| - 1]) + ValueOf(parties[|parties| - 1].elements)
  }

  ghost predicate EachJoined(w: SlateData, parties: seq<Party>) {
    && |w.participantData| == |parties|
    && forall i :: 0 <= i < |parties| ==> IsParticipant(w.participantData[i], parties, i)
  }

  ghost predicate IsParticipant(p: ParticipantData, parties: seq<Party>, i: nat)
    requires i < |parties|
  {
    KeyOf(KeyAfter(parties, i)) == Some(p.publicBlindExcess) && p == ParticipantData(i, p.publicBlindExcess, parties[i].nonce, None)
  }

  /** The keys, with the offset, are those of the coins. */
  ghost predicate KeysAddUp(w: SlateData) {
    Congruent(Sum(w.PubBlinds()) + w.tx.offset, Blinds(w.tx.outputs) - Blinds(w.tx.inputs))
  }

  ghost predicate ValuesAddUp(w: SlateData, contributed: int) {
    Congruent(Values(w.tx.outputs) - Values(w.tx.inputs), contributed)
  }

  // ----- round 1

  lemma {:induction false} ElementBlinds(elems: seq<Element>)
    ensures Blinds(OutputsOf(elems)) - Blinds(InputsOf(elems)) == BlindOf(elems)
  {
    if elems == [] {
    } else {
      hide Reduce;
      var front, last := elems[..|elems| - 1], elems[|elems| - 1];
      ElementBlinds(front);
      var c := Commit(last.value, last.blind);
      SumsAppend(OutputsOf(front), c);
      SumsAppend(InputsOf(front), c);
    }
  }

  /** The value of one more element. */
  lemma LastElementValue(elems: seq<Element>)
    requires elems != []
    ensures var front, last := elems[..|elems| - 1], elems[|elems| - 1];
      var sign := if last.OutputElement? then 1 else -1;
      && ValueOf(elems) == ValueOf(front) + sign * last.value
      && Values(OutputsOf(elems)) - Values(InputsOf(elems))
         == Values(OutputsOf(front)) - Values(InputsOf(front)) + sign * Commit(last.value, last.blind).value
  {
    hide Commit, Values;
    var front, last := elems[..|elems| - 1], elems[|elems| - 1];
    var c := Commit(last.value, last.blind);
    SumsAppend(OutputsOf(front), c);
    SumsAppend(InputsOf(front), c);
  }

  lemma {:induction false} ElementValues(elems: seq<Element>)
    ensures Congruent(Values(OutputsOf(elems)) - Values(InputsOf(elems)), ValueOf(elems))
  {
    if elems == [] {
    } else {
      hide OutputsOf, InputsOf, Values, ValueOf, Congruent, Commit, Reduce;
      var front, last := elems[..|elems| - 1], elems[|elems| - 1];
      ElementValues(front);
      LastElementValue(elems);
      CommitIsValue(last.value, last.blind);
      CongruentSum(Values(OutputsOf(front)) - Values(InputsOf(front)), ValueOf(front), Commit(last.value, last.blind).value, last.value);
    }
  }

  lemma CommitIsValue(value: nat, blind: Scalar)
    ensures Congruent(Commit(value, blind).value, value)
  {
    ReduceTwice(value);
  }

  /** Adding elements adds their keys. */
  lemma ElementsAddBlinds(v: SlateData, elems: seq<Element>)
    ensures var tx := v.AddElements(elems).tx;
      Blinds(tx.outputs) - Blinds(tx.inputs) == Blinds(v.tx.outputs) - Blinds(v.tx.inputs) + BlindOf(elems)
  {
    hide Blinds, OutputsOf, InputsOf, BlindOf;
    ElementBlinds(elems);
    SumsConcat(v.tx.outputs, OutputsOf(elems));
    SumsConcat(v.tx.inputs, InputsOf(elems));
  }

  /** Adding elements adds their values. */
  lemma ElementsAddValues(v: SlateData, elems: seq<Element>, contributed: int)
    requires ValuesAddUp(v, contributed)
    ensures ValuesAddUp(v.AddElements(elems), contributed + ValueOf(elems))
  {
    hide Values, OutputsOf, InputsOf, ValueOf, Congruent;
    ElementValues(elems);
    SumsConcat(v.tx.outputs, OutputsOf(elems));
    SumsConcat(v.tx.inputs, InputsOf(elems));
    CongruentSum(Values(v.tx.outputs) - Values(v.tx.inputs), contributed,
                 Values(OutputsOf(elems)) - Values(InputsOf(elems)), ValueOf(elems));
    assert Values(v.AddElements(elems).tx.outputs) - Values(v.AddElements(elems).tx.inputs)
      == Values(v.tx.outputs) - Values(v.tx.inputs) + (Values(OutputsOf(elems)) - Values(InputsOf(elems)));
  }

  /** One participant keeps the keys adding up. */
  lemma JoinAddsKeys(v: SlateData, p: Party, id: nat)
    requires KeysAddUp(v) && Join(v, p, id).Ok?
    ensures KeysAddUp(Join(v, p, id).value)
  {
    hide *;
    var w := Join(v, p, id).value;
    JoinedTransaction(v, p, id);
    SumOfBlinds(v, p, id);
    ElementsAddBlinds(v, p.elements);
    KeySplits(v, p, Sum(v.PubBlinds()));
    FromKeysAddUp(v, BlindOf(p.elements));
    ToKeysAddUp(w, Sum(v.PubBlinds()) + v.tx.offset + BlindOf(p.elements));
  }

  lemma JoinedTransaction(v: SlateData, p: Party, id: nat)
    requires Join(v, p, id).Ok?
    ensures var w := Join(v, p, id).value;
      && w.tx.offset == v.SplitOffset(p.offset).tx.offset
      && w.tx.inputs == v.AddElements(p.elements).tx.inputs && w.tx.outputs == v.AddElements(p.elements).tx.outputs
  {
  }

  lemma FromKeysAddUp(v: SlateData, blind: int)
    requires KeysAddUp(v)
    ensures Congruent(Sum(v.PubBlinds()) + v.tx.offset + blind, Blinds(v.tx.outputs) - Blinds(v.tx.inputs) + blind)
  {
    CongruentSum(Sum(v.PubBlinds()) + v.tx.offset, Blinds(v.tx.outputs) - Blinds(v.tx.inputs), blind, blind);
  }

  lemma ToKeysAddUp(w: SlateData, x: int)
    requires Congruent(Sum(w.PubBlinds()) + w.tx.offset, x) && Congruent(x, Blinds(w.tx.outputs) - Blinds(w.tx.inputs))
    ensures KeysAddUp(w)
  {
  }

  lemma SumOfBlinds(v: SlateData, p: Party, id: nat)
    requires Join(v, p, id).Ok?
    ensures Sum(Join(v, p, id).value.PubBlinds()) == Sum(v.PubBlinds()) + v.SplitKey(Reduce(BlindOf(p.elements)), p.offset)
  {
    hide Reduce, BlindOf, InputsOf, OutputsOf;
    assert Join(v, p, id).value.PubBlinds()[..|v.participantData|] == v.PubBlinds();
  }

  /** Splitting the offset moves it from the key to the transaction. */
  lemma KeySplits(v: SlateData, p: Party, keys: int)
    ensures Congruent(keys + v.SplitKey(Reduce(BlindOf(p.elements)), p.offset) + v.SplitOffset(p.offset).tx.offset,
                      keys + v.tx.offset + BlindOf(p.elements))
  {
    var b := BlindOf(p.elements);
    ReduceTwice(b);
    hide BlindOf;
    if v.tx.offset == 0 {
      ReduceTwice(Reduce(b) - p.offset);
      CongruentSum(keys + p.offset, keys + p.offset, Reduce(Reduce(b) - p.offset), Reduce(b) - p.offset);
      CongruentSum(keys, keys, Reduce(b), b);
    } else {
      CongruentSum(keys + v.tx.offset, keys + v.tx.offset, Reduce(b), b);
    }
  }

  /** What round 1 leaves behind: everyone's data, everything adding up, the offset
      of the first to come. */
  ghost predicate AfterRound1(v: SlateData, parties: seq<Party>, w: SlateData) {
    && EachJoined(w, parties) && KeysAddUp(w) && ValuesAddUp(w, Contributed(parties))
    && w.amount == v.amount && w.fee == v.fee && w.lockHeight == v.lockHeight
    && (if parties == [] then w == v
        else w.tx.offset == parties[0].offset && w.tx.kernels == [WithFeatures(v.Features())])
  }

  lemma OneMoreJoins(u: SlateData, parties: seq<Party>)
    requires parties != [] && EachJoined(u, parties[..|parties| - 1])
    requires u.tx.offset == 0 <==> |parties| == 1
    requires Join(u, parties[|parties| - 1], |parties| - 1).Ok?
    ensures EachJoined(Join(u, parties[|parties| - 1], |parties| - 1).value, parties)
  {
    hide Reduce, BlindOf, InputsOf, OutputsOf;
    var n := |parties| - 1;
    var w := Join(u, parties[n], n).value;
    forall i | 0 <= i < |parties| ensures IsParticipant(w.participantData[i], parties, i) {
      if i < n {
        assert IsParticipant(u.participantData[i], parties[..n], i);
      }
    }
  }

  lemma NoneJoined(v: SlateData)
    requires Fresh(v)
    ensures AfterRound1(v, [], v)
  {
    assert v.PubBlinds() == [];
  }

  lemma LastJoinAddsUp(v: SlateData, parties: seq<Party>, u: SlateData)
    requires Fresh(v) && parties != [] && AfterRound1(v, parties[..|parties| - 1], u)
    requires Join(u, parties[|parties| - 1], |parties| - 1).Ok?
    ensures AfterRound1(v, parties, Join(u, parties[|parties| - 1], |parties| - 1).value)
  {
    var n := |parties| - 1;
    hide KeysAddUp, EachJoined, Reduce, BlindOf, InputsOf, OutputsOf, Values;
    JoinAddsKeys(u, parties[n], n);
    ElementsAddValues(u, parties[n].elements, Contributed(parties[..n]));
    OneMoreJoins(u, parties);
  }

  /** However many join, exactly the first splits the offset, and keys and values
      add up. Equal commitments count as often as they were added. */
  lemma {:induction false} JoinedAddsUp(v: SlateData, parties: seq<Party>)
    requires Fresh(v) && Joined(v, parties).Ok?
    ensures AfterRound1(v, parties, Joined(v, parties).value)
  {
    hide AfterRound1, Join, Fresh;
    if parties == [] {
      NoneJoined(v);
    } else {
      var n := |parties| - 1;
      JoinedAddsUp(v, parties[..n]);
      LastJoinAddsUp(v, parties, Joined(v, parties[..n]).value);
    }
  }

  lemma {:induction false} JoinedSucceeds(v: SlateData, parties: seq<Party>)
    requires Fresh(v)
    ensures Joined(v, parties).Ok? <==> forall i: nat :: i < |parties| ==> KeyAfter(parties, i) != 0
  {
    if parties == [] {
    } else {
      hide AfterRound1, KeyAfter, Join, Fresh;
      var front := parties[..|parties| - 1];
      JoinedSucceeds(v, front);
      KeysOfFront(parties);
      if Joined(v, front).Ok? {
        OffsetIsChosen(v, front);
        JoinSucceeds(Joined(v, front).value, parties, |front|);
      }
    }
  }

  lemma KeysOfFront(parties: seq<Party>)
    requires parties != []
    ensures var front := parties[..|parties| - 1];
      (forall i: nat :: i < |parties| ==> KeyAfter(parties, i) != 0)
      <==> (forall i: nat :: i < |front| ==> KeyAfter(front, i) != 0) && KeyAfter(parties, |front|) != 0
  {
    var front := parties[..|parties| - 1];
    assert forall i: nat :: i < |front| ==> KeyAfter(front, i) == KeyAfter(parties, i);
    hide KeyAfter;
  }

  lemma OffsetIsChosen(v: SlateData, parties: seq<Party>)
    requires Fresh(v) && Joined(v, parties).Ok?
    ensures Joined(v, parties).value.tx.offset == 0 <==> parties == []
  {
    JoinedAddsUp(v, parties);
    hide EachJoined, KeysAddUp, ValuesAddUp, Joined;
  }

  lemma JoinSucceeds(u: SlateData, parties: seq<Party>, i: nat)
    requires i < |parties| && (u.tx.offset == 0 <==> i == 0)
    ensures Join(u, parties[i], i).Ok? <==> KeyAfter(parties, i) != 0
  {
    hide Reduce, BlindOf, InputsOf, OutputsOf;
  }

  // ----- round 2

  /** Round 2 of participant `i`, with the key it was left with. */
  function Sign(e: Challenge, v: SlateData, parties: seq<Party>, i: nat): Outcome<SlateData, SlateError>
    requires i < |parties|
  {
    match KeyOf(KeyAfter(parties, i))
    case Some(key) => v.Round2(e, key, parties[i].nonce, i)
    case None => Fails(InvalidKey)
  }

  predicate Within(order: seq<nat>, n: nat) {
    forall j :: 0 <= j < |order| ==> order[j] < n
  }

  /** Rounds 2 in any order, repetitions allowed. */
  function SignAll(e: Challenge, v: SlateData, parties: seq<Party>, order: seq<nat>): Outcome<SlateData, SlateError>
    requires Within(order, |parties|)
  {
    if order == [] then Returns(v)
    else
      match SignAll(e, v, parties, order[..|order| - 1])
      case Returns(w) => Sign(e, w, parties, order[|order| - 1])
      case Fails(error) => Fails(error)
      case Panics => Panics
  }

  function SignedData(e: Challenge, v: SlateData, i: nat): ParticipantData
    requires v.HasSums() && i < |v.participantData|
  {
    var p := v.participantData[i];
    p.(partSig := Some(v.PartialSig(e, p.publicBlindExcess, p.publicNonce)))
  }

  /** The slate once the participants in `done` have signed. */
  function Signed(e: Challenge, v: SlateData, done: set<nat>): SlateData
    requires v.HasSums()
  {
    v.(participantData := seq(|v.participantData|, i requires 0 <= i < |v.participantData| =>
      if i in done then SignedData(e, v, i) else v.participantData[i]))
  }

  ghost predicate Unsigned(v: SlateData) {
    forall i :: 0 <= i < |v.participantData| ==> v.participantData[i].partSig.None?
  }

  /** Signing changes nothing that is signed. */
  lemma SigningKeepsSums(e: Challenge, v: SlateData, done: set<nat>)
    requires v.HasSums()
    ensures var w := Signed(e, v, done);
      w.NonceSum() == v.NonceSum() && w.BlindSum() == v.BlindSum() && w.HasSums()
      && w.CommonChallenge(e) == v.CommonChallenge(e) && w.FeesPass() == v.FeesPass()
  {
    var w := Signed(e, v, done);
    hide Combination;
    assert w.PubNonces() == v.PubNonces() && w.PubBlinds() == v.PubBlinds();
  }

  lemma SignedVerify(e: Challenge, v: SlateData, done: set<nat>)
    requires v.HasSums() && Unsigned(v)
    ensures Signed(e, v, done).HasSums() && Signed(e, v, done).AllVerify(e) && Signed(e, v, done).VerifyPartSigs(e) == Ok(())
  {
    SigningKeepsSums(e, v, done);
    var w := Signed(e, v, done);
    hide Combination, SignatureScalar, SlateData.CommonChallenge;
    forall i | 0 <= i < |w.participantData| ensures w.PartSigVerifies(e, w.participantData[i]) {
    }
  }

  /** One more participant signs: the earlier signatures still verify. */
  lemma OneMoreSigns(e: Challenge, v: SlateData, parties: seq<Party>, done: set<nat>, i: nat)
    requires EachJoined(v, parties) && v.HasSums() && v.FeesPass() && i < |parties|
    ensures Sign(e, Signed(e, v, done), parties, i) == Returns(Signed(e, v, done + {i}))
  {
    assert Unsigned(v) by {
      forall j | 0 <= j < |v.participantData| ensures v.participantData[j].partSig.None? {
        assert IsParticipant(v.participantData[j], parties, j);
      }
    }
    SignedVerify(e, v, done);
    SigningKeepsSums(e, v, done);
    assert IsParticipant(v.participantData[i], parties, i);
    hide Combination, SignatureScalar, KeyAfter, SlateData.CommonChallenge, SlateData.FeesPass, SlateData.VerifyPartSigs, SlateData.HasSums;
    SetIsSigned(e, v, done, i);
  }

  lemma SetIsSigned(e: Challenge, v: SlateData, done: set<nat>, i: nat)
    requires v.HasSums() && i < |v.participantData|
    ensures Signed(e, v, done).SetPartSig(i, v.PartialSig(e, v.participantData[i].publicBlindExcess, v.participantData[i].publicNonce))
      == Signed(e, v, done + {i})
  {
    hide SlateData.PartialSig, SlateData.HasSums;
    var p := v.participantData[i];
    var w := Signed(e, v, done).SetPartSig(i, v.PartialSig(e, p.publicBlindExcess, p.publicNonce));
    var w' := Signed(e, v, done + {i});
    forall j | 0 <= j < |v.participantData| ensures w.participantData[j] == w'.participantData[j] {
    }
  }

  function Elements(order: seq<nat>): set<nat> {
    set j | 0 <= j < |order| :: order[j]
  }

  lemma LastElement(order: seq<nat>)
    requires order != []
    ensures Elements(order) == Elements(order[..|order| - 1]) + {order[|order| - 1]}
  {
    forall x | x in Elements(order) ensures x in Elements(order[..|order| - 1]) + {order[|order| - 1]} {
      var j :| 0 <= j < |order| && order[j] == x;
      assert j < |order| - 1 ==> order[..|order| - 1][j] == x;
    }
    forall x | x in Elements(order[..|order| - 1]) ensures x in Elements(order) {
      var j :| 0 <= j < |order| - 1 && order[..|order| - 1][j] == x;
      assert order[j] == x;
    }
  }

  /** After round 1 of all, rounds 2 succeed in any order, exactly when the fee
      suffices and the sums of nonces and keys are keys. */
  lemma {:induction false} SigningSucceeds(e: Challenge, v: SlateData, parties: seq<Party>, order: seq<nat>)
    requires EachJoined(v, parties) && Within(order, |parties|)
    ensures order != [] && !(v.FeesPass() && v.HasSums()) ==> SignAll(e, v, parties, order).Fails?
    ensures v.FeesPass() && v.HasSums() ==> SignAll(e, v, parties, order) == Returns(Signed(e, v, Elements(order)))
  {
    if order == [] {
      if v.HasSums() {
        assert Signed(e, v, Elements(order)).participantData == v.participantData;
      }
    } else {
      var front, last := order[..|order| - 1], order[|order| - 1];
      SigningSucceeds(e, v, parties, front);
      if v.FeesPass() && v.HasSums() {
        OneMoreSigns(e, v, parties, Elements(front), last);
        LastElement(order);
      } else if front == [] {
        assert IsParticipant(v.participantData[last], parties, last);
        UnsignedFails(e, v, parties, last);
      }
    }
  }

  lemma UnsignedFails(e: Challenge, v: SlateData, parties: seq<Party>, i: nat)
    requires EachJoined(v, parties) && i < |parties| && !(v.FeesPass() && v.HasSums())
    ensures Sign(e, v, parties, i).Fails?
  {
    forall j | 0 <= j < |v.participantData| ensures v.participantData[j].partSig.None? {
      assert IsParticipant(v.participantData[j], parties, j);
    }
    assert !v.SomeSigned();
    assert IsParticipant(v.participantData[i], parties, i);
    hide KeyAfter, Combination, SlateData.FeesPass, SlateData.HasSums;
  }

  // ----- the final signature

  /** The final signature of partial signatures that verify is accepted exactly when
      their nonces add up to the published ones. */
  lemma FinalSignatureAccepted(e: Challenge, v: SlateData)
    requires v.HasSums() && v.AllSigned() && v.AllVerify(e)
    ensures v.FinalSignature(e).Returns? <==> Congruent(Sum(Nonces(v.PartSigs())), Sum(v.PubNonces()))
    ensures v.FinalSignature(e).Returns? ==>
      v.FinalSignature(e).value.nonce == v.NonceSum().value
      && Verifies(v.FinalSignature(e).value, v.BlindSum().value, v.CommonChallenge(e))
  {
    var c := v.CommonChallenge(e);
    forall i | 0 <= i < |v.PartSigs()| ensures Verifies(v.PartSigs()[i], v.PubBlinds()[i], c) {
      assert v.PartSigVerifies(e, v.participantData[i]);
    }
    SignaturesAdd(v.PartSigs(), v.PubBlinds(), c);
    var nonces, keys := Sum(v.PubNonces()), Sum(v.PubBlinds());
    ScalarOfReduced(nonces, c, keys);
    ScalarFixesNonce(Sum(Nonces(v.PartSigs())), nonces, c, keys);
    assert v.NonceSum() == Some(Reduce(nonces)) && v.BlindSum() == Some(Reduce(keys));
    assert v.VerifyPartSigs(e) == Ok(());
    hide Reduce, Sum, SignatureScalar, SlateData.VerifyPartSigs, SlateData.CommonChallenge, Combination;
  }

  lemma SignedByAll(e: Challenge, v: SlateData, done: set<nat>)
    requires v.HasSums() && Unsigned(v) && forall i: nat :: i < |v.participantData| ==> i in done
    ensures Signed(e, v, done).FinalSignature(e).Returns?
  {
    var w := Signed(e, v, done);
    SignedVerify(e, v, done);
    SigningKeepsSums(e, v, done);
    FinalSignatureAccepted(e, w);
    hide Combination, SignatureScalar, SlateData.CommonChallenge, SlateData.FinalSignature, SlateData.AllVerify;
    assert Nonces(w.PartSigs()) == w.PubNonces();
  }

  // ----- the final transaction

  lemma SumsOfOne(c: Commitment)
    ensures Blinds([c]) == c.blind && Values([c]) == c.value
  {
    SumsAppend([], c);
    assert [] + [c] == [c];
  }

  lemma ExcessBlind(tx: Transaction)
    ensures Congruent(Excess(tx).blind, Blinds(tx.outputs) - Blinds(tx.inputs) - tx.offset)
  {
    hide Reduce, Blinds;
    var overage, offset := Commit(tx.Fee(), 0), Commit(0, tx.offset);
    var txExcess := CommitSum(tx.outputs + [overage], tx.inputs);
    SumsAppend(tx.outputs, overage);
    SumsOfOne(txExcess);
    SumsOfOne(offset);
    ReduceTwice(Blinds(tx.outputs) - Blinds(tx.inputs));
    ReduceTwice(txExcess.blind - tx.offset);
    CongruentSum(txExcess.blind, Blinds(tx.outputs) - Blinds(tx.inputs), tx.offset, tx.offset);
  }

  lemma ExcessValue(tx: Transaction)
    ensures Congruent(Excess(tx).value, Values(tx.outputs) - Values(tx.inputs) + tx.Fee())
  {
    hide Values, Transaction.Fee;
    var overage, offset := Commit(tx.Fee(), 0), Commit(0, tx.offset);
    var txExcess := CommitSum(tx.outputs + [overage], tx.inputs);
    var values := Values(tx.outputs) - Values(tx.inputs);
    SumsAppend(tx.outputs, overage);
    SumsOfOne(txExcess);
    SumsOfOne(offset);
    ReduceTwice(tx.Fee());
    CongruentSum(values, values, overage.value, tx.Fee());
    ReduceTwice(values + overage.value);
    ReduceTwice(txExcess.value);
    assert offset.value == 0;
    hide Reduce;
  }

  /** The excess is the sum of the participants' keys, committing to what the
      contributions and the fee fail to balance by. */
  lemma ExcessIsKeySum(v: SlateData, parties: seq<Party>, w: SlateData)
    requires AfterRound1(v, parties, w) && parties != []
    ensures Excess(w.tx) == Commitment(Reduce(Sum(w.PubBlinds())), Reduce(Contributed(parties) + v.fee))
  {
    hide Excess, Values, Blinds, Sum, Contributed, EachJoined, Reduce;
    ExcessBlind(w.tx);
    ExcessValue(w.tx);
    OneKernelFee(v.Features());
    CongruentSum(Sum(w.PubBlinds()) + w.tx.offset, Blinds(w.tx.outputs) - Blinds(w.tx.inputs), w.tx.offset, w.tx.offset);
    CongruentSum(Values(w.tx.outputs) - Values(w.tx.inputs), Contributed(parties), v.fee, v.fee);
    CanonicalIs(Excess(w.tx).blind, Sum(w.PubBlinds()));
    CanonicalIs(Excess(w.tx).value, Contributed(parties) + v.fee);
    assert Sum(w.PubBlinds()) + w.tx.offset - w.tx.offset == Sum(w.PubBlinds());
  }

  lemma CanonicalIs(x: Scalar, y: int)
    ensures Congruent(x, y) <==> x == Reduce(y)
  {
  }

  lemma OneKernelFee(features: KernelFeatures)
    ensures FeeOf([WithFeatures(features)]) == features.fee
  {
    assert [WithFeatures(features)][..0] == [];
  }

  /** The kernel of the final transaction verifies exactly when the contributions
      and the fee balance. */
  lemma KernelOfRun(e: Challenge, v: SlateData, parties: seq<Party>, w: SlateData, sig: Signature)
    requires AfterRound1(v, parties, w) && parties != [] && w.HasSums()
    requires sig.nonce == w.NonceSum().value && Verifies(sig, w.BlindSum().value, w.CommonChallenge(e))
    ensures KernelVerifies(e, w.FinalTx(sig).kernels[0]) <==> Congruent(Contributed(parties) + v.fee, 0)
  {
    ExcessIsKeySum(v, parties, w);
    hide Verifies, Sum, Contributed, Excess, EachJoined, KeysAddUp, ValuesAddUp;
    assert w.BlindSum() == Some(Reduce(Sum(w.PubBlinds())));
    hide Combination;
    assert w.FinalTx(sig).kernels[0].features == w.Features();
  }

  lemma JoinedUnsigned(w: SlateData, parties: seq<Party>)
    requires EachJoined(w, parties)
    ensures Unsigned(w)
  {
    forall j | 0 <= j < |w.participantData| ensures w.participantData[j].partSig.None? {
      assert IsParticipant(w.participantData[j], parties, j);
    }
  }

  lemma SignatureOfRun(e: Challenge, v: SlateData, done: set<nat>)
    requires v.HasSums() && Unsigned(v) && forall i: nat :: i < |v.participantData| ==> i in done
    ensures var sig := Signed(e, v, done).FinalSignature(e);
      sig.Returns? && sig.value.nonce == v.NonceSum().value && Verifies(sig.value, v.BlindSum().value, v.CommonChallenge(e))
  {
    SignedByAll(e, v, done);
    SignedVerify(e, v, done);
    SigningKeepsSums(e, v, done);
    FinalSignatureAccepted(e, Signed(e, v, done));
    hide Verifies, Combination, SlateData.CommonChallenge, SlateData.FinalSignature, SlateData.AllVerify;
  }

  lemma FinalizedIs(e: Challenge, v: SlateData, done: set<nat>, sig: Signature, valid: Transaction -> bool)
    requires v.HasSums() && v.FeesPass() && |v.tx.kernels| == 1
    requires Signed(e, v, done).FinalSignature(e) == Returns(sig)
    ensures var s := Signed(e, v, done);
      && s.tx == v.tx && s.FinalTx(sig) == v.FinalTx(sig)
      && (s.Finalized(e, valid).Returns? <==> KernelVerifies(e, v.FinalTx(sig).kernels[0]) && valid(v.FinalTx(sig)))
  {
    SigningKeepsSums(e, v, done);
    hide KernelVerifies, SlateData.FinalSignature, SlateData.FeesPass, SlateData.HasSums, SlateData.CommonChallenge, Combination, Excess;
  }

  lemma PartsOfRun(v: SlateData, parties: seq<Party>, w: SlateData)
    requires AfterRound1(v, parties, w) && parties != [] && w.HasSums()
    ensures EachJoined(w, parties) && |w.participantData| == |parties| && |w.tx.kernels| == 1
    ensures w.BlindSum().Some? && w.NonceSum().Some? && w.BlindSum().value == Reduce(Sum(w.PubBlinds()))
  {
    hide KeysAddUp, ValuesAddUp, Sum;
  }

  /** Once all have signed, in whatever order, the slate is finalized exactly when
      the contributions and the fee balance; `valid` is then asked about the result. */
  lemma SignedByAllFinalizes(e: Challenge, v: SlateData, parties: seq<Party>, w: SlateData, done: set<nat>, valid: Transaction -> bool)
    requires AfterRound1(v, parties, w) && parties != [] && w.HasSums() && w.FeesPass()
    requires forall i: nat :: i < |parties| ==> i in done
    ensures Finalizes(e, Signed(e, w, done), Contributed(parties) + v.fee, w.BlindSum(), valid)
  {
    hide *;
    var s := Signed(e, w, done);
    PartsOfRun(v, parties, w);
    JoinedUnsigned(w, parties);
    SignatureOfRun(e, w, done);
    var sig := s.FinalSignature(e).value;
    KernelOfRun(e, v, parties, w, sig);
    FinalizedIs(e, w, done, sig, valid);
    ExcessIsKeySum(v, parties, w);
    BalancedFinalizes(e, s, Contributed(parties) + v.fee, w.BlindSum(), valid, sig);
  }

  /** The signed slate gives a final signature; it is finalized exactly when `total`,
      contributions and fee, balances; and then its excess is the sum of the keys. */
  ghost predicate Finalizes(e: Challenge, s: SlateData, total: int, keySum: Option<PublicKey>, valid: Transaction -> bool) {
    && s.FinalSignature(e).Returns? && |s.tx.kernels| == 1
    && (s.Finalized(e, valid).Returns? <==> Congruent(total, 0) && valid(s.FinalTx(s.FinalSignature(e).value)))
    && (Congruent(total, 0) ==> keySum.Some? && Excess(s.tx) == Commitment(keySum.value, 0))
  }

  lemma BalancedFinalizes(e: Challenge, s: SlateData, total: int, keySum: Option<PublicKey>, valid: Transaction -> bool, sig: Signature)
    requires s.FinalSignature(e) == Returns(sig) && |s.tx.kernels| == 1
    requires s.Finalized(e, valid).Returns? <==> Congruent(total, 0) && valid(s.FinalTx(sig))
    requires keySum.Some? && Excess(s.tx) == Commitment(keySum.value, Reduce(total))
    ensures Finalizes(e, s, total, keySum, valid)
  {
    CongruentDifference(total, 0);
    hide Excess, SlateData.FinalSignature, SlateData.Finalized, SlateData.FinalTx;
  }

  /** Round 1 of all, then round 2 of all, in any order. Signing succeeds exactly when
      the fee suffices and the sums are keys; the final signature then verifies; and
      the transaction is finalized exactly when what the participants contribute
      balances with the fee, its kernel's excess being the sum of their keys. */
  lemma RunFinalizes(e: Challenge, v: SlateData, parties: seq<Party>, w: SlateData, order: seq<nat>, valid: Transaction -> bool)
    requires Fresh(v) && Joined(v, parties) == Ok(w) && parties != []
    requires Within(order, |parties|) && forall i: nat :: i < |parties| ==> i in Elements(order)
    ensures SignAll(e, w, parties, order).Returns? <==> w.FeesPass() && w.HasSums()
    ensures SignAll(e, w, parties, order).Returns? ==>
      Finalizes(e, SignAll(e, w, parties, order).value, Contributed(parties) + v.fee, w.BlindSum(), valid)
  {
    JoinedAddsUp(v, parties);
    SigningSucceeds(e, w, parties, order);
    assert 0 in Elements(order);
    hide *;
    NonEmpty(order);
    if w.FeesPass() && w.HasSums() {
      SignedByAllFinalizes(e, v, parties, w, Elements(order), valid);
    }
  }

  lemma NonEmpty(order: seq<nat>)
    ensures 0 in Elements(order) ==> order != []
  {
  }

  /** Within the range of the group order, to balance modulo the order is to balance. */
  lemma BalanceIsExact(contributed: int, fee: nat)
    requires 0 - ORDER < contributed + fee < ORDER
    ensures Congruent(contributed + fee, 0) <==> contributed + fee == 0
  {
  }

  // ----- why round 1 comes first

  /** Whoever joins after a signature was given changes the sums it was made with:
      it verifies from then on only if the new challenge happens to have the same
      product with the signer's key. */
  lemma LateJoinBreaks(e: Challenge, v: SlateData, p: Party, id: nat, i: nat)
    requires v.HasSums() && i < |v.participantData| && v.participantData[i].partSig.Some?
    requires v.PartSigVerifies(e, v.participantData[i])
    requires Join(v, p, id).Ok? && Join(v, p, id).value.HasSums()
    ensures var w, key := Join(v, p, id).value, v.participantData[i].publicBlindExcess;
      w.PartSigVerifies(e, w.participantData[i]) <==>
        Congruent(w.CommonChallenge(e) * key, v.CommonChallenge(e) * key)
  {
    var w, q := Join(v, p, id).value, v.participantData[i];
    hide Combination, SlateData.CommonChallenge, SlateData.HasSums;
    assert w.participantData[i] == q;
    var nonce, key := q.partSig.value.nonce, q.publicBlindExcess;
    var a, b := w.CommonChallenge(e) * key, v.CommonChallenge(e) * key;
    hide Reduce;
    CongruentDifference(nonce + a, nonce + b);
    CongruentDifference(a, b);
    assert nonce + a - (nonce + b) == a - b;
  }

  // ----- the kernel

  /** The kernel everybody signs carries the fee of the slate, and its lock height if there
      is one. */
  lemma KernelIsOfSlate(v: SlateData, parties: seq<Party>)
    requires Fresh(v) && Joined(v, parties).Ok? && parties != []
    ensures var w := Joined(v, parties).value;
      && |w.tx.kernels| == 1 && w.tx.kernels[0].excessSig == None && w.tx.kernels[0].excess == Commitment(0, 0)
      && w.tx.kernels[0].features == (if v.lockHeight == 0 then Plain(v.fee) else HeightLocked(v.fee, v.lockHeight))
      && w.amount == v.amount && w.fee == v.fee && w.lockHeight == v.lockHeight
  {
    JoinedAddsUp(v, parties);
    hide Joined, EachJoined, KeysAddUp, ValuesAddUp;
  }
}
