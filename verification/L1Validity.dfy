/**
 * What the contract guarantees against any submitters: if the verifier accepts only what the proved
 * program commits to, every root it ever holds is the root of the one ledger reached from genesis.
 */
module L1Validity {
  import opened Wrappers
  import opened Bytes
  import opened SharedTypes
  import opened AccountStore
  import opened Ledger
  import opened Settlement

  /**
   * One call of `submitBatch` by anyone. `prev` and `batch` are the inputs the program was run on
   * when the proof is good; the contract never sees them.
   */
  datatype Submission = Submission(publicValues: seq<byte>, proofOk: bool, prev: Accounts, batch: seq<Tx>)

  /**
   * The program ran on `prev` and `batch` and committed these bytes. On a vector that is not sorted
   * the outcome of a binary search is unspecified, so nothing but the first word is assumed there.
   */
  ghost predicate Commits(cx: Crypto, prev: Accounts, batch: seq<Tx>, publicValues: seq<byte>)
  {
    && |publicValues| == 96
    && publicValues[..32] == Root(cx, prev)
    && (Sorted(prev) ==>
          && ApplyBatch(cx, prev, batch).Ok?
          && publicValues == EncodePublicValues(ApplyBatch(cx, prev, batch).value.1))
  }

  /** Soundness of the verifier, for one call. */
  ghost predicate Sound(cx: Crypto, call: Submission)
  {
    call.proofOk ==> Commits(cx, call.prev, call.batch, call.publicValues)
  }

  predicate Accepts(r: RollupState, call: Submission)
  {
    Submit(r, call.publicValues, call.proofOk).Ok?
  }

  /** The contract after all calls; a revert changes nothing. */
  function SubmitAll(r: RollupState, calls: seq<Submission>): RollupState
  {
    if calls == [] then r
    else
      var s, call := SubmitAll(r, calls[..|calls| - 1]), calls[|calls| - 1];
      match Submit(s, call.publicValues, call.proofOk)
      case Ok(out) => out.0
      case Err(_) => s
  }

  /** The transactions of the accepted calls, in order. */
  function AcceptedTxs(r: RollupState, calls: seq<Submission>): seq<Tx>
  {
    if calls == [] then []
    else
      var before, call := calls[..|calls| - 1], calls[|calls| - 1];
      AcceptedTxs(r, before) + if Accepts(SubmitAll(r, before), call) then call.batch else []
  }

  function AcceptedCount(r: RollupState, calls: seq<Submission>): nat
  {
    if calls == [] then 0
    else
      var before, call := calls[..|calls| - 1], calls[|calls| - 1];
      AcceptedCount(r, before) + if Accepts(SubmitAll(r, before), call) then 1 else 0
  }

  ghost predicate EquivocatesAt(cx: Crypto, g: Accounts, r: RollupState, calls: seq<Submission>, k: nat)
    requires k < |calls|
  {
    var ledger := ApplyAll(cx, g, AcceptedTxs(r, calls[..k]));
    ledger.Ok? && Collision(cx, EncodeAccounts(calls[k].prev), EncodeAccounts(ledger.value))
  }

  /** Some submitter holds a second preimage of the root of the ledger at the time of its call. */
  ghost predicate Equivocates(cx: Crypto, g: Accounts, r: RollupState, calls: seq<Submission>)
  {
    exists k :: 0 <= k < |calls| && EquivocatesAt(cx, g, r, calls, k)
  }

  /** The accepted transactions run from genesis, and the contract holds the root of the result. */
  ghost predicate HoldsLedger(cx: Crypto, g: Accounts, r: RollupState, calls: seq<Submission>)
  {
    var ledger, now := ApplyAll(cx, g, AcceptedTxs(r, calls)), SubmitAll(r, calls);
    && ledger.Ok?
    && now.stateRoot == Root(cx, ledger.value)
    && Sorted(ledger.value)
    && Supply(ledger.value) == Supply(g)
    && now.batchCount == Wrap64(r.batchCount + AcceptedCount(r, calls))
  }

  lemma EquivocatesPrefix(cx: Crypto, g: Accounts, r: RollupState, calls: seq<Submission>, n: nat)
    requires n <= |calls| && Equivocates(cx, g, r, calls[..n])
    ensures Equivocates(cx, g, r, calls)
  {
    var k :| 0 <= k < n && EquivocatesAt(cx, g, r, calls[..n], k);
    assert calls[..n][..k] == calls[..k];
    assert EquivocatesAt(cx, g, r, calls, k);
  }

  /** An accepted call that holds no collision was run on the true ledger, and moves it by its batch. */
  lemma {:induction false} AcceptedCall(
      cx: Crypto, g: Accounts, r: RollupState, calls: seq<Submission>, call: Submission)
    requires HoldsLedger(cx, g, r, calls)
    requires Sound(cx, call) && Accepts(SubmitAll(r, calls), call)
    requires var ledger := ApplyAll(cx, g, AcceptedTxs(r, calls)).value;
             !Collision(cx, EncodeAccounts(call.prev), EncodeAccounts(ledger))
    ensures ApplyAll(cx, g, AcceptedTxs(r, calls)) == Ok(call.prev)
    ensures HoldsLedger(cx, g, r, calls + [call])
  {
    hide Sorted, Sum, ApplyAll;
    var all := calls + [call];
    assert all[..|all| - 1] == calls;
    var ledger := ApplyAll(cx, g, AcceptedTxs(r, calls)).value;
    RootBinding(cx, call.prev, ledger);
    PublicValuesRoundTrip(ApplyBatch(cx, call.prev, call.batch).value.1);
    ApplyAllAppend(cx, g, AcceptedTxs(r, calls), call.batch);
    BatchKeeps(cx, ledger, call.batch);
    WrapAdd(r.batchCount + AcceptedCount(r, calls), 1);
  }

  lemma ValidityStep(cx: Crypto, g: Accounts, r: RollupState, calls: seq<Submission>, call: Submission)
    requires HoldsLedger(cx, g, r, calls) && Sound(cx, call)
    ensures HoldsLedger(cx, g, r, calls + [call]) || EquivocatesAt(cx, g, r, calls + [call], |calls|)
  {
    hide Sorted, Sum, ApplyAll, Commits, Submit, EncodeAccounts, Sound;
    var all := calls + [call];
    assert all[..|all| - 1] == calls && all[..|calls|] == calls;
    if !EquivocatesAt(cx, g, r, all, |calls|) {
      if Accepts(SubmitAll(r, calls), call) {
        AcceptedCall(cx, g, r, calls, call);
      } else {
        assert AcceptedTxs(r, calls) + [] == AcceptedTxs(r, calls);
      }
    }
  }

  /** L1 validity over every sequence of calls by any submitters, or an explicit keccak collision. */
  lemma {:induction false} Validity(cx: Crypto, g: Accounts, r: RollupState, calls: seq<Submission>)
    requires Sorted(g) && r.stateRoot == Root(cx, g)
    requires forall i :: 0 <= i < |calls| ==> Sound(cx, calls[i])
    ensures HoldsLedger(cx, g, r, calls) || Equivocates(cx, g, r, calls)
  {
    hide Sorted, Sum, Apply, Sound, EncodeAccounts, EquivocatesAt;
    if calls != [] {
      hide HoldsLedger;
      var n := |calls| - 1;
      assert calls == calls[..n] + [calls[n]];
      Validity(cx, g, r, calls[..n]);
      if Equivocates(cx, g, r, calls[..n]) {
        EquivocatesPrefix(cx, g, r, calls, n);
      } else {
        ValidityStep(cx, g, r, calls[..n], calls[n]);
      }
    }
  }

  /**
   * Whoever submits, the ledger the contract stands for was reached by transfers that were each signed by
   * their sender, in nonce order and within its funds: no account lost anything it did not send.
   */
  lemma {:induction false} NoTheftOnL1(cx: Crypto, g: Accounts, r: RollupState, calls: seq<Submission>)
    requires Sorted(g) && r.stateRoot == Root(cx, g)
    requires forall i :: 0 <= i < |calls| ==> Sound(cx, calls[i])
    ensures || Equivocates(cx, g, r, calls)
            || var txs := AcceptedTxs(r, calls);
               var ledger := ApplyAll(cx, g, txs);
               && ledger.Ok? && SubmitAll(r, calls).stateRoot == Root(cx, ledger.value)
               && NothingStolen(cx, g, txs, ledger.value)
  {
    hide Sorted, Sum, ApplyAll, Sound, Equivocates, NothingStolen, AcceptedTxs, SubmitAll, Root;
    Validity(cx, g, r, calls);
    if HoldsLedger(cx, g, r, calls) {
      NoTheft(cx, g, AcceptedTxs(r, calls));
    }
  }

  // ----- What the published events pin down -----

  function AcceptedBatches(r: RollupState, calls: seq<Submission>): seq<seq<Tx>>
  {
    if calls == [] then []
    else
      var before, call := calls[..|calls| - 1], calls[|calls| - 1];
      AcceptedBatches(r, before) + if Accepts(SubmitAll(r, before), call) then [call.batch] else []
  }

  /** The events of the accepted calls, in order; a revert emits none. */
  function Events(r: RollupState, calls: seq<Submission>): seq<BatchSettled>
  {
    if calls == [] then []
    else
      var before, call := calls[..|calls| - 1], calls[|calls| - 1];
      match Submit(SubmitAll(r, before), call.publicValues, call.proofOk)
      case Ok(out) => Events(r, before) + [out.1]
      case Err(_) => Events(r, before)
  }

  /** What one accepted call says of itself: from the root before it to the root after it, under the new number. */
  lemma EventOfCall(r: RollupState, publicValues: seq<byte>, proofOk: bool)
    requires Submit(r, publicValues, proofOk).Ok?
    ensures var out := Submit(r, publicValues, proofOk).value;
            && out.1 == BatchSettled(out.0.batchCount, r.stateRoot, out.0.stateRoot, out.1.batchHash)
            && |publicValues| >= 96 && publicValues[..32] == r.stateRoot
            && publicValues[32..64] == out.0.stateRoot && publicValues[64..96] == out.1.batchHash
            && out.0.batchCount == Wrap64(r.batchCount + 1)
  {
  }

  /** The root that event `i` starts from: the one before it ended at, and at first the deployed one. */
  function RootBefore(r: RollupState, events: seq<BatchSettled>, i: nat): Hash
    requires i <= |events|
  {
    if i == 0 then r.stateRoot else events[i - 1].newRoot
  }

  /** The events lead from `r` to `now`, each from the root before it, numbered without a gap. */
  ghost predicate Chained(r: RollupState, events: seq<BatchSettled>, now: RollupState)
  {
    && (forall i :: 0 <= i < |events| ==> events[i].prevRoot == RootBefore(r, events, i))
    && now.stateRoot == RootBefore(r, events, |events|)
    && (forall i :: 0 <= i < |events| ==> events[i].batchNumber == Wrap64(r.batchCount + i + 1))
    && now.batchCount == Wrap64(r.batchCount + |events|)
  }

  lemma RootBeforeLast(r: RollupState, events: seq<BatchSettled>, event: BatchSettled, i: nat)
    requires i <= |events|
    ensures RootBefore(r, events + [event], i) == RootBefore(r, events, i)
    ensures RootBefore(r, events + [event], |events| + 1) == event.newRoot
  {
  }

  lemma ChainedStep(r: RollupState, events: seq<BatchSettled>, now: RollupState, event: BatchSettled)
    requires Chained(r, events, now)
    requires event.prevRoot == now.stateRoot && event.batchNumber == Wrap64(now.batchCount + 1)
    ensures Chained(r, events + [event], RollupState(event.newRoot, event.batchNumber))
  {
    hide Wrap64, RootBefore;
    var n, all := |events|, events + [event];
    WrapAdd(r.batchCount + n, 1);
    assert all[n] == event && RootBefore(r, all, n + 1) == event.newRoot by {
      RootBeforeLast(r, events, event, n);
    }
    forall i | 0 <= i < |all|
      ensures all[i].prevRoot == RootBefore(r, all, i)
    {
      RootBeforeLast(r, events, event, i);
      if i < n {
        assert all[i] == events[i];
      }
    }
  }

  lemma NoEvents(r: RollupState)
    ensures Chained(r, [], r)
  {
    WrapAdd(r.batchCount, 0);
  }

  /**
   * The events of any calls by anyone form one chain from the deployed root to the present one, numbered
   * without a gap, one for each accepted call.
   */
  lemma {:induction false} EventsChain(r: RollupState, calls: seq<Submission>)
    ensures Chained(r, Events(r, calls), SubmitAll(r, calls)) && |Events(r, calls)| == AcceptedCount(r, calls)
  {
    hide Submit, Chained;
    if calls == [] {
      NoEvents(r);
    } else {
      var before, call := calls[..|calls| - 1], calls[|calls| - 1];
      var s := SubmitAll(r, before);
      EventsChain(r, before);
      if Accepts(s, call) {
        var out := Submit(s, call.publicValues, call.proofOk).value;
        EventOfCall(s, call.publicValues, call.proofOk);
        ChainedStep(r, Events(r, before), s, out.1);
        assert out.0 == RollupState(out.1.newRoot, out.1.batchNumber);
      }
    }
  }

  lemma {:induction false} BatchesAreAccepted(r: RollupState, calls: seq<Submission>)
    ensures AcceptedTxs(r, calls) == Flatten(AcceptedBatches(r, calls))
  {
    hide Submit, SubmitAll, Accepts;
    if calls != [] {
      var before, call := calls[..|calls| - 1], calls[|calls| - 1];
      BatchesAreAccepted(r, before);
      var batches := AcceptedBatches(r, before);
      assert (batches + [call.batch])[..|batches|] == batches;
      assert batches + [] == batches && AcceptedTxs(r, before) + [] == AcceptedTxs(r, before);
    }
  }

  /** The events carry the hashes of these batches. */
  ghost predicate HashesMatch(cx: Crypto, events: seq<BatchSettled>, batches: seq<seq<Tx>>)
  {
    |events| == |batches| && forall i :: 0 <= i < |events| ==> events[i].batchHash == BatchHash(cx, batches[i])
  }

  lemma AcceptedHash(cx: Crypto, g: Accounts, r: RollupState, calls: seq<Submission>, call: Submission)
    requires HoldsLedger(cx, g, r, calls)
    requires Sound(cx, call) && Accepts(SubmitAll(r, calls), call)
    requires var ledger := ApplyAll(cx, g, AcceptedTxs(r, calls)).value;
             !Collision(cx, EncodeAccounts(call.prev), EncodeAccounts(ledger))
    ensures Submit(SubmitAll(r, calls), call.publicValues, call.proofOk).value.1.batchHash ==
            BatchHash(cx, call.batch)
  {
    hide Sorted, Sum, ApplyAll, BatchHash, Root, EncodePublicValues, DecodePublicValues;
    AcceptedCall(cx, g, r, calls, call);
    PublicValuesRoundTrip(ApplyBatch(cx, call.prev, call.batch).value.1);
  }

  lemma LedgerApplies(cx: Crypto, g: Accounts, r: RollupState, calls: seq<Submission>)
    requires HoldsLedger(cx, g, r, calls)
    ensures ApplyAll(cx, g, AcceptedTxs(r, calls)).Ok?
  {
  }

  /** Every event carries the hash of the batch it settled, unless some caller holds a collision. */
  lemma {:induction false} EventsTellBatches(cx: Crypto, g: Accounts, r: RollupState, calls: seq<Submission>)
    requires Sorted(g) && r.stateRoot == Root(cx, g)
    requires forall i :: 0 <= i < |calls| ==> Sound(cx, calls[i])
    ensures HashesMatch(cx, Events(r, calls), AcceptedBatches(r, calls)) || Equivocates(cx, g, r, calls)
  {
    hide Sorted, Sum, Apply, Sound, EncodeAccounts, Submit, HoldsLedger, BatchHash, Root, ApplyAll;
    if calls != [] {
      var n := |calls| - 1;
      EventsTellBatches(cx, g, r, calls[..n]);
      Validity(cx, g, r, calls[..n]);
      if Equivocates(cx, g, r, calls[..n]) {
        EquivocatesPrefix(cx, g, r, calls, n);
      } else if Accepts(SubmitAll(r, calls[..n]), calls[n]) && !EquivocatesAt(cx, g, r, calls, n) {
        assert ApplyAll(cx, g, AcceptedTxs(r, calls[..n])).Ok? by {
          LedgerApplies(cx, g, r, calls[..n]);
        }
        AcceptedHash(cx, g, r, calls[..n], calls[n]);
      }
    }
  }

  /** Two different batches with one hash hold a keccak collision, of the batch or of one transaction. */
  ghost predicate BatchesCollide(cx: Crypto, s: seq<Tx>, t: seq<Tx>)
  {
    || Collision(cx, EncodeBatch(cx, s), EncodeBatch(cx, t))
    || (|s| == |t| && exists i :: 0 <= i < |s| && Collision(cx, FullEncoding(s[i]), FullEncoding(t[i])))
  }

  lemma SameHashBatches(cx: Crypto, s: seq<Tx>, t: seq<Tx>)
    requires BatchHash(cx, s) == BatchHash(cx, t)
    ensures s == t || BatchesCollide(cx, s, t)
  {
    BatchHashBinding(cx, s, t);
  }

  /**
   * The events make the ledger auditable: any batches whose hashes are the emitted ones are the accepted
   * batches, so genesis and published batches replay to the contract's root, or there is a collision.
   */
  lemma {:induction false} PublishedBatchesReplay(
      cx: Crypto, g: Accounts, r: RollupState, calls: seq<Submission>, published: seq<seq<Tx>>)
    requires Sorted(g) && r.stateRoot == Root(cx, g)
    requires forall i :: 0 <= i < |calls| ==> Sound(cx, calls[i])
    requires HashesMatch(cx, Events(r, calls), published)
    ensures || Equivocates(cx, g, r, calls)
            || (exists i :: 0 <= i < |published| && i < |AcceptedBatches(r, calls)| &&
                  BatchesCollide(cx, published[i], AcceptedBatches(r, calls)[i]))
            || (&& published == AcceptedBatches(r, calls)
                && ApplyAll(cx, g, Flatten(published)).Ok?
                && SubmitAll(r, calls).stateRoot == Root(cx, ApplyAll(cx, g, Flatten(published)).value))
  {
    hide Sorted, Sum, ApplyAll, Sound, Equivocates, Events, AcceptedBatches, AcceptedTxs, SubmitAll, Root,
         BatchHash, BatchesCollide, Flatten;
    var batches := AcceptedBatches(r, calls);
    EventsTellBatches(cx, g, r, calls);
    Validity(cx, g, r, calls);
    BatchesAreAccepted(r, calls);
    if !Equivocates(cx, g, r, calls) && published != batches {
      var i :| 0 <= i < |published| && published[i] != batches[i];
      SameHashBatches(cx, published[i], batches[i]);
    }
  }
}
