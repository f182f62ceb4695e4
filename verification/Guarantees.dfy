/** What the invariant means for users and operators, stated over every run of the protocol. */
module Guarantees {
  import opened Wrappers
  import opened Bytes
  import opened SharedTypes
  import opened AccountStore
  import opened Ledger
  import opened Sequencing
  import opened Settlement
  import opened Protocol
  import opened Disturbances
  import opened Safety

  /** World `w` is where the actions lead from a genesis the contract agrees with, in an ordinary run. */
  ghost predicate Run(cx: Crypto, g: Accounts, l1: RollupState, acts: seq<Action>, w: World)
  {
    && Sorted(g)
    && Start(cx, g, l1).Some?
    && w == Exec(cx, Start(cx, g, l1).value, acts)
    && Ordinary(cx, w)
  }

  lemma OrdinaryRun(cx: Crypto, g: Accounts, l1: RollupState, acts: seq<Action>, w: World)
    requires Run(cx, g, l1, acts, w)
    ensures Ordinary(cx, w) && Sorted(g) && w == Exec(cx, Boot(cx, g, l1), acts)
  {
  }

  lemma RunInv(cx: Crypto, g: Accounts, l1: RollupState, acts: seq<Action>, w: World)
    requires Run(cx, g, l1, acts, w)
    ensures Inv(cx, w) && w.log.ledgers[0] == g
  {
    hide Exec, Ordinary, Sorted;
    BootInv(cx, g, l1);
    ExecKeeps(cx, Start(cx, g, l1).value, acts);
    assert Start(cx, g, l1).value.log.ledgers[0] == g;
  }

  // ----- L1 and the sequencer -----

  /** L1 stands for the canonical state and no handler is between settlement and commit. */
  ghost predicate InStep(cx: Crypto, w: World)
  {
    && !SomeSettled(w.handlers)
    && w.l1.stateRoot == w.sequencer.canonicalRoot == Root(cx, w.sequencer.canonical)
  }

  /** Handler `h` alone has settled; L1 is ahead of canonical by exactly its batch. */
  ghost predicate AheadBy(cx: Crypto, w: World, h: nat)
  {
    && At(w, h).Settled?
    && (forall i :: 0 <= i < |w.handlers| && w.handlers[i].Settled? ==> i == h)
    && ApplyAll(cx, w.sequencer.canonical, At(w, h).batch).Ok?
    && w.l1.stateRoot == At(w, h).newRoot == Root(cx, ApplyAll(cx, w.sequencer.canonical, At(w, h).batch).value)
    && w.l1.stateRoot != w.sequencer.canonicalRoot
  }

  ghost predicate Agreement(cx: Crypto, w: World)
  {
    InStep(cx, w) || exists h: nat :: AheadBy(cx, w, h)
  }

  lemma AgreementByRecord(cx: Crypto, g: Accounts, l1: RollupState, acts: seq<Action>, w: World)
    requires Run(cx, g, l1, acts, w)
    ensures Agreement(cx, w) <==> !w.log.stranded
  {
    hide Exec, Sorted, Sum, ApplyAll, Root, Run, NoRootCollision, Flatten;
    OrdinaryRun(cx, g, l1, acts, w);
    RunInv(cx, g, l1, acts, w);
    if Behind(w) {
      RootsDistinct(cx, w.log, CanonicalIndex(w), |w.log.settled|);
      if h: nat :| h < |w.handlers| && w.handlers[h].Settled? {
        HandlerAt(cx, w, h);
        CommitRuns(cx, w, h);
        assert AheadBy(cx, w, h);
      }
    }
  }

  lemma InStepNotStranded(cx: Crypto, g: Accounts, l1: RollupState, acts: seq<Action>, w: World)
    requires Run(cx, g, l1, acts, w) && InStep(cx, w)
    ensures !w.log.stranded
  {
    hide Run, InStep;
    AgreementByRecord(cx, g, l1, acts, w);
  }

  /**
   * Agreement, exactly: L1 and the sequencer are in step, or one settled handler's commit apart, if and
   * only if no step of the run was an execution nobody saw or the cancellation of a settled handler.
   */
  lemma AgreementExactly(cx: Crypto, g: Accounts, l1: RollupState, acts: seq<Action>, w: World)
    requires Run(cx, g, l1, acts, w)
    ensures Agreement(cx, w) <==> Never(cx, Boot(cx, g, l1), acts, Strands)
  {
    hide Exec, Run, Agreement, Never, Root;
    OrdinaryRun(cx, g, l1, acts, w);
    AgreementByRecord(cx, g, l1, acts, w);
    DisturbancesExactly(cx, g, l1, acts);
  }

  /** Local commits never diverge from L1: whenever one is due, it succeeds and lands on L1's root. */
  lemma CommitNeverFails(cx: Crypto, g: Accounts, l1: RollupState, acts: seq<Action>, w: World, h: nat)
    requires Run(cx, g, l1, acts, w) && At(w, h).Settled?
    ensures var r := Commit(cx, w.sequencer, At(w, h).batch, At(w, h).newRoot);
            r.1 == Ok(()) && r.0.canonicalRoot == Root(cx, r.0.canonical) == w.l1.stateRoot
  {
    hide Exec, Sorted, Sum, ApplyAll, Root, Run, Coherent, HandlersOk, Sift;
    RunInv(cx, g, l1, acts, w);
    HandlerAt(cx, w, h);
    CommitRuns(cx, w, h);
  }

  /** A proved batch settles exactly when its snapshot is current, nothing is outstanding and its root is not zero. */
  lemma SettlesExactly(cx: Crypto, g: Accounts, l1: RollupState, acts: seq<Action>, w: World, h: nat)
    requires Run(cx, g, l1, acts, w) && At(w, h).Proved?
    ensures Submit(w.l1, EncodePublicValues(At(w, h).pv), true).Ok? <==>
              && At(w, h).prev == w.sequencer.canonical
              && InStep(cx, w)
              && !IsZero(At(w, h).pv.newRoot)
  {
    hide Exec, Sorted, Sum, Root, Run, Ordinary, EncodePublicValues, DecodePublicValues, HandlersOk, SnapshotUpTo,
         IsZero, Chain;
    OrdinaryRun(cx, g, l1, acts, w);
    RunInv(cx, g, l1, acts, w);
    HandlerAt(cx, w, h);
    PublicValuesRoundTrip(At(w, h).pv);
    if InStep(cx, w) {
      InStepNotStranded(cx, g, l1, acts, w);
    }
    if At(w, h).pv.prevRoot == w.l1.stateRoot {
      CurrentSnapshot(cx, w, At(w, h).prev);
    }
  }

  lemma StrandedStep(cx: Crypto, w: World, act: Action)
    requires Inv(cx, w) && Ordinary(cx, w) && w.log.stranded
    ensures var later := Do(cx, w, act);
            later.log.stranded && later.l1 == w.l1 && later.sequencer.canonical == w.sequencer.canonical
  {
    hide Sorted, Sum, ApplyAll, Root, Coherent, Chain, SnapshotUpTo, Ordinary, Sift, CommitDropped, Commit, Apply,
         EncodePublicValues, DecodePublicValues, HandlersOk, L1Accepted;
    match act
    case L1Returns(h, delivery) =>
      if At(w, h).Proved? {
        HandlerAt(cx, w, h);
        PublicValuesRoundTrip(At(w, h).pv);
        if At(w, h).pv.prevRoot == w.l1.stateRoot {
          CurrentSnapshot(cx, w, At(w, h).prev);
          assert false;
        }
      }
    case Finish(h) => HandlerAt(cx, w, h);
    case _ =>
  }

  /** Once stranded, neither L1 nor the canonical state ever moves again: every later proof is stale. */
  lemma {:induction false} StrandedForever(cx: Crypto, w: World, acts: seq<Action>)
    requires Inv(cx, w) && w.log.stranded
    requires Ordinary(cx, Exec(cx, w, acts))
    ensures var later := Exec(cx, w, acts);
            later.log.stranded && later.l1 == w.l1 && later.sequencer.canonical == w.sequencer.canonical
  {
    hide Inv, Ordinary, Do;
    if acts != [] {
      var before, act := acts[..|acts| - 1], acts[|acts| - 1];
      OrdinaryBefore(cx, Exec(cx, w, before), act);
      ExecKeeps(cx, w, before);
      StrandedForever(cx, w, before);
      StrandedStep(cx, Exec(cx, w, before), act);
    }
  }

  /** Handler `h` is under way with a batch drained from `prev`. */
  predicate Holds(w: World, h: nat, prev: Accounts)
  {
    var p := At(w, h);
    (p.Draining? || p.Proved? || p.Failed?) && p.prev == prev
  }

  lemma StaleStep(cx: Crypto, w: World, h: nat, prev: Accounts, act: Action)
    requires Inv(cx, w) && h < |w.handlers|
    requires At(w, h) == Done || Holds(w, h, prev)
    requires Root(cx, prev) != w.l1.stateRoot
    ensures var later := Do(cx, w, act);
            h < |later.handlers| && (At(later, h) == Done || Holds(later, h, prev))
  {
    hide Inv, Root, ApplyBatch, Admit, Restored, Commit, Sift, CommitDropped, AppliedPrefix, EncodePublicValues,
         DecodePublicValues;
    if act.L1Returns? && act.h == h && At(w, h).Proved? {
      ProvedHere(cx, w, h);
      PublicValuesRoundTrip(At(w, h).pv);
    }
  }

  /**
   * A stale snapshot stays stale: once L1 has moved on from the ledger a batch was drained from, no
   * continuation of the run settles that batch, and L1 rejects its proof whenever it is submitted.
   */
  lemma {:induction false} StaleForever(
      cx: Crypto, w: World, h: nat, prev: Accounts, acts: seq<Action>, proofOk: bool)
    requires Inv(cx, w) && Ordinary(cx, Exec(cx, w, acts))
    requires Holds(w, h, prev) && Root(cx, prev) != w.l1.stateRoot
    ensures var later := Exec(cx, w, acts);
            && h < |later.handlers| && (At(later, h) == Done || Holds(later, h, prev))
            && Root(cx, prev) != later.l1.stateRoot
            && (At(later, h).Proved? ==> Submit(later.l1, EncodePublicValues(At(later, h).pv), proofOk).Err?)
  {
    hide Inv, Ordinary, Do, Root, EncodePublicValues, DecodePublicValues, SnapshotUpTo;
    var later := Exec(cx, w, acts);
    if acts != [] {
      var before, act := acts[..|acts| - 1], acts[|acts| - 1];
      OrdinaryBefore(cx, Exec(cx, w, before), act);
      ExecKeeps(cx, w, before);
      StaleForever(cx, w, h, prev, before, proofOk);
      StaleStep(cx, Exec(cx, w, before), h, prev, act);
    }
    ExecKeeps(cx, w, acts);
    HeldSnapshot(cx, w, h);
    if later.l1.stateRoot == Root(cx, prev) {
      NothingAcceptedSince(cx, w, later, prev);
    }
    if At(later, h).Proved? {
      ProvedHere(cx, later, h);
      PublicValuesRoundTrip(At(later, h).pv);
    }
  }

  // ----- The two counters -----

  lemma CountStep(cx: Crypto, w: World, act: Action)
    ensures var later := Do(cx, w, act);
            || (later.log.settled == w.log.settled && later.l1.batchCount == w.l1.batchCount)
            || (|later.log.settled| == |w.log.settled| + 1 && later.l1.batchCount == Wrap64(w.l1.batchCount + 1))
  {
    hide Admit, ApplyBatch, Restored, Commit, Sift, CommitDropped, AppliedPrefix, EncodePublicValues,
         DecodePublicValues, Wrap64;
  }

  lemma {:induction false} BatchesCounted(cx: Crypto, g: Accounts, l1: RollupState, acts: seq<Action>)
    ensures var w := Exec(cx, Boot(cx, g, l1), acts);
            w.l1.batchCount == Wrap64(l1.batchCount + |w.log.settled|)
  {
    hide Do, Wrap64, Root;
    if acts == [] {
      WrapAdd(l1.batchCount, 0);
    } else {
      var n := |acts| - 1;
      var before := Exec(cx, Boot(cx, g, l1), acts[..n]);
      BatchesCounted(cx, g, l1, acts[..n]);
      CountStep(cx, before, acts[n]);
      WrapAdd(l1.batchCount + |before.log.settled|, 1);
    }
  }

  /**
   * L1's counter counts the settled batches, the sequencer's those canonical has taken; with a contract
   * that started at zero they are equal when the two are in step.
   */
  lemma BatchCounters(cx: Crypto, g: Accounts, l1: RollupState, acts: seq<Action>, w: World)
    requires Run(cx, g, l1, acts, w)
    ensures w.l1.batchCount == Wrap64(l1.batchCount + |w.log.settled|)
    ensures 0 <= CanonicalIndex(w) && w.sequencer.batchCount == Wrap64(CanonicalIndex(w))
    ensures l1.batchCount == 0 && InStep(cx, w) ==> w.sequencer.batchCount == w.l1.batchCount
  {
    hide Run, Exec, Chain, Coherent, HandlersOk, Root, Wrap64;
    OrdinaryRun(cx, g, l1, acts, w);
    RunInv(cx, g, l1, acts, w);
    BatchesCounted(cx, g, l1, acts);
    if InStep(cx, w) {
      InStepNotStranded(cx, g, l1, acts, w);
    }
  }

  // ----- Transactions -----

  /**
   * Exactly once: the settled transactions, in settlement order, replay from genesis to the ledger L1
   * stands for; no (sender, nonce) settles twice; and each sender's nonces run from its genesis nonce on.
   */
  lemma SettledExactlyOnce(cx: Crypto, g: Accounts, l1: RollupState, acts: seq<Action>, w: World, i: nat)
    requires Run(cx, g, l1, acts, w) && i < |Flatten(w.log.settled)|
    ensures var txs := Flatten(w.log.settled);
            && ApplyAll(cx, g, txs).Ok?
            && w.l1.stateRoot == Root(cx, ApplyAll(cx, g, txs).value)
            && NoncesUnique(txs)
            && txs[i].nonce == Wrap64(Lookup(g, txs[i].from).nonce + Tally(txs[..i], txs[i].from, Sent))
  {
    hide Exec, Sorted, Sum, ApplyAll, Root, Run, Coherent, HandlersOk, NoRootCollision, Tally, NoncesUnique, Wrap64,
         Lookup;
    OrdinaryRun(cx, g, l1, acts, w);
    RunInv(cx, g, l1, acts, w);
    var n, txs := |w.log.settled|, Flatten(w.log.settled);
    ChainReplay(cx, w.log, 0, n);
    assert w.log.settled[0..n] == w.log.settled;
    NonceInSequence(cx, g, txs, i);
    forall x: Address
      ensures Tally(txs, x, Sent) <= TWO_64
    {
      SentAtMostLength(txs, x);
    }
    ExactlyOnce(cx, g, txs);
  }

  /** What is pending extends what is canonical: together they replay from genesis, with no nonce used twice. */
  lemma PendingExtendsSettled(cx: Crypto, g: Accounts, l1: RollupState, acts: seq<Action>, w: World)
    requires Run(cx, g, l1, acts, w)
    ensures 0 <= CanonicalIndex(w) <= |w.log.settled|
    ensures var txs := Flatten(w.log.settled[..CanonicalIndex(w)]) + w.sequencer.mempool;
            ApplyAll(cx, g, txs) == Ok(w.sequencer.speculative) && (|txs| <= TWO_64 ==> NoncesUnique(txs))
  {
    hide Exec, Sorted, Sum, ApplyAll, Root, Run, HandlersOk, Tally, NoncesUnique;
    OrdinaryRun(cx, g, l1, acts, w);
    RunInv(cx, g, l1, acts, w);
    var c := CanonicalIndex(w);
    var txs := Flatten(w.log.settled[..c]) + w.sequencer.mempool;
    ChainReplay(cx, w.log, 0, c);
    assert w.log.settled[0..c] == w.log.settled[..c];
    ApplyAllAppend(cx, g, Flatten(w.log.settled[..c]), w.sequencer.mempool);
    if |txs| <= TWO_64 {
      forall x: Address
        ensures Tally(txs, x, Sent) <= TWO_64
      {
        SentAtMostLength(txs, x);
      }
      ExactlyOnce(cx, g, txs);
    }
  }

  /** The speculative state is the canonical state with the whole mempool applied, after every step. */
  lemma SpeculativeRefinement(cx: Crypto, g: Accounts, l1: RollupState, acts: seq<Action>, w: World)
    requires Run(cx, g, l1, acts, w)
    ensures ApplyAll(cx, w.sequencer.canonical, w.sequencer.mempool) == Ok(w.sequencer.speculative)
    ensures Sorted(w.sequencer.canonical) && w.sequencer.canonicalRoot == Root(cx, w.sequencer.canonical)
  {
    hide Exec, Sorted, ApplyAll, Root, Run, HandlersOk, Chain;
    RunInv(cx, g, l1, acts, w);
  }

  /** No money appears or disappears anywhere: canonical, speculative and settled ledgers hold the genesis supply. */
  lemma SupplyConserved(cx: Crypto, g: Accounts, l1: RollupState, acts: seq<Action>, w: World)
    requires Run(cx, g, l1, acts, w)
    ensures Supply(w.sequencer.canonical) == Supply(w.sequencer.speculative) == Supply(g)
    ensures forall k :: 0 <= k < |w.log.ledgers| ==> Supply(w.log.ledgers[k]) == Supply(g)
  {
    hide Exec, Sorted, Sum, ApplyAll, Root, Run, HandlersOk;
    RunInv(cx, g, l1, acts, w);
    BatchKeeps(cx, w.sequencer.canonical, w.sequencer.mempool);
  }

  /** When genesis fits in one word, a submission is admitted on signature, pending nonce and pending balance alone. */
  lemma AdmittedExactly(cx: Crypto, g: Accounts, l1: RollupState, acts: seq<Action>, w: World, tx: Tx)
    requires Run(cx, g, l1, acts, w) && Supply(g) <= U64_MAX
    ensures Admit(cx, w.sequencer, tx).Ok? <==>
              && Authorised(cx, tx)
              && tx.nonce == Wrap64(PendingNonce(w.sequencer, tx.from))
              && tx.amount <= PendingBalance(w.sequencer, tx.from)
    ensures Admit(cx, w.sequencer, tx) != Err(Overflow)
  {
    hide Exec, Sorted, Sum, ApplyAll, Root, Run, HandlersOk, Chain, Coherent, Admit, Wrap64, PendingNonce,
         PendingBalance;
    RunInv(cx, g, l1, acts, w);
    SupplyConserved(cx, g, l1, acts, w);
    AdmitExactly(cx, w.sequencer, tx);
  }

  /** What was settled after the ledger at `k` of the record and is canonical by now, and what is pending. */
  function Since(w: World, k: nat): seq<Tx>
    requires k <= CanonicalIndex(w) <= |w.log.settled|
  {
    Flatten(w.log.settled[k..CanonicalIndex(w)]) + w.sequencer.mempool
  }

  /** A batch under way applies to its snapshot, from which `Since` leads to the speculative state. */
  lemma FlightCourse(cx: Crypto, w: World, h: nat, k: nat)
    requires Inv(cx, w) && k <= CanonicalIndex(w) && Holds(w, h, w.log.ledgers[k])
    ensures ApplyAll(cx, w.log.ledgers[k], At(w, h).batch).Ok?
    ensures ApplyAll(cx, w.log.ledgers[k], Flatten(w.log.settled[k..CanonicalIndex(w)])) == Ok(w.sequencer.canonical)
    ensures ApplyAll(cx, w.log.ledgers[k], Since(w, k)) == Ok(w.sequencer.speculative)
  {
    hide Sorted, Sum, ApplyAll, Root, HandlersOk, SnapshotUpTo;
    HandlerAt(cx, w, h);
    ChainReplay(cx, w.log, k, CanonicalIndex(w));
    ApplyAllAppend(cx, w.log.ledgers[k], Flatten(w.log.settled[k..CanonicalIndex(w)]), w.sequencer.mempool);
  }

  /**
   * A failed batch comes back whole, exactly: if and only if no sender of it has settled or has anything
   * pending since its snapshot, and its receivers have room. A genesis that fits in one word gives room.
   */
  lemma FlightSurvival(cx: Crypto, g: Accounts, l1: RollupState, acts: seq<Action>, w: World, h: nat, k: nat)
    requires Run(cx, g, l1, acts, w)
    requires At(w, h).Failed? && k <= CanonicalIndex(w) < |w.log.ledgers| && |w.log.ledgers| == |w.log.settled| + 1
    requires At(w, h).prev == w.log.ledgers[k]
    ensures var since, batch := Since(w, k), At(w, h).batch;
            && (NoWrap(since) || Senders(since) !! Senders(batch) ==>
                  (Do(cx, w, Finish(h)).sequencer.mempool == w.sequencer.mempool + batch <==>
                   Senders(since) !! Senders(batch) && HasRoom(w.sequencer.speculative, batch)))
            && (Supply(g) <= U64_MAX && Senders(since) !! Senders(batch) ==>
                  HasRoom(w.sequencer.speculative, batch))
  {
    hide Exec, Sorted, Sum, ApplyAll, Root, Run, HandlersOk, Coherent, Restored, Senders, SnapshotUpTo, HasRoom, NoWrap;
    RunInv(cx, g, l1, acts, w);
    SupplyConserved(cx, g, l1, acts, w);
    FlightCourse(cx, w, h, k);
    RestoreSurvival(cx, w.sequencer, w.log.ledgers[k], Flatten(w.log.settled[k..CanonicalIndex(w)]), At(w, h).batch);
  }

  /**
   * Which transactions a restore costs: of each sender that has settled or pending transactions since the
   * snapshot, as many as those, from the front of the batch, their nonces used by others.
   */
  lemma FlightLoses(cx: Crypto, g: Accounts, l1: RollupState, acts: seq<Action>, w: World, h: nat, k: nat, i: nat)
    requires Run(cx, g, l1, acts, w)
    requires At(w, h).Failed? && k <= CanonicalIndex(w) < |w.log.ledgers| && |w.log.ledgers| == |w.log.settled| + 1
    requires At(w, h).prev == w.log.ledgers[k] && i < |At(w, h).batch|
    requires var batch, x := At(w, h).batch, At(w, h).batch[i].from;
             Tally(batch[..i], x, Sent) < Tally(Since(w, k), x, Sent) < TWO_64
    ensures var start, batch := w.sequencer.speculative, At(w, h).batch;
            var verdict := Apply(cx, Sift(cx, start, batch[..i]).state, batch[i]);
            && verdict.Err? && verdict.error.NonceMismatch?
            && batch[i] in Sift(cx, start, batch).dropped
  {
    hide Exec, Sum, ApplyAll, Apply, Root, Run, HandlersOk, Coherent, SnapshotUpTo, Sift, Tally, Since;
    RunInv(cx, g, l1, acts, w);
    FlightCourse(cx, w, h, k);
    UsedNonceDropped(cx, w.log.ledgers[k], Since(w, k), At(w, h).batch, i);
  }

  lemma SettledNoWrap(cx: Crypto, w: World, h: nat)
    requires Inv(cx, w) && Ordinary(cx, w) && At(w, h).Settled?
    ensures NoWrap(At(w, h).batch)
  {
    hide Sorted, Sum, ApplyAll, Root, HandlersOk, Coherent, NoWrap, NoRootCollision;
    HandlerAt(cx, w, h);
    var c := CanonicalIndex(w);
    assert w.log.settled[c..c + 1] == [At(w, h).batch];
    assert [At(w, h).batch][..0] == [] && [] + At(w, h).batch == At(w, h).batch;
    FlattenPart(w.log.settled, c, c + 1);
    ShortNoWrap(At(w, h).batch);
  }

  /**
   * A commit keeps the whole mempool, exactly: if and only if no pending sender is in its batch and every
   * pending receiver has room. A genesis that fits in one word gives room.
   */
  lemma PendingSurvival(cx: Crypto, g: Accounts, l1: RollupState, acts: seq<Action>, w: World, h: nat)
    requires Run(cx, g, l1, acts, w) && At(w, h).Settled?
    ensures var s, batch := w.sequencer, At(w, h).batch;
            && (Do(cx, w, Finish(h)).sequencer.mempool == s.mempool <==>
                  Senders(batch) !! Senders(s.mempool) && HasRoom(s.canonical, batch + s.mempool))
            && (Supply(g) <= U64_MAX && Senders(batch) !! Senders(s.mempool) ==>
                  HasRoom(s.canonical, batch + s.mempool))
  {
    hide Exec, Sorted, Sum, ApplyAll, Root, Run, HandlersOk, Coherent, Senders, Commit, CommitDropped, HasRoom, NoWrap;
    OrdinaryRun(cx, g, l1, acts, w);
    RunInv(cx, g, l1, acts, w);
    SupplyConserved(cx, g, l1, acts, w);
    CommitRuns(cx, w, h);
    SettledNoWrap(cx, w, h);
    CommitSurvival(cx, w.sequencer, At(w, h).batch, At(w, h).newRoot);
  }

  /** Which transactions a commit costs: of each sender in the batch as many pending ones, from the front. */
  lemma PendingLoses(cx: Crypto, g: Accounts, l1: RollupState, acts: seq<Action>, w: World, h: nat, i: nat)
    requires Run(cx, g, l1, acts, w) && At(w, h).Settled? && i < |w.sequencer.mempool|
    requires var mempool, x := w.sequencer.mempool, w.sequencer.mempool[i].from;
             Tally(mempool[..i], x, Sent) < Tally(At(w, h).batch, x, Sent)
    ensures var start, mempool := Do(cx, w, Finish(h)).sequencer.canonical, w.sequencer.mempool;
            var verdict := Apply(cx, Sift(cx, start, mempool[..i]).state, mempool[i]);
            && verdict.Err? && verdict.error.NonceMismatch?
            && mempool[i] in CommitDropped(cx, w.sequencer, At(w, h).batch, At(w, h).newRoot)
  {
    hide Exec, Sum, ApplyAll, Apply, Root, Run, HandlersOk, Sift, Tally, Commit;
    OrdinaryRun(cx, g, l1, acts, w);
    RunInv(cx, g, l1, acts, w);
    CommitRuns(cx, w, h);
    SettledNoWrap(cx, w, h);
    UsedNonceDropped(cx, w.sequencer.canonical, At(w, h).batch, w.sequencer.mempool, i);
  }

  /**
   * A sender with transactions in a batch under way on the canonical state and pending ones besides loses
   * some whichever way the batch goes: the restore drops of the batch, or the commit of the mempool.
   */
  lemma SharedSenderLosesEitherWay(
      cx: Crypto, g: Accounts, l1: RollupState, acts: seq<Action>, w: World, h: nat)
    requires Run(cx, g, l1, acts, w) && Holds(w, h, w.sequencer.canonical)
    requires !(Senders(At(w, h).batch) !! Senders(w.sequencer.mempool))
    requires NoWrap(At(w, h).batch) && NoWrap(w.sequencer.mempool)
    ensures var s, batch := w.sequencer, At(w, h).batch;
            && ApplyAll(cx, s.canonical, batch).Ok?
            && Restored(cx, s, batch).mempool != s.mempool + batch
            && Commit(cx, s, batch, Root(cx, ApplyAll(cx, s.canonical, batch).value)).0.mempool != s.mempool
  {
    hide Exec, Sum, ApplyAll, Root, Run, HandlersOk, NoWrap, Restored, Commit, Senders, Coherent;
    RunInv(cx, g, l1, acts, w);
    HandlerAt(cx, w, h);
    SharedSenderLoses(cx, w.sequencer, At(w, h).batch);
  }

  /**
   * The answer to a submission, in any run and for any supply: each error with its reason and its numbers,
   * told from the canonical state and the mempool.
   */
  lemma AdmissionJudged(cx: Crypto, g: Accounts, l1: RollupState, acts: seq<Action>, w: World, tx: Tx)
    requires Run(cx, g, l1, acts, w)
    ensures var s := w.sequencer;
            match Admit(cx, s, tx)
            case Ok(next) => Judged(cx, s.canonical, s.mempool, tx, Ok(next.speculative))
            case Err(e) => Judged(cx, s.canonical, s.mempool, tx, Err(e))
  {
    hide Exec, Sum, ApplyAll, Apply, Root, Run, HandlersOk, Coherent, Judged, Admit;
    RunInv(cx, g, l1, acts, w);
    AdmitJudged(cx, w.sequencer, tx);
  }

  /**
   * What a commit leaves pending, in any run: of the mempool, re-run in order on the settled ledger, exactly
   * the transactions that apply when their turn comes, in the order they came; the others are dropped.
   */
  lemma PendingAfterCommit(cx: Crypto, g: Accounts, l1: RollupState, acts: seq<Action>, w: World, h: nat, i: nat)
    requires Run(cx, g, l1, acts, w) && At(w, h).Settled? && i < |w.sequencer.mempool|
    ensures var s, next := w.sequencer, Do(cx, w, Finish(h)).sequencer;
            var dropped := CommitDropped(cx, s, At(w, h).batch, At(w, h).newRoot);
            var before := Sift(cx, next.canonical, s.mempool[..i]);
            && ApplyAll(cx, s.canonical, At(w, h).batch) == Ok(next.canonical)
            && multiset(s.mempool) == multiset(next.mempool) + multiset(dropped)
            && ApplyAll(cx, next.canonical, next.mempool) == Ok(next.speculative)
            && if Apply(cx, before.state, s.mempool[i]).Ok? then before.kept + [s.mempool[i]] <= next.mempool
               else before.dropped + [s.mempool[i]] <= dropped
  {
    hide Exec, Sum, ApplyAll, Apply, Root, Run, HandlersOk, Sift, Coherent;
    RunInv(cx, g, l1, acts, w);
    CommitRuns(cx, w, h);
    SiftKeeps(cx, w.log.ledgers[|w.log.settled|], w.sequencer.mempool);
    DecidedInTurn(cx, w.log.ledgers[|w.log.settled|], w.sequencer.mempool, i);
  }

  lemma FlightAuthorised(cx: Crypto, w: World, h: nat, i: nat)
    requires Inv(cx, w) && At(w, h).Failed? && i < |At(w, h).batch|
    ensures Authorised(cx, At(w, h).batch[i])
  {
    hide Sorted, Sum, ApplyAll, Root, HandlersOk, Coherent, Authorised;
    HandlerAt(cx, w, h);
    AppliedAuthorised(cx, At(w, h).prev, At(w, h).batch, i);
  }

  /**
   * A restore drops a transaction only because its nonce is no longer due or its funds are gone, in every
   * run from a genesis that fits in one word: no overflow, no bad signature.
   */
  lemma RestoreDropsForCause(
      cx: Crypto, g: Accounts, l1: RollupState, acts: seq<Action>, w: World, h: nat, i: nat)
    requires Run(cx, g, l1, acts, w) && Supply(g) <= U64_MAX
    requires At(w, h).Failed? && i < |At(w, h).batch|
    ensures var start, batch := w.sequencer.speculative, At(w, h).batch;
            var r := Sift(cx, start, batch[..i]);
            DroppedForCause(cx, start, r.kept, batch[i], Apply(cx, r.state, batch[i]))
  {
    hide Exec, Sorted, Sum, ApplyAll, Root, Run, HandlersOk, Chain, Sift, DroppedForCause, Authorised, Apply;
    RunInv(cx, g, l1, acts, w);
    SupplyConserved(cx, g, l1, acts, w);
    FlightAuthorised(cx, w, h, i);
    BatchKeeps(cx, w.sequencer.canonical, w.sequencer.mempool);
    SiftReason(cx, w.sequencer.speculative, At(w, h).batch[..i], At(w, h).batch[i]);
  }

  /** So does the `retain` of a commit, which re-runs the mempool on the new canonical state. */
  lemma CommitDropsForCause(
      cx: Crypto, g: Accounts, l1: RollupState, acts: seq<Action>, w: World, h: nat, i: nat)
    requires Run(cx, g, l1, acts, w) && Supply(g) <= U64_MAX
    requires At(w, h).Settled? && i < |w.sequencer.mempool|
    ensures var start, mempool := Do(cx, w, Finish(h)).sequencer.canonical, w.sequencer.mempool;
            var r := Sift(cx, start, mempool[..i]);
            DroppedForCause(cx, start, r.kept, mempool[i], Apply(cx, r.state, mempool[i]))
  {
    hide Exec, Sorted, Sum, ApplyAll, Root, Run, HandlersOk, Sift, DroppedForCause, Authorised, Apply, Commit,
         CommitDropped;
    RunInv(cx, g, l1, acts, w);
    CommitRuns(cx, w, h);
    AppliedAuthorised(cx, w.sequencer.canonical, w.sequencer.mempool, i);
    SiftReason(cx, w.log.ledgers[|w.log.settled|], w.sequencer.mempool[..i], w.sequencer.mempool[i]);
  }

  /** Nothing settled was stolen: each L1 balance is genesis plus credits less debits the account signed for. */
  lemma SettledMoneySafe(cx: Crypto, g: Accounts, l1: RollupState, acts: seq<Action>, w: World)
    requires Run(cx, g, l1, acts, w)
    ensures var txs := Flatten(w.log.settled);
            && ApplyAll(cx, g, txs).Ok? && w.l1.stateRoot == Root(cx, ApplyAll(cx, g, txs).value)
            && NothingStolen(cx, g, txs, ApplyAll(cx, g, txs).value)
  {
    hide Exec, Sorted, Sum, ApplyAll, Root, Run, Coherent, HandlersOk, NothingStolen;
    OrdinaryRun(cx, g, l1, acts, w);
    RunInv(cx, g, l1, acts, w);
    ChainReplay(cx, w.log, 0, |w.log.settled|);
    assert w.log.settled[0..|w.log.settled|] == w.log.settled;
    NoTheft(cx, g, Flatten(w.log.settled));
  }

  // ----- Whole batches -----

  /** Whatever else is in flight, a batch opened and proved now proves the speculative state of just before. */
  lemma OpenedBatchProves(cx: Crypto, g: Accounts, l1: RollupState, acts: seq<Action>, w: World)
    requires Run(cx, g, l1, acts, w) && w.sequencer.mempool != []
    ensures var s, h := w.sequencer, |w.handlers|;
            At(Do(cx, Do(cx, w, OpenBatch), ProverReturns(h, Answer)), h) ==
            Proved(s.canonical, s.mempool,
                   PublicValues(s.canonicalRoot, Root(cx, s.speculative), BatchHash(cx, s.mempool)))
  {
    hide Exec, Sorted, Sum, Apply, ApplyAll, Root, Run, HandlersOk, Chain;
    RunInv(cx, g, l1, acts, w);
    DrainProvable(cx, w.sequencer);
  }

  /** The world after a `/batch` request whose prover does not answer, with nothing in between. */
  function AfterFailedProof(cx: Crypto, w: World, proving: Proving): World
  {
    Do(cx, Do(cx, Do(cx, w, OpenBatch), ProverReturns(|w.handlers|, proving)), Finish(|w.handlers|))
  }

  /**
   * A failed proof leaves the sequencer as if the batch had never been opened; bytes that do not decode
   * do not, although both are answered with an error: the drained transactions are gone.
   */
  lemma FailedBatchUndoneExactly(
      cx: Crypto, g: Accounts, l1: RollupState, acts: seq<Action>, w: World, proving: Proving)
    requires Run(cx, g, l1, acts, w) && w.sequencer.mempool != [] && proving != Answer
    ensures var back := AfterFailedProof(cx, w, proving);
            && back.l1 == w.l1
            && (back.sequencer == w.sequencer <==> proving == ProverError)
            && back.log ==
                 if proving == ProverError then w.log
                 else w.log.(lost := w.log.lost + multiset(w.sequencer.mempool))
  {
    hide Exec, Sorted, Sum, Apply, ApplyAll, Root, Run, HandlersOk, Sift, Chain;
    RunInv(cx, g, l1, acts, w);
    DrainRestoreIdentity(cx, w.sequencer);
    SiftAll(cx, w.sequencer.canonical, w.sequencer.mempool);
  }

  /** The world after a `/batch` request that meets no trouble, with nothing in between. */
  function AfterSmoothBatch(cx: Crypto, w: World): World
  {
    var h := |w.handlers|;
    Do(cx, Do(cx, Do(cx, Do(cx, w, OpenBatch), ProverReturns(h, Answer)), L1Returns(h, Receipt(true))), Finish(h))
  }

  /** It settles the whole mempool and ends with L1, canonical and speculative state at one ledger. */
  lemma SmoothBatch(cx: Crypto, w: World)
    requires Inv(cx, w) && w.sequencer.mempool != []
    requires InStep(cx, w) && !IsZero(Root(cx, w.sequencer.speculative))
    ensures var s, done := w.sequencer, AfterSmoothBatch(cx, w);
            && done.sequencer ==
                 Sequencer(s.speculative, Root(cx, s.speculative), s.speculative, [], Wrap64(s.batchCount + 1))
            && done.l1 == RollupState(Root(cx, s.speculative), Wrap64(w.l1.batchCount + 1))
            && done.handlers == w.handlers + [Done]
            && done.log ==
                 w.log.(ledgers := w.log.ledgers + [s.speculative], settled := w.log.settled + [s.mempool])
  {
    hide Exec, Sorted, Sum, Apply, ApplyAll, Root, HandlersOk, Chain, EncodePublicValues, DecodePublicValues, IsZero,
         AppliedPrefix;
    DrainProvable(cx, w.sequencer);
    PrefixIsAll(cx, w.sequencer.canonical, w.sequencer.mempool);
    PublicValuesRoundTrip(ApplyBatch(cx, w.sequencer.canonical, w.sequencer.mempool).value.1);
  }

  /** A batch that meets no trouble puts the speculative state on L1 and makes it canonical. */
  lemma SmoothBatchSettles(cx: Crypto, g: Accounts, l1: RollupState, acts: seq<Action>, w: World)
    requires Run(cx, g, l1, acts, w) && w.sequencer.mempool != []
    requires InStep(cx, w) && !IsZero(Root(cx, w.sequencer.speculative))
    ensures var done := AfterSmoothBatch(cx, w);
            && done.l1.stateRoot == done.sequencer.canonicalRoot == Root(cx, w.sequencer.speculative)
            && done.sequencer.canonical == done.sequencer.speculative == w.sequencer.speculative
            && done.sequencer.mempool == []
            && done.log.settled == w.log.settled + [w.sequencer.mempool]
  {
    hide Run, Exec, Inv, InStep, Root, IsZero, AfterSmoothBatch;
    RunInv(cx, g, l1, acts, w);
    SmoothBatch(cx, w);
  }

  /**
   * The same batch with its receipt lost: L1 moves on, the sequencer restores the batch, and the same
   * transactions are settled and pending at once, for good (`StrandedForever`).
   */
  lemma LostReceiptDuplicates(cx: Crypto, g: Accounts, l1: RollupState, acts: seq<Action>, w: World)
    requires Run(cx, g, l1, acts, w) && w.sequencer.mempool != []
    requires InStep(cx, w) && !IsZero(Root(cx, w.sequencer.speculative))
    ensures var h := |w.handlers|;
            var proved := Do(cx, Do(cx, w, OpenBatch), ProverReturns(h, Answer));
            var done := Do(cx, Do(cx, proved, L1Returns(h, ReceiptLost(true))), Finish(h));
            && done.log.stranded
            && done.l1.stateRoot == Root(cx, w.sequencer.speculative)
            && done.log.settled == w.log.settled + [w.sequencer.mempool]
            && done.sequencer == w.sequencer
  {
    hide Exec, Sorted, Sum, Apply, ApplyAll, Root, Run, HandlersOk, Chain, EncodePublicValues, DecodePublicValues,
         IsZero, AppliedPrefix, Restored, Commit, Sift;
    RunInv(cx, g, l1, acts, w);
    InStepNotStranded(cx, g, l1, acts, w);
    DrainProvable(cx, w.sequencer);
    DrainRestoreIdentity(cx, w.sequencer);
    PublicValuesRoundTrip(ApplyBatch(cx, w.sequencer.canonical, w.sequencer.mempool).value.1);
  }
}
