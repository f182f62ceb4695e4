/**
 * A submission may be given up on and still be included later, after the mempool was restored. The
 * protocol has no such action: it is one lost receipt, because the inclusion commutes back over
 * everything the sequencer did meanwhile.
 */
module LateInclusion {
  import opened SharedTypes
  import opened Ledger
  import opened Sequencing
  import opened Settlement
  import opened Protocol
  import opened Safety
  import opened Guarantees

  /** World `w` once L1, now at `l1`, has executed a batch whose handler has long moved on. */
  function Late(cx: Crypto, w: World, prev: Accounts, batch: seq<Tx>, l1: RollupState): World
  {
    w.(l1 := l1,
       log := w.log.(
         ledgers := w.log.ledgers + [AppliedPrefix(cx, prev, batch)],
         settled := w.log.settled + [batch],
         echoed := w.log.echoed + multiset(batch),
         stranded := true))
  }

  /** Whether L1 accepted shows in the record; when it did not, the handler has failed and that is all. */
  lemma Returned(cx: Crypto, w: World, h: nat, delivery: Delivery)
    requires At(w, h).Proved?
    ensures var next := Do(cx, w, L1Returns(h, delivery));
            if delivery != NotSent && Submit(w.l1, EncodePublicValues(At(w, h).pv), delivery.proofOk).Ok?
            then next.log.settled != w.log.settled && next.l1 != w.l1
            else next == Enter(w, h, Failed(At(w, h).prev, At(w, h).batch))
  {
    hide AppliedPrefix, EncodePublicValues;
  }

  /** L1 moves when it accepts a batch and at no other step. */
  lemma L1MovesWithRecord(cx: Crypto, w: World, act: Action)
    ensures var next := Do(cx, w, act);
            if next.log.settled == w.log.settled then next.l1 == w.l1 && next.log.ledgers == w.log.ledgers
            else next.l1 != w.l1
  {
    hide Admit, ApplyBatch, Restored, Commit, Sift, CommitDropped, DoL1Returns, Submit;
    if act.L1Returns? && At(w, act.h).Proved? {
      Returned(cx, w, act.h, act.delivery);
    }
  }

  /** In a stranded world L1 rejects every submission. */
  lemma StrandedRejects(cx: Crypto, w: World, h: nat, proofOk: bool)
    requires Inv(cx, w) && Ordinary(cx, w) && w.log.stranded && At(w, h).Proved?
    ensures Submit(w.l1, EncodePublicValues(At(w, h).pv), proofOk).Err?
  {
    hide Inv, Ordinary, EncodePublicValues, AppliedPrefix;
    StrandedStep(cx, w, L1Returns(h, Receipt(proofOk)));
    L1MovesWithRecord(cx, w, L1Returns(h, Receipt(proofOk)));
  }

  /** Steps of the sequencer and of the prover do not look at L1 or at the record. */
  lemma LateCommutesLocally(cx: Crypto, w: World, prev: Accounts, batch: seq<Tx>, l1: RollupState, act: Action)
    requires !act.L1Returns?
    ensures Do(cx, Late(cx, w, prev, batch, l1), act) == Late(cx, Do(cx, w, act), prev, batch, l1)
  {
    hide Admit, ApplyBatch, Restored, Commit, Sift, CommitDropped, AppliedPrefix, Drained, DoL1Returns;
    match act
    case SubmitTx(_) =>
    case OpenBatch =>
    case ProverReturns(_, _) =>
    case Finish(_) =>
    case Cancel(_) =>
  }

  /** A step that does not move L1 does the same before the late inclusion and after it. */
  lemma LateCommutes(cx: Crypto, w: World, prev: Accounts, batch: seq<Tx>, l1: RollupState, act: Action)
    requires Do(cx, w, act).log.settled == w.log.settled
    requires Inv(cx, Late(cx, w, prev, batch, l1)) && Ordinary(cx, Late(cx, w, prev, batch, l1))
    ensures Do(cx, Late(cx, w, prev, batch, l1), act) == Late(cx, Do(cx, w, act), prev, batch, l1)
  {
    hide Inv, Ordinary, Submit, AppliedPrefix, EncodePublicValues, DoL1Returns, DoSubmitTx, DoOpenBatch,
         DoProverReturns, DoRestore, DoCommit, DoCancel;
    if !act.L1Returns? {
      LateCommutesLocally(cx, w, prev, batch, l1, act);
    } else if At(w, act.h).Proved? {
      Returned(cx, w, act.h, act.delivery);
      Returned(cx, Late(cx, w, prev, batch, l1), act.h, act.delivery);
      if act.delivery != NotSent {
        StrandedRejects(cx, Late(cx, w, prev, batch, l1), act.h, act.delivery.proofOk);
      }
    }
  }

  lemma LateOrdinary(cx: Crypto, w: World, next: World, prev: Accounts, batch: seq<Tx>, l1: RollupState)
    requires Ordinary(cx, Late(cx, w, prev, batch, l1))
    requires next.log.ledgers == w.log.ledgers && next.log.settled == w.log.settled
    ensures Ordinary(cx, Late(cx, next, prev, batch, l1))
  {
    hide AppliedPrefix, EncodeAccounts, Flatten;
  }

  lemma {:induction false} RunGrows(cx: Crypto, w: World, acts: seq<Action>)
    ensures LogExtends(w.log, Exec(cx, w, acts).log)
  {
    hide Do;
    if acts != [] {
      RunGrows(cx, w, acts[..|acts| - 1]);
      RecordGrows(cx, Exec(cx, w, acts[..|acts| - 1]), acts[|acts| - 1]);
    }
  }

  lemma {:induction false} RunUnmoved(cx: Crypto, w: World, acts: seq<Action>)
    requires Exec(cx, w, acts).log.settled == w.log.settled
    ensures Exec(cx, w, acts).l1 == w.l1 && Exec(cx, w, acts).log.ledgers == w.log.ledgers
    ensures acts != [] ==> Exec(cx, w, acts[..|acts| - 1]).log.settled == w.log.settled
  {
    hide Do;
    if acts != [] {
      var before, act := acts[..|acts| - 1], acts[|acts| - 1];
      RunGrows(cx, w, before);
      RecordGrows(cx, Exec(cx, w, before), act);
      RunUnmoved(cx, w, before);
      L1MovesWithRecord(cx, Exec(cx, w, before), act);
    }
  }

  /** So does a whole stretch of any steps by any handlers in which L1 accepts nothing. */
  lemma {:induction false} LateRunCommutes(
      cx: Crypto, w: World, prev: Accounts, batch: seq<Tx>, l1: RollupState, acts: seq<Action>)
    requires Inv(cx, Late(cx, w, prev, batch, l1)) && Ordinary(cx, Late(cx, w, prev, batch, l1))
    requires Exec(cx, w, acts).log.settled == w.log.settled
    ensures var after := Exec(cx, w, acts);
            && Exec(cx, Late(cx, w, prev, batch, l1), acts) == Late(cx, after, prev, batch, l1)
            && Inv(cx, Late(cx, after, prev, batch, l1))
  {
    hide Inv, Ordinary, Do, Late;
    if acts != [] {
      var n := |acts| - 1;
      var before := Exec(cx, w, acts[..n]);
      RunUnmoved(cx, w, acts);
      RunUnmoved(cx, w, acts[..n]);
      LateRunCommutes(cx, w, prev, batch, l1, acts[..n]);
      LateOrdinary(cx, w, before, prev, batch, l1);
      LateCommutes(cx, before, prev, batch, l1, acts[n]);
      StepKeeps(cx, Late(cx, before, prev, batch, l1), acts[n]);
    }
  }

  /** An acceptance unseen is the handler given up on, and the inclusion at once. */
  lemma ReceiptLostIsLate(cx: Crypto, w: World, h: nat)
    requires At(w, h).Proved? && Submit(w.l1, EncodePublicValues(At(w, h).pv), true).Ok?
    ensures var p := At(w, h);
            Do(cx, w, L1Returns(h, ReceiptLost(true))) ==
            Late(cx, Enter(w, h, Failed(p.prev, p.batch)), p.prev, p.batch,
                 Submit(w.l1, EncodePublicValues(p.pv), true).value.0)
  {
    hide Submit, AppliedPrefix, EncodePublicValues;
  }

  /**
   * Late inclusion is a lost receipt: give up on a submission, let any requests run any steps, and have
   * L1 accept the submission then. The world is the one in which it was accepted unseen at the start.
   */
  lemma LateInclusionIsLostReceipt(
      cx: Crypto, g: Accounts, l1: RollupState, acts: seq<Action>, w: World, h: nat, since: seq<Action>)
    requires Run(cx, g, l1, acts, w) && At(w, h).Proved?
    requires var later := Exec(cx, Do(cx, w, L1Returns(h, NotSent)), since);
             Submit(later.l1, EncodePublicValues(At(w, h).pv), true).Ok?
    requires Ordinary(cx, Exec(cx, Do(cx, w, L1Returns(h, NotSent)), since))
    requires Ordinary(cx, Do(cx, w, L1Returns(h, ReceiptLost(true))))
    ensures var p, later := At(w, h), Exec(cx, Do(cx, w, L1Returns(h, NotSent)), since);
            var included := Submit(later.l1, EncodePublicValues(p.pv), true).value.0;
            Exec(cx, Do(cx, w, L1Returns(h, ReceiptLost(true))), since) == Late(cx, later, p.prev, p.batch, included)
  {
    hide Run, Inv, Ordinary, Exec, AppliedPrefix, Late, Root, SnapshotUpTo, Do, HandlersOk, EncodePublicValues,
         DecodePublicValues;
    OrdinaryRun(cx, g, l1, acts, w);
    RunInv(cx, g, l1, acts, w);
    var p, given := At(w, h), Enter(w, h, Failed(At(w, h).prev, At(w, h).batch));
    Returned(cx, w, h, NotSent);
    StepKeeps(cx, w, L1Returns(h, NotSent));
    ExecKeeps(cx, given, since);
    HeldSnapshot(cx, w, h);
    ProvedHere(cx, w, h);
    PublicValuesRoundTrip(p.pv);
    NothingAcceptedSince(cx, w, Exec(cx, given, since), p.prev);
    ReceiptLostIsLate(cx, w, h);
    StepKeeps(cx, w, L1Returns(h, ReceiptLost(true)));
    RunUnmoved(cx, given, since);
    LateRunCommutes(cx, given, p.prev, p.batch, Submit(w.l1, EncodePublicValues(p.pv), true).value.0, since);
  }
}
