/** Every step keeps the protocol invariant, so every run does. */
module Safety {
  import opened Wrappers
  import opened Bytes
  import opened SharedTypes
  import opened AccountStore
  import opened Ledger
  import opened Sequencing
  import opened Settlement
  import opened Protocol

  // ----- The record of settled batches -----

  lemma {:induction false} FlattenAppend(s: seq<seq<Tx>>, t: seq<seq<Tx>>)
    ensures Flatten(s + t) == Flatten(s) + Flatten(t)
  {
    if t == [] {
      assert s + t == s;
    } else {
      var n := |t| - 1;
      assert (s + t)[..|s + t| - 1] == s + t[..n] && (s + t)[|s + t| - 1] == t[n];
      FlattenAppend(s, t[..n]);
    }
  }

  lemma FlattenPart(s: seq<seq<Tx>>, i: nat, j: nat)
    requires i <= j <= |s|
    ensures |Flatten(s[i..j])| <= |Flatten(s)|
  {
    assert s == s[..i] + s[i..j] + s[j..];
    FlattenAppend(s[..i] + s[i..j], s[j..]);
    FlattenAppend(s[..i], s[i..j]);
  }

  /** The settled batches between two recorded ledgers lead from one to the other. */
  lemma {:induction false} ChainReplay(cx: Crypto, log: Log, i: nat, j: nat)
    requires Chain(cx, log) && i <= j <= |log.settled|
    ensures ApplyAll(cx, log.ledgers[i], Flatten(log.settled[i..j])) == Ok(log.ledgers[j])
    ensures |Flatten(log.settled[i..j])| >= j - i
  {
    hide Sorted, Sum, Apply;
    if i < j {
      ChainReplay(cx, log, i, j - 1);
      var part := log.settled[i..j];
      assert part[..|part| - 1] == log.settled[i..j - 1] && part[|part| - 1] == log.settled[j - 1];
      ApplyAllAppend(cx, log.ledgers[i], Flatten(log.settled[i..j - 1]), log.settled[j - 1]);
      assert Link(cx, log, j - 1);
    }
  }

  /** Nonces only move on: in an ordinary run no ledger recurs, so no root does. */
  lemma RootsDistinct(cx: Crypto, log: Log, i: nat, j: nat)
    requires Chain(cx, log) && NoRootCollision(cx, log.ledgers) && |Flatten(log.settled)| < TWO_64
    requires i < j <= |log.settled|
    ensures Root(cx, log.ledgers[i]) != Root(cx, log.ledgers[j])
  {
    hide Sorted, Sum, ApplyAll, EncodeAccounts;
    ChainReplay(cx, log, i, j);
    FlattenPart(log.settled, i, j);
    BatchMoves(cx, log.ledgers[i], Flatten(log.settled[i..j]));
    assert !Collision(cx, EncodeAccounts(log.ledgers[i]), EncodeAccounts(log.ledgers[j]));
    if Root(cx, log.ledgers[i]) == Root(cx, log.ledgers[j]) {
      EncodeAccountsInjective(log.ledgers[i], log.ledgers[j]);
    }
  }

  /** Only a snapshot of the ledger L1 stands for carries L1's root, and only when nothing is outstanding. */
  lemma CurrentSnapshot(cx: Crypto, w: World, prev: Accounts)
    requires Inv(cx, w) && Ordinary(cx, w)
    requires SnapshotUpTo(w.log, prev, CanonicalIndex(w))
    requires Root(cx, prev) == w.l1.stateRoot
    ensures prev == w.log.ledgers[|w.log.settled|] && !Behind(w)
  {
    hide Sorted, Sum, ApplyAll, EncodeAccounts, Flatten, NoRootCollision, HandlersOk;
    var k :| 0 <= k <= CanonicalIndex(w) && k < |w.log.ledgers| && w.log.ledgers[k] == prev;
    if k < |w.log.settled| {
      RootsDistinct(cx, w.log, k, |w.log.settled|);
    }
  }

  ghost predicate LogExtends(log: Log, later: Log)
  {
    log.ledgers <= later.ledgers && log.settled <= later.settled
  }

  /** When a snapshot taken by now carries L1's root at some later time, L1 accepts nothing in between. */
  lemma NothingAcceptedSince(cx: Crypto, w: World, later: World, prev: Accounts)
    requires Inv(cx, w) && Inv(cx, later) && Ordinary(cx, later) && LogExtends(w.log, later.log)
    requires SnapshotUpTo(w.log, prev, CanonicalIndex(w)) && later.l1.stateRoot == Root(cx, prev)
    ensures later.log.settled == w.log.settled && w.l1.stateRoot == Root(cx, prev)
  {
    hide Sorted, Sum, ApplyAll, Root, Coherent, HandlersOk, NoRootCollision, Flatten;
    var k :| 0 <= k <= CanonicalIndex(w) && k < |w.log.ledgers| && w.log.ledgers[k] == prev;
    assert later.log.ledgers[k] == prev;
    if k < |later.log.settled| {
      RootsDistinct(cx, later.log, k, |later.log.settled|);
    }
  }

  // ----- Handlers that a step does not touch -----

  lemma PhaseLater(cx: Crypto, log: Log, later: Log, c: int, d: int, p: Phase)
    requires PhaseOk(cx, log, c, p) && !p.Settled?
    requires LogExtends(log, later) && c <= d
    ensures PhaseOk(cx, later, d, p)
  {
    hide Sorted, ApplyBatch;
    if p != Done {
      var k :| 0 <= k <= c && k < |log.ledgers| && log.ledgers[k] == p.prev;
      assert later.ledgers[k] == log.ledgers[k];
    }
  }

  /** The invariant reads three fields of the record; the fate of single transactions is not among them. */
  ghost predicate SameCourse(log: Log, later: Log)
  {
    later.ledgers == log.ledgers && later.settled == log.settled && later.stranded == log.stranded
  }

  lemma SameCourseChain(cx: Crypto, log: Log, later: Log)
    requires Chain(cx, log) && later.ledgers == log.ledgers && later.settled == log.settled
    ensures Chain(cx, later)
  {
    hide Sorted, Sum, ApplyAll;
    forall k | 0 <= k < |later.settled|
      ensures Link(cx, later, k)
    {
      assert Link(cx, log, k);
    }
  }

  lemma SameCourseKeeps(cx: Crypto, w: World, next: World)
    requires Chain(cx, w.log) && HandlersOk(cx, w)
    requires next.handlers == w.handlers && SameCourse(w.log, next.log)
    ensures Chain(cx, next.log) && HandlersOk(cx, next) && CanonicalIndex(next) == CanonicalIndex(w)
  {
    hide Sorted, ApplyBatch, Root, Chain;
    SameCourseChain(cx, w.log, next.log);
    forall i | 0 <= i < |next.handlers|
      ensures PhaseOk(cx, next.log, CanonicalIndex(next), next.handlers[i])
    {
      assert PhaseOk(cx, w.log, CanonicalIndex(w), w.handlers[i]);
    }
  }

  /** A step of one handler from an unsettled phase into another keeps the handlers. */
  lemma UnsettledStep(cx: Crypto, w: World, h: nat, p: Phase)
    requires HandlersOk(cx, w) && h < |w.handlers| && !w.handlers[h].Settled? && !p.Settled?
    requires PhaseOk(cx, w.log, CanonicalIndex(w), p)
    ensures HandlersOk(cx, Enter(w, h, p)) && CanonicalIndex(Enter(w, h, p)) == CanonicalIndex(w)
  {
    hide Sorted, ApplyBatch, Root, SnapshotUpTo;
    var next := Enter(w, h, p);
    assert SomeSettled(next.handlers) <==> SomeSettled(w.handlers) by {
      if i :| 0 <= i < |w.handlers| && w.handlers[i].Settled? {
        assert next.handlers[i].Settled?;
      }
    }
  }

  lemma HandlerAt(cx: Crypto, w: World, h: nat)
    requires HandlersOk(cx, w)
    ensures PhaseOk(cx, w.log, CanonicalIndex(w), At(w, h))
  {
  }

  lemma HeldSnapshot(cx: Crypto, w: World, h: nat)
    requires Inv(cx, w) && (At(w, h).Draining? || At(w, h).Proved? || At(w, h).Failed?)
    ensures SnapshotUpTo(w.log, At(w, h).prev, CanonicalIndex(w))
  {
    hide ApplyAll, Root, SnapshotUpTo, Chain, Coherent, HandlersOk;
    HandlerAt(cx, w, h);
  }

  lemma ProvedHere(cx: Crypto, w: World, h: nat)
    requires Inv(cx, w) && At(w, h).Proved?
    ensures At(w, h).pv.prevRoot == Root(cx, At(w, h).prev)
  {
    hide ApplyAll, Root, SnapshotUpTo, Chain, Coherent, HandlersOk;
    HandlerAt(cx, w, h);
  }

  // ----- One lemma per step -----

  lemma SubmitTxKeeps(cx: Crypto, w: World, tx: Tx)
    requires Inv(cx, w)
    ensures Inv(cx, DoSubmitTx(cx, w, tx))
  {
    hide Sorted, Sum, Apply, ApplyAll, Root, ApplyBatch, Coherent, HandlersOk;
    if Admit(cx, w.sequencer, tx).Ok? {
      AdmitKeeps(cx, w.sequencer, tx);
      SameCourseKeeps(cx, w, DoSubmitTx(cx, w, tx));
    }
  }

  lemma OpenBatchKeeps(cx: Crypto, w: World)
    requires Inv(cx, w)
    ensures Inv(cx, DoOpenBatch(w))
  {
    hide Sorted, Sum, Apply, ApplyAll, Root, ApplyBatch, Coherent;
    if w.sequencer.mempool != [] {
      DrainProvable(cx, w.sequencer);
      var next, p := DoOpenBatch(w), Draining(w.sequencer.canonical, w.sequencer.mempool);
      assert next.handlers == w.handlers + [p];
      assert PhaseOk(cx, w.log, CanonicalIndex(w), p);
      assert SomeSettled(next.handlers) <==> SomeSettled(w.handlers) by {
        if i :| 0 <= i < |w.handlers| && w.handlers[i].Settled? {
          assert next.handlers[i].Settled?;
        }
      }
    }
  }

  lemma ProverReturnsKeeps(cx: Crypto, w: World, h: nat, proving: Proving)
    requires Inv(cx, w) && At(w, h).Draining?
    ensures Inv(cx, DoProverReturns(cx, w, h, proving))
  {
    hide Sorted, Sum, Apply, ApplyAll, Root, ApplyBatch, Coherent, HandlersOk, SnapshotUpTo;
    var next := DoProverReturns(cx, w, h, proving);
    assert PhaseOk(cx, w.log, CanonicalIndex(w), At(w, h)) by {
      HandlerAt(cx, w, h);
    }
    UnsettledStep(cx, w, h, next.handlers[h]);
    SameCourseKeeps(cx, Enter(w, h, next.handlers[h]), next);
  }

  lemma FailedKeeps(cx: Crypto, w: World, h: nat)
    requires Inv(cx, w) && At(w, h).Proved?
    ensures Inv(cx, Enter(w, h, Failed(At(w, h).prev, At(w, h).batch)))
  {
    hide Sorted, Sum, ApplyAll, Root, ApplyBatch, Coherent, HandlersOk, SnapshotUpTo, Chain;
    HandlerAt(cx, w, h);
    UnsettledStep(cx, w, h, Failed(At(w, h).prev, At(w, h).batch));
  }

  lemma {:induction false} PrefixIsAll(cx: Crypto, a: Accounts, txs: seq<Tx>)
    requires ApplyAll(cx, a, txs).Ok?
    ensures AppliedPrefix(cx, a, txs) == ApplyAll(cx, a, txs).value
    decreases |txs|
  {
    hide Apply;
    if txs != [] {
      PrefixIsAll(cx, Apply(cx, a, txs[0]).value, txs[1..]);
    }
  }

  /** Adding the newest batch to the record keeps it a chain. */
  lemma ExtendChain(cx: Crypto, log: Log, prev: Accounts, batch: seq<Tx>)
    requires Chain(cx, log) && prev == log.ledgers[|log.settled|]
    requires batch != [] && ApplyAll(cx, prev, batch).Ok?
    ensures var later := Extended(cx, log, prev, batch);
            && Chain(cx, later) && LogExtends(log, later)
            && |later.ledgers| == |later.settled| + 1
            && later.ledgers[|later.settled|] == ApplyAll(cx, prev, batch).value
  {
    hide Sorted, Sum, ApplyAll;
    var later := Extended(cx, log, prev, batch);
    PrefixIsAll(cx, prev, batch);
    BatchKeeps(cx, prev, batch);
    forall k | 0 <= k < |later.settled|
      ensures Link(cx, later, k)
    {
      if k < |log.settled| {
        assert Link(cx, log, k);
      }
    }
  }

  /** With nothing outstanding before, one handler may take L1 one batch ahead. */
  lemma OutstandingStep(cx: Crypto, w: World, next: World, h: nat, p: Phase)
    requires HandlersOk(cx, w) && !Behind(w) && h < |w.handlers|
    requires LogExtends(w.log, next.log) && |next.log.settled| == |w.log.settled| + 1
    requires next.handlers == w.handlers[h := p] && Behind(next)
    requires PhaseOk(cx, next.log, CanonicalIndex(next), p)
    ensures HandlersOk(cx, next)
  {
    hide Sorted, ApplyBatch, Root, SnapshotUpTo;
    forall i | 0 <= i < |next.handlers|
      ensures PhaseOk(cx, next.log, CanonicalIndex(next), next.handlers[i])
    {
      if i != h {
        assert !w.handlers[i].Settled?;
        PhaseLater(cx, w.log, next.log, CanonicalIndex(w), CanonicalIndex(next), w.handlers[i]);
      }
    }
  }

  /** An accepted submission came from a current snapshot; L1 is now exactly one batch ahead. */
  lemma L1AcceptedKeeps(cx: Crypto, w: World, h: nat, seen: bool, l1: RollupState)
    requires Inv(cx, w) && Ordinary(cx, w) && At(w, h).Proved?
    requires At(w, h).pv.prevRoot == w.l1.stateRoot && l1.stateRoot == At(w, h).pv.newRoot
    ensures Inv(cx, L1Accepted(cx, w, h, seen, l1))
  {
    hide Sorted, Sum, ApplyAll, AppliedPrefix, Root, Coherent, Chain, NoRootCollision, Flatten, HandlersOk;
    var p, next := At(w, h), L1Accepted(cx, w, h, seen, l1);
    HandlerAt(cx, w, h);
    CurrentSnapshot(cx, w, p.prev);
    ExtendChain(cx, w.log, p.prev, p.batch);
    assert Behind(next) by {
      assert next.handlers[h] == if seen then Settled(p.batch, p.pv.newRoot) else Failed(p.prev, p.batch);
    }
    assert !w.log.stranded && next.log.ledgers[CanonicalIndex(next)] == p.prev;
    assert SnapshotUpTo(next.log, p.prev, CanonicalIndex(next));
    OutstandingStep(cx, w, next, h, next.handlers[h]);
    if !seen {
      SameCourseChain(cx, Extended(cx, w.log, p.prev, p.batch), next.log);
    }
  }

  lemma L1ReturnsKeeps(cx: Crypto, w: World, h: nat, delivery: Delivery)
    requires Inv(cx, w) && Ordinary(cx, w) && At(w, h).Proved?
    ensures Inv(cx, DoL1Returns(cx, w, h, delivery))
  {
    hide Inv, EncodePublicValues, DecodePublicValues, Ordinary, L1Accepted;
    FailedKeeps(cx, w, h);
    PublicValuesRoundTrip(At(w, h).pv);
    if delivery != NotSent {
      var r := Submit(w.l1, EncodePublicValues(At(w, h).pv), delivery.proofOk);
      if r.Ok? {
        L1AcceptedKeeps(cx, w, h, delivery.Receipt?, r.value.0);
      }
    }
  }

  lemma RestoreStepKeeps(cx: Crypto, w: World, h: nat)
    requires Inv(cx, w) && At(w, h).Failed?
    ensures Inv(cx, DoRestore(cx, w, h))
  {
    hide Sorted, Sum, ApplyAll, Root, Coherent, Chain, HandlersOk, Sift;
    RestoreKeeps(cx, w.sequencer, At(w, h).batch);
    UnsettledStep(cx, w, h, Done);
    SameCourseKeeps(cx, Enter(w, h, Done), DoRestore(cx, w, h));
  }

  /** The handler that settled re-applies its batch to the very state it was proved on. */
  lemma CommitRuns(cx: Crypto, w: World, h: nat)
    requires Inv(cx, w) && At(w, h).Settled?
    ensures !w.log.stranded && CanonicalIndex(w) == |w.log.settled| - 1
    ensures ApplyAll(cx, w.sequencer.canonical, At(w, h).batch) == Ok(w.log.ledgers[|w.log.settled|])
    ensures var r := Commit(cx, w.sequencer, At(w, h).batch, At(w, h).newRoot);
            && r.1 == Ok(())
            && r.0.canonical == w.log.ledgers[|w.log.settled|]
            && r.0.batchCount == Wrap64(w.sequencer.batchCount + 1)
  {
    hide Sorted, Sum, ApplyAll, Root, Coherent, Sift, HandlersOk;
    HandlerAt(cx, w, h);
    assert Link(cx, w.log, CanonicalIndex(w));
  }

  lemma CommitStepKeeps(cx: Crypto, w: World, h: nat)
    requires Inv(cx, w) && At(w, h).Settled?
    ensures Inv(cx, DoCommit(cx, w, h))
  {
    hide Sorted, Sum, ApplyAll, Root, Coherent, Chain, Sift, ApplyBatch, SnapshotUpTo, Commit;
    var next := DoCommit(cx, w, h);
    CommitRuns(cx, w, h);
    CommitKeeps(cx, w.sequencer, At(w, h).batch, At(w, h).newRoot);
    SameCourseChain(cx, w.log, next.log);
    WrapAdd(CanonicalIndex(w), 1);
    assert !Behind(next);
    forall i | 0 <= i < |next.handlers|
      ensures PhaseOk(cx, next.log, CanonicalIndex(next), next.handlers[i])
    {
      if i != h {
        assert !w.handlers[i].Settled?;
        PhaseLater(cx, w.log, next.log, CanonicalIndex(w), CanonicalIndex(next), w.handlers[i]);
      }
    }
  }

  lemma CancelKeeps(cx: Crypto, w: World, h: nat)
    requires Inv(cx, w) && h < |w.handlers|
    ensures Inv(cx, DoCancel(w, h))
  {
    hide Sorted, Sum, ApplyAll, Root, Coherent, Chain, ApplyBatch, SnapshotUpTo;
    var next := DoCancel(w, h);
    SameCourseChain(cx, w.log, next.log);
    if w.handlers[h].Settled? {
      forall i | 0 <= i < |next.handlers|
        ensures PhaseOk(cx, next.log, CanonicalIndex(next), next.handlers[i])
      {
        if i != h {
          assert !w.handlers[i].Settled?;
          PhaseLater(cx, w.log, next.log, CanonicalIndex(w), CanonicalIndex(next), w.handlers[i]);
        }
      }
    } else if w.handlers[h] != Done {
      UnsettledStep(cx, w, h, Done);
      SameCourseKeeps(cx, Enter(w, h, Done), next);
    }
  }

  /** Every step keeps the invariant. */
  lemma StepKeeps(cx: Crypto, w: World, act: Action)
    requires Inv(cx, w) && Ordinary(cx, w)
    ensures Inv(cx, Do(cx, w, act))
  {
    hide Inv, Ordinary, DoSubmitTx, DoOpenBatch, DoProverReturns, DoL1Returns, DoRestore, DoCommit, DoCancel;
    match act
    case SubmitTx(tx) => SubmitTxKeeps(cx, w, tx);
    case OpenBatch => OpenBatchKeeps(cx, w);
    case ProverReturns(h, proving) =>
      if At(w, h).Draining? {
        ProverReturnsKeeps(cx, w, h, proving);
      }
    case L1Returns(h, delivery) =>
      if At(w, h).Proved? {
        L1ReturnsKeeps(cx, w, h, delivery);
      }
    case Finish(h) =>
      if At(w, h).Failed? {
        RestoreStepKeeps(cx, w, h);
      } else if At(w, h).Settled? {
        CommitStepKeeps(cx, w, h);
      }
    case Cancel(h) =>
      if h < |w.handlers| {
        CancelKeeps(cx, w, h);
      }
  }

  // ----- Runs -----

  lemma RecordGrows(cx: Crypto, w: World, act: Action)
    ensures LogExtends(w.log, Do(cx, w, act).log)
  {
    hide Admit, ApplyBatch, Submit, Restored, Commit, Sift, CommitDropped, AppliedPrefix;
  }

  /** A run that is ordinary so far was ordinary before its last step. */
  lemma OrdinaryBefore(cx: Crypto, w: World, act: Action)
    requires Ordinary(cx, Do(cx, w, act))
    ensures Ordinary(cx, w)
  {
    hide Do, EncodeAccounts;
    RecordGrows(cx, w, act);
    var log, later := w.log, Do(cx, w, act).log;
    FlattenPart(later.settled, 0, |log.settled|);
    assert later.settled[0..|log.settled|] == log.settled;
    forall i, j | 0 <= i < j < |log.ledgers|
      ensures !Collision(cx, EncodeAccounts(log.ledgers[i]), EncodeAccounts(log.ledgers[j]))
    {
      assert log.ledgers[i] == later.ledgers[i] && log.ledgers[j] == later.ledgers[j];
    }
  }

  lemma BootInv(cx: Crypto, g: Accounts, l1: RollupState)
    requires Sorted(g) && l1.stateRoot == Root(cx, g)
    ensures Inv(cx, Boot(cx, g, l1))
  {
    hide Sorted, Sum, EncodeAccounts;
  }

  /** From a world that satisfies the invariant, every run of any length and interleaving does. */
  lemma {:induction false} ExecKeeps(cx: Crypto, w: World, acts: seq<Action>)
    requires Inv(cx, w) && Ordinary(cx, Exec(cx, w, acts))
    ensures Inv(cx, Exec(cx, w, acts)) && LogExtends(w.log, Exec(cx, w, acts).log)
  {
    hide Inv, Ordinary, Do;
    if acts != [] {
      var before, act := acts[..|acts| - 1], acts[|acts| - 1];
      OrdinaryBefore(cx, Exec(cx, w, before), act);
      ExecKeeps(cx, w, before);
      StepKeeps(cx, Exec(cx, w, before), act);
      RecordGrows(cx, Exec(cx, w, before), act);
    }
  }

  /** Safety: the invariant holds after every run from a genesis the contract agrees with. */
  lemma {:induction false} Safety(cx: Crypto, g: Accounts, l1: RollupState, acts: seq<Action>)
    requires Sorted(g) && Start(cx, g, l1).Some?
    requires Ordinary(cx, Exec(cx, Start(cx, g, l1).value, acts))
    ensures Inv(cx, Exec(cx, Start(cx, g, l1).value, acts))
  {
    BootInv(cx, g, l1);
    ExecKeeps(cx, Start(cx, g, l1).value, acts);
  }
}
