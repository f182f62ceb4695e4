/**
 * The three mishaps that cost something: a receipt nobody saw, an answer nobody could decode, a request
 * nobody waited for. Which step of a run is one is told from that step and the world it met, and what
 * the run records as lost, echoed or stranded is exactly what these steps did.
 */
module Disturbances {
  import opened SharedTypes
  import opened Ledger
  import opened Sequencing
  import opened Settlement
  import opened Protocol

  /** L1 executes the submission and the sequencer does not learn of it. */
  predicate Unseen(w: World, act: Action)
  {
    match act
    case L1Returns(h, ReceiptLost(proofOk)) =>
      At(w, h).Proved? && Submit(w.l1, EncodePublicValues(At(w, h).pv), proofOk).Ok?
    case _ => false
  }

  /** L1 moves on and the sequencer never will: an unseen execution, or a settled handler that vanishes. */
  predicate Strands(w: World, act: Action)
  {
    Unseen(w, act) || (act.Cancel? && At(w, act.h).Settled?)
  }

  /** Drained transactions go nowhere: an undecodable answer, or a handler that vanishes before it settled. */
  predicate Loses(w: World, act: Action)
  {
    match act
    case ProverReturns(h, Malformed) => At(w, h).Draining?
    case Cancel(h) => At(w, h).Draining? || At(w, h).Proved? || At(w, h).Failed?
    case _ => false
  }

  /** No step of the run from `w` is of the kind `bad`. */
  ghost predicate Never(cx: Crypto, w: World, acts: seq<Action>, bad: (World, Action) -> bool)
  {
    forall i :: 0 <= i < |acts| ==> !bad(Exec(cx, w, acts[..i]), acts[i])
  }

  lemma NeverLast(cx: Crypto, w: World, acts: seq<Action>, bad: (World, Action) -> bool)
    requires acts != []
    ensures var n := |acts| - 1;
            Never(cx, w, acts, bad) <==> Never(cx, w, acts[..n], bad) && !bad(Exec(cx, w, acts[..n]), acts[n])
  {
    hide Exec;
    var init := acts[..|acts| - 1];
    forall i | 0 <= i < |init|
      ensures init[..i] == acts[..i] && init[i] == acts[i]
    {
    }
    if Never(cx, w, acts, bad) {
      forall i | 0 <= i < |init|
        ensures !bad(Exec(cx, w, init[..i]), init[i])
      {
        assert !bad(Exec(cx, w, acts[..i]), acts[i]);
      }
    }
  }

  /** A handler that still carries transactions carries some. */
  ghost predicate Loaded(w: World)
  {
    forall h :: 0 <= h < |w.handlers| ==>
      w.handlers[h].Draining? || w.handlers[h].Proved? || w.handlers[h].Failed? ==> w.handlers[h].batch != []
  }

  lemma LoadedStep(cx: Crypto, w: World, act: Action)
    requires Loaded(w)
    ensures Loaded(Do(cx, w, act))
  {
    hide Admit, ApplyBatch, Submit, Restored, Commit, Sift, CommitDropped, AppliedPrefix, EncodePublicValues;
  }

  lemma StrandedByStep(cx: Crypto, w: World, act: Action)
    ensures Do(cx, w, act).log.stranded <==> w.log.stranded || Strands(w, act)
  {
    hide Admit, ApplyBatch, Submit, Restored, Commit, Sift, CommitDropped, AppliedPrefix, EncodePublicValues;
  }

  lemma LostByStep(cx: Crypto, w: World, act: Action)
    requires Loaded(w)
    ensures Do(cx, w, act).log.lost == multiset{} <==> w.log.lost == multiset{} && !Loses(w, act)
  {
    hide Admit, ApplyBatch, Submit, Restored, Commit, Sift, CommitDropped, AppliedPrefix, EncodePublicValues;
    var lost, later := w.log.lost, Do(cx, w, act).log.lost;
    if Loses(w, act) {
      var batch := At(w, act.h).batch;
      assert later == lost + multiset(batch);
      assert batch[0] in later;
    } else {
      assert later == lost;
    }
  }

  lemma EchoedByStep(cx: Crypto, w: World, act: Action)
    requires Loaded(w)
    ensures Do(cx, w, act).log.echoed == multiset{} <==> w.log.echoed == multiset{} && !Unseen(w, act)
  {
    hide Admit, ApplyBatch, Submit, Restored, Commit, Sift, CommitDropped, AppliedPrefix, EncodePublicValues;
    var echoed, later := w.log.echoed, Do(cx, w, act).log.echoed;
    if Unseen(w, act) {
      var batch := At(w, act.h).batch;
      assert later == echoed + multiset(batch);
      assert batch[0] in later;
    } else {
      assert later == echoed;
    }
  }

  lemma NothingHappened(cx: Crypto, g: Accounts, l1: RollupState)
    ensures Loaded(Boot(cx, g, l1))
    ensures forall bad: (World, Action) -> bool :: Never(cx, Boot(cx, g, l1), [], bad)
  {
  }

  /**
   * Over every run: it is stranded if and only if some step stranded it, transactions are lost if and
   * only if some step lost some, and echoed if and only if some execution went unseen.
   */
  lemma {:induction false} DisturbancesExactly(cx: Crypto, g: Accounts, l1: RollupState, acts: seq<Action>)
    ensures var start := Boot(cx, g, l1);
            var w := Exec(cx, start, acts);
            && Loaded(w)
            && (!w.log.stranded <==> Never(cx, start, acts, Strands))
            && (w.log.lost == multiset{} <==> Never(cx, start, acts, Loses))
            && (w.log.echoed == multiset{} <==> Never(cx, start, acts, Unseen))
  {
    hide Do, Never, Loaded, Root;
    var start := Boot(cx, g, l1);
    if acts == [] {
      NothingHappened(cx, g, l1);
    } else {
      var n := |acts| - 1;
      var before := Exec(cx, start, acts[..n]);
      DisturbancesExactly(cx, g, l1, acts[..n]);
      LoadedStep(cx, before, acts[n]);
      StrandedByStep(cx, before, acts[n]);
      LostByStep(cx, before, acts[n]);
      EchoedByStep(cx, before, acts[n]);
      NeverLast(cx, start, acts, Strands);
      NeverLast(cx, start, acts, Loses);
      NeverLast(cx, start, acts, Unseen);
    }
  }
}
