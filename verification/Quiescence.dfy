/**
 * What is always still possible: from every reachable world that is not stranded, a short list of actions
 * that depends on nothing but the number of handlers finishes every request and settles everything.
 */
module Quiescence {
  import opened SharedTypes
  import opened AccountStore
  import opened Ledger
  import opened Sequencing
  import opened Settlement
  import opened Protocol
  import opened Disturbances
  import opened Safety
  import opened Guarantees
  import opened Accounting

  lemma {:induction false} ExecAppend(cx: Crypto, w: World, s: seq<Action>, t: seq<Action>)
    ensures Exec(cx, w, s + t) == Exec(cx, Exec(cx, w, s), t)
  {
    hide Do;
    if t == [] {
      assert s + t == s;
    } else {
      var n := |t| - 1;
      assert (s + t)[..|s + t| - 1] == s + t[..n] && (s + t)[|s + t| - 1] == t[n];
      ExecAppend(cx, w, s, t[..n]);
    }
  }

  lemma ExecLast(cx: Crypto, w: World, acts: seq<Action>, act: Action)
    ensures Exec(cx, w, acts + [act]) == Do(cx, Exec(cx, w, acts), act)
  {
    hide Do;
    assert (acts + [act])[..|acts|] == acts;
  }

  lemma ExecThree(cx: Crypto, w: World, x: Action, y: Action, z: Action)
    ensures Exec(cx, w, [x, y, z]) == Do(cx, Do(cx, Do(cx, w, x), y), z)
  {
    hide Do;
    assert [x, y, z] == [] + [x] + [y] + [z];
    ExecLast(cx, w, [] + [x] + [y], z);
    ExecLast(cx, w, [] + [x], y);
    ExecLast(cx, w, [], x);
  }

  lemma SameOrdinary(cx: Crypto, w: World, next: World)
    requires Ordinary(cx, w) && next.log.ledgers == w.log.ledgers && next.log.settled == w.log.settled
    ensures Ordinary(cx, next)
  {
  }

  // ----- Finishing every request -----

  /** Bring handler `h` to its end from wherever it stands: what does not fit its phase does nothing. */
  function Release(h: nat): seq<Action>
  {
    [ProverReturns(h, ProverError), L1Returns(h, NotSent), Finish(h)]
  }

  function ReleaseAll(n: nat): seq<Action>
  {
    if n == 0 then [] else ReleaseAll(n - 1) + Release(n - 1)
  }

  /** Finish `n` handlers, then run one batch without trouble. */
  function Closing(n: nat): seq<Action>
  {
    ReleaseAll(n) + [OpenBatch, ProverReturns(n, Answer), L1Returns(n, Receipt(true)), Finish(n)]
  }

  /** Neither L1 nor its record moved, and no transaction was accepted, lost or echoed meanwhile. */
  ghost predicate Still(w: World, next: World)
  {
    next.l1 == w.l1 && next.log == w.log.(dropped := next.log.dropped)
  }

  lemma ReleaseOne(cx: Crypto, w: World, h: nat)
    requires Inv(cx, w) && Ordinary(cx, w) && h < |w.handlers|
    ensures var next := Exec(cx, w, Release(h));
            Inv(cx, next) && Still(w, next) && next.handlers == w.handlers[h := Done]
  {
    hide Inv, Ordinary, Restored, Commit, Sift, CommitDropped;
    var v := Do(cx, w, ProverReturns(h, ProverError));
    var u := Do(cx, v, L1Returns(h, NotSent));
    var next := Do(cx, u, Finish(h));
    ExecThree(cx, w, ProverReturns(h, ProverError), L1Returns(h, NotSent), Finish(h));
    StepKeeps(cx, w, ProverReturns(h, ProverError));
    SameOrdinary(cx, w, v);
    StepKeeps(cx, v, L1Returns(h, NotSent));
    SameOrdinary(cx, w, u);
    StepKeeps(cx, u, Finish(h));
  }

  lemma {:induction false} ReleaseEvery(cx: Crypto, w: World, n: nat)
    requires Inv(cx, w) && Ordinary(cx, w) && n <= |w.handlers|
    ensures var next := Exec(cx, w, ReleaseAll(n));
            && Inv(cx, next) && Ordinary(cx, next) && Still(w, next)
            && |next.handlers| == |w.handlers|
            && forall i :: 0 <= i < n ==> next.handlers[i] == Done
  {
    hide Inv, Ordinary, Do, Release;
    if n > 0 {
      ReleaseEvery(cx, w, n - 1);
      var before := Exec(cx, w, ReleaseAll(n - 1));
      ExecAppend(cx, w, ReleaseAll(n - 1), Release(n - 1));
      ReleaseOne(cx, before, n - 1);
      SameOrdinary(cx, w, Exec(cx, before, Release(n - 1)));
    }
  }

  /** With every handler done and the run not stranded, L1 and the sequencer are in step. */
  lemma DoneIsInStep(cx: Crypto, w: World)
    requires Inv(cx, w) && !w.log.stranded
    requires forall h :: 0 <= h < |w.handlers| ==> w.handlers[h] == Done
    ensures InStep(cx, w)
  {
    hide Sorted, Sum, ApplyAll, Root, HandlersOk, Chain;
  }

  /** The last batch of `Closing`; when nothing is pending its four actions do nothing. */
  lemma LastBatch(cx: Crypto, w: World)
    requires Inv(cx, w) && InStep(cx, w)
    requires w.sequencer.mempool == [] || !IsZero(Root(cx, w.sequencer.speculative))
    requires forall h :: 0 <= h < |w.handlers| ==> w.handlers[h] == Done
    ensures var s, done := w.sequencer, AfterSmoothBatch(cx, w);
            && done.sequencer.canonical == done.sequencer.speculative == s.speculative
            && done.sequencer.mempool == []
            && done.l1.stateRoot == done.sequencer.canonicalRoot == Root(cx, s.speculative)
            && (forall h :: 0 <= h < |done.handlers| ==> done.handlers[h] == Done)
            && done.log ==
                 if s.mempool == [] then w.log
                 else w.log.(ledgers := w.log.ledgers + [s.speculative], settled := w.log.settled + [s.mempool])
  {
    hide Root, IsZero, HandlersOk, Chain, Sorted, Sum, Apply;
    if w.sequencer.mempool != [] {
      hide AfterSmoothBatch, Inv, InStep;
      SmoothBatch(cx, w);
    }
  }

  lemma ExecSmooth(cx: Crypto, w: World)
    ensures var n := |w.handlers|;
            Exec(cx, w, [OpenBatch, ProverReturns(n, Answer), L1Returns(n, Receipt(true)), Finish(n)]) ==
            AfterSmoothBatch(cx, w)
  {
    hide Do;
    var n := |w.handlers|;
    var three := [OpenBatch, ProverReturns(n, Answer), L1Returns(n, Receipt(true))];
    assert [OpenBatch, ProverReturns(n, Answer), L1Returns(n, Receipt(true)), Finish(n)] == three + [Finish(n)];
    ExecThree(cx, w, OpenBatch, ProverReturns(n, Answer), L1Returns(n, Receipt(true)));
    ExecLast(cx, w, three, Finish(n));
  }

  /**
   * Quiescence: from every reachable world that is not stranded, `Closing` leaves every handler done, the
   * mempool empty, and L1, canonical and speculative state at one ledger; nothing more is lost.
   */
  lemma EveryRunCanClose(cx: Crypto, g: Accounts, l1: RollupState, acts: seq<Action>, w: World)
    requires Run(cx, g, l1, acts, w) && !w.log.stranded
    requires var quiet := Exec(cx, w, ReleaseAll(|w.handlers|)).sequencer;
             quiet.mempool == [] || !IsZero(Root(cx, quiet.speculative))
    ensures var done := Exec(cx, w, Closing(|w.handlers|));
            && (forall h :: 0 <= h < |done.handlers| ==> done.handlers[h] == Done)
            && done.sequencer.mempool == []
            && done.sequencer.canonical == done.sequencer.speculative
            && done.l1.stateRoot == done.sequencer.canonicalRoot == Root(cx, done.sequencer.canonical)
            && w.log.settled <= done.log.settled
            && done.log ==
                 w.log.(ledgers := done.log.ledgers, settled := done.log.settled, dropped := done.log.dropped)
  {
    hide Run, Inv, Ordinary, Exec, Do, AfterSmoothBatch, InStep, ReleaseAll, Root, IsZero;
    var n := |w.handlers|;
    OrdinaryRun(cx, g, l1, acts, w);
    RunInv(cx, g, l1, acts, w);
    ReleaseEvery(cx, w, n);
    var quiet := Exec(cx, w, ReleaseAll(n));
    DoneIsInStep(cx, quiet);
    LastBatch(cx, quiet);
    ExecAppend(cx, w, ReleaseAll(n), [OpenBatch, ProverReturns(n, Answer), L1Returns(n, Receipt(true)), Finish(n)]);
    ExecSmooth(cx, quiet);
  }

  lemma UnseenStrands(cx: Crypto, w: World, acts: seq<Action>)
    requires Never(cx, w, acts, Strands)
    ensures Never(cx, w, acts, Unseen)
  {
    hide Exec;
    forall i | 0 <= i < |acts|
      ensures !Unseen(Exec(cx, w, acts[..i]), acts[i])
    {
      assert !Strands(Exec(cx, w, acts[..i]), acts[i]);
    }
  }

  lemma {:induction false} DoneCarriesNothing(handlers: seq<Phase>)
    requires forall h :: 0 <= h < |handlers| ==> handlers[h] == Done
    ensures InFlight(handlers) == multiset{}
  {
    if handlers != [] {
      DoneCarriesNothing(handlers[1..]);
    }
  }

  /**
   * The end of every intent: after `Closing`, each transaction ever accepted is settled on L1, was dropped
   * by a restore or a commit, or was lost, exactly as often as it was accepted; and none was lost unless
   * some step of the run lost one.
   */
  lemma EveryIntentEnds(cx: Crypto, g: Accounts, l1: RollupState, acts: seq<Action>, w: World)
    requires Run(cx, g, l1, acts, w) && Never(cx, Boot(cx, g, l1), acts, Strands)
    requires var quiet := Exec(cx, w, ReleaseAll(|w.handlers|)).sequencer;
             quiet.mempool == [] || !IsZero(Root(cx, quiet.speculative))
    ensures var done := Exec(cx, w, Closing(|w.handlers|));
            && w.log.accepted == multiset(Flatten(done.log.settled)) + done.log.dropped + w.log.lost
            && (w.log.lost == multiset{} <==> Never(cx, Boot(cx, g, l1), acts, Loses))
  {
    hide Run, Exec, Do, ReleaseAll, Closing, Root, IsZero, Flatten, InFlight;
    var start, closing := Boot(cx, g, l1), Closing(|w.handlers|);
    var done := Exec(cx, w, closing);
    OrdinaryRun(cx, g, l1, acts, w);
    DisturbancesExactly(cx, g, l1, acts);
    EveryRunCanClose(cx, g, l1, acts, w);
    ExecAppend(cx, start, acts, closing);
    EveryIntentAccounted(cx, g, l1, acts + closing);
    DoneCarriesNothing(done.handlers);
    UnseenStrands(cx, start, acts);
    assert Owed(done) == w.log.accepted;
    assert Elsewhere(done) == multiset(Flatten(done.log.settled)) + done.log.dropped + w.log.lost;
  }
}
