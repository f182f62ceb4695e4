/** Where every accepted transaction is, at every step of every run, whatever goes wrong. */
module Accounting {
  import opened SharedTypes
  import opened Ledger
  import opened Sequencing
  import opened Settlement
  import opened Protocol
  import opened Disturbances

  /** The transactions a handler is answerable for; after settlement the record of settled batches is. */
  function Carried(p: Phase): multiset<Tx>
  {
    match p
    case Done => multiset{}
    case Settled(_, _) => multiset{}
    case _ => multiset(p.batch)
  }

  function InFlight(handlers: seq<Phase>): multiset<Tx>
  {
    if handlers == [] then multiset{} else Carried(handlers[0]) + InFlight(handlers[1..])
  }

  /** The transactions that are with no handler: pending, settled, dropped by a restore or commit, or lost. */
  function Elsewhere(w: World): multiset<Tx>
  {
    multiset(w.sequencer.mempool) + multiset(Flatten(w.log.settled)) + w.log.dropped + w.log.lost
  }

  function Owed(w: World): multiset<Tx>
  {
    w.log.accepted + w.log.echoed
  }

  /**
   * The accepted transactions, and those of each batch L1 executed unseen once more, are exactly those
   * pending, in flight, settled, dropped by a restore or a commit, or lost with a vanished handler.
   */
  ghost predicate Accounted(w: World)
  {
    Owed(w) == Elsewhere(w) + InFlight(w.handlers)
  }

  lemma {:induction false} InFlightAppend(s: seq<Phase>, p: Phase)
    ensures InFlight(s + [p]) == InFlight(s) + Carried(p)
  {
    if s == [] {
      assert s + [p] == [p] && [p][1..] == [];
    } else {
      assert (s + [p])[1..] == s[1..] + [p];
      InFlightAppend(s[1..], p);
    }
  }

  /** A handler that moves to another phase changes the transactions in flight by its own. */
  lemma {:induction false} InFlightUpdate(s: seq<Phase>, h: nat, p: Phase)
    requires h < |s|
    ensures InFlight(s[h := p]) + Carried(s[h]) == InFlight(s) + Carried(p)
  {
    hide Carried;
    var u := s[h := p];
    assert InFlight(s) == Carried(s[0]) + InFlight(s[1..]);
    assert InFlight(u) == Carried(u[0]) + InFlight(u[1..]);
    if h == 0 {
      assert u[1..] == s[1..];
    } else {
      assert u[1..] == s[1..][h - 1 := p];
      InFlightUpdate(s[1..], h - 1, p);
      forall t: Tx
        ensures (InFlight(u) + Carried(s[h]))[t] == (InFlight(s) + Carried(p))[t]
      {
        assert (InFlight(u[1..]) + Carried(s[h]))[t] == (InFlight(s[1..]) + Carried(p))[t];
      }
    }
  }

  lemma FlattenLast(batches: seq<seq<Tx>>, batch: seq<Tx>)
    ensures multiset(Flatten(batches + [batch])) == multiset(Flatten(batches)) + multiset(batch)
  {
    assert (batches + [batch])[..|batches|] == batches;
  }

  /** A step of one handler keeps the books when what the rest of the world gains is what the handler hands over. */
  lemma HandlerTrade(w: World, next: World, h: nat)
    requires Accounted(w) && h < |w.handlers| && |next.handlers| == |w.handlers|
    requires next.handlers == w.handlers[h := next.handlers[h]]
    requires Owed(next) + Elsewhere(w) + Carried(w.handlers[h]) == Owed(w) + Elsewhere(next) + Carried(next.handlers[h])
    ensures Accounted(next)
  {
    hide Carried, Owed, Elsewhere, InFlight;
    InFlightUpdate(w.handlers, h, next.handlers[h]);
    var x, y := Carried(w.handlers[h]), Carried(next.handlers[h]);
    forall t: Tx
      ensures Owed(next)[t] == (Elsewhere(next) + InFlight(next.handlers))[t]
    {
      assert (InFlight(next.handlers) + x)[t] == (InFlight(w.handlers) + y)[t];
      assert (Owed(next) + Elsewhere(w) + x)[t] == (Owed(w) + Elsewhere(next) + y)[t];
      assert Owed(w)[t] == (Elsewhere(w) + InFlight(w.handlers))[t];
    }
  }

  lemma ProverAccounts(cx: Crypto, w: World, h: nat, proving: Proving)
    requires Accounted(w) && At(w, h).Draining?
    ensures Accounted(DoProverReturns(cx, w, h, proving))
  {
    hide ApplyBatch, Flatten, InFlight;
    HandlerTrade(w, DoProverReturns(cx, w, h, proving), h);
  }

  lemma L1Accounts(cx: Crypto, w: World, h: nat, delivery: Delivery)
    requires Accounted(w) && At(w, h).Proved?
    ensures Accounted(DoL1Returns(cx, w, h, delivery))
  {
    hide Submit, EncodePublicValues, Flatten, InFlight, AppliedPrefix;
    FlattenLast(w.log.settled, At(w, h).batch);
    HandlerTrade(w, DoL1Returns(cx, w, h, delivery), h);
  }

  /** A restore splits the batch, a commit the mempool, into what stays pending and what is dropped. */
  lemma FinishSift(cx: Crypto, w: World, h: nat)
    requires At(w, h).Failed? || At(w, h).Settled?
    ensures var next := Do(cx, w, Finish(h));
            multiset(next.sequencer.mempool) + next.log.dropped ==
            multiset(w.sequencer.mempool) + w.log.dropped + Carried(At(w, h))
  {
    hide Apply, ApplyAll, Sift, Root;
    if At(w, h).Failed? {
      SiftKeeps(cx, w.sequencer.speculative, At(w, h).batch);
    } else {
      var r := Commit(cx, w.sequencer, At(w, h).batch, At(w, h).newRoot);
      if r.1.Ok? {
        SiftKeeps(cx, r.0.canonical, w.sequencer.mempool);
      }
    }
  }

  lemma FinishAccounts(cx: Crypto, w: World, h: nat)
    requires Accounted(w) && (At(w, h).Failed? || At(w, h).Settled?)
    ensures Accounted(Do(cx, w, Finish(h)))
  {
    hide Restored, Commit, CommitDropped, Sift, Flatten, InFlight;
    var next := Do(cx, w, Finish(h));
    FinishSift(cx, w, h);
    assert Owed(next) == Owed(w) && next.handlers == w.handlers[h := Done];
    assert next.log.settled == w.log.settled && next.log.lost == w.log.lost;
    forall t: Tx
      ensures (Elsewhere(w) + Carried(At(w, h)))[t] == Elsewhere(next)[t]
    {
      assert (multiset(next.sequencer.mempool) + next.log.dropped)[t] ==
             (multiset(w.sequencer.mempool) + w.log.dropped + Carried(At(w, h)))[t];
    }
    HandlerTrade(w, next, h);
  }

  lemma CancelAccounts(w: World, h: nat)
    requires Accounted(w) && h < |w.handlers|
    ensures Accounted(DoCancel(w, h))
  {
    hide Flatten, InFlight;
    HandlerTrade(w, DoCancel(w, h), h);
  }

  lemma SubmitTxAccounts(cx: Crypto, w: World, tx: Tx)
    requires Accounted(w)
    ensures Accounted(DoSubmitTx(cx, w, tx))
  {
    hide Apply, Flatten, InFlight;
    var next := DoSubmitTx(cx, w, tx);
    if Admit(cx, w.sequencer, tx).Ok? {
      assert multiset(next.sequencer.mempool) == multiset(w.sequencer.mempool) + multiset{tx};
      assert Elsewhere(next) == Elsewhere(w) + multiset{tx};
      assert Owed(next) == Owed(w) + multiset{tx};
    }
  }

  lemma OpenBatchAccounts(w: World)
    requires Accounted(w)
    ensures Accounted(DoOpenBatch(w))
  {
    hide Flatten, InFlight;
    var next := DoOpenBatch(w);
    if w.sequencer.mempool != [] {
      InFlightAppend(w.handlers, Draining(w.sequencer.canonical, w.sequencer.mempool));
      assert Elsewhere(w) == Elsewhere(next) + multiset(w.sequencer.mempool);
    }
  }

  lemma StepAccounts(cx: Crypto, w: World, act: Action)
    requires Accounted(w)
    ensures Accounted(Do(cx, w, act))
  {
    hide Accounted, DoSubmitTx, DoOpenBatch, DoProverReturns, DoL1Returns, DoRestore, DoCommit, DoCancel;
    match act
    case SubmitTx(tx) => SubmitTxAccounts(cx, w, tx);
    case OpenBatch => OpenBatchAccounts(w);
    case ProverReturns(h, proving) =>
      if At(w, h).Draining? {
        ProverAccounts(cx, w, h, proving);
      }
    case L1Returns(h, delivery) =>
      if At(w, h).Proved? {
        L1Accounts(cx, w, h, delivery);
      }
    case Finish(h) =>
      if At(w, h).Failed? || At(w, h).Settled? {
        FinishAccounts(cx, w, h);
      }
    case Cancel(h) =>
      if h < |w.handlers| {
        CancelAccounts(w, h);
      }
  }

  /**
   * Accounting of intents, over every run: nothing disappears unrecorded, and nothing counts twice but the
   * transactions of a batch that L1 executed unseen.
   */
  lemma {:induction false} EveryIntentAccounted(cx: Crypto, g: Accounts, l1: RollupState, acts: seq<Action>)
    ensures Accounted(Exec(cx, Boot(cx, g, l1), acts))
  {
    hide Do;
    if acts == [] {
      assert Accounted(Boot(cx, g, l1));
    } else {
      EveryIntentAccounted(cx, g, l1, acts[..|acts| - 1]);
      StepAccounts(cx, Exec(cx, Boot(cx, g, l1), acts[..|acts| - 1]), acts[|acts| - 1]);
    }
  }

  // ----- Runs without mishaps -----

  /** An action that is no mishap in any world. */
  predicate Undisturbed(act: Action)
  {
    match act
    case ProverReturns(_, proving) => proving != Malformed
    case L1Returns(_, delivery) => !delivery.ReceiptLost?
    case Cancel(_) => false
    case _ => true
  }

  /** When every action is of that kind, no transaction is lost, none is echoed and L1 never runs away. */
  lemma {:induction false} UndisturbedRuns(cx: Crypto, g: Accounts, l1: RollupState, acts: seq<Action>)
    requires forall i :: 0 <= i < |acts| ==> Undisturbed(acts[i])
    ensures var log := Exec(cx, Boot(cx, g, l1), acts).log;
            !log.stranded && log.lost == multiset{} && log.echoed == multiset{}
  {
    hide Exec;
    DisturbancesExactly(cx, g, l1, acts);
    forall i | 0 <= i < |acts|
      ensures !Strands(Exec(cx, Boot(cx, g, l1), acts[..i]), acts[i])
      ensures !Loses(Exec(cx, Boot(cx, g, l1), acts[..i]), acts[i])
      ensures !Unseen(Exec(cx, Boot(cx, g, l1), acts[..i]), acts[i])
    {
      assert Undisturbed(acts[i]);
    }
  }

  /**
   * When no step lost transactions and no execution went unseen, every accepted transaction is pending,
   * in flight, settled or dropped, exactly as often as accepted.
   */
  lemma {:induction false} UndisturbedAccounting(cx: Crypto, g: Accounts, l1: RollupState, acts: seq<Action>)
    requires Never(cx, Boot(cx, g, l1), acts, Loses) && Never(cx, Boot(cx, g, l1), acts, Unseen)
    ensures var w := Exec(cx, Boot(cx, g, l1), acts);
            w.log.accepted ==
            multiset(w.sequencer.mempool) + multiset(Flatten(w.log.settled)) + w.log.dropped + InFlight(w.handlers)
  {
    hide Exec, InFlight, Flatten, Never;
    DisturbancesExactly(cx, g, l1, acts);
    EveryIntentAccounted(cx, g, l1, acts);
    var w := Exec(cx, Boot(cx, g, l1), acts);
    assert Owed(w) == w.log.accepted;
    assert Elsewhere(w) == multiset(w.sequencer.mempool) + multiset(Flatten(w.log.settled)) + w.log.dropped;
  }
}
