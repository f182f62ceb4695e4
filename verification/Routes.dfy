/**
 * The sequencer node: one shared state, one contract and the handlers of open `/batch` requests.
 * Each method is one uninterrupted section of the request code, and is proved to be one action of the
 * protocol. `Serve` drives a node from startup through any interleaving of them and ends in a `Run`, of
 * which the theorems of `Guarantees`, `Accounting` and `Quiescence` speak.
 */
module Routes {
  import opened Wrappers
  import opened Bytes
  import opened SharedTypes
  import opened AccountStore
  import opened Ledger
  import opened Sequencing
  import opened Settlement
  import opened Protocol
  import opened Guarantees
  import SequencerService
  import Stf

  datatype BatchResponse =
    | MempoolEmpty
    | ProveFailed
    | MalformedAnswer
    | L1Failed
    | CommitFailed(error: CommitError)
    | BatchSettledAt(newRoot: Hash)

  /** The actions of a `/batch` request that nothing interrupts; `deliver` is L1's answer to the public values. */
  function Triggered(cx: Crypto, w: World, proving: Proving, deliver: PublicValues -> Delivery): World
  {
    var h := |w.handlers|;
    if w.sequencer.mempool == [] then w
    else
      var answered := Do(cx, Do(cx, w, OpenBatch), ProverReturns(h, proving));
      var p := At(answered, h);
      if p.Proved? then Do(cx, Do(cx, answered, L1Returns(h, deliver(p.pv))), Finish(h))
      else Do(cx, answered, Finish(h))
  }

  /** From a drained sequencer: restoring its batch undoes the drain, committing it completes it. */
  lemma RoundTrips(cx: Crypto, s: Sequencer)
    requires Coherent(cx, s)
    ensures Restored(cx, Drained(s), s.mempool) == s
    ensures var done := Commit(cx, Drained(s), s.mempool, Root(cx, s.speculative));
            && done.1 == Ok(())
            && done.0 == Sequencer(s.speculative, Root(cx, s.speculative), s.speculative, [], Wrap64(s.batchCount + 1))
    ensures ApplyAll(cx, s.canonical, s.mempool) == Ok(s.speculative) && s.canonicalRoot == Root(cx, s.canonical)
  {
    hide Apply, Root, Sorted, Wrap64, BatchHash;
    DrainRestoreIdentity(cx, s);
    DrainProvable(cx, s);
  }

  lemma FinishOfDone(cx: Crypto, w: World, h: nat)
    requires At(w, h) == Done
    ensures Do(cx, w, Action.Finish(h)) == w
  {
  }

  /** Something that happens to the node: a request arrives, or what a handler waits for comes. */
  datatype Event =
    | TxArrives(tx: Tx)
    | BatchRequested
    | ProverReplies(h: nat, proving: Proving)
    | L1Replies(h: nat, sent: bool, proof: seq<byte>, seen: bool)
    | LockGranted(h: nat)
    | ClientLeaves(h: nat)

  class Node {
    const cx: Crypto
    const sequencer: SequencerService.SequencerState
    const rollup: Rollup
    var handlers: seq<Phase>
    ghost var log: Log

    ghost predicate Valid()
      reads this, sequencer
    {
      sequencer.Valid() && sequencer.cx == cx
    }

    ghost function View(): World
      reads this, sequencer, sequencer.canonicalState, sequencer.speculativeState, rollup
    {
      World(sequencer.View(), rollup.View(), handlers, log)
    }

    constructor (cx: Crypto, genesis: State, rollup: Rollup)
      ensures Valid() && fresh(sequencer) && fresh(sequencer.canonicalState) && fresh(sequencer.speculativeState)
      ensures this.cx == cx && this.rollup == rollup
      ensures View() == Boot(cx, genesis.accounts, rollup.View())
    {
      var s := new SequencerService.SequencerState.FromGenesis(cx, genesis);
      this.cx, this.sequencer, this.rollup, this.handlers := cx, s, rollup, [];
      log := Log([genesis.accounts], [], multiset{}, multiset{}, multiset{}, multiset{}, false);
    }

    /** `main`: serve only when the contract's root is the root of the local genesis. */
    static method Start(cx: Crypto, genesis: State, rollup: Rollup) returns (node: Node?)
      ensures match Protocol.Start(cx, genesis.accounts, rollup.View())
              case None => node == null
              case Some(w) => node != null && fresh(node) && node.Valid() && node.View() == w
      ensures node == null <==> rollup.stateRoot != Root(cx, genesis.accounts)
      ensures node != null ==>
                && node.cx == cx && node.rollup == rollup
                && fresh(node.sequencer)
                && fresh(node.sequencer.canonicalState) && fresh(node.sequencer.speculativeState)
    {
      var root := genesis.MerkleRoot(cx);
      if rollup.stateRoot != root {
        return null;
      }
      node := new Node(cx, genesis, rollup);
    }

    method SubmitTx(tx: Tx) returns (r: Result<(), StfError>)
      requires Valid()
      modifies sequencer`speculativeState, sequencer`mempool, this`log
      ensures Valid() && View() == Do(cx, old(View()), Action.SubmitTx(tx))
      ensures var s := old(sequencer.View());
              match Apply(cx, s.speculative, tx)
              case Ok(next) =>
                && r == Ok(())
                && sequencer.View() == s.(speculative := next, mempool := s.mempool + [tx])
              case Err(e) => r == Err(e) && View() == old(View())
    {
      hide Apply;
      r := sequencer.AdmitTx(tx);
      if r.Ok? {
        log := log.(accepted := log.accepted + multiset{tx});
      }
    }

    /** Step 1 of a batch: snapshot and drain under the lock. */
    method OpenBatch() returns (h: Option<nat>)
      requires Valid()
      modifies sequencer`speculativeState, sequencer`mempool, this`handlers
      ensures Valid() && View() == Do(cx, old(View()), Action.OpenBatch)
      ensures var s := old(sequencer.View());
              if s.mempool == [] then h == None && View() == old(View())
              else
                && h == Some(|old(handlers)|)
                && handlers == old(handlers) + [Draining(s.canonical, s.mempool)]
                && sequencer.View() == s.(speculative := s.canonical, mempool := [])
    {
      if sequencer.mempool == [] {
        return None;
      }
      var prev, batch := sequencer.DrainForBatch();
      handlers := handlers + [Draining(prev.accounts, batch)];
      return Some(|handlers| - 1);
    }

    /** Step 2: the prover runs the program on the snapshot, fails, or answers with undecodable bytes. */
    method ProverReturns(h: nat, proving: Proving)
      requires Valid() && h < |handlers| && handlers[h].Draining?
      modifies this`handlers, this`log
      ensures Valid() && View() == Do(cx, old(View()), Action.ProverReturns(h, proving))
      ensures var p := old(handlers[h]);
              handlers == old(handlers)[h :=
                if proving == Malformed then Done
                else if proving == ProverError then Failed(p.prev, p.batch)
                else match ApplyAll(cx, p.prev, p.batch)
                  case Ok(next) => Proved(p.prev, p.batch,
                                          PublicValues(Root(cx, p.prev), Root(cx, next), BatchHash(cx, p.batch)))
                  case Err(_) => Failed(p.prev, p.batch)]
    {
      hide ApplyAll, Root, BatchHash;
      var p := handlers[h];
      if proving == Malformed {
        handlers := handlers[h := Done];
        log := log.(lost := log.lost + multiset(p.batch));
        return;
      }
      handlers := handlers[h := Failed(p.prev, p.batch)];
      if proving == Answer {
        var store := new State.Of(p.prev);
        var out := Stf.ApplyBatch(cx, store, p.batch);
        if out.Ok? {
          handlers := handlers[h := Proved(p.prev, p.batch, out.value)];
        }
      }
    }

    /** L1's answer to a submission, from what the verifier says of the proof. */
    function DeliveryOf(pv: PublicValues, sent: bool, proof: seq<byte>, seen: bool): Delivery
    {
      var proofOk := rollup.verify(rollup.programVKey, EncodePublicValues(pv), proof);
      if !sent then NotSent else if seen then Receipt(proofOk) else ReceiptLost(proofOk)
    }

    /** L1 accepts the proof of these values: it is sent, it is good, its root is current and the new one not zero. */
    ghost predicate Accepted(pv: PublicValues, sent: bool, proof: seq<byte>)
      reads rollup
    {
      && sent && rollup.verify(rollup.programVKey, EncodePublicValues(pv), proof)
      && pv.prevRoot == rollup.stateRoot && !IsZero(pv.newRoot)
    }

    /** Step 4: submit to L1; the receipt may stay unseen although the transaction was executed. */
    method L1Returns(h: nat, sent: bool, proof: seq<byte>, seen: bool)
      requires Valid() && h < |handlers| && handlers[h].Proved?
      modifies this`handlers, this`log, rollup
      ensures Valid()
      ensures var delivery := DeliveryOf(old(handlers[h].pv), sent, proof, seen);
              View() == Do(cx, old(View()), Action.L1Returns(h, delivery))
      ensures var p := old(handlers[h]);
              var accepted := old(Accepted(handlers[h].pv, sent, proof));
              && rollup.stateRoot == (if accepted then p.pv.newRoot else old(rollup.stateRoot))
              && handlers == old(handlers)[h :=
                   if accepted && seen then Settled(p.batch, p.pv.newRoot) else Failed(p.prev, p.batch)]
    {
      hide EncodePublicValues, DecodePublicValues, AppliedPrefix, IsZero, Wrap64;
      var p := handlers[h];
      PublicValuesRoundTrip(p.pv);
      handlers := handlers[h := Failed(p.prev, p.batch)];
      if sent {
        var outcome := rollup.SubmitBatch(EncodePublicValues(p.pv), proof);
        if outcome.Ok? {
          log := Extended(cx, log, p.prev, p.batch);
          if seen {
            handlers := handlers[h := Settled(p.batch, p.pv.newRoot)];
          } else {
            log := log.(echoed := log.echoed + multiset(p.batch), stranded := true);
          }
        }
      }
    }

    /** The section that ends a request: restore the mempool after a failure, commit after settlement. */
    method Finish(h: nat) returns (r: Result<(), CommitError>)
      requires Valid() && h < |handlers| && (handlers[h].Failed? || handlers[h].Settled?)
      modifies sequencer, sequencer.canonicalState, this`handlers, this`log
      ensures Valid() && View() == Do(cx, old(View()), Action.Finish(h))
      ensures sequencer.canonicalState == old(sequencer.canonicalState)
      ensures handlers == old(handlers)[h := Done]
      ensures old(handlers[h]).Failed? ==>
                r == Ok(()) && sequencer.View() == Restored(cx, old(sequencer.View()), old(handlers[h]).batch)
      ensures old(handlers[h]).Settled? ==>
                var p := old(handlers[h]);
                (sequencer.View(), r) == Commit(cx, old(sequencer.View()), p.batch, p.newRoot)
    {
      hide Commit, Restored, Sift, CommitDropped;
      var p := handlers[h];
      handlers := handlers[h := Done];
      if p.Failed? {
        log := log.(dropped := log.dropped + multiset(Sift(cx, sequencer.View().speculative, p.batch).dropped));
        sequencer.RestoreMempool(p.batch);
        return Ok(());
      } else {
        log := log.(dropped := log.dropped + multiset(CommitDropped(cx, sequencer.View(), p.batch, p.newRoot)));
        r := sequencer.CommitBatch(p.batch, p.newRoot);
      }
    }

    /** The client disconnects while the request waits: nothing after its last section runs. */
    method Cancel(h: nat)
      requires Valid() && h < |handlers|
      modifies this`handlers, this`log
      ensures Valid() && View() == Do(cx, old(View()), Action.Cancel(h))
      ensures handlers == old(handlers)[h := Done]
    {
      var p := handlers[h];
      if p.Settled? {
        log := log.(stranded := true);
      } else if p != Done {
        log := log.(lost := log.lost + multiset(p.batch));
      }
      handlers := handlers[h := Done];
    }

    /** Steps 4 and 5 of a request whose proof is there, uninterrupted. */
    method SettleBatch(h: nat, sent: bool, proof: seq<byte>, seen: bool) returns (r: BatchResponse)
      requires Valid() && h < |handlers| && handlers[h].Proved?
      modifies sequencer, sequencer.canonicalState, rollup, this`handlers, this`log
      ensures Valid() && handlers == old(handlers)[h := Done]
      ensures var w, pv := old(View()), old(handlers[h]).pv;
              View() == Do(cx, Do(cx, w, Action.L1Returns(h, DeliveryOf(pv, sent, proof, seen))), Action.Finish(h))
      ensures var s, p := old(sequencer.View()), old(handlers[h]);
              var accepted := old(Accepted(handlers[h].pv, sent, proof));
              && rollup.stateRoot == (if accepted then p.pv.newRoot else old(rollup.stateRoot))
              && if !(accepted && seen) then r == L1Failed && sequencer.View() == Restored(cx, s, p.batch)
                 else
                   var done := Commit(cx, s, p.batch, p.pv.newRoot);
                   && sequencer.View() == done.0
                   && r == if done.1.Ok? then BatchSettledAt(p.pv.newRoot) else CommitFailed(done.1.error)
    {
      hide Do, Commit, Restored, DeliveryOf, EncodePublicValues;
      L1Returns(h, sent, proof, seen);
      var after := handlers[h];
      var committed := Finish(h);
      if after.Failed? {
        return L1Failed;
      }
      if committed.Err? {
        return CommitFailed(committed.error);
      }
      return BatchSettledAt(after.newRoot);
    }

    /**
     * `trigger_batch` from end to end, when no other request runs in between. Each outcome has its answer:
     * a request that fails to prove or to settle leaves the sequencer as it was, one whose proof does not
     * decode leaves it drained, and one that L1 accepts and confirms makes its speculative state canonical.
     */
    method TriggerBatch(proving: Proving, sent: bool, proof: seq<byte>, seen: bool) returns (r: BatchResponse)
      requires Valid()
      modifies this, sequencer, sequencer.canonicalState, rollup
      ensures Valid()
      ensures View() == Triggered(cx, old(View()), proving, pv => DeliveryOf(pv, sent, proof, seen))
      ensures r.MempoolEmpty? <==> old(sequencer.mempool) == []
      ensures old(sequencer.mempool) == [] ==> View() == old(View())
      ensures old(sequencer.mempool) != [] ==> handlers == old(handlers) + [Done]
      ensures old(Coherent(cx, sequencer.View())) && old(sequencer.mempool) != [] ==>
                var s, l1 := old(sequencer.View()), old(rollup.stateRoot);
                match proving
                case ProverError => r == ProveFailed && sequencer.View() == s && rollup.stateRoot == l1
                case Malformed =>
                  && r == MalformedAnswer
                  && sequencer.View() == s.(speculative := s.canonical, mempool := [])
                  && rollup.stateRoot == l1
                case Answer =>
                  var root := Root(cx, s.speculative);
                  var pv := PublicValues(s.canonicalRoot, root, BatchHash(cx, s.mempool));
                  var accepted := old(Accepted(pv, sent, proof));
                  && rollup.stateRoot == (if accepted then root else l1)
                  && if accepted && seen then
                       && r == BatchSettledAt(root)
                       && sequencer.View() ==
                            Sequencer(s.speculative, root, s.speculative, [], Wrap64(s.batchCount + 1))
                     else r == L1Failed && sequencer.View() == s
    {
      hide Do, Commit, Restored, Coherent, ApplyAll, Root, BatchHash, Accepted, Wrap64, DeliveryOf;
      ghost var s := sequencer.View();
      if Coherent(cx, s) {
        RoundTrips(cx, s);
      }
      var opening := OpenBatch();
      if opening == None {
        return MempoolEmpty;
      }
      var h := opening.value;
      ProverReturns(h, proving);
      if handlers[h] == Done {
        FinishOfDone(cx, View(), h);
        return MalformedAnswer;
      }
      if handlers[h].Failed? {
        var _ := Finish(h);
        return ProveFailed;
      }
      r := SettleBatch(h, sent, proof, seen);
    }

    /** The action an event amounts to in world `w`; one its handler is not waiting for changes nothing. */
    function ActionOf(w: World, e: Event): Action
    {
      match e
      case TxArrives(tx) => Action.SubmitTx(tx)
      case BatchRequested => Action.OpenBatch
      case ProverReplies(h, proving) => Action.ProverReturns(h, proving)
      case L1Replies(h, sent, proof, seen) =>
        Action.L1Returns(h, if At(w, h).Proved? then DeliveryOf(At(w, h).pv, sent, proof, seen) else NotSent)
      case LockGranted(h) => Action.Finish(h)
      case ClientLeaves(h) => Action.Cancel(h)
    }

    /** Run the one section of code that the event wakes. */
    method Perform(e: Event)
      requires Valid()
      modifies this, sequencer, sequencer.canonicalState, rollup
      ensures Valid() && sequencer.canonicalState == old(sequencer.canonicalState)
      ensures View() == Do(cx, old(View()), ActionOf(old(View()), e))
      ensures match e
              case TxArrives(tx) => View() == Do(cx, old(View()), Action.SubmitTx(tx))
              case BatchRequested => View() == Do(cx, old(View()), Action.OpenBatch)
              case ProverReplies(h, proving) => View() == Do(cx, old(View()), Action.ProverReturns(h, proving))
              case L1Replies(h, sent, proof, seen) =>
                if h < |old(handlers)| && old(handlers[h]).Proved? then
                  var p, accepted := old(handlers[h]), old(Accepted(handlers[h].pv, sent, proof));
                  && rollup.stateRoot == (if accepted then p.pv.newRoot else old(rollup.stateRoot))
                  && handlers[h] == if accepted && seen then Settled(p.batch, p.pv.newRoot) else Failed(p.prev, p.batch)
                else View() == old(View())
              case LockGranted(h) => View() == Do(cx, old(View()), Action.Finish(h))
              case ClientLeaves(h) => View() == Do(cx, old(View()), Action.Cancel(h))
    {
      hide DoSubmitTx, DoOpenBatch, DoProverReturns, DoL1Returns, DoRestore, DoCommit, DoCancel, DeliveryOf;
      match e
      case TxArrives(tx) =>
        var _ := SubmitTx(tx);
      case BatchRequested =>
        var _ := OpenBatch();
      case ProverReplies(h, proving) =>
        if h < |handlers| && handlers[h].Draining? {
          ProverReturns(h, proving);
        }
      case L1Replies(h, sent, proof, seen) =>
        if h < |handlers| && handlers[h].Proved? {
          L1Returns(h, sent, proof, seen);
        }
      case LockGranted(h) =>
        if h < |handlers| && (handlers[h].Failed? || handlers[h].Settled?) {
          var _ := Finish(h);
        }
      case ClientLeaves(h) =>
        if h < |handlers| {
          Cancel(h);
        }
    }

    /**
     * A node from startup through any list of events. Where it ends is where the protocol's run by the
     * matching actions ends, so in an ordinary run every theorem about `Run` holds of the node.
     */
    static method Serve(cx: Crypto, genesis: State, rollup: Rollup, events: seq<Event>)
      returns (node: Node?, ghost acts: seq<Action>)
      modifies rollup
      ensures node == null <==> old(rollup.stateRoot) != Root(cx, genesis.accounts)
      ensures node == null ==> rollup.View() == old(rollup.View())
      ensures node != null ==>
                var start := Boot(cx, genesis.accounts, old(rollup.View()));
                && fresh(node) && node.Valid() && node.cx == cx && node.rollup == rollup
                && |acts| == |events|
                && (forall i :: 0 <= i < |acts| ==> acts[i] == node.ActionOf(Exec(cx, start, acts[..i]), events[i]))
                && node.View() == Exec(cx, start, acts)
      ensures node != null && Sorted(genesis.accounts) && Ordinary(cx, node.View()) ==>
                Run(cx, genesis.accounts, old(rollup.View()), acts, node.View())
    {
      hide Do, Root, Ordinary, Sorted;
      acts := [];
      node := Start(cx, genesis, rollup);
      if node == null {
        return;
      }
      ghost var start := node.View();
      for k := 0 to |events|
        invariant node.Valid() && node.cx == cx && node.rollup == rollup
        invariant fresh(node) && fresh(node.sequencer) && fresh(node.sequencer.canonicalState)
        invariant |acts| == k
        invariant forall i :: 0 <= i < k ==> acts[i] == node.ActionOf(Exec(cx, start, acts[..i]), events[i])
        invariant node.View() == Exec(cx, start, acts)
      {
        ghost var before := acts;
        ghost var act := node.ActionOf(node.View(), events[k]);
        node.Perform(events[k]);
        acts := acts + [act];
        assert acts[..k] == before;
        assert forall i :: 0 <= i < k ==> acts[..i] == before[..i];
      }
    }
  }
}
