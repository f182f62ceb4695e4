/** The sequencer as the code runs it: methods that change five fields behind one lock. */
module SequencerService {
  import opened Wrappers
  import opened Bytes
  import opened SharedTypes
  import opened AccountStore
  import opened Ledger
  import opened Sequencing
  import Stf

  lemma RestoredStep(cx: Crypto, s: Sequencer, tx: Tx, rest: seq<Tx>)
    ensures Restored(cx, s, [tx] + rest) ==
            match Admit(cx, s, tx)
            case Ok(next) => Restored(cx, next, rest)
            case Err(_) => Restored(cx, s, rest)
  {
    hide Apply;
    assert ([tx] + rest)[1..] == rest;
    match Apply(cx, s.speculative, tx)
    case Ok(b) =>
      assert s.mempool + ([tx] + Sift(cx, b, rest).kept) == (s.mempool + [tx]) + Sift(cx, b, rest).kept;
    case Err(_) =>
  }

  class SequencerState {
    const cx: Crypto
    var canonicalState: State
    var canonicalRoot: Hash
    var speculativeState: State
    var mempool: seq<Tx>
    var batchCount: u64

    /** The two states are separate objects: speculating never touches what L1 accepted. */
    ghost predicate Valid()
      reads this
    {
      canonicalState != speculativeState
    }

    ghost function View(): Sequencer
      reads this, canonicalState, speculativeState
    {
      Sequencer(canonicalState.accounts, canonicalRoot, speculativeState.accounts, mempool, batchCount)
    }

    constructor FromGenesis(cx: Crypto, state: State)
      ensures Valid() && fresh(canonicalState) && fresh(speculativeState)
      ensures this.cx == cx && View() == Sequencing.FromGenesis(cx, state.accounts)
      ensures View() == Sequencer(state.accounts, Root(cx, state.accounts), state.accounts, [], 0)
    {
      var root := state.MerkleRoot(cx);
      var canonical := new State.Clone(state);
      var speculative := new State.Clone(state);
      this.cx := cx;
      canonicalState, canonicalRoot, speculativeState := canonical, root, speculative;
      mempool, batchCount := [], 0;
    }

    method AdmitTx(tx: Tx) returns (r: Result<(), StfError>)
      requires Valid()
      modifies this`speculativeState, this`mempool
      ensures Valid() && (speculativeState == old(speculativeState) || fresh(speculativeState))
      ensures match Admit(cx, old(View()), tx)
              case Ok(next) => r == Ok(()) && View() == next
              case Err(e) => r == Err(e) && View() == old(View())
      ensures match Apply(cx, old(speculativeState.accounts), tx)
              case Ok(next) =>
                && r == Ok(())
                && View() == old(View()).(speculative := next, mempool := old(mempool) + [tx])
              case Err(e) => r == Err(e) && View() == old(View())
    {
      hide Apply;
      var next := new State.Clone(speculativeState);
      r := Stf.ApplyTx(cx, next, tx);
      if r.Ok? {
        speculativeState := next;
        mempool := mempool + [tx];
      }
    }

    method DrainForBatch() returns (prev: State, batch: seq<Tx>)
      requires Valid()
      modifies this`speculativeState, this`mempool
      ensures Valid() && fresh(prev) && fresh(speculativeState) && prev != speculativeState
      ensures prev.accounts == old(View()).canonical && batch == old(mempool)
      ensures View() == Drained(old(View()))
      ensures View() == old(View()).(speculative := old(canonicalState.accounts), mempool := [])
    {
      prev := new State.Clone(canonicalState);
      batch := mempool;
      mempool := [];
      speculativeState := new State.Clone(canonicalState);
    }

    method RestoreMempool(batch: seq<Tx>)
      requires Valid()
      modifies this`speculativeState, this`mempool
      ensures Valid() && (speculativeState == old(speculativeState) || fresh(speculativeState))
      ensures View() == Restored(cx, old(View()), batch)
      ensures var sieve := Sift(cx, old(speculativeState.accounts), batch);
              View() == old(View()).(speculative := sieve.state, mempool := old(mempool) + sieve.kept)
    {
      hide Apply;
      for i := 0 to |batch|
        invariant Valid() && (speculativeState == old(speculativeState) || fresh(speculativeState))
        invariant Restored(cx, View(), batch[i..]) == Restored(cx, old(View()), batch)
      {
        assert batch[i..] == [batch[i]] + batch[i + 1..];
        RestoredStep(cx, View(), batch[i], batch[i + 1..]);
        var _ := AdmitTx(batch[i]);
      }
      assert batch[|batch|..] == [];
    }

    method CommitBatch(batch: seq<Tx>, newRoot: Hash) returns (r: Result<(), CommitError>)
      requires Valid()
      modifies this, canonicalState
      ensures Valid() && canonicalState == old(canonicalState)
      ensures speculativeState == old(speculativeState) || fresh(speculativeState)
      ensures (View(), r) == Commit(cx, old(View()), batch, newRoot)
    {
      hide Apply, Root;
      for i := 0 to |batch|
        invariant Valid() && unchanged(this) && unchanged(speculativeState)
        invariant ApplyAll(cx, canonicalState.accounts, batch[i..]) == ApplyAll(cx, old(canonicalState.accounts), batch)
        invariant AppliedPrefix(cx, canonicalState.accounts, batch[i..]) ==
                  AppliedPrefix(cx, old(canonicalState.accounts), batch)
      {
        assert batch[i..][1..] == batch[i + 1..];
        var applied := Stf.ApplyTx(cx, canonicalState, batch[i]);
        if applied.Err? {
          return Err(Diverged(applied.error));
        }
      }
      assert batch[|batch|..] == [];

      var recomputed := canonicalState.MerkleRoot(cx);
      if recomputed != newRoot {
        return Err(RootMismatch(recomputed, newRoot));
      }
      canonicalRoot := newRoot;
      batchCount := Wrap64(batchCount + 1);

      var spec := new State.Clone(canonicalState);
      var kept := [];
      for i := 0 to |mempool|
        invariant spec != canonicalState && fresh(spec)
        invariant canonicalState == old(canonicalState) && speculativeState == old(speculativeState)
        invariant canonicalState.accounts == ApplyAll(cx, old(canonicalState.accounts), batch).value
        invariant mempool == old(mempool) && canonicalRoot == newRoot && batchCount == Wrap64(old(batchCount) + 1)
        invariant var all, rest := Sift(cx, canonicalState.accounts, mempool), Sift(cx, spec.accounts, mempool[i..]);
                  all.state == rest.state && all.kept == kept + rest.kept
      {
        assert mempool[i..][1..] == mempool[i + 1..];
        var applied := Stf.ApplyTx(cx, spec, mempool[i]);
        if applied.Ok? {
          kept := kept + [mempool[i]];
        }
      }
      assert mempool[|mempool|..] == [] && kept + [] == kept;
      mempool := kept;
      speculativeState := spec;
      return Ok(());
    }
  }
}
