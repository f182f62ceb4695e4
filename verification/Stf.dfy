/** The state transition as the code runs it: on a store that changes in place. */
module Stf {
  import opened Wrappers
  import opened Bytes
  import opened SharedTypes
  import opened AccountStore
  import opened Ledger

  /** `apply_tx`: on an error the store is as it was. */
  method ApplyTx(cx: Crypto, state: State, tx: Tx) returns (r: Result<(), StfError>)
    modifies state
    ensures match Apply(cx, old(state.accounts), tx)
            case Ok(next) => r == Ok(()) && state.accounts == next
            case Err(e) => r == Err(e) && state.accounts == old(state.accounts)
    // The verdict, in the order of the checks.
    ensures var from, to := old(Lookup(state.accounts, tx.from)), old(Lookup(state.accounts, tx.to));
            r == if tx.from == tx.to then Err(SelfTransfer)
                 else if |tx.signature| != 65 then Err(BadSignature)
                 else if cx.recover(cx.keccak(SigningPayload(tx)), tx.signature) != Some(tx.from)
                 then Err(BadSignature)
                 else if from.nonce != tx.nonce then Err(NonceMismatch(from.nonce, tx.nonce))
                 else if from.balance < tx.amount then Err(InsufficientBalance(from.balance, tx.amount))
                 else if to.balance + tx.amount >= TWO_64 then Err(Overflow)
                 else Ok(())
    // What a transfer moves.
    ensures r.Ok? && old(Sorted(state.accounts)) ==>
              && Sorted(state.accounts) && Keys(state.accounts) == old(Keys(state.accounts)) + {tx.from, tx.to}
              && forall x: Address ::
                   var was, now := old(Lookup(state.accounts, x)), Lookup(state.accounts, x);
                   if x == tx.from then
                     && now.balance == was.balance - tx.amount
                     && now.nonce == if was.nonce + 1 == TWO_64 then 0 else was.nonce + 1
                   else if x == tx.to then now == was.(balance := was.balance + tx.amount)
                   else now == was
  {
    hide Lookup, Update;
    if tx.from == tx.to {
      return Err(SelfTransfer);
    }
    var recovered := RecoverAddress(cx, SigningHash(cx, tx), tx.signature);
    if recovered == None || recovered.value != tx.from {
      return Err(BadSignature);
    }

    var fromAcc := state.Get(tx.from);
    if fromAcc.nonce != tx.nonce {
      return Err(NonceMismatch(fromAcc.nonce, tx.nonce));
    }
    if fromAcc.balance < tx.amount {
      return Err(InsufficientBalance(fromAcc.balance, tx.amount));
    }

    var toAcc := state.Get(tx.to);
    if toAcc.balance + tx.amount > U64_MAX {
      return Err(Overflow);
    }

    fromAcc := Account(fromAcc.balance - tx.amount, NextNonce(fromAcc.nonce));
    toAcc := toAcc.(balance := toAcc.balance + tx.amount);
    state.Set(tx.from, fromAcc);
    state.Set(tx.to, toAcc);
    return Ok(());
  }

  /**
   * `apply_batch`, and with it the whole proved program: run every transaction on the store that was
   * handed over, then commit the old root, the new root and the batch hash.
   */
  method ApplyBatch(cx: Crypto, state: State, txs: seq<Tx>) returns (r: Result<PublicValues, StfError>)
    modifies state
    ensures match Ledger.ApplyBatch(cx, old(state.accounts), txs)
            case Ok(out) => state.accounts == out.0 && r == Ok(out.1)
            case Err(e) => r == Err(e)
    ensures match ApplyAll(cx, old(state.accounts), txs)
            case Ok(next) =>
              && state.accounts == next
              && r == Ok(PublicValues(old(Root(cx, state.accounts)), Root(cx, next), BatchHash(cx, txs)))
            case Err(e) => r == Err(e)
  {
    hide Apply;
    ghost var prev := state.accounts;
    var prevRoot := state.MerkleRoot(cx);
    for i := 0 to |txs|
      invariant ApplyAll(cx, state.accounts, txs[i..]) == ApplyAll(cx, prev, txs)
    {
      assert txs[i..][1..] == txs[i + 1..];
      var applied := ApplyTx(cx, state, txs[i]);
      if applied.Err? {
        return Err(applied.error);
      }
    }
    assert txs[|txs|..] == [];
    var newRoot := state.MerkleRoot(cx);
    var batchHash := HashBatch(cx, txs);
    return Ok(PublicValues(prevRoot, newRoot, batchHash));
  }
}
