/** The L1 contract: a root that advances when a proof checks out, and a count of advances. */
module Settlement {
  import opened Wrappers
  import opened Bytes
  import opened SharedTypes

  datatype RollupState = RollupState(stateRoot: Hash, batchCount: u64)

  datatype RollupError =
    | ZeroVerifier
    | ZeroProgramVKey
    | ProofRejected
    | BadPublicValues
    | StaleStateRoot(expected: Hash, actual: Hash)
    | EmptyNewRoot

  datatype BatchSettled = BatchSettled(batchNumber: u64, prevRoot: Hash, newRoot: Hash, batchHash: Hash)

  /** `submitBatch`, given the verifier's verdict: a new state and an event, or a revert. */
  function Submit(r: RollupState, publicValues: seq<byte>, proofOk: bool)
    : Result<(RollupState, BatchSettled), RollupError>
  {
    if !proofOk then Err(ProofRejected)
    else match DecodePublicValues(publicValues)
      case None => Err(BadPublicValues)
      case Some(pv) =>
        if pv.prevRoot != r.stateRoot then Err(StaleStateRoot(r.stateRoot, pv.prevRoot))
        else if IsZero(pv.newRoot) then Err(EmptyNewRoot)
        else
          var count := Wrap64(r.batchCount + 1);
          Ok((RollupState(pv.newRoot, count), BatchSettled(count, pv.prevRoot, pv.newRoot, pv.batchHash)))
  }

  /** The contract with its storage; `verify` is the verifier contract behind the `verifier` address. */
  class Rollup {
    const verifier: Address
    const programVKey: Hash
    const verify: (Hash, seq<byte>, seq<byte>) -> bool
    var stateRoot: Hash
    var batchCount: u64

    ghost function View(): RollupState
      reads this
    {
      RollupState(stateRoot, batchCount)
    }

    constructor (verifier: Address, programVKey: Hash, verify: (Hash, seq<byte>, seq<byte>) -> bool, genesisRoot: Hash)
      ensures View() == RollupState(genesisRoot, 0)
      ensures this.verifier == verifier && this.programVKey == programVKey && this.verify == verify
    {
      this.verifier, this.programVKey, this.verify := verifier, programVKey, verify;
      stateRoot, batchCount := genesisRoot, 0;
    }

    /** The Solidity constructor, which reverts on a zero verifier or a zero program key. */
    static method Deploy(
        verifier: Address, programVKey: Hash, verify: (Hash, seq<byte>, seq<byte>) -> bool, genesisRoot: Hash)
      returns (r: Result<Rollup, RollupError>)
      ensures r.Err? <==> verifier == 0 || IsZero(programVKey)
      ensures r.Err? ==> r.error == if verifier == 0 then ZeroVerifier else ZeroProgramVKey
      ensures r.Ok? ==> fresh(r.value) && r.value.View() == RollupState(genesisRoot, 0)
      ensures r.Ok? ==>
                r.value.verifier == verifier && r.value.programVKey == programVKey && r.value.verify == verify
    {
      if verifier == 0 {
        return Err(ZeroVerifier);
      }
      if IsZero(programVKey) {
        return Err(ZeroProgramVKey);
      }
      var rollup := new Rollup(verifier, programVKey, verify, genesisRoot);
      return Ok(rollup);
    }

    method SubmitBatch(publicValues: seq<byte>, proof: seq<byte>) returns (r: Result<BatchSettled, RollupError>)
      modifies this
      ensures match Submit(old(View()), publicValues, verify(programVKey, publicValues, proof))
              case Ok(out) => r == Ok(out.1) && View() == out.0
              case Err(e) => r == Err(e) && View() == old(View())
      ensures match r
              case Err(ProofRejected) => !verify(programVKey, publicValues, proof)
              case Err(BadPublicValues) => verify(programVKey, publicValues, proof) && |publicValues| < 96
              case Err(StaleStateRoot(expected, actual)) =>
                && verify(programVKey, publicValues, proof) && |publicValues| >= 96
                && expected == old(stateRoot) != publicValues[..32] == actual
              case Err(EmptyNewRoot) =>
                && verify(programVKey, publicValues, proof) && |publicValues| >= 96
                && publicValues[..32] == old(stateRoot)
                && forall i :: 32 <= i < 64 ==> publicValues[i] == 0
              case Err(_) => false
              case Ok(event) =>
                && verify(programVKey, publicValues, proof) && |publicValues| >= 96
                && publicValues[..32] == old(stateRoot) == event.prevRoot
                && publicValues[32..64] == stateRoot == event.newRoot
                && (exists i :: 32 <= i < 64 && publicValues[i] != 0)
                && publicValues[64..96] == event.batchHash
                && batchCount == Wrap64(old(batchCount) + 1) == event.batchNumber
      ensures r.Err? ==> View() == old(View())
    {
      if !verify(programVKey, publicValues, proof) {
        return Err(ProofRejected);
      }
      var decoded := DecodePublicValues(publicValues);
      if decoded == None {
        return Err(BadPublicValues);
      }
      var pv := decoded.value;
      ZeroHashBytes(pv.newRoot);
      assert forall i :: 0 <= i < 32 ==> pv.newRoot[i] == publicValues[32 + i];
      if pv.prevRoot != stateRoot {
        return Err(StaleStateRoot(stateRoot, pv.prevRoot));
      }
      if IsZero(pv.newRoot) {
        return Err(EmptyNewRoot);
      }
      stateRoot := pv.newRoot;
      batchCount := Wrap64(batchCount + 1);
      return Ok(BatchSettled(batchCount, pv.prevRoot, pv.newRoot, pv.batchHash));
    }
  }
}
