# Verification of the rollup's ledger and settlement protocol

This project models the zk-rollup's ledger, its sequencer and its settlement on L1 as one system, and
proves what holds over every run of it. `dafny verify dfyconfig.toml` checks everything.

The layers, from the bottom up:

| file | what it is |
|---|---|
| `Wrappers.dfy`, `Bytes.dfy` | `Option` and `Result`; bytes, 64-bit words, big-endian encodings |
| `SharedTypes.dfy` | addresses, accounts, transactions, the byte strings that are hashed and what they bind |
| `AccountStore.dfy` | the account store: a vector with binary search, changed in place; its meaning as a map |
| `Ledger.dfy` | the state transition as a function, when a batch applies, and the laws of the ledger |
| `Stf.dfy` | `apply_tx` and `apply_batch` as they run, on a store that changes in place |
| `Genesis.dfy` | building the store from the genesis list |
| `Sequencing.dfy` | what the sequencer's operations compute, what they keep, which transactions survive |
| `SequencerService.dfy` | `SequencerState` as it runs, every method proved equal to its function in `Sequencing` |
| `Settlement.dfy` | the `Rollup` contract |
| `L1Validity.dfy` | what the contract guarantees against any submitters |
| `Protocol.dfy` | the settlement protocol as a transition system, and its invariant |
| `Disturbances.dfy` | which steps lose transactions or strand the sequencer |
| `Safety.dfy` | every step keeps the invariant |
| `Guarantees.dfy`, `Accounting.dfy` | what that means for L1, for the operator and for each transaction |
| `Quiescence.dfy` | every run that is not stranded can be brought to rest with everything settled |
| `LateInclusion.dfy` | a submission that L1 includes after it was given up on is a lost receipt |
| `Routes.dfy` | the request handlers as they run, each section proved to be one action, whole lives of a node one run |

How to read the main results:

* **Two primitives, no axioms.** keccak256 and secp256k1 recovery are two arbitrary functions in the
  value `Crypto`. Results about roots end in "or here are two inputs that collide", or assume that the
  ledgers of the run at hand do not collide (`NoRootCollision`). Nothing assumes keccak is injective.
* **Runs.** A run is any list of actions: submit, open a batch, a prover answer, an L1 outcome, finish
  under the lock, cancel. Each action is one section under the lock, one prover answer or one L1
  transaction, so the lists are all interleavings of any number of requests. Actions that do not fit are
  no-ops. The `Log` in a `World` is a record that no step reads.
* **An ordinary run** is one whose recorded ledgers hold no keccak collision and in which fewer than
  2^64 transactions were settled. The second half is needed because the nonce increment is unchecked:
  in a release build it wraps (no profile in `Cargo.toml` turns overflow checks on).
* **Any genesis.** Results about runs start from a sorted genesis vector, which every genesis list that
  parses yields (`GenesisMeaning`), and a contract whose root is its root, which the node checks before it
  serves. That nothing overflows assumes that the genesis supply fits in 64 bits. The results on which
  transactions survive do not: they state when all do, on senders and on receiver room, and which are lost.
* **What can go wrong is in the model.** A receipt may be lost after L1 executed the transaction, a
  handler may be cancelled when its client disconnects, and the prover may answer with bytes that do not
  decode. `Strands` and `Loses` say of one step, from the world it meets, whether it is such a mishap; the
  results say exactly what each costs. Agreement holds if and only if no step strands
  (`AgreementExactly`), and nothing accepted is lost if and only if no step loses (`DisturbancesExactly`).
* **Inclusion after giving up.** An error while waiting for a receipt may be followed by the inclusion,
  after the batch was restored. The protocol has no action for that: L1 can accept the submission only if
  it has accepted nothing since, so the acceptance commutes back over all that the sequencer did in
  between, and the run is one with a lost receipt (`LateInclusionIsLostReceipt`).

Where the repository's prose and its code differ, the model follows the code. `README.md` and the
comments in `routes.rs` say a failed batch restores the mempool so that no intent is lost; the three early
returns at `routes.rs:253-260` do not, and `FailedBatchUndoneExactly` states the difference. Sequential
nonces are described as what keeps transactions distinct; `ExactlyOnce` gives the limit of that, 2^64
transactions of one sender. The comments at `state.rs:56-58` and `routes.rs:278-280` have a failed batch
restored, except what conflicts, and `state.rs:87-90` has pending transactions kept. What that excepts is
common. A drain resets the speculative state, so a sender with a batch under way is admitted again from the
canonical nonce on, where that batch starts too; whichever way the batch goes, the sender loses transactions
(`SharedSenderLosesEitherWay`). `FlightSurvival` and `PendingSurvival` say exactly when everything comes
through: no shared sender, and room for every receiver in its 64 bits. `FlightLoses` and `PendingLoses` say
which transactions a shared sender costs. `SupplyGivesRoom` shows that room cannot run out while everything
in circulation fits in one word, and `ConfluenceNeedsSupplyBound` is an input with which it does.

## Model

| member | source | states |
|---|---|---|
| SharedTypes.AddressOrder | crates/shared-types/src/lib.rs:15-16 | the derived byte-wise order on addresses is the numeric order the model sorts by |
| SharedTypes.SigningPayloadLayout | crates/shared-types/src/lib.rs:59-70 | the signed bytes spell sender, receiver, amount and nonce, in that order and at those widths |
| SharedTypes.FullEncodingLayout | crates/shared-types/src/lib.rs:72-84 | the bytes of a transaction in a batch are the same fields, then the signature |
| SharedTypes.EncodeAccountsLayout | crates/shared-types/src/lib.rs:118-129 | the bytes a root hashes spell, entry by entry in vector order, address, balance and nonce |
| SharedTypes.EncodeBatchLayout | crates/shared-types/src/lib.rs:138-147 | the bytes a batch hash hashes are the hashes of the whole transactions in order |
| SharedTypes.PublicValuesLayout | crates/shared-types/src/lib.rs:157-163 | the committed words are old root, new root and batch hash, in that order |
| SharedTypes.RootBinding | crates/shared-types/src/lib.rs:118-129 | two account vectors with one root, sorted or not, are equal, or their encodings are a keccak collision |
| SharedTypes.SigningHashBinding | crates/shared-types/src/lib.rs:61-70 | equal signing hashes mean equal sender, receiver, amount and nonce, or a collision |
| SharedTypes.BatchHashBinding | crates/shared-types/src/lib.rs:74-84 | equal batch hashes mean the same transactions in the same order, signatures included, or a collision of the batch or of one transaction |
| SharedTypes.HashBatch | crates/shared-types/src/lib.rs:139-147 | the hashing loop returns keccak of the concatenated full hashes |
| SharedTypes.PublicValuesRoundTrip | crates/sp1-program-stf/src/main.rs:20-21 | decoding the committed 96 bytes gives back the three words |
| AccountStore.State.BinarySearchByKey | crates/shared-types/src/lib.rs:105-115 | the search loop returns what the recursive search returns, on any vector |
| AccountStore.SearchSorted | crates/shared-types/src/lib.rs:105-115 | on a sorted vector a key is found if and only if it is listed, and a failed search names the only place that keeps the order |
| AccountStore.State.Get | crates/shared-types/src/lib.rs:104-109 | on a sorted vector returns the listed account, and the zero account if and only if none is listed |
| AccountStore.State.Set | crates/shared-types/src/lib.rs:111-116 | overwrites or inserts in place; a sorted vector stays sorted and exactly one binding changes |
| AccountStore.UpdateIsMapUpdate | crates/shared-types/src/lib.rs:111-116 | on every sorted vector `set` is a map update: keys grow by the key, every other lookup is unchanged |
| AccountStore.SortedUnique | crates/shared-types/src/lib.rs:95-96 | a ledger has exactly one sorted vector, so one root |
| AccountStore.State.MerkleRoot | crates/shared-types/src/lib.rs:119-129 | the hashing loop returns keccak of the fixed-width records of all entries in order |
| AccountStore.UpdateSum | crates/stf/src/lib.rs:55-56 | setting one account moves the total of balances or nonces by that account's change, inserted accounts included |
| AccountStore.TwoBalancesWithinSupply | crates/stf/src/lib.rs:48-49 | two different accounts never hold more than the whole supply |
| Stf.ApplyTx | crates/stf/src/lib.rs:24-59 | the verdict is that of the first check that fails, over keccak of the signed bytes; on success the sender pays and its nonce advances, the receiver is paid, all else stays; on an error the store is untouched |
| Stf.ApplyBatch | crates/stf/src/lib.rs:68-89 | the loop ends in the state all transfers lead to and commits its old root, its new root and the batch hash, or returns the first error |
| Ledger.ApplyEffect | crates/stf/src/lib.rs:34-58 | a transfer debits, credits and advances one nonce, touches no other account, keeps order and supply |
| Ledger.NoOverflow | crates/stf/src/lib.rs:48-49 | with the supply within one word `Overflow` never occurs, and a transfer applies if and only if signature, nonce and balance are right |
| Ledger.LedgerEquation | crates/stf/src/lib.rs:72-74 | after a batch each balance is start plus credits minus debits and each nonce is start plus transactions sent, modulo 2^64 |
| Ledger.BatchAppliesExactly | crates/stf/src/lib.rs:24-89 | a batch applies if and only if each transaction is authorised, carries the nonce due, is funded and leaves its receiver room, all told from the start state and tallies; without room alone it fails on overflow |
| Ledger.Judgement | crates/stf/src/lib.rs:24-58 | the verdict on a transaction after any batch, each error with its reason and its numbers |
| Ledger.SupplyGivesRoom | crates/stf/src/lib.rs:48-49 | with the supply within one word a payable batch always has room, so it applies |
| Ledger.NoTheft | crates/stf/src/lib.rs:31-56 | after a batch each balance is start plus credits minus debits, every transaction was authorised and funded, and only senders hold less than before |
| Ledger.BatchKeeps | crates/stf/src/lib.rs:72-74 | a batch keeps the vector sorted, conserves the supply and lists exactly the old addresses, senders and receivers |
| Ledger.NonceSumCounts | crates/stf/src/lib.rs:52-52 | the sum of all nonces grows by one per transaction, less 2^64 for each nonce that wrapped |
| Ledger.PermutationInvariance | crates/stf/src/lib.rs:68-89 | any two orders of one batch that both apply end in the same vector |
| Ledger.DominatingApplies | crates/stf/src/lib.rs:24-59 | on any ledger in which its senders have the same nonces and no less balance, a batch that applied applies again if and only if receivers have room, else it overflows |
| Ledger.AppliesAfterExactly | crates/stf/src/lib.rs:35-49 | of two batches that each apply, one applies after the other if and only if they share no sender and its receivers have room then, both told from before; for a first batch in which no sender sends 2^64 transactions |
| Ledger.DisjointAppliesAfter | crates/stf/src/lib.rs:48-49 | when no sender is shared the second batch is payable, and without room it fails on overflow and nothing else; no bound on its length |
| Ledger.ConfluenceExactly | crates/stf/src/lib.rs:24-59 | two batches that each apply do so in an order if and only if they share no sender and that order leaves room, whatever the supply, for a first batch in which no sender sends 2^64 transactions; if both orders apply they lead to one vector |
| Ledger.Confluence | crates/stf/src/lib.rs:24-59 | with the supply within one word both orders always apply, with one result |
| Ledger.ConfluenceNeedsSupplyBound | crates/stf/src/lib.rs:48-49 | without the supply bound two such transfers exist of which neither applies after the other |
| Ledger.NonceInSequence | crates/stf/src/lib.rs:35-40 | the i-th transaction carries its sender's start nonce plus the number it sent before |
| Ledger.ExactlyOnce | crates/stf/src/lib.rs:52-52 | no (sender, nonce) occurs twice in a list that applied if and only if no sender sent more than 2^64 transactions |
| Ledger.BatchMoves | crates/stf/src/lib.rs:52-52 | a non-empty batch of fewer than 2^64 transactions never returns to the vector it started from |
| Genesis.IntoState | crates/sequencer/src/genesis.rs:26-40 | the loop fails at the first bad address and otherwise builds the fold of all entries |
| Genesis.GenesisMeaning | crates/sequencer/src/genesis.rs:26-40 | the store is sorted, lists exactly the named addresses, and the last entry of each wins |
| Genesis.GenesisOrder | crates/sequencer/src/genesis.rs:26-40 | with distinct addresses the order of the list changes neither vector nor root |
| SequencerService.SequencerState.FromGenesis | crates/sequencer/src/state.rs:23-32 | both states are copies of genesis, the root is theirs, mempool and count are empty |
| SequencerService.SequencerState.AdmitTx | crates/sequencer/src/state.rs:36-43 | on success the speculative state advances and the transaction joins the mempool; on error nothing changes |
| SequencerService.SequencerState.DrainForBatch | crates/sequencer/src/state.rs:47-54 | hands out a copy of canonical and the whole mempool, and resets speculative to canonical |
| SequencerService.SequencerState.RestoreMempool | crates/sequencer/src/state.rs:59-67 | the re-admission loop equals sifting the batch on the speculative state |
| SequencerService.SequencerState.CommitBatch | crates/sequencer/src/state.rs:72-95 | the re-apply loop, the root check and the retaining loop equal the specification, on success and on both failures |
| Sequencing.AppliedPrefixExactly | crates/sequencer/src/state.rs:73-76 | a batch that fails midway leaves the state of exactly the transactions before the first that fails |
| Sequencing.SiftNext | crates/sequencer/src/state.rs:91-92 | each transaction is kept if and only if it applies to the state its kept predecessors leave |
| Sequencing.DecidedInTurn | crates/sequencer/src/state.rs:91-92 | exactly the transactions that apply in their turn are kept and the others dropped, both in the order they came |
| Sequencing.SiftKeeps | crates/sequencer/src/state.rs:59-67 | what is kept applies as a batch and ends in the new speculative state; kept and dropped together are the input |
| Sequencing.SiftAll | crates/sequencer/src/state.rs:91-92 | nothing is dropped if and only if the list applies as a whole |
| Sequencing.AdmitKeeps | crates/sequencer/src/state.rs:36-43 | admission keeps speculative equal to canonical with the whole mempool applied |
| Sequencing.RestoreKeeps | crates/sequencer/src/state.rs:59-67 | so does a restore of any batch |
| Sequencing.CommitKeeps | crates/sequencer/src/state.rs:87-93 | so does a commit that succeeds |
| Sequencing.DrainRestoreIdentity | crates/sequencer/src/state.rs:47-67 | draining and restoring with nothing between gives back the same sequencer |
| Sequencing.CommitSurvival | crates/sequencer/src/state.rs:87-93 | a commit keeps the whole mempool if and only if no pending sender is in the batch and the pending receivers have room, for a batch in which no sender sends 2^64 transactions; a supply within one word gives room |
| Sequencing.RestoreSurvival | crates/sequencer/src/state.rs:56-67 | a restore keeps its whole batch if and only if nothing settled since its snapshot and nothing pending shares a sender and the receivers have room, when no sender has 2^64 transactions among those; a supply within one word gives room |
| Sequencing.UsedNonceDropped | crates/sequencer/src/state.rs:62-63 | when two lists each apply and the first ran, re-running the second drops each sender's first transactions, as many as it has in the first if fewer than 2^64, with a nonce mismatch |
| Sequencing.SiftReason | crates/sequencer/src/state.rs:62-63 | with the supply within one word an authorised transaction is dropped only because its nonce is not the one due or its funds are gone, given as numbers |
| Sequencing.PendingNonceExact | web/app.tsx:132-134 | canonical nonce plus pending count is the speculative nonce, so a signed transaction meets a nonce error if and only if it uses another |
| Sequencing.AdmitExactly | crates/sequencer/src/state.rs:34-43 | admission is decided by signature, pending nonce and pending balance, read off canonical state and mempool |
| Settlement.Rollup.Deploy | contracts/src/Rollup.sol:35-41 | deployment reverts if and only if the verifier or the program key is zero; otherwise the contract holds all four arguments and a zero count |
| Settlement.Rollup.SubmitBatch | contracts/src/Rollup.sol:47-62 | told from the calldata bytes: which check fails first and with which roots, or that the root becomes the second word, the count advances and the event carries number, old root, new root and batch hash; a revert changes nothing |
| L1Validity.Validity | contracts/src/Rollup.sol:47-62 | after any calls by anyone the root is that of the ledger the accepted transactions reach from genesis, sorted, with the genesis supply and a right count, or some caller holds a collision |
| L1Validity.AcceptedCall | contracts/src/Rollup.sol:53-56 | an accepted call was proved on the true current ledger, whatever state its prover claimed, or is a collision |
| L1Validity.EventsChain | contracts/src/Rollup.sol:53-61 | the events of any calls by anyone lead from the deployed root to the present one, each from the root before it, numbered without a gap, one for each accepted call |
| L1Validity.NoTheftOnL1 | contracts/src/Rollup.sol:47-62 | whoever submits, no account on L1 ever lost anything but by transfers it signed, in nonce order and within its funds, or some caller holds a collision |
| L1Validity.PublishedBatchesReplay | crates/shared-types/src/lib.rs:72-84 | any batches whose hashes are those of the events are the accepted batches, and genesis with them replays to the contract's root, or there is a collision |
| Disturbances.DisturbancesExactly | crates/sequencer/src/routes.rs:253-301 | over every run: stranded if and only if some step was an execution unseen or the cancellation of a settled handler; something lost if and only if some step was an undecodable answer or the cancellation of an unsettled one |
| Safety.RootsDistinct | crates/sequencer/src/routes.rs:273-285 | no two ledgers that an ordinary run settles have one root |
| Safety.StepKeeps | crates/sequencer/src/routes.rs:221-314 | every action keeps the invariant that ties L1, canonical, speculative, mempool and all handlers together |
| Safety.Safety | crates/sequencer/src/routes.rs:221-314 | the invariant holds after every interleaving from a genesis the contract agrees with |
| Guarantees.AgreementExactly | crates/sequencer/src/routes.rs:221-301 | L1 and canonical are in step, or exactly one handler is settled and L1 is ahead by exactly its batch; this holds if and only if no step of the run was an execution unseen or the cancellation of a settled handler |
| Guarantees.CommitNeverFails | crates/sequencer/src/state.rs:72-95 | whenever a commit is due it succeeds: every transaction re-applies and the recomputed root is L1's |
| Guarantees.SettlesExactly | contracts/src/Rollup.sol:53-54 | a proved batch is accepted if and only if its snapshot is the canonical state, nothing is outstanding and its root is not zero |
| Guarantees.StaleForever | crates/sequencer/src/routes.rs:273-285 | a batch drained from a ledger L1 has left never settles in any continuation, and L1 rejects its proof whenever it is submitted |
| Guarantees.StrandedForever | crates/sequencer/src/l1.rs:76-85 | after a lost receipt or a cancelled settled handler neither L1 nor canonical ever moves again |
| Guarantees.BatchCounters | contracts/src/Rollup.sol:56-59 | in every run L1's counter counts settled batches and the sequencer's those canonical has taken; in step, from a contract at zero, they are equal |
| Guarantees.LostReceiptDuplicates | crates/sequencer/src/l1.rs:76-79 | a lost receipt leaves the same transactions settled on L1 and pending in the sequencer |
| Guarantees.SettledExactlyOnce | crates/sequencer/src/routes.rs:221-301 | settled transactions replay from genesis to L1's root, none settles twice, and each sender's nonces run on from genesis in order |
| Guarantees.PendingExtendsSettled | crates/sequencer/src/state.rs:8-13 | canonical history followed by the mempool replays from genesis to the speculative state, no nonce used twice while both together are at most 2^64 transactions |
| Guarantees.SpeculativeRefinement | crates/sequencer/src/state.rs:8-13 | after every step speculative is canonical with the whole mempool applied in order |
| Guarantees.SupplyConserved | crates/stf/src/lib.rs:48-56 | canonical, speculative and every settled ledger hold the genesis supply |
| Guarantees.AdmissionJudged | crates/sequencer/src/routes.rs:191-207 | in every reachable state and for any supply, the answer to a submission, each error with its reason and numbers, told from canonical state and mempool |
| Guarantees.AdmittedExactly | crates/sequencer/src/routes.rs:191-207 | in every reachable state admission is decided by signature, pending nonce and pending balance, and never overflows |
| Guarantees.RestoreDropsForCause | crates/sequencer/src/state.rs:59-67 | in every run with the genesis supply within one word, a restore meets no overflow and no bad signature: what it drops has a nonce not due or too little funds |
| Guarantees.CommitDropsForCause | crates/sequencer/src/state.rs:87-93 | the same of the mempool at every commit |
| Guarantees.SettledMoneySafe | crates/sequencer/src/routes.rs:221-301 | what is settled was all authorised and funded, and each L1 balance is genesis plus credits minus debits |
| Guarantees.FlightSurvival | crates/sequencer/src/routes.rs:276-284 | in any run a failed batch comes back whole, however much settled meanwhile, if and only if no sender of it settled or has anything pending since its snapshot and its receivers have room, when no sender has 2^64 transactions among those |
| Guarantees.FlightLoses | crates/sequencer/src/state.rs:59-67 | otherwise the restore drops, of each such sender, the first transactions of the batch, as many as it has settled and pending since if fewer than 2^64 |
| Guarantees.PendingAfterCommit | crates/sequencer/src/state.rs:87-93 | in any run a commit leaves pending exactly the transactions that apply in their turn on the settled ledger, in the order they came |
| Guarantees.PendingSurvival | crates/sequencer/src/routes.rs:291-301 | in any run a commit keeps the whole mempool if and only if no pending sender is in its batch and the pending receivers have room |
| Guarantees.PendingLoses | crates/sequencer/src/state.rs:87-93 | otherwise the commit drops, of each sender in the batch, the first pending transactions, as many as the batch holds of it |
| Guarantees.SharedSenderLosesEitherWay | crates/sequencer/src/state.rs:47-95 | a sender with transactions in a batch under way on the canonical state and others pending loses some whether that batch is restored or committed, when no sender has 2^64 in either |
| Guarantees.OpenedBatchProves | crates/sequencer/src/state.rs:47-54 | in any run, in step or not, a batch opened and proved proves the speculative state and root of just before the drain, from the canonical root |
| Guarantees.FailedBatchUndoneExactly | crates/sequencer/src/routes.rs:235-260 | an uninterrupted request whose proof fails leaves the sequencer as it was; one with undecodable bytes loses the drained transactions |
| Guarantees.SmoothBatchSettles | crates/sequencer/src/routes.rs:221-314 | an undisturbed batch makes the speculative state canonical and has L1 stand for it |
| Accounting.EveryIntentAccounted | crates/sequencer/src/routes.rs:224-301 | in every run, whatever fails, accepted transactions, plus, for each batch L1 executed unseen, its transactions once more, are exactly those pending, in flight, settled, dropped or lost, as multisets |
| Accounting.UndisturbedRuns | crates/sequencer/src/routes.rs:224-301 | a list of actions without lost receipts, undecodable answers and cancellations loses nothing and strands nothing |
| Accounting.UndisturbedAccounting | crates/sequencer/src/routes.rs:224-301 | when no step lost transactions and no execution went unseen, accepted transactions are exactly those pending, in flight, settled and dropped |
| Quiescence.EveryRunCanClose | crates/sequencer/src/routes.rs:221-314 | from every world that is not stranded, a list of actions that depends only on the number of handlers ends all of them with the mempool empty and L1, canonical and speculative state at one ledger, and loses nothing, unless that ledger's root is the zero hash the contract refuses |
| Quiescence.EveryIntentEnds | crates/sequencer/src/routes.rs:221-314 | after it each accepted transaction is settled, dropped or lost, exactly as often as accepted, and none is lost unless some step lost one |
| LateInclusion.LateInclusionIsLostReceipt | crates/sequencer/src/l1.rs:72-85 | a submission given up on and accepted after any further steps ends in the world in which it was accepted unseen at once |
| Routes.Node.Start | crates/sequencer/src/main.rs:50-75 | builds the shared state on the given contract, all its parts fresh, or refuses on a root mismatch |
| Routes.Node.SubmitTx | crates/sequencer/src/routes.rs:191-207 | the locked section of `/tx` is the submit action; it queues the transaction, or answers the verdict on it and changes nothing |
| Routes.Node.OpenBatch | crates/sequencer/src/routes.rs:224-230 | the first locked section of `/batch` is the open action: it refuses an empty mempool, or hands canonical state and mempool to a new handler |
| Routes.Node.ProverReturns | crates/sequencer/src/routes.rs:235-260 | the prover action: a failure leaves the handler to restore, an undecodable answer ends it, an answer carries both roots and the batch hash |
| Routes.Node.L1Returns | crates/sequencer/src/routes.rs:274-285 | the L1 action: the root moves exactly when the proof is sent, good and current with a non-zero new root; the handler is settled exactly when that was seen, else it restores |
| Routes.Node.Finish | crates/sequencer/src/routes.rs:281-301 | the last locked section restores or commits |
| Routes.Node.TriggerBatch | crates/sequencer/src/routes.rs:221-314 | the request from end to end, uninterrupted: the answer, the sequencer and the L1 root for each outcome; it settles exactly when L1 accepts and the receipt is seen, and other failures leave the sequencer as it was, undecodable bytes leave it drained |
| Routes.Node.Perform | crates/sequencer/src/routes.rs:191-314 | each event runs the section it wakes: the matching action, and for an L1 answer its effect on root and handler |
| Routes.Node.Serve | crates/sequencer/src/main.rs:50-91 | a node started and driven by any list of events ends where the run by the matching actions ends, and in an ordinary run satisfies `Run` |

## Left out

- SP1, the ELF and the proof system: a prover fails, answers undecodably, or returns the program's true public values; the verifier's verdict is a boolean.
- A prover that returns well-formed but false public values which the verifier still accepts, as the mock verifier would: outside the sequencer results; `Validity` takes soundness as its hypothesis.
- L1 submitters other than this sequencer, in the agreement results only: `Validity` covers all submitters. L1 reorganisations are not modelled.
- keccak256 and secp256k1 internals, and the normalisation of the recovery byte: two arbitrary functions.
- HTTP, JSON, bincode, hex and environment handling: a genesis address is parsed text or `None`; a transaction arrives as a value.
- The `batch_number` of the `/batch` response, which is read in a later lock section and may be another batch's.
- `Routes.Node.TriggerBatch` has no other request between its sections; interleavings are the subject of `Protocol`.
- Debug builds, in which nonce and counter overflow panics instead of wrapping.
- A handler cancelled while its L1 transaction is on the way is two actions, the L1 outcome and then the cancellation, not one.
- A sequencer whose commit has failed: `CommitNeverFails` shows it is not reached; the state such a call would leave is modelled in `Commit` and in the method.
- A client's nonce above 2^53, which the browser would round: the pending-nonce formula is over integers.
- The React UI otherwise, the Bun orchestrator, the demo, smoke and deployment programs: no ledger logic.
