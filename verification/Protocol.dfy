/**
 * The settlement protocol as a transition system. Any number of `/tx` requests and `/batch` handlers
 * interleave; one step is one section under the sequencer's lock, one prover answer or one L1
 * transaction. A run is any list of actions; an action that does not fit the current world changes
 * nothing.
 */
module Protocol {
  import opened Wrappers
  import opened Bytes
  import opened SharedTypes
  import opened AccountStore
  import opened Ledger
  import opened Sequencing
  import opened Settlement

  /** Where a `/batch` handler stands between two of its steps. */
  datatype Phase =
    | Draining(prev: Accounts, batch: seq<Tx>)                   // waiting for the prover
    | Proved(prev: Accounts, batch: seq<Tx>, pv: PublicValues)   // about to submit to L1
    | Failed(prev: Accounts, batch: seq<Tx>)                     // waiting for the lock to restore
    | Settled(batch: seq<Tx>, newRoot: Hash)                     // waiting for the lock to commit
    | Done

  /** The prover fails, answers with bytes that do not decode, or returns the public values. */
  datatype Proving = ProverError | Malformed | Answer

  /** The L1 transaction is not sent, is executed with its receipt seen, or is executed unseen. */
  datatype Delivery = NotSent | Receipt(proofOk: bool) | ReceiptLost(proofOk: bool)

  datatype Action =
    | SubmitTx(tx: Tx)
    | OpenBatch
    | ProverReturns(h: nat, proving: Proving)
    | L1Returns(h: nat, delivery: Delivery)
    | Finish(h: nat)
    | Cancel(h: nat)

  /**
   * A record of the run that no step reads: the ledgers L1 has stood for, the batches between them,
   * the fate of every accepted transaction, and whether L1 moved without the sequencer learning it.
   */
  datatype Log = Log(
    ledgers: seq<Accounts>,
    settled: seq<seq<Tx>>,
    accepted: multiset<Tx>,
    dropped: multiset<Tx>,
    lost: multiset<Tx>,
    echoed: multiset<Tx>,
    stranded: bool)

  datatype World = World(sequencer: Sequencer, l1: RollupState, handlers: seq<Phase>, log: Log)

  function Boot(cx: Crypto, g: Accounts, l1: RollupState): World
  {
    World(FromGenesis(cx, g), l1, [], Log([g], [], multiset{}, multiset{}, multiset{}, multiset{}, false))
  }

  /** Startup refuses to serve when the contract's root is not the genesis root. */
  function Start(cx: Crypto, g: Accounts, l1: RollupState): Option<World>
  {
    if l1.stateRoot != Root(cx, g) then None else Some(Boot(cx, g, l1))
  }

  function At(w: World, h: nat): Phase
  {
    if h < |w.handlers| then w.handlers[h] else Done
  }

  function Enter(w: World, h: nat, p: Phase): World
    requires h < |w.handlers|
  {
    w.(handlers := w.handlers[h := p])
  }

  function DoSubmitTx(cx: Crypto, w: World, tx: Tx): World
  {
    match Admit(cx, w.sequencer, tx)
    case Ok(next) => w.(sequencer := next, log := w.log.(accepted := w.log.accepted + multiset{tx}))
    case Err(_) => w
  }

  function DoOpenBatch(w: World): World
  {
    if w.sequencer.mempool == [] then w
    else w.(sequencer := Drained(w.sequencer),
            handlers := w.handlers + [Draining(w.sequencer.canonical, w.sequencer.mempool)])
  }

  /** The proved program runs on the handler's snapshot; it can only answer if the batch applies. */
  function DoProverReturns(cx: Crypto, w: World, h: nat, proving: Proving): World
    requires At(w, h).Draining?
  {
    var p := At(w, h);
    match proving
    case Malformed => Enter(w, h, Done).(log := w.log.(lost := w.log.lost + multiset(p.batch)))
    case ProverError => Enter(w, h, Failed(p.prev, p.batch))
    case Answer =>
      match ApplyBatch(cx, p.prev, p.batch)
      case Ok(out) => Enter(w, h, Proved(p.prev, p.batch, out.1))
      case Err(_) => Enter(w, h, Failed(p.prev, p.batch))
  }

  /** The record of a batch that L1 accepted. */
  function Extended(cx: Crypto, log: Log, prev: Accounts, batch: seq<Tx>): Log
  {
    log.(ledgers := log.ledgers + [AppliedPrefix(cx, prev, batch)], settled := log.settled + [batch])
  }

  function L1Accepted(cx: Crypto, w: World, h: nat, seen: bool, l1: RollupState): World
    requires At(w, h).Proved?
  {
    var p := At(w, h);
    var log := Extended(cx, w.log, p.prev, p.batch);
    if seen then Enter(w, h, Settled(p.batch, p.pv.newRoot)).(l1 := l1, log := log)
    else Enter(w, h, Failed(p.prev, p.batch)).(
           l1 := l1,
           log := log.(echoed := log.echoed + multiset(p.batch), stranded := true))
  }

  function DoL1Returns(cx: Crypto, w: World, h: nat, delivery: Delivery): World
    requires At(w, h).Proved?
  {
    var p := At(w, h);
    if delivery.NotSent? then Enter(w, h, Failed(p.prev, p.batch))
    else match Submit(w.l1, EncodePublicValues(p.pv), delivery.proofOk)
      case Err(_) => Enter(w, h, Failed(p.prev, p.batch))
      case Ok(out) => L1Accepted(cx, w, h, delivery.Receipt?, out.0)
  }

  function DoRestore(cx: Crypto, w: World, h: nat): World
    requires At(w, h).Failed?
  {
    var p := At(w, h);
    Enter(w, h, Done).(
      sequencer := Restored(cx, w.sequencer, p.batch),
      log := w.log.(dropped := w.log.dropped + multiset(Sift(cx, w.sequencer.speculative, p.batch).dropped)))
  }

  /** What the `retain` of a commit throws out; a commit that fails gets no further than the state. */
  function CommitDropped(cx: Crypto, s: Sequencer, batch: seq<Tx>, newRoot: Hash): seq<Tx>
  {
    if Commit(cx, s, batch, newRoot).1.Ok? then Sift(cx, Commit(cx, s, batch, newRoot).0.canonical, s.mempool).dropped
    else []
  }

  function DoCommit(cx: Crypto, w: World, h: nat): World
    requires At(w, h).Settled?
  {
    var p := At(w, h);
    Enter(w, h, Done).(
      sequencer := Commit(cx, w.sequencer, p.batch, p.newRoot).0,
      log := w.log.(dropped := w.log.dropped + multiset(CommitDropped(cx, w.sequencer, p.batch, p.newRoot))))
  }

  /** The client disconnects and the handler is dropped where it stands. */
  function DoCancel(w: World, h: nat): World
    requires h < |w.handlers|
  {
    match w.handlers[h]
    case Settled(_, _) => Enter(w, h, Done).(log := w.log.(stranded := true))
    case Done => w
    case p => Enter(w, h, Done).(log := w.log.(lost := w.log.lost + multiset(p.batch)))
  }

  function Do(cx: Crypto, w: World, act: Action): World
  {
    match act
    case SubmitTx(tx) => DoSubmitTx(cx, w, tx)
    case OpenBatch => DoOpenBatch(w)
    case ProverReturns(h, proving) => if At(w, h).Draining? then DoProverReturns(cx, w, h, proving) else w
    case L1Returns(h, delivery) => if At(w, h).Proved? then DoL1Returns(cx, w, h, delivery) else w
    case Finish(h) =>
      if At(w, h).Failed? then DoRestore(cx, w, h)
      else if At(w, h).Settled? then DoCommit(cx, w, h)
      else w
    case Cancel(h) => if h < |w.handlers| then DoCancel(w, h) else w
  }

  function Exec(cx: Crypto, w: World, acts: seq<Action>): World
  {
    if acts == [] then w else Do(cx, Exec(cx, w, acts[..|acts| - 1]), acts[|acts| - 1])
  }

  // ----- The invariant -----

  ghost predicate Link(cx: Crypto, log: Log, k: nat)
    requires k < |log.settled| && |log.ledgers| == |log.settled| + 1
  {
    log.settled[k] != [] && ApplyAll(cx, log.ledgers[k], log.settled[k]) == Ok(log.ledgers[k + 1])
  }

  /** Each settled batch is non-empty and leads from one recorded ledger to the next. */
  ghost predicate Chain(cx: Crypto, log: Log)
  {
    && |log.ledgers| == |log.settled| + 1
    && (forall k :: 0 <= k < |log.ledgers| ==>
          Sorted(log.ledgers[k]) && Supply(log.ledgers[k]) == Supply(log.ledgers[0]))
    && (forall k :: 0 <= k < |log.settled| ==> Link(cx, log, k))
  }

  predicate SomeSettled(handlers: seq<Phase>)
  {
    exists h :: 0 <= h < |handlers| && handlers[h].Settled?
  }

  /** L1 has a batch the canonical state does not have yet, or never will. */
  predicate Behind(w: World)
  {
    w.log.stranded || SomeSettled(w.handlers)
  }

  /** The position of the canonical state in the record: at its end, or one before it. */
  function CanonicalIndex(w: World): int
  {
    |w.log.settled| - if Behind(w) then 1 else 0
  }

  ghost predicate SnapshotUpTo(log: Log, prev: Accounts, c: int)
  {
    exists k :: 0 <= k <= c && k < |log.ledgers| && log.ledgers[k] == prev
  }

  /** A handler in flight holds a recorded snapshot no newer than canonical, and a batch that applies to it. */
  ghost predicate PhaseOk(cx: Crypto, log: Log, c: int, p: Phase)
  {
    match p
    case Done => true
    case Settled(batch, newRoot) =>
      && !log.stranded
      && 0 <= c && c == |log.settled| - 1 && |log.ledgers| == |log.settled| + 1
      && batch == log.settled[c] && newRoot == Root(cx, log.ledgers[c + 1])
    case _ =>
      && SnapshotUpTo(log, p.prev, c)
      && p.batch != []
      && ApplyBatch(cx, p.prev, p.batch).Ok?
      && (p.Proved? ==> p.pv == ApplyBatch(cx, p.prev, p.batch).value.1)
  }

  ghost predicate HandlersOk(cx: Crypto, w: World)
  {
    && (forall h :: 0 <= h < |w.handlers| ==> PhaseOk(cx, w.log, CanonicalIndex(w), w.handlers[h]))
    && (forall h, i :: 0 <= h < i < |w.handlers| ==> !(w.handlers[h].Settled? && w.handlers[i].Settled?))
  }

  ghost predicate Placed(w: World)
  {
    && 0 <= CanonicalIndex(w) < |w.log.ledgers|
    && w.sequencer.canonical == w.log.ledgers[CanonicalIndex(w)]
    && w.sequencer.batchCount == Wrap64(CanonicalIndex(w))
  }

  /** What ties L1, the canonical state, the mempool and every handler together. */
  ghost predicate Inv(cx: Crypto, w: World)
  {
    && Chain(cx, w.log)
    && w.l1.stateRoot == Root(cx, w.log.ledgers[|w.log.settled|])
    && Coherent(cx, w.sequencer)
    && Placed(w)
    && HandlersOk(cx, w)
  }

  // ----- The two hypotheses, both on the run as recorded -----

  /** No two ledgers the run went through are a keccak collision. */
  ghost predicate NoRootCollision(cx: Crypto, ledgers: seq<Accounts>)
  {
    forall i, j :: 0 <= i < j < |ledgers| ==> !Collision(cx, EncodeAccounts(ledgers[i]), EncodeAccounts(ledgers[j]))
  }

  /** ... and fewer than 2^64 transactions were settled. */
  ghost predicate Ordinary(cx: Crypto, w: World)
  {
    NoRootCollision(cx, w.log.ledgers) && |Flatten(w.log.settled)| < TWO_64
  }
}
