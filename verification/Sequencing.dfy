/**
 * What the sequencer's operations compute, as functions on its five fields, and what they keep:
 * the speculative state is always the canonical state with the whole mempool applied.
 */
module Sequencing {
  import opened Wrappers
  import opened Bytes
  import opened SharedTypes
  import opened AccountStore
  import opened Ledger

  datatype Sequencer = Sequencer(
    canonical: Accounts,
    canonicalRoot: Hash,
    speculative: Accounts,
    mempool: seq<Tx>,
    batchCount: u64)

  datatype CommitError = Diverged(cause: StfError) | RootMismatch(local: Hash, settled: Hash)

  function FromGenesis(cx: Crypto, a: Accounts): Sequencer
  {
    Sequencer(a, Root(cx, a), a, [], 0)
  }

  function Admit(cx: Crypto, s: Sequencer, tx: Tx): Result<Sequencer, StfError>
  {
    match Apply(cx, s.speculative, tx)
    case Ok(next) => Ok(s.(speculative := next, mempool := s.mempool + [tx]))
    case Err(e) => Err(e)
  }

  /** What a drain leaves behind; it hands out the canonical state and the mempool. */
  function Drained(s: Sequencer): Sequencer
  {
    s.(speculative := s.canonical, mempool := [])
  }

  /** Transactions run in order on one state, keeping those that apply and dropping the others. */
  datatype Sieve = Sieve(state: Accounts, kept: seq<Tx>, dropped: seq<Tx>)

  function Sift(cx: Crypto, a: Accounts, txs: seq<Tx>): Sieve
    decreases |txs|
  {
    if txs == [] then Sieve(a, [], [])
    else match Apply(cx, a, txs[0])
      case Ok(b) => var r := Sift(cx, b, txs[1..]); r.(kept := [txs[0]] + r.kept)
      case Err(_) => var r := Sift(cx, a, txs[1..]); r.(dropped := [txs[0]] + r.dropped)
  }

  function Restored(cx: Crypto, s: Sequencer, txs: seq<Tx>): Sequencer
  {
    var r := Sift(cx, s.speculative, txs);
    s.(speculative := r.state, mempool := s.mempool + r.kept)
  }

  /** The store after the transactions before the first that fails. */
  function AppliedPrefix(cx: Crypto, a: Accounts, txs: seq<Tx>): Accounts
    decreases |txs|
  {
    if txs == [] then a
    else match Apply(cx, a, txs[0])
      case Ok(b) => AppliedPrefix(cx, b, txs[1..])
      case Err(_) => a
  }

  /** A commit and its outcome; a failed one leaves the canonical state moved and nothing else. */
  function Commit(cx: Crypto, s: Sequencer, txs: seq<Tx>, newRoot: Hash): (Sequencer, Result<(), CommitError>)
  {
    match ApplyAll(cx, s.canonical, txs)
    case Err(e) => (s.(canonical := AppliedPrefix(cx, s.canonical, txs)), Err(Diverged(e)))
    case Ok(next) =>
      if Root(cx, next) != newRoot then (s.(canonical := next), Err(RootMismatch(Root(cx, next), newRoot)))
      else
        var r := Sift(cx, next, s.mempool);
        (Sequencer(next, newRoot, r.state, r.kept, Wrap64(s.batchCount + 1)), Ok(()))
  }

  // ----- What the operations come to -----

  /** A batch that fails leaves the state of the transactions before the first that failed. */
  lemma {:induction false} AppliedPrefixExactly(cx: Crypto, a: Accounts, txs: seq<Tx>) returns (n: nat)
    ensures n <= |txs| && ApplyAll(cx, a, txs[..n]) == Ok(AppliedPrefix(cx, a, txs))
    ensures if n == |txs| then ApplyAll(cx, a, txs).Ok?
            else
              var stopped := Apply(cx, AppliedPrefix(cx, a, txs), txs[n]);
              stopped.Err? && ApplyAll(cx, a, txs) == Err(stopped.error)
    decreases |txs|
  {
    hide Apply;
    n := 0;
    if txs != [] {
      match Apply(cx, a, txs[0])
      case Ok(b) =>
        var m := AppliedPrefixExactly(cx, b, txs[1..]);
        n := m + 1;
        assert txs[..n] == [txs[0]] + txs[1..][..m] && txs[..n][1..] == txs[1..][..m];
      case Err(_) =>
    }
  }

  /**
   * The three outcomes of a commit: the batch re-applies to the settled root and everything moves on, or
   * it fails or ends elsewhere, and then only the canonical state has moved.
   */
  lemma CommitOutcome(cx: Crypto, s: Sequencer, txs: seq<Tx>, newRoot: Hash)
    ensures var applied, next := ApplyAll(cx, s.canonical, txs), Commit(cx, s, txs, newRoot).0;
            match Commit(cx, s, txs, newRoot).1
            case Ok(_) =>
              && applied.Ok? && Root(cx, applied.value) == newRoot
              && next.canonical == applied.value && next.canonicalRoot == newRoot
              && next.speculative == Sift(cx, applied.value, s.mempool).state
              && next.mempool == Sift(cx, applied.value, s.mempool).kept
              && next.batchCount == Wrap64(s.batchCount + 1)
            case Err(Diverged(cause)) =>
              applied == Err(cause) && next == s.(canonical := AppliedPrefix(cx, s.canonical, txs))
            case Err(RootMismatch(local, settled)) =>
              && applied.Ok? && local == Root(cx, applied.value) != newRoot == settled
              && next == s.(canonical := applied.value)
  {
    hide ApplyAll, Root, Sift, AppliedPrefix, Wrap64;
  }

  // ----- Sifting -----

  /** What is kept applies as a batch and ends in the sieve's state; nothing is lost or invented. */
  lemma {:induction false} SiftKeeps(cx: Crypto, a: Accounts, txs: seq<Tx>)
    ensures var r := Sift(cx, a, txs);
            && ApplyAll(cx, a, r.kept) == Ok(r.state)
            && multiset(txs) == multiset(r.kept) + multiset(r.dropped)
    decreases |txs|
  {
    hide Apply;
    if txs != [] {
      var r := Sift(cx, a, txs);
      assert txs == [txs[0]] + txs[1..];
      match Apply(cx, a, txs[0])
      case Ok(b) =>
        SiftKeeps(cx, b, txs[1..]);
        assert r.kept[1..] == Sift(cx, b, txs[1..]).kept;
      case Err(_) =>
        SiftKeeps(cx, a, txs[1..]);
    }
  }

  /** Each transaction is judged by the state its kept predecessors leave: kept if it applies there, else dropped. */
  lemma {:induction false} SiftNext(cx: Crypto, a: Accounts, txs: seq<Tx>, tx: Tx)
    ensures var r, next := Sift(cx, a, txs), Sift(cx, a, txs + [tx]);
            match Apply(cx, r.state, tx)
            case Ok(b) => next == Sieve(b, r.kept + [tx], r.dropped)
            case Err(_) => next == Sieve(r.state, r.kept, r.dropped + [tx])
    decreases |txs|
  {
    hide Apply;
    if txs == [] {
      assert txs + [tx] == [tx] && [tx][1..] == [];
    } else {
      assert (txs + [tx])[1..] == txs[1..] + [tx];
      match Apply(cx, a, txs[0])
      case Ok(b) => SiftNext(cx, b, txs[1..], tx);
      case Err(_) => SiftNext(cx, a, txs[1..], tx);
    }
  }

  /** Sifting a list in two parts: the second goes on from where the first ended. */
  lemma {:induction false} SiftAppend(cx: Crypto, a: Accounts, s: seq<Tx>, t: seq<Tx>)
    ensures var first, second := Sift(cx, a, s), Sift(cx, Sift(cx, a, s).state, t);
            Sift(cx, a, s + t) == Sieve(second.state, first.kept + second.kept, first.dropped + second.dropped)
    decreases |s|
  {
    hide Apply;
    if s == [] {
      assert s + t == t;
    } else {
      assert (s + t)[0] == s[0] && (s + t)[1..] == s[1..] + t;
      match Apply(cx, a, s[0])
      case Ok(b) => SiftAppend(cx, b, s[1..], t);
      case Err(_) => SiftAppend(cx, a, s[1..], t);
    }
  }

  /**
   * Exactly the transactions that apply when their turn comes are kept, and the others dropped, each list
   * in the order they came: here transaction `i` takes its place right after those decided before it.
   */
  lemma DecidedInTurn(cx: Crypto, a: Accounts, txs: seq<Tx>, i: nat)
    requires i < |txs|
    ensures var before, all := Sift(cx, a, txs[..i]), Sift(cx, a, txs);
            if Apply(cx, before.state, txs[i]).Ok? then before.kept + [txs[i]] <= all.kept
            else before.dropped + [txs[i]] <= all.dropped
  {
    hide Apply, Sift;
    assert txs[..i + 1] == txs[..i] + [txs[i]] && txs == txs[..i + 1] + txs[i + 1..];
    SiftNext(cx, a, txs[..i], txs[i]);
    SiftAppend(cx, a, txs[..i + 1], txs[i + 1..]);
  }

  /** Nothing is dropped exactly when the list applies as a whole, and then all of it is kept. */
  lemma {:induction false} SiftAll(cx: Crypto, a: Accounts, txs: seq<Tx>)
    ensures Sift(cx, a, txs).dropped == [] <==> ApplyAll(cx, a, txs).Ok?
    ensures ApplyAll(cx, a, txs).Ok? ==> Sift(cx, a, txs) == Sieve(ApplyAll(cx, a, txs).value, txs, [])
    decreases |txs|
  {
    hide Apply;
    if txs != [] {
      match Apply(cx, a, txs[0])
      case Ok(b) => SiftAll(cx, b, txs[1..]);
      case Err(_) =>
    }
  }

  /** The list comes through whole exactly when it applies as a whole. */
  lemma SiftWhole(cx: Crypto, a: Accounts, txs: seq<Tx>)
    ensures Sift(cx, a, txs).kept == txs <==> ApplyAll(cx, a, txs).Ok?
  {
    hide Sift, ApplyAll;
    SiftAll(cx, a, txs);
    SiftKeeps(cx, a, txs);
  }

  /** The two excuses for dropping a transaction, as numbers: its nonce is not due, or its funds are gone. */
  ghost predicate DroppedForCause(cx: Crypto, a: Accounts, kept: seq<Tx>, tx: Tx, verdict: Result<Accounts, StfError>)
  {
    var nonce, funds := NonceAfter(a, kept, tx.from), BalanceAfter(a, kept, tx.from);
    match verdict
    case Ok(_) => tx.nonce == nonce && tx.amount <= funds
    case Err(NonceMismatch(expected, got)) => expected == nonce != tx.nonce == got
    case Err(InsufficientBalance(have, need)) => tx.nonce == nonce && have == funds < need == tx.amount
    case Err(_) => false
  }

  // ----- The speculative invariant -----

  /** Canonical sorted and hashed by its root; speculative is canonical with the mempool applied. */
  ghost predicate Coherent(cx: Crypto, s: Sequencer)
  {
    && Sorted(s.canonical)
    && s.canonicalRoot == Root(cx, s.canonical)
    && ApplyAll(cx, s.canonical, s.mempool) == Ok(s.speculative)
  }

  lemma AdmitKeeps(cx: Crypto, s: Sequencer, tx: Tx)
    requires Coherent(cx, s) && Admit(cx, s, tx).Ok?
    ensures Coherent(cx, Admit(cx, s, tx).value)
  {
    hide Apply;
    ApplyAllAppend(cx, s.canonical, s.mempool, [tx]);
    assert ApplyAll(cx, Admit(cx, s, tx).value.speculative, [tx][1..]) == Ok(Admit(cx, s, tx).value.speculative);
  }

  /** The snapshot and batch a drain hands out are provable, and prove what was speculated. */
  lemma DrainProvable(cx: Crypto, s: Sequencer)
    requires Coherent(cx, s)
    ensures Coherent(cx, Drained(s))
    ensures ApplyBatch(cx, s.canonical, s.mempool) ==
            Ok((s.speculative, PublicValues(s.canonicalRoot, Root(cx, s.speculative), BatchHash(cx, s.mempool))))
  {
  }

  lemma RestoreKeeps(cx: Crypto, s: Sequencer, txs: seq<Tx>)
    requires Coherent(cx, s)
    ensures Coherent(cx, Restored(cx, s, txs))
  {
    var r := Sift(cx, s.speculative, txs);
    SiftKeeps(cx, s.speculative, txs);
    ApplyAllAppend(cx, s.canonical, s.mempool, r.kept);
  }

  /** Draining and restoring with nothing in between gives back the same sequencer, field by field. */
  lemma DrainRestoreIdentity(cx: Crypto, s: Sequencer)
    requires Coherent(cx, s)
    ensures Restored(cx, Drained(s), s.mempool) == s
  {
    SiftAll(cx, s.canonical, s.mempool);
  }

  lemma CommitKeeps(cx: Crypto, s: Sequencer, txs: seq<Tx>, newRoot: Hash)
    requires Coherent(cx, s) && Commit(cx, s, txs, newRoot).1.Ok?
    ensures Coherent(cx, Commit(cx, s, txs, newRoot).0)
  {
    hide Sorted, ApplyAll, Sift;
    BatchKeeps(cx, s.canonical, txs);
    SiftKeeps(cx, ApplyAll(cx, s.canonical, txs).value, s.mempool);
  }

  // ----- Which transactions survive -----

  lemma SiftTally(cx: Crypto, a: Accounts, txs: seq<Tx>, x: Address)
    ensures Tally(Sift(cx, a, txs).kept, x, Sent) <= Tally(txs, x, Sent)
  {
    hide Sift, Tally;
    var r := Sift(cx, a, txs);
    SiftKeeps(cx, a, txs);
    TallyPermutation(txs, r.kept + r.dropped, x, Sent);
    TallyAppend(r.kept, r.dropped, x, Sent);
  }

  /**
   * Which transactions are lost: when `s` and `t` each apply to `c` and `s` ran, re-running `t` drops the
   * first transactions of every sender, as many as it has in `s`, because their nonces are used.
   */
  lemma {:induction false} UsedNonceDropped(cx: Crypto, c: Accounts, s: seq<Tx>, t: seq<Tx>, i: nat)
    requires Sorted(c) && ApplyAll(cx, c, s).Ok? && ApplyAll(cx, c, t).Ok?
    requires i < |t| && Tally(t[..i], t[i].from, Sent) < Tally(s, t[i].from, Sent) < TWO_64
    ensures var d := ApplyAll(cx, c, s).value;
            var verdict := Apply(cx, Sift(cx, d, t[..i]).state, t[i]);
            && verdict.Err? && verdict.error.NonceMismatch?
            && t[i] in Sift(cx, d, t).dropped
  {
    hide Apply, ApplyAll, Sift, Sorted, Lookup, Tally, Wrap64, BalanceAfter, RecoverAddress;
    var d, x := ApplyAll(cx, c, s).value, t[i].from;
    var r := Sift(cx, d, t[..i]);
    BatchKeeps(cx, c, s);
    SiftKeeps(cx, d, t[..i]);
    SiftTally(cx, d, t[..i], x);
    NonceInSequence(cx, c, t, i);
    LedgerEquation(cx, c, s, x);
    WrapAdd(Lookup(c, x).nonce + Tally(s, x, Sent), Tally(r.kept, x, Sent));
    WrapDistinct(Lookup(c, x).nonce, Tally(t[..i], x, Sent), Tally(s, x, Sent) + Tally(r.kept, x, Sent));
    AppliedAuthorised(cx, c, t, i);
    Judgement(cx, d, r.kept, t[i]);
    DecidedInTurn(cx, d, t, i);
    assert t[i] in r.dropped + [t[i]];
  }

  /**
   * What a commit keeps, exactly: the whole mempool if and only if no pending sender is in the batch and
   * every pending receiver has room, which they have when everything in circulation fits in one word.
   */
  lemma CommitSurvival(cx: Crypto, s: Sequencer, txs: seq<Tx>, newRoot: Hash)
    requires Coherent(cx, s)
    requires Commit(cx, s, txs, newRoot).1.Ok?
    ensures NoWrap(txs) || Senders(txs) !! Senders(s.mempool) ==>
              (Commit(cx, s, txs, newRoot).0.mempool == s.mempool <==>
               Senders(txs) !! Senders(s.mempool) && HasRoom(s.canonical, txs + s.mempool))
    ensures Supply(s.canonical) <= U64_MAX && Senders(txs) !! Senders(s.mempool) ==>
              HasRoom(s.canonical, txs + s.mempool)
  {
    hide Sorted, ApplyAll, Sift, Sum, Senders, HasRoom, NoWrap;
    AppliesAfterExactly(cx, s.canonical, txs, s.mempool);
    SiftWhole(cx, ApplyAll(cx, s.canonical, txs).value, s.mempool);
    if Supply(s.canonical) <= U64_MAX && Senders(txs) !! Senders(s.mempool) {
      AppliesAfter(cx, s.canonical, txs, s.mempool);
    }
  }

  /**
   * What a restore keeps, exactly, of a batch drained from an earlier canonical state `base`, whatever has
   * been settled since: all of it if and only if neither what was settled nor anything pending shares a
   * sender with it, and its receivers have room.
   */
  lemma {:induction false} RestoreSurvival(cx: Crypto, s: Sequencer, base: Accounts, since: seq<Tx>, txs: seq<Tx>)
    requires Coherent(cx, s) && Sorted(base)
    requires ApplyAll(cx, base, since) == Ok(s.canonical)
    requires ApplyAll(cx, base, txs).Ok?
    ensures NoWrap(since + s.mempool) || Senders(since + s.mempool) !! Senders(txs) ==>
              (Restored(cx, s, txs).mempool == s.mempool + txs <==>
               Senders(since + s.mempool) !! Senders(txs) && HasRoom(base, since + s.mempool + txs))
    ensures HasRoom(base, since + s.mempool + txs) <==> HasRoom(s.speculative, txs)
    ensures Supply(base) <= U64_MAX && Senders(since + s.mempool) !! Senders(txs) ==>
              HasRoom(base, since + s.mempool + txs)
  {
    hide Sorted, ApplyAll, Sift, Sum, Senders, HasRoom, NoWrap;
    ApplyAllAppend(cx, base, since, s.mempool);
    AppliesAfterExactly(cx, base, since + s.mempool, txs);
    SiftWhole(cx, s.speculative, txs);
    var kept := Sift(cx, s.speculative, txs).kept;
    assert (s.mempool + kept)[|s.mempool|..] == kept && (s.mempool + txs)[|s.mempool|..] == txs;
    if Supply(base) <= U64_MAX && Senders(since + s.mempool) !! Senders(txs) {
      AppliesAfter(cx, base, since + s.mempool, txs);
    }
  }

  /**
   * A sender with transactions both in a batch drained from the canonical state and pending loses some
   * either way: a restore does not bring the batch back whole, a commit does not keep the mempool whole.
   */
  lemma {:induction false} SharedSenderLoses(cx: Crypto, s: Sequencer, txs: seq<Tx>)
    requires Coherent(cx, s) && ApplyAll(cx, s.canonical, txs).Ok?
    requires !(Senders(txs) !! Senders(s.mempool)) && NoWrap(txs) && NoWrap(s.mempool)
    ensures Restored(cx, s, txs).mempool != s.mempool + txs
    ensures Commit(cx, s, txs, Root(cx, ApplyAll(cx, s.canonical, txs).value)).0.mempool != s.mempool
  {
    hide Sorted, Apply, Sift, Sum, Senders, HasRoom, NoWrap, Restored, Root;
    assert [] + s.mempool == s.mempool;
    RestoreSurvival(cx, s, s.canonical, [], txs);
    CommitSurvival(cx, s, txs, Root(cx, ApplyAll(cx, s.canonical, txs).value));
  }

  /**
   * Why a transaction is dropped: with a supply that fits in one word an authorised transaction that is
   * re-run after others fails on its nonce or on its sender's balance as they left them, never otherwise.
   */
  lemma SiftReason(cx: Crypto, a: Accounts, txs: seq<Tx>, tx: Tx)
    requires Sorted(a) && Supply(a) <= U64_MAX && Authorised(cx, tx)
    ensures var r := Sift(cx, a, txs); DroppedForCause(cx, a, r.kept, tx, Apply(cx, r.state, tx))
  {
    hide Sorted, ApplyAll, Sift, Sum, Apply, BalanceAfter, NonceAfter;
    var r := Sift(cx, a, txs);
    SiftKeeps(cx, a, txs);
    BatchKeeps(cx, a, r.kept);
    Judgement(cx, a, r.kept, tx);
    NoOverflow(cx, r.state, tx);
  }

  // ----- What a client may submit -----

  /** The nonce a client computes: the canonical nonce plus the number of its pending transactions. */
  function PendingNonce(s: Sequencer, x: Address): nat
  {
    Lookup(s.canonical, x).nonce + Tally(s.mempool, x, Sent)
  }

  /** The formula predicts the speculative nonce, so the nonce check accepts it and nothing else. */
  lemma PendingNonceExact(cx: Crypto, s: Sequencer, tx: Tx)
    requires Coherent(cx, s)
    ensures Lookup(s.speculative, tx.from).nonce == Wrap64(PendingNonce(s, tx.from))
    ensures Authorised(cx, tx) ==>
              (Admit(cx, s, tx).Err? && Admit(cx, s, tx).error.NonceMismatch? <==>
               tx.nonce != Wrap64(PendingNonce(s, tx.from)))
  {
    hide Sorted, Lookup, ApplyAll, Tally, Moved;
    LedgerEquation(cx, s.canonical, s.mempool, tx.from);
  }

  /** The answer to a submission, every error with its reason and numbers, from canonical state and mempool. */
  lemma AdmitJudged(cx: Crypto, s: Sequencer, tx: Tx)
    requires Coherent(cx, s)
    ensures match Admit(cx, s, tx)
            case Ok(next) =>
              && Judged(cx, s.canonical, s.mempool, tx, Ok(next.speculative))
              && next == s.(speculative := next.speculative, mempool := s.mempool + [tx])
            case Err(e) => Judged(cx, s.canonical, s.mempool, tx, Err(e))
  {
    hide Sorted, ApplyAll, Apply, Judged;
    Judgement(cx, s.canonical, s.mempool, tx);
  }

  /** What the sender could spend if everything pending were settled. */
  function PendingBalance(s: Sequencer, x: Address): int
  {
    BalanceAfter(s.canonical, s.mempool, x)
  }

  /** Admission told from canonical state and mempool alone: signature, pending nonce, pending balance. */
  lemma AdmitExactly(cx: Crypto, s: Sequencer, tx: Tx)
    requires Coherent(cx, s) && Supply(s.canonical) <= U64_MAX
    ensures Admit(cx, s, tx).Ok? <==>
              && Authorised(cx, tx)
              && tx.nonce == Wrap64(PendingNonce(s, tx.from))
              && tx.amount <= PendingBalance(s, tx.from)
    ensures Admit(cx, s, tx) != Err(Overflow)
  {
    hide Sorted, Lookup, ApplyAll, Tally, Apply, Sum;
    LedgerEquation(cx, s.canonical, s.mempool, tx.from);
    BatchKeeps(cx, s.canonical, s.mempool);
    NoOverflow(cx, s.speculative, tx);
  }
}
