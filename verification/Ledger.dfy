/**
 * The state transition as a function on account vectors, and the laws of the ledger: what a batch
 * does to every account, conservation, and when the order of transactions does not matter.
 */
module Ledger {
  import opened Wrappers
  import opened Bytes
  import opened SharedTypes
  import opened AccountStore

  datatype StfError =
    | BadSignature
    | NonceMismatch(expected: u64, got: u64)
    | InsufficientBalance(have: u64, need: u64)
    | Overflow
    | SelfTransfer

  /** The sender is not the receiver and the signature recovers to the sender. */
  predicate Authorised(cx: Crypto, tx: Tx)
  {
    tx.from != tx.to && RecoverAddress(cx, SigningHash(cx, tx), tx.signature) == Some(tx.from)
  }

  /** The unchecked `nonce += 1` of a 64-bit word in a release build. */
  function NextNonce(nonce: u64): u64
  {
    Wrap64(nonce + 1)
  }

  /** The vector after a transfer that passed every check. */
  function Moved(a: Accounts, tx: Tx): Accounts
    requires tx.amount <= Lookup(a, tx.from).balance
    requires Lookup(a, tx.to).balance + tx.amount <= U64_MAX
  {
    var from, to := Lookup(a, tx.from), Lookup(a, tx.to);
    Update(Update(a, tx.from, Account(from.balance - tx.amount, NextNonce(from.nonce))),
           tx.to, Account(to.balance + tx.amount, to.nonce))
  }

  /** One transfer, with the checks in the order the code makes them. */
  function Apply(cx: Crypto, a: Accounts, tx: Tx): Result<Accounts, StfError>
  {
    var from := Lookup(a, tx.from);
    if tx.from == tx.to then Err(SelfTransfer)
    else if RecoverAddress(cx, SigningHash(cx, tx), tx.signature) != Some(tx.from) then Err(BadSignature)
    else if from.nonce != tx.nonce then Err(NonceMismatch(from.nonce, tx.nonce))
    else if from.balance < tx.amount then Err(InsufficientBalance(from.balance, tx.amount))
    else if Lookup(a, tx.to).balance + tx.amount > U64_MAX then Err(Overflow)
    else Ok(Moved(a, tx))
  }

  /** A batch: every transaction in order, stopping at the first that fails. */
  function ApplyAll(cx: Crypto, a: Accounts, txs: seq<Tx>): Result<Accounts, StfError>
    decreases |txs|, 0
  {
    if txs == [] then Ok(a) else GoOn(cx, Apply(cx, a, txs[0]), txs[1..])
  }

  /** The rest of a batch after a transaction that applied, or that one's error. */
  function GoOn(cx: Crypto, applied: Result<Accounts, StfError>, rest: seq<Tx>): Result<Accounts, StfError>
    decreases |rest|, 1
  {
    match applied
    case Ok(b) => ApplyAll(cx, b, rest)
    case Err(e) => Err(e)
  }

  /** What the proved program returns for a batch: the new vector and the committed values. */
  function ApplyBatch(cx: Crypto, prev: Accounts, txs: seq<Tx>): Result<(Accounts, PublicValues), StfError>
  {
    match ApplyAll(cx, prev, txs)
    case Ok(next) => Ok((next, PublicValues(Root(cx, prev), Root(cx, next), BatchHash(cx, txs))))
    case Err(e) => Err(e)
  }

  // ----- What a list of transactions adds up to for one address -----

  datatype Flow = Credits | Debits | Sent

  function Share(tx: Tx, x: Address, flow: Flow): nat
  {
    match flow
    case Credits => if tx.to == x then tx.amount else 0
    case Debits => if tx.from == x then tx.amount else 0
    case Sent => if tx.from == x then 1 else 0
  }

  function Tally(txs: seq<Tx>, x: Address, flow: Flow): nat
  {
    if txs == [] then 0 else Share(txs[0], x, flow) + Tally(txs[1..], x, flow)
  }

  function Senders(txs: seq<Tx>): set<Address>
  {
    set tx | tx in txs :: tx.from
  }

  function Receivers(txs: seq<Tx>): set<Address>
  {
    set tx | tx in txs :: tx.to
  }

  /** The transactions of a list of batches, in order. */
  function Flatten(batches: seq<seq<Tx>>): seq<Tx>
  {
    if batches == [] then [] else Flatten(batches[..|batches| - 1]) + batches[|batches| - 1]
  }

  lemma PartiesSplit(txs: seq<Tx>)
    requires txs != []
    ensures Senders(txs) == {txs[0].from} + Senders(txs[1..])
    ensures Receivers(txs) == {txs[0].to} + Receivers(txs[1..])
  {
    assert forall tx :: tx in txs <==> tx == txs[0] || tx in txs[1..];
  }

  lemma {:induction false} TallyAppend(s: seq<Tx>, t: seq<Tx>, x: Address, flow: Flow)
    ensures Tally(s + t, x, flow) == Tally(s, x, flow) + Tally(t, x, flow)
  {
    if s == [] {
      assert s + t == t;
    } else {
      assert (s + t)[1..] == s[1..] + t;
      TallyAppend(s[1..], t, x, flow);
    }
  }

  function RemoveAt(txs: seq<Tx>, i: nat): seq<Tx>
    requires i < |txs|
  {
    txs[..i] + txs[i + 1..]
  }

  lemma RemoveAtMultiset(txs: seq<Tx>, i: nat)
    requires i < |txs|
    ensures multiset(RemoveAt(txs, i)) == multiset(txs) - multiset{txs[i]}
  {
    assert txs == txs[..i] + [txs[i]] + txs[i + 1..];
  }

  lemma RemoveAtTally(txs: seq<Tx>, i: nat, x: Address, flow: Flow)
    requires i < |txs|
    ensures Tally(txs, x, flow) == Share(txs[i], x, flow) + Tally(RemoveAt(txs, i), x, flow)
  {
    assert txs == txs[..i] + ([txs[i]] + txs[i + 1..]);
    TallyAppend(txs[..i], [txs[i]] + txs[i + 1..], x, flow);
    TallyAppend(txs[..i], txs[i + 1..], x, flow);
  }

  /** A tally does not depend on the order of the transactions. */
  lemma {:induction false} TallyPermutation(s: seq<Tx>, t: seq<Tx>, x: Address, flow: Flow)
    requires multiset(s) == multiset(t)
    ensures Tally(s, x, flow) == Tally(t, x, flow)
  {
    hide Share, RemoveAt;
    if s == [] {
      assert |multiset(t)| == 0;
    } else {
      assert s[0] in multiset(t);
      var i :| 0 <= i < |t| && t[i] == s[0];
      RemoveAtMultiset(t, i);
      assert s == [s[0]] + s[1..];
      TallyPermutation(s[1..], RemoveAt(t, i), x, flow);
      RemoveAtTally(t, i, x, flow);
    }
  }

  lemma {:induction false} TallyOfStrangers(txs: seq<Tx>, x: Address)
    requires x !in Senders(txs)
    ensures Tally(txs, x, Debits) == 0 && Tally(txs, x, Sent) == 0
  {
    if txs != [] {
      PartiesSplit(txs);
      TallyOfStrangers(txs[1..], x);
    }
  }

  lemma {:induction false} SentAtMostLength(txs: seq<Tx>, x: Address)
    ensures Tally(txs, x, Sent) <= |txs|
  {
    if txs != [] {
      SentAtMostLength(txs[1..], x);
    }
  }

  // ----- One transfer -----

  /** A transfer changes its two accounts by its amount, advances the sender's nonce, keeps the supply. */
  lemma ApplyEffect(cx: Crypto, a: Accounts, tx: Tx)
    requires Sorted(a) && Apply(cx, a, tx).Ok?
    ensures var b := Apply(cx, a, tx).value;
            && Sorted(b) && Keys(b) == Keys(a) + {tx.from, tx.to} && Supply(b) == Supply(a)
            && forall x: Address ::
                 && Lookup(b, x).balance == Lookup(a, x).balance + Share(tx, x, Credits) - Share(tx, x, Debits)
                 && Lookup(b, x).nonce == Wrap64(Lookup(a, x).nonce + Share(tx, x, Sent))
  {
    hide Lookup, Update, Sorted, Keys, Sum, Wrap64;
    var from, to := Lookup(a, tx.from), Lookup(a, tx.to);
    var debited := Account(from.balance - tx.amount, NextNonce(from.nonce));
    var credited := Account(to.balance + tx.amount, to.nonce);
    var mid := Update(a, tx.from, debited);
    UpdateIsMapUpdate(a, tx.from, debited);
    UpdateIsMapUpdate(mid, tx.to, credited);
    UpdateSum(a, tx.from, debited, Balance);
    UpdateSum(mid, tx.to, credited, Balance);
  }

  /** When everything fits in one word the overflow check never fires. */
  lemma NoOverflow(cx: Crypto, a: Accounts, tx: Tx)
    requires Sorted(a) && Supply(a) <= U64_MAX
    ensures Apply(cx, a, tx) != Err(Overflow)
    ensures Apply(cx, a, tx).Ok? <==>
              && Authorised(cx, tx)
              && Lookup(a, tx.from).nonce == tx.nonce
              && tx.amount <= Lookup(a, tx.from).balance
  {
    if tx.from != tx.to {
      TwoBalancesWithinSupply(a, tx.from, tx.to);
    }
  }

  // ----- A batch -----

  lemma {:induction false} ApplyAllAppend(cx: Crypto, a: Accounts, s: seq<Tx>, t: seq<Tx>)
    ensures ApplyAll(cx, a, s + t) ==
            match ApplyAll(cx, a, s)
            case Ok(b) => ApplyAll(cx, b, t)
            case Err(e) => Err(e)
    decreases |s|
  {
    if s == [] {
      assert s + t == t;
    } else {
      assert (s + t)[0] == s[0] && (s + t)[1..] == s[1..] + t;
      match Apply(cx, a, s[0])
      case Ok(b) => ApplyAllAppend(cx, b, s[1..], t);
      case Err(_) =>
    }
  }

  lemma {:induction false} BatchKeeps(cx: Crypto, a: Accounts, txs: seq<Tx>)
    requires Sorted(a) && ApplyAll(cx, a, txs).Ok?
    ensures var b := ApplyAll(cx, a, txs).value;
            Sorted(b) && Supply(b) == Supply(a) && Keys(b) == Keys(a) + Senders(txs) + Receivers(txs)
    decreases |txs|
  {
    hide Lookup, Moved, Sorted, Sum, Keys;
    if txs != [] {
      ApplyEffect(cx, a, txs[0]);
      BatchKeeps(cx, Apply(cx, a, txs[0]).value, txs[1..]);
      PartiesSplit(txs);
    } else {
      assert Senders(txs) == {} && Receivers(txs) == {};
    }
  }

  /** The ledger equation: start plus credits minus debits, and one nonce per transaction sent. */
  lemma {:induction false} LedgerEquation(cx: Crypto, a: Accounts, txs: seq<Tx>, x: Address)
    requires Sorted(a) && ApplyAll(cx, a, txs).Ok?
    ensures var b := ApplyAll(cx, a, txs).value;
            && Lookup(b, x).balance == Lookup(a, x).balance + Tally(txs, x, Credits) - Tally(txs, x, Debits)
            && Lookup(b, x).nonce == Wrap64(Lookup(a, x).nonce + Tally(txs, x, Sent))
    decreases |txs|
  {
    hide Lookup, Moved, Sorted, Keys, Share, Wrap64;
    if txs != [] {
      ApplyEffect(cx, a, txs[0]);
      WrapAdd(Lookup(a, x).nonce + Share(txs[0], x, Sent), Tally(txs[1..], x, Sent));
      LedgerEquation(cx, Apply(cx, a, txs[0]).value, txs[1..], x);
    }
  }

  /** Any two orders of one batch that both apply end in the same vector, hence the same root. */
  lemma PermutationInvariance(cx: Crypto, a: Accounts, s: seq<Tx>, t: seq<Tx>)
    requires Sorted(a) && ApplyAll(cx, a, s).Ok? && ApplyAll(cx, a, t).Ok?
    requires multiset(s) == multiset(t)
    ensures ApplyAll(cx, a, s) == ApplyAll(cx, a, t)
  {
    hide Lookup, ApplyAll, Sorted, Tally;
    var b, c := ApplyAll(cx, a, s).value, ApplyAll(cx, a, t).value;
    BatchKeeps(cx, a, s);
    BatchKeeps(cx, a, t);
    forall tx: Tx
      ensures tx in s <==> tx in t
    {
      assert tx in multiset(s) <==> tx in multiset(t);
    }
    assert Keys(b) == Keys(c);
    forall x: Address
      ensures Lookup(b, x) == Lookup(c, x)
    {
      LedgerEquation(cx, a, s, x);
      LedgerEquation(cx, a, t, x);
      TallyPermutation(s, t, x, Credits);
      TallyPermutation(s, t, x, Debits);
      TallyPermutation(s, t, x, Sent);
    }
    SortedUnique(b, c);
  }

  // ----- When a batch applies -----

  /** What `x` holds after transactions that all applied, told from the start and their tallies. */
  function BalanceAfter(a: Accounts, txs: seq<Tx>, x: Address): int
  {
    Lookup(a, x).balance + Tally(txs, x, Credits) - Tally(txs, x, Debits)
  }

  function NonceAfter(a: Accounts, txs: seq<Tx>, x: Address): u64
  {
    Wrap64(Lookup(a, x).nonce + Tally(txs, x, Sent))
  }

  /** The receiver can hold the amount after `before`: the guard of the overflow branch. */
  predicate FitsAfter(a: Accounts, before: seq<Tx>, tx: Tx)
  {
    BalanceAfter(a, before, tx.to) + tx.amount <= U64_MAX
  }

  /** The verdict on `tx` after `before` ran on `a`, every outcome with its reason. */
  ghost predicate Judged(cx: Crypto, a: Accounts, before: seq<Tx>, tx: Tx, verdict: Result<Accounts, StfError>)
  {
    var nonce, funds := NonceAfter(a, before, tx.from), BalanceAfter(a, before, tx.from);
    match verdict
    case Err(SelfTransfer) => tx.from == tx.to
    case Err(BadSignature) => tx.from != tx.to && !Authorised(cx, tx)
    case Err(NonceMismatch(expected, got)) => Authorised(cx, tx) && expected == nonce != tx.nonce == got
    case Err(InsufficientBalance(have, need)) =>
      Authorised(cx, tx) && nonce == tx.nonce && have == funds < need == tx.amount
    case Err(Overflow) =>
      Authorised(cx, tx) && nonce == tx.nonce && tx.amount <= funds && !FitsAfter(a, before, tx)
    case Ok(_) => Authorised(cx, tx) && nonce == tx.nonce && tx.amount <= funds && FitsAfter(a, before, tx)
  }

  lemma Judgement(cx: Crypto, a: Accounts, before: seq<Tx>, tx: Tx)
    requires Sorted(a) && ApplyAll(cx, a, before).Ok?
    ensures Judged(cx, a, before, tx, Apply(cx, ApplyAll(cx, a, before).value, tx))
  {
    hide Lookup, Moved, Sorted, ApplyAll, Tally, Wrap64;
    LedgerEquation(cx, a, before, tx.from);
    LedgerEquation(cx, a, before, tx.to);
  }

  /** Transaction `i` is signed, carries the nonce its sender is due and spends what its sender will have. */
  ghost predicate Payable(cx: Crypto, a: Accounts, txs: seq<Tx>, i: nat)
    requires i < |txs|
  {
    && Authorised(cx, txs[i])
    && txs[i].nonce == NonceAfter(a, txs[..i], txs[i].from)
    && txs[i].amount <= BalanceAfter(a, txs[..i], txs[i].from)
  }

  ghost predicate AllPayable(cx: Crypto, a: Accounts, txs: seq<Tx>)
  {
    forall i :: 0 <= i < |txs| ==> Payable(cx, a, txs, i)
  }

  /** No receiver goes past one word at any point of the batch. */
  ghost predicate HasRoom(a: Accounts, txs: seq<Tx>)
  {
    forall i :: 0 <= i < |txs| ==> FitsAfter(a, txs[..i], txs[i])
  }

  /** Both conditions on a list split into the same conditions on its start, and on its last transaction. */
  lemma ConditionsLast(cx: Crypto, a: Accounts, txs: seq<Tx>)
    requires txs != []
    ensures var n := |txs| - 1;
            && (AllPayable(cx, a, txs) <==> AllPayable(cx, a, txs[..n]) && Payable(cx, a, txs, n))
            && (HasRoom(a, txs) <==> HasRoom(a, txs[..n]) && FitsAfter(a, txs[..n], txs[n]))
  {
    hide FitsAfter, BalanceAfter, NonceAfter, Authorised;
    var init := txs[..|txs| - 1];
    forall i | 0 <= i < |init|
      ensures Payable(cx, a, init, i) <==> Payable(cx, a, txs, i)
      ensures FitsAfter(a, init[..i], init[i]) <==> FitsAfter(a, txs[..i], txs[i])
    {
      assert init[..i] == txs[..i] && init[i] == txs[i];
    }
    if HasRoom(a, txs) {
      forall i | 0 <= i < |init|
        ensures FitsAfter(a, init[..i], init[i])
      {
        assert FitsAfter(a, txs[..i], txs[i]);
      }
    }
  }

  lemma NothingApplies(cx: Crypto, a: Accounts)
    ensures ApplyAll(cx, a, []) == Ok(a) && AllPayable(cx, a, []) && HasRoom(a, [])
  {
  }

  lemma ApplyAllLast(cx: Crypto, a: Accounts, txs: seq<Tx>, tx: Tx)
    ensures ApplyAll(cx, a, txs + [tx]) ==
            match ApplyAll(cx, a, txs)
            case Ok(b) => Apply(cx, b, tx)
            case Err(e) => Err(e)
  {
    hide Apply;
    ApplyAllAppend(cx, a, txs, [tx]);
    if ApplyAll(cx, a, txs).Ok? {
      var r := Apply(cx, ApplyAll(cx, a, txs).value, tx);
      assert [tx][1..] == [];
      assert GoOn(cx, r, []) == r;
    }
  }

  /**
   * When a batch applies, exactly, in closed form: every transaction is payable and every receiver has
   * room. A payable batch without room fails on the overflow check and on nothing else.
   */
  lemma {:induction false} BatchAppliesExactly(cx: Crypto, a: Accounts, txs: seq<Tx>)
    requires Sorted(a)
    ensures ApplyAll(cx, a, txs).Ok? <==> AllPayable(cx, a, txs) && HasRoom(a, txs)
    ensures AllPayable(cx, a, txs) && !HasRoom(a, txs) ==> ApplyAll(cx, a, txs) == Err(Overflow)
    decreases |txs|
  {
    hide Apply, Sorted, FitsAfter, BalanceAfter, NonceAfter, AllPayable, HasRoom, ApplyAll;
    if txs == [] {
      NothingApplies(cx, a);
    } else {
      var n := |txs| - 1;
      assert txs == txs[..n] + [txs[n]];
      BatchAppliesExactly(cx, a, txs[..n]);
      ConditionsLast(cx, a, txs);
      ApplyAllLast(cx, a, txs[..n], txs[n]);
      if ApplyAll(cx, a, txs[..n]).Ok? {
        Judgement(cx, a, txs[..n], txs[n]);
      }
    }
  }

  /** When everything in circulation fits in one word, a payable batch always has room. */
  lemma {:induction false} SupplyGivesRoom(cx: Crypto, a: Accounts, txs: seq<Tx>)
    requires Sorted(a) && Supply(a) <= U64_MAX
    requires AllPayable(cx, a, txs)
    ensures HasRoom(a, txs) && ApplyAll(cx, a, txs).Ok?
    decreases |txs|
  {
    hide Sorted, FitsAfter, BalanceAfter, NonceAfter, AllPayable, HasRoom, ApplyAll, Sum;
    BatchAppliesExactly(cx, a, txs);
    if txs == [] {
      NothingApplies(cx, a);
    } else {
      var n := |txs| - 1;
      ConditionsLast(cx, a, txs);
      SupplyGivesRoom(cx, a, txs[..n]);
      Judgement(cx, a, txs[..n], txs[n]);
      BatchKeeps(cx, a, txs[..n]);
      NoOverflow(cx, ApplyAll(cx, a, txs[..n]).value, txs[n]);
    }
  }

  lemma AppliedAuthorised(cx: Crypto, a: Accounts, txs: seq<Tx>, i: nat)
    requires Sorted(a) && ApplyAll(cx, a, txs).Ok? && i < |txs|
    ensures Authorised(cx, txs[i])
  {
    hide ApplyAll, Sorted, HasRoom, Authorised;
    BatchAppliesExactly(cx, a, txs);
    assert Payable(cx, a, txs, i);
  }

  /** Every balance is what came in less what went out, and nothing leaves an account but on its own signature. */
  ghost predicate NothingStolen(cx: Crypto, a: Accounts, txs: seq<Tx>, b: Accounts)
  {
    && (forall x: Address :: Lookup(b, x).balance == BalanceAfter(a, txs, x))
    && (forall x: Address :: Lookup(b, x).balance < Lookup(a, x).balance ==> x in Senders(txs))
    && AllPayable(cx, a, txs)
  }

  lemma NoTheft(cx: Crypto, a: Accounts, txs: seq<Tx>)
    requires Sorted(a) && ApplyAll(cx, a, txs).Ok?
    ensures NothingStolen(cx, a, txs, ApplyAll(cx, a, txs).value)
  {
    hide Lookup, ApplyAll, Sorted, Tally, HasRoom, AllPayable, Senders;
    BatchAppliesExactly(cx, a, txs);
    var b := ApplyAll(cx, a, txs).value;
    forall x: Address
      ensures Lookup(b, x).balance == BalanceAfter(a, txs, x)
      ensures Lookup(b, x).balance < Lookup(a, x).balance ==> x in Senders(txs)
    {
      LedgerEquation(cx, a, txs, x);
      if x !in Senders(txs) {
        TallyOfStrangers(txs, x);
      }
    }
  }

  // ----- Nonces -----

  /** The i-th transaction carries its sender's starting nonce plus the number it sent before. */
  lemma NonceInSequence(cx: Crypto, a: Accounts, txs: seq<Tx>, i: nat)
    requires Sorted(a) && ApplyAll(cx, a, txs).Ok? && i < |txs|
    ensures txs[i].nonce == Wrap64(Lookup(a, txs[i].from).nonce + Tally(txs[..i], txs[i].from, Sent))
  {
    hide Lookup, Moved, Sorted, Tally;
    assert txs == txs[..i] + txs[i..];
    ApplyAllAppend(cx, a, txs[..i], txs[i..]);
    LedgerEquation(cx, a, txs[..i], txs[i].from);
  }

  lemma {:induction false} FindSent(txs: seq<Tx>, x: Address, k: nat) returns (i: nat)
    requires k < Tally(txs, x, Sent)
    ensures i < |txs| && txs[i].from == x && Tally(txs[..i], x, Sent) == k
  {
    if txs[0].from == x && k == 0 {
      i := 0;
    } else {
      var j := FindSent(txs[1..], x, k - Share(txs[0], x, Sent));
      i := j + 1;
      assert txs[..i] == [txs[0]] + txs[1..][..j];
    }
  }

  lemma TallyGrows(txs: seq<Tx>, i: nat, j: nat)
    requires i < j <= |txs|
    ensures Tally(txs[..i], txs[i].from, Sent) < Tally(txs[..j], txs[i].from, Sent) <= Tally(txs, txs[i].from, Sent)
  {
    var x := txs[i].from;
    assert txs[..j] == txs[..i] + ([txs[i]] + txs[i + 1..j]);
    TallyAppend(txs[..i], [txs[i]] + txs[i + 1..j], x, Sent);
    assert txs == txs[..j] + txs[j..];
    TallyAppend(txs[..j], txs[j..], x, Sent);
  }

  ghost predicate NoncesUnique(txs: seq<Tx>)
  {
    forall i, j :: 0 <= i < j < |txs| && txs[i].from == txs[j].from ==> txs[i].nonce != txs[j].nonce
  }

  /**
   * Replay protection, exactly: in a list that applied, no (sender, nonce) occurs twice if and only
   * if no address sent more than 2^64 transactions. Beyond that the unchecked increment wraps.
   */
  lemma {:induction false} ExactlyOnce(cx: Crypto, a: Accounts, txs: seq<Tx>)
    requires Sorted(a) && ApplyAll(cx, a, txs).Ok?
    ensures NoncesUnique(txs) <==> forall x: Address :: Tally(txs, x, Sent) <= TWO_64
  {
    hide Lookup, ApplyAll, Sorted, Tally, Wrap64;
    if x: Address :| Tally(txs, x, Sent) > TWO_64 {
      var i := FindSent(txs, x, 0);
      var j := FindSent(txs, x, TWO_64);
      NonceInSequence(cx, a, txs, i);
      NonceInSequence(cx, a, txs, j);
      WrapPeriod(Lookup(a, x).nonce);
      assert txs[i].nonce == txs[j].nonce;
      assert !NoncesUnique(txs);
    } else {
      forall i, j | 0 <= i < j < |txs| && txs[i].from == txs[j].from
        ensures txs[i].nonce != txs[j].nonce
      {
        NonceInSequence(cx, a, txs, i);
        NonceInSequence(cx, a, txs, j);
        TallyGrows(txs, i, j);
        TallyGrows(txs, j, |txs|);
        assert txs[..|txs|] == txs;
        assert Tally(txs, txs[i].from, Sent) <= TWO_64;
        var x := txs[i].from;
        WrapDistinct(Lookup(a, x).nonce, Tally(txs[..i], x, Sent), Tally(txs[..j], x, Sent));
      }
    }
  }

  /** A non-empty batch of fewer than 2^64 transactions never leads back to the vector it started from. */
  lemma BatchMoves(cx: Crypto, a: Accounts, txs: seq<Tx>)
    requires Sorted(a) && ApplyAll(cx, a, txs).Ok?
    requires 0 < |txs| < TWO_64
    ensures ApplyAll(cx, a, txs).value != a
  {
    hide Lookup, ApplyAll, Sorted, Wrap64;
    var x := txs[0].from;
    LedgerEquation(cx, a, txs, x);
    SentAtMostLength(txs, x);
    WrapDistinct(Lookup(a, x).nonce, 0, Tally(txs, x, Sent));
  }

  /** Transactions whose nonce is the last word; sending one wraps the sender back to nonce zero. */
  function Wraps(txs: seq<Tx>): nat
  {
    if txs == [] then 0 else (if txs[0].nonce == U64_MAX then 1 else 0) + Wraps(txs[1..])
  }

  lemma ApplyNonceSum(cx: Crypto, a: Accounts, tx: Tx)
    requires Sorted(a) && Apply(cx, a, tx).Ok?
    ensures Sum(Apply(cx, a, tx).value, Nonce) ==
            Sum(a, Nonce) + 1 - if tx.nonce == U64_MAX then TWO_64 else 0
  {
    hide Lookup, Update, Sorted, Keys, Sum;
    var from, to := Lookup(a, tx.from), Lookup(a, tx.to);
    var debited := Account(from.balance - tx.amount, NextNonce(from.nonce));
    UpdateIsMapUpdate(a, tx.from, debited);
    UpdateSum(a, tx.from, debited, Nonce);
    UpdateSum(Update(a, tx.from, debited), tx.to, Account(to.balance + tx.amount, to.nonce), Nonce);
  }

  /** The sum of all nonces counts transactions, short by 2^64 for every nonce that wrapped. */
  lemma {:induction false} NonceSumCounts(cx: Crypto, a: Accounts, txs: seq<Tx>)
    requires Sorted(a) && ApplyAll(cx, a, txs).Ok?
    ensures Sum(ApplyAll(cx, a, txs).value, Nonce) == Sum(a, Nonce) + |txs| - TWO_64 * Wraps(txs)
    decreases |txs|
  {
    hide Lookup, Moved, Sorted, Keys, Sum;
    if txs != [] {
      ApplyNonceSum(cx, a, txs[0]);
      ApplyEffect(cx, a, txs[0]);
      NonceSumCounts(cx, Apply(cx, a, txs[0]).value, txs[1..]);
    }
  }

  // ----- Two batches that both apply to one ledger -----

  /** Every listed sender has in `d` the nonce it has in `c`, and at least the balance. */
  ghost predicate Dominates(d: Accounts, c: Accounts, senders: set<Address>)
  {
    forall x :: x in senders ==>
      Lookup(d, x).nonce == Lookup(c, x).nonce && Lookup(d, x).balance >= Lookup(c, x).balance
  }

  /** A batch that applies to `c` is payable on every vector that dominates it, so only room can stop it there. */
  lemma DominatingApplies(cx: Crypto, c: Accounts, d: Accounts, txs: seq<Tx>, senders: set<Address>)
    requires Sorted(c) && Sorted(d)
    requires Senders(txs) <= senders && Dominates(d, c, senders)
    requires ApplyAll(cx, c, txs).Ok?
    ensures AllPayable(cx, d, txs)
    ensures if HasRoom(d, txs) then ApplyAll(cx, d, txs).Ok? else ApplyAll(cx, d, txs) == Err(Overflow)
  {
    hide Lookup, Sorted, ApplyAll, Tally, HasRoom, Authorised, Wrap64;
    BatchAppliesExactly(cx, c, txs);
    BatchAppliesExactly(cx, d, txs);
    forall i | 0 <= i < |txs|
      ensures Payable(cx, d, txs, i)
    {
      assert Payable(cx, c, txs, i) && txs[i].from in senders;
    }
  }

  /** A batch leaves every address outside its senders with its nonce and no less than its balance. */
  lemma OthersDominate(cx: Crypto, c: Accounts, txs: seq<Tx>, others: set<Address>)
    requires Sorted(c) && ApplyAll(cx, c, txs).Ok?
    requires Senders(txs) !! others
    ensures Dominates(ApplyAll(cx, c, txs).value, c, others)
  {
    hide Lookup, ApplyAll, Sorted, Tally;
    forall x | x in others
      ensures var d := ApplyAll(cx, c, txs).value;
              Lookup(d, x).nonce == Lookup(c, x).nonce && Lookup(d, x).balance >= Lookup(c, x).balance
    {
      LedgerEquation(cx, c, txs, x);
      TallyOfStrangers(txs, x);
    }
  }

  lemma FitsAppend(cx: Crypto, c: Accounts, s: seq<Tx>, before: seq<Tx>, tx: Tx)
    requires Sorted(c) && ApplyAll(cx, c, s).Ok?
    ensures FitsAfter(c, s + before, tx) <==> FitsAfter(ApplyAll(cx, c, s).value, before, tx)
  {
    hide Lookup, Sorted, ApplyAll, Tally;
    LedgerEquation(cx, c, s, tx.to);
    TallyAppend(s, before, tx.to, Credits);
    TallyAppend(s, before, tx.to, Debits);
  }

  /** Room after a batch that applied can be told from before it. */
  lemma RoomAppend(cx: Crypto, c: Accounts, s: seq<Tx>, t: seq<Tx>)
    requires Sorted(c) && ApplyAll(cx, c, s).Ok?
    ensures HasRoom(c, s + t) <==> HasRoom(ApplyAll(cx, c, s).value, t)
  {
    hide Sorted, ApplyAll, FitsAfter, AllPayable;
    var d, u := ApplyAll(cx, c, s).value, s + t;
    BatchAppliesExactly(cx, c, s);
    forall i | 0 <= i < |s|
      ensures FitsAfter(c, u[..i], u[i])
    {
      assert u[..i] == s[..i] && FitsAfter(c, s[..i], s[i]);
    }
    forall i | 0 <= i < |t|
      ensures FitsAfter(c, u[..|s| + i], u[|s| + i]) <==> FitsAfter(d, t[..i], t[i])
    {
      assert u[..|s| + i] == s + t[..i];
      FitsAppend(cx, c, s, t[..i], t[i]);
    }
    if HasRoom(c, u) {
      forall i | 0 <= i < |t|
        ensures FitsAfter(d, t[..i], t[i])
      {
        assert FitsAfter(c, u[..|s| + i], u[|s| + i]);
      }
    }
    if HasRoom(d, t) {
      forall k | |s| <= k < |u|
        ensures FitsAfter(c, u[..k], u[k])
      {
        var i := k - |s|;
        assert FitsAfter(d, t[..i], t[i]);
      }
    }
  }

  /** No sender sends so often that its nonce comes back to where it was. */
  ghost predicate NoWrap(txs: seq<Tx>)
  {
    forall x: Address :: Tally(txs, x, Sent) < TWO_64
  }

  lemma ShortNoWrap(txs: seq<Tx>)
    requires |txs| < TWO_64
    ensures NoWrap(txs)
  {
    hide Tally;
    forall x: Address
      ensures Tally(txs, x, Sent) < TWO_64
    {
      SentAtMostLength(txs, x);
    }
  }

  lemma {:induction false} SenderHasSent(txs: seq<Tx>, x: Address)
    requires x in Senders(txs)
    ensures Tally(txs, x, Sent) > 0
  {
    if txs[0].from != x {
      PartiesSplit(txs);
      SenderHasSent(txs[1..], x);
    }
  }

  /** A sender both batches share stops the second: its first transaction there carries a nonce already used. */
  lemma SharedSenderStops(cx: Crypto, c: Accounts, s: seq<Tx>, t: seq<Tx>, x: Address)
    requires Sorted(c)
    requires ApplyAll(cx, c, s).Ok? && ApplyAll(cx, c, t).Ok?
    requires x in Senders(s) && x in Senders(t) && Tally(s, x, Sent) < TWO_64
    ensures ApplyAll(cx, ApplyAll(cx, c, s).value, t).Err?
  {
    hide ApplyAll, Sorted, Tally, Lookup, Wrap64, Senders;
    var d := ApplyAll(cx, c, s).value;
    SenderHasSent(s, x);
    SenderHasSent(t, x);
    var i := FindSent(t, x, 0);
    NonceInSequence(cx, c, t, i);
    LedgerEquation(cx, c, s, x);
    BatchKeeps(cx, c, s);
    WrapDistinct(Lookup(c, x).nonce, 0, Tally(s, x, Sent));
    if ApplyAll(cx, d, t).Ok? {
      NonceInSequence(cx, d, t, i);
      assert false;
    }
  }

  /** With disjoint senders only receiver room decides, and without room the batch fails on overflow. */
  lemma DisjointAppliesAfter(cx: Crypto, c: Accounts, s: seq<Tx>, t: seq<Tx>)
    requires Sorted(c)
    requires ApplyAll(cx, c, s).Ok? && ApplyAll(cx, c, t).Ok?
    requires Senders(s) !! Senders(t)
    ensures var d := ApplyAll(cx, c, s).value;
            && AllPayable(cx, d, t)
            && if HasRoom(c, s + t) then ApplyAll(cx, d, t).Ok? else ApplyAll(cx, d, t) == Err(Overflow)
  {
    hide Lookup, ApplyAll, Sorted, Sum, Dominates, HasRoom, AllPayable;
    BatchKeeps(cx, c, s);
    OthersDominate(cx, c, s, Senders(t));
    DominatingApplies(cx, c, ApplyAll(cx, c, s).value, t, Senders(t));
    RoomAppend(cx, c, s, t);
  }

  /**
   * When a batch applies after another, exactly: if and only if they share no sender and its receivers
   * have room then. Both conditions can be read off `c` and the two batches.
   */
  lemma AppliesAfterExactly(cx: Crypto, c: Accounts, s: seq<Tx>, t: seq<Tx>)
    requires Sorted(c)
    requires ApplyAll(cx, c, s).Ok? && ApplyAll(cx, c, t).Ok?
    ensures var d := ApplyAll(cx, c, s).value;
            && (HasRoom(c, s + t) <==> HasRoom(d, t))
            && (NoWrap(s) ==> (ApplyAll(cx, d, t).Ok? <==> Senders(s) !! Senders(t) && HasRoom(c, s + t)))
            && (Senders(s) !! Senders(t) ==> (ApplyAll(cx, d, t).Ok? <==> HasRoom(c, s + t)))
  {
    hide ApplyAll, Sorted, HasRoom, AllPayable, Tally, Senders;
    RoomAppend(cx, c, s, t);
    if Senders(s) !! Senders(t) {
      DisjointAppliesAfter(cx, c, s, t);
    } else if NoWrap(s) {
      var x :| x in Senders(s) && x in Senders(t);
      SharedSenderStops(cx, c, s, t, x);
    }
  }

  /** So a batch with other senders always applies when everything in circulation fits in one word. */
  lemma AppliesAfter(cx: Crypto, c: Accounts, s: seq<Tx>, t: seq<Tx>)
    requires Sorted(c) && Supply(c) <= U64_MAX
    requires ApplyAll(cx, c, s).Ok? && ApplyAll(cx, c, t).Ok?
    requires Senders(s) !! Senders(t)
    ensures ApplyAll(cx, ApplyAll(cx, c, s).value, t).Ok? && HasRoom(c, s + t)
  {
    hide ApplyAll, Sorted, Sum, HasRoom, AllPayable, Senders;
    BatchKeeps(cx, c, s);
    DisjointAppliesAfter(cx, c, s, t);
    SupplyGivesRoom(cx, ApplyAll(cx, c, s).value, t);
  }

  /**
   * Confluence, exactly: batches that each apply do so one after the other if and only if they share no
   * sender and that order leaves every receiver room; and when both orders apply they lead to one vector.
   */
  lemma ConfluenceExactly(cx: Crypto, c: Accounts, s: seq<Tx>, t: seq<Tx>)
    requires Sorted(c)
    requires ApplyAll(cx, c, s).Ok? && ApplyAll(cx, c, t).Ok?
    ensures NoWrap(s) || Senders(s) !! Senders(t) ==>
              (ApplyAll(cx, c, s + t).Ok? <==> Senders(s) !! Senders(t) && HasRoom(c, s + t))
    ensures NoWrap(t) || Senders(s) !! Senders(t) ==>
              (ApplyAll(cx, c, t + s).Ok? <==> Senders(s) !! Senders(t) && HasRoom(c, t + s))
    ensures ApplyAll(cx, c, s + t).Ok? && ApplyAll(cx, c, t + s).Ok? ==>
              ApplyAll(cx, c, s + t) == ApplyAll(cx, c, t + s)
  {
    hide Lookup, ApplyAll, Sorted, Sum, HasRoom, NoWrap, Senders;
    AppliesAfterExactly(cx, c, s, t);
    AppliesAfterExactly(cx, c, t, s);
    ApplyAllAppend(cx, c, s, t);
    ApplyAllAppend(cx, c, t, s);
    if ApplyAll(cx, c, s + t).Ok? && ApplyAll(cx, c, t + s).Ok? {
      PermutationInvariance(cx, c, s + t, t + s);
    }
  }

  /** With a supply that fits in one word both orders always apply, with one result. */
  lemma Confluence(cx: Crypto, c: Accounts, s: seq<Tx>, t: seq<Tx>)
    requires Sorted(c) && Supply(c) <= U64_MAX
    requires ApplyAll(cx, c, s).Ok? && ApplyAll(cx, c, t).Ok?
    requires Senders(s) !! Senders(t)
    ensures ApplyAll(cx, ApplyAll(cx, c, s).value, t).Ok?
    ensures ApplyAll(cx, ApplyAll(cx, c, s).value, t) == ApplyAll(cx, ApplyAll(cx, c, t).value, s)
  {
    hide Lookup, ApplyAll, Sorted, Sum, HasRoom, Senders;
    AppliesAfter(cx, c, s, t);
    AppliesAfter(cx, c, t, s);
    ConfluenceExactly(cx, c, s, t);
    ApplyAllAppend(cx, c, s, t);
    ApplyAllAppend(cx, c, t, s);
  }

  /** Two transfers to one receiver: the second overflows exactly when both together do not fit. */
  lemma SharedReceiver(cx: Crypto, c: Accounts, s: Tx, t: Tx)
    requires Sorted(c) && Apply(cx, c, s).Ok? && Apply(cx, c, t).Ok?
    requires s.from != t.from && s.to == t.to
    ensures var r := Apply(cx, Apply(cx, c, s).value, t);
            if Lookup(c, s.to).balance + s.amount + t.amount > U64_MAX then r == Err(Overflow) else r.Ok?
  {
    hide Lookup, Moved, Keys, Sum;
    ApplyEffect(cx, c, s);
  }

  lemma TwoHolders(c: Accounts)
    requires c == [Entry(1, Account(U64_MAX, 0)), Entry(2, Account(1, 0))]
    ensures Sorted(c) && Supply(c) == U64_MAX + 1
    ensures Lookup(c, 1) == Account(U64_MAX, 0) && Lookup(c, 2) == Account(1, 0) && Lookup(c, 3) == EMPTY_ACCOUNT
  {
    assert c[1..] == [Entry(2, Account(1, 0))] && c[1..][1..] == [];
    assert Sum(c[1..], Balance) == 1 + Sum([], Balance);
    LookupAt(c, 0);
    LookupAt(c, 1);
    LookupMeaning(c, 3);
  }

  /**
   * The supply bound of `Confluence` is needed. With 2^64 in circulation two transfers with
   * different senders can each apply, and neither after the other: the receiver would overflow.
   */
  lemma ConfluenceNeedsSupplyBound() returns (cx: Crypto, c: Accounts, s: Tx, t: Tx)
    ensures Sorted(c) && Supply(c) == U64_MAX + 1 && s.from != t.from
    ensures Apply(cx, c, s).Ok? && Apply(cx, c, t).Ok?
    ensures Apply(cx, Apply(cx, c, s).value, t) == Err(Overflow)
    ensures Apply(cx, Apply(cx, c, t).value, s) == Err(Overflow)
  {
    hide Lookup, Moved, Sum, Sorted;
    cx := Crypto(_ => ZERO_HASH, (_, signature) => if |signature| > 0 then Some(signature[0]) else None);
    c := [Entry(1, Account(U64_MAX, 0)), Entry(2, Account(1, 0))];
    s := Tx(1, 3, U64_MAX, 0, seq(65, _ => 1));
    t := Tx(2, 3, 1, 0, seq(65, _ => 2));
    TwoHolders(c);
    assert Apply(cx, c, s).Ok? && Apply(cx, c, t).Ok?;
    SharedReceiver(cx, c, s, t);
    SharedReceiver(cx, c, t, s);
  }
}
