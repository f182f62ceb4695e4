/** Addresses, accounts, transactions and the byte strings that get hashed. */
module SharedTypes {
  import opened Wrappers
  import opened Bytes

  /**
   * A 20-byte address, held as the number its bytes spell; `AddressOrder` shows that `<` on these
   * numbers is the byte-wise order the account vector is sorted by.
   */
  type Address = x: int | 0 <= x < 0x1_0000000000_0000000000_0000000000_0000000000

  function Zeros(n: nat): (z: seq<byte>)
    ensures |z| == n
  {
    if n == 0 then [] else [0] + Zeros(n - 1)
  }

  type Hash = h: seq<byte> | |h| == 32 witness Zeros(32)

  const ZERO_HASH: Hash := Zeros(32)

  predicate IsZero(h: Hash)
  {
    h == ZERO_HASH
  }

  datatype Account = Account(balance: u64, nonce: u64)

  /** One entry of the account vector. */
  datatype Entry = Entry(addr: Address, acc: Account)

  type Accounts = seq<Entry>

  datatype Tx = Tx(from: Address, to: Address, amount: u64, nonce: u64, signature: seq<byte>)

  /** What the proof commits to and the contract checks. */
  datatype PublicValues = PublicValues(prevRoot: Hash, newRoot: Hash, batchHash: Hash)

  /**
   * The two primitives the rollup takes from outside: keccak256 and secp256k1 key recovery. Nothing
   * is assumed of them; every theorem holds for any pair of functions.
   */
  datatype Crypto = Crypto(keccak: seq<byte> -> Hash, recover: (Hash, seq<byte>) -> Option<Address>)

  /** A signature of the wrong length is rejected before any curve arithmetic. */
  function RecoverAddress(cx: Crypto, msgHash: Hash, signature: seq<byte>): Option<Address>
  {
    if |signature| != 65 then None else cx.recover(msgHash, signature)
  }

  function SigningPayload(tx: Tx): (b: seq<byte>)
    ensures |b| == 56
  {
    BigEndian(tx.from, 20) + BigEndian(tx.to, 20) + BigEndian(tx.amount, 8) + BigEndian(tx.nonce, 8)
  }

  function SigningHash(cx: Crypto, tx: Tx): Hash
  {
    cx.keccak(SigningPayload(tx))
  }

  function FullEncoding(tx: Tx): seq<byte>
  {
    SigningPayload(tx) + tx.signature
  }

  function FullHash(cx: Crypto, tx: Tx): Hash
  {
    cx.keccak(FullEncoding(tx))
  }

  function EncodeEntry(e: Entry): (b: seq<byte>)
    ensures |b| == 36
  {
    BigEndian(e.addr, 20) + BigEndian(e.acc.balance, 8) + BigEndian(e.acc.nonce, 8)
  }

  function EncodeAccounts(a: Accounts): (b: seq<byte>)
    ensures |b| == 36 * |a|
  {
    if a == [] then [] else EncodeEntry(a[0]) + EncodeAccounts(a[1..])
  }

  function Root(cx: Crypto, a: Accounts): Hash
  {
    cx.keccak(EncodeAccounts(a))
  }

  function EncodeBatch(cx: Crypto, txs: seq<Tx>): (b: seq<byte>)
    ensures |b| == 32 * |txs|
  {
    if txs == [] then [] else FullHash(cx, txs[0]) + EncodeBatch(cx, txs[1..])
  }

  function BatchHash(cx: Crypto, txs: seq<Tx>): Hash
  {
    cx.keccak(EncodeBatch(cx, txs))
  }

  /** `abi.encode((bytes32, bytes32, bytes32))`: the three words one after another. */
  function EncodePublicValues(pv: PublicValues): (b: seq<byte>)
    ensures |b| == 96
  {
    pv.prevRoot + pv.newRoot + pv.batchHash
  }

  /** `abi.decode` of three static words: fails on short input, ignores trailing bytes. */
  function DecodePublicValues(b: seq<byte>): Option<PublicValues>
  {
    if |b| < 96 then None else Some(PublicValues(b[..32], b[32..64], b[64..96]))
  }

  lemma PublicValuesRoundTrip(pv: PublicValues)
    ensures DecodePublicValues(EncodePublicValues(pv)) == Some(pv)
  {
    var b := EncodePublicValues(pv);
    assert b[..32] == pv.prevRoot;
    assert b[32..64] == pv.newRoot;
    assert b[64..96] == pv.batchHash;
  }

  /** The absorbing hasher that `shared-types` feeds piece by piece. */
  class Keccak {
    var absorbed: seq<byte>

    constructor ()
      ensures absorbed == []
    {
      absorbed := [];
    }

    method Absorb(data: seq<byte>)
      modifies this
      ensures absorbed == old(absorbed) + data
    {
      absorbed := absorbed + data;
    }

    method Finalize(cx: Crypto) returns (h: Hash)
      ensures h == cx.keccak(absorbed)
    {
      h := cx.keccak(absorbed);
    }
  }

  /** `Batch::hash`. */
  method HashBatch(cx: Crypto, txs: seq<Tx>) returns (h: Hash)
    ensures h == BatchHash(cx, txs) == cx.keccak(EncodeBatch(cx, txs))
  {
    hide FullHash;
    var k := new Keccak();
    for i := 0 to |txs|
      invariant k.absorbed + EncodeBatch(cx, txs[i..]) == EncodeBatch(cx, txs)
    {
      assert txs[i..][1..] == txs[i + 1..];
      k.Absorb(FullHash(cx, txs[i]));
    }
    assert txs[|txs|..] == [];
    assert k.absorbed == EncodeBatch(cx, txs);
    h := k.Finalize(cx);
  }

  // ----- Where each field lies -----

  lemma {:induction false} ZerosAreZero(n: nat)
    ensures forall i :: 0 <= i < n ==> Zeros(n)[i] == 0
  {
    if n > 0 {
      ZerosAreZero(n - 1);
    }
  }

  /** The zero hash is the one whose bytes are all zero. */
  lemma ZeroHashBytes(h: Hash)
    ensures IsZero(h) <==> forall i :: 0 <= i < 32 ==> h[i] == 0
  {
    ZerosAreZero(32);
  }

  /** The bytes that are signed: sender, receiver, amount and nonce at 0, 20, 40 and 48, big-endian. */
  lemma SigningPayloadLayout(tx: Tx)
    ensures var b := SigningPayload(tx);
            && FromBigEndian(b[..20]) == tx.from && FromBigEndian(b[20..40]) == tx.to
            && FromBigEndian(b[40..48]) == tx.amount && FromBigEndian(b[48..]) == tx.nonce
  {
    hide FromBigEndian, BigEndian;
    var b := SigningPayload(tx);
    Pow256Values();
    BigEndianRoundTrip(tx.from, 20);
    BigEndianRoundTrip(tx.to, 20);
    BigEndianRoundTrip(tx.amount, 8);
    BigEndianRoundTrip(tx.nonce, 8);
    assert b[..20] == BigEndian(tx.from, 20) && b[20..40] == BigEndian(tx.to, 20);
    assert b[40..48] == BigEndian(tx.amount, 8) && b[48..] == BigEndian(tx.nonce, 8);
  }

  /** The bytes of a transaction in a batch: what was signed, then the signature. */
  lemma FullEncodingLayout(tx: Tx)
    ensures var b := FullEncoding(tx);
            && |b| == 56 + |tx.signature| && b[56..] == tx.signature
            && FromBigEndian(b[..20]) == tx.from && FromBigEndian(b[20..40]) == tx.to
            && FromBigEndian(b[40..48]) == tx.amount && FromBigEndian(b[48..56]) == tx.nonce
  {
    hide FromBigEndian, SigningPayload;
    var b, p := FullEncoding(tx), SigningPayload(tx);
    SigningPayloadLayout(tx);
    assert b[..20] == p[..20] && b[20..40] == p[20..40] && b[40..48] == p[40..48] && b[48..56] == p[48..];
  }

  lemma EncodeEntryLayout(e: Entry)
    ensures var b := EncodeEntry(e);
            && FromBigEndian(b[..20]) == e.addr
            && FromBigEndian(b[20..28]) == e.acc.balance && FromBigEndian(b[28..]) == e.acc.nonce
  {
    hide FromBigEndian, BigEndian;
    var b := EncodeEntry(e);
    Pow256Values();
    BigEndianRoundTrip(e.addr, 20);
    BigEndianRoundTrip(e.acc.balance, 8);
    BigEndianRoundTrip(e.acc.nonce, 8);
    assert b[..20] == BigEndian(e.addr, 20);
    assert b[20..28] == BigEndian(e.acc.balance, 8) && b[28..] == BigEndian(e.acc.nonce, 8);
  }

  /** The bytes a root hashes: entry `i` at `36 * i`, its address, balance and nonce one after another. */
  lemma {:induction false} EncodeAccountsLayout(a: Accounts, i: nat)
    requires i < |a|
    ensures var b := EncodeAccounts(a)[36 * i..36 * i + 36];
            && FromBigEndian(b[..20]) == a[i].addr
            && FromBigEndian(b[20..28]) == a[i].acc.balance && FromBigEndian(b[28..]) == a[i].acc.nonce
  {
    hide FromBigEndian, EncodeEntry;
    var first, rest := EncodeEntry(a[0]), EncodeAccounts(a[1..]);
    if i == 0 {
      EncodeEntryLayout(a[0]);
      assert (first + rest)[0..36] == first;
    } else {
      EncodeAccountsLayout(a[1..], i - 1);
      assert (first + rest)[36 * i..36 * i + 36] == rest[36 * (i - 1)..36 * (i - 1) + 36];
    }
  }

  /** The bytes a batch hash hashes: at `32 * i` the hash of the whole transaction `i`. */
  lemma {:induction false} EncodeBatchLayout(cx: Crypto, txs: seq<Tx>, i: nat)
    requires i < |txs|
    ensures EncodeBatch(cx, txs)[32 * i..32 * i + 32] == cx.keccak(FullEncoding(txs[i]))
  {
    hide FullEncoding;
    var first: seq<byte>, rest: seq<byte> := FullHash(cx, txs[0]), EncodeBatch(cx, txs[1..]);
    if i == 0 {
      assert (first + rest)[0..32] == first;
    } else {
      EncodeBatchLayout(cx, txs[1..], i - 1);
      assert (first + rest)[32 * i..32 * i + 32] == rest[32 * (i - 1)..32 * (i - 1) + 32];
    }
  }

  /** The three words of the public values: old root, new root, batch hash. */
  lemma PublicValuesLayout(pv: PublicValues)
    ensures var b := EncodePublicValues(pv);
            b[..32] == pv.prevRoot && b[32..64] == pv.newRoot && b[64..] == pv.batchHash
  {
  }

  // ----- What the encodings pin down -----

  /** Two different inputs on which keccak256 agrees. */
  predicate Collision(cx: Crypto, x: seq<byte>, y: seq<byte>)
  {
    x != y && cx.keccak(x) == cx.keccak(y)
  }

  /** Sorting by number is sorting by address bytes. */
  lemma AddressOrder(x: Address, y: Address)
    ensures x < y <==> LexLess(BigEndian(x, 20), BigEndian(y, 20))
  {
    Pow256Values();
    BigEndianOrder(x, y, 20);
  }

  lemma SplitAt<T>(a: seq<T>, b: seq<T>, c: seq<T>, d: seq<T>)
    requires |a| == |c| && a + b == c + d
    ensures a == c && b == d
  {
    assert a == (a + b)[..|a|] && c == (c + d)[..|c|];
    assert b == (a + b)[|a|..] && d == (c + d)[|c|..];
  }

  lemma EncodeEntryInjective(e: Entry, f: Entry)
    requires EncodeEntry(e) == EncodeEntry(f)
    ensures e == f
  {
    Pow256Values();
    SplitAt(BigEndian(e.addr, 20) + BigEndian(e.acc.balance, 8), BigEndian(e.acc.nonce, 8),
            BigEndian(f.addr, 20) + BigEndian(f.acc.balance, 8), BigEndian(f.acc.nonce, 8));
    SplitAt(BigEndian(e.addr, 20), BigEndian(e.acc.balance, 8), BigEndian(f.addr, 20), BigEndian(f.acc.balance, 8));
    BigEndianInjective(e.addr, f.addr, 20);
    BigEndianInjective(e.acc.balance, f.acc.balance, 8);
    BigEndianInjective(e.acc.nonce, f.acc.nonce, 8);
  }

  lemma {:induction false} EncodeAccountsInjective(a: Accounts, b: Accounts)
    requires EncodeAccounts(a) == EncodeAccounts(b)
    ensures a == b
  {
    assert |a| == |b|;
    if a != [] {
      SplitAt(EncodeEntry(a[0]), EncodeAccounts(a[1..]), EncodeEntry(b[0]), EncodeAccounts(b[1..]));
      EncodeEntryInjective(a[0], b[0]);
      EncodeAccountsInjective(a[1..], b[1..]);
    }
  }

  /** A state root binds the whole account vector, sorted or not. */
  lemma RootBinding(cx: Crypto, a: Accounts, b: Accounts)
    requires Root(cx, a) == Root(cx, b)
    ensures a == b || Collision(cx, EncodeAccounts(a), EncodeAccounts(b))
  {
    if EncodeAccounts(a) == EncodeAccounts(b) {
      EncodeAccountsInjective(a, b);
    }
  }

  lemma SigningPayloadInjective(s: Tx, t: Tx)
    requires SigningPayload(s) == SigningPayload(t)
    ensures s.(signature := []) == t.(signature := [])
  {
    Pow256Values();
    var s2, t2 := BigEndian(s.from, 20) + BigEndian(s.to, 20), BigEndian(t.from, 20) + BigEndian(t.to, 20);
    SplitAt(s2 + BigEndian(s.amount, 8), BigEndian(s.nonce, 8), t2 + BigEndian(t.amount, 8), BigEndian(t.nonce, 8));
    SplitAt(s2, BigEndian(s.amount, 8), t2, BigEndian(t.amount, 8));
    SplitAt(BigEndian(s.from, 20), BigEndian(s.to, 20), BigEndian(t.from, 20), BigEndian(t.to, 20));
    BigEndianInjective(s.from, t.from, 20);
    BigEndianInjective(s.to, t.to, 20);
    BigEndianInjective(s.amount, t.amount, 8);
    BigEndianInjective(s.nonce, t.nonce, 8);
  }

  /** A signature cannot be carried over to a transfer that differs in any signed field. */
  lemma SigningHashBinding(cx: Crypto, s: Tx, t: Tx)
    requires SigningHash(cx, s) == SigningHash(cx, t)
    ensures s.(signature := []) == t.(signature := []) || Collision(cx, SigningPayload(s), SigningPayload(t))
  {
    if SigningPayload(s) == SigningPayload(t) {
      SigningPayloadInjective(s, t);
    }
  }

  lemma FullEncodingInjective(s: Tx, t: Tx)
    requires FullEncoding(s) == FullEncoding(t)
    ensures s == t
  {
    SplitAt(SigningPayload(s), s.signature, SigningPayload(t), t.signature);
    SigningPayloadInjective(s, t);
  }

  lemma {:induction false} EncodeBatchBinding(cx: Crypto, s: seq<Tx>, t: seq<Tx>)
    requires EncodeBatch(cx, s) == EncodeBatch(cx, t)
    ensures |s| == |t|
    ensures s == t || exists i :: 0 <= i < |s| && Collision(cx, FullEncoding(s[i]), FullEncoding(t[i]))
  {
    assert |s| == |t|;
    if s != [] {
      SplitAt(FullHash(cx, s[0]), EncodeBatch(cx, s[1..]), FullHash(cx, t[0]), EncodeBatch(cx, t[1..]));
      EncodeBatchBinding(cx, s[1..], t[1..]);
      if FullEncoding(s[0]) == FullEncoding(t[0]) {
        FullEncodingInjective(s[0], t[0]);
        if s != t {
          assert s[1..] != t[1..];
          var i :| 0 <= i < |s[1..]| && Collision(cx, FullEncoding(s[1..][i]), FullEncoding(t[1..][i]));
          assert Collision(cx, FullEncoding(s[i + 1]), FullEncoding(t[i + 1]));
        }
      } else {
        assert Collision(cx, FullEncoding(s[0]), FullEncoding(t[0]));
      }
    }
  }

  /** A batch hash binds every transaction of the batch, signature and order included. */
  lemma {:induction false} BatchHashBinding(cx: Crypto, s: seq<Tx>, t: seq<Tx>)
    requires BatchHash(cx, s) == BatchHash(cx, t)
    ensures s == t
         || Collision(cx, EncodeBatch(cx, s), EncodeBatch(cx, t))
         || (|s| == |t| && exists i :: 0 <= i < |s| && Collision(cx, FullEncoding(s[i]), FullEncoding(t[i])))
  {
    if EncodeBatch(cx, s) == EncodeBatch(cx, t) {
      EncodeBatchBinding(cx, s, t);
    }
  }
}
