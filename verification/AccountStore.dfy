/**
 * The account store: a vector of entries searched by binary search and updated in place. The
 * functions give its meaning on sequences, for every vector; the class is the store itself.
 */
module AccountStore {
  import opened Bytes
  import opened SharedTypes

  const EMPTY_ACCOUNT := Account(0, 0)

  /** Where a key is, or where it would have to be inserted. */
  datatype Slot = Found(index: nat) | Vacant(index: nat)

  /** Binary search in `a[lo..hi]`. */
  function Search(a: Accounts, key: Address, lo: nat, hi: nat): (s: Slot)
    requires lo <= hi <= |a|
    ensures s.Found? ==> lo <= s.index < hi && a[s.index].addr == key
    ensures s.Vacant? ==> lo <= s.index <= hi
    decreases hi - lo, 1
  {
    if lo == hi then Vacant(lo) else Probe(a, key, lo, hi, lo + (hi - lo) / 2)
  }

  /** One comparison of the search, at `mid`. */
  function Probe(a: Accounts, key: Address, lo: nat, hi: nat, mid: nat): (s: Slot)
    requires lo <= mid < hi <= |a|
    ensures s.Found? ==> lo <= s.index < hi && a[s.index].addr == key
    ensures s.Vacant? ==> lo <= s.index <= hi
    decreases hi - lo, 0
  {
    if a[mid].addr == key then Found(mid)
    else if a[mid].addr < key then Search(a, key, mid + 1, hi)
    else Search(a, key, lo, mid)
  }

  /** The account of `key`; an address that is not listed has zero balance and nonce. */
  function Lookup(a: Accounts, key: Address): Account
  {
    var s := Search(a, key, 0, |a|);
    if s.Found? then a[s.index].acc else EMPTY_ACCOUNT
  }

  function InsertAt(a: Accounts, i: nat, e: Entry): Accounts
    requires i <= |a|
  {
    a[..i] + [e] + a[i..]
  }

  function Update(a: Accounts, key: Address, acc: Account): Accounts
  {
    var s := Search(a, key, 0, |a|);
    if s.Found? then a[s.index := Entry(key, acc)] else InsertAt(a, s.index, Entry(key, acc))
  }

  ghost predicate Sorted(a: Accounts)
  {
    forall i, j :: 0 <= i < j < |a| ==> a[i].addr < a[j].addr
  }

  function Keys(a: Accounts): set<Address>
  {
    set e | e in a :: e.addr
  }

  /** The two numbers an account carries; `Sum` adds one of them up over the vector. */
  datatype Field = Balance | Nonce

  function FieldOf(acc: Account, f: Field): nat
  {
    match f
    case Balance => acc.balance
    case Nonce => acc.nonce
  }

  function Sum(a: Accounts, f: Field): nat
  {
    if a == [] then 0 else FieldOf(a[0].acc, f) + Sum(a[1..], f)
  }

  function Supply(a: Accounts): nat
  {
    Sum(a, Balance)
  }

  // ----- A sorted vector is a map -----

  ghost predicate Below(a: Accounts, key: Address, i: nat)
    requires i <= |a|
  {
    forall j :: 0 <= j < i ==> a[j].addr < key
  }

  ghost predicate Above(a: Accounts, key: Address, i: nat)
    requires i <= |a|
  {
    forall j :: i <= j < |a| ==> key < a[j].addr
  }

  /** Position `i` splits the vector at `key`: smaller keys before it, larger ones from it on. */
  ghost predicate Splits(a: Accounts, key: Address, i: nat)
    requires i <= |a|
  {
    Below(a, key, i) && Above(a, key, i)
  }

  lemma SortedAround(a: Accounts, key: Address, mid: nat)
    requires Sorted(a) && mid < |a|
    ensures a[mid].addr < key ==> Below(a, key, mid + 1)
    ensures key < a[mid].addr ==> Above(a, key, mid)
  {
  }

  /** On a sorted vector a failed search yields the one place where inserting keeps the order. */
  lemma {:induction false} SearchSplits(a: Accounts, key: Address, lo: nat, hi: nat)
    requires Sorted(a) && lo <= hi <= |a|
    requires Below(a, key, lo) && Above(a, key, hi)
    ensures var s := Search(a, key, lo, hi); s.Vacant? ==> Splits(a, key, s.index)
    decreases hi - lo
  {
    hide Sorted, Below, Above;
    if lo < hi {
      var mid := lo + (hi - lo) / 2;
      SortedAround(a, key, mid);
      if a[mid].addr < key {
        SearchSplits(a, key, mid + 1, hi);
      } else if key < a[mid].addr {
        SearchSplits(a, key, lo, mid);
      }
    }
  }

  /** On a sorted vector the search finds exactly the listed keys. */
  lemma SearchSorted(a: Accounts, key: Address)
    requires Sorted(a)
    ensures var s := Search(a, key, 0, |a|);
            (s.Found? <==> key in Keys(a)) && (s.Vacant? ==> Splits(a, key, s.index))
  {
    SearchSplits(a, key, 0, |a|);
    var s := Search(a, key, 0, |a|);
    if s.Found? {
      assert a[s.index] in a;
    } else {
      forall i | 0 <= i < |a|
        ensures a[i].addr != key
      {
        if i < s.index {
        } else {
        }
      }
    }
  }

  lemma LookupMeaning(a: Accounts, key: Address)
    requires Sorted(a)
    ensures if key in Keys(a) then Entry(key, Lookup(a, key)) in a else Lookup(a, key) == EMPTY_ACCOUNT
  {
    SearchSorted(a, key);
  }

  lemma LookupAt(a: Accounts, i: nat)
    requires Sorted(a) && i < |a|
    ensures a[i].addr in Keys(a) && Lookup(a, a[i].addr) == a[i].acc
  {
    assert a[i] in a;
    SearchSorted(a, a[i].addr);
  }

  ghost predicate IsUpdated(a: Accounts, b: Accounts, e: Entry)
  {
    && e in b
    && (forall f :: f in b && f.addr == e.addr ==> f == e)
    && (forall f: Entry :: f.addr != e.addr ==> (f in b <==> f in a))
  }

  lemma OverwriteEntries(a: Accounts, i: nat, e: Entry)
    requires Sorted(a) && i < |a| && a[i].addr == e.addr
    ensures Sorted(a[i := e]) && IsUpdated(a, a[i := e], e)
  {
    var b := a[i := e];
    assert b[i] == e;
    forall f: Entry | f.addr != e.addr
      ensures f in b <==> f in a
    {
      if f in a {
        var j :| 0 <= j < |a| && a[j] == f;
        assert b[j] == f;
      }
    }
  }

  lemma InsertEntries(a: Accounts, i: nat, e: Entry)
    requires Sorted(a) && i <= |a|
    requires Splits(a, e.addr, i)
    ensures Sorted(InsertAt(a, i, e)) && IsUpdated(a, InsertAt(a, i, e), e)
  {
    var b := InsertAt(a, i, e);
    assert b[i] == e;
    assert forall j :: 0 <= j < i ==> b[j] == a[j];
    assert forall j :: i < j < |b| ==> b[j] == a[j - 1];
    forall f | f in a
      ensures f in b
    {
      var j :| 0 <= j < |a| && a[j] == f;
      assert f == b[if j < i then j else j + 1];
    }
  }

  lemma UpdateEntries(a: Accounts, key: Address, acc: Account)
    requires Sorted(a)
    ensures var b := Update(a, key, acc);
            Sorted(b) && IsUpdated(a, b, Entry(key, acc)) && Keys(b) == Keys(a) + {key}
  {
    var b, e := Update(a, key, acc), Entry(key, acc);
    var s := Search(a, key, 0, |a|);
    SearchSorted(a, key);
    if s.Found? {
      OverwriteEntries(a, s.index, e);
    } else {
      InsertEntries(a, s.index, e);
    }
    forall x
      ensures x in Keys(b) <==> x in Keys(a) + {key}
    {
      if x in Keys(a) && x != key {
        var f :| f in a && f.addr == x;
        assert f in b;
      }
    }
  }

  /** `set` keeps the vector strictly sorted and changes exactly one binding. */
  lemma UpdateIsMapUpdate(a: Accounts, key: Address, acc: Account)
    requires Sorted(a)
    ensures Sorted(Update(a, key, acc))
    ensures Keys(Update(a, key, acc)) == Keys(a) + {key}
    ensures forall x: Address :: Lookup(Update(a, key, acc), x) == if x == key then acc else Lookup(a, x)
  {
    var b := Update(a, key, acc);
    UpdateEntries(a, key, acc);
    forall x: Address
      ensures Lookup(b, x) == if x == key then acc else Lookup(a, x)
    {
      LookupMeaning(a, x);
      LookupMeaning(b, x);
      if x in Keys(b) {
        var i :| 0 <= i < |b| && b[i].addr == x;
        LookupAt(b, i);
        if x != key {
          var j :| 0 <= j < |a| && a[j] == b[i];
          LookupAt(a, j);
        }
      }
    }
  }

  lemma {:induction false} SameEntries(a: Accounts, b: Accounts)
    requires Sorted(a) && Sorted(b)
    requires forall e :: e in a <==> e in b
    requires |a| <= |b|
    ensures a == b
  {
    if b != [] {
      assert b[0] in a;
      assert a[0] in b;
      assert a[0] == b[0];
      forall e
        ensures e in a[1..] <==> e in b[1..]
      {
        assert e in a[1..] <==> e in a && e != a[0];
        assert e in b[1..] <==> e in b && e != b[0];
      }
      SameEntries(a[1..], b[1..]);
    }
  }

  /** A ledger has one sorted vector: equal keys and equal accounts leave no freedom. */
  lemma {:induction false} SortedUnique(a: Accounts, b: Accounts)
    requires Sorted(a) && Sorted(b)
    requires Keys(a) == Keys(b)
    requires forall x :: x in Keys(a) ==> Lookup(a, x) == Lookup(b, x)
    ensures a == b
  {
    forall i | 0 <= i < |a|
      ensures a[i] in b
    {
      LookupAt(a, i);
      LookupMeaning(b, a[i].addr);
    }
    forall i | 0 <= i < |b|
      ensures b[i] in a
    {
      LookupAt(b, i);
      LookupMeaning(a, b[i].addr);
    }
    if |a| <= |b| {
      SameEntries(a, b);
    } else {
      SameEntries(b, a);
    }
  }

  // ----- Sums over the vector -----

  lemma {:induction false} SumAppend(a: Accounts, b: Accounts, f: Field)
    ensures Sum(a + b, f) == Sum(a, f) + Sum(b, f)
  {
    if a == [] {
      assert a + b == b;
    } else {
      assert (a + b)[1..] == a[1..] + b;
      SumAppend(a[1..], b, f);
    }
  }

  lemma SumInsert(a: Accounts, i: nat, e: Entry, f: Field)
    requires i <= |a|
    ensures Sum(InsertAt(a, i, e), f) == Sum(a, f) + FieldOf(e.acc, f)
  {
    assert a == a[..i] + a[i..];
    SumAppend(a[..i], a[i..], f);
    SumAppend(a[..i] + [e], a[i..], f);
    SumAppend(a[..i], [e], f);
    assert Sum([e], f) == FieldOf(e.acc, f) + Sum([], f);
  }

  /** Setting one account moves a total by exactly the change of that account. */
  lemma UpdateSum(a: Accounts, key: Address, acc: Account, f: Field)
    ensures Sum(Update(a, key, acc), f) == Sum(a, f) - FieldOf(Lookup(a, key), f) + FieldOf(acc, f)
  {
    var s, e := Search(a, key, 0, |a|), Entry(key, acc);
    if s.Found? {
      var rest := a[..s.index] + a[s.index + 1..];
      assert a == InsertAt(rest, s.index, a[s.index]);
      assert a[s.index := e] == InsertAt(rest, s.index, e);
      SumInsert(rest, s.index, a[s.index], f);
      SumInsert(rest, s.index, e, f);
    } else {
      SumInsert(a, s.index, e, f);
    }
  }

  /** Two different accounts never hold more than the whole supply. */
  lemma TwoBalancesWithinSupply(a: Accounts, x: Address, y: Address)
    requires Sorted(a) && x != y
    ensures Lookup(a, x).balance + Lookup(a, y).balance <= Supply(a)
  {
    var b := Update(a, x, EMPTY_ACCOUNT);
    UpdateIsMapUpdate(a, x, EMPTY_ACCOUNT);
    UpdateSum(a, x, EMPTY_ACCOUNT, Balance);
    UpdateSum(b, y, EMPTY_ACCOUNT, Balance);
  }

  // ----- The store -----

  /** `State`: the store whose vector the methods change in place. */
  class State {
    var accounts: Accounts

    constructor ()
      ensures accounts == []
    {
      accounts := [];
    }

    constructor Of(accounts: Accounts)
      ensures this.accounts == accounts
    {
      this.accounts := accounts;
    }

    constructor Clone(other: State)
      ensures accounts == other.accounts
    {
      accounts := other.accounts;
    }

    /** `binary_search_by_key`, the loop. */
    method BinarySearchByKey(key: Address) returns (s: Slot)
      ensures s == Search(accounts, key, 0, |accounts|)
    {
      var lo, hi := 0, |accounts|;
      while lo < hi
        invariant 0 <= lo <= hi <= |accounts|
        invariant Search(accounts, key, lo, hi) == Search(accounts, key, 0, |accounts|)
      {
        var mid := lo + (hi - lo) / 2;
        if accounts[mid].addr == key {
          return Found(mid);
        } else if accounts[mid].addr < key {
          lo := mid + 1;
        } else {
          hi := mid;
        }
      }
      return Vacant(lo);
    }

    method Get(addr: Address) returns (acc: Account)
      ensures acc == Lookup(accounts, addr)
      ensures Sorted(accounts) ==>
                if addr in Keys(accounts) then Entry(addr, acc) in accounts else acc == EMPTY_ACCOUNT
    {
      var s := BinarySearchByKey(addr);
      if Sorted(accounts) {
        LookupMeaning(accounts, addr);
      }
      match s
      case Found(i) => return accounts[i].acc;
      case Vacant(_) => return EMPTY_ACCOUNT;
    }

    method Set(addr: Address, account: Account)
      modifies this
      ensures accounts == Update(old(accounts), addr, account)
      ensures old(Sorted(accounts)) ==>
                && Sorted(accounts)
                && Keys(accounts) == old(Keys(accounts)) + {addr}
                && forall x: Address :: Lookup(accounts, x) == if x == addr then account else old(Lookup(accounts, x))
    {
      var s := BinarySearchByKey(addr);
      if Sorted(accounts) {
        UpdateIsMapUpdate(accounts, addr, account);
      }
      match s
      case Found(i) => accounts := accounts[i := Entry(addr, account)];
      case Vacant(i) => accounts := accounts[..i] + [Entry(addr, account)] + accounts[i..];
    }

    method MerkleRoot(cx: Crypto) returns (h: Hash)
      ensures h == Root(cx, accounts) == cx.keccak(EncodeAccounts(accounts))
    {
      var k := new Keccak();
      for i := 0 to |accounts|
        invariant k.absorbed + EncodeAccounts(accounts[i..]) == EncodeAccounts(accounts)
      {
        assert accounts[i..][1..] == accounts[i + 1..];
        var e := accounts[i];
        k.Absorb(BigEndian(e.addr, 20));
        k.Absorb(BigEndian(e.acc.balance, 8));
        k.Absorb(BigEndian(e.acc.nonce, 8));
      }
      assert accounts[|accounts|..] == [];
      assert k.absorbed == EncodeAccounts(accounts);
      h := k.Finalize(cx);
    }
  }
}
