/** The genesis list and the account store built from it. */
module Genesis {
  import opened Wrappers
  import opened Bytes
  import opened SharedTypes
  import opened AccountStore

  /** A parsed entry; the address is `None` when its text is not 20 bytes of hex. */
  datatype GenesisAccount = GenesisAccount(address: Option<Address>, balance: u64, nonce: u64)

  datatype GenesisError = BadAddress(position: nat)

  predicate WellFormed(entries: seq<GenesisAccount>)
  {
    forall i :: 0 <= i < |entries| ==> entries[i].address.Some?
  }

  /** Setting the entries one after another on top of `a`. */
  function Fold(a: Accounts, entries: seq<GenesisAccount>): Accounts
    requires WellFormed(entries)
    decreases |entries|
  {
    if entries == [] then a
    else
      var e := entries[0];
      Fold(Update(a, e.address.value, Account(e.balance, e.nonce)), entries[1..])
  }

  /** `into_state`: fails at the first bad address, otherwise folds `set` over the list. */
  method IntoState(entries: seq<GenesisAccount>) returns (r: Result<Accounts, GenesisError>)
    ensures r.Ok? <==> WellFormed(entries)
    ensures r.Ok? ==> r.value == Fold([], entries)
    ensures r.Err? ==> r.error.position < |entries| && entries[r.error.position].address.None?
    ensures r.Err? ==> WellFormed(entries[..r.error.position])
  {
    var state := new State();
    for i := 0 to |entries|
      invariant WellFormed(entries[..i])
      invariant WellFormed(entries) ==> Fold(state.accounts, entries[i..]) == Fold([], entries)
    {
      hide Update;
      var entry := entries[i];
      if entry.address == None {
        return Err(BadAddress(i));
      }
      assert entries[i..][1..] == entries[i + 1..];
      state.Set(entry.address.value, Account(entry.balance, entry.nonce));
    }
    assert entries[|entries|..] == [];
    assert entries[..|entries|] == entries;
    return Ok(state.accounts);
  }

  // ----- What the list means -----

  /** Entry `i` is the last one that names `x`. */
  ghost predicate LastNaming(entries: seq<GenesisAccount>, x: Address, i: nat)
  {
    && i < |entries| && entries[i].address == Some(x)
    && forall j :: i < j < |entries| ==> entries[j].address != Some(x)
  }

  function Named(entries: seq<GenesisAccount>): set<Address>
  {
    set e | e in entries && e.address.Some? :: e.address.value
  }

  lemma {:induction false} FoldMeaning(a: Accounts, entries: seq<GenesisAccount>, x: Address)
    requires Sorted(a) && WellFormed(entries)
    ensures var b := Fold(a, entries);
            && Sorted(b)
            && Keys(b) == Keys(a) + Named(entries)
            && (x !in Named(entries) ==> Lookup(b, x) == Lookup(a, x))
            && forall i: nat :: LastNaming(entries, x, i) ==>
                 Lookup(b, x) == Account(entries[i].balance, entries[i].nonce)
    decreases |entries|
  {
    hide Update, Lookup, Sorted, Keys;
    if entries != [] {
      var e, rest := entries[0], entries[1..];
      var acc := Account(e.balance, e.nonce);
      var mid := Update(a, e.address.value, acc);
      UpdateIsMapUpdate(a, e.address.value, acc);
      FoldMeaning(mid, rest, x);
      assert entries == [e] + rest;
      assert Named(entries) == {e.address.value} + Named(rest);
      forall i: nat | LastNaming(entries, x, i)
        ensures Lookup(Fold(a, entries), x) == Account(entries[i].balance, entries[i].nonce)
      {
        if i > 0 {
          assert LastNaming(rest, x, i - 1);
        } else {
          forall f | f in rest
            ensures f.address != Some(x)
          {
            var j :| 0 <= j < |rest| && rest[j] == f;
            assert entries[j + 1] == f;
          }
        }
      }
    }
  }

  /** The genesis store: strictly sorted, exactly the named addresses, and the last entry of each wins. */
  lemma GenesisMeaning(entries: seq<GenesisAccount>, x: Address)
    requires WellFormed(entries)
    ensures Sorted(Fold([], entries)) && Keys(Fold([], entries)) == Named(entries)
    ensures forall i: nat :: LastNaming(entries, x, i) ==>
              Lookup(Fold([], entries), x) == Account(entries[i].balance, entries[i].nonce)
  {
    FoldMeaning([], entries, x);
  }

  ghost predicate Distinct(entries: seq<GenesisAccount>)
  {
    forall i, j :: 0 <= i < j < |entries| ==> entries[i].address != entries[j].address
  }

  /** With distinct addresses the order of the list changes neither the vector nor its root. */
  lemma GenesisOrder(cx: Crypto, s: seq<GenesisAccount>, t: seq<GenesisAccount>)
    requires WellFormed(s) && Distinct(s) && WellFormed(t) && Distinct(t)
    requires multiset(s) == multiset(t)
    ensures Fold([], s) == Fold([], t) && Root(cx, Fold([], s)) == Root(cx, Fold([], t))
  {
    forall e
      ensures e in s <==> e in t
    {
      assert e in multiset(s) <==> e in multiset(t);
    }
    GenesisMeaning(s, 0);
    GenesisMeaning(t, 0);
    assert Named(s) == Named(t);
    forall x | x in Named(s)
      ensures Lookup(Fold([], s), x) == Lookup(Fold([], t), x)
    {
      var e :| e in s && e.address == Some(x);
      var i :| 0 <= i < |s| && s[i] == e;
      var j :| 0 <= j < |t| && t[j] == e;
      GenesisMeaning(s, x);
      GenesisMeaning(t, x);
      assert LastNaming(s, x, i) && LastNaming(t, x, j);
    }
    SortedUnique(Fold([], s), Fold([], t));
  }
}
