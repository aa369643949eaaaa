/**
 The currency: free and reserved balances. An account without an entry holds nothing. The amount
 an account must keep to stay alive is counted over both balances, as in pallet-balances.
 */
module Currency {
  import opened Primitives
  import opened Sums

  datatype Ledger = Ledger(free: map<AccountId, Balance>, reserved: map<AccountId, Balance>) {
    function Free(a: AccountId): Balance { Get(free, a) }

    function Reserved(a: AccountId): Balance { Get(reserved, a) }

    function Total(a: AccountId): Balance { Free(a) + Reserved(a) }

    predicate CanReserve(a: AccountId, value: Balance) {
      value <= Free(a)
    }

    function Reserve(a: AccountId, value: Balance): Result<Ledger> {
      if Free(a) < value then Err(InsufficientBalance)
      else Ok(Ledger(free[a := Free(a) - value], reserved[a := Reserved(a) + value]))
    }

    function Unreserve(a: AccountId, value: Balance): Ledger {
      var actual := Min(Reserved(a), value);
      Ledger(free[a := Free(a) + actual], reserved[a := Reserved(a) - actual])
    }

    /** A transfer that must leave the sender alive. */
    function Transfer(from: AccountId, to: AccountId, value: Balance, existentialDeposit: Balance): Result<Ledger> {
      if value == 0 || from == to then Ok(this)
      else if Free(from) < value then Err(InsufficientBalance)
      else if Total(to) + value < existentialDeposit then Err(ExistentialDeposit)
      else if Total(from) - value < existentialDeposit then Err(KeepAlive)
      else Ok(Move(from, to, value))
    }

    function Move(from: AccountId, to: AccountId, value: Balance): Ledger
      requires value <= Free(from) && from != to
    {
      Ledger(free[from := Free(from) - value][to := Free(to) + value], reserved)
    }
  }

  /** All the money there is. */
  ghost function Issuance(l: Ledger): nat {
    SumMap(l.free) + SumMap(l.reserved)
  }

  lemma ReserveConserves(l: Ledger, a: AccountId, value: Balance)
    requires l.Reserve(a, value).Ok?
    ensures Issuance(l.Reserve(a, value).value) == Issuance(l)
  {
    SumUpdate(l.free, a, l.Free(a) - value);
    SumUpdate(l.reserved, a, l.Reserved(a) + value);
  }

  lemma UnreserveConserves(l: Ledger, a: AccountId, value: Balance)
    ensures Issuance(l.Unreserve(a, value)) == Issuance(l)
    ensures forall b :: l.Unreserve(a, value).Total(b) == l.Total(b)
  {
    var actual := Min(l.Reserved(a), value);
    SumUpdate(l.free, a, l.Free(a) + actual);
    SumUpdate(l.reserved, a, l.Reserved(a) - actual);
  }

  lemma MoveConserves(l: Ledger, from: AccountId, to: AccountId, value: Balance)
    requires value <= l.Free(from) && from != to
    ensures Issuance(l.Move(from, to, value)) == Issuance(l)
  {
    SumUpdate(l.free, from, l.Free(from) - value);
    SumUpdate(l.free[from := l.Free(from) - value], to, l.Free(to) + value);
  }
}

/**
 The NFT ledger of RMRK and pallet-uniques: per-collection id counters, owners, the frozen flags
 and the attributes. Ids are handed out in order and never reused.
 */
module Nfts {
  import opened Primitives
  import opened Sums

  /**
   What RMRK and pallet-uniques would refuse for reasons of their own (the collection does not
   exist or is full, the overlord is not its issuer, a deposit cannot be paid). Chosen freely
   for every call.
   */
  datatype Host = Host(
    mints: Nft -> bool,
    setsAttributes: Nft -> bool,
    freezes: Nft -> bool,
    burns: Nft -> bool,
    clearsAttributes: Nft -> bool)

  /** A host that refuses nothing. */
  function Willing(): Host {
    Host(n => true, n => true, n => true, n => true, n => true)
  }

  datatype Uniques = Uniques(
    nextNftId: map<CollectionId, NftId>,
    owner: map<Nft, AccountId>,
    frozen: set<Nft>,
    attribute: map<(Nft, AttributeKey), Bytes>)
  {
    function NextNftId(c: CollectionId): NftId { Get(nextNftId, c) }

    /** The NFT that the next mint in collection `c` creates. */
    function NextNft(c: CollectionId): Nft { (c, NextNftId(c)) }

    function OwnedInCollection(c: CollectionId, a: AccountId): (r: set<Nft>) {
      set n | n in owner && n.0 == c && owner[n] == a
    }

    predicate Owns(a: AccountId, c: CollectionId) {
      |OwnedInCollection(c, a)| > 0
    }

    function Mint(host: Host, c: CollectionId, a: AccountId): Result<Uniques> {
      if NextNftId(c) >= U32_MAX then Err(NoAvailableNftId)
      else if !host.mints(NextNft(c)) then Err(RmrkRefused)
      else Ok(this.(nextNftId := nextNftId[c := NextNftId(c) + 1], owner := owner[NextNft(c) := a]))
    }

    function Freeze(host: Host, n: Nft): Result<Uniques> {
      if !host.freezes(n) then Err(RmrkRefused)
      else Ok(this.(frozen := frozen + {n}))
    }

    function Burn(host: Host, caller: AccountId, n: Nft): Result<Uniques> {
      if n !in owner then Err(NoAvailableNftId)
      else if owner[n] != caller then Err(NoPermission)
      else if !host.burns(n) then Err(RmrkRefused)
      else Ok(this.(owner := owner - {n}, frozen := frozen - {n}))
    }

    function SetAttribute(host: Host, n: Nft, key: AttributeKey, value: Bytes): Result<Uniques> {
      if !host.setsAttributes(n) then Err(RmrkRefused)
      else Ok(this.(attribute := attribute[(n, key) := value]))
    }

    function ClearAttribute(host: Host, n: Nft, key: AttributeKey): Result<Uniques> {
      if !host.clearsAttributes(n) then Err(RmrkRefused)
      else Ok(this.(attribute := attribute - {(n, key)}))
    }

    function Attribute(n: Nft, key: AttributeKey): Option<Bytes> {
      if (n, key) in attribute then Some(attribute[(n, key)]) else None
    }
  }
}
