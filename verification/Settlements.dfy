/** Mint batches: when settling a list of preorders succeeds, and exactly what it does. */
module Settlements {
  import opened Primitives
  import opened Sums
  import opened Currency
  import opened Nfts
  import opened World
  import opened Invariants
  import opened Preservation
  import opened Refunds

  function PrimeTraits(p: PreorderInfo): Traits {
    Traits(Prime, p.race, p.career, 0)
  }

  function RacesOf(s: State, ids: seq<PreorderId>): seq<RaceType>
    requires AllLive(s, ids)
  {
    seq(|ids|, i requires 0 <= i < |ids| => s.preorders[ids[i]].race)
  }

  function CareersOf(s: State, ids: seq<PreorderId>): seq<CareerType>
    requires AllLive(s, ids)
  {
    seq(|ids|, i requires 0 <= i < |ids| => s.preorders[ids[i]].career)
  }

  function BuyersOf(s: State, ids: seq<PreorderId>): seq<AccountId>
    requires AllLive(s, ids)
  {
    seq(|ids|, i requires 0 <= i < |ids| => s.preorders[ids[i]].owner)
  }

  // ----- One settlement -----

  lemma SettleOneIsAMint(cfg: Config, s: State, overlord: AccountId, id: PreorderId, host: Host)
    requires SettleOne(cfg, s, overlord, id, host).Ok?
    ensures id in s.preorders
    ensures
      var r := MintOriginOfShell(cfg, Release(cfg, s, id), PreorderMint(cfg, overlord, s.preorders[id]), host);
      && r.Ok?
      && SettleOne(cfg, s, overlord, id, host).value == ClearFlag(r.value, s.preorders[id].owner)
  {
    hide MintOriginOfShell;
  }

  /** Settling one preorder: its owner gets the next Origin of Shell ... */
  lemma SettleOneMints(cfg: Config, s: State, overlord: AccountId, id: PreorderId, host: Host)
    requires SettleOne(cfg, s, overlord, id, host).Ok?
    ensures id in s.preorders && s.originCollection.Some?
    ensures
      var p := s.preorders[id];
      var c := s.originCollection.value;
      var s' := SettleOne(cfg, s, overlord, id, host).value;
      && s'.preorders == s.preorders - {id}
      && Minted(s.uniques, s'.uniques, c, p.owner)
      && TraitsOf(s'.uniques, s.uniques.NextNft(c)) == Some(PrimeTraits(p))
  {
    SettleOneIsAMint(cfg, s, overlord, id, host);
    hide SettleOne, MintOriginOfShell, TraitsOf, Minted, Drawn;
    MintOriginEffect(cfg, Release(cfg, s, id), PreorderMint(cfg, overlord, s.preorders[id]), host);
  }

  /** ... and the Prime pot of its race loses one. */
  lemma SettleOneCounts(cfg: Config, s: State, overlord: AccountId, id: PreorderId, host: Host)
    requires SettleOne(cfg, s, overlord, id, host).Ok?
    ensures id in s.preorders && (Prime, s.preorders[id].race) in s.inventory
    ensures s.inventory[(Prime, s.preorders[id].race)].forSaleCount > 0
    ensures
      var p := s.preorders[id];
      var s' := SettleOne(cfg, s, overlord, id, host).value;
      && s'.inventory == s.inventory[(Prime, p.race) := Drawn(s.inventory[(Prime, p.race)], ForSale)]
      && s'.careerTypeCount == s.careerTypeCount[p.career := Get(s.careerTypeCount, p.career) + 1]
  {
    SettleOneIsAMint(cfg, s, overlord, id, host);
    hide SettleOne, MintOriginOfShell, Drawn, Release, ClearFlag;
    ReleaseCountsNothing(cfg, s, id);
    MintCounts(cfg, Release(cfg, s, id), PreorderMint(cfg, overlord, s.preorders[id]), host);
  }

  lemma ReleaseCountsNothing(cfg: Config, s: State, id: PreorderId)
    requires id in s.preorders
    ensures Release(cfg, s, id).inventory == s.inventory && Release(cfg, s, id).careerTypeCount == s.careerTypeCount
    ensures forall s1, a :: ClearFlag(s1, a).inventory == s1.inventory
    ensures forall s1, a :: ClearFlag(s1, a).careerTypeCount == s1.careerTypeCount
  {
  }

  lemma MintCounts(cfg: Config, s: State, order: MintOrder, host: Host)
    requires MintOriginOfShell(cfg, s, order, host).Ok?
    ensures (order.traits.rarity, order.traits.race) in s.inventory
    ensures s.inventory[(order.traits.rarity, order.traits.race)].Pot(order.saleType) > 0
    ensures
      var key := (order.traits.rarity, order.traits.race);
      var s' := MintOriginOfShell(cfg, s, order, host).value;
      && s'.inventory == s.inventory[key := Drawn(s.inventory[key], order.saleType)]
      && s'.careerTypeCount
      == s.careerTypeCount[order.traits.career := Get(s.careerTypeCount, order.traits.career) + 1]
  {
    MintOriginEffect(cfg, s, order, host);
    hide MintOriginOfShell, TraitsOf, Minted, Drawn, Ledger.Transfer;
  }

  lemma NextNftIsFresh(cfg: Config, s: State, c: CollectionId)
    requires WorldInv(cfg, s)
    ensures s.uniques.NextNft(c) !in s.uniques.owner
  {
  }

  lemma MintBill(cfg: Config, s: State, order: MintOrder, host: Host, a: AccountId)
    requires MintOriginOfShell(cfg, s, order, host).Ok?
    ensures
      var s' := MintOriginOfShell(cfg, s, order, host).value;
      s'.ledger.Total(a) ==
        if order.owner == order.overlord then s.ledger.Total(a)
        else if a == order.owner then s.ledger.Total(a) - order.price
        else if a == order.overlord then s.ledger.Total(a) + order.price
        else s.ledger.Total(a)
    ensures a == order.owner && order.owner != order.overlord ==> order.price <= s.ledger.Total(a)
  {
    MintOriginEffect(cfg, s, order, host);
    hide TraitsOf, Minted, MintOriginOfShell, Ledger.Transfer, Ledger.Total;
    TransferTotal(s.ledger, order.owner, order.overlord, order.price, cfg.existentialDeposit, a);
  }

  lemma TransferTotal(l: Ledger, from: AccountId, to: AccountId, value: Balance, existentialDeposit: Balance,
                      a: AccountId)
    requires l.Transfer(from, to, value, existentialDeposit).Ok?
    ensures
      l.Transfer(from, to, value, existentialDeposit).value.Total(a) ==
        if from == to then l.Total(a)
        else if a == from then l.Total(a) - value
        else if a == to then l.Total(a) + value
        else l.Total(a)
    ensures from != to ==> value <= l.Total(from)
  {
  }

  /** A settlement moves the price from the buyer to the overlord, whatever the split into free and reserved. */
  lemma SettleOneMoney(cfg: Config, s: State, overlord: AccountId, id: PreorderId, host: Host, b: AccountId)
    requires SettleOne(cfg, s, overlord, id, host).Ok?
    ensures id in s.preorders
    ensures
      var a := s.preorders[id].owner;
      var s1 := SettleOne(cfg, s, overlord, id, host).value;
      && (b == a && a != overlord ==> cfg.primePrice <= s.ledger.Total(b))
      && s1.ledger.Total(b) ==
           if a == overlord then s.ledger.Total(b)
           else if b == a then s.ledger.Total(b) - cfg.primePrice
           else if b == overlord then s.ledger.Total(b) + cfg.primePrice
           else s.ledger.Total(b)
  {
    SettleOneIsAMint(cfg, s, overlord, id, host);
    hide SettleOne, MintOriginOfShell, Ledger.Total;
    UnreserveConserves(s.ledger, s.preorders[id].owner, cfg.primePrice);
    MintBill(cfg, Release(cfg, s, id), PreorderMint(cfg, overlord, s.preorders[id]), host, b);
  }

  // ----- What a successful batch does -----

  /** The new NFT `first + k` belongs to the k-th preorder's owner and carries its race and career. */
  ghost predicate NewOriginAt(s: State, s': State, ids: seq<PreorderId>, k: nat)
    requires AllLive(s, ids) && s.originCollection.Some? && k < |ids|
  {
    var n := (s.originCollection.value, s.uniques.NextNftId(s.originCollection.value) + k);
    && n in s'.uniques.owner
    && s'.uniques.owner[n] == s.preorders[ids[k]].owner
    && TraitsOf(s'.uniques, n) == Some(PrimeTraits(s.preorders[ids[k]]))
  }

  /** The k-th id of the list became the k-th new Origin of Shell, and no other NFT changed. */
  ghost predicate NewOrigins(s: State, s': State, ids: seq<PreorderId>)
    requires AllLive(s, ids) && s.originCollection.Some?
  {
    var c := s.originCollection.value;
    var first := s.uniques.NextNftId(c);
    && s'.uniques.NextNftId(c) == first + |ids|
    && (forall k :: 0 <= k < |ids| ==> NewOriginAt(s, s', ids, k))
    && (forall n :: n in s.uniques.owner ==> n in s'.uniques.owner && s'.uniques.owner[n] == s.uniques.owner[n]
                                             && TraitsOf(s'.uniques, n) == TraitsOf(s.uniques, n))
    && (forall n :: n in s'.uniques.owner && n !in s.uniques.owner ==> n.0 == c && first <= n.1 < first + |ids|)
  }

  /** Every Prime pot paid for its race's share of the list; nothing else left the inventory. */
  ghost predicate NewInventory(s: State, s': State, ids: seq<PreorderId>)
    requires AllLive(s, ids)
  {
    && s'.inventory.Keys == s.inventory.Keys
    && forall key :: key in s.inventory ==> Sold(s.inventory[key], s'.inventory[key], Share(RacesOf(s, ids), key))
  }

  /** `taken` NFTs of the kind were minted out of its for-sale pot. */
  ghost predicate Sold(info: NftSaleInfo, info': NftSaleInfo, taken: nat) {
    && taken <= info.forSaleCount
    && info' == info.(raceCount := info.raceCount + taken, forSaleCount := info.forSaleCount - taken)
  }

  /** How many preorders of the list draw on the entry: as many as name its race, if it is a Prime one. */
  ghost function Share(races: seq<RaceType>, key: (RarityType, RaceType)): nat {
    if key.0 == Prime then multiset(races)[key.1] else 0
  }

  ghost predicate NewCareers(s: State, s': State, ids: seq<PreorderId>)
    requires AllLive(s, ids)
  {
    forall career ::
      Get(s'.careerTypeCount, career) == Get(s.careerTypeCount, career) + multiset(CareersOf(s, ids))[career]
  }

  lemma {:induction false} SettleAllLive(cfg: Config, s: State, overlord: AccountId, ids: seq<PreorderId>, host: Host)
    requires SettleAll(cfg, s, overlord, ids, host).Ok?
    ensures Distinct(ids) && AllLive(s, ids)
    decreases |ids|
  {
    hide MintOriginOfShell;
    if ids != [] {
      var s1 := SettleOne(cfg, s, overlord, ids[0], host).value;
      assert s1.preorders == s.preorders - {ids[0]};
      SettleAllLive(cfg, s1, overlord, ids[1..], host);
      assert ids == [ids[0]] + ids[1..];
      DistinctTail(ids);
    }
  }

  lemma OriginsChain(s: State, s1: State, s2: State, ids: seq<PreorderId>)
    requires ids != [] && AllLive(s, ids) && AllLive(s1, ids[1..]) && s.originCollection.Some?
    requires s1.originCollection == s.originCollection && s1.preorders == s.preorders - {ids[0]}
    requires
      var n := s.uniques.NextNft(s.originCollection.value);
      && n !in s.uniques.owner
      && Minted(s.uniques, s1.uniques, n.0, s.preorders[ids[0]].owner)
      && TraitsOf(s1.uniques, n) == Some(PrimeTraits(s.preorders[ids[0]]))
    requires NewOrigins(s1, s2, ids[1..])
    ensures NewOrigins(s, s2, ids)
  {
    hide TraitsOf;
    var c := s.originCollection.value;
    var first := s.uniques.NextNftId(c);
    forall k | 0 <= k < |ids|
      ensures NewOriginAt(s, s2, ids, k)
    {
      if k == 0 {
        assert (c, first) in s1.uniques.owner;
      } else {
        assert NewOriginAt(s1, s2, ids[1..], k - 1);
      }
    }
    forall n | n in s.uniques.owner
      ensures n in s2.uniques.owner && s2.uniques.owner[n] == s.uniques.owner[n]
      ensures TraitsOf(s2.uniques, n) == TraitsOf(s.uniques, n)
    {
      assert n in s1.uniques.owner && n != s.uniques.NextNft(c);
      assert TraitsOf(s1.uniques, n) == TraitsOf(s.uniques, n);
    }
    forall n | n in s2.uniques.owner && n !in s.uniques.owner
      ensures n.0 == c && first <= n.1 < first + |ids|
    {
    }
  }

  lemma RacesOfSplit(s: State, s1: State, ids: seq<PreorderId>)
    requires ids != [] && AllLive(s, ids) && AllLive(s1, ids[1..]) && s1.preorders == s.preorders - {ids[0]}
    ensures RacesOf(s, ids) == [s.preorders[ids[0]].race] + RacesOf(s1, ids[1..])
    ensures CareersOf(s, ids) == [s.preorders[ids[0]].career] + CareersOf(s1, ids[1..])
    ensures BuyersOf(s, ids) == [s.preorders[ids[0]].owner] + BuyersOf(s1, ids[1..])
  {
  }

  lemma InventoryChain(s: State, s1: State, s2: State, ids: seq<PreorderId>)
    requires ids != [] && AllLive(s, ids) && AllLive(s1, ids[1..]) && s1.preorders == s.preorders - {ids[0]}
    requires
      var key := (Prime, s.preorders[ids[0]].race);
      && key in s.inventory && s.inventory[key].forSaleCount > 0
      && s1.inventory == s.inventory[key := Drawn(s.inventory[key], ForSale)]
    requires NewInventory(s1, s2, ids[1..])
    ensures NewInventory(s, s2, ids)
  {
    RacesOfSplit(s, s1, ids);
    hide RacesOf, AllLive, Sold, Drawn, Share;
    assert s2.inventory.Keys == s1.inventory.Keys == s.inventory.Keys;
    var first := (Prime, s.preorders[ids[0]].race);
    forall key | key in s.inventory
      ensures Sold(s.inventory[key], s2.inventory[key], Share(RacesOf(s, ids), key))
    {
      assert Sold(s1.inventory[key], s2.inventory[key], Share(RacesOf(s1, ids[1..]), key));
      ShareSplit(first.1, RacesOf(s1, ids[1..]), key);
      if key == first {
        SoldOneMore(s.inventory[key], s2.inventory[key], Share(RacesOf(s1, ids[1..]), key));
      }
    }
  }

  lemma ShareSplit(race: RaceType, races: seq<RaceType>, key: (RarityType, RaceType))
    ensures Share([race] + races, key) == Share(races, key) + if key == (Prime, race) then 1 else 0
  {
  }

  lemma SoldOneMore(info: NftSaleInfo, info': NftSaleInfo, taken: nat)
    requires info.forSaleCount > 0 && Sold(Drawn(info, ForSale), info', taken)
    ensures Sold(info, info', taken + 1)
  {
  }

  lemma CareersChain(s: State, s1: State, s2: State, ids: seq<PreorderId>)
    requires ids != [] && AllLive(s, ids) && AllLive(s1, ids[1..]) && s1.preorders == s.preorders - {ids[0]}
    requires
      var career := s.preorders[ids[0]].career;
      s1.careerTypeCount == s.careerTypeCount[career := Get(s.careerTypeCount, career) + 1]
    requires NewCareers(s1, s2, ids[1..])
    ensures NewCareers(s, s2, ids)
  {
    RacesOfSplit(s, s1, ids);
    hide CareersOf;
  }

  // ----- What it costs -----

  /** The price of `n` Prime mints. */
  ghost function Cost(cfg: Config, n: nat): nat {
    cfg.primePrice * n
  }

  lemma CostSum(cfg: Config, m: nat, n: nat)
    ensures Cost(cfg, m + n) == Cost(cfg, m) + Cost(cfg, n)
  {
  }

  /** How many of the preorders named in `ids` belong to `a`. */
  ghost function PreordersOf(s: State, ids: seq<PreorderId>, a: AccountId): nat {
    if AllLive(s, ids) then multiset(BuyersOf(s, ids))[a] else 0
  }

  lemma BuyersCount(s: State, ids: seq<PreorderId>, a: AccountId)
    requires AllLive(s, ids)
    ensures multiset(BuyersOf(s, ids))[a] <= |ids|
  {
    assert |multiset(BuyersOf(s, ids))| == |ids|;
  }

  /** How many of them belong to somebody else. */
  ghost function OthersOf(s: State, ids: seq<PreorderId>, a: AccountId): nat {
    if AllLive(s, ids) then (BuyersCount(s, ids, a); |ids| - multiset(BuyersOf(s, ids))[a]) else 0
  }

  lemma SettleOneBill(cfg: Config, s: State, overlord: AccountId, ids: seq<PreorderId>, host: Host, a: AccountId)
    requires ids != [] && SettleOne(cfg, s, overlord, ids[0], host).Ok?
    requires AllLive(s, ids) && AllLive(SettleOne(cfg, s, overlord, ids[0], host).value, ids[1..])
    ensures ids[0] in s.preorders
    ensures
      var s1 := SettleOne(cfg, s, overlord, ids[0], host).value;
      var mine := if s.preorders[ids[0]].owner == a then 1 else 0;
      && PreordersOf(s, ids, a) == PreordersOf(s1, ids[1..], a) + mine
      && OthersOf(s, ids, a) == OthersOf(s1, ids[1..], a) + (1 - mine)
      && if a == overlord then s1.ledger.Total(a) == s.ledger.Total(a) + Cost(cfg, 1 - mine)
         else s1.ledger.Total(a) + Cost(cfg, mine) == s.ledger.Total(a)
  {
    SettleOneMoney(cfg, s, overlord, ids[0], host, a);
    SettleOneMints(cfg, s, overlord, ids[0], host);
    var s1 := SettleOne(cfg, s, overlord, ids[0], host).value;
    hide SettleOne, BuyersOf, Minted, TraitsOf;
    RacesOfSplit(s, s1, ids);
  }

  lemma NoBill(cfg: Config, s: State, ids: seq<PreorderId>, a: AccountId)
    requires ids == []
    ensures PreordersOf(s, ids, a) == 0 && OthersOf(s, ids, a) == 0 && Cost(cfg, 0) == 0
  {
    assert BuyersOf(s, ids) == [];
  }

  lemma SettleOnePaid(cfg: Config, s: State, overlord: AccountId, ids: seq<PreorderId>, host: Host, a: AccountId)
    requires ids != [] && SettleOne(cfg, s, overlord, ids[0], host).Ok? && a != overlord
    requires AllLive(s, ids) && AllLive(SettleOne(cfg, s, overlord, ids[0], host).value, ids[1..])
    ensures
      var s1 := SettleOne(cfg, s, overlord, ids[0], host).value;
      s1.ledger.Total(a) + Cost(cfg, PreordersOf(s, ids, a)) ==
        s.ledger.Total(a) + Cost(cfg, PreordersOf(s1, ids[1..], a))
  {
    hide *;
    SettleOneBill(cfg, s, overlord, ids, host, a);
    var s1 := SettleOne(cfg, s, overlord, ids[0], host).value;
    var mine := if s.preorders[ids[0]].owner == a then 1 else 0;
    CostSum(cfg, mine, PreordersOf(s1, ids[1..], a));
  }

  lemma SettleOneEarned(cfg: Config, s: State, overlord: AccountId, ids: seq<PreorderId>, host: Host)
    requires ids != [] && SettleOne(cfg, s, overlord, ids[0], host).Ok?
    requires AllLive(s, ids) && AllLive(SettleOne(cfg, s, overlord, ids[0], host).value, ids[1..])
    ensures
      var s1 := SettleOne(cfg, s, overlord, ids[0], host).value;
      s1.ledger.Total(overlord) + Cost(cfg, OthersOf(s1, ids[1..], overlord))
        == s.ledger.Total(overlord) + Cost(cfg, OthersOf(s, ids, overlord))
  {
    hide *;
    SettleOneBill(cfg, s, overlord, ids, host, overlord);
    var s1 := SettleOne(cfg, s, overlord, ids[0], host).value;
    var mine := if s.preorders[ids[0]].owner == overlord then 1 else 0;
    CostSum(cfg, 1 - mine, OthersOf(s1, ids[1..], overlord));
  }

  lemma {:induction false} SettleAllPaid(cfg: Config, s: State, overlord: AccountId, ids: seq<PreorderId>, host: Host,
                                         a: AccountId)
    requires SettleAll(cfg, s, overlord, ids, host).Ok? && a != overlord
    ensures SettleAll(cfg, s, overlord, ids, host).value.ledger.Total(a) + Cost(cfg, PreordersOf(s, ids, a))
         == s.ledger.Total(a)
    decreases |ids|
  {
    assert AllLive(s, ids) by { SettleAllLive(cfg, s, overlord, ids, host); }
    hide SettleOne, PreordersOf, OthersOf, AllLive, Cost, Ledger.Total;
    if ids == [] {
      NoBill(cfg, s, ids, a);
    } else {
      var s1 := SettleOne(cfg, s, overlord, ids[0], host).value;
      assert AllLive(s1, ids[1..]) by { SettleAllLive(cfg, s1, overlord, ids[1..], host); }
      SettleAllPaid(cfg, s1, overlord, ids[1..], host, a);
      SettleOnePaid(cfg, s, overlord, ids, host, a);
    }
  }

  lemma {:induction false} SettleAllEarned(cfg: Config, s: State, overlord: AccountId, ids: seq<PreorderId>, host: Host)
    requires SettleAll(cfg, s, overlord, ids, host).Ok?
    ensures SettleAll(cfg, s, overlord, ids, host).value.ledger.Total(overlord)
         == s.ledger.Total(overlord) + Cost(cfg, OthersOf(s, ids, overlord))
    decreases |ids|
  {
    assert AllLive(s, ids) by { SettleAllLive(cfg, s, overlord, ids, host); }
    hide SettleOne, PreordersOf, OthersOf, AllLive, Cost, Ledger.Total;
    if ids == [] {
      NoBill(cfg, s, ids, overlord);
    } else {
      var s1 := SettleOne(cfg, s, overlord, ids[0], host).value;
      assert AllLive(s1, ids[1..]) by { SettleAllLive(cfg, s1, overlord, ids[1..], host); }
      SettleAllEarned(cfg, s1, overlord, ids[1..], host);
      SettleOneEarned(cfg, s, overlord, ids, host);
    }
  }

  /**
   Every buyer paid the Prime price for each of its preorders on the list, and the overlord took those of the others.
   */
  ghost predicate NewBalances(cfg: Config, s: State, s': State, overlord: AccountId, ids: seq<PreorderId>) {
    forall a :: BalanceAfter(cfg, s, s', overlord, ids, a)
  }

  ghost predicate BalanceAfter(cfg: Config, s: State, s': State, overlord: AccountId, ids: seq<PreorderId>,
                               a: AccountId) {
    if a == overlord then s'.ledger.Total(a) == s.ledger.Total(a) + Cost(cfg, OthersOf(s, ids, a))
    else s'.ledger.Total(a) + Cost(cfg, PreordersOf(s, ids, a)) == s.ledger.Total(a)
  }

  lemma SettleAllBalances(cfg: Config, s: State, overlord: AccountId, ids: seq<PreorderId>, host: Host, a: AccountId)
    requires SettleAll(cfg, s, overlord, ids, host).Ok?
    ensures BalanceAfter(cfg, s, SettleAll(cfg, s, overlord, ids, host).value, overlord, ids, a)
  {
    hide SettleAll, Cost, PreordersOf, OthersOf, Ledger.Total;
    if a == overlord {
      SettleAllEarned(cfg, s, overlord, ids, host);
    } else {
      SettleAllPaid(cfg, s, overlord, ids, host, a);
    }
  }

  lemma {:induction false} SettleAllFlags(cfg: Config, s: State, overlord: AccountId, ids: seq<PreorderId>, host: Host)
    requires SettleAll(cfg, s, overlord, ids, host).Ok?
    ensures SettleAll(cfg, s, overlord, ids, host).value.ownerHasPreorder == FlagsAfter(s, ids)
    decreases |ids|
  {
    if ids == [] {
      assert OwnersOf(s, ToSet(ids)) == {};
    } else {
      SettleAllLive(cfg, s, overlord, ids, host);
      DistinctTail(ids);
      SettleOneFlags(cfg, s, overlord, ids[0], host);
      hide SettleOne, FlagsAfter;
      var s1 := SettleOne(cfg, s, overlord, ids[0], host).value;
      SettleAllFlags(cfg, s1, overlord, ids[1..], host);
      FlagsAfterFirst(s, s1, ids);
    }
  }

  lemma SettleOneFlags(cfg: Config, s: State, overlord: AccountId, id: PreorderId, host: Host)
    requires SettleOne(cfg, s, overlord, id, host).Ok?
    ensures id in s.preorders
    ensures
      var s' := SettleOne(cfg, s, overlord, id, host).value;
      && s'.preorders == s.preorders - {id} && s'.lastDayOfSale == s.lastDayOfSale
      && s'.ownerHasPreorder ==
           if s.lastDayOfSale then s.ownerHasPreorder else s.ownerHasPreorder - {s.preorders[id].owner}
  {
    hide MintOriginOfShell;
  }

  // ----- What a successful batch does, in all -----

  lemma {:induction false} SettleAllNfts(cfg: Config, s: State, overlord: AccountId, ids: seq<PreorderId>, host: Host)
    requires WorldInv(cfg, s) && SettleAll(cfg, s, overlord, ids, host).Ok?
    ensures Distinct(ids) && AllLive(s, ids)
    ensures ids != [] ==> s.originCollection.Some?
    ensures SettleAll(cfg, s, overlord, ids, host).value.preorders == s.preorders - ToSet(ids)
    ensures s.originCollection.Some? ==> NewOrigins(s, SettleAll(cfg, s, overlord, ids, host).value, ids)
    ensures NewInventory(s, SettleAll(cfg, s, overlord, ids, host).value, ids)
    ensures NewCareers(s, SettleAll(cfg, s, overlord, ids, host).value, ids)
    decreases |ids|
  {
    hide WorldInv, SettleOne, NewOrigins, NewInventory, NewCareers, TraitsOf, Minted;
    SettleAllTakes(cfg, s, overlord, ids, host);
    SettleAllLive(cfg, s, overlord, ids, host);
    if ids == [] {
      NothingSettled(s, ids);
    } else {
      SettleOneMints(cfg, s, overlord, ids[0], host);
      SettleOneCounts(cfg, s, overlord, ids[0], host);
      NextNftIsFresh(cfg, s, s.originCollection.value);
      SettleOneKeeps(cfg, s, overlord, ids[0], host);
      var s1 := SettleOne(cfg, s, overlord, ids[0], host).value;
      SettleAllNfts(cfg, s1, overlord, ids[1..], host);
      var s2 := SettleAll(cfg, s, overlord, ids, host).value;
      OriginsChain(s, s1, s2, ids);
      InventoryChain(s, s1, s2, ids);
      CareersChain(s, s1, s2, ids);
    }
  }

  /**
   A successful batch settled pairwise different live preorders: they are gone, the k-th is the owner's
   k-th new NFT with the preorder's race and career, and each race's Prime pot fell by its multiplicity.
   Buyers paid for theirs, what stays reserved is the escrow of what is left, and before the last day of
   sale their flags are cleared.
   */
  lemma SettleAllEffect(cfg: Config, s: State, overlord: AccountId, ids: seq<PreorderId>, host: Host)
    requires WorldInv(cfg, s) && SettleAll(cfg, s, overlord, ids, host).Ok?
    ensures Distinct(ids) && AllLive(s, ids)
    ensures ids != [] ==> s.originCollection.Some?
    ensures
      var s' := SettleAll(cfg, s, overlord, ids, host).value;
      && s'.preorders == s.preorders - ToSet(ids)
      && s'.ownerHasPreorder == FlagsAfter(s, ids)
      && (s.originCollection.Some? ==> NewOrigins(s, s', ids))
      && NewInventory(s, s', ids)
      && NewCareers(s, s', ids)
      && NewBalances(cfg, s, s', overlord, ids)
      && EscrowInv(cfg, s')
  {
    hide *;
    SettleAllNfts(cfg, s, overlord, ids, host);
    SettleAllFlags(cfg, s, overlord, ids, host);
    var s' := SettleAll(cfg, s, overlord, ids, host).value;
    SettleAllKeeps(cfg, s, overlord, ids, host);
    EscrowOf(cfg, s');
    BalancesAfter(cfg, s, overlord, ids, host);
  }

  lemma BalancesAfter(cfg: Config, s: State, overlord: AccountId, ids: seq<PreorderId>, host: Host)
    requires SettleAll(cfg, s, overlord, ids, host).Ok?
    ensures NewBalances(cfg, s, SettleAll(cfg, s, overlord, ids, host).value, overlord, ids)
  {
    hide BalanceAfter, SettleAll;
    forall a ensures BalanceAfter(cfg, s, SettleAll(cfg, s, overlord, ids, host).value, overlord, ids, a) {
      SettleAllBalances(cfg, s, overlord, ids, host, a);
    }
  }

  lemma NothingSettled(s: State, ids: seq<PreorderId>)
    requires ids == []
    ensures s.originCollection.Some? ==> NewOrigins(s, s, ids)
    ensures NewInventory(s, s, ids) && NewCareers(s, s, ids)
  {
    hide TraitsOf;
    assert multiset(RacesOf(s, ids)) == multiset{};
    assert multiset(CareersOf(s, ids)) == multiset{};
  }

  // ----- Chunks -----

  /** The overlord's driver; the libraries may behave differently in every call, `hosts(k)` in call `k`. */
  function DriveMints(cfg: Config, s: State, sender: AccountId, ids: seq<PreorderId>, hosts: nat -> Host, call: nat)
    : Result<State>
    requires cfg.Valid()
    decreases |ids|
  {
    if ids == [] then Ok(s)
    else
      var s1 :- MintChosen(cfg, s, sender, ids, hosts(call));
      DriveMints(cfg, s1, sender, ids[|Chunk(cfg, ids)|..], hosts, call + 1)
  }

  lemma {:induction false} SettleAllAppend(cfg: Config, s: State, overlord: AccountId, ids: seq<PreorderId>,
                                           more: seq<PreorderId>, host: Host)
    ensures SettleAll(cfg, s, overlord, ids + more, host) ==
            match SettleAll(cfg, s, overlord, ids, host) {
              case Ok(s1) => SettleAll(cfg, s1, overlord, more, host)
              case Err(e) => Err(e)
            }
    decreases |ids|
  {
    hide SettleOne;
    if ids == [] {
      assert ids + more == more;
    } else {
      assert (ids + more)[1..] == ids[1..] + more;
      if SettleOne(cfg, s, overlord, ids[0], host).Ok? {
        SettleAllAppend(cfg, SettleOne(cfg, s, overlord, ids[0], host).value, overlord, ids[1..], more, host);
      }
    }
  }

  /** A host can refuse, but what it does not refuse does not depend on it. */
  lemma HostsOnlyRefuse(cfg: Config, s: State, order: MintOrder, host: Host)
    requires MintOriginOfShell(cfg, s, order, host).Ok?
    ensures MintOriginOfShell(cfg, s, order, Willing()) == MintOriginOfShell(cfg, s, order, host)
  {
    hide KeysFit, MintChecks, Drawn, Ledger.Transfer;
  }

  lemma {:induction false} SettledAlike(cfg: Config, s: State, overlord: AccountId, ids: seq<PreorderId>, host: Host)
    requires SettleAll(cfg, s, overlord, ids, host).Ok?
    ensures SettleAll(cfg, s, overlord, ids, Willing()) == SettleAll(cfg, s, overlord, ids, host)
    decreases |ids|
  {
    hide MintOriginOfShell;
    if ids != [] {
      HostsOnlyRefuse(cfg, Release(cfg, s, ids[0]), PreorderMint(cfg, overlord, s.preorders[ids[0]]), host);
      assert SettleOne(cfg, s, overlord, ids[0], Willing()) == SettleOne(cfg, s, overlord, ids[0], host);
      hide SettleOne;
      SettledAlike(cfg, SettleOne(cfg, s, overlord, ids[0], host).value, overlord, ids[1..], host);
    }
  }

  /** The storage after one unbounded pass over the list, by libraries that refuse nothing. */
  function OnePass(cfg: Config, s: State, overlord: AccountId, ids: seq<PreorderId>): Result<State> {
    SettleAll(cfg, s, overlord, ids, Willing())
  }

  /** If every call of the driver succeeds, whatever the libraries, it leaves what one unbounded pass leaves. */
  lemma {:induction false} DriveMintsIsOnePass(cfg: Config, s: State, sender: AccountId, ids: seq<PreorderId>,
                                               hosts: nat -> Host, call: nat)
    requires cfg.Valid() && DriveMints(cfg, s, sender, ids, hosts, call).Ok?
    ensures DriveMints(cfg, s, sender, ids, hosts, call) == OnePass(cfg, s, sender, ids)
    decreases |ids|
  {
    hide SettleOne, Willing;
    if ids != [] {
      var chunk := Chunk(cfg, ids);
      var rest := ids[|chunk|..];
      assert ids == chunk + rest;
      SettledAlike(cfg, s, sender, chunk, hosts(call));
      SettleAllAppend(cfg, s, sender, chunk, rest, Willing());
      DriveMintsIsOnePass(cfg, SettleAll(cfg, s, sender, chunk, hosts(call)).value, sender, rest, hosts, call + 1);
    }
  }

  /** With the same libraries in every call, driver and single pass have the same outcome, success or error. */
  lemma {:induction false} SteadyDriveMintsIsOnePass(cfg: Config, s: State, sender: AccountId, ids: seq<PreorderId>,
                                                     host: Host, call: nat)
    requires cfg.Valid() && s.overlord == Some(sender)
    ensures DriveMints(cfg, s, sender, ids, k => host, call) == SettleAll(cfg, s, sender, ids, host)
    decreases |ids|
  {
    hide SettleOne;
    if ids != [] {
      var chunk := Chunk(cfg, ids);
      var rest := ids[|chunk|..];
      assert ids == chunk + rest;
      SettleAllAppend(cfg, s, sender, chunk, rest, host);
      if SettleAll(cfg, s, sender, chunk, host).Ok? {
        SteadyDriveMintsIsOnePass(cfg, SettleAll(cfg, s, sender, chunk, host).value, sender, rest, host, call + 1);
      }
    }
  }
}
