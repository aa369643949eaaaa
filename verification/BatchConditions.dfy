/** Exactly when a mint batch succeeds, as conditions on the storage before the call. */
module BatchConditions {
  import opened Primitives
  import opened Sums
  import opened Currency
  import opened Nfts
  import opened World
  import opened Invariants
  import opened Preservation
  import opened Refunds
  import opened Settlements

  /** RMRK takes the next `count` mints of collection `c`. */
  ghost predicate RmrkTakes(u: Uniques, host: Host, c: CollectionId, count: nat) {
    && u.NextNftId(c) + count <= U32_MAX
    && forall i :: u.NextNftId(c) <= i < u.NextNftId(c) + count ==>
         host.mints((c, i)) && host.setsAttributes((c, i)) && host.freezes((c, i))
  }

  /** Every buyer but the overlord can pay for all its preorders and stay alive, and so can the overlord receive. */
  ghost predicate Affordable(cfg: Config, l: Ledger, overlord: AccountId, buyers: seq<AccountId>) {
    cfg.primePrice == 0 ||
    forall a :: a in buyers && a != overlord ==>
      && cfg.primePrice * multiset(buyers)[a] + cfg.existentialDeposit <= l.Total(a)
      && cfg.existentialDeposit <= l.Total(overlord) + cfg.primePrice
  }

  function PrimePot(s: State, race: RaceType): nat {
    if (Prime, race) in s.inventory then s.inventory[(Prime, race)].forSaleCount else 0
  }

  /** Every race on the list has metadata. */
  ghost predicate MetadataSet(s: State, ids: seq<PreorderId>)
    requires AllLive(s, ids)
  {
    forall id :: id in ids ==> s.preorders[id].race in s.originMetadata
  }

  /** No race is oversubscribed. */
  ghost predicate PotsSuffice(s: State, ids: seq<PreorderId>)
    requires AllLive(s, ids)
  {
    forall race :: multiset(RacesOf(s, ids))[race] <= PrimePot(s, race)
  }

  ghost predicate Settleable(cfg: Config, s: State, overlord: AccountId, ids: seq<PreorderId>, host: Host) {
    && Distinct(ids)
    && AllLive(s, ids)
    && (ids == [] ||
        (&& s.originCollection.Some?
         && KeysFit(cfg)
         && s.overlord.Some?
         && MetadataSet(s, ids)
         && PotsSuffice(s, ids)
         && RmrkTakes(s.uniques, host, s.originCollection.value, |ids|)
         && Affordable(cfg, s.ledger, overlord, BuyersOf(s, ids))))
  }

  // ----- One settlement -----

  /**
   The buyer has the price in free balance and stays alive, and the overlord ends up alive; the overlord pays
   nothing.
   */
  predicate Payable(cfg: Config, l: Ledger, buyer: AccountId, overlord: AccountId, price: Balance) {
    price == 0 || buyer == overlord ||
    (&& price <= l.Free(buyer)
     && price + cfg.existentialDeposit <= l.Total(buyer)
     && cfg.existentialDeposit <= l.Total(overlord) + price)
  }

  lemma TransferSucceedsIff(cfg: Config, l: Ledger, buyer: AccountId, overlord: AccountId, price: Balance)
    ensures l.Transfer(buyer, overlord, price, cfg.existentialDeposit).Ok? <==> Payable(cfg, l, buyer, overlord, price)
  {
  }

  /** What it takes to mint the ordered Origin of Shell. */
  ghost predicate Mintable(cfg: Config, s: State, order: MintOrder, host: Host) {
    && s.OwnsSpirit(order.owner)
    && s.originCollection.Some?
    && (order.checkOwned ==> !s.uniques.Owns(order.owner, s.originCollection.value))
    && order.traits.race in s.originMetadata
    && (order.traits.rarity, order.traits.race) in s.inventory
    && s.inventory[(order.traits.rarity, order.traits.race)].Pot(order.saleType) > 0
    && Payable(cfg, s.ledger, order.owner, order.overlord, order.price)
    && RmrkTakes(s.uniques, host, s.originCollection.value, 1)
    && KeysFit(cfg)
    && s.overlord.Some?
  }

  lemma MintSucceedsIff(cfg: Config, s: State, order: MintOrder, host: Host)
    ensures MintOriginOfShell(cfg, s, order, host).Ok? <==> Mintable(cfg, s, order, host)
  {
    if s.originCollection.Some? {
      var c := s.originCollection.value;
      assert RmrkTakes(s.uniques, host, c, 1) ==> host.mints(s.uniques.NextNft(c));
      MintLabelledFrozenSucceedsIff(cfg, s, c, order.owner, order.traits, host);
    }
    MintChecksIff(s, order);
    TransferSucceedsIff(cfg, s.ledger, order.owner, order.overlord, order.price);
    hide Payable, MintLabelledFrozen, RmrkTakes, MintChecks, KeysFit, Ledger.Transfer, Nfts.Uniques.Owns, Drawn;
  }

  lemma MintChecksIff(s: State, order: MintOrder)
    ensures MintChecks(s, order).Ok? <==>
      && s.OwnsSpirit(order.owner)
      && s.originCollection.Some?
      && (order.checkOwned ==> !s.uniques.Owns(order.owner, s.originCollection.value))
      && order.traits.race in s.originMetadata
      && (order.traits.rarity, order.traits.race) in s.inventory
      && s.inventory[(order.traits.rarity, order.traits.race)].Pot(order.saleType) > 0
    ensures MintChecks(s, order).Ok? ==> s.originCollection == Some(MintChecks(s, order).value)
  {
    hide Nfts.Uniques.Owns;
  }

  lemma MintLabelledFrozenSucceedsIff(cfg: Config, s: State, c: CollectionId, owner: AccountId, t: Traits, host: Host)
    ensures MintLabelledFrozen(cfg, s.overlord, s.uniques, c, owner, t, host).Ok? <==>
            RmrkTakes(s.uniques, host, c, 1) && KeysFit(cfg) && s.overlord.Some?
  {
    hide KeysFit;
    var i := s.uniques.NextNftId(c);
    assert RmrkTakes(s.uniques, host, c, 1) <==>
      i < U32_MAX && host.mints((c, i)) && host.setsAttributes((c, i)) && host.freezes((c, i));
  }

  /** Paying out of the released escrow only fails on the existential deposit. */
  lemma EscrowPays(cfg: Config, s: State, overlord: AccountId, id: PreorderId)
    requires EscrowInv(cfg, s) && id in s.preorders
    ensures
      var a := s.preorders[id].owner;
      Payable(cfg, Release(cfg, s, id).ledger, a, overlord, cfg.primePrice) <==>
      (cfg.primePrice == 0 || a == overlord ||
       (&& cfg.primePrice + cfg.existentialDeposit <= s.ledger.Total(a)
        && cfg.existentialDeposit <= s.ledger.Total(overlord) + cfg.primePrice))
  {
    ReleasePaysInFull(cfg, s, id);
  }

  /** What one settlement needs, stated without the storage in between. */
  ghost predicate OneSettleable(cfg: Config, s: State, overlord: AccountId, id: PreorderId, host: Host) {
    && id in s.preorders
    && s.originCollection.Some?
    && KeysFit(cfg)
    && s.overlord.Some?
    && s.preorders[id].race in s.originMetadata
    && PrimePot(s, s.preorders[id].race) > 0
    && RmrkTakes(s.uniques, host, s.originCollection.value, 1)
    && (cfg.primePrice == 0 || s.preorders[id].owner == overlord ||
        (&& cfg.primePrice + cfg.existentialDeposit <= s.ledger.Total(s.preorders[id].owner)
         && cfg.existentialDeposit <= s.ledger.Total(overlord) + cfg.primePrice))
  }

  lemma SettleOneSucceedsIff(cfg: Config, s: State, overlord: AccountId, id: PreorderId, host: Host)
    requires WorldInv(cfg, s)
    ensures SettleOne(cfg, s, overlord, id, host).Ok? <==> OneSettleable(cfg, s, overlord, id, host)
  {
    assert id in s.preorders ==> s.OwnsSpirit(s.preorders[id].owner);
    assert EscrowInv(cfg, s);
    hide WorldInv, EscrowInv, MintOriginOfShell, KeysFit, RmrkTakes, Payable;
    if id in s.preorders {
      EscrowPays(cfg, s, overlord, id);
      MintSucceedsIff(cfg, Release(cfg, s, id), PreorderMint(cfg, overlord, s.preorders[id]), host);
    }
  }

  // ----- From one settlement to the next -----

  lemma AffordableSplit(cfg: Config, l: Ledger, l1: Ledger, overlord: AccountId, a: AccountId, rest: seq<AccountId>)
    requires a != overlord ==> cfg.primePrice <= l.Total(a)
    requires forall b ::
      l1.Total(b) == if a == overlord then l.Total(b) else if b == a then l.Total(b) - cfg.primePrice
                     else if b == overlord then l.Total(b) + cfg.primePrice else l.Total(b)
    requires cfg.primePrice == 0 || a == overlord ||
      (&& cfg.primePrice + cfg.existentialDeposit <= l.Total(a)
       && cfg.existentialDeposit <= l.Total(overlord) + cfg.primePrice)
    ensures Affordable(cfg, l, overlord, [a] + rest) <==> Affordable(cfg, l1, overlord, rest)
  {
    var price := cfg.primePrice;
    var all := [a] + rest;
    assert forall b :: b in all <==> b == a || b in rest;
    forall b
      ensures multiset(all)[b] == multiset(rest)[b] + if b == a then 1 else 0
      ensures price * multiset(all)[b] == price * multiset(rest)[b] + if b == a then price else 0
    {
      assert multiset(all) == multiset{a} + multiset(rest);
      if b == a {
        TimesSuccessor(price, multiset(rest)[b]);
      }
    }
    if price != 0 && Affordable(cfg, l1, overlord, rest) {
      forall b | b in all && b != overlord
        ensures price * multiset(all)[b] + cfg.existentialDeposit <= l.Total(b)
        ensures cfg.existentialDeposit <= l.Total(overlord) + price
      {
        if b !in rest {
          assert multiset(rest)[b] == 0;
        }
      }
    }
  }

  lemma RmrkTakesSplit(u: Uniques, u1: Uniques, host: Host, c: CollectionId, count: nat)
    requires RmrkTakes(u, host, c, 1) && u1.NextNftId(c) == u.NextNftId(c) + 1 && count >= 1
    ensures RmrkTakes(u, host, c, count) <==> RmrkTakes(u1, host, c, count - 1)
  {
  }

  lemma PotsSplit(s: State, s1: State, ids: seq<PreorderId>)
    requires ids != [] && AllLive(s, ids) && AllLive(s1, ids[1..]) && s1.preorders == s.preorders - {ids[0]}
    requires PrimePot(s, s.preorders[ids[0]].race) > 0
    requires forall race :: PrimePot(s1, race) == PrimePot(s, race) - if race == s.preorders[ids[0]].race then 1 else 0
    ensures PotsSuffice(s, ids) <==> PotsSuffice(s1, ids[1..])
  {
    RacesOfSplit(s, s1, ids);
    hide RacesOf, PrimePot;
    assert forall race ::
      multiset(RacesOf(s, ids))[race] ==
        multiset(RacesOf(s1, ids[1..]))[race] + if race == s.preorders[ids[0]].race then 1 else 0;
  }

  lemma LiveSplit(s: State, s1: State, ids: seq<PreorderId>)
    requires ids != [] && ids[0] in s.preorders && s1.preorders == s.preorders - {ids[0]}
    ensures Distinct(ids) && AllLive(s, ids) <==> Distinct(ids[1..]) && AllLive(s1, ids[1..])
  {
    assert ids == [ids[0]] + ids[1..];
    DistinctTail(ids);
  }

  lemma MetadataSplit(s: State, s1: State, ids: seq<PreorderId>)
    requires ids != [] && AllLive(s, ids) && AllLive(s1, ids[1..]) && s1.preorders == s.preorders - {ids[0]}
    requires s1.originMetadata == s.originMetadata && s.preorders[ids[0]].race in s.originMetadata
    ensures MetadataSet(s, ids) <==> MetadataSet(s1, ids[1..])
  {
    assert ids == [ids[0]] + ids[1..];
    assert forall id :: id in ids[1..] ==> s1.preorders[id] == s.preorders[id];
  }

  /** `s1` is `s` after settling `id`, as far as the conditions of later settlements go. */
  ghost predicate SettledFirst(cfg: Config, s: State, s1: State, overlord: AccountId, id: PreorderId)
    requires id in s.preorders && s.originCollection.Some?
  {
    var a := s.preorders[id].owner;
    var c := s.originCollection.value;
    && s1.originCollection == s.originCollection && s1.overlord == s.overlord && s1.originMetadata == s.originMetadata
    && s1.preorders == s.preorders - {id}
    && s1.uniques.NextNftId(c) == s.uniques.NextNftId(c) + 1
    && (a != overlord ==> cfg.primePrice <= s.ledger.Total(a))
    && (forall race :: PrimePot(s1, race) == PrimePot(s, race) - if race == s.preorders[id].race then 1 else 0)
    && (forall b ::
          s1.ledger.Total(b) == if a == overlord then s.ledger.Total(b)
                                else if b == a then s.ledger.Total(b) - cfg.primePrice
                                else if b == overlord then s.ledger.Total(b) + cfg.primePrice else s.ledger.Total(b))
  }

  lemma SettleOneIsFirst(cfg: Config, s: State, overlord: AccountId, id: PreorderId, host: Host)
    requires SettleOne(cfg, s, overlord, id, host).Ok?
    ensures id in s.preorders && s.originCollection.Some?
    ensures SettledFirst(cfg, s, SettleOne(cfg, s, overlord, id, host).value, overlord, id)
  {
    SettleOneMints(cfg, s, overlord, id, host);
    SettleOneCounts(cfg, s, overlord, id, host);
    SettleOneTotals(cfg, s, overlord, id, host);
    hide SettleOne, TraitsOf, SameTraitsBut, Ledger.Total;
  }

  lemma SettleOneTotals(cfg: Config, s: State, overlord: AccountId, id: PreorderId, host: Host)
    requires SettleOne(cfg, s, overlord, id, host).Ok?
    ensures id in s.preorders
    ensures
      var a := s.preorders[id].owner;
      && (a != overlord ==> cfg.primePrice <= s.ledger.Total(a))
      && forall b ::
           SettleOne(cfg, s, overlord, id, host).value.ledger.Total(b) ==
             if a == overlord then s.ledger.Total(b)
             else if b == a then s.ledger.Total(b) - cfg.primePrice
             else if b == overlord then s.ledger.Total(b) + cfg.primePrice else s.ledger.Total(b)
  {
    hide *;
    SettleOneMoney(cfg, s, overlord, id, host, overlord);
    SettleOneMoney(cfg, s, overlord, id, host, s.preorders[id].owner);
    forall b {
      SettleOneMoney(cfg, s, overlord, id, host, b);
    }
  }

  lemma SettleableSplit(cfg: Config, s: State, s1: State, overlord: AccountId, ids: seq<PreorderId>, host: Host)
    requires ids != [] && OneSettleable(cfg, s, overlord, ids[0], host) && SettledFirst(cfg, s, s1, overlord, ids[0])
    ensures Settleable(cfg, s, overlord, ids, host) <==> Settleable(cfg, s1, overlord, ids[1..], host)
  {
    var rest := ids[1..];
    var c := s.originCollection.value;
    LiveSplit(s, s1, ids);
    if Distinct(ids) && AllLive(s, ids) {
      MetadataSplit(s, s1, ids);
      PotsSplit(s, s1, ids);
      RmrkTakesSplit(s.uniques, s1.uniques, host, c, |ids|);
      RacesOfSplit(s, s1, ids);
      AffordableSplit(cfg, s.ledger, s1.ledger, overlord, s.preorders[ids[0]].owner, BuyersOf(s1, rest));
      NothingLeftIsSettleable(cfg, s, s1, overlord, ids, host);
      hide SettledFirst, OneSettleable, PrimePot, RmrkTakes, KeysFit, Affordable, RacesOf, BuyersOf, MetadataSet,
        PotsSuffice, Distinct, AllLive;
    }
  }

  lemma NothingLeftIsSettleable(cfg: Config, s: State, s1: State, overlord: AccountId, ids: seq<PreorderId>, host: Host)
    requires ids != [] && OneSettleable(cfg, s, overlord, ids[0], host) && SettledFirst(cfg, s, s1, overlord, ids[0])
    requires AllLive(s1, ids[1..])
    ensures ids[1..] == [] ==>
      MetadataSet(s1, ids[1..]) && PotsSuffice(s1, ids[1..]) && RmrkTakes(s1.uniques, host, s.originCollection.value, 0)
      && Affordable(cfg, s1.ledger, overlord, BuyersOf(s1, ids[1..]))
  {
    if ids[1..] == [] {
      assert RacesOf(s1, ids[1..]) == [] && BuyersOf(s1, ids[1..]) == [];
    }
  }

  /** A list of preorders can be settled exactly when the storage before the call meets `Settleable`. */
  lemma {:induction false} SettleAllSucceedsIff(cfg: Config, s: State, overlord: AccountId, ids: seq<PreorderId>,
                                                host: Host)
    requires WorldInv(cfg, s)
    ensures SettleAll(cfg, s, overlord, ids, host).Ok? <==> Settleable(cfg, s, overlord, ids, host)
    decreases |ids|
  {
    if ids != [] {
      SettleOneSucceedsIff(cfg, s, overlord, ids[0], host);
      if SettleOne(cfg, s, overlord, ids[0], host).Ok? {
        hide WorldInv, SettleOne, Settleable, OneSettleable, SettledFirst;
        var s1 := SettleOne(cfg, s, overlord, ids[0], host).value;
        SettleOneKeeps(cfg, s, overlord, ids[0], host);
        SettleOneIsFirst(cfg, s, overlord, ids[0], host);
        SettleableSplit(cfg, s, s1, overlord, ids, host);
        SettleAllSucceedsIff(cfg, s1, overlord, ids[1..], host);
      } else {
        hide WorldInv, SettleOne;
        if Settleable(cfg, s, overlord, ids, host) {
          SettleableNeedsFirst(cfg, s, overlord, ids, host);
        }
      }
    }
  }

  lemma SettleableNeedsFirst(cfg: Config, s: State, overlord: AccountId, ids: seq<PreorderId>, host: Host)
    requires ids != [] && Settleable(cfg, s, overlord, ids, host)
    ensures OneSettleable(cfg, s, overlord, ids[0], host)
  {
    var p := s.preorders[ids[0]];
    assert RacesOf(s, ids)[0] == p.race && multiset(RacesOf(s, ids))[p.race] > 0;
    assert BuyersOf(s, ids)[0] == p.owner;
    var n := multiset(BuyersOf(s, ids))[p.owner];
    assert n > 0;
    TimesAtLeastOne(cfg.primePrice, n);
  }

  lemma TimesAtLeastOne(price: nat, n: nat)
    requires n > 0
    ensures price <= price * n
  {
  }

  /** A mint call succeeds exactly when the overlord makes it and the ids it looks at can be settled. */
  lemma MintChosenSucceedsIff(cfg: Config, s: State, sender: AccountId, ids: seq<PreorderId>, host: Host)
    requires WorldInv(cfg, s)
    ensures MintChosen(cfg, s, sender, ids, host).Ok? <==>
            s.overlord == Some(sender) && Settleable(cfg, s, sender, Chunk(cfg, ids), host)
  {
    hide WorldInv, Settleable, SettleAll;
    SettleAllSucceedsIff(cfg, s, sender, Chunk(cfg, ids), host);
  }

  // ----- Permuted lists -----

  /** Races, careers and buyers of a permuted list are permuted. */
  lemma InfoPermuted(s: State, ids1: seq<PreorderId>, ids2: seq<PreorderId>)
    requires multiset(ids1) == multiset(ids2) && AllLive(s, ids1) && AllLive(s, ids2)
    ensures multiset(RacesOf(s, ids1)) == multiset(RacesOf(s, ids2))
    ensures multiset(CareersOf(s, ids1)) == multiset(CareersOf(s, ids2))
    ensures multiset(BuyersOf(s, ids1)) == multiset(BuyersOf(s, ids2))
  {
    RacesPermuted(s, ids1, ids2);
    CareersPermuted(s, ids1, ids2);
    BuyersPermuted(s, ids1, ids2);
    hide *;
  }

  lemma RacesPermuted(s: State, ids1: seq<PreorderId>, ids2: seq<PreorderId>)
    requires multiset(ids1) == multiset(ids2) && AllLive(s, ids1) && AllLive(s, ids2)
    ensures multiset(RacesOf(s, ids1)) == multiset(RacesOf(s, ids2))
  {
    var f := map id | id in s.preorders :: s.preorders[id].race;
    ImagesPermuted(ids1, ids2, f);
    assert RacesOf(s, ids1) == Images(ids1, f) && RacesOf(s, ids2) == Images(ids2, f);
  }

  lemma CareersPermuted(s: State, ids1: seq<PreorderId>, ids2: seq<PreorderId>)
    requires multiset(ids1) == multiset(ids2) && AllLive(s, ids1) && AllLive(s, ids2)
    ensures multiset(CareersOf(s, ids1)) == multiset(CareersOf(s, ids2))
  {
    var f := map id | id in s.preorders :: s.preorders[id].career;
    ImagesPermuted(ids1, ids2, f);
    assert CareersOf(s, ids1) == Images(ids1, f) && CareersOf(s, ids2) == Images(ids2, f);
  }

  lemma BuyersPermuted(s: State, ids1: seq<PreorderId>, ids2: seq<PreorderId>)
    requires multiset(ids1) == multiset(ids2) && AllLive(s, ids1) && AllLive(s, ids2)
    ensures multiset(BuyersOf(s, ids1)) == multiset(BuyersOf(s, ids2))
  {
    var f := map id | id in s.preorders :: s.preorders[id].owner;
    ImagesPermuted(ids1, ids2, f);
    assert BuyersOf(s, ids1) == Images(ids1, f) && BuyersOf(s, ids2) == Images(ids2, f);
  }

  lemma SameMembers<T>(a: seq<T>, b: seq<T>)
    requires multiset(a) == multiset(b)
    ensures |a| == |b| && ToSet(a) == ToSet(b) && (Distinct(a) <==> Distinct(b))
    ensures forall x :: x in a <==> x in b
  {
    assert |a| == |multiset(a)| && |b| == |multiset(b)|;
    assert forall x :: x in a <==> x in multiset(a);
    assert forall x :: x in b <==> x in multiset(b);
    DistinctIffSimple(a);
    DistinctIffSimple(b);
  }

  lemma SettleablePermuted(cfg: Config, s: State, overlord: AccountId, ids1: seq<PreorderId>, ids2: seq<PreorderId>,
                           host: Host)
    requires multiset(ids1) == multiset(ids2) && Settleable(cfg, s, overlord, ids1, host)
    ensures Settleable(cfg, s, overlord, ids2, host)
  {
    SameMembers(ids1, ids2);
    InfoPermuted(s, ids1, ids2);
    SameMembers(BuyersOf(s, ids1), BuyersOf(s, ids2));
    hide Distinct, RacesOf, BuyersOf, RmrkTakes, KeysFit, ToSet, Ledger.Total;
  }

  /** Two outcomes of a batch agree, whichever of the new ids went to which preorder. */
  ghost predicate SameButForIds(s1: State, s2: State) {
    && s1.preorders == s2.preorders && s1.ownerHasPreorder == s2.ownerHasPreorder && s1.inventory == s2.inventory
    && (forall career :: Get(s1.careerTypeCount, career) == Get(s2.careerTypeCount, career))
    && (forall a :: s1.ledger.Total(a) == s2.ledger.Total(a) && s1.ledger.Reserved(a) == s2.ledger.Reserved(a))
    && OriginsMinted(s1) == OriginsMinted(s2) && s1.uniques.owner.Keys == s2.uniques.owner.Keys
  }

  lemma AlikeTables(s: State, s1: State, s2: State, ids1: seq<PreorderId>, ids2: seq<PreorderId>)
    requires AllLive(s, ids1) && AllLive(s, ids2)
    requires multiset(RacesOf(s, ids1)) == multiset(RacesOf(s, ids2))
    requires multiset(CareersOf(s, ids1)) == multiset(CareersOf(s, ids2))
    requires NewInventory(s, s1, ids1) && NewInventory(s, s2, ids2)
    requires NewCareers(s, s1, ids1) && NewCareers(s, s2, ids2)
    ensures s1.inventory == s2.inventory
    ensures forall career :: Get(s1.careerTypeCount, career) == Get(s2.careerTypeCount, career)
  {
    hide RacesOf, CareersOf, AllLive;
    forall key | key in s.inventory
      ensures s1.inventory[key] == s2.inventory[key]
    {
      assert Sold(s.inventory[key], s1.inventory[key], Share(RacesOf(s, ids1), key));
      assert Sold(s.inventory[key], s2.inventory[key], Share(RacesOf(s, ids2), key));
    }
    assert s1.inventory == s2.inventory;
  }

  lemma AlikeBalances(cfg: Config, s: State, s1: State, s2: State, overlord: AccountId, ids1: seq<PreorderId>,
                      ids2: seq<PreorderId>)
    requires AllLive(s, ids1) && AllLive(s, ids2) && |ids1| == |ids2|
    requires multiset(BuyersOf(s, ids1)) == multiset(BuyersOf(s, ids2))
    requires NewBalances(cfg, s, s1, overlord, ids1) && NewBalances(cfg, s, s2, overlord, ids2)
    requires EscrowInv(cfg, s1) && EscrowInv(cfg, s2) && s1.preorders == s2.preorders
    ensures forall a :: s1.ledger.Total(a) == s2.ledger.Total(a) && s1.ledger.Reserved(a) == s2.ledger.Reserved(a)
  {
    hide BuyersOf, Cost, AllLive, LiveOf, Ledger.Total, Ledger.Reserved;
    forall a
      ensures s1.ledger.Total(a) == s2.ledger.Total(a) && s1.ledger.Reserved(a) == s2.ledger.Reserved(a)
    {
      assert BalanceAfter(cfg, s, s1, overlord, ids1, a) && BalanceAfter(cfg, s, s2, overlord, ids2, a);
      assert PreordersOf(s, ids1, a) == PreordersOf(s, ids2, a) && OthersOf(s, ids1, a) == OthersOf(s, ids2, a);
    }
  }

  lemma AlikeOwners(s: State, s1: State, s2: State, ids1: seq<PreorderId>, ids2: seq<PreorderId>)
    requires AllLive(s, ids1) && AllLive(s, ids2) && |ids1| == |ids2| && s.originCollection.Some?
    requires NewOrigins(s, s1, ids1) && NewOrigins(s, s2, ids2)
    requires s1.originCollection == s2.originCollection == s.originCollection
    ensures OriginsMinted(s1) == OriginsMinted(s2) && s1.uniques.owner.Keys == s2.uniques.owner.Keys
  {
    OwnersWithin(s, s1, s2, ids1, ids2);
    OwnersWithin(s, s2, s1, ids2, ids1);
    hide NewOrigins;
    assert OriginsMinted(s1) == OriginsMinted(s2) by {
      assert NewOrigins(s, s1, ids1) && NewOrigins(s, s2, ids2);
    }
  }

  lemma OwnersWithin(s: State, s1: State, s2: State, ids1: seq<PreorderId>, ids2: seq<PreorderId>)
    requires AllLive(s, ids1) && AllLive(s, ids2) && |ids1| == |ids2| && s.originCollection.Some?
    requires NewOrigins(s, s1, ids1) && NewOrigins(s, s2, ids2)
    ensures forall n :: n in s1.uniques.owner ==> n in s2.uniques.owner
    ensures s1.uniques.NextNftId(s.originCollection.value) == s2.uniques.NextNftId(s.originCollection.value)
  {
    hide TraitsOf, AllLive;
    var first := s.uniques.NextNftId(s.originCollection.value);
    forall n | n in s1.uniques.owner
      ensures n in s2.uniques.owner
    {
      if n !in s.uniques.owner {
        assert NewOriginAt(s, s2, ids2, n.1 - first);
      }
    }
  }

  /**
   The order of a mint batch decides neither whether it succeeds nor what it does to preorders, flags, pots, careers and
   balances. Which new id goes to which preorder is all that is left to it (SettleAllEffect).
   */
  lemma MintOrderIsIrrelevant(cfg: Config, s: State, overlord: AccountId, ids1: seq<PreorderId>, ids2: seq<PreorderId>,
                              host: Host)
    requires WorldInv(cfg, s) && multiset(ids1) == multiset(ids2)
    ensures SettleAll(cfg, s, overlord, ids1, host).Ok? <==> SettleAll(cfg, s, overlord, ids2, host).Ok?
    ensures SettleAll(cfg, s, overlord, ids1, host).Ok? ==>
      SameButForIds(SettleAll(cfg, s, overlord, ids1, host).value, SettleAll(cfg, s, overlord, ids2, host).value)
  {
    hide *;
    SettleAllSucceedsIff(cfg, s, overlord, ids1, host);
    SettleAllSucceedsIff(cfg, s, overlord, ids2, host);
    if Settleable(cfg, s, overlord, ids1, host) {
      SettleablePermuted(cfg, s, overlord, ids1, ids2, host);
      SettledAlikeButForIds(cfg, s, overlord, ids1, ids2, host);
    } else if Settleable(cfg, s, overlord, ids2, host) {
      SettleablePermuted(cfg, s, overlord, ids2, ids1, host);
    }
  }

  lemma SettledAlikeButForIds(cfg: Config, s: State, overlord: AccountId, ids1: seq<PreorderId>, ids2: seq<PreorderId>,
                              host: Host)
    requires WorldInv(cfg, s) && multiset(ids1) == multiset(ids2)
    requires SettleAll(cfg, s, overlord, ids1, host).Ok? && SettleAll(cfg, s, overlord, ids2, host).Ok?
    ensures
      SameButForIds(SettleAll(cfg, s, overlord, ids1, host).value, SettleAll(cfg, s, overlord, ids2, host).value)
  {
    hide *;
    SameMembers(ids1, ids2);
    if ids1 == [] {
      NothingSettledAtAll(cfg, s, overlord, host);
      AlikeItself(s);
    } else {
      var s1 := SettleAll(cfg, s, overlord, ids1, host).value;
      var s2 := SettleAll(cfg, s, overlord, ids2, host).value;
      EffectOf(cfg, s, overlord, ids1, host);
      EffectOf(cfg, s, overlord, ids2, host);
      AlikeOutcomes(cfg, s, s1, s2, overlord, ids1, ids2);
    }
  }

  /** The effect of a batch over a list that is not empty. */
  ghost predicate SettledAs(cfg: Config, s: State, s': State, overlord: AccountId, ids: seq<PreorderId>) {
    && AllLive(s, ids) && s.originCollection.Some? && s'.originCollection == s.originCollection
    && s'.preorders == s.preorders - ToSet(ids) && s'.ownerHasPreorder == FlagsAfter(s, ids)
    && NewOrigins(s, s', ids) && NewInventory(s, s', ids) && NewCareers(s, s', ids)
    && NewBalances(cfg, s, s', overlord, ids) && EscrowInv(cfg, s')
  }

  lemma EffectOf(cfg: Config, s: State, overlord: AccountId, ids: seq<PreorderId>, host: Host)
    requires WorldInv(cfg, s) && SettleAll(cfg, s, overlord, ids, host).Ok? && ids != []
    ensures SettledAs(cfg, s, SettleAll(cfg, s, overlord, ids, host).value, overlord, ids)
  {
    hide WorldInv, SettleAll, NewOrigins, NewInventory, NewCareers, NewBalances, EscrowInv, AllLive, FlagsAfter;
    SettleAllEffect(cfg, s, overlord, ids, host);
  }

  lemma AlikeOutcomes(cfg: Config, s: State, s1: State, s2: State, overlord: AccountId, ids1: seq<PreorderId>,
                      ids2: seq<PreorderId>)
    requires multiset(ids1) == multiset(ids2)
    requires SettledAs(cfg, s, s1, overlord, ids1) && SettledAs(cfg, s, s2, overlord, ids2)
    ensures SameButForIds(s1, s2)
  {
    hide NewOrigins, NewInventory, NewCareers, NewBalances, EscrowInv, OriginsMinted, RacesOf, CareersOf, BuyersOf,
      AllLive, OwnersOf, ToSet, Ledger.Total, Ledger.Reserved;
    SameMembers(ids1, ids2);
    InfoPermuted(s, ids1, ids2);
    AlikeTables(s, s1, s2, ids1, ids2);
    AlikeBalances(cfg, s, s1, s2, overlord, ids1, ids2);
    AlikeOwners(s, s1, s2, ids1, ids2);
  }

  lemma AlikeItself(s: State)
    ensures SameButForIds(s, s)
  {
  }

  lemma NothingSettledAtAll(cfg: Config, s: State, overlord: AccountId, host: Host)
    ensures SettleAll(cfg, s, overlord, [], host) == Ok(s)
  {
  }
}
