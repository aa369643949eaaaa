/**
 The two pallets as they run: the storage items are fields, and every dispatchable updates them step by step. Each
 method is tied to the effect that World gives for the call.
 */
module Pallets {
  import opened Primitives
  import opened Codec
  import opened Sums
  import opened Currency
  import opened Nfts
  import opened World
  import opened Invariants
  import opened Preservation

  /** `m'` is `m` with the same entry for every race of one rarity. */
  ghost predicate SetForEveryRace(m: map<(RarityType, RaceType), NftSaleInfo>,
                                  m': map<(RarityType, RaceType), NftSaleInfo>,
                                  rarity: RarityType, info: NftSaleInfo)
  {
    forall key: (RarityType, RaceType) ::
      if key.0 == rarity then key in m' && m'[key] == info
      else (key in m' <==> key in m) && (key in m ==> m'[key] == m[key])
  }

  /** `m'` is `m` with one entry set. */
  ghost predicate EntrySet(m: map<(RarityType, RaceType), NftSaleInfo>, m': map<(RarityType, RaceType), NftSaleInfo>,
                           entry: (RarityType, RaceType), info: NftSaleInfo)
  {
    forall key: (RarityType, RaceType) ::
      if key == entry then key in m' && m'[key] == info
      else (key in m' <==> key in m) && (key in m ==> m'[key] == m[key])
  }

  lemma EntrySetAt(m: map<(RarityType, RaceType), NftSaleInfo>, m': map<(RarityType, RaceType), NftSaleInfo>,
                   entry: (RarityType, RaceType), info: NftSaleInfo, key: (RarityType, RaceType))
    requires EntrySet(m, m', entry, info)
    ensures if key == entry then key in m' && m'[key] == info
            else (key in m' <==> key in m) && (key in m ==> m'[key] == m[key])
  {
  }

  /** Four entries are all the entries of a rarity. */
  lemma FourRacesAreAll(m: map<(RarityType, RaceType), NftSaleInfo>, m1: map<(RarityType, RaceType), NftSaleInfo>,
                        m2: map<(RarityType, RaceType), NftSaleInfo>, m3: map<(RarityType, RaceType), NftSaleInfo>,
                        m4: map<(RarityType, RaceType), NftSaleInfo>, rarity: RarityType, info: NftSaleInfo)
    requires EntrySet(m, m1, (rarity, AISpectre), info) && EntrySet(m1, m2, (rarity, Cyborg), info)
    requires EntrySet(m2, m3, (rarity, Pandroid), info) && EntrySet(m3, m4, (rarity, XGene), info)
    ensures SetForEveryRace(m, m4, rarity, info)
  {
    hide EntrySet;
    forall key: (RarityType, RaceType)
      ensures if key.0 == rarity then key in m4 && m4[key] == info
              else (key in m4 <==> key in m) && (key in m ==> m4[key] == m[key])
    {
      EntrySetAt(m, m1, (rarity, AISpectre), info, key);
      EntrySetAt(m1, m2, (rarity, Cyborg), info, key);
      EntrySetAt(m2, m3, (rarity, Pandroid), info, key);
      EntrySetAt(m3, m4, (rarity, XGene), info, key);
      assert key == (key.0, key.1);
      match key.1 case AISpectre => case Cyborg => case Pandroid => case XGene =>
    }
  }

  lemma ThreeRaritiesAreAll(m: map<(RarityType, RaceType), NftSaleInfo>, m1: map<(RarityType, RaceType), NftSaleInfo>,
                            m2: map<(RarityType, RaceType), NftSaleInfo>, m3: map<(RarityType, RaceType), NftSaleInfo>)
    requires SetForEveryRace(m, m1, Legendary, NftSaleInfo(0, 1, 0, 1))
    requires SetForEveryRace(m1, m2, Magic, NftSaleInfo(0, 10, 0, 10))
    requires SetForEveryRace(m2, m3, Prime, NftSaleInfo(0, 1250, 0, 0))
    ensures m3 == m + InitialInventory()
  {
    hide SetForEveryRace, InitialInventory;
    InitialInventoryIsFull();
    forall key: (RarityType, RaceType)
      ensures key in m3 && m3[key] == InitialSaleInfo(key.0)
    {
      EntryAfter(m, m1, Legendary, NftSaleInfo(0, 1, 0, 1), key);
      EntryAfter(m1, m2, Magic, NftSaleInfo(0, 10, 0, 10), key);
      EntryAfter(m2, m3, Prime, NftSaleInfo(0, 1250, 0, 0), key);
    }
    assert m3 == m + InitialInventory();
  }

  lemma EntryAfter(m: map<(RarityType, RaceType), NftSaleInfo>, m': map<(RarityType, RaceType), NftSaleInfo>,
                   rarity: RarityType, info: NftSaleInfo, key: (RarityType, RaceType))
    requires SetForEveryRace(m, m', rarity, info)
    ensures if key.0 == rarity then key in m' && m'[key] == info
            else (key in m' <==> key in m) && (key in m ==> m'[key] == m[key])
  {
  }

  /** `m'` is `m` with one entry topped up, if it is there. */
  ghost predicate EntryToppedUp(m: map<(RarityType, RaceType), NftSaleInfo>,
                                m': map<(RarityType, RaceType), NftSaleInfo>,
                                entry: (RarityType, RaceType), forSale: nat, giveaway: nat)
  {
    && m'.Keys == m.Keys
    && forall key :: key in m ==> m'[key] == if key == entry then ToppedUp(m[key], forSale, giveaway) else m[key]
  }

  lemma EntryOf(m: map<(RarityType, RaceType), NftSaleInfo>, m': map<(RarityType, RaceType), NftSaleInfo>,
                entry: (RarityType, RaceType), forSale: nat, giveaway: nat, key: (RarityType, RaceType))
    requires EntryToppedUp(m, m', entry, forSale, giveaway)
    ensures key in m' <==> key in m
    ensures key in m ==> m'[key] == if key == entry then ToppedUp(m[key], forSale, giveaway) else m[key]
  {
  }

  /** Four entries are all the entries of a rarity. */
  lemma FourEntriesToppedUp(m: map<(RarityType, RaceType), NftSaleInfo>, m1: map<(RarityType, RaceType), NftSaleInfo>,
                            m2: map<(RarityType, RaceType), NftSaleInfo>, m3: map<(RarityType, RaceType), NftSaleInfo>,
                            m4: map<(RarityType, RaceType), NftSaleInfo>, rarity: RarityType, forSale: nat,
                            giveaway: nat)
    requires EntryToppedUp(m, m1, (rarity, AISpectre), forSale, giveaway)
    requires EntryToppedUp(m1, m2, (rarity, Cyborg), forSale, giveaway)
    requires EntryToppedUp(m2, m3, (rarity, Pandroid), forSale, giveaway)
    requires EntryToppedUp(m3, m4, (rarity, XGene), forSale, giveaway)
    ensures m4 == AllToppedUp(m, rarity, forSale, giveaway)
  {
    hide EntryToppedUp, ToppedUp;
    forall key: (RarityType, RaceType)
      ensures key in m4 <==> key in m
      ensures key in m ==> m4[key] == if key.0 == rarity then ToppedUp(m[key], forSale, giveaway) else m[key]
    {
      EntryOf(m, m1, (rarity, AISpectre), forSale, giveaway, key);
      EntryOf(m1, m2, (rarity, Cyborg), forSale, giveaway, key);
      EntryOf(m2, m3, (rarity, Pandroid), forSale, giveaway, key);
      EntryOf(m3, m4, (rarity, XGene), forSale, giveaway, key);
      assert key == (key.0, key.1);
      match key.1 case AISpectre => case Cyborg => case Pandroid => case XGene =>
    }
    assert m4 == AllToppedUp(m, rarity, forSale, giveaway);
  }

  class PhalaWorld {
    const cfg: Config
    // pallet_pw_nft_sale
    var overlord: Option<AccountId>
    var preorderIndex: PreorderId
    var preorders: map<PreorderId, PreorderInfo>
    var ownerHasPreorder: set<AccountId>
    var inventory: map<(RarityType, RaceType), NftSaleInfo>
    var isInventorySet: bool
    var careerTypeCount: map<CareerType, nat>
    var zeroDay: Option<nat>
    var era: EraId
    var canClaimSpirits: bool
    var canPurchaseRare: bool
    var canPurchasePrime: bool
    var canPreorder: bool
    var lastDayOfSale: bool
    var spiritCollection: Option<CollectionId>
    var originCollection: Option<CollectionId>
    var spiritsMetadata: Option<Bytes>
    var originMetadata: map<RaceType, Bytes>
    // pallet_pw_incubation
    var foodByOwners: map<AccountId, FoodInfo>
    var foodStats: map<(EraId, Nft), nat>
    var officialHatchTime: nat
    var hatchTimes: map<Nft, nat>
    var canStartIncubation: bool
    var shellCollection: Option<CollectionId>
    // the libraries, and the time of the current block in seconds
    var ledger: Ledger
    var uniques: Uniques
    var now: nat

    constructor (cfg: Config, s: State)
      ensures this.cfg == cfg && Snapshot() == s
    {
      this.cfg := cfg;
      overlord, preorderIndex := s.overlord, s.preorderIndex;
      preorders, ownerHasPreorder := s.preorders, s.ownerHasPreorder;
      inventory, isInventorySet, careerTypeCount := s.inventory, s.isInventorySet, s.careerTypeCount;
      zeroDay, era, canClaimSpirits, canPurchaseRare := s.zeroDay, s.era, s.canClaimSpirits, s.canPurchaseRare;
      canPurchasePrime, canPreorder, lastDayOfSale := s.canPurchasePrime, s.canPreorder, s.lastDayOfSale;
      spiritCollection, originCollection := s.spiritCollection, s.originCollection;
      spiritsMetadata, originMetadata := s.spiritsMetadata, s.originMetadata;
      foodByOwners, foodStats, officialHatchTime := s.foodByOwners, s.foodStats, s.officialHatchTime;
      hatchTimes, canStartIncubation, shellCollection := s.hatchTimes, s.canStartIncubation, s.shellCollection;
      ledger, uniques, now := s.ledger, s.uniques, s.now;
    }

    function Snapshot(): State
      reads this
    {
      State(overlord, preorderIndex, preorders, ownerHasPreorder, inventory, isInventorySet, careerTypeCount,
            zeroDay, era, canClaimSpirits, canPurchaseRare, canPurchasePrime, canPreorder, lastDayOfSale,
            spiritCollection, originCollection, spiritsMetadata, originMetadata,
            foodByOwners, foodStats, officialHatchTime, hatchTimes, canStartIncubation, shellCollection,
            ledger, uniques, now)
    }

    /** The call succeeded and left the storage that `effect` says, or failed with the error it says. */
    ghost predicate Did(r: Result<()>, effect: Result<State>)
      reads this
    {
      if r.Ok? then effect.Ok? && effect.value == Snapshot() else effect.Err? && effect.error == r.error
    }

    // ----- Single storage items -----

    method PutLedger(newLedger: Ledger)
      modifies `ledger
      ensures Snapshot() == old(Snapshot()).(ledger := newLedger)
    {
      ledger := newLedger;
    }

    method PutUniques(newUniques: Uniques)
      modifies `uniques
      ensures Snapshot() == old(Snapshot()).(uniques := newUniques)
    {
      uniques := newUniques;
    }

    method PutPreorderIndex(next: PreorderId)
      modifies `preorderIndex
      ensures Snapshot() == old(Snapshot()).(preorderIndex := next)
    {
      preorderIndex := next;
    }

    method PutIsInventorySet(isSet: bool)
      modifies `isInventorySet
      ensures Snapshot() == old(Snapshot()).(isInventorySet := isSet)
    {
      isInventorySet := isSet;
    }

    method SetClaimSpiritsStatus(status: bool)
      modifies `canClaimSpirits
      ensures Snapshot() == old(Snapshot()).(canClaimSpirits := status)
    {
      canClaimSpirits := status;
    }

    method SetPurchaseRareStatus(status: bool)
      modifies `canPurchaseRare
      ensures Snapshot() == old(Snapshot()).(canPurchaseRare := status)
    {
      canPurchaseRare := status;
    }

    method SetPurchasePrimeStatus(status: bool)
      modifies `canPurchasePrime
      ensures Snapshot() == old(Snapshot()).(canPurchasePrime := status)
    {
      canPurchasePrime := status;
    }

    method SetPreorderStatus(status: bool)
      modifies `canPreorder
      ensures Snapshot() == old(Snapshot()).(canPreorder := status)
    {
      canPreorder := status;
    }

    method SetLastDayOfSaleStatus(status: bool)
      modifies `lastDayOfSale
      ensures Snapshot() == old(Snapshot()).(lastDayOfSale := status)
    {
      lastDayOfSale := status;
    }

    // ----- Minting -----

    method MintSpirit(sender: AccountId, host: Host) returns (r: Result<()>)
      modifies `uniques
      ensures Did(r, World.MintSpirit(old(Snapshot()), sender, host))
    {
      var c :- spiritCollection.OkOr(SpiritCollectionNotSet);
      var _ :- Need(!uniques.Owns(sender, c), SpiritAlreadyClaimed);
      var _ :- spiritsMetadata.OkOr(SpiritsMetadataNotSet);
      var n := uniques.NextNft(c);
      uniques :- uniques.Mint(host, c, sender);
      uniques :- uniques.Freeze(host, n);
      return Ok(());
    }

    method LabelNft(n: Nft, t: Traits, host: Host) returns (r: Result<()>)
      modifies `uniques
      ensures
        match r
        case Ok(_) => SetNftAttributes(cfg, overlord, old(uniques), host, n, t) == Ok(uniques)
        case Err(error) => SetNftAttributes(cfg, overlord, old(uniques), host, n, t) == Err(error)
      ensures r.Ok? ==> Snapshot() == old(Snapshot()).(uniques := uniques)
    {
      hide KeysFit, Nfts.Uniques.SetAttribute;
      var _ :- overlord.OkOr(OverlordNotSet);
      var _ :- Need(KeysFit(cfg), KeyTooLong);
      uniques :- uniques.SetAttribute(host, n, RarityKey, EncodeRarity(t.rarity));
      uniques :- uniques.SetAttribute(host, n, RaceKey, EncodeRace(t.race));
      uniques :- uniques.SetAttribute(host, n, CareerKey, EncodeCareer(t.career));
      uniques :- uniques.SetAttribute(host, n, GenerationKey, EncodeGeneration(t.generation));
      return Ok(());
    }

    method DecrementRaceTypeLeft(rarity: RarityType, race: RaceType, saleType: NftSaleType)
      requires (rarity, race) in inventory && inventory[(rarity, race)].Pot(saleType) > 0
      modifies `inventory
      ensures
        var info := old(inventory)[(rarity, race)];
        inventory == old(inventory)[(rarity, race) := Drawn(info, saleType).(raceCount := info.raceCount)]
    {
      var info := inventory[(rarity, race)];
      match saleType {
        case ForSale => info := info.(forSaleCount := info.forSaleCount - 1);
        case Giveaway => info := info.(giveawayCount := info.giveawayCount - 1);
        case Reserved => info := info.(reservedCount := info.reservedCount - 1);
      }
      inventory := inventory[(rarity, race) := info];
    }

    method IncrementRaceType(rarity: RarityType, race: RaceType)
      requires (rarity, race) in inventory
      modifies `inventory
      ensures
        var info := old(inventory)[(rarity, race)];
        inventory == old(inventory)[(rarity, race) := info.(raceCount := info.raceCount + 1)]
    {
      var info := inventory[(rarity, race)];
      inventory := inventory[(rarity, race) := info.(raceCount := info.raceCount + 1)];
    }

    method CountMint(rarity: RarityType, race: RaceType, career: CareerType, saleType: NftSaleType)
      requires (rarity, race) in inventory && inventory[(rarity, race)].Pot(saleType) > 0
      modifies `inventory, `careerTypeCount
      ensures
        Snapshot() == old(Snapshot()).(
          inventory := old(inventory)[(rarity, race) := Drawn(old(inventory)[(rarity, race)], saleType)],
          careerTypeCount := old(careerTypeCount)[career := Get(old(careerTypeCount), career) + 1])
    {
      DecrementRaceTypeLeft(rarity, race, saleType);
      IncrementRaceType(rarity, race);
      assert inventory[(rarity, race)] == Drawn(old(inventory)[(rarity, race)], saleType);
      careerTypeCount := careerTypeCount[career := Get(careerTypeCount, career) + 1];
    }

    /** Mints the next NFT of the collection, labels it, counts it and freezes it. */
    method MintAndCount(origin: CollectionId, order: MintOrder, host: Host) returns (r: Result<()>)
      requires (order.traits.rarity, order.traits.race) in inventory
      requires inventory[(order.traits.rarity, order.traits.race)].Pot(order.saleType) > 0
      modifies `uniques, `inventory, `careerTypeCount
      ensures Did(r, World.MintAndCount(cfg, old(Snapshot()), origin, order, host))
    {
      hide Nfts.Uniques.Mint, Nfts.Uniques.Freeze, SetNftAttributes;
      var n := uniques.NextNft(origin);
      var minted :- uniques.Mint(host, origin, order.owner);
      PutUniques(minted);
      var _ :- LabelNft(n, order.traits, host);
      CountMint(order.traits.rarity, order.traits.race, order.traits.career, order.saleType);
      var frozen :- uniques.Freeze(host, n);
      PutUniques(frozen);
      return Ok(());
    }

    method EnsureMayMint(order: MintOrder) returns (r: Result<CollectionId>)
      ensures r == MintChecks(Snapshot(), order)
    {
      var spirit :- spiritCollection.OkOr(SpiritCollectionNotSet);
      var _ :- Need(uniques.Owns(order.owner, spirit), MustOwnSpiritToPurchase);
      var origin :- originCollection.OkOr(OriginOfShellCollectionNotSet);
      if order.checkOwned {
        var _ :- Need(!uniques.Owns(order.owner, origin), OriginOfShellAlreadyPurchased);
      }
      var _ :- Need(order.traits.race in originMetadata, OriginOfShellsMetadataNotSet);
      var _ :- HasRaceTypeLeft(Snapshot(), order.traits.rarity, order.traits.race, order.saleType);
      return Ok(origin);
    }

    method MintOriginOfShell(order: MintOrder, host: Host) returns (r: Result<()>)
      modifies `ledger, `uniques, `inventory, `careerTypeCount
      ensures Did(r, World.MintOriginOfShell(cfg, old(Snapshot()), order, host))
    {
      hide MintChecks, Currency.Ledger.Transfer, World.MintAndCount;
      var origin :- EnsureMayMint(order);
      var paid :- ledger.Transfer(order.owner, order.overlord, order.price, cfg.existentialDeposit);
      PutLedger(paid);
      var _ :- MintAndCount(origin, order, host);
      return Ok(());
    }

    // ----- Spirits and sales -----

    method ClaimSpirit(sender: AccountId, host: Host) returns (r: Result<()>)
      modifies `uniques
      ensures Did(r, World.ClaimSpirit(cfg, old(Snapshot()), sender, host))
    {
      hide World.MintSpirit;
      var _ :- Need(canClaimSpirits, SpiritClaimNotAvailable);
      var _ :- overlord.OkOr(OverlordNotSet);
      var _ :- Need(ledger.CanReserve(sender, cfg.minBalanceToClaimSpirit), BelowMinimumBalanceThreshold);
      var _ :- MintSpirit(sender, host);
      return Ok(());
    }

    method RedeemSpirit(sender: AccountId, signature: Signature, host: Host) returns (r: Result<()>)
      modifies `uniques
      ensures Did(r, World.RedeemSpirit(cfg, old(Snapshot()), sender, signature, host))
    {
      hide World.MintSpirit;
      var _ :- Need(canClaimSpirits, SpiritClaimNotAvailable);
      var overlord :- overlord.OkOr(OverlordNotSet);
      var _ :- Need(cfg.verifies(overlord, sender, RedeemSpiritPurpose, signature), InvalidSpiritClaim);
      var _ :- MintSpirit(sender, host);
      return Ok(());
    }

    method BuyRare(sender: AccountId, rarity: RarityType, race: RaceType, career: CareerType, host: Host)
      returns (r: Result<()>)
      modifies `ledger, `uniques, `inventory, `careerTypeCount
      ensures Did(r, World.BuyRare(cfg, old(Snapshot()), sender, rarity, race, career, host))
    {
      hide World.MintOriginOfShell;
      var _ :- Need(canPurchaseRare, RareOriginOfShellPurchaseNotAvailable);
      var overlord :- overlord.OkOr(OverlordNotSet);
      var price;
      match rarity {
        case Legendary => price := cfg.legendaryPrice;
        case Magic => price := cfg.magicPrice;
        case Prime => return Err(InvalidPurchase);
      }
      var order := MintOrder(overlord, sender, Traits(rarity, race, career, 0), price, ForSale, !lastDayOfSale);
      var _ :- MintOriginOfShell(order, host);
      return Ok(());
    }

    method BuyPrime(sender: AccountId, signature: Signature, race: RaceType, career: CareerType, host: Host)
      returns (r: Result<()>)
      modifies `ledger, `uniques, `inventory, `careerTypeCount
      ensures Did(r, World.BuyPrime(cfg, old(Snapshot()), sender, signature, race, career, host))
    {
      hide World.MintOriginOfShell;
      var isLastDayOfSale := lastDayOfSale;
      var _ :- Need(canPurchasePrime, PrimeOriginOfShellPurchaseNotAvailable);
      var overlord :- overlord.OkOr(OverlordNotSet);
      var _ :- Need(cfg.verifies(overlord, sender, BuyPrimeOriginOfShellsPurpose, signature) || isLastDayOfSale,
        WhitelistVerificationFailed);
      var order :=
        MintOrder(overlord, sender, Traits(Prime, race, career, 0), cfg.primePrice, ForSale, !isLastDayOfSale);
      var _ :- MintOriginOfShell(order, host);
      return Ok(());
    }

    method MintGift(sender: AccountId, owner: AccountId, rarity: RarityType, race: RaceType, career: CareerType,
                      saleType: NftSaleType, host: Host) returns (r: Result<()>)
      modifies `ledger, `uniques, `inventory, `careerTypeCount
      ensures Did(r, World.MintGift(cfg, old(Snapshot()), sender, owner, rarity, race, career, saleType, host))
    {
      hide World.MintOriginOfShell;
      var _ :- Need(overlord == Some(sender), RequireOverlordAccount);
      var _ :- Need(saleType != ForSale, WrongNftSaleType);
      var _ :- MintOriginOfShell(MintOrder(sender, owner, Traits(rarity, race, career, 0), 0, saleType, false), host);
      return Ok(());
    }

    // ----- Preorders -----

    method RecordPreorder(id: PreorderId, preorder: PreorderInfo, isLastDayOfSale: bool)
      requires isLastDayOfSale == lastDayOfSale
      modifies `preorders, `ownerHasPreorder
      ensures Snapshot() == Recorded(old(Snapshot()), id, preorder)
    {
      preorders := preorders[id := preorder];
      if !isLastDayOfSale {
        ownerHasPreorder := ownerHasPreorder + {preorder.owner};
      }
    }

    method EnsureMayPreorder(sender: AccountId) returns (r: Result<()>)
      ensures r == PreorderChecks(Snapshot(), sender)
    {
      var isLastDayOfSale := lastDayOfSale;
      var _ :- Need(isLastDayOfSale || (canPreorder && sender !in ownerHasPreorder), PreorderOriginOfShellNotAvailable);
      var spirit :- spiritCollection.OkOr(SpiritCollectionNotSet);
      var _ :- Need(uniques.Owns(sender, spirit), MustOwnSpiritToPurchase);
      var origin :- originCollection.OkOr(OriginOfShellCollectionNotSet);
      var _ :- Need(isLastDayOfSale || !uniques.Owns(sender, origin), OriginOfShellAlreadyPurchased);
      return Ok(());
    }

    method PlacePreorder(sender: AccountId, race: RaceType, career: CareerType) returns (r: Result<()>)
      modifies `preorderIndex, `preorders, `ownerHasPreorder, `ledger
      ensures Did(r, World.PlacePreorder(cfg, old(Snapshot()), sender, race, career))
    {
      hide Currency.Ledger.Reserve, Recorded;
      var id := preorderIndex;
      var _ :- Need(id != U32_MAX, NoAvailablePreorderId);
      PutPreorderIndex(id + 1);
      var _ :- Need(race in originMetadata, OriginOfShellsMetadataNotSet);
      var reserved :- ledger.Reserve(sender, cfg.primePrice);
      PutLedger(reserved);
      RecordPreorder(id, PreorderInfo(sender, race, career, originMetadata[race]), lastDayOfSale);
      return Ok(());
    }

    method PreorderOriginOfShell(sender: AccountId, race: RaceType, career: CareerType) returns (r: Result<()>)
      modifies `preorderIndex, `preorders, `ownerHasPreorder, `ledger
      ensures Did(r, World.PreorderOriginOfShell(cfg, old(Snapshot()), sender, race, career))
    {
      hide PreorderChecks, World.PlacePreorder;
      var _ :- EnsureMayPreorder(sender);
      var _ :- PlacePreorder(sender, race, career);
      return Ok(());
    }

    /** Takes the preorder out of storage and unreserves its price. */
    method TakePreorder(id: PreorderId) returns (r: Result<PreorderInfo>)
      modifies `preorders, `ledger
      ensures r.Ok? <==> id in old(preorders)
      ensures r.Ok? ==> r.value == old(preorders)[id] && Snapshot() == Release(cfg, old(Snapshot()), id)
      ensures r.Err? ==> r.error == NoAvailablePreorderId
    {
      if id !in preorders {
        return Err(NoAvailablePreorderId);
      }
      var info := preorders[id];
      preorders := preorders - {id};
      ledger := ledger.Unreserve(info.owner, cfg.primePrice);
      return Ok(info);
    }

    method MintPreorder(sender: AccountId, id: PreorderId, isLastDayOfSale: bool, host: Host) returns (r: Result<()>)
      requires isLastDayOfSale == lastDayOfSale
      modifies `preorders, `ownerHasPreorder, `ledger, `uniques, `inventory, `careerTypeCount
      ensures Did(r, SettleOne(cfg, old(Snapshot()), sender, id, host))
    {
      hide World.MintOriginOfShell, Release;
      var info :- TakePreorder(id);
      var order :=
        MintOrder(sender, info.owner, Traits(Prime, info.race, info.career, 0), cfg.primePrice, ForSale, false);
      var _ :- MintOriginOfShell(order, host);
      if !isLastDayOfSale {
        ownerHasPreorder := ownerHasPreorder - {info.owner};
      }
      return Ok(());
    }

    method RefundPreorder(id: PreorderId, isLastDayOfSale: bool) returns (r: Result<()>)
      requires isLastDayOfSale == lastDayOfSale
      modifies `preorders, `ownerHasPreorder, `ledger
      ensures Did(r, RefundOne(cfg, old(Snapshot()), id))
    {
      var info :- TakePreorder(id);
      if !isLastDayOfSale {
        ownerHasPreorder := ownerHasPreorder - {info.owner};
      }
      return Ok(());
    }

    method MintChosen(sender: AccountId, ids: seq<PreorderId>, host: Host) returns (r: Result<()>)
      modifies `preorders, `ownerHasPreorder, `ledger, `uniques, `inventory, `careerTypeCount
      ensures Did(r, World.MintChosen(cfg, old(Snapshot()), sender, ids, host))
    {
      hide SettleOne;
      var _ :- Need(overlord == Some(sender), RequireOverlordAccount);
      var isLastDayOfSale := lastDayOfSale;
      ghost var chunk := Chunk(cfg, ids);
      var index := 0;
      while index < |ids|
        invariant index <= |chunk| && isLastDayOfSale == lastDayOfSale
        invariant SettleAll(cfg, old(Snapshot()), sender, chunk, host)
               == SettleAll(cfg, Snapshot(), sender, chunk[index..], host)
      {
        if index < cfg.iterLimit {
          assert chunk[index..][0] == ids[index] && chunk[index..][1..] == chunk[index + 1..];
          var _ :- MintPreorder(sender, ids[index], isLastDayOfSale, host);
          index := index + 1;
        } else {
          break;
        }
      }
      assert chunk[index..] == [];
      return Ok(());
    }

    method RefundNotChosen(sender: AccountId, ids: seq<PreorderId>) returns (r: Result<()>)
      modifies `preorders, `ownerHasPreorder, `ledger
      ensures Did(r, World.RefundNotChosen(cfg, old(Snapshot()), sender, ids))
    {
      hide RefundOne;
      var _ :- Need(overlord == Some(sender), RequireOverlordAccount);
      var isLastDayOfSale := lastDayOfSale;
      ghost var chunk := Chunk(cfg, ids);
      var index := 0;
      while index < |ids|
        invariant index <= |chunk| && isLastDayOfSale == lastDayOfSale
        invariant RefundAll(cfg, old(Snapshot()), chunk) == RefundAll(cfg, Snapshot(), chunk[index..])
      {
        if index < cfg.iterLimit {
          assert chunk[index..][0] == ids[index] && chunk[index..][1..] == chunk[index + 1..];
          var _ :- RefundPreorder(ids[index], isLastDayOfSale);
          index := index + 1;
        } else {
          break;
        }
      }
      assert chunk[index..] == [];
      return Ok(());
    }

    // ----- The inventory -----

    method PutEntry(entry: (RarityType, RaceType), info: NftSaleInfo)
      modifies `inventory
      ensures EntrySet(old(inventory), inventory, entry, info)
    {
      inventory := inventory[entry := info];
    }

    method InsertForEveryRace(rarity: RarityType, info: NftSaleInfo)
      modifies `inventory
      ensures SetForEveryRace(old(inventory), inventory, rarity, info)
      ensures Snapshot() == old(Snapshot()).(inventory := inventory)
    {
      hide EntrySet, SetForEveryRace;
      ghost var m := inventory;
      PutEntry((rarity, AISpectre), info);
      ghost var m1 := inventory;
      PutEntry((rarity, Cyborg), info);
      ghost var m2 := inventory;
      PutEntry((rarity, Pandroid), info);
      ghost var m3 := inventory;
      PutEntry((rarity, XGene), info);
      FourRacesAreAll(m, m1, m2, m3, inventory, rarity, info);
    }

    /** The twelve inserts. */
    method InsertInitialInventory()
      modifies `inventory
      ensures Snapshot() == old(Snapshot()).(inventory := old(inventory) + InitialInventory())
    {
      hide SetForEveryRace, InitialInventory;
      ghost var m := inventory;
      InsertForEveryRace(Legendary, NftSaleInfo(0, 1, 0, 1));
      ghost var m1 := inventory;
      InsertForEveryRace(Magic, NftSaleInfo(0, 10, 0, 10));
      ghost var m2 := inventory;
      InsertForEveryRace(Prime, NftSaleInfo(0, 1250, 0, 0));
      ThreeRaritiesAreAll(m, m1, m2, inventory);
    }

    method InitRarityTypeCounts(sender: AccountId) returns (r: Result<()>)
      modifies `inventory, `isInventorySet
      ensures Did(r, World.InitRarityTypeCounts(old(Snapshot()), sender))
      ensures r.Err? ==> unchanged(this)
    {
      hide InitialInventory;
      var _ :- Need(overlord == Some(sender), RequireOverlordAccount);
      var _ :- Need(!isInventorySet, OriginOfShellInventoryAlreadySet);
      InsertInitialInventory();
      PutIsInventorySet(true);
      return Ok(());
    }

    method UpdateNftSaleInfo(rarity: RarityType, race: RaceType, forSale: nat, giveaway: nat)
      modifies `inventory
      ensures EntryToppedUp(old(inventory), inventory, (rarity, race), forSale, giveaway)
      ensures Snapshot() == old(Snapshot()).(inventory := inventory)
    {
      if (rarity, race) in inventory {
        var info := inventory[(rarity, race)];
        info := info.(forSaleCount := SaturatingAddU32(info.forSaleCount, forSale));
        info := info.(giveawayCount := SaturatingAddU32(info.giveawayCount, giveaway));
        inventory := inventory[(rarity, race) := info];
      }
    }

    method UpdateRarityTypeCounts(sender: AccountId, rarity: RarityType, forSale: nat, giveaway: nat)
      returns (r: Result<()>)
      modifies `inventory
      ensures Did(r, World.UpdateRarityTypeCounts(old(Snapshot()), sender, rarity, forSale, giveaway))
      ensures r.Err? ==> unchanged(this)
    {
      hide EntryToppedUp, AllToppedUp;
      var _ :- Need(overlord == Some(sender), RequireOverlordAccount);
      var _ :- Need(rarity == Prime, WrongRarityType);
      ghost var m := inventory;
      UpdateNftSaleInfo(rarity, AISpectre, forSale, giveaway);
      ghost var m1 := inventory;
      UpdateNftSaleInfo(rarity, Cyborg, forSale, giveaway);
      ghost var m2 := inventory;
      UpdateNftSaleInfo(rarity, Pandroid, forSale, giveaway);
      ghost var m3 := inventory;
      UpdateNftSaleInfo(rarity, XGene, forSale, giveaway);
      FourEntriesToppedUp(m, m1, m2, m3, inventory, rarity, forSale, giveaway);
      return Ok(());
    }

    // ----- Settings -----

    method SetOverlord(isGovernance: bool, newOverlord: AccountId) returns (r: Result<()>)
      modifies `overlord
      ensures Did(r, World.SetOverlord(old(Snapshot()), isGovernance, newOverlord))
      ensures r.Err? ==> unchanged(this)
    {
      var _ :- Need(isGovernance, BadOrigin);
      overlord := Some(newOverlord);
      return Ok(());
    }

    method InitializeWorldClock(sender: AccountId) returns (r: Result<()>)
      requires cfg.Valid()
      modifies `zeroDay
      ensures Did(r, World.InitializeWorldClock(cfg, old(Snapshot()), sender))
      ensures r.Err? ==> unchanged(this)
    {
      var _ :- Need(overlord == Some(sender), RequireOverlordAccount);
      var _ :- Need(zeroDay == None, WorldClockAlreadySet);
      zeroDay := Some(now - now % cfg.secondsPerEra);
      return Ok(());
    }

    method SetStatusType(sender: AccountId, status: bool, statusType: StatusType) returns (r: Result<()>)
      modifies `canClaimSpirits, `canPurchaseRare, `canPurchasePrime, `canPreorder, `lastDayOfSale
      ensures Did(r, World.SetStatusType(old(Snapshot()), sender, status, statusType))
      ensures r.Err? ==> unchanged(this)
    {
      var _ :- Need(overlord == Some(sender), RequireOverlordAccount);
      match statusType {
        case ClaimSpirits => SetClaimSpiritsStatus(status);
        case PurchaseRareOriginOfShells => SetPurchaseRareStatus(status);
        case PurchasePrimeOriginOfShells => SetPurchasePrimeStatus(status);
        case PreorderOriginOfShells => SetPreorderStatus(status);
        case LastDayOfSale => SetLastDayOfSaleStatus(status);
      }
      return Ok(());
    }

    method SetSpiritCollectionId(sender: AccountId, c: CollectionId) returns (r: Result<()>)
      modifies `spiritCollection
      ensures Did(r, World.SetSpiritCollectionId(old(Snapshot()), sender, c))
      ensures r.Err? ==> unchanged(this)
    {
      var _ :- Need(overlord == Some(sender), RequireOverlordAccount);
      var _ :- Need(spiritCollection == None, SpiritCollectionIdAlreadySet);
      spiritCollection := Some(c);
      return Ok(());
    }

    method SetOriginOfShellCollectionId(sender: AccountId, c: CollectionId) returns (r: Result<()>)
      modifies `originCollection
      ensures Did(r, World.SetOriginOfShellCollectionId(old(Snapshot()), sender, c))
      ensures r.Err? ==> unchanged(this)
    {
      var _ :- Need(overlord == Some(sender), RequireOverlordAccount);
      var _ :- Need(originCollection == None, OriginOfShellCollectionIdAlreadySet);
      originCollection := Some(c);
      return Ok(());
    }

    method SetShellCollectionId(sender: AccountId, c: CollectionId) returns (r: Result<()>)
      modifies `shellCollection
      ensures Did(r, World.SetShellCollectionId(old(Snapshot()), sender, c))
      ensures r.Err? ==> unchanged(this)
    {
      var _ :- Need(overlord == Some(sender), RequireOverlordAccount);
      var _ :- Need(shellCollection == None, ShellCollectionIdAlreadySet);
      shellCollection := Some(c);
      return Ok(());
    }

    method SetSpiritsMetadata(sender: AccountId, metadata: Bytes) returns (r: Result<()>)
      modifies `spiritsMetadata
      ensures Did(r, World.SetSpiritsMetadata(old(Snapshot()), sender, metadata))
      ensures r.Err? ==> unchanged(this)
    {
      var _ :- Need(overlord == Some(sender), RequireOverlordAccount);
      spiritsMetadata := Some(metadata);
      return Ok(());
    }

    method SetOriginOfShellsMetadata(sender: AccountId, entries: seq<(RaceType, Bytes)>) returns (r: Result<()>)
      modifies `originMetadata
      ensures Did(r, World.SetOriginOfShellsMetadata(old(Snapshot()), sender, entries))
      ensures r.Err? ==> unchanged(this)
    {
      var _ :- Need(overlord == Some(sender), RequireOverlordAccount);
      var k := 0;
      while k < |entries|
        invariant 0 <= k <= |entries|
        invariant InsertAll(old(originMetadata), entries) == InsertAll(originMetadata, entries[k..])
      {
        assert entries[k..][0] == entries[k] && entries[k..][1..] == entries[k + 1..];
        var (race, metadata) := entries[k];
        originMetadata := originMetadata[race := metadata];
        k := k + 1;
      }
      assert entries[k..] == [];
      return Ok(());
    }

    method SetCanStartIncubation(sender: AccountId, status: bool) returns (r: Result<()>)
      modifies `officialHatchTime, `canStartIncubation
      ensures Did(r, World.SetCanStartIncubation(cfg, old(Snapshot()), sender, status))
      ensures r.Err? ==> unchanged(this)
    {
      var _ :- Need(overlord == Some(sender), RequireOverlordAccount);
      officialHatchTime := (now + cfg.incubationDuration) % U64_SIZE;
      canStartIncubation := status;
      return Ok(());
    }

    // ----- Incubation -----

    method StartIncubation(sender: AccountId, n: Nft) returns (r: Result<()>)
      modifies `hatchTimes
      ensures Did(r, World.StartIncubation(old(Snapshot()), sender, n))
    {
      var _ :- Need(canStartIncubation, StartIncubationNotAvailable);
      var _ :- Need(originCollection == Some(n.0), WrongCollectionId);
      var _ :- Need(n in uniques.owner && uniques.owner[n] == sender, NotOwner);
      var _ :- Need(n !in hatchTimes, HatchingInProgress);
      hatchTimes := hatchTimes[n := officialHatchTime];
      return Ok(());
    }

    /** The sender's list with the shell appended; a list of an earlier era starts afresh. */
    method NextFoodInfo(sender: AccountId, n: Nft) returns (r: Result<FoodInfo>)
      ensures r == FoodAfter(cfg, Snapshot(), sender, n)
    {
      var info := FoodInfo(era, []);
      if sender in foodByOwners && !(era > foodByOwners[sender].era) {
        info := foodByOwners[sender];
        var _ :- Need(multiset(info.originOfShellsFed)[n] < cfg.maxFoodFeedSelf, AlreadySentFoodTwice);
      }
      var _ :- Need(|info.originOfShellsFed| < cfg.foodPerEra, FoodInfoUpdateError);
      return Ok(info.(originOfShellsFed := info.originOfShellsFed + [n]));
    }

    method FeedOriginOfShell(sender: AccountId, n: Nft) returns (r: Result<()>)
      modifies `foodByOwners, `foodStats
      ensures Did(r, World.FeedOriginOfShell(cfg, old(Snapshot()), sender, n))
    {
      hide Nfts.Uniques.Owns, FoodAfter;
      var _ :- Need(canStartIncubation, StartIncubationNotAvailable);
      var _ :- Need(originCollection == Some(n.0), WrongCollectionId);
      var _ :- Need(n in hatchTimes, NoHatchTimeDetected);
      var _ :- Need(!(now > hatchTimes[n]), CannotSendFoodToOriginOfShell);
      var _ :- Need(uniques.Owns(sender, n.0), CannotSendFoodToOriginOfShell);
      var currentEra := era;
      var numOfTimesFed := Get(foodStats, (currentEra, n));
      var info :- NextFoodInfo(sender, n);
      foodByOwners := foodByOwners[sender := info];
      foodStats := foodStats[(currentEra, n) := WrapU32(numOfTimesFed + 1)];
      return Ok(());
    }

    method ClearAttributes(n: Nft, host: Host) returns (r: Result<()>)
      modifies `uniques
      ensures
        match r
        case Ok(_) => ClearTraits(old(uniques), host, n) == Ok(uniques)
        case Err(error) => ClearTraits(old(uniques), host, n) == Err(error)
    {
      hide Nfts.Uniques.ClearAttribute;
      uniques :- uniques.ClearAttribute(host, n, RaceKey);
      uniques :- uniques.ClearAttribute(host, n, CareerKey);
      uniques :- uniques.ClearAttribute(host, n, RarityKey);
      uniques :- uniques.ClearAttribute(host, n, GenerationKey);
      return Ok(());
    }

    method BurnThenMint(n: Nft, owner: AccountId, shell: CollectionId, t: Traits, host: Host) returns (r: Result<()>)
      modifies `uniques
      ensures
        match r
        case Ok(_) => Awaken(cfg, overlord, old(uniques), n, owner, shell, t, host) == Ok(uniques)
        case Err(error) => Awaken(cfg, overlord, old(uniques), n, owner, shell, t, host) == Err(error)
    {
      var m := uniques.NextNft(shell);
      uniques :- uniques.Burn(host, owner, n);
      var _ :- ClearAttributes(n, host);
      uniques :- uniques.Mint(host, shell, owner);
      var _ :- LabelNft(m, t, host);
      return Ok(());
    }

    method HatchOriginOfShell(sender: AccountId, n: Nft, host: Host) returns (r: Result<()>)
      modifies `uniques
      ensures Did(r, World.HatchOriginOfShell(cfg, old(Snapshot()), sender, n, host))
    {
      var _ :- Need(overlord == Some(sender), RequireOverlordAccount);
      var _ :- Need(canStartIncubation, StartIncubationNotAvailable);
      var _ :- Need(originCollection == Some(n.0), WrongCollectionId);
      var _ :- Need(n in uniques.owner, NoAvailableNftId);
      var owner := uniques.owner[n];
      var _ :- Need(n in hatchTimes, NoHatchTimeDetected);
      var _ :- Need(now > hatchTimes[n], CannotHatchOriginOfShell);
      var shell :- shellCollection.OkOr(ShellCollectionIdNotSet);
      var _ :- Need(KeysFit(cfg), KeyTooLong);
      var traits :- ReadTraits(uniques, n);
      var _ :- BurnThenMint(n, owner, shell, traits, host);
      return Ok(());
    }

    method UpdateIncubationTime(sender: AccountId, reductions: seq<(Nft, nat)>) returns (r: Result<()>)
      modifies `hatchTimes
      ensures Did(r, World.UpdateIncubationTime(old(Snapshot()), sender, reductions))
    {
      var _ :- Need(overlord == Some(sender), RequireOverlordAccount);
      var k := 0;
      while k < |reductions|
        invariant 0 <= k <= |reductions|
        invariant ReduceAll(old(Snapshot()), reductions) == ReduceAll(Snapshot(), reductions[k..])
      {
        assert reductions[k..][0] == reductions[k] && reductions[k..][1..] == reductions[k + 1..];
        var (n, reduction) := reductions[k];
        var _ :- Need(originCollection == Some(n.0), WrongCollectionId);
        var _ :- Need(n in hatchTimes, NoHatchTimeDetected);
        hatchTimes := hatchTimes[n := SaturatingSub(hatchTimes[n], reduction)];
        k := k + 1;
      }
      assert reductions[k..] == [];
      return Ok(());
    }

    // ----- The end of a block -----

    method OnFinalize()
      requires cfg.Valid()
      modifies `era
      ensures Snapshot() == World.OnFinalize(cfg, old(Snapshot()))
    {
      if zeroDay.Some? {
        if now > zeroDay.value {
          var secsSinceZeroDay := now - zeroDay.value;
          if secsSinceZeroDay / cfg.secondsPerEra > era {
            era := era + 1;
          }
        }
      }
    }

    // ----- The surroundings -----

    method SetNow(time: nat)
      modifies `now
      ensures Snapshot() == old(Snapshot()).(now := time)
    {
      now := time;
    }

    method MoveFree(from: AccountId, to: AccountId, value: Balance) returns (r: Result<()>)
      modifies `ledger
      ensures Did(r, TransferOutside(old(Snapshot()), from, to, value))
      ensures r.Err? ==> unchanged(this)
    {
      var _ :- Need(from != to && value <= ledger.Free(from), InsufficientBalance);
      ledger := ledger.Move(from, to, value);
      return Ok(());
    }

    // ----- Calls -----

    method ExecuteMarket(call: Action) returns (r: Result<()>)
      requires call.IsMarket()
      modifies this
      ensures Did(r, MarketStep(cfg, old(Snapshot()), call))
      ensures r.Err? && !IsTransactional(call) ==> unchanged(this)
    {
      hide Did, Snapshot, World.ClaimSpirit, World.RedeemSpirit, World.BuyRare, World.BuyPrime,
        World.PreorderOriginOfShell,
        World.MintChosen, World.RefundNotChosen, World.MintGift, World.InitRarityTypeCounts,
        World.UpdateRarityTypeCounts;
      match call
      case CallClaimSpirit(sender, host) => r := ClaimSpirit(sender, host);
      case CallRedeemSpirit(sender, signature, host) => r := RedeemSpirit(sender, signature, host);
      case CallBuyRare(sender, rarity, race, career, host) => r := BuyRare(sender, rarity, race, career, host);
      case CallBuyPrime(sender, signature, race, career, host) => r := BuyPrime(sender, signature, race, career, host);
      case CallPreorder(sender, race, career) => r := PreorderOriginOfShell(sender, race, career);
      case CallMintChosen(sender, ids, host) => r := MintChosen(sender, ids, host);
      case CallRefundNotChosen(sender, ids) => r := RefundNotChosen(sender, ids);
      case CallMintGift(sender, owner, rarity, race, career, saleType, host) =>
        r := MintGift(sender, owner, rarity, race, career, saleType, host);
      case CallInitRarityTypeCounts(sender) => r := InitRarityTypeCounts(sender);
      case CallUpdateRarityTypeCounts(sender, rarity, forSale, giveaway) =>
        r := UpdateRarityTypeCounts(sender, rarity, forSale, giveaway);
    }

    method ExecuteNaming(call: Action) returns (r: Result<()>)
      requires cfg.Valid() && Names(call)
      modifies this
      ensures Did(r, SettingStep(cfg, old(Snapshot()), call))
      ensures r.Err? ==> unchanged(this)
    {
      hide Did, Snapshot, World.SetSpiritCollectionId, World.SetOriginOfShellCollectionId, World.SetShellCollectionId,
        World.SetSpiritsMetadata, World.SetOriginOfShellsMetadata;
      match call
      case CallSetSpiritCollectionId(sender, c) => r := SetSpiritCollectionId(sender, c);
      case CallSetOriginOfShellCollectionId(sender, c) => r := SetOriginOfShellCollectionId(sender, c);
      case CallSetShellCollectionId(sender, c) => r := SetShellCollectionId(sender, c);
      case CallSetSpiritsMetadata(sender, metadata) => r := SetSpiritsMetadata(sender, metadata);
      case CallSetOriginOfShellsMetadata(sender, entries) => r := SetOriginOfShellsMetadata(sender, entries);
    }

    method ExecuteSetting(call: Action) returns (r: Result<()>)
      requires cfg.Valid() && call.IsSetting()
      modifies this
      ensures Did(r, SettingStep(cfg, old(Snapshot()), call))
      ensures r.Err? ==> unchanged(this)
    {
      hide Did, Snapshot, World.SetOverlord, World.InitializeWorldClock, World.SetStatusType,
        World.SetCanStartIncubation;
      if Names(call) {
        r := ExecuteNaming(call);
      } else {
        match call
        case CallSetOverlord(isGovernance, newOverlord) => r := SetOverlord(isGovernance, newOverlord);
        case CallInitializeWorldClock(sender) => r := InitializeWorldClock(sender);
        case CallSetStatusType(sender, status, statusType) => r := SetStatusType(sender, status, statusType);
        case CallSetCanStartIncubation(sender, status) => r := SetCanStartIncubation(sender, status);
      }
    }

    method ExecuteIncubation(call: Action) returns (r: Result<()>)
      requires call.IsIncubation()
      modifies this
      ensures Did(r, IncubationStep(cfg, old(Snapshot()), call))
    {
      hide Did, Snapshot, World.StartIncubation, World.FeedOriginOfShell, World.HatchOriginOfShell,
        World.UpdateIncubationTime;
      match call
      case CallStartIncubation(sender, n) => r := StartIncubation(sender, n);
      case CallFeed(sender, n) => r := FeedOriginOfShell(sender, n);
      case CallHatch(sender, n, host) => r := HatchOriginOfShell(sender, n, host);
      case CallUpdateIncubationTime(sender, reductions) => r := UpdateIncubationTime(sender, reductions);
    }

    method Execute(call: Action) returns (r: Result<()>)
      requires cfg.Valid() && IsDispatchable(call)
      modifies this
      ensures Did(r, Step(cfg, old(Snapshot()), call))
      ensures r.Err? && !IsTransactional(call) ==> unchanged(this)
    {
      hide Did, Snapshot, MarketStep, SettingStep, IncubationStep;
      if call.IsMarket() {
        r := ExecuteMarket(call);
      } else if call.IsSetting() {
        r := ExecuteSetting(call);
      } else {
        r := ExecuteIncubation(call);
      }
    }
  }

  /** The settings that name collections and metadata. */
  predicate Names(act: Action) {
    act.CallSetSpiritCollectionId? || act.CallSetOriginOfShellCollectionId? || act.CallSetShellCollectionId? ||
    act.CallSetSpiritsMetadata? || act.CallSetOriginOfShellsMetadata?
  }

  predicate IsDispatchable(act: Action) {
    act.IsMarket() || act.IsSetting() || act.IsIncubation()
  }

  /** The calls that carry `#[transactional]`; the others write only after their last check. */
  predicate IsTransactional(act: Action) {
    act.IsIncubation() || (act.IsMarket() && !act.CallInitRarityTypeCounts? && !act.CallUpdateRarityTypeCounts?)
  }

  lemma RunOneMore(cfg: Config, s: State, acts: seq<Action>, i: nat)
    requires cfg.Valid() && i < |acts|
    ensures Run(cfg, s, acts[..i + 1]) == Next(cfg, Run(cfg, s, acts[..i]), acts[i])
  {
    assert acts[..i + 1][..i] == acts[..i];
  }

  /** Runs calls on the storage; a transactional one runs on a layer of its own that is kept only if it succeeds. */
  class Runtime {
    const cfg: Config
    var storage: PhalaWorld

    constructor (cfg: Config, balances: map<AccountId, Balance>)
      ensures this.cfg == cfg && storage.cfg == cfg && fresh(storage)
      ensures storage.Snapshot() == Genesis(balances)
    {
      this.cfg := cfg;
      storage := new PhalaWorld(cfg, Genesis(balances));
    }

    /** A call takes storage to where the model's step takes it, and keeps the invariants of all reachable storages. */
    method Dispatch(call: Action) returns (r: Result<()>)
      requires cfg.Valid() && storage.cfg == cfg && IsDispatchable(call)
      modifies this, storage
      ensures storage.cfg == cfg && (storage == old(storage) || fresh(storage))
      ensures storage.Snapshot() == Next(cfg, old(storage.Snapshot()), call)
      ensures
        var effect := Step(cfg, old(storage.Snapshot()), call);
        if r.Ok? then effect.Ok? else effect.Err? && effect.error == r.error
      ensures WorldInv(cfg, old(storage.Snapshot())) && Admissible(old(storage.Snapshot()), call) ==>
        WorldInv(cfg, storage.Snapshot())
    {
      hide Step, WorldInv, Admissible, PhalaWorld.Snapshot, IsTransactional, IsDispatchable;
      ghost var before := storage.Snapshot();
      if WorldInv(cfg, before) && Admissible(before, call) {
        StepKeeps(cfg, before, call);
      }
      if IsTransactional(call) {
        var layer := new PhalaWorld(cfg, storage.Snapshot());
        r := layer.Execute(call);
        if r.Ok? {
          storage := layer;
        }
      } else {
        r := storage.Execute(call);
      }
    }

    /** The end of a block. */
    method Finalize()
      requires cfg.Valid() && storage.cfg == cfg
      modifies storage
      ensures storage.Snapshot() == Next(cfg, old(storage.Snapshot()), Action.Finalize)
    {
      hide MarketStep, SettingStep, IncubationStep;
      storage.OnFinalize();
    }

    /** What other pallets do between the calls: time passes and free balance moves. */
    method Surround(act: Action)
      requires cfg.Valid() && storage.cfg == cfg && (act.Tick? || act.OutsideTransfer?)
      modifies storage
      ensures storage.Snapshot() == Next(cfg, old(storage.Snapshot()), act)
    {
      hide MarketStep, SettingStep, IncubationStep, World.OnFinalize, TransferOutside, PhalaWorld.Snapshot;
      match act
      case Tick(time) => storage.SetNow(time);
      case OutsideTransfer(from, to, value) => var _ := storage.MoveFree(from, to, value);
    }

    /** Replaying a sequence of calls, block ends and outside events takes storage where the model's run takes it. */
    method Replay(acts: seq<Action>)
      requires cfg.Valid() && storage.cfg == cfg
      modifies this, storage
      ensures storage.cfg == cfg && (storage == old(storage) || fresh(storage))
      ensures storage.Snapshot() == Run(cfg, old(storage.Snapshot()), acts)
      ensures WorldInv(cfg, old(storage.Snapshot())) && AdmissibleRun(cfg, old(storage.Snapshot()), acts) ==>
        WorldInv(cfg, storage.Snapshot())
    {
      hide Next, WorldInv, AdmissibleRun, Admissible, PhalaWorld.Snapshot, IsDispatchable;
      ghost var before := storage.Snapshot();
      var i := 0;
      while i < |acts|
        invariant 0 <= i <= |acts|
        invariant storage.cfg == cfg && (storage == old(storage) || fresh(storage))
        invariant storage.Snapshot() == Run(cfg, before, acts[..i])
      {
        RunOneMore(cfg, before, acts, i);
        Perform(acts[i]);
        i := i + 1;
      }
      assert acts[..i] == acts;
      if WorldInv(cfg, before) && AdmissibleRun(cfg, before, acts) {
        RunKeeps(cfg, before, acts);
      }
    }

    method Perform(act: Action)
      requires cfg.Valid() && storage.cfg == cfg
      modifies this, storage
      ensures storage.cfg == cfg && (storage == old(storage) || fresh(storage))
      ensures storage.Snapshot() == Next(cfg, old(storage.Snapshot()), act)
    {
      hide Next, WorldInv, Admissible, PhalaWorld.Snapshot;
      if IsDispatchable(act) {
        var _ := Dispatch(act);
      } else if act.Finalize? {
        Finalize();
      } else {
        Surround(act);
      }
    }
  }
}
