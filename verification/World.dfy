/**
 The storage of both pallets and of the two libraries below them, and the effect of every call
 on it: a call either yields the new storage or an error, and an error changes nothing.
 */
module World {
  import opened Primitives
  import opened Codec
  import opened Sums
  import opened Currency
  import opened Nfts

  datatype State = State(
    // pallet_pw_nft_sale
    overlord: Option<AccountId>,
    preorderIndex: PreorderId,
    preorders: map<PreorderId, PreorderInfo>,
    ownerHasPreorder: set<AccountId>,
    inventory: map<(RarityType, RaceType), NftSaleInfo>,
    isInventorySet: bool,
    careerTypeCount: map<CareerType, nat>,
    zeroDay: Option<nat>,
    era: EraId,
    canClaimSpirits: bool,
    canPurchaseRare: bool,
    canPurchasePrime: bool,
    canPreorder: bool,
    lastDayOfSale: bool,
    spiritCollection: Option<CollectionId>,
    originCollection: Option<CollectionId>,
    spiritsMetadata: Option<Bytes>,
    originMetadata: map<RaceType, Bytes>,
    // pallet_pw_incubation
    foodByOwners: map<AccountId, FoodInfo>,
    foodStats: map<(EraId, Nft), nat>,
    officialHatchTime: nat,
    hatchTimes: map<Nft, nat>,
    canStartIncubation: bool,
    shellCollection: Option<CollectionId>,
    // the libraries, and the time of the current block in seconds
    ledger: Ledger,
    uniques: Uniques,
    now: nat)
  {
    function EnsureOverlord(sender: AccountId): Result<()> {
      Need(overlord == Some(sender), RequireOverlordAccount)
    }

    function GetHatchTime(n: Nft): Result<nat> {
      if n in hatchTimes then Ok(hatchTimes[n]) else Err(NoHatchTimeDetected)
    }

    predicate CanHatch(hatchTime: nat) {
      now > hatchTime
    }

    predicate OwnsSpirit(a: AccountId) {
      spiritCollection.Some? && uniques.Owns(a, spiritCollection.value)
    }

    function FoodStat(e: EraId, n: Nft): nat { Get(foodStats, (e, n)) }
  }

  /** Storage as the default genesis leaves it, over given balances. */
  function Genesis(balances: map<AccountId, Balance>): State {
    State(None, 0, map[], {}, map[], false, map[], None, 0, false, false, false, false, false,
          None, None, None, map[],
          map[], map[], 0, map[], false, None,
          Ledger(balances, map[]), Uniques(map[], map[], {}, map[]), 0)
  }

  // ----- Traits as attributes -----

  /** Every attribute name is short enough to be a key. */
  predicate KeysFit(cfg: Config) {
    forall key: AttributeKey :: |key.Name()| <= cfg.keyLimit
  }

  function SetNftAttributes(cfg: Config, overlord: Option<AccountId>, u: Uniques, host: Host, n: Nft, t: Traits)
    : Result<Uniques>
  {
    var _ :- overlord.OkOr(OverlordNotSet);
    var _ :- Need(KeysFit(cfg), KeyTooLong);
    var u1 :- u.SetAttribute(host, n, RarityKey, EncodeRarity(t.rarity));
    var u2 :- u1.SetAttribute(host, n, RaceKey, EncodeRace(t.race));
    var u3 :- u2.SetAttribute(host, n, CareerKey, EncodeCareer(t.career));
    u3.SetAttribute(host, n, GenerationKey, EncodeGeneration(t.generation))
  }

  /** The traits an NFT carries: all four attributes are there and decode. */
  function TraitsOf(u: Uniques, n: Nft): Option<Traits> {
    match (u.Attribute(n, RarityKey), u.Attribute(n, RaceKey),
           u.Attribute(n, CareerKey), u.Attribute(n, GenerationKey))
    case (Some(r), Some(x), Some(c), Some(g)) =>
      (match (DecodeRarity(r), DecodeRace(x), DecodeCareer(c), DecodeGeneration(g))
       case (Some(rarity), Some(race), Some(career), Some(generation)) =>
         Some(Traits(rarity, race, career, generation))
       case _ => None)
    case _ => None
  }

  // ----- Minting -----

  function MintSpirit(s: State, sender: AccountId, host: Host): (r: Result<State>)
    ensures r.Ok? ==> r.value == s.(uniques := r.value.uniques)
  {
    var c :- s.spiritCollection.OkOr(SpiritCollectionNotSet);
    var _ :- Need(!s.uniques.Owns(sender, c), SpiritAlreadyClaimed);
    var _ :- s.spiritsMetadata.OkOr(SpiritsMetadataNotSet);
    var n := s.uniques.NextNft(c);
    var minted :- s.uniques.Mint(host, c, sender);
    var frozen :- minted.Freeze(host, n);
    Ok(s.(uniques := frozen))
  }

  function PotEmptyError(saleType: NftSaleType): Error {
    match saleType
    case ForSale => RaceMintMaxReached
    case Giveaway => NoAvailableRaceGivewayLeft
    case Reserved => NoAvailableRaceReservedLeft
  }

  function HasRaceTypeLeft(s: State, rarity: RarityType, race: RaceType, saleType: NftSaleType): Result<()> {
    if (rarity, race) !in s.inventory then Err(OriginOfShellInventoryCorrupted)
    else Need(s.inventory[(rarity, race)].Pot(saleType) > 0, PotEmptyError(saleType))
  }

  /** The sale record after one mint: one more minted, one fewer in the pot it came from. */
  function Drawn(info: NftSaleInfo, saleType: NftSaleType): (r: NftSaleInfo)
    requires info.Pot(saleType) > 0
  {
    match saleType
    case ForSale => info.(raceCount := info.raceCount + 1, forSaleCount := info.forSaleCount - 1)
    case Giveaway => info.(raceCount := info.raceCount + 1, giveawayCount := info.giveawayCount - 1)
    case Reserved => info.(raceCount := info.raceCount + 1, reservedCount := info.reservedCount - 1)
  }

  /** The NFT side of a mint: the next NFT of collection `c`, labelled and frozen. */
  function MintLabelledFrozen(cfg: Config, overlord: Option<AccountId>, u: Uniques, c: CollectionId, owner: AccountId,
                              t: Traits, host: Host): Result<Uniques>
  {
    var minted :- u.Mint(host, c, owner);
    var labelled :- SetNftAttributes(cfg, overlord, minted, host, u.NextNft(c), t);
    labelled.Freeze(host, u.NextNft(c))
  }

  datatype MintOrder = MintOrder(
    overlord: AccountId,
    owner: AccountId,
    traits: Traits,
    price: Balance,
    saleType: NftSaleType,
    checkOwned: bool)

  /** What a mint checks first; yields the collection to mint in. */
  function MintChecks(s: State, order: MintOrder): (r: Result<CollectionId>)
    ensures r.Ok? ==>
      (order.traits.rarity, order.traits.race) in s.inventory &&
      s.inventory[(order.traits.rarity, order.traits.race)].Pot(order.saleType) > 0
  {
    var spirit :- s.spiritCollection.OkOr(SpiritCollectionNotSet);
    var _ :- Need(s.uniques.Owns(order.owner, spirit), MustOwnSpiritToPurchase);
    var origin :- s.originCollection.OkOr(OriginOfShellCollectionNotSet);
    var _ :- Need(!order.checkOwned || !s.uniques.Owns(order.owner, origin), OriginOfShellAlreadyPurchased);
    var _ :- Need(order.traits.race in s.originMetadata, OriginOfShellsMetadataNotSet);
    var _ :- HasRaceTypeLeft(s, order.traits.rarity, order.traits.race, order.saleType);
    Ok(origin)
  }

  /** The mint itself, and its place in the inventory and the career table. */
  function MintAndCount(cfg: Config, s: State, origin: CollectionId, order: MintOrder, host: Host): (r: Result<State>)
    requires (order.traits.rarity, order.traits.race) in s.inventory
    requires s.inventory[(order.traits.rarity, order.traits.race)].Pot(order.saleType) > 0
    ensures r.Ok? ==>
      r.value == s.(uniques := r.value.uniques, inventory := r.value.inventory,
                    careerTypeCount := r.value.careerTypeCount)
  {
    var uniques :- MintLabelledFrozen(cfg, s.overlord, s.uniques, origin, order.owner, order.traits, host);
    var key := (order.traits.rarity, order.traits.race);
    var career := order.traits.career;
    Ok(s.(uniques := uniques,
          inventory := s.inventory[key := Drawn(s.inventory[key], order.saleType)],
          careerTypeCount := s.careerTypeCount[career := Get(s.careerTypeCount, career) + 1]))
  }

  function MintOriginOfShell(cfg: Config, s: State, order: MintOrder, host: Host): (r: Result<State>)
    ensures r.Ok? ==>
      r.value == s.(ledger := r.value.ledger, uniques := r.value.uniques,
                    inventory := r.value.inventory, careerTypeCount := r.value.careerTypeCount)
  {
    var origin :- MintChecks(s, order);
    var paid :- s.ledger.Transfer(order.owner, order.overlord, order.price, cfg.existentialDeposit);
    MintAndCount(cfg, s.(ledger := paid), origin, order, host)
  }

  // ----- Dispatchables of pallet_pw_nft_sale -----

  function ClaimSpirit(cfg: Config, s: State, sender: AccountId, host: Host): (r: Result<State>)
    ensures r.Ok? ==> r.value == s.(uniques := r.value.uniques)
  {
    var _ :- Need(s.canClaimSpirits, SpiritClaimNotAvailable);
    var _ :- s.overlord.OkOr(OverlordNotSet);
    var _ :- Need(s.ledger.CanReserve(sender, cfg.minBalanceToClaimSpirit), BelowMinimumBalanceThreshold);
    MintSpirit(s, sender, host)
  }

  function RedeemSpirit(cfg: Config, s: State, sender: AccountId, signature: Signature, host: Host): (r: Result<State>)
    ensures r.Ok? ==> r.value == s.(uniques := r.value.uniques)
  {
    var _ :- Need(s.canClaimSpirits, SpiritClaimNotAvailable);
    var overlord :- s.overlord.OkOr(OverlordNotSet);
    var _ :- Need(cfg.verifies(overlord, sender, RedeemSpiritPurpose, signature), InvalidSpiritClaim);
    MintSpirit(s, sender, host)
  }

  /** The mint that a purchase asks for. */
  function SaleOrder(cfg: Config, s: State, overlord: AccountId, sender: AccountId, rarity: RarityType, race: RaceType,
                     career: CareerType): MintOrder
  {
    MintOrder(overlord, sender, Traits(rarity, race, career, 0), cfg.PriceOf(rarity), ForSale, !s.lastDayOfSale)
  }

  function GiftOrder(sender: AccountId, owner: AccountId, rarity: RarityType, race: RaceType, career: CareerType,
                     saleType: NftSaleType): MintOrder
  {
    MintOrder(sender, owner, Traits(rarity, race, career, 0), 0, saleType, false)
  }

  function BuyRare(cfg: Config, s: State, sender: AccountId, rarity: RarityType, race: RaceType,
                   career: CareerType, host: Host): (r: Result<State>)
    ensures r.Ok? ==>
      r.value == s.(ledger := r.value.ledger, uniques := r.value.uniques,
                    inventory := r.value.inventory, careerTypeCount := r.value.careerTypeCount)
  {
    var _ :- Need(s.canPurchaseRare, RareOriginOfShellPurchaseNotAvailable);
    var overlord :- s.overlord.OkOr(OverlordNotSet);
    var _ :- Need(rarity != Prime, InvalidPurchase);
    MintOriginOfShell(cfg, s, SaleOrder(cfg, s, overlord, sender, rarity, race, career), host)
  }

  function BuyPrime(cfg: Config, s: State, sender: AccountId, signature: Signature, race: RaceType,
                    career: CareerType, host: Host): (r: Result<State>)
    ensures r.Ok? ==>
      r.value == s.(ledger := r.value.ledger, uniques := r.value.uniques,
                    inventory := r.value.inventory, careerTypeCount := r.value.careerTypeCount)
  {
    var _ :- Need(s.canPurchasePrime, PrimeOriginOfShellPurchaseNotAvailable);
    var overlord :- s.overlord.OkOr(OverlordNotSet);
    var _ :- Need(cfg.verifies(overlord, sender, BuyPrimeOriginOfShellsPurpose, signature) || s.lastDayOfSale,
            WhitelistVerificationFailed);
    MintOriginOfShell(cfg, s, SaleOrder(cfg, s, overlord, sender, Prime, race, career), host)
  }

  /** Who may preorder: before the last day of sale only those without a preorder and without an Origin of Shell. */
  function PreorderChecks(s: State, sender: AccountId): Result<()> {
    var _ :- Need(s.lastDayOfSale || (s.canPreorder && sender !in s.ownerHasPreorder),
                  PreorderOriginOfShellNotAvailable);
    var spirit :- s.spiritCollection.OkOr(SpiritCollectionNotSet);
    var _ :- Need(s.uniques.Owns(sender, spirit), MustOwnSpiritToPurchase);
    var origin :- s.originCollection.OkOr(OriginOfShellCollectionNotSet);
    Need(s.lastDayOfSale || !s.uniques.Owns(sender, origin), OriginOfShellAlreadyPurchased)
  }

  function Recorded(s: State, id: PreorderId, preorder: PreorderInfo): State {
    s.(preorders := s.preorders[id := preorder],
       ownerHasPreorder := if s.lastDayOfSale then s.ownerHasPreorder else s.ownerHasPreorder + {preorder.owner})
  }

  /** Takes the next id, reserves the Prime price and stores the preorder. */
  function PlacePreorder(cfg: Config, s: State, sender: AccountId, race: RaceType,
                         career: CareerType): (r: Result<State>)
    ensures r.Ok? ==>
      r.value == s.(preorderIndex := r.value.preorderIndex, preorders := r.value.preorders,
                    ownerHasPreorder := r.value.ownerHasPreorder, ledger := r.value.ledger)
  {
    var _ :- Need(s.preorderIndex != U32_MAX, NoAvailablePreorderId);
    var _ :- Need(race in s.originMetadata, OriginOfShellsMetadataNotSet);
    var ledger :- s.ledger.Reserve(sender, cfg.primePrice);
    Ok(Recorded(s.(preorderIndex := s.preorderIndex + 1, ledger := ledger), s.preorderIndex,
                PreorderInfo(sender, race, career, s.originMetadata[race])))
  }

  function PreorderOriginOfShell(cfg: Config, s: State, sender: AccountId, race: RaceType,
                                 career: CareerType): (r: Result<State>)
    ensures r.Ok? ==>
      r.value == s.(preorderIndex := r.value.preorderIndex, preorders := r.value.preorders,
                    ownerHasPreorder := r.value.ownerHasPreorder, ledger := r.value.ledger)
  {
    var _ :- PreorderChecks(s, sender);
    PlacePreorder(cfg, s, sender, race, career)
  }

  /** Takes one live preorder out of storage and gives its owner the reserved price back. */
  function Release(cfg: Config, s: State, id: PreorderId): State
    requires id in s.preorders
  {
    s.(preorders := s.preorders - {id}, ledger := s.ledger.Unreserve(s.preorders[id].owner, cfg.primePrice))
  }

  function ClearFlag(s: State, owner: AccountId): State {
    s.(ownerHasPreorder := if s.lastDayOfSale then s.ownerHasPreorder else s.ownerHasPreorder - {owner})
  }

  function RefundOne(cfg: Config, s: State, id: PreorderId): (r: Result<State>)
    ensures r.Ok? ==>
      r.value == s.(preorders := r.value.preorders, ownerHasPreorder := r.value.ownerHasPreorder,
                    ledger := r.value.ledger)
  {
    var _ :- Need(id in s.preorders, NoAvailablePreorderId);
    Ok(ClearFlag(Release(cfg, s, id), s.preorders[id].owner))
  }

  function RefundAll(cfg: Config, s: State, ids: seq<PreorderId>): (r: Result<State>)
    ensures r.Ok? ==>
      r.value == s.(preorders := r.value.preorders, ownerHasPreorder := r.value.ownerHasPreorder,
                    ledger := r.value.ledger)
    decreases |ids|
  {
    if ids == [] then Ok(s)
    else
      var s1 :- RefundOne(cfg, s, ids[0]);
      RefundAll(cfg, s1, ids[1..])
  }

  function PreorderMint(cfg: Config, overlord: AccountId, p: PreorderInfo): MintOrder {
    MintOrder(overlord, p.owner, Traits(Prime, p.race, p.career, 0), cfg.primePrice, ForSale, false)
  }

  /** Settles one live preorder: releases the escrow, then mints at the Prime price. */
  function SettleOne(cfg: Config, s: State, overlord: AccountId, id: PreorderId, host: Host): (r: Result<State>)
    ensures r.Ok? ==>
      r.value == s.(preorders := r.value.preorders, ownerHasPreorder := r.value.ownerHasPreorder,
                    ledger := r.value.ledger, uniques := r.value.uniques, inventory := r.value.inventory,
                    careerTypeCount := r.value.careerTypeCount)
  {
    var _ :- Need(id in s.preorders, NoAvailablePreorderId);
    var p := s.preorders[id];
    var s1 :- MintOriginOfShell(cfg, Release(cfg, s, id), PreorderMint(cfg, overlord, p), host);
    Ok(ClearFlag(s1, p.owner))
  }

  function SettleAll(cfg: Config, s: State, overlord: AccountId, ids: seq<PreorderId>, host: Host): (r: Result<State>)
    ensures r.Ok? ==>
      r.value == s.(preorders := r.value.preorders, ownerHasPreorder := r.value.ownerHasPreorder,
                    ledger := r.value.ledger, uniques := r.value.uniques, inventory := r.value.inventory,
                    careerTypeCount := r.value.careerTypeCount)
    decreases |ids|
  {
    if ids == [] then Ok(s)
    else
      var s1 :- SettleOne(cfg, s, overlord, ids[0], host);
      SettleAll(cfg, s1, overlord, ids[1..], host)
  }

  /** The part of a batch that one call looks at. */
  function Chunk(cfg: Config, ids: seq<PreorderId>): (r: seq<PreorderId>) {
    ids[..Min(cfg.iterLimit, |ids|)]
  }

  function MintChosen(cfg: Config, s: State, sender: AccountId, ids: seq<PreorderId>, host: Host): (r: Result<State>)
    ensures r.Ok? ==>
      r.value == s.(preorders := r.value.preorders, ownerHasPreorder := r.value.ownerHasPreorder,
                    ledger := r.value.ledger, uniques := r.value.uniques, inventory := r.value.inventory,
                    careerTypeCount := r.value.careerTypeCount)
  {
    var _ :- s.EnsureOverlord(sender);
    SettleAll(cfg, s, sender, Chunk(cfg, ids), host)
  }

  function RefundNotChosen(cfg: Config, s: State, sender: AccountId, ids: seq<PreorderId>): (r: Result<State>)
    ensures r.Ok? ==>
      r.value == s.(preorders := r.value.preorders, ownerHasPreorder := r.value.ownerHasPreorder,
                    ledger := r.value.ledger)
  {
    var _ :- s.EnsureOverlord(sender);
    RefundAll(cfg, s, Chunk(cfg, ids))
  }

  function MintGift(cfg: Config, s: State, sender: AccountId, owner: AccountId, rarity: RarityType, race: RaceType,
                    career: CareerType, saleType: NftSaleType, host: Host): (r: Result<State>)
    ensures r.Ok? ==>
      r.value == s.(ledger := r.value.ledger, uniques := r.value.uniques,
                    inventory := r.value.inventory, careerTypeCount := r.value.careerTypeCount)
  {
    var _ :- s.EnsureOverlord(sender);
    var _ :- Need(saleType != ForSale, WrongNftSaleType);
    MintOriginOfShell(cfg, s, GiftOrder(sender, owner, rarity, race, career, saleType), host)
  }

  function SetOverlord(s: State, isGovernance: bool, newOverlord: AccountId): (r: Result<State>)
    ensures r.Ok? ==> r.value == s.(overlord := r.value.overlord)
  {
    var _ :- Need(isGovernance, BadOrigin);
    Ok(s.(overlord := Some(newOverlord)))
  }

  function InitializeWorldClock(cfg: Config, s: State, sender: AccountId): (r: Result<State>)
    requires cfg.Valid()
    ensures r.Ok? ==> r.value == s.(zeroDay := r.value.zeroDay)
  {
    var _ :- s.EnsureOverlord(sender);
    var _ :- Need(s.zeroDay == None, WorldClockAlreadySet);
    Ok(s.(zeroDay := Some(s.now - s.now % cfg.secondsPerEra)))
  }

  /** Nothing but the five gates of the sale differs. */
  ghost predicate GateFrame(s: State, s': State) {
    && s'.overlord == s.overlord && s'.preorderIndex == s.preorderIndex && s'.preorders == s.preorders
    && s'.ownerHasPreorder == s.ownerHasPreorder && s'.inventory == s.inventory
    && s'.isInventorySet == s.isInventorySet && s'.careerTypeCount == s.careerTypeCount && s'.zeroDay == s.zeroDay
    && s'.era == s.era && s'.spiritCollection == s.spiritCollection && s'.originCollection == s.originCollection
    && s'.spiritsMetadata == s.spiritsMetadata && s'.originMetadata == s.originMetadata
    && s'.foodByOwners == s.foodByOwners && s'.foodStats == s.foodStats
    && s'.officialHatchTime == s.officialHatchTime && s'.hatchTimes == s.hatchTimes
    && s'.canStartIncubation == s.canStartIncubation && s'.shellCollection == s.shellCollection
    && s'.ledger == s.ledger && s'.uniques == s.uniques && s'.now == s.now
  }

  function WithStatus(s: State, status: bool, statusType: StatusType): (r: State)
    ensures GateFrame(s, r)
  {
    match statusType
    case ClaimSpirits => s.(canClaimSpirits := status)
    case PurchaseRareOriginOfShells => s.(canPurchaseRare := status)
    case PurchasePrimeOriginOfShells => s.(canPurchasePrime := status)
    case PreorderOriginOfShells => s.(canPreorder := status)
    case LastDayOfSale => s.(lastDayOfSale := status)
  }

  function SetStatusType(s: State, sender: AccountId, status: bool, statusType: StatusType): (r: Result<State>)
    ensures r.Ok? ==> GateFrame(s, r.value)
  {
    var _ :- s.EnsureOverlord(sender);
    Ok(WithStatus(s, status, statusType))
  }

  function InitialSaleInfo(rarity: RarityType): NftSaleInfo {
    match rarity
    case Legendary => NftSaleInfo(0, 1, 0, 1)
    case Magic => NftSaleInfo(0, 10, 0, 10)
    case Prime => NftSaleInfo(0, 1250, 0, 0)
  }

  function InitialInventory(): map<(RarityType, RaceType), NftSaleInfo> {
    map rarity: RarityType, race: RaceType | true :: (rarity, race) := InitialSaleInfo(rarity)
  }

  lemma InitialInventoryIsFull()
    ensures forall key: (RarityType, RaceType) ::
      key in InitialInventory() && InitialInventory()[key] == InitialSaleInfo(key.0)
  {
    forall key: (RarityType, RaceType)
      ensures key in InitialInventory() && InitialInventory()[key] == InitialSaleInfo(key.0)
    {
      assert key == (key.0, key.1);
    }
  }

  function InitRarityTypeCounts(s: State, sender: AccountId): (r: Result<State>)
    ensures r.Ok? ==> r.value == s.(inventory := r.value.inventory, isInventorySet := r.value.isInventorySet)
  {
    var _ :- s.EnsureOverlord(sender);
    var _ :- Need(!s.isInventorySet, OriginOfShellInventoryAlreadySet);
    Ok(s.(inventory := s.inventory + InitialInventory(), isInventorySet := true))
  }

  function ToppedUp(info: NftSaleInfo, forSale: nat, giveaway: nat): NftSaleInfo {
    info.(forSaleCount := SaturatingAddU32(info.forSaleCount, forSale),
          giveawayCount := SaturatingAddU32(info.giveawayCount, giveaway))
  }

  function AllToppedUp(inventory: map<(RarityType, RaceType), NftSaleInfo>, rarity: RarityType, forSale: nat,
                       giveaway: nat): map<(RarityType, RaceType), NftSaleInfo>
  {
    map key | key in inventory ::
      if key.0 == rarity then ToppedUp(inventory[key], forSale, giveaway) else inventory[key]
  }

  function UpdateRarityTypeCounts(s: State, sender: AccountId, rarity: RarityType, forSale: nat, giveaway: nat)
    : (r: Result<State>)
    ensures r.Ok? ==> r.value == s.(inventory := r.value.inventory)
  {
    var _ :- s.EnsureOverlord(sender);
    var _ :- Need(rarity == Prime, WrongRarityType);
    Ok(s.(inventory := AllToppedUp(s.inventory, rarity, forSale, giveaway)))
  }

  function SetSpiritCollectionId(s: State, sender: AccountId, c: CollectionId): (r: Result<State>)
    ensures r.Ok? ==> r.value == s.(spiritCollection := r.value.spiritCollection)
  {
    var _ :- s.EnsureOverlord(sender);
    var _ :- Need(s.spiritCollection == None, SpiritCollectionIdAlreadySet);
    Ok(s.(spiritCollection := Some(c)))
  }

  function SetOriginOfShellCollectionId(s: State, sender: AccountId, c: CollectionId): (r: Result<State>)
    ensures r.Ok? ==> r.value == s.(originCollection := r.value.originCollection)
  {
    var _ :- s.EnsureOverlord(sender);
    var _ :- Need(s.originCollection == None, OriginOfShellCollectionIdAlreadySet);
    Ok(s.(originCollection := Some(c)))
  }

  function SetSpiritsMetadata(s: State, sender: AccountId, metadata: Bytes): (r: Result<State>)
    ensures r.Ok? ==> r.value == s.(spiritsMetadata := r.value.spiritsMetadata)
  {
    var _ :- s.EnsureOverlord(sender);
    Ok(s.(spiritsMetadata := Some(metadata)))
  }

  function InsertAll(m: map<RaceType, Bytes>, entries: seq<(RaceType, Bytes)>): map<RaceType, Bytes>
    decreases |entries|
  {
    if entries == [] then m else InsertAll(m[entries[0].0 := entries[0].1], entries[1..])
  }

  function SetOriginOfShellsMetadata(s: State, sender: AccountId, entries: seq<(RaceType, Bytes)>): (r: Result<State>)
    ensures r.Ok? ==> r.value == s.(originMetadata := r.value.originMetadata)
  {
    var _ :- s.EnsureOverlord(sender);
    Ok(s.(originMetadata := InsertAll(s.originMetadata, entries)))
  }

  /** The era that is due: whole eras between zero day and now. */
  function DueEra(cfg: Config, s: State): nat
    requires cfg.Valid()
  {
    if s.zeroDay.Some? && s.zeroDay.value <= s.now then (s.now - s.zeroDay.value) / cfg.secondsPerEra else 0
  }

  function OnFinalize(cfg: Config, s: State): (r: State)
    requires cfg.Valid()
    ensures r == s.(era := r.era)
  {
    s.(era := if s.era < DueEra(cfg, s) then s.era + 1 else s.era)
  }

  // ----- Dispatchables of pallet_pw_incubation -----

  function StartIncubation(s: State, sender: AccountId, n: Nft): (r: Result<State>)
    ensures r.Ok? ==> r.value == s.(hatchTimes := r.value.hatchTimes)
  {
    var _ :- Need(s.canStartIncubation, StartIncubationNotAvailable);
    var _ :- Need(s.originCollection == Some(n.0), WrongCollectionId);
    var _ :- Need(n in s.uniques.owner && s.uniques.owner[n] == sender, NotOwner);
    var _ :- Need(n !in s.hatchTimes, HatchingInProgress);
    Ok(s.(hatchTimes := s.hatchTimes[n := s.officialHatchTime]))
  }

  /** The food list of `sender` after feeding `n`; a list of an earlier era starts afresh. */
  function FoodAfter(cfg: Config, s: State, sender: AccountId, n: Nft): Result<FoodInfo> {
    var isStale := sender !in s.foodByOwners || s.era > s.foodByOwners[sender].era;
    var info := if isStale then FoodInfo(s.era, []) else s.foodByOwners[sender];
    var _ :- Need(isStale || multiset(info.originOfShellsFed)[n] < cfg.maxFoodFeedSelf, AlreadySentFoodTwice);
    var _ :- Need(|info.originOfShellsFed| < cfg.foodPerEra, FoodInfoUpdateError);
    Ok(info.(originOfShellsFed := info.originOfShellsFed + [n]))
  }

  function FeedOriginOfShell(cfg: Config, s: State, sender: AccountId, n: Nft): (r: Result<State>)
    ensures r.Ok? ==> r.value == s.(foodByOwners := r.value.foodByOwners, foodStats := r.value.foodStats)
  {
    var _ :- Need(s.canStartIncubation, StartIncubationNotAvailable);
    var _ :- Need(s.originCollection == Some(n.0), WrongCollectionId);
    var hatchTime :- s.GetHatchTime(n);
    var _ :- Need(!s.CanHatch(hatchTime), CannotSendFoodToOriginOfShell);
    var _ :- Need(s.uniques.Owns(sender, n.0), CannotSendFoodToOriginOfShell);
    var info :- FoodAfter(cfg, s, sender, n);
    Ok(s.(foodByOwners := s.foodByOwners[sender := info],
          foodStats := s.foodStats[(s.era, n) := WrapU32(s.FoodStat(s.era, n) + 1)]))
  }

  function ReadTraits(u: Uniques, n: Nft): Result<Traits> {
    var race :- u.Attribute(n, RaceKey).OkOr(RaceNotDetected);
    var career :- u.Attribute(n, CareerKey).OkOr(CareerNotDetected);
    var rarity :- u.Attribute(n, RarityKey).OkOr(RarityTypeNotDetected);
    var generation :- u.Attribute(n, GenerationKey).OkOr(GenerationNotDetected);
    var raceType :- DecodeRace(race).OkOr(DecodePanic);
    var careerType :- DecodeCareer(career).OkOr(DecodePanic);
    var rarityType :- DecodeRarity(rarity).OkOr(DecodePanic);
    var generationId :- DecodeGeneration(generation).OkOr(DecodePanic);
    Ok(Traits(rarityType, raceType, careerType, generationId))
  }

  function ClearTraits(u: Uniques, host: Host, n: Nft): Result<Uniques> {
    var u1 :- u.ClearAttribute(host, n, RaceKey);
    var u2 :- u1.ClearAttribute(host, n, CareerKey);
    var u3 :- u2.ClearAttribute(host, n, RarityKey);
    u3.ClearAttribute(host, n, GenerationKey)
  }

  /** The NFT side of a hatch: the Origin of Shell is burned and its traits go to the next Shell. */
  function Awaken(cfg: Config, overlord: Option<AccountId>, u: Uniques, n: Nft, owner: AccountId, shell: CollectionId,
                  t: Traits, host: Host): Result<Uniques>
  {
    var burnt :- u.Burn(host, owner, n);
    var cleared :- ClearTraits(burnt, host, n);
    var minted :- cleared.Mint(host, shell, owner);
    SetNftAttributes(cfg, overlord, minted, host, u.NextNft(shell), t)
  }

  function HatchOriginOfShell(cfg: Config, s: State, sender: AccountId, n: Nft, host: Host): (r: Result<State>)
    ensures r.Ok? ==> r.value == s.(uniques := r.value.uniques)
  {
    var _ :- s.EnsureOverlord(sender);
    var _ :- Need(s.canStartIncubation, StartIncubationNotAvailable);
    var _ :- Need(s.originCollection == Some(n.0), WrongCollectionId);
    var _ :- Need(n in s.uniques.owner, NoAvailableNftId);
    var owner := s.uniques.owner[n];
    var hatchTime :- s.GetHatchTime(n);
    var _ :- Need(s.CanHatch(hatchTime), CannotHatchOriginOfShell);
    var shell :- s.shellCollection.OkOr(ShellCollectionIdNotSet);
    var _ :- Need(KeysFit(cfg), KeyTooLong);
    var traits :- ReadTraits(s.uniques, n);
    var uniques :- Awaken(cfg, s.overlord, s.uniques, n, owner, shell, traits, host);
    Ok(s.(uniques := uniques))
  }

  function ReduceOne(s: State, n: Nft, reduction: nat): (r: Result<State>)
    ensures r.Ok? ==> r.value == s.(hatchTimes := r.value.hatchTimes)
  {
    var _ :- Need(s.originCollection == Some(n.0), WrongCollectionId);
    var oldTime :- s.GetHatchTime(n);
    Ok(s.(hatchTimes := s.hatchTimes[n := SaturatingSub(oldTime, reduction)]))
  }

  function ReduceAll(s: State, reductions: seq<(Nft, nat)>): (r: Result<State>)
    ensures r.Ok? ==> r.value == s.(hatchTimes := r.value.hatchTimes)
    decreases |reductions|
  {
    if reductions == [] then Ok(s)
    else
      var s1 :- ReduceOne(s, reductions[0].0, reductions[0].1);
      ReduceAll(s1, reductions[1..])
  }

  function UpdateIncubationTime(s: State, sender: AccountId, reductions: seq<(Nft, nat)>): (r: Result<State>)
    ensures r.Ok? ==> r.value == s.(hatchTimes := r.value.hatchTimes)
  {
    var _ :- s.EnsureOverlord(sender);
    ReduceAll(s, reductions)
  }

  function SetCanStartIncubation(cfg: Config, s: State, sender: AccountId, status: bool): (r: Result<State>)
    ensures r.Ok? ==>
      r.value == s.(officialHatchTime := r.value.officialHatchTime,
                    canStartIncubation := r.value.canStartIncubation)
  {
    var _ :- s.EnsureOverlord(sender);
    Ok(s.(officialHatchTime := (s.now + cfg.incubationDuration) % U64_SIZE, canStartIncubation := status))
  }

  function SetShellCollectionId(s: State, sender: AccountId, c: CollectionId): (r: Result<State>)
    ensures r.Ok? ==> r.value == s.(shellCollection := r.value.shellCollection)
  {
    var _ :- s.EnsureOverlord(sender);
    var _ :- Need(s.shellCollection == None, ShellCollectionIdAlreadySet);
    Ok(s.(shellCollection := Some(c)))
  }

  // ----- Runs -----

  /** A call of either pallet, the end of a block, or a step of the surroundings. */
  datatype Action =
    // selling, preorders and the inventory
    | CallClaimSpirit(sender: AccountId, host: Host)
    | CallRedeemSpirit(sender: AccountId, signature: Signature, host: Host)
    | CallBuyRare(sender: AccountId, rarity: RarityType, race: RaceType, career: CareerType, host: Host)
    | CallBuyPrime(sender: AccountId, signature: Signature, race: RaceType, career: CareerType, host: Host)
    | CallPreorder(sender: AccountId, race: RaceType, career: CareerType)
    | CallMintChosen(sender: AccountId, ids: seq<PreorderId>, host: Host)
    | CallRefundNotChosen(sender: AccountId, ids: seq<PreorderId>)
    | CallMintGift(sender: AccountId, owner: AccountId, rarity: RarityType, race: RaceType, career: CareerType,
                   saleType: NftSaleType, host: Host)
    | CallInitRarityTypeCounts(sender: AccountId)
    | CallUpdateRarityTypeCounts(sender: AccountId, rarity: RarityType, forSale: nat, giveaway: nat)
    // settings of both pallets
    | CallSetOverlord(isGovernance: bool, newOverlord: AccountId)
    | CallInitializeWorldClock(sender: AccountId)
    | CallSetStatusType(sender: AccountId, status: bool, statusType: StatusType)
    | CallSetSpiritCollectionId(sender: AccountId, collection: CollectionId)
    | CallSetOriginOfShellCollectionId(sender: AccountId, collection: CollectionId)
    | CallSetShellCollectionId(sender: AccountId, collection: CollectionId)
    | CallSetSpiritsMetadata(sender: AccountId, metadata: Bytes)
    | CallSetOriginOfShellsMetadata(sender: AccountId, entries: seq<(RaceType, Bytes)>)
    | CallSetCanStartIncubation(sender: AccountId, status: bool)
    // incubation
    | CallStartIncubation(sender: AccountId, nft: Nft)
    | CallFeed(sender: AccountId, nft: Nft)
    | CallHatch(sender: AccountId, nft: Nft, host: Host)
    | CallUpdateIncubationTime(sender: AccountId, reductions: seq<(Nft, nat)>)
    // the end of a block, and the surroundings
    | Finalize
    | Tick(time: nat)
    | OutsideTransfer(from: AccountId, to: AccountId, value: Balance)
  {
    predicate IsMarket() {
      CallClaimSpirit? || CallRedeemSpirit? || CallBuyRare? || CallBuyPrime? || CallPreorder? || CallMintChosen? ||
      CallRefundNotChosen? || CallMintGift? || CallInitRarityTypeCounts? || CallUpdateRarityTypeCounts?
    }

    predicate IsSetting() {
      CallSetOverlord? || CallInitializeWorldClock? || CallSetStatusType? || CallSetSpiritCollectionId? ||
      CallSetOriginOfShellCollectionId? || CallSetShellCollectionId? || CallSetSpiritsMetadata? ||
      CallSetOriginOfShellsMetadata? || CallSetCanStartIncubation?
    }

    predicate IsIncubation() {
      CallStartIncubation? || CallFeed? || CallHatch? || CallUpdateIncubationTime?
    }
  }

  /** A transfer of free balance by some other pallet. */
  function TransferOutside(s: State, from: AccountId, to: AccountId, value: Balance): (r: Result<State>)
    ensures r.Ok? ==> r.value == s.(ledger := r.value.ledger)
  {
    var _ :- Need(from != to && value <= s.ledger.Free(from), InsufficientBalance);
    Ok(s.(ledger := s.ledger.Move(from, to, value)))
  }

  /** What calls on sales, preorders and the inventory leave alone. */
  ghost predicate MarketFrame(s: State, s': State) {
    && s'.overlord == s.overlord && s'.zeroDay == s.zeroDay && s'.era == s.era
    && s'.canClaimSpirits == s.canClaimSpirits && s'.canPurchaseRare == s.canPurchaseRare
    && s'.canPurchasePrime == s.canPurchasePrime && s'.canPreorder == s.canPreorder
    && s'.lastDayOfSale == s.lastDayOfSale && s'.spiritCollection == s.spiritCollection
    && s'.originCollection == s.originCollection && s'.spiritsMetadata == s.spiritsMetadata
    && s'.originMetadata == s.originMetadata && s'.foodByOwners == s.foodByOwners && s'.foodStats == s.foodStats
    && s'.officialHatchTime == s.officialHatchTime && s'.hatchTimes == s.hatchTimes
    && s'.canStartIncubation == s.canStartIncubation && s'.shellCollection == s.shellCollection && s'.now == s.now
  }

  /** What the settings leave alone. */
  ghost predicate SettingFrame(s: State, s': State) {
    && s'.preorderIndex == s.preorderIndex && s'.preorders == s.preorders
    && s'.ownerHasPreorder == s.ownerHasPreorder && s'.inventory == s.inventory
    && s'.isInventorySet == s.isInventorySet && s'.careerTypeCount == s.careerTypeCount && s'.era == s.era
    && s'.foodByOwners == s.foodByOwners && s'.foodStats == s.foodStats && s'.hatchTimes == s.hatchTimes
    && s'.ledger == s.ledger && s'.uniques == s.uniques && s'.now == s.now
  }

  /** What incubation calls leave alone. */
  ghost predicate IncubationFrame(s: State, s': State) {
    && s'.overlord == s.overlord && s'.preorderIndex == s.preorderIndex && s'.preorders == s.preorders
    && s'.ownerHasPreorder == s.ownerHasPreorder && s'.inventory == s.inventory
    && s'.isInventorySet == s.isInventorySet && s'.careerTypeCount == s.careerTypeCount && s'.zeroDay == s.zeroDay
    && s'.era == s.era && s'.canClaimSpirits == s.canClaimSpirits && s'.canPurchaseRare == s.canPurchaseRare
    && s'.canPurchasePrime == s.canPurchasePrime && s'.canPreorder == s.canPreorder
    && s'.lastDayOfSale == s.lastDayOfSale && s'.spiritCollection == s.spiritCollection
    && s'.originCollection == s.originCollection && s'.spiritsMetadata == s.spiritsMetadata
    && s'.originMetadata == s.originMetadata && s'.officialHatchTime == s.officialHatchTime
    && s'.canStartIncubation == s.canStartIncubation && s'.shellCollection == s.shellCollection
    && s'.ledger == s.ledger && s'.now == s.now
  }

  function MarketStep(cfg: Config, s: State, act: Action): (r: Result<State>)
    requires act.IsMarket()
    ensures r.Ok? ==> MarketFrame(s, r.value)
  {
    hide *;
    match act
    case CallClaimSpirit(sender, host) => ClaimSpirit(cfg, s, sender, host)
    case CallRedeemSpirit(sender, signature, host) => RedeemSpirit(cfg, s, sender, signature, host)
    case CallBuyRare(sender, rarity, race, career, host) => BuyRare(cfg, s, sender, rarity, race, career, host)
    case CallBuyPrime(sender, signature, race, career, host) => BuyPrime(cfg, s, sender, signature, race, career, host)
    case CallPreorder(sender, race, career) => PreorderOriginOfShell(cfg, s, sender, race, career)
    case CallMintChosen(sender, ids, host) => MintChosen(cfg, s, sender, ids, host)
    case CallRefundNotChosen(sender, ids) => RefundNotChosen(cfg, s, sender, ids)
    case CallMintGift(sender, owner, rarity, race, career, saleType, host) =>
      MintGift(cfg, s, sender, owner, rarity, race, career, saleType, host)
    case CallInitRarityTypeCounts(sender) => InitRarityTypeCounts(s, sender)
    case CallUpdateRarityTypeCounts(sender, rarity, forSale, giveaway) =>
      UpdateRarityTypeCounts(s, sender, rarity, forSale, giveaway)
  }

  function SettingStep(cfg: Config, s: State, act: Action): (r: Result<State>)
    requires cfg.Valid() && act.IsSetting()
    ensures r.Ok? ==> SettingFrame(s, r.value)
  {
    hide *;
    match act
    case CallSetOverlord(isGovernance, newOverlord) => SetOverlord(s, isGovernance, newOverlord)
    case CallInitializeWorldClock(sender) => InitializeWorldClock(cfg, s, sender)
    case CallSetStatusType(sender, status, statusType) => SetStatusType(s, sender, status, statusType)
    case CallSetSpiritCollectionId(sender, c) => SetSpiritCollectionId(s, sender, c)
    case CallSetOriginOfShellCollectionId(sender, c) => SetOriginOfShellCollectionId(s, sender, c)
    case CallSetShellCollectionId(sender, c) => SetShellCollectionId(s, sender, c)
    case CallSetSpiritsMetadata(sender, metadata) => SetSpiritsMetadata(s, sender, metadata)
    case CallSetOriginOfShellsMetadata(sender, entries) => SetOriginOfShellsMetadata(s, sender, entries)
    case CallSetCanStartIncubation(sender, status) => SetCanStartIncubation(cfg, s, sender, status)
  }

  function IncubationStep(cfg: Config, s: State, act: Action): (r: Result<State>)
    requires act.IsIncubation()
    ensures r.Ok? ==> IncubationFrame(s, r.value)
  {
    hide *;
    match act
    case CallStartIncubation(sender, n) => StartIncubation(s, sender, n)
    case CallFeed(sender, n) => FeedOriginOfShell(cfg, s, sender, n)
    case CallHatch(sender, n, host) => HatchOriginOfShell(cfg, s, sender, n, host)
    case CallUpdateIncubationTime(sender, reductions) => UpdateIncubationTime(s, sender, reductions)
  }

  function Step(cfg: Config, s: State, act: Action): Result<State>
    requires cfg.Valid()
  {
    if act.IsMarket() then MarketStep(cfg, s, act)
    else if act.IsSetting() then SettingStep(cfg, s, act)
    else if act.IsIncubation() then IncubationStep(cfg, s, act)
    else match act
      case Finalize => Ok(OnFinalize(cfg, s))
      case Tick(time) => Ok(s.(now := time))
      case OutsideTransfer(from, to, value) => TransferOutside(s, from, to, value)
  }

  /** A failed call leaves storage as it was. */
  function Next(cfg: Config, s: State, act: Action): State
    requires cfg.Valid()
  {
    match Step(cfg, s, act)
    case Ok(s') => s'
    case Err(_) => s
  }

  function Run(cfg: Config, s: State, acts: seq<Action>): State
    requires cfg.Valid()
  {
    if acts == [] then s
    else Next(cfg, Run(cfg, s, acts[..|acts| - 1]), acts[|acts| - 1])
  }

  /**
   Assumed of the surroundings: time does not run backwards, and the overlord names three different collections.
   Nothing is assumed of naming calls that fail.
   */
  predicate Admissible(s: State, act: Action) {
    match act
    case Tick(time) => s.now <= time
    case CallSetSpiritCollectionId(sender, c) =>
      s.overlord == Some(sender) && s.spiritCollection == None ==>
        Some(c) != s.originCollection && Some(c) != s.shellCollection
    case CallSetOriginOfShellCollectionId(sender, c) =>
      s.overlord == Some(sender) && s.originCollection == None ==>
        Some(c) != s.spiritCollection && Some(c) != s.shellCollection
    case CallSetShellCollectionId(sender, c) =>
      s.overlord == Some(sender) && s.shellCollection == None ==>
        Some(c) != s.spiritCollection && Some(c) != s.originCollection
    case _ => true
  }

  predicate AdmissibleRun(cfg: Config, s: State, acts: seq<Action>)
    requires cfg.Valid()
  {
    acts == [] ||
    (AdmissibleRun(cfg, s, acts[..|acts| - 1]) &&
     Admissible(Run(cfg, s, acts[..|acts| - 1]), acts[|acts| - 1]))
  }
}
