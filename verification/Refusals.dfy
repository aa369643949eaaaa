/**
 With which error a call fails: the first requirement that is not met, in the order in which the pallets and the
 libraries below them look.
 */
module Refusals {
  import opened Primitives
  import opened Sums
  import opened Currency
  import opened Nfts
  import opened World
  import opened Frames
  import opened Invariants
  import opened Hatching
  import opened Sales
  import opened Incubation

  // ----- Mints -----

  /** Why a transfer that must keep both accounts alive is refused. */
  function TransferRefusal(cfg: Config, l: Ledger, from: AccountId, to: AccountId, price: Balance): Option<Error> {
    if price == 0 || from == to then None
    else if Get(l.free, from) < price then Some(InsufficientBalance)
    else if Get(l.free, to) + Get(l.reserved, to) + price < cfg.existentialDeposit then Some(ExistentialDeposit)
    else if Get(l.free, from) + Get(l.reserved, from) < price + cfg.existentialDeposit then Some(KeepAlive)
    else None
  }

  /** Why RMRK refuses to mint, label or freeze the next NFT of a collection. */
  function NextRefusal(cfg: Config, s: State, c: CollectionId, host: Host): Option<Error> {
    var n := (c, Get(s.uniques.nextNftId, c));
    if n.1 >= 0xFFFF_FFFF then Some(NoAvailableNftId)
    else if !host.mints(n) then Some(RmrkRefused)
    else if s.overlord.None? then Some(OverlordNotSet)
    else if cfg.keyLimit < 10 then Some(KeyTooLong)
    else if !host.setsAttributes(n) || !host.freezes(n) then Some(RmrkRefused)
    else None
  }

  /** Why there is nothing left of a kind in a pot. */
  function StockRefusal(s: State, rarity: RarityType, race: RaceType, saleType: NftSaleType): Option<Error> {
    if (rarity, race) !in s.inventory then Some(OriginOfShellInventoryCorrupted)
    else
      var info := s.inventory[(rarity, race)];
      if saleType == ForSale && info.forSaleCount == 0 then Some(RaceMintMaxReached)
      else if saleType == Giveaway && info.giveawayCount == 0 then Some(NoAvailableRaceGivewayLeft)
      else if saleType == Reserved && info.reservedCount == 0 then Some(NoAvailableRaceReservedLeft)
      else None
  }

  ghost function MintRefusal(cfg: Config, s: State, order: MintOrder, host: Host): Option<Error> {
    var stock := StockRefusal(s, order.traits.rarity, order.traits.race, order.saleType);
    var payment := TransferRefusal(cfg, s.ledger, order.owner, order.overlord, order.price);
    if s.spiritCollection.None? then Some(SpiritCollectionNotSet)
    else if !HasOne(s, order.owner, s.spiritCollection) then Some(MustOwnSpiritToPurchase)
    else if s.originCollection.None? then Some(OriginOfShellCollectionNotSet)
    else if order.checkOwned && HasOne(s, order.owner, s.originCollection) then Some(OriginOfShellAlreadyPurchased)
    else if order.traits.race !in s.originMetadata then Some(OriginOfShellsMetadataNotSet)
    else if stock.Some? then stock
    else if payment.Some? then payment
    else NextRefusal(cfg, s, s.originCollection.value, host)
  }

  /** `r` fails with exactly the error that `why` names, and succeeds if it names none. */
  predicate RefusedFor<T>(r: Result<T>, why: Option<Error>) {
    if r.Ok? then why.None? else why == Some(r.error)
  }

  lemma TransferRefused(cfg: Config, l: Ledger, from: AccountId, to: AccountId, price: Balance)
    ensures RefusedFor(l.Transfer(from, to, price, cfg.existentialDeposit), TransferRefusal(cfg, l, from, to, price))
  {
  }

  lemma NextRefused(cfg: Config, s: State, c: CollectionId, owner: AccountId, t: Traits, host: Host)
    ensures RefusedFor(MintLabelledFrozen(cfg, s.overlord, s.uniques, c, owner, t, host), NextRefusal(cfg, s, c, host))
  {
    KeysFitIff(cfg);
    hide KeysFit;
  }

  lemma ChecksRefused(s: State, order: MintOrder)
    ensures RefusedFor(MintChecks(s, order),
                       if s.spiritCollection.None? then Some(SpiritCollectionNotSet)
                       else if !HasOne(s, order.owner, s.spiritCollection) then Some(MustOwnSpiritToPurchase)
                       else if s.originCollection.None? then Some(OriginOfShellCollectionNotSet)
                       else if order.checkOwned && HasOne(s, order.owner, s.originCollection) then
                         Some(OriginOfShellAlreadyPurchased)
                       else if order.traits.race !in s.originMetadata then Some(OriginOfShellsMetadataNotSet)
                       else StockRefusal(s, order.traits.rarity, order.traits.race, order.saleType))
    ensures MintChecks(s, order).Ok? ==> s.originCollection == Some(MintChecks(s, order).value)
  {
    if s.spiritCollection.Some? {
      HasOneIff(s, order.owner, s.spiritCollection.value);
    }
    if s.originCollection.Some? {
      HasOneIff(s, order.owner, s.originCollection.value);
    }
    hide HasOne, Nfts.Uniques.Owns;
  }

  lemma MintRefused(cfg: Config, s: State, order: MintOrder, host: Host)
    ensures RefusedFor(MintOriginOfShell(cfg, s, order, host), MintRefusal(cfg, s, order, host))
  {
    ChecksRefused(s, order);
    TransferRefused(cfg, s.ledger, order.owner, order.overlord, order.price);
    if s.originCollection.Some? {
      NextRefused(cfg, s, s.originCollection.value, order.owner, order.traits, host);
    }
    hide MintChecks, HasOne, StockRefusal, TransferRefusal, NextRefusal, Ledger.Transfer, MintLabelledFrozen, Drawn;
  }

  /** Why a purchase or a gift is refused. */
  ghost function SaleRefusal(cfg: Config, s: State, act: Action): Option<Error>
    requires act.CallBuyRare? || act.CallBuyPrime? || act.CallMintGift?
  {
    match act
    case CallBuyRare(a, rarity, race, career, host) =>
      if !s.canPurchaseRare then Some(RareOriginOfShellPurchaseNotAvailable)
      else if s.overlord.None? then Some(OverlordNotSet)
      else if rarity == Prime then Some(InvalidPurchase)
      else MintRefusal(cfg, s, MintOrder(s.overlord.value, a, Traits(rarity, race, career, 0), RarePrice(cfg, rarity),
                                         ForSale, !s.lastDayOfSale), host)
    case CallBuyPrime(a, signature, race, career, host) =>
      if !s.canPurchasePrime then Some(PrimeOriginOfShellPurchaseNotAvailable)
      else if s.overlord.None? then Some(OverlordNotSet)
      else if !s.lastDayOfSale && !cfg.verifies(s.overlord.value, a, BuyPrimeOriginOfShellsPurpose, signature) then
        Some(WhitelistVerificationFailed)
      else MintRefusal(cfg, s, MintOrder(s.overlord.value, a, Traits(Prime, race, career, 0), cfg.primePrice, ForSale,
                                         !s.lastDayOfSale), host)
    case CallMintGift(sender, owner, rarity, race, career, saleType, host) =>
      if s.overlord != Some(sender) then Some(RequireOverlordAccount)
      else if saleType == ForSale then Some(WrongNftSaleType)
      else MintRefusal(cfg, s, MintOrder(sender, owner, Traits(rarity, race, career, 0), 0, saleType, false), host)
  }

  /** A purchase or a gift fails with the error of the first requirement it does not meet. */
  lemma SaleRefused(cfg: Config, s: State, act: Action)
    requires cfg.Valid() && (act.CallBuyRare? || act.CallBuyPrime? || act.CallMintGift?)
    ensures RefusedFor(Step(cfg, s, act), SaleRefusal(cfg, s, act))
  {
    SaleCall(cfg, s, act);
    hide Step, MintOriginOfShell, MintRefusal;
    match act
    case CallBuyRare(a, rarity, race, career, host) =>
      if s.overlord.Some? {
        MintRefused(cfg, s, SaleOrder(cfg, s, s.overlord.value, a, rarity, race, career), host);
      }
    case CallBuyPrime(a, _, race, career, host) =>
      if s.overlord.Some? {
        MintRefused(cfg, s, SaleOrder(cfg, s, s.overlord.value, a, Prime, race, career), host);
      }
    case CallMintGift(sender, owner, rarity, race, career, saleType, host) =>
      MintRefused(cfg, s, GiftOrder(sender, owner, rarity, race, career, saleType), host);
  }

  /** A batch of mints fails with the error of the first preorder that cannot be settled where the batch has got to. */
  lemma {:induction false} BatchRefused(cfg: Config, s: State, overlord: AccountId, ids: seq<PreorderId>, host: Host)
    requires SettleAll(cfg, s, overlord, ids, host).Err?
    ensures exists k: nat :: FailsAt(cfg, s, overlord, ids, host, k)
    decreases |ids|
  {
    hide SettleOne, FailsAt;
    if SettleOne(cfg, s, overlord, ids[0], host).Err? {
      FailsAtOnce(cfg, s, overlord, ids, host);
    } else {
      var s1 := SettleOne(cfg, s, overlord, ids[0], host).value;
      BatchRefused(cfg, s1, overlord, ids[1..], host);
      var k: nat :| FailsAt(cfg, s1, overlord, ids[1..], host, k);
      FailsLater(cfg, s, overlord, ids, host, k);
    }
  }

  lemma FailsAtOnce(cfg: Config, s: State, overlord: AccountId, ids: seq<PreorderId>, host: Host)
    requires ids != [] && SettleOne(cfg, s, overlord, ids[0], host).Err?
    ensures FailsAt(cfg, s, overlord, ids, host, 0)
  {
    hide SettleOne;
    assert ids[..0] == [];
  }

  lemma FailsLater(cfg: Config, s: State, overlord: AccountId, ids: seq<PreorderId>, host: Host, k: nat)
    requires ids != [] && SettleOne(cfg, s, overlord, ids[0], host).Ok?
    requires FailsAt(cfg, SettleOne(cfg, s, overlord, ids[0], host).value, overlord, ids[1..], host, k)
    ensures FailsAt(cfg, s, overlord, ids, host, k + 1)
  {
    hide SettleOne;
    assert ids[..k + 1] == [ids[0]] + ids[1..][..k];
    assert ids[..k + 1][1..] == ids[1..][..k];
  }

  /** The ids before the k-th can be settled, and the k-th cannot: it is not there, or its mint is refused. */
  ghost predicate FailsAt(cfg: Config, s: State, overlord: AccountId, ids: seq<PreorderId>, host: Host, k: nat) {
    && k < |ids|
    && SettleAll(cfg, s, overlord, ids[..k], host).Ok?
    && SettleAll(cfg, s, overlord, ids, host).Err?
    && var r := SettleOne(cfg, SettleAll(cfg, s, overlord, ids[..k], host).value, overlord, ids[k], host);
       r.Err? && r.error == SettleAll(cfg, s, overlord, ids, host).error
  }

  lemma SettlementRefused(cfg: Config, s: State, overlord: AccountId, id: PreorderId, host: Host)
    ensures
      RefusedFor(SettleOne(cfg, s, overlord, id, host),
                 if id !in s.preorders then Some(NoAvailablePreorderId)
                 else
                   var p := s.preorders[id];
                   MintRefusal(cfg, Release(cfg, s, id),
                               MintOrder(overlord, p.owner, Traits(Prime, p.race, p.career, 0), cfg.primePrice, ForSale,
                                         false), host))
  {
    hide MintRefusal, MintOriginOfShell, Release, ClearFlag;
    if id in s.preorders {
      MintRefused(cfg, Release(cfg, s, id), PreorderMint(cfg, overlord, s.preorders[id]), host);
    }
  }

  // ----- Spirits and preorders -----

  ghost function MintSpiritRefusal(s: State, a: AccountId, host: Host): Option<Error> {
    if s.spiritCollection.None? then Some(SpiritCollectionNotSet)
    else if HasOne(s, a, s.spiritCollection) then Some(SpiritAlreadyClaimed)
    else if s.spiritsMetadata.None? then Some(SpiritsMetadataNotSet)
    else
      var n := (s.spiritCollection.value, Get(s.uniques.nextNftId, s.spiritCollection.value));
      if n.1 >= 0xFFFF_FFFF then Some(NoAvailableNftId)
      else if !host.mints(n) || !host.freezes(n) then Some(RmrkRefused)
      else None
  }

  lemma MintSpiritRefused(s: State, a: AccountId, host: Host)
    ensures RefusedFor(MintSpirit(s, a, host), MintSpiritRefusal(s, a, host))
  {
    if s.spiritCollection.Some? {
      HasOneIff(s, a, s.spiritCollection.value);
    }
    hide HasOne, Nfts.Uniques.Owns;
  }

  ghost function SpiritRefusal(cfg: Config, s: State, act: Action): Option<Error>
    requires act.CallClaimSpirit? || act.CallRedeemSpirit?
  {
    if !s.canClaimSpirits then Some(SpiritClaimNotAvailable)
    else if s.overlord.None? then Some(OverlordNotSet)
    else if act.CallClaimSpirit? && Get(s.ledger.free, act.sender) < cfg.minBalanceToClaimSpirit then
      Some(BelowMinimumBalanceThreshold)
    else if act.CallRedeemSpirit? &&
            !cfg.verifies(s.overlord.value, act.sender, RedeemSpiritPurpose, act.signature) then
      Some(InvalidSpiritClaim)
    else MintSpiritRefusal(s, act.sender, act.host)
  }

  lemma SpiritRefused(cfg: Config, s: State, act: Action)
    requires cfg.Valid() && (act.CallClaimSpirit? || act.CallRedeemSpirit?)
    ensures RefusedFor(Step(cfg, s, act), SpiritRefusal(cfg, s, act))
  {
    SaleCall(cfg, s, act);
    MintSpiritRefused(s, act.sender, act.host);
    hide Step, MintSpirit, MintSpiritRefusal;
  }

  ghost function PreorderRefusal(cfg: Config, s: State, act: Action): Option<Error>
    requires act.CallPreorder?
  {
    if !s.lastDayOfSale && (!s.canPreorder || act.sender in s.ownerHasPreorder) then
      Some(PreorderOriginOfShellNotAvailable)
    else if s.spiritCollection.None? then Some(SpiritCollectionNotSet)
    else if !HasOne(s, act.sender, s.spiritCollection) then Some(MustOwnSpiritToPurchase)
    else if s.originCollection.None? then Some(OriginOfShellCollectionNotSet)
    else if !s.lastDayOfSale && HasOne(s, act.sender, s.originCollection) then Some(OriginOfShellAlreadyPurchased)
    else if s.preorderIndex == 0xFFFF_FFFF then Some(NoAvailablePreorderId)
    else if act.race !in s.originMetadata then Some(OriginOfShellsMetadataNotSet)
    else if Get(s.ledger.free, act.sender) < cfg.primePrice then Some(InsufficientBalance)
    else None
  }

  lemma PreorderRefused(cfg: Config, s: State, act: Action)
    requires cfg.Valid() && act.CallPreorder?
    ensures RefusedFor(Step(cfg, s, act), PreorderRefusal(cfg, s, act))
  {
    MarketCall(cfg, s, act);
    if s.spiritCollection.Some? {
      HasOneIff(s, act.sender, s.spiritCollection.value);
    }
    if s.originCollection.Some? {
      HasOneIff(s, act.sender, s.originCollection.value);
    }
    hide Step, HasOne, Nfts.Uniques.Owns, Recorded;
  }

  // ----- Incubation -----

  ghost function IncubationRefusal(cfg: Config, s: State, act: Action): Option<Error>
    requires act.CallStartIncubation? || act.CallFeed?
  {
    var n := act.nft;
    if !s.canStartIncubation then Some(StartIncubationNotAvailable)
    else if s.originCollection != Some(n.0) then Some(WrongCollectionId)
    else if act.CallStartIncubation? then
      if n !in s.uniques.owner || s.uniques.owner[n] != act.sender then Some(NotOwner)
      else if n in s.hatchTimes then Some(HatchingInProgress)
      else None
    else
      var listed := act.sender in s.foodByOwners && s.era <= s.foodByOwners[act.sender].era;
      if n !in s.hatchTimes then Some(NoHatchTimeDetected)
      else if s.hatchTimes[n] < s.now || !HasOne(s, act.sender, s.originCollection) then
        Some(CannotSendFoodToOriginOfShell)
      else if listed && multiset(FedInEra(s, act.sender))[n] >= cfg.maxFoodFeedSelf then Some(AlreadySentFoodTwice)
      else if |FedInEra(s, act.sender)| >= cfg.foodPerEra then Some(FoodInfoUpdateError)
      else None
  }

  lemma IncubationRefused(cfg: Config, s: State, act: Action)
    requires cfg.Valid() && (act.CallStartIncubation? || act.CallFeed?)
    ensures RefusedFor(Step(cfg, s, act), IncubationRefusal(cfg, s, act))
  {
    IncubationCall(cfg, s, act);
    HasOneIff(s, act.sender, act.nft.0);
    hide Step, HasOne, Nfts.Uniques.Owns;
  }

  /** A hatch of a reachable storage. */
  function HatchRefusal(cfg: Config, s: State, act: Action): Option<Error>
    requires act.CallHatch?
  {
    var n := act.nft;
    if s.overlord != Some(act.sender) then Some(RequireOverlordAccount)
    else if !s.canStartIncubation then Some(StartIncubationNotAvailable)
    else if s.originCollection != Some(n.0) then Some(WrongCollectionId)
    else if n !in s.uniques.owner then Some(NoAvailableNftId)
    else if n !in s.hatchTimes then Some(NoHatchTimeDetected)
    else if s.now <= s.hatchTimes[n] then Some(CannotHatchOriginOfShell)
    else if s.shellCollection.None? then Some(ShellCollectionIdNotSet)
    else if cfg.keyLimit < 10 then Some(KeyTooLong)
    else AwakenRefusal(s, n, s.shellCollection.value, act.host)
  }

  function AwakenRefusal(s: State, n: Nft, shell: CollectionId, host: Host): Option<Error> {
    var m := (shell, Get(s.uniques.nextNftId, shell));
    if !host.burns(n) || !host.clearsAttributes(n) then Some(RmrkRefused)
    else if m.1 >= 0xFFFF_FFFF then Some(NoAvailableNftId)
    else if !host.mints(m) || !host.setsAttributes(m) then Some(RmrkRefused)
    else None
  }

  lemma HatchRefused(cfg: Config, s: State, act: Action)
    requires cfg.Valid() && WorldInv(cfg, s) && act.CallHatch?
    ensures RefusedFor(Step(cfg, s, act), HatchRefusal(cfg, s, act))
  {
    HatchCallIs(cfg, s, act);
    KeysFitIff(cfg);
    hide Step, WorldInv, KeysFit, HatchOriginOfShell, AwakenRefusal;
    if MayHatch(cfg, s, act.sender, act.nft) {
      HatchAllowed(cfg, s, act.sender, act.nft, act.host);
    } else {
      HatchNotAllowed(cfg, s, act.sender, act.nft, act.host);
    }
  }

  lemma HatchAllowed(cfg: Config, s: State, sender: AccountId, n: Nft, host: Host)
    requires WorldInv(cfg, s) && MayHatch(cfg, s, sender, n)
    ensures s.shellCollection.Some?
    ensures RefusedFor(HatchOriginOfShell(cfg, s, sender, n, host), AwakenRefusal(s, n, s.shellCollection.value, host))
  {
    TraitsCanBeRead(cfg, s, sender, n);
    HatchIs(cfg, s, sender, n, host);
    AwakenRefused(cfg, s, n, ReadTraits(s.uniques, n).value, host);
    hide WorldInv, MayHatch, KeysFit, ReadTraits, Awaken, HatchOriginOfShell, AwakenRefusal;
  }

  lemma HatchNotAllowed(cfg: Config, s: State, sender: AccountId, n: Nft, host: Host)
    requires !MayHatch(cfg, s, sender, n)
    ensures
      HatchOriginOfShell(cfg, s, sender, n, host) ==
        if s.overlord != Some(sender) then Err(RequireOverlordAccount)
        else if !s.canStartIncubation then Err(StartIncubationNotAvailable)
        else if s.originCollection != Some(n.0) then Err(WrongCollectionId)
        else if n !in s.uniques.owner then Err(NoAvailableNftId)
        else if n !in s.hatchTimes then Err(NoHatchTimeDetected)
        else if s.now <= s.hatchTimes[n] then Err(CannotHatchOriginOfShell)
        else if s.shellCollection.None? then Err(ShellCollectionIdNotSet)
        else Err(KeyTooLong)
  {
    hide KeysFit, ReadTraits, Awaken;
  }

  lemma AwakenRefused(cfg: Config, s: State, n: Nft, t: Traits, host: Host)
    requires n in s.uniques.owner && s.shellCollection.Some? && s.overlord.Some? && KeysFit(cfg)
    ensures
      RefusedFor(Awaken(cfg, s.overlord, s.uniques, n, s.uniques.owner[n], s.shellCollection.value, t, host),
                 AwakenRefusal(s, n, s.shellCollection.value, host))
  {
    hide KeysFit;
  }

  /** A batch of reductions fails with the error of its first entry that is not an incubating Origin of Shell. */
  ghost predicate FirstIrreducible(s: State, reductions: seq<(Nft, nat)>, k: nat, error: Error) {
    && k < |reductions|
    && (forall i :: 0 <= i < k ==> Reducible(s, reductions[i].0))
    && !Reducible(s, reductions[k].0)
    && error == if s.originCollection != Some(reductions[k].0.0) then WrongCollectionId else NoHatchTimeDetected
  }

  lemma {:induction false} ReductionsRefused(s: State, reductions: seq<(Nft, nat)>)
    requires ReduceAll(s, reductions).Err?
    ensures exists k: nat :: FirstIrreducible(s, reductions, k, ReduceAll(s, reductions).error)
    decreases |reductions|
  {
    if ReduceOne(s, reductions[0].0, reductions[0].1).Err? {
      assert FirstIrreducible(s, reductions, 0, ReduceAll(s, reductions).error);
    } else {
      var s1 := ReduceOne(s, reductions[0].0, reductions[0].1).value;
      ReductionsRefused(s1, reductions[1..]);
      var k: nat :| FirstIrreducible(s1, reductions[1..], k, ReduceAll(s1, reductions[1..]).error);
      LaterIrreducible(s, s1, reductions, k, ReduceAll(s1, reductions[1..]).error);
    }
  }

  lemma LaterIrreducible(s: State, s1: State, reductions: seq<(Nft, nat)>, k: nat, error: Error)
    requires reductions != [] && Reducible(s, reductions[0].0) && s1.originCollection == s.originCollection
    requires s1.hatchTimes.Keys == s.hatchTimes.Keys && FirstIrreducible(s1, reductions[1..], k, error)
    ensures FirstIrreducible(s, reductions, k + 1, error)
  {
    assert forall n :: Reducible(s1, n) <==> Reducible(s, n);
    assert reductions == [reductions[0]] + reductions[1..];
    assert reductions[k + 1] == reductions[1..][k];
    forall i | 0 <= i < k + 1
      ensures Reducible(s, reductions[i].0)
    {
      if i > 0 {
        assert reductions[i] == reductions[1..][i - 1];
      }
    }
  }

  lemma UpdateRefused(cfg: Config, s: State, act: Action)
    requires cfg.Valid() && act.CallUpdateIncubationTime? && Step(cfg, s, act).Err?
    ensures
      if s.overlord != Some(act.sender) then Step(cfg, s, act).error == RequireOverlordAccount
      else exists k: nat :: FirstIrreducible(s, act.reductions, k, Step(cfg, s, act).error)
  {
    IncubationCall(cfg, s, act);
    hide Step, FirstIrreducible, ReduceAll;
    if s.overlord == Some(act.sender) {
      ReductionsRefused(s, act.reductions);
    }
  }
}
