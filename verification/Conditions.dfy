/** Exactly when the calls outside the batches succeed: who may make them, and what storage must look like. */
module Conditions {
  import opened Primitives
  import opened Nfts
  import opened World
  import opened Frames
  import opened BatchConditions
  import opened Hatching

  /** Who may order the mint, and while which gate is open. */
  predicate MayOrder(cfg: Config, s: State, act: Action)
    requires IsMint(act)
  {
    match act
    case CallBuyRare(_, rarity, _, _, _) => s.canPurchaseRare && rarity != Prime
    case CallBuyPrime(sender, signature, _, _, _) =>
      s.canPurchasePrime && s.overlord.Some? &&
      (s.lastDayOfSale || cfg.verifies(s.overlord.value, sender, BuyPrimeOriginOfShellsPurpose, signature))
    case CallMintGift(sender, _, _, _, _, saleType, _) => s.overlord == Some(sender) && saleType != ForSale
  }

  /** A purchase or a gift succeeds exactly when it may be ordered and the mint can be carried out. */
  lemma SaleSucceedsIff(cfg: Config, s: State, act: Action)
    requires cfg.Valid() && IsMint(act)
    ensures Step(cfg, s, act).Ok? <==>
      s.overlord.Some? && MayOrder(cfg, s, act) && Mintable(cfg, s, OrderOf(cfg, s, act), act.host)
  {
    hide MintOriginOfShell, Mintable, ClaimSpirit, RedeemSpirit, PreorderOriginOfShell, MintChosen, RefundNotChosen,
      InitRarityTypeCounts, UpdateRarityTypeCounts, SettingStep, IncubationStep;
    if s.overlord.Some? {
      MintSucceedsIff(cfg, s, OrderOf(cfg, s, act), act.host);
    }
  }

  /** RMRK mints and freezes the next Spirit. */
  predicate SpiritTaken(s: State, host: Host)
    requires s.spiritCollection.Some?
  {
    var n := s.uniques.NextNft(s.spiritCollection.value);
    n.1 < U32_MAX && host.mints(n) && host.freezes(n)
  }

  /** A Spirit is claimed with the minimum balance, or redeemed with a ticket, by an account that has none. */
  lemma SpiritSucceedsIff(cfg: Config, s: State, act: Action)
    requires cfg.Valid() && (act.CallClaimSpirit? || act.CallRedeemSpirit?)
    ensures Step(cfg, s, act).Ok? <==>
      && s.canClaimSpirits && s.overlord.Some? && s.spiritCollection.Some? && s.spiritsMetadata.Some?
      && !s.OwnsSpirit(act.sender) && SpiritTaken(s, act.host)
      && (act.CallClaimSpirit? ==> cfg.minBalanceToClaimSpirit <= s.ledger.Free(act.sender))
      && (act.CallRedeemSpirit? ==> cfg.verifies(s.overlord.value, act.sender, RedeemSpiritPurpose, act.signature))
  {
    hide Nfts.Uniques.Owns, BuyRare, BuyPrime, MintGift, PreorderOriginOfShell, MintChosen, RefundNotChosen,
      InitRarityTypeCounts, UpdateRarityTypeCounts, SettingStep, IncubationStep;
  }

  /**
   A preorder needs a Spirit and the price, and before the last day of sale an open gate, no other preorder and no
   Origin of Shell.
   */
  predicate Preorderable(cfg: Config, s: State, sender: AccountId, race: RaceType) {
    && s.OwnsSpirit(sender) && s.originCollection.Some? && race in s.originMetadata && s.preorderIndex != U32_MAX
    && cfg.primePrice <= s.ledger.Free(sender)
    && (!s.lastDayOfSale ==>
          s.canPreorder && sender !in s.ownerHasPreorder && !s.uniques.Owns(sender, s.originCollection.value))
  }

  lemma PreorderSucceedsIff(cfg: Config, s: State, sender: AccountId, race: RaceType, career: CareerType)
    ensures PreorderOriginOfShell(cfg, s, sender, race, career).Ok? <==> Preorderable(cfg, s, sender, race)
  {
    hide Nfts.Uniques.Owns, Recorded;
  }

  /** The overlord shortens hatch times, of incubating shells only. */
  lemma UpdateSucceedsIff(s: State, sender: AccountId, reductions: seq<(Nft, nat)>)
    ensures UpdateIncubationTime(s, sender, reductions).Ok? <==>
            s.overlord == Some(sender) && AllReducible(s, reductions)
  {
    ReduceAllIs(s, reductions);
    hide ReduceAll, AllReducible;
  }
}
