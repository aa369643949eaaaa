/** Which storage items a call can touch at all. */
module Frames {
  import opened Primitives
  import opened World

  predicate MovesMoney(act: Action) {
    act.CallBuyRare? || act.CallBuyPrime? || act.CallMintGift? || act.CallPreorder? || act.CallMintChosen? ||
    act.CallRefundNotChosen? || act.OutsideTransfer?
  }

  predicate TouchesInventory(act: Action) {
    act.CallBuyRare? || act.CallBuyPrime? || act.CallMintGift? || act.CallMintChosen? ||
    act.CallInitRarityTypeCounts? || act.CallUpdateRarityTypeCounts?
  }

  predicate TouchesPreorders(act: Action) {
    act.CallPreorder? || act.CallMintChosen? || act.CallRefundNotChosen?
  }

  predicate TouchesNfts(act: Action) {
    act.CallClaimSpirit? || act.CallRedeemSpirit? || act.CallBuyRare? || act.CallBuyPrime? || act.CallMintGift? ||
    act.CallMintChosen? || act.CallHatch?
  }

  ghost predicate SamePreorders(s: State, s': State) {
    && s'.preorders == s.preorders && s'.preorderIndex == s.preorderIndex && s'.ownerHasPreorder == s.ownerHasPreorder
  }

  ghost predicate SameInventory(s: State, s': State) {
    s'.inventory == s.inventory && s'.isInventorySet == s.isInventorySet && s'.careerTypeCount == s.careerTypeCount
  }

  ghost predicate SameFood(s: State, s': State) {
    s'.foodByOwners == s.foodByOwners && s'.foodStats == s.foodStats
  }

  /** What the kind of a successful call says about the storage it leaves alone. */
  ghost predicate Untouched(s: State, s': State, act: Action) {
    && (!MovesMoney(act) ==> s'.ledger == s.ledger)
    && (!TouchesInventory(act) ==> SameInventory(s, s'))
    && (!TouchesPreorders(act) ==> SamePreorders(s, s'))
    && (!TouchesNfts(act) ==> s'.uniques == s.uniques)
    && (!act.CallFeed? ==> SameFood(s, s'))
    && (!act.CallStartIncubation? && !act.CallUpdateIncubationTime? ==> s'.hatchTimes == s.hatchTimes)
    && (!act.Finalize? ==> s'.era == s.era)
    && (!act.Tick? ==> s'.now == s.now)
    && (!act.CallInitializeWorldClock? ==> s'.zeroDay == s.zeroDay)
    && (!act.CallSetStatusType? ==> s'.lastDayOfSale == s.lastDayOfSale)
    && (!act.CallSetOverlord? ==> s'.overlord == s.overlord)
    && (!act.CallSetSpiritCollectionId? ==> s'.spiritCollection == s.spiritCollection)
    && (!act.CallSetOriginOfShellCollectionId? ==> s'.originCollection == s.originCollection)
    && (!act.CallSetShellCollectionId? ==> s'.shellCollection == s.shellCollection)
    && (!act.CallSetCanStartIncubation? ==>
          s'.officialHatchTime == s.officialHatchTime && s'.canStartIncubation == s.canStartIncubation)
  }

  lemma PreorderCallUntouched(cfg: Config, s: State, act: Action)
    requires TouchesPreorders(act) && MarketStep(cfg, s, act).Ok?
    ensures Untouched(s, MarketStep(cfg, s, act).value, act)
  {
    hide MarketStep;
    if !act.CallMintChosen? {
      EscrowCallUntouched(cfg, s, act);
    }
  }

  lemma EscrowCallUntouched(cfg: Config, s: State, act: Action)
    requires (act.CallPreorder? || act.CallRefundNotChosen?) && MarketStep(cfg, s, act).Ok?
    ensures SameInventory(s, MarketStep(cfg, s, act).value) && MarketStep(cfg, s, act).value.uniques == s.uniques
  {
    hide PreorderOriginOfShell, RefundNotChosen, MarketFrame;
  }

  lemma SaleCallUntouched(cfg: Config, s: State, act: Action)
    requires act.IsMarket() && !TouchesPreorders(act) && MarketStep(cfg, s, act).Ok?
    ensures Untouched(s, MarketStep(cfg, s, act).value, act)
  {
    hide ClaimSpirit, RedeemSpirit, BuyRare, BuyPrime, MintGift, InitRarityTypeCounts, UpdateRarityTypeCounts;
  }

  lemma MarketUntouched(cfg: Config, s: State, act: Action)
    requires act.IsMarket() && MarketStep(cfg, s, act).Ok?
    ensures Untouched(s, MarketStep(cfg, s, act).value, act)
  {
    hide *;
    if TouchesPreorders(act) {
      PreorderCallUntouched(cfg, s, act);
    } else {
      SaleCallUntouched(cfg, s, act);
    }
  }

  lemma SettingUntouched(cfg: Config, s: State, act: Action)
    requires cfg.Valid() && act.IsSetting() && SettingStep(cfg, s, act).Ok?
    ensures Untouched(s, SettingStep(cfg, s, act).value, act)
  {
    hide SetOverlord, InitializeWorldClock, SetStatusType, SetSpiritCollectionId, SetOriginOfShellCollectionId,
      SetSpiritsMetadata, SetOriginOfShellsMetadata, SetCanStartIncubation, SetShellCollectionId;
  }

  lemma IncubationUntouched(cfg: Config, s: State, act: Action)
    requires act.IsIncubation() && IncubationStep(cfg, s, act).Ok?
    ensures Untouched(s, IncubationStep(cfg, s, act).value, act)
  {
    hide StartIncubation, FeedOriginOfShell, HatchOriginOfShell, UpdateIncubationTime;
  }

  lemma StepUntouched(cfg: Config, s: State, act: Action)
    requires cfg.Valid() && Step(cfg, s, act).Ok?
    ensures Untouched(s, Step(cfg, s, act).value, act)
  {
    hide MarketStep, SettingStep, IncubationStep, OnFinalize, TransferOutside;
    if act.IsMarket() {
      MarketUntouched(cfg, s, act);
    } else if act.IsSetting() {
      SettingUntouched(cfg, s, act);
    } else if act.IsIncubation() {
      IncubationUntouched(cfg, s, act);
    }
  }

  // ----- What the calls boil down to -----

  lemma NextIs(cfg: Config, s: State, act: Action)
    requires cfg.Valid()
    ensures Next(cfg, s, act) == if Step(cfg, s, act).Ok? then Step(cfg, s, act).value else s
  {
    hide Step;
  }

  lemma SettingCall(cfg: Config, s: State, act: Action)
    requires cfg.Valid() && act.IsSetting()
    ensures Step(cfg, s, act) == SettingStep(cfg, s, act)
  {
    KindsAreDisjoint(act);
    hide MarketStep, SettingStep, IncubationStep, OnFinalize, TransferOutside, Action.IsMarket, Action.IsSetting,
      Action.IsIncubation;
  }

  lemma KindsAreDisjoint(act: Action)
    ensures !(act.IsMarket() && act.IsSetting()) && !(act.IsMarket() && act.IsIncubation())
    ensures !(act.IsSetting() && act.IsIncubation())
  {
  }

  /** Purchases and gifts. */
  predicate IsMint(act: Action) {
    act.CallBuyRare? || act.CallBuyPrime? || act.CallMintGift?
  }

  function OrderOf(cfg: Config, s: State, act: Action): MintOrder
    requires IsMint(act) && s.overlord.Some?
  {
    match act
    case CallBuyRare(sender, rarity, race, career, _) =>
      SaleOrder(cfg, s, s.overlord.value, sender, rarity, race, career)
    case CallBuyPrime(sender, _, race, career, _) => SaleOrder(cfg, s, s.overlord.value, sender, Prime, race, career)
    case CallMintGift(sender, owner, rarity, race, career, saleType, _) =>
      GiftOrder(sender, owner, rarity, race, career, saleType)
  }

  lemma MintCall(cfg: Config, s: State, act: Action)
    requires cfg.Valid() && IsMint(act) && Step(cfg, s, act).Ok?
    ensures s.overlord.Some? && OrderOf(cfg, s, act).overlord == s.overlord.value
    ensures Step(cfg, s, act) == MintOriginOfShell(cfg, s, OrderOf(cfg, s, act), act.host)
  {
    hide MintOriginOfShell, ClaimSpirit, RedeemSpirit, PreorderOriginOfShell, MintChosen, RefundNotChosen,
      InitRarityTypeCounts, UpdateRarityTypeCounts, SettingStep, IncubationStep;
  }

  lemma SpiritCall(cfg: Config, s: State, act: Action)
    requires cfg.Valid() && (act.CallClaimSpirit? || act.CallRedeemSpirit?) && Step(cfg, s, act).Ok?
    ensures Step(cfg, s, act) == MintSpirit(s, act.sender, act.host)
  {
    hide MintSpirit, BuyRare, BuyPrime, MintGift, PreorderOriginOfShell, MintChosen, RefundNotChosen,
      InitRarityTypeCounts, UpdateRarityTypeCounts, SettingStep, IncubationStep;
  }

  lemma BatchCall(cfg: Config, s: State, act: Action)
    requires cfg.Valid() && (act.CallMintChosen? || act.CallRefundNotChosen?) && Step(cfg, s, act).Ok?
    ensures s.overlord == Some(act.sender)
    ensures act.CallMintChosen? ==> Step(cfg, s, act) == SettleAll(cfg, s, act.sender, Chunk(cfg, act.ids), act.host)
    ensures act.CallRefundNotChosen? ==> Step(cfg, s, act) == RefundAll(cfg, s, Chunk(cfg, act.ids))
  {
    hide ClaimSpirit, RedeemSpirit, BuyRare, BuyPrime, MintGift, PreorderOriginOfShell, SettleAll, RefundAll,
      InitRarityTypeCounts, UpdateRarityTypeCounts, SettingStep, IncubationStep, Chunk;
  }

  lemma MarketCall(cfg: Config, s: State, act: Action)
    requires cfg.Valid() && (act.CallPreorder? || act.CallInitRarityTypeCounts? || act.CallUpdateRarityTypeCounts?)
    ensures act.CallPreorder? ==> Step(cfg, s, act) == PreorderOriginOfShell(cfg, s, act.sender, act.race, act.career)
    ensures act.CallInitRarityTypeCounts? ==> Step(cfg, s, act) == InitRarityTypeCounts(s, act.sender)
    ensures act.CallUpdateRarityTypeCounts? ==>
      Step(cfg, s, act) == UpdateRarityTypeCounts(s, act.sender, act.rarity, act.forSale, act.giveaway)
  {
    hide ClaimSpirit, RedeemSpirit, BuyRare, BuyPrime, MintGift, PreorderOriginOfShell, MintChosen, RefundNotChosen,
      InitRarityTypeCounts, UpdateRarityTypeCounts, SettingStep, IncubationStep;
  }

  lemma PreorderCall(cfg: Config, s: State, act: Action)
    requires cfg.Valid() && TouchesPreorders(act)
    ensures act.CallPreorder? ==> Step(cfg, s, act) == PreorderOriginOfShell(cfg, s, act.sender, act.race, act.career)
    ensures act.CallMintChosen? ==> Step(cfg, s, act) == MintChosen(cfg, s, act.sender, act.ids, act.host)
    ensures act.CallRefundNotChosen? ==> Step(cfg, s, act) == RefundNotChosen(cfg, s, act.sender, act.ids)
  {
    hide PreorderOriginOfShell, MintChosen, RefundNotChosen, SettingStep, IncubationStep;
  }

  lemma SaleCall(cfg: Config, s: State, act: Action)
    requires cfg.Valid() && act.IsMarket()
    ensures act.CallClaimSpirit? ==> Step(cfg, s, act) == ClaimSpirit(cfg, s, act.sender, act.host)
    ensures act.CallRedeemSpirit? ==> Step(cfg, s, act) == RedeemSpirit(cfg, s, act.sender, act.signature, act.host)
    ensures act.CallBuyRare? ==>
      Step(cfg, s, act) == BuyRare(cfg, s, act.sender, act.rarity, act.race, act.career, act.host)
    ensures act.CallBuyPrime? ==>
      Step(cfg, s, act) == BuyPrime(cfg, s, act.sender, act.signature, act.race, act.career, act.host)
    ensures act.CallMintGift? ==>
      Step(cfg, s, act) ==
      MintGift(cfg, s, act.sender, act.owner, act.rarity, act.race, act.career, act.saleType, act.host)
  {
    hide ClaimSpirit, RedeemSpirit, BuyRare, BuyPrime, MintGift, PreorderOriginOfShell, MintChosen, RefundNotChosen,
      InitRarityTypeCounts, UpdateRarityTypeCounts, SettingStep, IncubationStep;
  }

  lemma IncubationCall(cfg: Config, s: State, act: Action)
    requires cfg.Valid() && act.IsIncubation()
    ensures act.CallStartIncubation? ==> Step(cfg, s, act) == StartIncubation(s, act.sender, act.nft)
    ensures act.CallFeed? ==> Step(cfg, s, act) == FeedOriginOfShell(cfg, s, act.sender, act.nft)
    ensures act.CallHatch? ==> Step(cfg, s, act) == HatchOriginOfShell(cfg, s, act.sender, act.nft, act.host)
    ensures act.CallUpdateIncubationTime? ==> Step(cfg, s, act) == UpdateIncubationTime(s, act.sender, act.reductions)
  {
    hide StartIncubation, FeedOriginOfShell, HatchOriginOfShell, UpdateIncubationTime, MarketStep, SettingStep;
  }

  lemma NamingCall(cfg: Config, s: State, act: Action)
    requires cfg.Valid()
    requires act.CallSetSpiritCollectionId? || act.CallSetOriginOfShellCollectionId? || act.CallSetShellCollectionId?
    ensures act.CallSetSpiritCollectionId? ==> Step(cfg, s, act) == SetSpiritCollectionId(s, act.sender, act.collection)
    ensures act.CallSetOriginOfShellCollectionId? ==>
      Step(cfg, s, act) == SetOriginOfShellCollectionId(s, act.sender, act.collection)
    ensures act.CallSetShellCollectionId? ==> Step(cfg, s, act) == SetShellCollectionId(s, act.sender, act.collection)
  {
    hide MarketStep, IncubationStep, SetOverlord, InitializeWorldClock, SetStatusType, SetSpiritCollectionId,
      SetOriginOfShellCollectionId, SetSpiritsMetadata, SetOriginOfShellsMetadata, SetCanStartIncubation,
      SetShellCollectionId;
  }
}
