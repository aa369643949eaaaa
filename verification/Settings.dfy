/** The settings of both pallets: who may make them, exactly when, and what they write. */
module Settings {
  import opened Primitives
  import opened World
  import opened Frames

  /** Only governance names an overlord. */
  lemma OverlordCall(cfg: Config, s: State, act: Action)
    requires cfg.Valid() && act.CallSetOverlord?
    ensures Step(cfg, s, act) ==
      if act.isGovernance then Ok(s.(overlord := Some(act.newOverlord))) else Err(BadOrigin)
  {
    SettingCall(cfg, s, act);
    hide Step, SetStatusType, InitializeWorldClock, SetSpiritCollectionId, SetOriginOfShellCollectionId,
      SetShellCollectionId, SetSpiritsMetadata, SetOriginOfShellsMetadata, SetCanStartIncubation;
  }

  /** The clock is started once, at the last whole era since the epoch. */
  lemma ClockCall(cfg: Config, s: State, act: Action)
    requires cfg.Valid() && act.CallInitializeWorldClock?
    ensures Step(cfg, s, act).Ok? <==> s.overlord == Some(act.sender) && s.zeroDay == None
    ensures Step(cfg, s, act).Err? ==>
      Step(cfg, s, act).error == if s.overlord != Some(act.sender) then RequireOverlordAccount else WorldClockAlreadySet
    ensures Step(cfg, s, act).Ok? ==>
      var s' := Step(cfg, s, act).value;
      && s'.zeroDay.Some? && s' == s.(zeroDay := s'.zeroDay)
      && s'.zeroDay.value <= s.now < s'.zeroDay.value + cfg.secondsPerEra
      && exists eras: nat :: s'.zeroDay.value == cfg.secondsPerEra * eras
  {
    hide *;
    ClockStep(cfg, s, act);
    WholeEras(s.now, cfg.secondsPerEra);
    SettingTheClock(cfg, s, act.sender);
  }

  lemma ClockStep(cfg: Config, s: State, act: Action)
    requires cfg.Valid() && act.CallInitializeWorldClock?
    ensures Step(cfg, s, act) == InitializeWorldClock(cfg, s, act.sender) && cfg.secondsPerEra >= 1
  {
    SettingCall(cfg, s, act);
    hide Step, SetOverlord, SetStatusType, InitializeWorldClock, SetSpiritCollectionId, SetOriginOfShellCollectionId,
      SetShellCollectionId, SetSpiritsMetadata, SetOriginOfShellsMetadata, SetCanStartIncubation;
  }

  lemma SettingTheClock(cfg: Config, s: State, sender: AccountId)
    requires cfg.Valid()
    ensures InitializeWorldClock(cfg, s, sender) ==
      if s.overlord != Some(sender) then Err(RequireOverlordAccount)
      else if s.zeroDay.Some? then Err(WorldClockAlreadySet)
      else Ok(s.(zeroDay := Some(s.now - s.now % cfg.secondsPerEra)))
  {
  }

  lemma WholeEras(now: nat, d: nat)
    requires d >= 1
    ensures 0 <= now - now % d <= now < now - now % d + d
    ensures exists eras: nat :: now - now % d == d * eras
  {
    assert now - now % d == d * (now / d);
  }

  /** The overlord sets the gate that it names and no other. */
  lemma StatusCall(cfg: Config, s: State, act: Action)
    requires cfg.Valid() && act.CallSetStatusType?
    ensures Step(cfg, s, act).Ok? <==> s.overlord == Some(act.sender)
    ensures Step(cfg, s, act).Err? ==> Step(cfg, s, act).error == RequireOverlordAccount
    ensures Step(cfg, s, act).Ok? ==>
      var s' := Step(cfg, s, act).value;
      && s'.canClaimSpirits == (if act.statusType == ClaimSpirits then act.status else s.canClaimSpirits)
      && s'.canPurchaseRare == (if act.statusType == PurchaseRareOriginOfShells then act.status else s.canPurchaseRare)
      && s'.canPurchasePrime ==
           (if act.statusType == PurchasePrimeOriginOfShells then act.status else s.canPurchasePrime)
      && s'.canPreorder == (if act.statusType == PreorderOriginOfShells then act.status else s.canPreorder)
      && s'.lastDayOfSale == (if act.statusType == LastDayOfSale then act.status else s.lastDayOfSale)
      && GateFrame(s, s')
  {
    hide *;
    StatusStep(cfg, s, act);
    StatusIs(s, act.sender, act.status, act.statusType);
  }

  lemma StatusStep(cfg: Config, s: State, act: Action)
    requires cfg.Valid() && act.CallSetStatusType?
    ensures Step(cfg, s, act) == SetStatusType(s, act.sender, act.status, act.statusType)
  {
    SettingCall(cfg, s, act);
    hide Step, SetStatusType, SetOverlord, InitializeWorldClock, SetSpiritCollectionId, SetOriginOfShellCollectionId,
      SetShellCollectionId, SetSpiritsMetadata, SetOriginOfShellsMetadata, SetCanStartIncubation;
  }

  lemma StatusIs(s: State, sender: AccountId, status: bool, statusType: StatusType)
    ensures SetStatusType(s, sender, status, statusType).Ok? <==> s.overlord == Some(sender)
    ensures SetStatusType(s, sender, status, statusType).Err? ==>
      SetStatusType(s, sender, status, statusType).error == RequireOverlordAccount
    ensures SetStatusType(s, sender, status, statusType).Ok? ==>
      var s' := SetStatusType(s, sender, status, statusType).value;
      && s'.canClaimSpirits == (if statusType == ClaimSpirits then status else s.canClaimSpirits)
      && s'.canPurchaseRare == (if statusType == PurchaseRareOriginOfShells then status else s.canPurchaseRare)
      && s'.canPurchasePrime == (if statusType == PurchasePrimeOriginOfShells then status else s.canPurchasePrime)
      && s'.canPreorder == (if statusType == PreorderOriginOfShells then status else s.canPreorder)
      && s'.lastDayOfSale == (if statusType == LastDayOfSale then status else s.lastDayOfSale)
      && GateFrame(s, s')
  {
    hide GateFrame;
    GatesAfter(s, status, statusType);
    hide WithStatus;
  }

  lemma GatesAfter(s: State, status: bool, statusType: StatusType)
    ensures
      var s' := WithStatus(s, status, statusType);
      && s'.canClaimSpirits == (if statusType == ClaimSpirits then status else s.canClaimSpirits)
      && s'.canPurchaseRare == (if statusType == PurchaseRareOriginOfShells then status else s.canPurchaseRare)
      && s'.canPurchasePrime == (if statusType == PurchasePrimeOriginOfShells then status else s.canPurchasePrime)
      && s'.canPreorder == (if statusType == PreorderOriginOfShells then status else s.canPreorder)
      && s'.lastDayOfSale == (if statusType == LastDayOfSale then status else s.lastDayOfSale)
  {
    hide GateFrame;
  }

  /** The overlord names each of the three collections once. */
  lemma CollectionCall(cfg: Config, s: State, act: Action)
    requires cfg.Valid()
    requires act.CallSetSpiritCollectionId? || act.CallSetOriginOfShellCollectionId? || act.CallSetShellCollectionId?
    ensures Step(cfg, s, act) ==
      if s.overlord != Some(act.sender) then Err(RequireOverlordAccount)
      else if act.CallSetSpiritCollectionId? then
        (if s.spiritCollection.Some? then Err(SpiritCollectionIdAlreadySet)
         else Ok(s.(spiritCollection := Some(act.collection))))
      else if act.CallSetOriginOfShellCollectionId? then
        (if s.originCollection.Some? then Err(OriginOfShellCollectionIdAlreadySet)
         else Ok(s.(originCollection := Some(act.collection))))
      else
        (if s.shellCollection.Some? then Err(ShellCollectionIdAlreadySet)
         else Ok(s.(shellCollection := Some(act.collection))))
  {
    NamingCall(cfg, s, act);
    hide Step;
  }

  /** The overlord sets the Spirits' metadata, as often as it likes. */
  lemma SpiritsMetadataCall(cfg: Config, s: State, act: Action)
    requires cfg.Valid() && act.CallSetSpiritsMetadata?
    ensures Step(cfg, s, act) ==
      if s.overlord != Some(act.sender) then Err(RequireOverlordAccount)
      else Ok(s.(spiritsMetadata := Some(act.metadata)))
  {
    SettingCall(cfg, s, act);
    hide Step, SetOverlord, SetStatusType, InitializeWorldClock, SetSpiritCollectionId, SetOriginOfShellCollectionId,
      SetShellCollectionId, SetOriginOfShellsMetadata, SetCanStartIncubation;
  }

  predicate Names(entries: seq<(RaceType, Bytes)>, race: RaceType) {
    exists i :: 0 <= i < |entries| && entries[i].0 == race
  }

  /** Of several entries for a race the last one counts. */
  lemma {:induction false} LastEntryCounts(m: map<RaceType, Bytes>, entries: seq<(RaceType, Bytes)>, race: RaceType)
    ensures !Names(entries, race) ==>
      (race in InsertAll(m, entries) <==> race in m) && (race in m ==> InsertAll(m, entries)[race] == m[race])
    ensures forall i :: 0 <= i < |entries| && entries[i].0 == race && !Names(entries[i + 1..], race) ==>
      race in InsertAll(m, entries) && InsertAll(m, entries)[race] == entries[i].1
    decreases |entries|
  {
    if entries != [] {
      var rest := entries[1..];
      var m1 := m[entries[0].0 := entries[0].1];
      LastEntryCounts(m1, rest, race);
      assert entries == [entries[0]] + rest;
      if Names(rest, race) {
        var i :| 0 <= i < |rest| && rest[i].0 == race;
        assert entries[i + 1].0 == race;
      }
      forall i | 0 <= i < |entries| && entries[i].0 == race && !Names(entries[i + 1..], race)
        ensures race in InsertAll(m, entries) && InsertAll(m, entries)[race] == entries[i].1
      {
        if i > 0 {
          assert rest[i - 1] == entries[i] && rest[i..] == entries[i + 1..];
        }
      }
    }
  }

  /** The overlord sets the metadata of the races it names: the last entry of each, and nothing for the others. */
  lemma MetadataCall(cfg: Config, s: State, act: Action)
    requires cfg.Valid() && act.CallSetOriginOfShellsMetadata?
    ensures Step(cfg, s, act).Ok? <==> s.overlord == Some(act.sender)
    ensures Step(cfg, s, act).Err? ==> Step(cfg, s, act).error == RequireOverlordAccount
    ensures Step(cfg, s, act).Ok? ==>
      var s' := Step(cfg, s, act).value;
      && s' == s.(originMetadata := s'.originMetadata)
      && (forall race :: !Names(act.entries, race) ==>
            (race in s'.originMetadata <==> race in s.originMetadata) &&
            (race in s.originMetadata ==> s'.originMetadata[race] == s.originMetadata[race]))
      && (forall race, i :: 0 <= i < |act.entries| && act.entries[i].0 == race && !Names(act.entries[i + 1..], race) ==>
            race in s'.originMetadata && s'.originMetadata[race] == act.entries[i].1)
  {
    SettingCall(cfg, s, act);
    forall race {
      LastEntryCounts(s.originMetadata, act.entries, race);
    }
    hide Step, SetOverlord, SetStatusType, InitializeWorldClock, SetSpiritCollectionId, SetOriginOfShellCollectionId,
      SetShellCollectionId, SetSpiritsMetadata, SetCanStartIncubation, InsertAll, Names;
  }

  // ----- The inventory -----

  /** Per race: one Legendary and ten Magic for sale and as many reserved, and 1250 Prime for sale. */
  ghost predicate HoldsInitialStock(inventory: map<(RarityType, RaceType), NftSaleInfo>) {
    forall race: RaceType ::
      && (Legendary, race) in inventory && inventory[(Legendary, race)] == NftSaleInfo(0, 1, 0, 1)
      && (Magic, race) in inventory && inventory[(Magic, race)] == NftSaleInfo(0, 10, 0, 10)
      && (Prime, race) in inventory && inventory[(Prime, race)] == NftSaleInfo(0, 1250, 0, 0)
  }

  /** The overlord sets the inventory once. */
  lemma InventoryCall(cfg: Config, s: State, act: Action)
    requires cfg.Valid() && act.CallInitRarityTypeCounts?
    ensures Step(cfg, s, act).Ok? <==> s.overlord == Some(act.sender) && !s.isInventorySet
    ensures Step(cfg, s, act).Err? ==>
      Step(cfg, s, act).error ==
        if s.overlord != Some(act.sender) then RequireOverlordAccount else OriginOfShellInventoryAlreadySet
    ensures Step(cfg, s, act).Ok? ==>
      var s' := Step(cfg, s, act).value;
      s' == s.(inventory := s'.inventory, isInventorySet := true) && HoldsInitialStock(s'.inventory)
  {
    MarketCall(cfg, s, act);
    InitialStock(s.inventory);
    hide Step, InitialInventory, HoldsInitialStock;
  }

  lemma InitialStock(inventory: map<(RarityType, RaceType), NftSaleInfo>)
    ensures HoldsInitialStock(inventory + InitialInventory())
  {
    InitialInventoryIsFull();
    hide InitialInventory;
  }

  /** The overlord tops up every Prime entry, each pot stopping at 32 bits. */
  lemma TopUpCall(cfg: Config, s: State, act: Action)
    requires cfg.Valid() && act.CallUpdateRarityTypeCounts?
    ensures Step(cfg, s, act).Ok? <==> s.overlord == Some(act.sender) && act.rarity == Prime
    ensures Step(cfg, s, act).Err? ==>
      Step(cfg, s, act).error == if s.overlord != Some(act.sender) then RequireOverlordAccount else WrongRarityType
    ensures Step(cfg, s, act).Ok? ==>
      var s' := Step(cfg, s, act).value;
      && s' == s.(inventory := s'.inventory)
      && s'.inventory.Keys == s.inventory.Keys
      && forall key :: key in s.inventory ==>
           var info, info' := s.inventory[key], s'.inventory[key];
           if key.0 != Prime then info' == info
           else
             && info'.raceCount == info.raceCount && info'.reservedCount == info.reservedCount
             && info'.forSaleCount ==
                  (if info.forSaleCount + act.forSale < 0x1_0000_0000 then info.forSaleCount + act.forSale
                   else 0xFFFF_FFFF)
             && info'.giveawayCount ==
                  (if info.giveawayCount + act.giveaway < 0x1_0000_0000 then info.giveawayCount + act.giveaway
                   else 0xFFFF_FFFF)
  {
    MarketCall(cfg, s, act);
    hide Step;
  }
}
