/** The supply is fixed: what was minted plus what is left is what was allotted. */
module Supply {
  import opened Primitives
  import opened Nfts
  import opened World
  import opened Invariants
  import opened Frames
  import opened Preservation
  import opened Settlements

  /** Minted and still to be had. */
  function Allotment(info: NftSaleInfo): nat {
    info.raceCount + info.forSaleCount + info.giveawayCount + info.reservedCount
  }

  /** What is left of 32 bits above a count. */
  function Room(count: nat): nat {
    SaturatingSub(U32_MAX, count)
  }

  /** The effective part of a top-up: of each request what its pot has room for. */
  function Increase(info: NftSaleInfo, forSale: nat, giveaway: nat): nat {
    Min(forSale, Room(info.forSaleCount)) + Min(giveaway, Room(info.giveawayCount))
  }

  /** Topping up raises the allotment by the effective part of the request and leaves the mints alone. */
  lemma ToppedUpAllotment(info: NftSaleInfo, forSale: nat, giveaway: nat)
    requires info.forSaleCount <= U32_MAX && info.giveawayCount <= U32_MAX
    ensures Allotment(ToppedUp(info, forSale, giveaway)) == Allotment(info) + Increase(info, forSale, giveaway)
    ensures ToppedUp(info, forSale, giveaway).raceCount == info.raceCount
    ensures ToppedUp(info, forSale, giveaway).forSaleCount <= U32_MAX
    ensures ToppedUp(info, forSale, giveaway).giveawayCount <= U32_MAX
    ensures ToppedUp(info, forSale, giveaway).reservedCount == info.reservedCount
  {
  }

  /** A top-up is fully effective exactly when both pots have room for what is asked. */
  lemma TopUpIsEffectiveIff(info: NftSaleInfo, forSale: nat, giveaway: nat)
    requires info.forSaleCount <= U32_MAX && info.giveawayCount <= U32_MAX
    ensures Allotment(ToppedUp(info, forSale, giveaway)) == Allotment(info) + forSale + giveaway <==>
            info.forSaleCount + forSale <= U32_MAX && info.giveawayCount + giveaway <= U32_MAX
  {
  }

  /** What a successful call adds to the allotment of a rarity and race. */
  function TopUp(s: State, act: Action, key: (RarityType, RaceType)): nat {
    match act
    case CallUpdateRarityTypeCounts(_, rarity, forSale, giveaway) =>
      if key in s.inventory && key.0 == rarity then Increase(s.inventory[key], forSale, giveaway) else 0
    case _ => 0
  }

  ghost function TopUps(cfg: Config, s: State, acts: seq<Action>, key: (RarityType, RaceType)): nat
    requires cfg.Valid()
  {
    if acts == [] then 0
    else
      var before, act := Run(cfg, s, acts[..|acts| - 1]), acts[|acts| - 1];
      TopUps(cfg, s, acts[..|acts| - 1], key) + if Step(cfg, before, act).Ok? then TopUp(before, act, key) else 0
  }

  ghost predicate PotsFit(inventory: map<(RarityType, RaceType), NftSaleInfo>) {
    forall key :: key in inventory ==> PotsFitIn(inventory[key])
  }

  predicate PotsFitIn(info: NftSaleInfo) {
    info.forSaleCount <= U32_MAX && info.giveawayCount <= U32_MAX && info.reservedCount <= U32_MAX
  }

  /** `s'` has the inventory of `s`, each allotment raised by `extra`. */
  ghost predicate Restocked(s: State, s': State, act: Action) {
    && s'.inventory.Keys == s.inventory.Keys
    && (PotsFit(s.inventory) ==>
          && PotsFit(s'.inventory)
          && forall key :: key in s.inventory ==>
               Allotment(s'.inventory[key]) == Allotment(s.inventory[key]) + TopUp(s, act, key))
  }

  lemma DrawRestocks(s: State, s': State, key: (RarityType, RaceType), saleType: NftSaleType, act: Action)
    requires key in s.inventory && s.inventory[key].Pot(saleType) > 0 && !act.CallUpdateRarityTypeCounts?
    requires s'.inventory == s.inventory[key := Drawn(s.inventory[key], saleType)]
    ensures Restocked(s, s', act)
  {
    DrawnAllotment(s.inventory[key], saleType);
    hide Drawn, Allotment, Increase;
  }

  /** A mint moves one from a pot to the minted. */
  lemma DrawnAllotment(info: NftSaleInfo, saleType: NftSaleType)
    requires info.Pot(saleType) > 0
    ensures Allotment(Drawn(info, saleType)) == Allotment(info)
    ensures Drawn(info, saleType).forSaleCount <= info.forSaleCount
    ensures Drawn(info, saleType).giveawayCount <= info.giveawayCount
    ensures Drawn(info, saleType).reservedCount <= info.reservedCount
  {
  }

  lemma MintRestocks(cfg: Config, s: State, order: MintOrder, host: Host, act: Action)
    requires MintOriginOfShell(cfg, s, order, host).Ok? && !act.CallUpdateRarityTypeCounts?
    ensures Restocked(s, MintOriginOfShell(cfg, s, order, host).value, act)
  {
    hide *;
    MintOriginEffect(cfg, s, order, host);
    var key := (order.traits.rarity, order.traits.race);
    DrawRestocks(s, MintOriginOfShell(cfg, s, order, host).value, key, order.saleType, act);
  }

  lemma SettleAllRestocks(cfg: Config, s: State, overlord: AccountId, ids: seq<PreorderId>, host: Host, act: Action)
    requires WorldInv(cfg, s) && SettleAll(cfg, s, overlord, ids, host).Ok? && act.CallMintChosen?
    ensures Restocked(s, SettleAll(cfg, s, overlord, ids, host).value, act)
  {
    hide WorldInv, SettleAll, NewOrigins, NewCareers, RacesOf;
    SettleAllNfts(cfg, s, overlord, ids, host);
  }

  /** Every call but the initialisation keeps each allotment, up to the top-ups. */
  lemma StepRestocks(cfg: Config, s: State, act: Action)
    requires cfg.Valid() && WorldInv(cfg, s) && Step(cfg, s, act).Ok? && !act.CallInitRarityTypeCounts?
    ensures Restocked(s, Step(cfg, s, act).value, act)
  {
    hide WorldInv, Step, MintOriginOfShell, SettleAll, Restocked, UpdateRarityTypeCounts, Chunk;
    if IsMint(act) {
      MintCall(cfg, s, act);
      MintRestocks(cfg, s, OrderOf(cfg, s, act), act.host, act);
    } else if act.CallMintChosen? {
      BatchCall(cfg, s, act);
      SettleAllRestocks(cfg, s, act.sender, Chunk(cfg, act.ids), act.host, act);
    } else if act.CallUpdateRarityTypeCounts? {
      MarketCall(cfg, s, act);
      UpdateRestocks(s, act.sender, act.rarity, act.forSale, act.giveaway);
    } else {
      StepUntouched(cfg, s, act);
      SameInventoryRestocks(s, Step(cfg, s, act).value, act);
    }
  }

  lemma SameInventoryRestocks(s: State, s': State, act: Action)
    requires s'.inventory == s.inventory && !act.CallUpdateRarityTypeCounts?
    ensures Restocked(s, s', act)
  {
  }

  lemma UpdateRestocks(s: State, sender: AccountId, rarity: RarityType, forSale: nat, giveaway: nat)
    requires UpdateRarityTypeCounts(s, sender, rarity, forSale, giveaway).Ok?
    ensures Restocked(s, UpdateRarityTypeCounts(s, sender, rarity, forSale, giveaway).value,
                      CallUpdateRarityTypeCounts(sender, rarity, forSale, giveaway))
  {
    var s' := UpdateRarityTypeCounts(s, sender, rarity, forSale, giveaway).value;
    assert s'.inventory == AllToppedUp(s.inventory, rarity, forSale, giveaway);
    hide UpdateRarityTypeCounts, Allotment, Increase, ToppedUp;
    if PotsFit(s.inventory) {
      forall key | key in s.inventory
        ensures Allotment(ToppedUp(s.inventory[key], forSale, giveaway))
             == Allotment(s.inventory[key]) + Increase(s.inventory[key], forSale, giveaway)
        ensures PotsFitIn(ToppedUp(s.inventory[key], forSale, giveaway))
      {
        ToppedUpAllotment(s.inventory[key], forSale, giveaway);
      }
    }
  }

  // ----- Over runs -----

  /** Every allotment is the initial one plus the top-ups since. */
  ghost predicate SupplyIs(cfg: Config, balances: map<AccountId, Balance>, acts: seq<Action>)
    requires cfg.Valid()
  {
    var s := Run(cfg, Genesis(balances), acts);
    && PotsFit(s.inventory)
    && forall key :: SupplyAt(s, key, TopUps(cfg, Genesis(balances), acts, key))
  }

  ghost predicate SupplyAt(s: State, key: (RarityType, RaceType), topUps: nat) {
    if key in s.inventory then Allotment(s.inventory[key]) == Allotment(InitialSaleInfo(key.0)) + topUps
    else topUps == 0
  }

  lemma SupplyAtStep(cfg: Config, s: State, act: Action, key: (RarityType, RaceType), topUps: nat)
    requires cfg.Valid() && WorldInv(cfg, s) && PotsFit(s.inventory) && SupplyAt(s, key, topUps)
    ensures PotsFit(Next(cfg, s, act).inventory)
    ensures SupplyAt(Next(cfg, s, act), key, topUps + if Step(cfg, s, act).Ok? then TopUp(s, act, key) else 0)
  {
    hide *;
    if Step(cfg, s, act).Ok? {
      SupplyAtCall(cfg, s, act, key, topUps);
    }
    NextIs(cfg, s, act);
  }

  lemma SupplyAtCall(cfg: Config, s: State, act: Action, key: (RarityType, RaceType), topUps: nat)
    requires cfg.Valid() && WorldInv(cfg, s) && PotsFit(s.inventory) && SupplyAt(s, key, topUps)
    requires Step(cfg, s, act).Ok?
    ensures PotsFit(Step(cfg, s, act).value.inventory)
    ensures SupplyAt(Step(cfg, s, act).value, key, topUps + TopUp(s, act, key))
  {
    InventoryOf(cfg, s);
    hide *;
    if act.CallInitRarityTypeCounts? {
      InitRestocks(cfg, s, act);
      SupplyAtInit(s, Step(cfg, s, act).value, act, key, topUps);
    } else {
      StepRestocks(cfg, s, act);
      SupplyAtRestock(s, Step(cfg, s, act).value, act, key, topUps);
    }
  }

  lemma SupplyAtInit(s: State, s': State, act: Action, key: (RarityType, RaceType), topUps: nat)
    requires s.inventory == map[] && s'.inventory == InitialInventory() && act.CallInitRarityTypeCounts?
    requires SupplyAt(s, key, topUps)
    ensures SupplyAt(s', key, topUps + TopUp(s, act, key))
  {
    InitialInventoryIsFull();
    hide InitialInventory, Allotment;
  }

  lemma SupplyAtRestock(s: State, s': State, act: Action, key: (RarityType, RaceType), topUps: nat)
    requires Restocked(s, s', act) && PotsFit(s.inventory) && SupplyAt(s, key, topUps)
    ensures PotsFit(s'.inventory) && SupplyAt(s', key, topUps + TopUp(s, act, key))
  {
    hide Allotment, PotsFit, InitialSaleInfo, Increase;
  }

  lemma InitRestocks(cfg: Config, s: State, act: Action)
    requires cfg.Valid() && InventoryInv(s) && act.CallInitRarityTypeCounts? && Step(cfg, s, act).Ok?
    ensures s.inventory == map[] && Step(cfg, s, act).value.inventory == InitialInventory()
    ensures PotsFit(InitialInventory())
  {
    MarketCall(cfg, s, act);
    hide Step;
    assert map[] + InitialInventory() == InitialInventory();
  }

  lemma InventoryOf(cfg: Config, s: State)
    requires WorldInv(cfg, s)
    ensures InventoryInv(s)
  {
  }

  /** One more step of a run. */
  lemma SupplyStep(cfg: Config, balances: map<AccountId, Balance>, acts: seq<Action>)
    requires cfg.Valid() && acts != [] && SupplyIs(cfg, balances, acts[..|acts| - 1])
    requires WorldInv(cfg, Run(cfg, Genesis(balances), acts[..|acts| - 1]))
    ensures SupplyIs(cfg, balances, acts)
  {
    hide WorldInv, Step, Genesis, PotsFit, SupplyAt, TopUp, Next;
    var g := Genesis(balances);
    var before, act := Run(cfg, g, acts[..|acts| - 1]), acts[|acts| - 1];
    forall key
      ensures SupplyAt(Run(cfg, g, acts), key, TopUps(cfg, g, acts, key))
      ensures PotsFit(Run(cfg, g, acts).inventory)
    {
      SupplyAtStep(cfg, before, act, key, TopUps(cfg, g, acts[..|acts| - 1], key));
    }
    SupplyAtStep(cfg, before, act, (Prime, Cyborg), TopUps(cfg, g, acts[..|acts| - 1], (Prime, Cyborg)));
  }

  lemma NothingSupplied(cfg: Config, balances: map<AccountId, Balance>, acts: seq<Action>)
    requires cfg.Valid() && acts == []
    ensures SupplyIs(cfg, balances, acts)
  {
    hide Next, InitialSaleInfo, Allotment;
  }

  /**
   Fixed supply, in every reachable storage: minted plus for sale plus giveaway plus reserved is the
   initial allotment plus the top-ups, for every rarity and race.
   */
  lemma {:induction false} FixedSupply(cfg: Config, balances: map<AccountId, Balance>, acts: seq<Action>)
    requires cfg.Valid() && AdmissibleRun(cfg, Genesis(balances), acts)
    ensures SupplyIs(cfg, balances, acts)
    decreases |acts|
  {
    if acts == [] {
      NothingSupplied(cfg, balances, acts);
    } else {
      hide SupplyIs, WorldInv, Genesis, Next, Admissible;
      GenesisInv(cfg, balances);
      FixedSupply(cfg, balances, acts[..|acts| - 1]);
      RunKeeps(cfg, Genesis(balances), acts[..|acts| - 1]);
      SupplyStep(cfg, balances, acts);
    }
  }

  /** Only Prime can be topped up. */
  lemma {:induction false} RareIsNeverToppedUp(cfg: Config, s: State, acts: seq<Action>, key: (RarityType, RaceType))
    requires cfg.Valid() && key.0 != Prime
    ensures TopUps(cfg, s, acts, key) == 0
    decreases |acts|
  {
    if acts != [] {
      var before, act := Run(cfg, s, acts[..|acts| - 1]), acts[|acts| - 1];
      RareIsNeverToppedUp(cfg, s, acts[..|acts| - 1], key);
      if act.CallUpdateRarityTypeCounts? {
        MarketCall(cfg, before, act);
      }
      hide Step, Run;
    }
  }

  /** Legendary and Magic stay at 2 and 20 per race for ever, so at most 8 and 80 are ever minted. */
  lemma RareSupply(cfg: Config, balances: map<AccountId, Balance>, acts: seq<Action>)
    requires cfg.Valid() && AdmissibleRun(cfg, Genesis(balances), acts)
    ensures
      var s := Run(cfg, Genesis(balances), acts);
      && (forall race :: (Legendary, race) in s.inventory ==> Allotment(s.inventory[(Legendary, race)]) == 2)
      && (forall race :: (Magic, race) in s.inventory ==> Allotment(s.inventory[(Magic, race)]) == 20)
      && RaceTotal(s, Legendary) <= 8
      && RaceTotal(s, Magic) <= 80
  {
    var s := Run(cfg, Genesis(balances), acts);
    hide Genesis, Run, AdmissibleRun, Allotment, RaceTotal;
    forall race: RaceType
      ensures (Legendary, race) in s.inventory ==> Allotment(s.inventory[(Legendary, race)]) == 2
      ensures (Magic, race) in s.inventory ==> Allotment(s.inventory[(Magic, race)]) == 20
    {
      RareSupplyOf(cfg, balances, acts, (Legendary, race));
      RareSupplyOf(cfg, balances, acts, (Magic, race));
    }
    TotalOfFour(s, Legendary, 2);
    TotalOfFour(s, Magic, 20);
  }

  lemma RareSupplyOf(cfg: Config, balances: map<AccountId, Balance>, acts: seq<Action>, key: (RarityType, RaceType))
    requires cfg.Valid() && AdmissibleRun(cfg, Genesis(balances), acts) && key.0 != Prime
    ensures
      var s := Run(cfg, Genesis(balances), acts);
      key in s.inventory ==> Allotment(s.inventory[key]) == if key.0 == Legendary then 2 else 20
  {
    FixedSupply(cfg, balances, acts);
    RareIsNeverToppedUp(cfg, Genesis(balances), acts, key);
    var s := Run(cfg, Genesis(balances), acts);
    assert SupplyAt(s, key, TopUps(cfg, Genesis(balances), acts, key));
    hide Genesis, Run, AdmissibleRun, TopUps;
  }

  lemma TotalOfFour(s: State, rarity: RarityType, bound: nat)
    requires forall race :: (rarity, race) in s.inventory ==> Allotment(s.inventory[(rarity, race)]) == bound
    ensures RaceTotal(s, rarity) <= 4 * bound
  {
    forall race
      ensures Count(s, OfRace(rarity, race)) <= bound
    {
      if (rarity, race) in s.inventory {
        assert Allotment(s.inventory[(rarity, race)]) == bound;
      }
    }
    hide Allotment, Count;
  }

  /** The unchecked `+= 1` on the counters never leaves 32 bits. */
  lemma CountersFit(cfg: Config, s: State, kind: Kind)
    requires WorldInv(cfg, s)
    ensures Count(s, kind) <= OriginsMinted(s) <= U32_MAX
  {
    hide LiveIn, Count;
    match kind
    case OfRace(rarity, race) =>
      assert race == Cyborg || race == AISpectre || race == XGene || race == Pandroid;
      assert Count(s, OfRace(rarity, race)) <= RaceTotal(s, rarity);
      assert rarity == Prime || rarity == Magic || rarity == Legendary;
      assert RaceTotal(s, rarity) <= RarityTotal(s);
    case OfCareer(career) =>
      assert career == HackerWizard || career == HardwareDruid || career == RoboWarrior || career == TradeNegotiator
             || career == Web3Monk;
  }
}
