/**
 The rationing of Origin of Shells before the last day of sale: one preorder at a time per account,
 flagged exactly, and at most two Origin of Shells or preorders beyond the gifts.
 */
module Holdings {
  import opened Primitives
  import opened Currency
  import opened Nfts
  import opened World
  import opened Invariants
  import opened Frames
  import opened Preservation
  import opened Refunds
  import opened Settlements

  /** The flag of an account says that it has exactly one live preorder; nobody has two. */
  ghost predicate FlagInv(s: State) {
    forall a :: FlagAt(s, a)
  }

  ghost predicate FlagAt(s: State, a: AccountId) {
    |LiveOf(s.preorders, a)| <= 1 && (a in s.ownerHasPreorder <==> |LiveOf(s.preorders, a)| == 1)
  }

  /** How many live Origin of Shells an account has. */
  ghost function Held(s: State, a: AccountId): nat {
    if s.originCollection.Some? then |s.uniques.OwnedInCollection(s.originCollection.value, a)| else 0
  }

  ghost function Live(s: State, a: AccountId): nat {
    |LiveOf(s.preorders, a)|
  }

  // ----- Minting -----

  lemma MintHolds(cfg: Config, s: State, order: MintOrder, host: Host, a: AccountId)
    requires WorldInv(cfg, s) && MintOriginOfShell(cfg, s, order, host).Ok?
    ensures
      var s' := MintOriginOfShell(cfg, s, order, host).value;
      && Held(s', a) == Held(s, a) + (if a == order.owner then 1 else 0)
      && (order.checkOwned && a == order.owner ==> Held(s, a) == 0)
  {
    MintOriginEffect(cfg, s, order, host);
    var c := s.originCollection.value;
    NextNftIsFresh(cfg, s, c);
    hide WorldInv, MintOriginOfShell, Minted, Drawn, Nfts.Uniques.OwnedInCollection;
    OwnedAfterMint(s.uniques, MintOriginOfShell(cfg, s, order, host).value.uniques, c, order.owner, c, a);
  }

  lemma MintSpiritHolds(cfg: Config, s: State, sender: AccountId, host: Host, a: AccountId)
    requires WorldInv(cfg, s) && MintSpirit(s, sender, host).Ok?
    ensures Held(MintSpirit(s, sender, host).value, a) == Held(s, a)
  {
    MintSpiritEffect(s, sender, host);
    NextNftIsFresh(cfg, s, s.spiritCollection.value);
    assert s.spiritCollection != s.originCollection;
    hide WorldInv, MintSpirit, Minted, Nfts.Uniques.OwnedInCollection;
    if s.originCollection.Some? {
      OwnedAfterMint(s.uniques, MintSpirit(s, sender, host).value.uniques, s.spiritCollection.value, sender,
        s.originCollection.value, a);
    }
  }

  lemma HatchHolds(cfg: Config, s: State, sender: AccountId, n: Nft, host: Host, a: AccountId)
    requires WorldInv(cfg, s) && HatchOriginOfShell(cfg, s, sender, n, host).Ok?
    ensures Held(HatchOriginOfShell(cfg, s, sender, n, host).value, a) <= Held(s, a)
  {
    HatchEffect(cfg, s, sender, n, host);
    assert s.originCollection != s.shellCollection;
    hide WorldInv, HatchOriginOfShell, Awakened, TraitsOf, Nfts.Uniques.OwnedInCollection;
    FewerOwnedAfterHatch(s.uniques, HatchOriginOfShell(cfg, s, sender, n, host).value.uniques, n,
      s.shellCollection.value, s.originCollection.value, a);
  }

  lemma FewerOwnedAfterHatch(u: Uniques, u': Uniques, n: Nft, shell: CollectionId, c: CollectionId, a: AccountId)
    requires n in u.owner && Awakened(u, u', n, shell) && c != shell
    ensures |u'.OwnedInCollection(c, a)| <= |u.OwnedInCollection(c, a)|
  {
    hide SameTraitsBut;
    FewerOwned(u, u', c, a);
  }

  lemma FewerOwned(u: Uniques, u': Uniques, c: CollectionId, a: AccountId)
    requires forall n :: n in u'.owner && n.0 == c ==> n in u.owner && u'.owner[n] == u.owner[n]
    ensures |u'.OwnedInCollection(c, a)| <= |u.OwnedInCollection(c, a)|
  {
    var before, after := u.OwnedInCollection(c, a), u'.OwnedInCollection(c, a);
    assert after <= before;
    SubsetSize(after, before);
  }

  lemma {:induction false} SubsetSize<T>(a: set<T>, b: set<T>)
    requires a <= b
    ensures |a| <= |b|
  {
    assert b == a + (b - a);
  }

  // ----- Preorders -----

  lemma PreorderHolds(cfg: Config, s: State, sender: AccountId, race: RaceType, career: CareerType, a: AccountId)
    requires WorldInv(cfg, s) && FlagInv(s) && !s.lastDayOfSale
    requires PreorderOriginOfShell(cfg, s, sender, race, career).Ok?
    ensures
      var s' := PreorderOriginOfShell(cfg, s, sender, race, career).value;
      && FlagAt(s', a)
      && Held(s', a) == Held(s, a)
      && Live(s', a) == Live(s, a) + (if a == sender then 1 else 0)
      && (a == sender ==> Held(s, a) == 0 && Live(s, a) == 0)
  {
    FlagOf(s, a);
    FlagOf(s, sender);
    EscrowOf(cfg, s);
    assert s.preorderIndex !in s.preorders;
    AtMostOneLive(s, a);
    AtMostOneLive(s, sender);
    hide WorldInv, EscrowInv, FlagInv, FlagAt, LiveOf, PreorderOriginOfShell, Held, Nfts.Uniques.Owns;
    PreorderFacts(cfg, s, sender, race, career);
    SameNftsHold(s, PreorderOriginOfShell(cfg, s, sender, race, career).value, a);
    HoldsNothing(s, sender);
    LiveOfInsert(s.preorders, s.preorderIndex, PreorderInfo(sender, race, career, s.originMetadata[race]), a);
    FlagIs(PreorderOriginOfShell(cfg, s, sender, race, career).value, a);
  }

  lemma FlagIs(s: State, a: AccountId)
    requires Live(s, a) <= 1 && (a in s.ownerHasPreorder <==> Live(s, a) == 1)
    ensures FlagAt(s, a)
  {
  }

  lemma HoldsNothing(s: State, a: AccountId)
    requires s.originCollection.Some? && !s.uniques.Owns(a, s.originCollection.value)
    ensures Held(s, a) == 0
  {
  }

  /** What an early preorder presupposes and what it writes. */
  lemma PreorderFacts(cfg: Config, s: State, sender: AccountId, race: RaceType, career: CareerType)
    requires PreorderOriginOfShell(cfg, s, sender, race, career).Ok? && !s.lastDayOfSale
    ensures sender !in s.ownerHasPreorder && race in s.originMetadata
    ensures s.originCollection.Some? && !s.uniques.Owns(sender, s.originCollection.value)
    ensures
      var s' := PreorderOriginOfShell(cfg, s, sender, race, career).value;
      && s'.preorders == s.preorders[s.preorderIndex := PreorderInfo(sender, race, career, s.originMetadata[race])]
      && s'.ownerHasPreorder == s.ownerHasPreorder + {sender}
      && s'.uniques == s.uniques && s'.originCollection == s.originCollection && s'.lastDayOfSale == s.lastDayOfSale
  {
    hide Nfts.Uniques.Owns, Ledger.Reserve;
  }

  lemma RefundOneHolds(cfg: Config, s: State, id: PreorderId, a: AccountId)
    requires id in s.preorders && FlagInv(s) && !s.lastDayOfSale
    ensures
      var s' := RefundOne(cfg, s, id).value;
      && FlagAt(s', a)
      && Held(s', a) == Held(s, a)
      && Live(s', a) + (if a == s.preorders[id].owner then 1 else 0) == Live(s, a)
  {
    assert FlagAt(s, a);
    hide FlagInv, LiveOf;
    LiveOfRemove(s.preorders, id, a);
  }

  lemma SettleOneHolds(cfg: Config, s: State, overlord: AccountId, id: PreorderId, host: Host, a: AccountId)
    requires WorldInv(cfg, s) && FlagInv(s) && !s.lastDayOfSale && SettleOne(cfg, s, overlord, id, host).Ok?
    ensures
      var s' := SettleOne(cfg, s, overlord, id, host).value;
      && FlagAt(s', a)
      && Held(s', a) + Live(s', a) == Held(s, a) + Live(s, a)
  {
    SettleOneIsAMint(cfg, s, overlord, id, host);
    RefundOneHolds(cfg, s, id, a);
    ReleaseKeeps(cfg, s, id);
    hide WorldInv, MintOriginOfShell, SettleOne, FlagInv, LiveOf;
    var order := PreorderMint(cfg, overlord, s.preorders[id]);
    MintHolds(cfg, Release(cfg, s, id), order, host, a);
  }

  lemma {:induction false} RefundAllHolds(cfg: Config, s: State, ids: seq<PreorderId>, a: AccountId)
    requires RefundAll(cfg, s, ids).Ok? && FlagInv(s) && !s.lastDayOfSale
    ensures
      var s' := RefundAll(cfg, s, ids).value;
      FlagInv(s') && Held(s', a) == Held(s, a) && Live(s', a) <= Live(s, a)
    decreases |ids|
  {
    if ids != [] {
      var s1 := RefundOne(cfg, s, ids[0]).value;
      forall b ensures FlagAt(s1, b) { RefundOneHolds(cfg, s, ids[0], b); }
      RefundOneHolds(cfg, s, ids[0], a);
      hide FlagAt, Held, Live;
      RefundAllHolds(cfg, s1, ids[1..], a);
    }
  }

  lemma {:induction false} SettleAllHolds(cfg: Config, s: State, overlord: AccountId, ids: seq<PreorderId>, host: Host,
                                          a: AccountId)
    requires WorldInv(cfg, s) && SettleAll(cfg, s, overlord, ids, host).Ok? && FlagInv(s) && !s.lastDayOfSale
    ensures
      var s' := SettleAll(cfg, s, overlord, ids, host).value;
      FlagInv(s') && Held(s', a) + Live(s', a) == Held(s, a) + Live(s, a)
    decreases |ids|
  {
    hide WorldInv, SettleOne, FlagAt, Held, Live;
    if ids != [] {
      var s1 := SettleOne(cfg, s, overlord, ids[0], host).value;
      forall b ensures FlagAt(s1, b) { SettleOneHolds(cfg, s, overlord, ids[0], host, b); }
      SettleOneHolds(cfg, s, overlord, ids[0], host, a);
      SettleOneKeeps(cfg, s, overlord, ids[0], host);
      SettleAllHolds(cfg, s1, overlord, ids[1..], host, a);
    }
  }

  // ----- Steps -----

  function GiftTo(act: Action, a: AccountId): nat {
    if act.CallMintGift? && act.owner == a then 1 else 0
  }

  lemma SamePreordersHold(s: State, s': State, a: AccountId)
    requires SamePreorders(s, s') && FlagAt(s, a)
    ensures FlagAt(s', a) && Live(s', a) == Live(s, a)
  {
  }

  lemma NamingHolds(cfg: Config, s: State, act: Action, a: AccountId)
    requires cfg.Valid() && WorldInv(cfg, s) && Admissible(s, act) && Step(cfg, s, act).Ok?
    requires act.CallSetOriginOfShellCollectionId?
    ensures Held(Step(cfg, s, act).value, a) == Held(s, a)
  {
    UnnamedHoldsNothing(cfg, s, act.collection, a);
    hide WorldInv, Step, Nfts.Uniques.OwnedInCollection;
    NamingCall(cfg, s, act);
  }

  lemma UnnamedHoldsNothing(cfg: Config, s: State, c: CollectionId, a: AccountId)
    requires WorldInv(cfg, s)
    ensures !IsPhala(s, c) ==> s.uniques.OwnedInCollection(c, a) == {}
  {
    assert CollectionsInv(s);
    hide WorldInv;
  }

  /** NFTs change hands only in a few calls. */
  lemma NftStepHolds(cfg: Config, s: State, act: Action, a: AccountId)
    requires cfg.Valid() && WorldInv(cfg, s) && Admissible(s, act) && Step(cfg, s, act).Ok? && !TouchesPreorders(act)
    requires !s.lastDayOfSale
    ensures
      var s' := Step(cfg, s, act).value;
      if IsMint(act) && a == OrderOwner(act) then
        Held(s', a) == Held(s, a) + 1 && (GiftTo(act, a) == 1 || Held(s, a) == 0)
      else Held(s', a) <= Held(s, a)
  {
    hide WorldInv, Step, Admissible, MintOriginOfShell, MintSpirit, HatchOriginOfShell, Held;
    if IsMint(act) {
      MintCall(cfg, s, act);
      MintHolds(cfg, s, OrderOf(cfg, s, act), act.host, a);
    } else if act.CallClaimSpirit? || act.CallRedeemSpirit? {
      SpiritCall(cfg, s, act);
      MintSpiritHolds(cfg, s, act.sender, act.host, a);
    } else if act.CallHatch? {
      IncubationCall(cfg, s, act);
      HatchHolds(cfg, s, act.sender, act.nft, act.host, a);
    } else if act.CallSetOriginOfShellCollectionId? {
      NamingHolds(cfg, s, act, a);
    } else {
      StepUntouched(cfg, s, act);
      SameNftsHold(s, Step(cfg, s, act).value, a);
    }
  }

  lemma SameNftsHold(s: State, s': State, a: AccountId)
    requires s'.uniques == s.uniques && s'.originCollection == s.originCollection
    ensures Held(s', a) == Held(s, a)
  {
  }

  function OrderOwner(act: Action): AccountId
    requires IsMint(act)
  {
    if act.CallMintGift? then act.owner else act.sender
  }

  /** One call of an account's run before the last day of sale. */
  lemma StepHolds(cfg: Config, s: State, act: Action, a: AccountId)
    requires cfg.Valid() && WorldInv(cfg, s) && Admissible(s, act) && Step(cfg, s, act).Ok?
    requires FlagInv(s) && !s.lastDayOfSale
    ensures
      var s' := Step(cfg, s, act).value;
      && FlagAt(s', a)
      && (Held(s', a) + Live(s', a) <= 2 || Held(s', a) + Live(s', a) <= Held(s, a) + Live(s, a) + GiftTo(act, a))
  {
    FlagOf(s, a);
    AtMostOneLive(s, a);
    if !TouchesPreorders(act) {
      StepUntouched(cfg, s, act);
      assert SamePreorders(s, Step(cfg, s, act).value);
      hide *;
      NftStepHolds(cfg, s, act, a);
      SamePreordersHold(s, Step(cfg, s, act).value, a);
    } else {
      hide WorldInv, Step, FlagInv, Admissible, SettleAll, RefundAll, PreorderOriginOfShell, Held, Live, FlagAt;
      if act.CallPreorder? {
        MarketCall(cfg, s, act);
        PreorderHolds(cfg, s, act.sender, act.race, act.career, a);
      } else if act.CallMintChosen? {
        BatchCall(cfg, s, act);
        SettleAllHolds(cfg, s, act.sender, Chunk(cfg, act.ids), act.host, a);
        FlagOf(Step(cfg, s, act).value, a);
      } else {
        BatchCall(cfg, s, act);
        RefundAllHolds(cfg, s, Chunk(cfg, act.ids), a);
        FlagOf(Step(cfg, s, act).value, a);
      }
    }
  }

  lemma AtMostOneLive(s: State, a: AccountId)
    requires FlagAt(s, a)
    ensures Live(s, a) <= 1 && (a in s.ownerHasPreorder <==> Live(s, a) == 1)
  {
  }

  lemma FlagOf(s: State, a: AccountId)
    requires FlagInv(s)
    ensures FlagAt(s, a)
  {
  }

  // ----- Over runs -----

  /** The last day of sale was not declared at any point of the run. */
  predicate Early(cfg: Config, s: State, acts: seq<Action>)
    requires cfg.Valid()
  {
    !Run(cfg, s, acts).lastDayOfSale && (acts == [] || Early(cfg, s, acts[..|acts| - 1]))
  }

  function Gifts(cfg: Config, s: State, acts: seq<Action>, a: AccountId): nat
    requires cfg.Valid()
  {
    if acts == [] then 0
    else
      var before, act := Run(cfg, s, acts[..|acts| - 1]), acts[|acts| - 1];
      Gifts(cfg, s, acts[..|acts| - 1], a) + if Step(cfg, before, act).Ok? then GiftTo(act, a) else 0
  }

  lemma {:induction false} EarlyFlags(cfg: Config, balances: map<AccountId, Balance>, acts: seq<Action>)
    requires cfg.Valid() && AdmissibleRun(cfg, Genesis(balances), acts) && Early(cfg, Genesis(balances), acts)
    ensures FlagInv(Run(cfg, Genesis(balances), acts))
    decreases |acts|
  {
    var g := Genesis(balances);
    if acts == [] {
      forall a ensures FlagAt(g, a) { assert LiveOf(g.preorders, a) == {}; }
    } else {
      var before, act := Run(cfg, g, acts[..|acts| - 1]), acts[|acts| - 1];
      EarlyFlags(cfg, balances, acts[..|acts| - 1]);
      GenesisInv(cfg, balances);
      hide FlagAt, WorldInv, Step, Genesis;
      RunKeeps(cfg, g, acts[..|acts| - 1]);
      if Step(cfg, before, act).Ok? {
        forall a ensures FlagAt(Step(cfg, before, act).value, a) { StepHolds(cfg, before, act, a); }
      }
    }
  }

  /**
   While the last day of sale has not come: an account's flag is set exactly when it has one live preorder,
   nobody has two, and live Origin of Shells and live preorders together are at most two more than the gifts.
   */
  lemma {:induction false} EarlyHoldings(cfg: Config, balances: map<AccountId, Balance>, acts: seq<Action>,
                                         a: AccountId)
    requires cfg.Valid() && AdmissibleRun(cfg, Genesis(balances), acts) && Early(cfg, Genesis(balances), acts)
    ensures
      var s := Run(cfg, Genesis(balances), acts);
      && Live(s, a) <= 1
      && (a in s.ownerHasPreorder <==> Live(s, a) == 1)
      && Held(s, a) + Live(s, a) <= 2 + Gifts(cfg, Genesis(balances), acts, a)
    decreases |acts|
  {
    var g := Genesis(balances);
    EarlyFlags(cfg, balances, acts);
    FlagOf(Run(cfg, g, acts), a);
    AtMostOneLive(Run(cfg, g, acts), a);
    if acts == [] {
      assert Held(g, a) == 0;
    } else {
      var before, act := Run(cfg, g, acts[..|acts| - 1]), acts[|acts| - 1];
      EarlyHoldings(cfg, balances, acts[..|acts| - 1], a);
      EarlyFlags(cfg, balances, acts[..|acts| - 1]);
      GenesisInv(cfg, balances);
      hide FlagInv, FlagAt, WorldInv, Step, Genesis, Held, Live;
      RunKeeps(cfg, g, acts[..|acts| - 1]);
      if Step(cfg, before, act).Ok? {
        StepHolds(cfg, before, act, a);
      }
    }
  }

  // ----- Spirits -----

  predicate SpiritError(error: Error) {
    error == MustOwnSpiritToPurchase || error == SpiritCollectionNotSet
  }

  /** Settling a live preorder never fails for want of a Spirit. */
  lemma SettlementHasSpirit(cfg: Config, s: State, overlord: AccountId, id: PreorderId, host: Host)
    requires WorldInv(cfg, s) && id in s.preorders
    ensures SettleOne(cfg, s, overlord, id, host).Err? ==> !SpiritError(SettleOne(cfg, s, overlord, id, host).error)
  {
    assert s.OwnsSpirit(s.preorders[id].owner);
    hide WorldInv, MintOriginOfShell, SpiritError;
    MintMissesSpirit(cfg, Release(cfg, s, id), PreorderMint(cfg, overlord, s.preorders[id]), host);
  }

  lemma MintMissesSpirit(cfg: Config, s: State, order: MintOrder, host: Host)
    requires s.OwnsSpirit(order.owner)
    ensures MintOriginOfShell(cfg, s, order, host).Err? ==> !SpiritError(MintOriginOfShell(cfg, s, order, host).error)
  {
    hide SpiritError, MintChecks, Ledger.Transfer, MintAndCount;
    ChecksMissSpirit(s, order);
    if MintChecks(s, order).Ok? &&
       s.ledger.Transfer(order.owner, order.overlord, order.price, cfg.existentialDeposit).Ok?
    {
      var paid := s.ledger.Transfer(order.owner, order.overlord, order.price, cfg.existentialDeposit).value;
      MintAndCountErrors(cfg, s.(ledger := paid), MintChecks(s, order).value, order, host);
    }
    TransferErrors(s.ledger, order.owner, order.overlord, order.price, cfg.existentialDeposit);
  }

  lemma ChecksMissSpirit(s: State, order: MintOrder)
    requires s.OwnsSpirit(order.owner)
    ensures MintChecks(s, order).Err? ==> !SpiritError(MintChecks(s, order).error)
  {
    hide HasRaceTypeLeft;
    assert HasRaceTypeLeft(s, order.traits.rarity, order.traits.race, order.saleType).Err? ==>
        !SpiritError(HasRaceTypeLeft(s, order.traits.rarity, order.traits.race, order.saleType).error) by {
      RaceErrors(s, order.traits.rarity, order.traits.race, order.saleType);
    }
  }

  lemma RaceErrors(s: State, rarity: RarityType, race: RaceType, saleType: NftSaleType)
    ensures HasRaceTypeLeft(s, rarity, race, saleType).Err? ==>
            !SpiritError(HasRaceTypeLeft(s, rarity, race, saleType).error)
  {
  }

  lemma TransferErrors(l: Ledger, from: AccountId, to: AccountId, value: Balance, existentialDeposit: Balance)
    ensures l.Transfer(from, to, value, existentialDeposit).Err? ==>
      !SpiritError(l.Transfer(from, to, value, existentialDeposit).error)
  {
  }

  lemma MintAndCountErrors(cfg: Config, s: State, origin: CollectionId, order: MintOrder, host: Host)
    requires (order.traits.rarity, order.traits.race) in s.inventory
    requires s.inventory[(order.traits.rarity, order.traits.race)].Pot(order.saleType) > 0
    ensures MintAndCount(cfg, s, origin, order, host).Err? ==>
            !SpiritError(MintAndCount(cfg, s, origin, order, host).error)
  {
    hide KeysFit, Drawn;
  }
}
