/** What every reachable storage satisfies: escrow, collections, Spirits, traits and lineage. */
module Invariants {
  import opened Primitives
  import opened Codec
  import opened Sums
  import opened Currency
  import opened Nfts
  import opened World

  // ----- The invariants -----

  ghost function LiveOf(preorders: map<PreorderId, PreorderInfo>, a: AccountId): set<PreorderId> {
    set id | id in preorders && preorders[id].owner == a
  }

  /** Every account's reserve is the Prime price times the number of its live preorders. */
  ghost predicate EscrowInv(cfg: Config, s: State) {
    && s.preorderIndex <= U32_MAX
    && (forall id :: id in s.preorders ==> id < s.preorderIndex)
    && (forall a :: s.ledger.Reserved(a) == cfg.primePrice * |LiveOf(s.preorders, a)|)
  }

  predicate IsPhala(s: State, c: CollectionId) {
    Some(c) == s.spiritCollection || Some(c) == s.originCollection || Some(c) == s.shellCollection
  }

  ghost predicate CollectionsInv(s: State) {
    && (s.spiritCollection.Some? ==>
          s.spiritCollection != s.originCollection && s.spiritCollection != s.shellCollection)
    && (s.originCollection.Some? ==> s.originCollection != s.shellCollection)
    && (forall c :: c in s.uniques.nextNftId ==> IsPhala(s, c) && s.uniques.NextNftId(c) <= U32_MAX)
    && (forall n :: n in s.uniques.owner ==> IsPhala(s, n.0) && n.1 < s.uniques.NextNftId(n.0))
  }

  /** Spirits and Origin of Shells cannot be moved by their owners. */
  ghost predicate FrozenInv(s: State) {
    forall n :: n in s.uniques.owner && (Some(n.0) == s.spiritCollection || Some(n.0) == s.originCollection)
      ==> n in s.uniques.frozen
  }

  /** Nobody has two Spirits; owners of live preorders and of live Origin of Shells have one. */
  ghost predicate SpiritInv(s: State) {
    && (s.spiritCollection.Some? ==>
          forall a :: |s.uniques.OwnedInCollection(s.spiritCollection.value, a)| <= 1)
    && (forall id :: id in s.preorders ==> s.OwnsSpirit(s.preorders[id].owner))
    && (forall n :: n in s.uniques.owner && Some(n.0) == s.originCollection ==> s.OwnsSpirit(s.uniques.owner[n]))
  }

  /** Every live Origin of Shell and every Shell carries four attributes that decode. */
  ghost predicate TraitsInv(s: State) {
    forall n :: n in s.uniques.owner && (Some(n.0) == s.originCollection || Some(n.0) == s.shellCollection)
      ==> TraitsOf(s.uniques, n).Some?
  }

  /** What the inventory and the career table count. */
  datatype Kind = OfRace(rarity: RarityType, race: RaceType) | OfCareer(career: CareerType) {
    predicate Fits(t: Traits) {
      match this
      case OfRace(rarity, race) => t.rarity == rarity && t.race == race
      case OfCareer(career) => t.career == career
    }
  }

  function Count(s: State, kind: Kind): nat {
    match kind
    case OfRace(rarity, race) => if (rarity, race) in s.inventory then s.inventory[(rarity, race)].raceCount else 0
    case OfCareer(career) => Get(s.careerTypeCount, career)
  }

  /** The live NFTs of a collection whose traits are of the given kind. */
  ghost function LiveIn(u: Uniques, c: Option<CollectionId>, kind: Kind): set<Nft> {
    set n | n in u.owner && Some(n.0) == c && TraitsOf(u, n).Some? && kind.Fits(TraitsOf(u, n).value)
  }

  function RaceTotal(s: State, rarity: RarityType): nat {
    Count(s, OfRace(rarity, Cyborg)) + Count(s, OfRace(rarity, AISpectre)) +
    Count(s, OfRace(rarity, XGene)) + Count(s, OfRace(rarity, Pandroid))
  }

  function RarityTotal(s: State): nat {
    RaceTotal(s, Prime) + RaceTotal(s, Magic) + RaceTotal(s, Legendary)
  }

  function CareerTotal(s: State): nat {
    Count(s, OfCareer(HackerWizard)) + Count(s, OfCareer(HardwareDruid)) + Count(s, OfCareer(RoboWarrior)) +
    Count(s, OfCareer(TradeNegotiator)) + Count(s, OfCareer(Web3Monk))
  }

  function OriginsMinted(s: State): nat {
    if s.originCollection.Some? then s.uniques.NextNftId(s.originCollection.value) else 0
  }

  /**
   Each counter is the live Origin of Shells plus the awakened Shells of that kind; both tables add up to the mints.
   */
  ghost predicate LineageInv(s: State) {
    && (forall kind: Kind ::
          Count(s, kind) ==
            |LiveIn(s.uniques, s.originCollection, kind)| + |LiveIn(s.uniques, s.shellCollection, kind)|)
    && RarityTotal(s) == OriginsMinted(s)
    && CareerTotal(s) == OriginsMinted(s)
  }

  /** The inventory is empty until it is set; then every entry is there. */
  ghost predicate InventoryInv(s: State) {
    if s.isInventorySet then forall rarity, race :: (rarity, race) in s.inventory
    else s.inventory == map[]
  }

  ghost predicate WorldInv(cfg: Config, s: State) {
    && EscrowInv(cfg, s)
    && CollectionsInv(s)
    && FrozenInv(s)
    && SpiritInv(s)
    && TraitsInv(s)
    && InventoryInv(s)
    && LineageInv(s)
  }

  // ----- What a mint does to the NFT ledger -----

  ghost predicate SameAttributes(u: Uniques, u': Uniques, n: Nft) {
    forall key :: u'.Attribute(n, key) == u.Attribute(n, key)
  }

  lemma SameTraits(u: Uniques, u': Uniques, n: Nft)
    requires SameAttributes(u, u', n)
    ensures TraitsOf(u', n) == TraitsOf(u, n)
  {
    assert u'.Attribute(n, RarityKey) == u.Attribute(n, RarityKey);
    assert u'.Attribute(n, RaceKey) == u.Attribute(n, RaceKey);
    assert u'.Attribute(n, CareerKey) == u.Attribute(n, CareerKey);
    assert u'.Attribute(n, GenerationKey) == u.Attribute(n, GenerationKey);
  }

  /** Every NFT but those in `changed` carries the same traits. */
  ghost predicate SameTraitsBut(u: Uniques, u': Uniques, changed: set<Nft>) {
    forall n :: n !in changed ==> TraitsOf(u', n) == TraitsOf(u, n)
  }

  lemma SameTraitsButIfSameAttributes(u: Uniques, u': Uniques, changed: set<Nft>)
    requires forall n :: n !in changed ==> SameAttributes(u, u', n)
    ensures SameTraitsBut(u, u', changed)
  {
    forall n | n !in changed
      ensures TraitsOf(u', n) == TraitsOf(u, n)
    {
      SameTraits(u, u', n);
    }
  }

  /** `u'` is `u` with the next id of collection `c` minted to `a`. */
  ghost predicate Minted(u: Uniques, u': Uniques, c: CollectionId, a: AccountId) {
    && u.NextNftId(c) < U32_MAX
    && u'.nextNftId == u.nextNftId[c := u.NextNftId(c) + 1]
    && u'.owner == u.owner[u.NextNft(c) := a]
    && u'.frozen == u.frozen + {u.NextNft(c)}
    && SameTraitsBut(u, u', {u.NextNft(c)})
  }

  lemma SetAttributesEffect(cfg: Config, s: State, u: Uniques, host: Host, n: Nft, t: Traits)
    requires SetNftAttributes(cfg, s.overlord, u, host, n, t).Ok?
    ensures
      var u' := SetNftAttributes(cfg, s.overlord, u, host, n, t).value;
      && u' == u.(attribute := u'.attribute)
      && TraitsOf(u', n) == Some(t)
      && forall m :: m != n ==> SameAttributes(u, u', m)
  {
    RoundTrip(t, []);
    assert EncodeRarity(t.rarity) + [] == EncodeRarity(t.rarity);
    assert EncodeRace(t.race) + [] == EncodeRace(t.race);
    assert EncodeCareer(t.career) + [] == EncodeCareer(t.career);
    assert EncodeGeneration(t.generation) + [] == EncodeGeneration(t.generation);
  }

  lemma MintSpiritEffect(s: State, sender: AccountId, host: Host)
    requires MintSpirit(s, sender, host).Ok?
    ensures s.spiritCollection.Some?
    ensures
      var c := s.spiritCollection.value;
      var s' := MintSpirit(s, sender, host).value;
      && s' == s.(uniques := s'.uniques)
      && !s.uniques.Owns(sender, c)
      && Minted(s.uniques, s'.uniques, c, sender)
  {
    var s' := MintSpirit(s, sender, host).value;
    SameTraitsButIfSameAttributes(s.uniques, s'.uniques, {s.uniques.NextNft(s.spiritCollection.value)});
  }

  lemma MintLabelledFrozenEffect(cfg: Config, s: State, c: CollectionId, owner: AccountId, t: Traits, host: Host)
    requires MintLabelledFrozen(cfg, s.overlord, s.uniques, c, owner, t, host).Ok?
    ensures
      var u' := MintLabelledFrozen(cfg, s.overlord, s.uniques, c, owner, t, host).value;
      && Minted(s.uniques, u', c, owner)
      && TraitsOf(u', s.uniques.NextNft(c)) == Some(t)
  {
    var n := s.uniques.NextNft(c);
    var minted := s.uniques.Mint(host, c, owner).value;
    SetAttributesEffect(cfg, s, minted, host, n, t);
    var labelled := SetNftAttributes(cfg, s.overlord, minted, host, n, t).value;
    var frozen := labelled.Freeze(host, n).value;
    SameTraits(labelled, frozen, n);
    forall m | m != n
      ensures SameAttributes(s.uniques, frozen, m)
    {
      assert SameAttributes(minted, labelled, m);
    }
    SameTraitsButIfSameAttributes(s.uniques, frozen, {n});
  }

  lemma MintOriginEffect(cfg: Config, s: State, order: MintOrder, host: Host)
    requires MintOriginOfShell(cfg, s, order, host).Ok?
    ensures s.originCollection.Some? && s.OwnsSpirit(order.owner)
    ensures (order.traits.rarity, order.traits.race) in s.inventory
    ensures s.inventory[(order.traits.rarity, order.traits.race)].Pot(order.saleType) > 0
    ensures s.ledger.Transfer(order.owner, order.overlord, order.price, cfg.existentialDeposit).Ok?
    ensures order.checkOwned ==> !s.uniques.Owns(order.owner, s.originCollection.value)
    ensures
      var c := s.originCollection.value;
      var key := (order.traits.rarity, order.traits.race);
      var s' := MintOriginOfShell(cfg, s, order, host).value;
      && s' == s.(ledger := s.ledger.Transfer(order.owner, order.overlord, order.price, cfg.existentialDeposit).value,
                  uniques := s'.uniques,
                  inventory := s.inventory[key := Drawn(s.inventory[key], order.saleType)],
                  careerTypeCount :=
                    s.careerTypeCount[order.traits.career := Get(s.careerTypeCount, order.traits.career) + 1])
      && Minted(s.uniques, s'.uniques, c, order.owner)
      && TraitsOf(s'.uniques, s.uniques.NextNft(c)) == Some(order.traits)
  {
    MintChecksEffect(s, order);
    var paid := s.ledger.Transfer(order.owner, order.overlord, order.price, cfg.existentialDeposit).value;
    hide MintChecks, MintAndCount, Minted, TraitsOf, Drawn, Ledger.Transfer;
    MintAndCountEffect(cfg, s.(ledger := paid), s.originCollection.value, order, host);
  }

  lemma MintAndCountEffect(cfg: Config, s: State, c: CollectionId, order: MintOrder, host: Host)
    requires (order.traits.rarity, order.traits.race) in s.inventory
    requires s.inventory[(order.traits.rarity, order.traits.race)].Pot(order.saleType) > 0
    requires MintAndCount(cfg, s, c, order, host).Ok?
    ensures
      var key := (order.traits.rarity, order.traits.race);
      var s' := MintAndCount(cfg, s, c, order, host).value;
      && s' == s.(uniques := s'.uniques,
                  inventory := s.inventory[key := Drawn(s.inventory[key], order.saleType)],
                  careerTypeCount :=
                    s.careerTypeCount[order.traits.career := Get(s.careerTypeCount, order.traits.career) + 1])
      && Minted(s.uniques, s'.uniques, c, order.owner)
      && TraitsOf(s'.uniques, s.uniques.NextNft(c)) == Some(order.traits)
  {
    MintLabelledFrozenEffect(cfg, s, c, order.owner, order.traits, host);
    hide MintLabelledFrozen, Minted, TraitsOf, Drawn;
  }

  lemma MintChecksEffect(s: State, order: MintOrder)
    requires MintChecks(s, order).Ok?
    ensures s.originCollection == Some(MintChecks(s, order).value) && s.OwnsSpirit(order.owner)
    ensures order.checkOwned ==> !s.uniques.Owns(order.owner, s.originCollection.value)
  {
    hide Nfts.Uniques.Owns, HasRaceTypeLeft;
  }

  lemma ReadTraitsEffect(u: Uniques, n: Nft)
    ensures ReadTraits(u, n).Ok? <==> TraitsOf(u, n).Some?
    ensures ReadTraits(u, n).Ok? ==> ReadTraits(u, n).value == TraitsOf(u, n).value
  {
  }

  /** `u'` is `u` with Origin of Shell `n` replaced by the next Shell, same owner. */
  ghost predicate Awakened(u: Uniques, u': Uniques, n: Nft, shell: CollectionId)
    requires n in u.owner
  {
    var m := u.NextNft(shell);
    && m.1 < U32_MAX
    && u'.nextNftId == u.nextNftId[shell := m.1 + 1]
    && u'.owner == (u.owner - {n})[m := u.owner[n]]
    && u'.frozen == u.frozen - {n}
    && SameTraitsBut(u, u', {n, m})
  }

  lemma ClearTraitsEffect(u: Uniques, host: Host, n: Nft)
    requires ClearTraits(u, host, n).Ok?
    ensures
      var u' := ClearTraits(u, host, n).value;
      && u' == u.(attribute := u'.attribute)
      && u'.Attribute(n, RaceKey) == None
      && forall m :: m != n ==> SameAttributes(u, u', m)
  {
  }

  lemma AwakenEffect(cfg: Config, s: State, n: Nft, owner: AccountId, shell: CollectionId, t: Traits, host: Host)
    requires Awaken(cfg, s.overlord, s.uniques, n, owner, shell, t, host).Ok?
    requires s.uniques.NextNft(shell) != n
    ensures n in s.uniques.owner && s.uniques.owner[n] == owner
    ensures
      var u' := Awaken(cfg, s.overlord, s.uniques, n, owner, shell, t, host).value;
      && Awakened(s.uniques, u', n, shell)
      && TraitsOf(u', s.uniques.NextNft(shell)) == Some(t)
      && TraitsOf(u', n) == None
  {
    var u, m := s.uniques, s.uniques.NextNft(shell);
    var burnt := u.Burn(host, owner, n).value;
    ClearTraitsEffect(burnt, host, n);
    var cleared := ClearTraits(burnt, host, n).value;
    var minted := cleared.Mint(host, shell, owner).value;
    SetAttributesEffect(cfg, s, minted, host, m, t);
    var u' := Awaken(cfg, s.overlord, s.uniques, n, owner, shell, t, host).value;
    assert SameAttributes(minted, u', n);
    assert u'.Attribute(n, RaceKey) == None;
    forall k | k !in {n, m}
      ensures SameAttributes(u, u', k)
    {
      assert SameAttributes(minted, u', k) && SameAttributes(burnt, cleared, k);
    }
    SameTraitsButIfSameAttributes(u, u', {n, m});
  }

  /** Hatching turns an Origin of Shell past its hatch time into a Shell with its owner and its traits. */
  lemma HatchEffect(cfg: Config, s: State, sender: AccountId, n: Nft, host: Host)
    requires HatchOriginOfShell(cfg, s, sender, n, host).Ok?
    requires CollectionsInv(s)
    ensures n in s.uniques.owner && Some(n.0) == s.originCollection && s.shellCollection.Some?
    ensures n in s.hatchTimes && s.CanHatch(s.hatchTimes[n])
    ensures
      var s' := HatchOriginOfShell(cfg, s, sender, n, host).value;
      var m := s.uniques.NextNft(s.shellCollection.value);
      && s' == s.(uniques := s'.uniques)
      && m !in s.uniques.owner
      && Awakened(s.uniques, s'.uniques, n, m.0)
      && TraitsOf(s.uniques, n).Some?
      && TraitsOf(s'.uniques, m) == TraitsOf(s.uniques, n)
      && TraitsOf(s'.uniques, n) == None
  {
    ReadTraitsEffect(s.uniques, n);
    var t := ReadTraits(s.uniques, n).value;
    AwakenEffect(cfg, s, n, s.uniques.owner[n], s.shellCollection.value, t, host);
  }
}
