/** Every call keeps the invariants, so every run does. */
module Preservation {
  import opened Primitives
  import opened Nfts
  import opened World
  import opened Invariants
  import opened Frames

  // ----- Sets of NFTs across a mint -----

  lemma OwnedSetAfterMint(u: Uniques, u': Uniques, c: CollectionId, a: AccountId, c': CollectionId, b: AccountId)
    requires u'.owner == u.owner[u.NextNft(c) := a] && u.NextNft(c) !in u.owner
    ensures u'.OwnedInCollection(c', b)
         == u.OwnedInCollection(c', b) + if c' == c && b == a then {u.NextNft(c)} else {}
    ensures u.NextNft(c) !in u.OwnedInCollection(c', b)
  {
  }

  lemma OwnedAfterMint(u: Uniques, u': Uniques, c: CollectionId, a: AccountId, c': CollectionId, b: AccountId)
    requires Minted(u, u', c, a) && u.NextNft(c) !in u.owner
    ensures u.Owns(b, c') ==> u'.Owns(b, c')
    ensures |u'.OwnedInCollection(c', b)| == |u.OwnedInCollection(c', b)| + if c' == c && b == a then 1 else 0
  {
    OwnedSetAfterMint(u, u', c, a, c', b);
    hide Minted, Uniques.OwnedInCollection;
  }

  lemma LiveAfterMint(u: Uniques, u': Uniques, c: CollectionId, a: AccountId, target: Option<CollectionId>, kind: Kind)
    requires Minted(u, u', c, a) && u.NextNft(c) !in u.owner
    ensures
      var n := u.NextNft(c);
      |LiveIn(u', target, kind)| == |LiveIn(u, target, kind)| +
        if Some(c) == target && TraitsOf(u', n).Some? && kind.Fits(TraitsOf(u', n).value) then 1 else 0
  {
    hide TraitsOf;
    var n := u.NextNft(c);
    var added := if Some(c) == target && TraitsOf(u', n).Some? && kind.Fits(TraitsOf(u', n).value) then {n} else {};
    var before, after := LiveIn(u, target, kind), LiveIn(u', target, kind);
    forall k
      ensures k in after <==> k in before + added
    {
      if k != n {
        assert TraitsOf(u', k) == TraitsOf(u, k);
      }
    }
    assert after == before + added && n !in before;
  }

  // ----- Invariants on the NFT ledger across a mint -----

  /** Nothing but balances, NFTs, inventory and careers differs. */
  ghost predicate SameFrame(s: State, s': State) {
    s' == s.(ledger := s'.ledger, uniques := s'.uniques, inventory := s'.inventory,
             careerTypeCount := s'.careerTypeCount)
  }

  lemma MintKeepsCollections(s: State, s': State, c: CollectionId, a: AccountId)
    requires CollectionsInv(s) && FrozenInv(s) && SameFrame(s, s') && IsPhala(s, c)
    requires Minted(s.uniques, s'.uniques, c, a)
    ensures CollectionsInv(s') && FrozenInv(s') && s.uniques.NextNft(c) !in s.uniques.owner
  {
    hide SameTraitsBut;
  }

  lemma MintKeepsSpirits(s: State, s': State, c: CollectionId, a: AccountId)
    requires CollectionsInv(s) && SpiritInv(s) && SameFrame(s, s')
    requires Minted(s.uniques, s'.uniques, c, a)
    requires Some(c) == s.spiritCollection ==> !s.uniques.Owns(a, c)
    requires Some(c) == s.originCollection ==> s.OwnsSpirit(a)
    ensures SpiritInv(s')
  {
    hide SameTraitsBut;
    assert s.uniques.NextNft(c) !in s.uniques.owner;
    forall b | s.spiritCollection.Some?
      ensures |s'.uniques.OwnedInCollection(s.spiritCollection.value, b)| <= 1
      ensures s.OwnsSpirit(b) ==> s'.OwnsSpirit(b)
    {
      OwnedAfterMint(s.uniques, s'.uniques, c, a, s.spiritCollection.value, b);
    }
  }

  lemma MintKeepsTraits(s: State, s': State, c: CollectionId, a: AccountId)
    requires TraitsInv(s) && SameFrame(s, s') && Minted(s.uniques, s'.uniques, c, a)
    requires Some(c) == s.originCollection || Some(c) == s.shellCollection ==>
      TraitsOf(s'.uniques, s.uniques.NextNft(c)).Some?
    ensures TraitsInv(s')
  {
    hide TraitsOf;
  }

  lemma TotalsAfterMint(s: State, s': State, t: Traits)
    requires forall kind: Kind :: Count(s', kind) == Count(s, kind) + if kind.Fits(t) then 1 else 0
    ensures RarityTotal(s') == RarityTotal(s) + 1 && CareerTotal(s') == CareerTotal(s) + 1
  {
    hide Count;
  }

  lemma TotalsUnchanged(s: State, s': State)
    requires forall kind: Kind :: Count(s', kind) == Count(s, kind)
    ensures RarityTotal(s') == RarityTotal(s) && CareerTotal(s') == CareerTotal(s)
  {
    hide Count;
  }

  /** A mint adds one to the counters of exactly the kinds that the new NFT fits. */
  lemma MintKeepsLineage(s: State, s': State, c: CollectionId, a: AccountId)
    requires CollectionsInv(s) && LineageInv(s) && SameFrame(s, s') && Minted(s.uniques, s'.uniques, c, a)
    requires s.uniques.NextNft(c) !in s.uniques.owner && IsPhala(s, c) && Some(c) != s.shellCollection
    requires
      var t := TraitsOf(s'.uniques, s.uniques.NextNft(c));
      && (Some(c) == s.originCollection ==> t.Some?)
      && forall kind: Kind :: Count(s', kind) == Count(s, kind) +
           if Some(c) == s.originCollection && kind.Fits(t.value) then 1 else 0
    ensures LineageInv(s')
  {
    hide TraitsOf, Count, LiveIn, SameTraitsBut, RarityTotal, CareerTotal;
    if Some(c) == s.originCollection {
      TotalsAfterMint(s, s', TraitsOf(s'.uniques, s.uniques.NextNft(c)).value);
    } else {
      TotalsUnchanged(s, s');
    }
    forall kind: Kind
      ensures Count(s', kind)
           == |LiveIn(s'.uniques, s'.originCollection, kind)| + |LiveIn(s'.uniques, s'.shellCollection, kind)|
    {
      LiveAfterMint(s.uniques, s'.uniques, c, a, s.originCollection, kind);
      LiveAfterMint(s.uniques, s'.uniques, c, a, s.shellCollection, kind);
    }
  }

  // ----- Minting a Spirit -----

  lemma MintSpiritKeeps(cfg: Config, s: State, sender: AccountId, host: Host)
    requires WorldInv(cfg, s) && MintSpirit(s, sender, host).Ok?
    ensures WorldInv(cfg, MintSpirit(s, sender, host).value)
  {
    hide MintSpirit, TraitsOf, SpiritInv, FrozenInv, TraitsInv, LineageInv, Minted;
    MintSpiritEffect(s, sender, host);
    var s' := MintSpirit(s, sender, host).value;
    var c := s.spiritCollection.value;
    MintKeepsCollections(s, s', c, sender);
    MintKeepsSpirits(s, s', c, sender);
    MintKeepsTraits(s, s', c, sender);
    MintKeepsLineage(s, s', c, sender);
  }

  // ----- Minting an Origin of Shell -----

  lemma MintOriginCounts(cfg: Config, s: State, order: MintOrder, host: Host, kind: Kind)
    requires MintOriginOfShell(cfg, s, order, host).Ok?
    ensures Count(MintOriginOfShell(cfg, s, order, host).value, kind)
         == Count(s, kind) + if kind.Fits(order.traits) then 1 else 0
  {
    hide TraitsOf, MintOriginOfShell, Minted;
    MintOriginEffect(cfg, s, order, host);
  }

  lemma MintOriginKeepsEscrowAndInventory(cfg: Config, s: State, order: MintOrder, host: Host)
    requires EscrowInv(cfg, s) && InventoryInv(s) && MintOriginOfShell(cfg, s, order, host).Ok?
    ensures EscrowInv(cfg, MintOriginOfShell(cfg, s, order, host).value)
    ensures InventoryInv(MintOriginOfShell(cfg, s, order, host).value)
  {
    hide MintOriginOfShell, TraitsOf, Minted;
    MintOriginEffect(cfg, s, order, host);
    assert forall a :: MintOriginOfShell(cfg, s, order, host).value.ledger.Reserved(a) == s.ledger.Reserved(a);
  }

  lemma MintOriginKeeps(cfg: Config, s: State, order: MintOrder, host: Host)
    requires WorldInv(cfg, s) && MintOriginOfShell(cfg, s, order, host).Ok?
    ensures WorldInv(cfg, MintOriginOfShell(cfg, s, order, host).value)
  {
    assert s.originCollection.Some? ==>
        s.originCollection != s.spiritCollection && s.originCollection != s.shellCollection;
    hide MintOriginOfShell, TraitsOf, CollectionsInv, SpiritInv, FrozenInv, TraitsInv, LineageInv, EscrowInv,
      InventoryInv, Minted, Count;
    MintOriginEffect(cfg, s, order, host);
    MintOriginKeepsEscrowAndInventory(cfg, s, order, host);
    var s' := MintOriginOfShell(cfg, s, order, host).value;
    var c := s.originCollection.value;
    MintKeepsCollections(s, s', c, order.owner);
    MintKeepsSpirits(s, s', c, order.owner);
    MintKeepsTraits(s, s', c, order.owner);
    forall kind: Kind
      ensures Count(s', kind) == Count(s, kind) + if kind.Fits(order.traits) then 1 else 0
    {
      MintOriginCounts(cfg, s, order, host, kind);
    }
    MintKeepsLineage(s, s', c, order.owner);
  }

  // ----- Calls that leave the NFTs and their counters alone -----

  ghost predicate SameNftStorage(s: State, s': State) {
    && s'.uniques == s.uniques && s'.inventory == s.inventory && s'.isInventorySet == s.isInventorySet
    && s'.careerTypeCount == s.careerTypeCount && s'.spiritCollection == s.spiritCollection
    && s'.originCollection == s.originCollection && s'.shellCollection == s.shellCollection
  }

  lemma SameCount(s: State, s': State, kind: Kind)
    requires s'.inventory == s.inventory && s'.careerTypeCount == s.careerTypeCount
    ensures Count(s', kind) == Count(s, kind)
  {
  }

  lemma SameNftStorageKeepsLineage(s: State, s': State)
    requires LineageInv(s) && SameNftStorage(s, s')
    ensures LineageInv(s')
  {
    hide LiveIn, RarityTotal, CareerTotal;
    forall kind: Kind ensures Count(s', kind) == Count(s, kind) {}
    TotalsUnchanged(s, s');
  }

  /** Only the escrow and the new preorders are left to check. */
  lemma SameNftStorageKeeps(cfg: Config, s: State, s': State)
    requires WorldInv(cfg, s) && SameNftStorage(s, s') && EscrowInv(cfg, s')
    requires forall id :: id in s'.preorders ==> s.OwnsSpirit(s'.preorders[id].owner)
    ensures WorldInv(cfg, s')
  {
    hide TraitsOf, LineageInv, EscrowInv;
    SameNftStorageKeepsLineage(s, s');
  }

  // ----- Escrow -----

  lemma LiveOfInsert(preorders: map<PreorderId, PreorderInfo>, id: PreorderId, p: PreorderInfo, a: AccountId)
    requires id !in preorders
    ensures |LiveOf(preorders[id := p], a)| == |LiveOf(preorders, a)| + if p.owner == a then 1 else 0
  {
    var before, after := LiveOf(preorders, a), LiveOf(preorders[id := p], a);
    assert id !in before;
    if p.owner == a {
      assert after == before + {id};
    } else {
      assert after == before;
    }
  }

  lemma LiveOfRemove(preorders: map<PreorderId, PreorderInfo>, id: PreorderId, a: AccountId)
    requires id in preorders
    ensures |LiveOf(preorders, a)| == |LiveOf(preorders - {id}, a)| + if preorders[id].owner == a then 1 else 0
  {
    var rest := preorders - {id};
    assert rest[id := preorders[id]] == preorders;
    LiveOfInsert(rest, id, preorders[id], a);
  }

  lemma TimesSuccessor(price: nat, n: nat)
    ensures price * (n + 1) == price * n + price
  {
  }

  /** Releasing a live preorder always finds the full price in the owner's reserve. */
  lemma ReleasePaysInFull(cfg: Config, s: State, id: PreorderId)
    requires EscrowInv(cfg, s) && id in s.preorders
    ensures
      var a := s.preorders[id].owner;
      && cfg.primePrice <= s.ledger.Reserved(a)
      && Release(cfg, s, id).ledger.Reserved(a) == s.ledger.Reserved(a) - cfg.primePrice
      && Release(cfg, s, id).ledger.Free(a) == s.ledger.Free(a) + cfg.primePrice
  {
    var a := s.preorders[id].owner;
    LiveOfRemove(s.preorders, id, a);
    TimesSuccessor(cfg.primePrice, |LiveOf(s.preorders - {id}, a)|);
  }

  lemma ReleaseKeepsEscrow(cfg: Config, s: State, id: PreorderId)
    requires EscrowInv(cfg, s) && id in s.preorders
    ensures EscrowInv(cfg, Release(cfg, s, id))
  {
    ReleasePaysInFull(cfg, s, id);
    var s' := Release(cfg, s, id);
    forall a
      ensures s'.ledger.Reserved(a) == cfg.primePrice * |LiveOf(s'.preorders, a)|
    {
      LiveOfRemove(s.preorders, id, a);
      TimesSuccessor(cfg.primePrice, |LiveOf(s'.preorders, a)|);
    }
  }

  lemma ReleaseKeeps(cfg: Config, s: State, id: PreorderId)
    requires WorldInv(cfg, s) && id in s.preorders
    ensures WorldInv(cfg, Release(cfg, s, id))
  {
    hide EscrowInv, CollectionsInv, FrozenInv, TraitsInv, InventoryInv, LineageInv;
    ReleaseKeepsEscrow(cfg, s, id);
    SameNftStorageKeeps(cfg, s, Release(cfg, s, id));
  }

  lemma PreorderKeepsEscrow(cfg: Config, s: State, sender: AccountId, race: RaceType, career: CareerType)
    requires EscrowInv(cfg, s) && PreorderOriginOfShell(cfg, s, sender, race, career).Ok?
    ensures EscrowInv(cfg, PreorderOriginOfShell(cfg, s, sender, race, career).value)
  {
    var s' := PreorderOriginOfShell(cfg, s, sender, race, career).value;
    var id := s.preorderIndex;
    forall a
      ensures s'.ledger.Reserved(a) == cfg.primePrice * |LiveOf(s'.preorders, a)|
    {
      LiveOfInsert(s.preorders, id, s'.preorders[id], a);
      TimesSuccessor(cfg.primePrice, |LiveOf(s.preorders, a)|);
    }
  }

  lemma PreorderKeeps(cfg: Config, s: State, sender: AccountId, race: RaceType, career: CareerType)
    requires WorldInv(cfg, s) && PreorderOriginOfShell(cfg, s, sender, race, career).Ok?
    ensures WorldInv(cfg, PreorderOriginOfShell(cfg, s, sender, race, career).value)
  {
    hide EscrowInv, CollectionsInv, FrozenInv, TraitsInv, InventoryInv, LineageInv;
    PreorderKeepsEscrow(cfg, s, sender, race, career);
    SameNftStorageKeeps(cfg, s, PreorderOriginOfShell(cfg, s, sender, race, career).value);
  }

  // ----- Batches -----

  lemma ClearFlagKeeps(cfg: Config, s: State, a: AccountId)
    requires WorldInv(cfg, s)
    ensures WorldInv(cfg, ClearFlag(s, a))
  {
    hide CollectionsInv, FrozenInv, TraitsInv, InventoryInv, LineageInv;
    SameNftStorageKeeps(cfg, s, ClearFlag(s, a));
  }

  lemma {:induction false} RefundAllKeeps(cfg: Config, s: State, ids: seq<PreorderId>)
    requires WorldInv(cfg, s) && RefundAll(cfg, s, ids).Ok?
    ensures WorldInv(cfg, RefundAll(cfg, s, ids).value)
    decreases |ids|
  {
    hide WorldInv;
    if ids != [] {
      var id := ids[0];
      ReleaseKeeps(cfg, s, id);
      ClearFlagKeeps(cfg, Release(cfg, s, id), s.preorders[id].owner);
      RefundAllKeeps(cfg, RefundOne(cfg, s, id).value, ids[1..]);
    }
  }

  lemma SettleOneKeeps(cfg: Config, s: State, overlord: AccountId, id: PreorderId, host: Host)
    requires WorldInv(cfg, s) && SettleOne(cfg, s, overlord, id, host).Ok?
    ensures WorldInv(cfg, SettleOne(cfg, s, overlord, id, host).value)
  {
    hide WorldInv, MintOriginOfShell;
    ReleaseKeeps(cfg, s, id);
    var p := s.preorders[id];
    MintOriginKeeps(cfg, Release(cfg, s, id), PreorderMint(cfg, overlord, p), host);
    ClearFlagKeeps(cfg, MintOriginOfShell(cfg, Release(cfg, s, id), PreorderMint(cfg, overlord, p), host).value,
      p.owner);
  }

  lemma {:induction false} SettleAllKeeps(cfg: Config, s: State, overlord: AccountId, ids: seq<PreorderId>, host: Host)
    requires WorldInv(cfg, s) && SettleAll(cfg, s, overlord, ids, host).Ok?
    ensures WorldInv(cfg, SettleAll(cfg, s, overlord, ids, host).value)
    decreases |ids|
  {
    hide WorldInv, SettleOne;
    if ids != [] {
      SettleOneKeeps(cfg, s, overlord, ids[0], host);
      SettleAllKeeps(cfg, SettleOne(cfg, s, overlord, ids[0], host).value, overlord, ids[1..], host);
    }
  }

  // ----- Hatching -----

  lemma HatchKeepsCollections(s: State, s': State, n: Nft, shell: CollectionId)
    requires CollectionsInv(s) && SameFrame(s, s')
    requires n in s.uniques.owner && Some(n.0) == s.originCollection && Some(shell) == s.shellCollection
    requires Awakened(s.uniques, s'.uniques, n, shell)
    ensures CollectionsInv(s')
  {
    hide SameTraitsBut;
  }

  lemma HatchKeepsFrozen(s: State, s': State, n: Nft, shell: CollectionId)
    requires CollectionsInv(s) && FrozenInv(s) && SameFrame(s, s')
    requires n in s.uniques.owner && Some(n.0) == s.originCollection && Some(shell) == s.shellCollection
    requires Awakened(s.uniques, s'.uniques, n, shell)
    ensures FrozenInv(s')
  {
    hide SameTraitsBut;
  }

  lemma HatchKeepsSpirits(s: State, s': State, n: Nft, shell: CollectionId)
    requires CollectionsInv(s) && SpiritInv(s) && SameFrame(s, s')
    requires n in s.uniques.owner && Some(n.0) == s.originCollection && Some(shell) == s.shellCollection
    requires Awakened(s.uniques, s'.uniques, n, shell)
    ensures SpiritInv(s')
  {
    hide SameTraitsBut;
    if s.spiritCollection.Some? {
      var c := s.spiritCollection.value;
      forall a
        ensures s'.uniques.OwnedInCollection(c, a) == s.uniques.OwnedInCollection(c, a)
      {
      }
    }
  }

  lemma HatchKeepsTraits(s: State, s': State, n: Nft, shell: CollectionId)
    requires CollectionsInv(s) && TraitsInv(s) && SameFrame(s, s')
    requires n in s.uniques.owner && Some(n.0) == s.originCollection && Some(shell) == s.shellCollection
    requires Awakened(s.uniques, s'.uniques, n, shell)
    requires TraitsOf(s'.uniques, s.uniques.NextNft(shell)).Some?
    ensures TraitsInv(s')
  {
    hide TraitsOf;
  }

  /** Hatching takes one NFT from the live Origin of Shells of its kinds... */
  lemma OriginsAfterHatch(s: State, s': State, n: Nft, shell: CollectionId, kind: Kind)
    requires CollectionsInv(s) && SameFrame(s, s')
    requires n in s.uniques.owner && Some(n.0) == s.originCollection && Some(shell) == s.shellCollection
    requires Awakened(s.uniques, s'.uniques, n, shell) && TraitsOf(s.uniques, n).Some?
    ensures |LiveIn(s'.uniques, s.originCollection, kind)| + (if kind.Fits(TraitsOf(s.uniques, n).value) then 1 else 0)
         == |LiveIn(s.uniques, s.originCollection, kind)|
  {
    hide TraitsOf;
    var u, u', m := s.uniques, s'.uniques, s.uniques.NextNft(shell);
    var before, after := LiveIn(u, s.originCollection, kind), LiveIn(u', s.originCollection, kind);
    forall k
      ensures k in after <==> k in before - {n}
    {
      if k != n && k != m {
        assert TraitsOf(u', k) == TraitsOf(u, k);
      }
    }
    assert after == before - {n};
    assert n in before <==> kind.Fits(TraitsOf(u, n).value);
  }

  /** ... and adds one to the Shells of the same kinds. */
  lemma ShellsAfterHatch(s: State, s': State, n: Nft, shell: CollectionId, kind: Kind)
    requires CollectionsInv(s) && SameFrame(s, s')
    requires n in s.uniques.owner && Some(n.0) == s.originCollection && Some(shell) == s.shellCollection
    requires Awakened(s.uniques, s'.uniques, n, shell) && TraitsOf(s.uniques, n).Some?
    requires TraitsOf(s'.uniques, s.uniques.NextNft(shell)) == TraitsOf(s.uniques, n)
    ensures |LiveIn(s'.uniques, s.shellCollection, kind)|
         == |LiveIn(s.uniques, s.shellCollection, kind)| + if kind.Fits(TraitsOf(s.uniques, n).value) then 1 else 0
  {
    hide TraitsOf;
    var u, u', m := s.uniques, s'.uniques, s.uniques.NextNft(shell);
    var added := if kind.Fits(TraitsOf(u, n).value) then {m} else {};
    var before, after := LiveIn(u, s.shellCollection, kind), LiveIn(u', s.shellCollection, kind);
    assert m !in u.owner && m != n;
    forall k
      ensures k in after <==> k in before + added
    {
      if k != n && k != m {
        assert TraitsOf(u', k) == TraitsOf(u, k);
      }
    }
    assert after == before + added && m !in before;
  }

  lemma HatchKeepsLineage(s: State, s': State, n: Nft, shell: CollectionId)
    requires CollectionsInv(s) && LineageInv(s) && s' == s.(uniques := s'.uniques)
    requires n in s.uniques.owner && Some(n.0) == s.originCollection && Some(shell) == s.shellCollection
    requires Awakened(s.uniques, s'.uniques, n, shell) && TraitsOf(s.uniques, n).Some?
    requires TraitsOf(s'.uniques, s.uniques.NextNft(shell)) == TraitsOf(s.uniques, n)
    ensures LineageInv(s')
  {
    hide TraitsOf, LiveIn, RarityTotal, CareerTotal, SameTraitsBut;
    forall kind: Kind
      ensures Count(s', kind) == Count(s, kind)
      ensures Count(s', kind)
           == |LiveIn(s'.uniques, s'.originCollection, kind)| + |LiveIn(s'.uniques, s'.shellCollection, kind)|
    {
      OriginsAfterHatch(s, s', n, shell, kind);
      ShellsAfterHatch(s, s', n, shell, kind);
    }
    TotalsUnchanged(s, s');
  }

  lemma HatchKeeps(cfg: Config, s: State, sender: AccountId, n: Nft, host: Host)
    requires WorldInv(cfg, s) && HatchOriginOfShell(cfg, s, sender, n, host).Ok?
    ensures WorldInv(cfg, HatchOriginOfShell(cfg, s, sender, n, host).value)
  {
    hide HatchOriginOfShell, TraitsOf, CollectionsInv, SpiritInv, FrozenInv, TraitsInv, LineageInv, Awakened;
    HatchEffect(cfg, s, sender, n, host);
    var s' := HatchOriginOfShell(cfg, s, sender, n, host).value;
    var shell := s.shellCollection.value;
    HatchKeepsCollections(s, s', n, shell);
    HatchKeepsFrozen(s, s', n, shell);
    HatchKeepsSpirits(s, s', n, shell);
    HatchKeepsTraits(s, s', n, shell);
    HatchKeepsLineage(s, s', n, shell);
  }

  // ----- Inventory -----

  lemma SameCountsKeepLineage(s: State, s': State)
    requires LineageInv(s) && s'.uniques == s.uniques
    requires s'.originCollection == s.originCollection && s'.shellCollection == s.shellCollection
    requires forall kind: Kind :: Count(s', kind) == Count(s, kind)
    ensures LineageInv(s')
  {
    hide LiveIn, Count, RarityTotal, CareerTotal;
    TotalsUnchanged(s, s');
  }

  /** Calls that change the inventory but none of its counters of mints. */
  lemma InventoryCallKeeps(cfg: Config, s: State, s': State)
    requires WorldInv(cfg, s) && s' == s.(inventory := s'.inventory, isInventorySet := s'.isInventorySet)
    requires InventoryInv(s') && forall kind: Kind :: Count(s', kind) == Count(s, kind)
    ensures WorldInv(cfg, s')
  {
    hide TraitsOf, LineageInv, Count, InventoryInv;
    SameCountsKeepLineage(s, s');
  }

  lemma InitRarityTypeCountsKeeps(cfg: Config, s: State, sender: AccountId)
    requires WorldInv(cfg, s) && InitRarityTypeCounts(s, sender).Ok?
    ensures WorldInv(cfg, InitRarityTypeCounts(s, sender).value)
  {
    assert InventoryInv(s);
    var s' := InitRarityTypeCounts(s, sender).value;
    assert s'.inventory == s.inventory + InitialInventory() && s'.isInventorySet && !s.isInventorySet;
    hide WorldInv, InitialInventory, InitRarityTypeCounts, Count;
    InitialInventoryCounts(s, s');
    InventoryCallKeeps(cfg, s, s');
  }

  /** The initial inventory has counted no mints. */
  lemma InitialInventoryCounts(s: State, s': State)
    requires InventoryInv(s) && !s.isInventorySet && s'.isInventorySet
    requires s'.inventory == s.inventory + InitialInventory() && s'.careerTypeCount == s.careerTypeCount
    ensures InventoryInv(s') && forall kind: Kind :: Count(s', kind) == Count(s, kind)
  {
    InitialInventoryIsFull();
    hide InitialInventory;
  }

  lemma UpdateRarityTypeCountsKeeps(cfg: Config, s: State, sender: AccountId, rarity: RarityType, forSale: nat,
                                    giveaway: nat)
    requires WorldInv(cfg, s) && UpdateRarityTypeCounts(s, sender, rarity, forSale, giveaway).Ok?
    ensures WorldInv(cfg, UpdateRarityTypeCounts(s, sender, rarity, forSale, giveaway).value)
  {
    assert InventoryInv(s);
    var s' := UpdateRarityTypeCounts(s, sender, rarity, forSale, giveaway).value;
    assert s' == s.(inventory := AllToppedUp(s.inventory, rarity, forSale, giveaway));
    hide WorldInv, UpdateRarityTypeCounts, AllToppedUp, Count, InventoryInv;
    ToppedUpCounts(s, s', rarity, forSale, giveaway);
    InventoryCallKeeps(cfg, s, s');
  }

  /** Topping up counts no mints. */
  lemma ToppedUpCounts(s: State, s': State, rarity: RarityType, forSale: nat, giveaway: nat)
    requires InventoryInv(s) && s'.isInventorySet == s.isInventorySet && s'.careerTypeCount == s.careerTypeCount
    requires s'.inventory == AllToppedUp(s.inventory, rarity, forSale, giveaway)
    ensures InventoryInv(s') && forall kind: Kind :: Count(s', kind) == Count(s, kind)
  {
    hide SaturatingAddU32;
  }

  // ----- Naming the collections -----

  /** Nothing was ever minted in a collection that no storage item names. */
  lemma UnnamedIsEmpty(s: State, c: CollectionId, kind: Kind)
    requires CollectionsInv(s) && !IsPhala(s, c)
    ensures LiveIn(s.uniques, Some(c), kind) == {} && LiveIn(s.uniques, None, kind) == {}
  {
    hide TraitsOf;
  }

  ghost predicate NamesCollection(s: State, s': State, c: CollectionId) {
    || (s.spiritCollection == None && s' == s.(spiritCollection := Some(c)))
    || (s.originCollection == None && s' == s.(originCollection := Some(c)))
    || (s.shellCollection == None && s' == s.(shellCollection := Some(c)))
  }

  lemma SetCollectionKeepsSpirits(s: State, s': State, c: CollectionId)
    requires CollectionsInv(s) && SpiritInv(s) && !IsPhala(s, c) && NamesCollection(s, s', c)
    ensures SpiritInv(s')
  {
    if s.spiritCollection == None {
      forall a ensures s'.uniques.OwnedInCollection(c, a) == {} {}
    } else {
      assert s'.spiritCollection == s.spiritCollection;
    }
  }

  lemma SetCollectionKeeps(cfg: Config, s: State, s': State, c: CollectionId)
    requires WorldInv(cfg, s) && !IsPhala(s, c) && NamesCollection(s, s', c)
    ensures WorldInv(cfg, s')
  {
    hide NamesCollection, TraitsOf, LineageInv, SpiritInv, CollectionsInv, FrozenInv, TraitsInv, IsPhala;
    assert CollectionsInv(s);
    NamedCollection(s, s', c);
    NamingKeepsCollections(s, s', c);
    NamingKeepsLabels(s, s', c);
    SetCollectionKeepsSpirits(s, s', c);
    SetCollectionKeepsLineage(s, s', c);
  }

  /** One collection got its name, and nothing else happened. */
  ghost predicate OneMoreName(s: State, s': State, c: CollectionId) {
    && s'.uniques == s.uniques
    && (s'.spiritCollection == s.spiritCollection || (s.spiritCollection == None && s'.spiritCollection == Some(c)))
    && (s'.originCollection == s.originCollection || (s.originCollection == None && s'.originCollection == Some(c)))
    && (s'.shellCollection == s.shellCollection || (s.shellCollection == None && s'.shellCollection == Some(c)))
    && ((s'.spiritCollection == s.spiritCollection && s'.originCollection == s.originCollection) ||
        (s'.spiritCollection == s.spiritCollection && s'.shellCollection == s.shellCollection) ||
        (s'.originCollection == s.originCollection && s'.shellCollection == s.shellCollection))
  }

  lemma NamedCollection(s: State, s': State, c: CollectionId)
    requires NamesCollection(s, s', c)
    ensures OneMoreName(s, s', c)
    ensures s'.inventory == s.inventory && s'.isInventorySet == s.isInventorySet
    ensures s'.careerTypeCount == s.careerTypeCount
    ensures s'.preorders == s.preorders && s'.preorderIndex == s.preorderIndex && s'.ledger == s.ledger
  {
  }

  lemma NamingKeepsCollections(s: State, s': State, c: CollectionId)
    requires CollectionsInv(s) && !IsPhala(s, c) && OneMoreName(s, s', c)
    ensures CollectionsInv(s')
  {
    forall d | IsPhala(s, d)
      ensures IsPhala(s', d)
    {
    }
    hide IsPhala;
  }

  lemma NamingKeepsLabels(s: State, s': State, c: CollectionId)
    requires CollectionsInv(s) && FrozenInv(s) && TraitsInv(s) && !IsPhala(s, c) && OneMoreName(s, s', c)
    ensures FrozenInv(s') && TraitsInv(s')
  {
    hide TraitsOf;
    assert forall n :: n in s.uniques.owner ==> n.0 != c;
  }

  lemma SetCollectionKeepsLineage(s: State, s': State, c: CollectionId)
    requires CollectionsInv(s) && LineageInv(s) && !IsPhala(s, c)
    requires s'.uniques == s.uniques && s'.inventory == s.inventory && s'.careerTypeCount == s.careerTypeCount
    requires s'.originCollection == s.originCollection || (s.originCollection == None && s'.originCollection == Some(c))
    requires s'.shellCollection == s.shellCollection || (s.shellCollection == None && s'.shellCollection == Some(c))
    ensures LineageInv(s')
  {
    assert s.uniques.NextNftId(c) == 0;
    hide CollectionsInv, LiveIn, RarityTotal, CareerTotal, Count;
    forall kind: Kind
      ensures Count(s', kind) == Count(s, kind)
      ensures Count(s', kind)
           == |LiveIn(s'.uniques, s'.originCollection, kind)| + |LiveIn(s'.uniques, s'.shellCollection, kind)|
    {
      SameCount(s, s', kind);
      UnnamedIsEmpty(s, c, kind);
    }
    TotalsUnchanged(s, s');
  }

  // ----- Steps and runs -----

  /** Calls that touch neither NFTs, nor counters, nor preorders, nor reserves. */
  lemma BystanderKeeps(cfg: Config, s: State, s': State)
    requires WorldInv(cfg, s) && SameNftStorage(s, s')
    requires SameEscrowStorage(s, s')
    ensures WorldInv(cfg, s')
  {
    hide CollectionsInv, FrozenInv, TraitsInv, InventoryInv, LineageInv;
    assert forall a :: s'.ledger.Reserved(a) == s.ledger.Reserved(a);
    SameNftStorageKeeps(cfg, s, s');
  }

  /** The calls that mint, burn, count, name a collection, or take or settle a preorder. */
  predicate MovesNfts(act: Action) {
    act.CallClaimSpirit? || act.CallRedeemSpirit? || act.CallBuyRare? || act.CallBuyPrime? || act.CallMintGift? ||
    act.CallPreorder? || act.CallMintChosen? || act.CallRefundNotChosen? || act.CallHatch? ||
    act.CallInitRarityTypeCounts? || act.CallUpdateRarityTypeCounts? || act.CallSetSpiritCollectionId? ||
    act.CallSetOriginOfShellCollectionId? || act.CallSetShellCollectionId?
  }

  ghost predicate SameEscrowStorage(s: State, s': State) {
    s'.preorders == s.preorders && s'.preorderIndex == s.preorderIndex && s'.ledger.reserved == s.ledger.reserved
  }

  lemma BystanderStep(cfg: Config, s: State, act: Action)
    requires cfg.Valid() && !MovesNfts(act) && Step(cfg, s, act).Ok?
    ensures SameNftStorage(s, Step(cfg, s, act).value) && SameEscrowStorage(s, Step(cfg, s, act).value)
  {
    StepUntouched(cfg, s, act);
    hide Step;
    if act.OutsideTransfer? {
      OutsideTransferStep(cfg, s, act);
    }
  }

  lemma OutsideTransferStep(cfg: Config, s: State, act: Action)
    requires cfg.Valid() && act.OutsideTransfer? && Step(cfg, s, act).Ok?
    ensures Step(cfg, s, act).value.ledger.reserved == s.ledger.reserved
  {
    hide MarketStep, SettingStep, IncubationStep;
  }

  lemma NftCallKeeps(cfg: Config, s: State, act: Action)
    requires cfg.Valid() && WorldInv(cfg, s) && Admissible(s, act) && Step(cfg, s, act).Ok? && MovesNfts(act)
    ensures WorldInv(cfg, Step(cfg, s, act).value)
  {
    if act.IsSetting() {
      NamingCallKeeps(cfg, s, act);
    } else {
      hide WorldInv, MintSpirit, MintOriginOfShell, PreorderOriginOfShell, SettleAll, RefundAll, HatchOriginOfShell,
        InitRarityTypeCounts, UpdateRarityTypeCounts, Step, OrderOf;
      if IsMint(act) {
        MintCall(cfg, s, act);
        MintOriginKeeps(cfg, s, OrderOf(cfg, s, act), act.host);
      } else if act.CallClaimSpirit? || act.CallRedeemSpirit? {
        SpiritCall(cfg, s, act);
        MintSpiritKeeps(cfg, s, act.sender, act.host);
      } else if act.CallMintChosen? {
        BatchCall(cfg, s, act);
        SettleAllKeeps(cfg, s, act.sender, Chunk(cfg, act.ids), act.host);
      } else if act.CallRefundNotChosen? {
        BatchCall(cfg, s, act);
        RefundAllKeeps(cfg, s, Chunk(cfg, act.ids));
      } else if act.CallHatch? {
        IncubationCall(cfg, s, act);
        HatchKeeps(cfg, s, act.sender, act.nft, act.host);
      } else {
        MarketCall(cfg, s, act);
        match act
        case CallPreorder(sender, race, career) => PreorderKeeps(cfg, s, sender, race, career);
        case CallInitRarityTypeCounts(sender) => InitRarityTypeCountsKeeps(cfg, s, sender);
        case CallUpdateRarityTypeCounts(sender, rarity, forSale, giveaway) =>
          UpdateRarityTypeCountsKeeps(cfg, s, sender, rarity, forSale, giveaway);
      }
    }
  }

  lemma NamingCallKeeps(cfg: Config, s: State, act: Action)
    requires cfg.Valid() && WorldInv(cfg, s) && Admissible(s, act) && Step(cfg, s, act).Ok?
    requires MovesNfts(act) && act.IsSetting()
    ensures WorldInv(cfg, Step(cfg, s, act).value)
  {
    hide WorldInv, Step;
    NamingCall(cfg, s, act);
    match act
    case CallSetSpiritCollectionId(_, c) => SetCollectionKeeps(cfg, s, Step(cfg, s, act).value, c);
    case CallSetOriginOfShellCollectionId(_, c) => SetCollectionKeeps(cfg, s, Step(cfg, s, act).value, c);
    case CallSetShellCollectionId(_, c) => SetCollectionKeeps(cfg, s, Step(cfg, s, act).value, c);
  }

  lemma StepKeeps(cfg: Config, s: State, act: Action)
    requires cfg.Valid() && WorldInv(cfg, s) && Admissible(s, act)
    ensures WorldInv(cfg, Next(cfg, s, act))
  {
    hide WorldInv, Step, Admissible;
    if Step(cfg, s, act).Ok? {
      if MovesNfts(act) {
        NftCallKeeps(cfg, s, act);
      } else {
        BystanderStep(cfg, s, act);
        BystanderKeeps(cfg, s, Step(cfg, s, act).value);
      }
    }
  }

  lemma GenesisInv(cfg: Config, balances: map<AccountId, Balance>)
    ensures WorldInv(cfg, Genesis(balances))
  {
    hide LineageInv;
    GenesisLineage(balances);
    var s := Genesis(balances);
    forall a
      ensures s.ledger.Reserved(a) == cfg.primePrice * |LiveOf(s.preorders, a)|
    {
      assert LiveOf(s.preorders, a) == {};
    }
  }

  lemma TotalsZero(s: State)
    requires forall kind: Kind :: Count(s, kind) == 0
    ensures RarityTotal(s) == 0 && CareerTotal(s) == 0
  {
    hide Count;
  }

  lemma GenesisLineage(balances: map<AccountId, Balance>)
    ensures LineageInv(Genesis(balances))
  {
    hide TraitsOf, RarityTotal, CareerTotal;
    var s := Genesis(balances);
    forall kind: Kind
      ensures Count(s, kind) == 0
      ensures LiveIn(s.uniques, s.originCollection, kind) == {}
      ensures LiveIn(s.uniques, s.shellCollection, kind) == {}
    {
    }
    TotalsZero(s);
  }

  /** The invariants hold in every reachable storage. */
  lemma {:induction false} RunKeeps(cfg: Config, s: State, acts: seq<Action>)
    requires cfg.Valid() && WorldInv(cfg, s) && AdmissibleRun(cfg, s, acts)
    ensures WorldInv(cfg, Run(cfg, s, acts))
    decreases |acts|
  {
    hide WorldInv, Next;
    if acts != [] {
      RunKeeps(cfg, s, acts[..|acts| - 1]);
      StepKeeps(cfg, Run(cfg, s, acts[..|acts| - 1]), acts[|acts| - 1]);
    }
  }
}
