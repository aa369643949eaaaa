/**
 Every sale, gift, preorder and batch on the storage items themselves: when the call succeeds, and everything it writes.
 */
module Sales {
  import opened Primitives
  import opened Codec
  import opened Sums
  import opened Currency
  import opened Nfts
  import opened World
  import opened Frames
  import opened Invariants
  import opened Refunds
  import opened Settlements
  import opened BatchConditions
  import opened Conditions

  // ----- What a call needs -----

  /** The account owns an NFT of the collection. */
  ghost predicate HasOne(s: State, a: AccountId, c: Option<CollectionId>) {
    c.Some? && exists i: NftId :: (c.value, i) in s.uniques.owner && s.uniques.owner[(c.value, i)] == a
  }

  lemma HasOneIff(s: State, a: AccountId, c: CollectionId)
    ensures s.uniques.Owns(a, c) <==> HasOne(s, a, Some(c))
  {
    var owned := s.uniques.OwnedInCollection(c, a);
    if owned != {} {
      var n :| n in owned;
      assert n == (c, n.1);
    }
    if HasOne(s, a, Some(c)) {
      var i: NftId :| (c, i) in s.uniques.owner && s.uniques.owner[(c, i)] == a;
      assert (c, i) in owned;
    }
  }

  /** The longest attribute name has ten characters. */
  lemma KeysFitIff(cfg: Config)
    ensures KeysFit(cfg) <==> 10 <= cfg.keyLimit
  {
    assert |GenerationKey.Name()| == 10;
  }

  /** RMRK and pallet-uniques take the next NFT of the collection, its labels and its freeze. */
  predicate TakesNext(s: State, c: Option<CollectionId>, host: Host) {
    c.Some? &&
    var n := (c.value, Get(s.uniques.nextNftId, c.value));
    n.1 < U32_MAX && host.mints(n) && host.setsAttributes(n) && host.freezes(n)
  }

  /** What a mint needs besides a pot and the money. */
  ghost predicate MayReceive(cfg: Config, s: State, owner: AccountId, race: RaceType, single: bool, host: Host) {
    && HasOne(s, owner, s.spiritCollection)
    && TakesNext(s, s.originCollection, host)
    && (single ==> !HasOne(s, owner, s.originCollection))
    && race in s.originMetadata
    && 10 <= cfg.keyLimit
  }

  predicate ForSaleLeft(s: State, rarity: RarityType, race: RaceType) {
    (rarity, race) in s.inventory && s.inventory[(rarity, race)].forSaleCount > 0
  }

  predicate GiftLeft(s: State, rarity: RarityType, race: RaceType, saleType: NftSaleType) {
    && (rarity, race) in s.inventory
    && (saleType == Giveaway ==> s.inventory[(rarity, race)].giveawayCount > 0)
    && (saleType == Reserved ==> s.inventory[(rarity, race)].reservedCount > 0)
  }

  lemma MintableIs(cfg: Config, s: State, order: MintOrder, host: Host)
    ensures Mintable(cfg, s, order, host) <==>
      && MayReceive(cfg, s, order.owner, order.traits.race, order.checkOwned, host)
      && s.overlord.Some?
      && (order.traits.rarity, order.traits.race) in s.inventory
      && s.inventory[(order.traits.rarity, order.traits.race)].Pot(order.saleType) > 0
      && Payable(cfg, s.ledger, order.owner, order.overlord, order.price)
  {
    KeysFitIff(cfg);
    TakesNextIff(s, host);
    if s.spiritCollection.Some? {
      HasOneIff(s, order.owner, s.spiritCollection.value);
    }
    if s.originCollection.Some? {
      HasOneIff(s, order.owner, s.originCollection.value);
    }
    hide HasOne, TakesNext, RmrkTakes, Nfts.Uniques.Owns, KeysFit, Payable;
    assert HasOne(s, order.owner, s.spiritCollection) ==> s.spiritCollection.Some? by {
      SomeCollection(s, order.owner, s.spiritCollection);
    }
  }

  lemma SomeCollection(s: State, a: AccountId, c: Option<CollectionId>)
    ensures HasOne(s, a, c) ==> c.Some?
  {
  }

  lemma TakesNextIff(s: State, host: Host)
    ensures TakesNext(s, s.originCollection, host) <==>
            s.originCollection.Some? && RmrkTakes(s.uniques, host, s.originCollection.value, 1)
  {
    if s.originCollection.Some? {
      var c := s.originCollection.value;
      var i := s.uniques.NextNftId(c);
      assert RmrkTakes(s.uniques, host, c, 1) <==>
        i < U32_MAX && host.mints((c, i)) && host.setsAttributes((c, i)) && host.freezes((c, i));
    }
  }

  // ----- Purchases and gifts: when they succeed -----

  function RarePrice(cfg: Config, rarity: RarityType): Balance
    requires rarity != Prime
  {
    if rarity == Magic then cfg.magicPrice else cfg.legendaryPrice
  }

  /** A rare Origin of Shell is sold while the gate is open, one to an account before the last day of sale. */
  lemma BuyRareSucceedsIff(cfg: Config, s: State, act: Action)
    requires cfg.Valid() && act.CallBuyRare?
    ensures Step(cfg, s, act).Ok? <==>
      && s.canPurchaseRare && s.overlord.Some? && act.rarity != Prime
      && MayReceive(cfg, s, act.sender, act.race, !s.lastDayOfSale, act.host)
      && ForSaleLeft(s, act.rarity, act.race)
      && Payable(cfg, s.ledger, act.sender, s.overlord.value, RarePrice(cfg, act.rarity))
  {
    SaleSucceedsIff(cfg, s, act);
    hide Step, Payable, MayReceive, Mintable;
    if s.overlord.Some? {
      MintableIs(cfg, s, OrderOf(cfg, s, act), act.host);
    }
  }

  /** A Prime one is sold with a ticket, or to anybody on the last day of sale. */
  lemma BuyPrimeSucceedsIff(cfg: Config, s: State, act: Action)
    requires cfg.Valid() && act.CallBuyPrime?
    ensures Step(cfg, s, act).Ok? <==>
      && s.canPurchasePrime && s.overlord.Some?
      && (s.lastDayOfSale ||
          cfg.verifies(s.overlord.value, act.sender, BuyPrimeOriginOfShellsPurpose, act.signature))
      && MayReceive(cfg, s, act.sender, act.race, !s.lastDayOfSale, act.host)
      && ForSaleLeft(s, Prime, act.race)
      && Payable(cfg, s.ledger, act.sender, s.overlord.value, cfg.primePrice)
  {
    SaleSucceedsIff(cfg, s, act);
    hide Step, Payable, MayReceive, Mintable;
    if s.overlord.Some? {
      MintableIs(cfg, s, OrderOf(cfg, s, act), act.host);
    }
  }

  /** The overlord gives from the giveaway or the reserved pot, to owners of a Spirit, as many as it likes. */
  lemma GiftSucceedsIff(cfg: Config, s: State, act: Action)
    requires cfg.Valid() && act.CallMintGift?
    ensures Step(cfg, s, act).Ok? <==>
      && s.overlord == Some(act.sender) && act.saleType != ForSale
      && MayReceive(cfg, s, act.owner, act.race, false, act.host)
      && GiftLeft(s, act.rarity, act.race, act.saleType)
  {
    SaleSucceedsIff(cfg, s, act);
    hide Step, MayReceive, Mintable;
    if s.overlord.Some? {
      MintableIs(cfg, s, OrderOf(cfg, s, act), act.host);
    }
  }

  // ----- Purchases and gifts: what they do -----

  /** `price` went from the free balance of `from` to that of `to`, unless they are the same account. */
  ghost predicate Paid(l: Ledger, l': Ledger, from: AccountId, to: AccountId, price: Balance) {
    && l'.reserved == l.reserved
    && forall a ::
         l'.Free(a) + (if a == from && from != to then price else 0) ==
         l.Free(a) + if a == to && from != to then price else 0
  }

  /** `owner` got the next Origin of Shell, frozen and with these traits, and its career was counted. */
  ghost predicate Received(s: State, s': State, owner: AccountId, traits: Traits) {
    && s.originCollection.Some?
    && (var n := (s.originCollection.value, Get(s.uniques.nextNftId, s.originCollection.value));
        && s'.uniques.owner == s.uniques.owner[n := owner]
        && s'.uniques.nextNftId == s.uniques.nextNftId[n.0 := n.1 + 1]
        && s'.uniques.frozen == s.uniques.frozen + {n}
        && TraitsOf(s'.uniques, n) == Some(traits)
        && forall m :: m != n ==> TraitsOf(s'.uniques, m) == TraitsOf(s.uniques, m))
    && s'.careerTypeCount == s.careerTypeCount[traits.career := Get(s.careerTypeCount, traits.career) + 1]
  }

  ghost predicate OnlyMinted(s: State, s': State) {
    s' == s.(ledger := s'.ledger, uniques := s'.uniques, inventory := s'.inventory,
             careerTypeCount := s'.careerTypeCount)
  }

  /** One more of the kind was minted out of its for-sale pot; no other entry or pot changed. */
  ghost predicate TakenForSale(s: State, s': State, rarity: RarityType, race: RaceType) {
    && ForSaleLeft(s, rarity, race)
    && var info := s.inventory[(rarity, race)];
       s'.inventory == s.inventory[(rarity, race) := NftSaleInfo(info.raceCount + 1, info.forSaleCount - 1,
                                                                 info.giveawayCount, info.reservedCount)]
  }

  /** One more of the kind was minted out of its giveaway or reserved pot; no other entry or pot changed. */
  ghost predicate TakenAsGift(s: State, s': State, rarity: RarityType, race: RaceType, saleType: NftSaleType) {
    && saleType != ForSale && GiftLeft(s, rarity, race, saleType)
    && var info := s.inventory[(rarity, race)];
       var info' := if saleType == Giveaway then
                      NftSaleInfo(info.raceCount + 1, info.forSaleCount, info.giveawayCount - 1, info.reservedCount)
                    else
                      NftSaleInfo(info.raceCount + 1, info.forSaleCount, info.giveawayCount, info.reservedCount - 1);
       s'.inventory == s.inventory[(rarity, race) := info']
  }

  lemma TransferPays(l: Ledger, from: AccountId, to: AccountId, price: Balance, existentialDeposit: Balance)
    requires l.Transfer(from, to, price, existentialDeposit).Ok?
    ensures Paid(l, l.Transfer(from, to, price, existentialDeposit).value, from, to, price)
  {
  }

  lemma OrderIsPaid(cfg: Config, s: State, order: MintOrder, host: Host)
    requires MintOriginOfShell(cfg, s, order, host).Ok?
    ensures Paid(s.ledger, MintOriginOfShell(cfg, s, order, host).value.ledger, order.owner, order.overlord,
                 order.price)
  {
    MintOriginEffect(cfg, s, order, host);
    TransferPays(s.ledger, order.owner, order.overlord, order.price, cfg.existentialDeposit);
    hide MintOriginOfShell, TraitsOf, Minted, Paid, Ledger.Transfer, Drawn;
  }

  lemma OrderIsMinted(cfg: Config, s: State, order: MintOrder, host: Host)
    requires MintOriginOfShell(cfg, s, order, host).Ok?
    ensures s.originCollection.Some?
    ensures
      var u' := MintOriginOfShell(cfg, s, order, host).value.uniques;
      && Minted(s.uniques, u', s.originCollection.value, order.owner)
      && TraitsOf(u', s.uniques.NextNft(s.originCollection.value)) == Some(order.traits)
  {
    MintOriginEffect(cfg, s, order, host);
    hide MintOriginOfShell, TraitsOf, Minted, Ledger.Transfer, Drawn;
  }

  lemma OrderIsReceived(cfg: Config, s: State, order: MintOrder, host: Host)
    requires MintOriginOfShell(cfg, s, order, host).Ok?
    ensures Received(s, MintOriginOfShell(cfg, s, order, host).value, order.owner, order.traits)
    ensures OnlyMinted(s, MintOriginOfShell(cfg, s, order, host).value)
  {
    hide *;
    OrderIsMinted(cfg, s, order, host);
    MintCounts(cfg, s, order, host);
    NothingElseMinted(cfg, s, order, host);
    MintedIsReceived(s, MintOriginOfShell(cfg, s, order, host).value, order.owner, order.traits);
  }

  lemma NothingElseMinted(cfg: Config, s: State, order: MintOrder, host: Host)
    requires MintOriginOfShell(cfg, s, order, host).Ok?
    ensures OnlyMinted(s, MintOriginOfShell(cfg, s, order, host).value)
  {
    hide MintOriginOfShell;
  }

  lemma MintedIsReceived(s: State, s': State, owner: AccountId, traits: Traits)
    requires s.originCollection.Some? && Minted(s.uniques, s'.uniques, s.originCollection.value, owner)
    requires TraitsOf(s'.uniques, s.uniques.NextNft(s.originCollection.value)) == Some(traits)
    requires s'.careerTypeCount == s.careerTypeCount[traits.career := Get(s.careerTypeCount, traits.career) + 1]
    ensures Received(s, s', owner, traits)
  {
    hide TraitsOf;
  }

  lemma OrderIsTaken(cfg: Config, s: State, order: MintOrder, host: Host)
    requires MintOriginOfShell(cfg, s, order, host).Ok?
    ensures
      var s' := MintOriginOfShell(cfg, s, order, host).value;
      if order.saleType == ForSale then TakenForSale(s, s', order.traits.rarity, order.traits.race)
      else TakenAsGift(s, s', order.traits.rarity, order.traits.race, order.saleType)
  {
    MintCounts(cfg, s, order, host);
    hide MintOriginOfShell;
  }

  /** The buyer gets what it asked for, pays the overlord the price of the rarity, and the for-sale pot falls. */
  lemma BuyRareEffect(cfg: Config, s: State, act: Action)
    requires cfg.Valid() && act.CallBuyRare? && Step(cfg, s, act).Ok?
    ensures act.rarity != Prime && s.overlord.Some?
    ensures
      var s' := Step(cfg, s, act).value;
      && Received(s, s', act.sender, Traits(act.rarity, act.race, act.career, 0))
      && TakenForSale(s, s', act.rarity, act.race)
      && Paid(s.ledger, s'.ledger, act.sender, s.overlord.value, RarePrice(cfg, act.rarity))
      && OnlyMinted(s, s')
  {
    BuyRareSucceedsIff(cfg, s, act);
    MintCall(cfg, s, act);
    hide Step, MintOriginOfShell, Received, TakenForSale, TakenAsGift, Paid, OnlyMinted, MayReceive, Payable;
    OrderIsReceived(cfg, s, OrderOf(cfg, s, act), act.host);
    OrderIsTaken(cfg, s, OrderOf(cfg, s, act), act.host);
    OrderIsPaid(cfg, s, OrderOf(cfg, s, act), act.host);
  }

  lemma BuyPrimeEffect(cfg: Config, s: State, act: Action)
    requires cfg.Valid() && act.CallBuyPrime? && Step(cfg, s, act).Ok?
    ensures s.overlord.Some?
    ensures
      var s' := Step(cfg, s, act).value;
      && Received(s, s', act.sender, Traits(Prime, act.race, act.career, 0))
      && TakenForSale(s, s', Prime, act.race)
      && Paid(s.ledger, s'.ledger, act.sender, s.overlord.value, cfg.primePrice)
      && OnlyMinted(s, s')
  {
    MintCall(cfg, s, act);
    hide Step, MintOriginOfShell, Received, TakenForSale, TakenAsGift, Paid, OnlyMinted;
    OrderIsReceived(cfg, s, OrderOf(cfg, s, act), act.host);
    OrderIsTaken(cfg, s, OrderOf(cfg, s, act), act.host);
    OrderIsPaid(cfg, s, OrderOf(cfg, s, act), act.host);
  }

  /** The gift goes to its owner for nothing, out of the pot that the call names. */
  lemma GiftEffect(cfg: Config, s: State, act: Action)
    requires cfg.Valid() && act.CallMintGift? && Step(cfg, s, act).Ok?
    ensures
      var s' := Step(cfg, s, act).value;
      && Received(s, s', act.owner, Traits(act.rarity, act.race, act.career, 0))
      && TakenAsGift(s, s', act.rarity, act.race, act.saleType)
      && s'.ledger == s.ledger
      && OnlyMinted(s, s')
  {
    GiftSucceedsIff(cfg, s, act);
    MintCall(cfg, s, act);
    hide Step, Received, TakenForSale, TakenAsGift, OnlyMinted, MayReceive, GiftLeft, MintOriginOfShell;
    OrderIsReceived(cfg, s, OrderOf(cfg, s, act), act.host);
    OrderIsTaken(cfg, s, OrderOf(cfg, s, act), act.host);
    NothingPaid(cfg, s, OrderOf(cfg, s, act), act.host);
  }

  lemma NothingPaid(cfg: Config, s: State, order: MintOrder, host: Host)
    requires MintOriginOfShell(cfg, s, order, host).Ok? && order.price == 0
    ensures MintOriginOfShell(cfg, s, order, host).value.ledger == s.ledger
  {
    MintOriginEffect(cfg, s, order, host);
    hide MintOriginOfShell, TraitsOf, Minted, Drawn;
  }

  /** The labels of an NFT are the four encodings, under the four names. */
  lemma LabelsAre(cfg: Config, s: State, u: Uniques, host: Host, n: Nft, t: Traits)
    requires SetNftAttributes(cfg, s.overlord, u, host, n, t).Ok?
    ensures
      var u' := SetNftAttributes(cfg, s.overlord, u, host, n, t).value;
      && u'.Attribute(n, RarityKey) == Some([RarityIndex(t.rarity)])
      && u'.Attribute(n, RaceKey) == Some([RaceIndex(t.race)])
      && u'.Attribute(n, CareerKey) == Some([CareerIndex(t.career)])
      && u'.Attribute(n, GenerationKey) == Some(EncodeGeneration(t.generation))
  {
    EncodingIs(t);
    hide KeysFit, EncodeRarity, EncodeRace, EncodeCareer, EncodeGeneration, RarityIndex, RaceIndex, CareerIndex;
  }

  // ----- Spirits -----

  /** The sender gets the next Spirit, frozen, and nothing else happens. */
  lemma SpiritEffect(cfg: Config, s: State, act: Action)
    requires cfg.Valid() && (act.CallClaimSpirit? || act.CallRedeemSpirit?) && Step(cfg, s, act).Ok?
    ensures s.spiritCollection.Some? && !HasOne(s, act.sender, s.spiritCollection)
    ensures
      var s' := Step(cfg, s, act).value;
      var n := (s.spiritCollection.value, Get(s.uniques.nextNftId, s.spiritCollection.value));
      && s' == s.(uniques := s'.uniques)
      && s'.uniques.owner == s.uniques.owner[n := act.sender]
      && s'.uniques.nextNftId == s.uniques.nextNftId[n.0 := n.1 + 1]
      && s'.uniques.frozen == s.uniques.frozen + {n}
      && forall m :: m != n ==> TraitsOf(s'.uniques, m) == TraitsOf(s.uniques, m)
  {
    SpiritCall(cfg, s, act);
    hide Step, MintSpirit, TraitsOf, HasOne;
    MintSpiritEffect(s, act.sender, act.host);
    HasOneIff(s, act.sender, s.spiritCollection.value);
  }

  /** A Spirit is claimed with the minimum balance, or redeemed with a ticket, by an account that has none. */
  lemma SpiritCallSucceedsIff(cfg: Config, s: State, act: Action)
    requires cfg.Valid() && (act.CallClaimSpirit? || act.CallRedeemSpirit?)
    ensures Step(cfg, s, act).Ok? <==>
      && s.canClaimSpirits && s.overlord.Some? && s.spiritCollection.Some? && s.spiritsMetadata.Some?
      && !HasOne(s, act.sender, s.spiritCollection)
      && (var n := (s.spiritCollection.value, Get(s.uniques.nextNftId, s.spiritCollection.value));
          n.1 < U32_MAX && act.host.mints(n) && act.host.freezes(n))
      && (act.CallClaimSpirit? ==> cfg.minBalanceToClaimSpirit <= Get(s.ledger.free, act.sender))
      && (act.CallRedeemSpirit? ==> cfg.verifies(s.overlord.value, act.sender, RedeemSpiritPurpose, act.signature))
  {
    SpiritSucceedsIff(cfg, s, act);
    hide Step, HasOne, Nfts.Uniques.Owns;
    if s.spiritCollection.Some? {
      HasOneIff(s, act.sender, s.spiritCollection.value);
    }
  }

  // ----- Preorders -----

  /**
   A preorder needs a Spirit and the Prime price in free balance, and before the last day of sale an open gate, no flag
   and no Origin of Shell.
   */
  lemma PreorderCallIff(cfg: Config, s: State, act: Action)
    requires cfg.Valid() && act.CallPreorder?
    ensures Step(cfg, s, act).Ok? <==>
      && HasOne(s, act.sender, s.spiritCollection)
      && s.originCollection.Some? && act.race in s.originMetadata && s.preorderIndex != U32_MAX
      && cfg.primePrice <= Get(s.ledger.free, act.sender)
      && (s.lastDayOfSale ||
          (&& s.canPreorder && act.sender !in s.ownerHasPreorder
           && !HasOne(s, act.sender, s.originCollection)))
  {
    MarketCall(cfg, s, act);
    PreorderSucceedsIff(cfg, s, act.sender, act.race, act.career);
    SomeCollection(s, act.sender, s.spiritCollection);
    if s.spiritCollection.Some? {
      HasOneIff(s, act.sender, s.spiritCollection.value);
    }
    if s.originCollection.Some? {
      HasOneIff(s, act.sender, s.originCollection.value);
    }
    hide Step, PreorderOriginOfShell, HasOne, Nfts.Uniques.Owns;
  }

  /** On every day: the preorder is stored as asked under the next id, its price reserved; the flag off the last day. */
  lemma PreorderEffect(cfg: Config, s: State, act: Action)
    requires cfg.Valid() && act.CallPreorder? && Step(cfg, s, act).Ok?
    ensures act.race in s.originMetadata
    ensures
      var s' := Step(cfg, s, act).value;
      var a := act.sender;
      && s'.preorders ==
           s.preorders[s.preorderIndex := PreorderInfo(a, act.race, act.career, s.originMetadata[act.race])]
      && s'.preorderIndex == s.preorderIndex + 1
      && s'.ownerHasPreorder == (if s.lastDayOfSale then s.ownerHasPreorder else s.ownerHasPreorder + {a})
      && cfg.primePrice <= Get(s.ledger.free, a)
      && s'.ledger.free == s.ledger.free[a := Get(s.ledger.free, a) - cfg.primePrice]
      && s'.ledger.reserved == s.ledger.reserved[a := Get(s.ledger.reserved, a) + cfg.primePrice]
      && s' == s.(preorders := s'.preorders, preorderIndex := s'.preorderIndex,
                  ownerHasPreorder := s'.ownerHasPreorder, ledger := s'.ledger)
  {
    MarketCall(cfg, s, act);
    hide Step, Nfts.Uniques.Owns;
  }

  // ----- Batches -----

  /** What one call looks at: the whole list, or its first `IterLimit` ids. */
  function Looked(cfg: Config, ids: seq<PreorderId>): seq<PreorderId> {
    if |ids| <= cfg.iterLimit then ids else ids[..cfg.iterLimit]
  }

  lemma ChunkIs(cfg: Config, ids: seq<PreorderId>)
    ensures Chunk(cfg, ids) == Looked(cfg, ids)
  {
  }

  /** A refund call, exactly. */
  lemma RefundCall(cfg: Config, s: State, act: Action)
    requires cfg.Valid() && WorldInv(cfg, s) && act.CallRefundNotChosen?
    ensures
      var ids := Looked(cfg, act.ids);
      match Step(cfg, s, act)
      case Ok(s') =>
        && s.overlord == Some(act.sender) && Distinct(ids) && AllLive(s, ids)
        && Refunded(cfg, s, s', ToSet(ids))
      case Err(error) =>
        if s.overlord != Some(act.sender) then error == RequireOverlordAccount
        else error == NoAvailablePreorderId && !(Distinct(ids) && AllLive(s, ids))
  {
    PreorderCall(cfg, s, act);
    ChunkIs(cfg, act.ids);
    EscrowOf(cfg, s);
    RefundAllSucceedsIff(cfg, s, Chunk(cfg, act.ids));
    hide Step, WorldInv, EscrowInv, Chunk, Looked, Refunded, Distinct, AllLive, ToSet, RefundAll;
    if RefundAll(cfg, s, Chunk(cfg, act.ids)).Ok? {
      RefundAllEffect(cfg, s, Chunk(cfg, act.ids));
    }
  }

  /** What a batch of mints did, all in all. */
  ghost predicate BatchSettled(cfg: Config, s: State, s': State, overlord: AccountId, ids: seq<PreorderId>)
    requires AllLive(s, ids)
  {
    && s'.preorders == s.preorders - ToSet(ids)
    && s'.ownerHasPreorder == (if s.lastDayOfSale then s.ownerHasPreorder
                               else s.ownerHasPreorder - OwnersOf(s, ToSet(ids)))
    && (s.originCollection.Some? ==> NewOrigins(s, s', ids))
    && NewInventory(s, s', ids)
    && NewCareers(s, s', ids)
    && NewBalances(cfg, s, s', overlord, ids)
    && (forall a :: s'.ledger.Reserved(a) == cfg.primePrice * |LiveOf(s'.preorders, a)|)
  }

  lemma BatchIsSettled(cfg: Config, s: State, overlord: AccountId, ids: seq<PreorderId>, host: Host)
    requires WorldInv(cfg, s) && SettleAll(cfg, s, overlord, ids, host).Ok?
    ensures AllLive(s, ids) && BatchSettled(cfg, s, SettleAll(cfg, s, overlord, ids, host).value, overlord, ids)
  {
    SettleAllEffect(cfg, s, overlord, ids, host);
    hide WorldInv, SettleAll, NewOrigins, NewInventory, NewCareers, NewBalances, OwnersOf, ToSet, AllLive;
  }

  /** A call that mints chosen preorders, exactly. */
  lemma MintChosenCall(cfg: Config, s: State, act: Action)
    requires cfg.Valid() && WorldInv(cfg, s) && act.CallMintChosen?
    ensures
      var ids := Looked(cfg, act.ids);
      match Step(cfg, s, act)
      case Ok(s') =>
        && s.overlord == Some(act.sender) && Settleable(cfg, s, act.sender, ids, act.host)
        && BatchSettled(cfg, s, s', act.sender, ids)
      case Err(error) =>
        if s.overlord != Some(act.sender) then error == RequireOverlordAccount
        else !Settleable(cfg, s, act.sender, ids, act.host)
  {
    PreorderCall(cfg, s, act);
    ChunkIs(cfg, act.ids);
    MintChosenSucceedsIff(cfg, s, act.sender, act.ids, act.host);
    hide Step, WorldInv, Chunk, Looked, Settleable, BatchSettled, SettleAll, AllLive;
    if MintChosen(cfg, s, act.sender, act.ids, act.host).Ok? {
      BatchIsSettled(cfg, s, act.sender, Chunk(cfg, act.ids), act.host);
    }
  }
}
