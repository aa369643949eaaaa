/**
 Burns are awakenings: an Origin of Shell leaves the ledger only by hatching, which mints one Shell for it, and nothing
 else is ever burned.
 */
module Awakening {
  import opened Primitives
  import opened Nfts
  import opened World
  import opened Frames
  import opened Invariants
  import opened Preservation
  import opened Settlements

  ghost function LiveOrigins(s: State): set<Nft> {
    set n | n in s.uniques.owner && Some(n.0) == s.originCollection
  }

  function ShellsMinted(s: State): nat {
    if s.shellCollection.Some? then s.uniques.NextNftId(s.shellCollection.value) else 0
  }

  /** Every Spirit and every Shell ever minted is alive. */
  ghost predicate NoneLost(s: State) {
    forall n: Nft | Some(n.0) == s.spiritCollection || Some(n.0) == s.shellCollection ::
      n.1 < s.uniques.NextNftId(n.0) ==> n in s.uniques.owner
  }

  ghost predicate BurnInv(s: State) {
    |LiveOrigins(s)| + ShellsMinted(s) == OriginsMinted(s) && NoneLost(s)
  }

  ghost predicate SameNames(s: State, s': State) {
    && s'.spiritCollection == s.spiritCollection && s'.originCollection == s.originCollection
    && s'.shellCollection == s.shellCollection
  }

  // ----- One mint, one hatch, one name -----

  lemma MintKeepsBurns(s: State, s': State, c: CollectionId, a: AccountId)
    requires CollectionsInv(s) && BurnInv(s) && SameNames(s, s') && Minted(s.uniques, s'.uniques, c, a)
    requires IsPhala(s, c) && Some(c) != s.shellCollection
    ensures BurnInv(s')
  {
    OriginsAfterMint(s, s', c, a);
    MintLosesNone(s, s', c, a);
    hide LiveOrigins, Minted, NoneLost, CollectionsInv, IsPhala, OriginsMinted, ShellsMinted;
  }

  lemma OriginsAfterMint(s: State, s': State, c: CollectionId, a: AccountId)
    requires CollectionsInv(s) && SameNames(s, s') && Minted(s.uniques, s'.uniques, c, a)
    requires Some(c) != s.shellCollection
    ensures |LiveOrigins(s')| == |LiveOrigins(s)| + if Some(c) == s.originCollection then 1 else 0
    ensures OriginsMinted(s') == OriginsMinted(s) + if Some(c) == s.originCollection then 1 else 0
    ensures ShellsMinted(s') == ShellsMinted(s)
  {
    hide SameTraitsBut, CollectionsInv;
    NextIsNew(s, c);
    LiveOriginsAfterMint(s, s', s.uniques.NextNft(c), a);
    hide LiveOrigins;
  }

  lemma NextIsNew(s: State, c: CollectionId)
    requires CollectionsInv(s)
    ensures s.uniques.NextNft(c) !in s.uniques.owner
  {
  }

  lemma LiveOriginsAfterMint(s: State, s': State, n: Nft, a: AccountId)
    requires s'.originCollection == s.originCollection
    requires n !in s.uniques.owner && s'.uniques.owner == s.uniques.owner[n := a]
    ensures |LiveOrigins(s')| == |LiveOrigins(s)| + if Some(n.0) == s.originCollection then 1 else 0
  {
    if Some(n.0) == s.originCollection {
      assert LiveOrigins(s') == LiveOrigins(s) + {n};
    } else {
      assert LiveOrigins(s') == LiveOrigins(s);
    }
  }

  lemma MintLosesNone(s: State, s': State, c: CollectionId, a: AccountId)
    requires NoneLost(s) && SameNames(s, s') && Minted(s.uniques, s'.uniques, c, a)
    ensures NoneLost(s')
  {
    hide SameTraitsBut;
  }

  lemma HatchKeepsBurns(s: State, s': State, n: Nft, shell: CollectionId)
    requires CollectionsInv(s) && BurnInv(s) && SameNames(s, s')
    requires n in s.uniques.owner && Some(n.0) == s.originCollection && Some(shell) == s.shellCollection
    requires s.uniques.NextNft(shell) !in s.uniques.owner && Awakened(s.uniques, s'.uniques, n, shell)
    ensures BurnInv(s')
  {
    OriginsAfterAwakening(s, s', n, shell);
    HatchLosesNone(s, s', n, shell);
    hide LiveOrigins, Awakened, NoneLost, CollectionsInv, OriginsMinted, ShellsMinted;
  }

  lemma OriginsAfterAwakening(s: State, s': State, n: Nft, shell: CollectionId)
    requires CollectionsInv(s) && SameNames(s, s')
    requires n in s.uniques.owner && Some(n.0) == s.originCollection && Some(shell) == s.shellCollection
    requires Awakened(s.uniques, s'.uniques, n, shell)
    ensures |LiveOrigins(s')| == |LiveOrigins(s)| - 1
    ensures OriginsMinted(s') == OriginsMinted(s) && ShellsMinted(s') == ShellsMinted(s) + 1
  {
    hide SameTraitsBut;
    assert n in LiveOrigins(s) && LiveOrigins(s') == LiveOrigins(s) - {n};
  }

  lemma HatchLosesNone(s: State, s': State, n: Nft, shell: CollectionId)
    requires CollectionsInv(s) && NoneLost(s) && SameNames(s, s')
    requires n in s.uniques.owner && Some(n.0) == s.originCollection && Some(shell) == s.shellCollection
    requires Awakened(s.uniques, s'.uniques, n, shell)
    ensures NoneLost(s')
  {
    hide SameTraitsBut;
  }

  /** Nothing was minted in a collection before it was named. */
  lemma NamingKeepsBurns(s: State, s': State, c: CollectionId)
    requires CollectionsInv(s) && BurnInv(s) && !IsPhala(s, c) && OneMoreName(s, s', c)
    ensures BurnInv(s')
  {
    assert s.uniques.NextNftId(c) == 0;
    assert LiveOrigins(s') == LiveOrigins(s);
  }

  // ----- Calls -----

  lemma MintOriginKeepsBurns(cfg: Config, s: State, order: MintOrder, host: Host)
    requires WorldInv(cfg, s) && BurnInv(s) && MintOriginOfShell(cfg, s, order, host).Ok?
    ensures BurnInv(MintOriginOfShell(cfg, s, order, host).value)
  {
    assert CollectionsInv(s);
    hide WorldInv, MintOriginOfShell, BurnInv, Minted, TraitsOf;
    MintOriginEffect(cfg, s, order, host);
    MintKeepsBurns(s, MintOriginOfShell(cfg, s, order, host).value, s.originCollection.value, order.owner);
  }

  lemma SettleOneKeepsBurns(cfg: Config, s: State, overlord: AccountId, id: PreorderId, host: Host)
    requires WorldInv(cfg, s) && BurnInv(s) && SettleOne(cfg, s, overlord, id, host).Ok?
    ensures BurnInv(SettleOne(cfg, s, overlord, id, host).value)
  {
    assert CollectionsInv(s);
    SettleOneMints(cfg, s, overlord, id, host);
    hide WorldInv, SettleOne, BurnInv, Minted, TraitsOf;
    MintKeepsBurns(s, SettleOne(cfg, s, overlord, id, host).value, s.originCollection.value, s.preorders[id].owner);
  }

  lemma {:induction false} SettleAllKeepsBurns(cfg: Config, s: State, overlord: AccountId, ids: seq<PreorderId>,
                                               host: Host)
    requires WorldInv(cfg, s) && BurnInv(s) && SettleAll(cfg, s, overlord, ids, host).Ok?
    ensures BurnInv(SettleAll(cfg, s, overlord, ids, host).value)
    decreases |ids|
  {
    hide WorldInv, BurnInv, SettleOne;
    if ids != [] {
      SettleOneKeeps(cfg, s, overlord, ids[0], host);
      SettleOneKeepsBurns(cfg, s, overlord, ids[0], host);
      SettleAllKeepsBurns(cfg, SettleOne(cfg, s, overlord, ids[0], host).value, overlord, ids[1..], host);
    }
  }

  lemma NftCallKeepsBurns(cfg: Config, s: State, act: Action)
    requires cfg.Valid() && WorldInv(cfg, s) && BurnInv(s) && TouchesNfts(act) && Step(cfg, s, act).Ok?
    ensures BurnInv(Step(cfg, s, act).value)
  {
    assert CollectionsInv(s);
    hide WorldInv, BurnInv, Step, MintOriginOfShell, MintSpirit, SettleAll, HatchOriginOfShell, OrderOf, Minted,
      Awakened, CollectionsInv, TraitsOf;
    var s' := Step(cfg, s, act).value;
    if IsMint(act) {
      MintCall(cfg, s, act);
      MintOriginKeepsBurns(cfg, s, OrderOf(cfg, s, act), act.host);
    } else if act.CallMintChosen? {
      BatchCall(cfg, s, act);
      SettleAllKeepsBurns(cfg, s, act.sender, Chunk(cfg, act.ids), act.host);
    } else if act.CallHatch? {
      IncubationCall(cfg, s, act);
      HatchEffect(cfg, s, act.sender, act.nft, act.host);
      HatchKeepsBurns(s, s', act.nft, s.shellCollection.value);
    } else {
      SpiritCall(cfg, s, act);
      MintSpiritEffect(s, act.sender, act.host);
      SpiritsAreNoShells(s);
      MintKeepsBurns(s, s', s.spiritCollection.value, act.sender);
    }
  }

  lemma SpiritsAreNoShells(s: State)
    requires CollectionsInv(s) && s.spiritCollection.Some?
    ensures s.spiritCollection != s.shellCollection
  {
  }

  lemma NamingCallKeepsBurns(cfg: Config, s: State, act: Action)
    requires cfg.Valid() && WorldInv(cfg, s) && BurnInv(s) && Admissible(s, act) && Step(cfg, s, act).Ok?
    requires act.CallSetSpiritCollectionId? || act.CallSetOriginOfShellCollectionId? || act.CallSetShellCollectionId?
    ensures BurnInv(Step(cfg, s, act).value)
  {
    assert CollectionsInv(s);
    hide WorldInv, Step, BurnInv, CollectionsInv, OneMoreName, NamesCollection;
    NamingCall(cfg, s, act);
    CollectionIsNamed(s, Step(cfg, s, act).value, act);
    NamedCollection(s, Step(cfg, s, act).value, act.collection);
    NamingKeepsBurns(s, Step(cfg, s, act).value, act.collection);
  }

  lemma CollectionIsNamed(s: State, s': State, act: Action)
    requires Admissible(s, act)
    requires || (act.CallSetSpiritCollectionId? && SetSpiritCollectionId(s, act.sender, act.collection) == Ok(s'))
             || (act.CallSetOriginOfShellCollectionId? &&
                 SetOriginOfShellCollectionId(s, act.sender, act.collection) == Ok(s'))
             || (act.CallSetShellCollectionId? && SetShellCollectionId(s, act.sender, act.collection) == Ok(s'))
    ensures !IsPhala(s, act.collection) && NamesCollection(s, s', act.collection)
  {
  }

  lemma StepKeepsBurns(cfg: Config, s: State, act: Action)
    requires cfg.Valid() && WorldInv(cfg, s) && BurnInv(s) && Admissible(s, act)
    ensures BurnInv(Next(cfg, s, act))
  {
    NextIs(cfg, s, act);
    hide WorldInv, BurnInv, Next, Step, Admissible;
    if Step(cfg, s, act).Ok? {
      if TouchesNfts(act) {
        NftCallKeepsBurns(cfg, s, act);
      } else if act.CallSetSpiritCollectionId? || act.CallSetOriginOfShellCollectionId? ||
                act.CallSetShellCollectionId? {
        NamingCallKeepsBurns(cfg, s, act);
      } else {
        StepUntouched(cfg, s, act);
        SameNftsKeepBurns(s, Step(cfg, s, act).value);
      }
    }
  }

  lemma SameNftsKeepBurns(s: State, s': State)
    requires BurnInv(s) && SameNames(s, s') && s'.uniques == s.uniques
    ensures BurnInv(s')
  {
    assert LiveOrigins(s') == LiveOrigins(s);
  }

  // ----- Runs -----

  lemma GenesisBurns(balances: map<AccountId, Balance>)
    ensures BurnInv(Genesis(balances))
  {
    assert LiveOrigins(Genesis(balances)) == {};
  }

  lemma {:induction false} RunKeepsBurns(cfg: Config, balances: map<AccountId, Balance>, acts: seq<Action>)
    requires cfg.Valid() && AdmissibleRun(cfg, Genesis(balances), acts)
    ensures BurnInv(Run(cfg, Genesis(balances), acts))
    decreases |acts|
  {
    var g := Genesis(balances);
    GenesisInv(cfg, balances);
    GenesisBurns(balances);
    hide WorldInv, BurnInv, Next, Admissible, Genesis;
    if acts != [] {
      RunKeeps(cfg, g, acts[..|acts| - 1]);
      RunKeepsBurns(cfg, balances, acts[..|acts| - 1]);
      StepKeepsBurns(cfg, Run(cfg, g, acts[..|acts| - 1]), acts[|acts| - 1]);
    }
  }

  /**
   After every run: the Origin of Shells ever minted are the live ones and one for each Shell ever minted, and every
   Spirit and Shell ever minted is alive. So the only burns are hatches.
   */
  lemma BurnsAreAwakenings(cfg: Config, balances: map<AccountId, Balance>, acts: seq<Action>)
    requires cfg.Valid() && AdmissibleRun(cfg, Genesis(balances), acts)
    ensures
      var s := Run(cfg, Genesis(balances), acts);
      && |LiveOrigins(s)| + ShellsMinted(s) == OriginsMinted(s)
      && forall n: Nft :: Some(n.0) == s.spiritCollection || Some(n.0) == s.shellCollection ==>
           (n in s.uniques.owner <==> n.1 < s.uniques.NextNftId(n.0))
  {
    GenesisInv(cfg, balances);
    RunKeeps(cfg, Genesis(balances), acts);
    RunKeepsBurns(cfg, balances, acts);
    hide EscrowInv, FrozenInv, SpiritInv, TraitsInv, InventoryInv, LineageInv, Run, AdmissibleRun, Genesis,
      LiveOrigins, ShellsMinted, OriginsMinted;
  }
}
