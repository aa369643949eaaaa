/** What the invariants say of the storage after any run from genesis, property by property. */
module Theorems {
  import opened Primitives
  import opened World
  import opened Invariants
  import opened Preservation
  import opened Refunds

  lemma ReachableInv(cfg: Config, balances: map<AccountId, Balance>, acts: seq<Action>)
    requires cfg.Valid() && AdmissibleRun(cfg, Genesis(balances), acts)
    ensures WorldInv(cfg, Run(cfg, Genesis(balances), acts))
  {
    GenesisInv(cfg, balances);
    hide WorldInv;
    RunKeeps(cfg, Genesis(balances), acts);
  }

  /** Every account's reserve is exactly the escrow of its live preorders, and live ids are below the index. */
  lemma EscrowIsSolvent(cfg: Config, balances: map<AccountId, Balance>, acts: seq<Action>, a: AccountId)
    requires cfg.Valid() && AdmissibleRun(cfg, Genesis(balances), acts)
    ensures
      var s := Run(cfg, Genesis(balances), acts);
      && s.ledger.Reserved(a) == cfg.primePrice * |LiveOf(s.preorders, a)|
      && forall id :: id in s.preorders ==> id < s.preorderIndex <= U32_MAX
  {
    ReachableInv(cfg, balances, acts);
    hide CollectionsInv, FrozenInv, SpiritInv, TraitsInv, InventoryInv, LineageInv, Run, AdmissibleRun, Genesis;
  }

  /**
   A run may be cut anywhere: a preorder that is gone at the cut never comes back, and one that is still there later is
   the same one, so no id is given out twice.
   */
  lemma PreorderIdsAreNotReused(cfg: Config, balances: map<AccountId, Balance>, acts: seq<Action>, later: seq<Action>)
    requires cfg.Valid() && AdmissibleRun(cfg, Genesis(balances), acts)
    requires AdmissibleRun(cfg, Run(cfg, Genesis(balances), acts), later)
    ensures
      var s := Run(cfg, Genesis(balances), acts);
      var s' := Run(cfg, s, later);
      forall id :: id < s.preorderIndex && id in s'.preorders ==>
                     id in s.preorders && s'.preorders[id] == s.preorders[id]
  {
    ReachableInv(cfg, balances, acts);
    RunEvolves(cfg, Run(cfg, Genesis(balances), acts), later);
    hide WorldInv, Run, AdmissibleRun, Genesis;
  }

  /** The counter of every race and every career is the live Origin of Shells plus the awakened Shells of that kind. */
  lemma LineageIsConserved(cfg: Config, balances: map<AccountId, Balance>, acts: seq<Action>, kind: Kind)
    requires cfg.Valid() && AdmissibleRun(cfg, Genesis(balances), acts)
    ensures
      var s := Run(cfg, Genesis(balances), acts);
      && Count(s, kind) == |LiveIn(s.uniques, s.originCollection, kind)| + |LiveIn(s.uniques, s.shellCollection, kind)|
      && RarityTotal(s) == CareerTotal(s) == OriginsMinted(s)
  {
    ReachableInv(cfg, balances, acts);
    hide EscrowInv, CollectionsInv, FrozenInv, SpiritInv, TraitsInv, InventoryInv, Count, LiveIn, RarityTotal,
      CareerTotal,
      Run, AdmissibleRun, Genesis;
  }

  /** Nobody has two Spirits; whoever has a live preorder or a live Origin of Shell has exactly one. */
  lemma SpiritDiscipline(cfg: Config, balances: map<AccountId, Balance>, acts: seq<Action>, a: AccountId)
    requires cfg.Valid() && AdmissibleRun(cfg, Genesis(balances), acts)
    ensures
      var s := Run(cfg, Genesis(balances), acts);
      var spirits := if s.spiritCollection.Some? then |s.uniques.OwnedInCollection(s.spiritCollection.value, a)| else 0;
      && spirits <= 1
      && ((exists id :: id in s.preorders && s.preorders[id].owner == a) ==> spirits == 1)
      && ((exists n :: n in s.uniques.owner && Some(n.0) == s.originCollection && s.uniques.owner[n] == a) ==>
            spirits == 1)
  {
    ReachableInv(cfg, balances, acts);
    hide EscrowInv, CollectionsInv, FrozenInv, TraitsInv, InventoryInv, LineageInv, Run, AdmissibleRun, Genesis,
      Nfts.Uniques.OwnedInCollection;
  }

  /**
   Live Spirits and Origin of Shells are frozen; live Origin of Shells and Shells carry four attributes that decode.
   */
  lemma LiveNftsAreFrozenAndLabelled(cfg: Config, balances: map<AccountId, Balance>, acts: seq<Action>, n: Nft)
    requires cfg.Valid() && AdmissibleRun(cfg, Genesis(balances), acts)
    requires n in Run(cfg, Genesis(balances), acts).uniques.owner
    ensures
      var s := Run(cfg, Genesis(balances), acts);
      && (Some(n.0) == s.spiritCollection || Some(n.0) == s.originCollection ==> n in s.uniques.frozen)
      && (Some(n.0) == s.originCollection || Some(n.0) == s.shellCollection ==> TraitsOf(s.uniques, n).Some?)
  {
    ReachableInv(cfg, balances, acts);
    hide EscrowInv, CollectionsInv, SpiritInv, InventoryInv, LineageInv, TraitsOf, Run, AdmissibleRun, Genesis;
  }
}
