/** Escrow and refund batches: when they succeed, what they do, and that all escrow can be paid back. */
module Refunds {
  import opened Primitives
  import opened Sums
  import opened Currency
  import opened World
  import opened Invariants
  import opened Frames
  import opened Preservation

  // ----- Live preorder ids are never reused -----

  /** `s'` may follow `s`: a preorder of `s'` is an unchanged one of `s`, or has an id that was not handed out yet. */
  ghost predicate PreordersEvolve(s: State, s': State) {
    && s.preorderIndex <= s'.preorderIndex
    && forall id :: id in s'.preorders ==>
         if id < s.preorderIndex then id in s.preorders && s'.preorders[id] == s.preorders[id]
         else id < s'.preorderIndex
  }

  lemma {:induction false} RefundAllTakes(cfg: Config, s: State, ids: seq<PreorderId>)
    requires RefundAll(cfg, s, ids).Ok?
    ensures RefundAll(cfg, s, ids).value.preorders == s.preorders - ToSet(ids)
    ensures RefundAll(cfg, s, ids).value.preorderIndex == s.preorderIndex
    decreases |ids|
  {
    if ids == [] {
      assert s.preorders - ToSet(ids) == s.preorders;
    } else {
      var s1 := RefundOne(cfg, s, ids[0]).value;
      assert s1.preorders == s.preorders - {ids[0]};
      hide RefundOne;
      RefundAllTakes(cfg, s1, ids[1..]);
      MinusBoth(s.preorders, ids);
    }
  }

  lemma MinusBoth(preorders: map<PreorderId, PreorderInfo>, ids: seq<PreorderId>)
    requires ids != []
    ensures preorders - {ids[0]} - ToSet(ids[1..]) == preorders - ToSet(ids)
  {
    ToSetSplit(ids);
  }

  lemma {:induction false} SettleAllTakes(cfg: Config, s: State, overlord: AccountId, ids: seq<PreorderId>,
                                          host: Nfts.Host)
    requires SettleAll(cfg, s, overlord, ids, host).Ok?
    ensures SettleAll(cfg, s, overlord, ids, host).value.preorders == s.preorders - ToSet(ids)
    ensures SettleAll(cfg, s, overlord, ids, host).value.preorderIndex == s.preorderIndex
    decreases |ids|
  {
    hide MintOriginOfShell;
    if ids == [] {
      assert s.preorders - ToSet(ids) == s.preorders;
    } else {
      var s1 := SettleOne(cfg, s, overlord, ids[0], host).value;
      assert s1.preorders == s.preorders - {ids[0]};
      hide SettleOne;
      SettleAllTakes(cfg, s1, overlord, ids[1..], host);
      MinusBoth(s.preorders, ids);
    }
  }

  lemma TakenEvolves(s: State, s': State, ids: seq<PreorderId>)
    requires s'.preorders == s.preorders - ToSet(ids) && s'.preorderIndex == s.preorderIndex
    requires forall id :: id in s.preorders ==> id < s.preorderIndex
    ensures PreordersEvolve(s, s')
  {
    hide ToSet;
  }

  lemma SamePreordersEvolve(s: State, s': State)
    requires SamePreorders(s, s') && forall id :: id in s.preorders ==> id < s.preorderIndex
    ensures PreordersEvolve(s, s')
  {
  }

  lemma OtherCallEvolves(cfg: Config, s: State, act: Action)
    requires cfg.Valid() && Step(cfg, s, act).Ok? && !TouchesPreorders(act)
    ensures SamePreorders(s, Step(cfg, s, act).value)
  {
    StepUntouched(cfg, s, act);
    hide Step;
  }

  lemma StepEvolvesPreorders(cfg: Config, s: State, act: Action)
    requires cfg.Valid() && EscrowInv(cfg, s)
    ensures PreordersEvolve(s, Next(cfg, s, act))
  {
    hide Next, Step, SettleAll, RefundAll, PreorderOriginOfShell, Chunk, PreordersEvolve, SamePreorders, ToSet, LiveOf;
    NextIs(cfg, s, act);
    if Step(cfg, s, act).Err? {
      Unchanged(s);
      SamePreordersEvolve(s, s);
    } else if act.CallMintChosen? {
      BatchCall(cfg, s, act);
      SettleAllTakes(cfg, s, act.sender, Chunk(cfg, act.ids), act.host);
      TakenEvolves(s, Step(cfg, s, act).value, Chunk(cfg, act.ids));
    } else if act.CallRefundNotChosen? {
      BatchCall(cfg, s, act);
      RefundAllTakes(cfg, s, Chunk(cfg, act.ids));
      TakenEvolves(s, Step(cfg, s, act).value, Chunk(cfg, act.ids));
    } else if act.CallPreorder? {
      MarketCall(cfg, s, act);
      PreorderEvolves(cfg, s, act.sender, act.race, act.career);
    } else {
      OtherCallEvolves(cfg, s, act);
      SamePreordersEvolve(s, Step(cfg, s, act).value);
    }
  }

  lemma Unchanged(s: State)
    ensures SamePreorders(s, s)
  {
  }

  lemma PreorderEvolves(cfg: Config, s: State, sender: AccountId, race: RaceType, career: CareerType)
    requires EscrowInv(cfg, s) && PreorderOriginOfShell(cfg, s, sender, race, career).Ok?
    ensures PreordersEvolve(s, PreorderOriginOfShell(cfg, s, sender, race, career).value)
  {
  }

  /** Over any run: no preorder is ever overwritten, and an id that is gone never comes back. */
  lemma {:induction false} RunEvolves(cfg: Config, s: State, acts: seq<Action>)
    requires cfg.Valid() && WorldInv(cfg, s) && AdmissibleRun(cfg, s, acts)
    ensures PreordersEvolve(s, Run(cfg, s, acts))
    decreases |acts|
  {
    hide WorldInv, Next;
    if acts == [] {
      assert EscrowInv(cfg, s) by { EscrowOf(cfg, s); }
    } else {
      var before := Run(cfg, s, acts[..|acts| - 1]);
      RunEvolves(cfg, s, acts[..|acts| - 1]);
      RunKeeps(cfg, s, acts[..|acts| - 1]);
      EscrowOf(cfg, before);
      StepEvolvesPreorders(cfg, before, acts[|acts| - 1]);
    }
  }

  lemma EscrowOf(cfg: Config, s: State)
    requires WorldInv(cfg, s)
    ensures EscrowInv(cfg, s)
  {
  }

  // ----- When a refund batch succeeds -----

  ghost predicate AllLive(s: State, ids: seq<PreorderId>) {
    forall id :: id in ids ==> id in s.preorders
  }

  lemma RestIsLive(s: State, s1: State, ids: seq<PreorderId>)
    requires ids != [] && ids[0] in s.preorders && s1.preorders == s.preorders - {ids[0]}
    ensures ids[0] !in ids[1..] ==> (AllLive(s1, ids[1..]) <==> AllLive(s, ids))
    ensures ids[0] in ids[1..] ==> !AllLive(s1, ids[1..])
  {
    assert ids == [ids[0]] + ids[1..];
  }

  lemma {:induction false} RefundAllSucceedsIff(cfg: Config, s: State, ids: seq<PreorderId>)
    ensures RefundAll(cfg, s, ids).Ok? <==> Distinct(ids) && AllLive(s, ids)
    ensures RefundAll(cfg, s, ids).Err? ==> RefundAll(cfg, s, ids).error == NoAvailablePreorderId
    decreases |ids|
  {
    if ids != [] {
      var id, rest := ids[0], ids[1..];
      assert ids == [id] + rest;
      DistinctTail(ids);
      if id in s.preorders {
        var s1 := RefundOne(cfg, s, id).value;
        assert s1.preorders == s.preorders - {id};
        RefundAllSucceedsIff(cfg, s1, rest);
        RestIsLive(s, s1, ids);
        hide AllLive, Distinct, RefundOne;
      }
    }
  }

  /** A refund call by the overlord succeeds exactly when the ids it looks at are pairwise different and live. */
  lemma RefundSucceedsIff(cfg: Config, s: State, sender: AccountId, ids: seq<PreorderId>)
    ensures RefundNotChosen(cfg, s, sender, ids).Ok? <==>
            s.overlord == Some(sender) && Distinct(Chunk(cfg, ids)) && AllLive(s, Chunk(cfg, ids))
  {
    RefundAllSucceedsIff(cfg, s, Chunk(cfg, ids));
  }

  // ----- What it does, in no particular order -----

  ghost function OwnersOf(s: State, ids: set<PreorderId>): set<AccountId> {
    set id | id in ids && id in s.preorders :: s.preorders[id].owner
  }

  /** The storage after refunding the ids of `ids`, described without an order. */
  ghost predicate Refunded(cfg: Config, s: State, s': State, ids: set<PreorderId>) {
    && s' == s.(preorders := s.preorders - ids, ledger := s'.ledger,
                ownerHasPreorder := if s.lastDayOfSale then s.ownerHasPreorder
                                    else s.ownerHasPreorder - OwnersOf(s, ids))
    && s'.ledger.free.Keys == s.ledger.free.Keys + OwnersOf(s, ids)
    && s'.ledger.reserved.Keys == s.ledger.reserved.Keys + OwnersOf(s, ids)
    && (forall a :: s'.ledger.Reserved(a) == cfg.primePrice * |LiveOf(s'.preorders, a)|)
    && SameTotals(s.ledger, s'.ledger)
  }

  ghost predicate SameTotals(l: Ledger, l': Ledger) {
    forall a :: l'.Total(a) == l.Total(a)
  }

  lemma RefundedNothing(cfg: Config, s: State)
    requires EscrowInv(cfg, s)
    ensures Refunded(cfg, s, s, {})
  {
    assert s.preorders - {} == s.preorders;
    assert OwnersOf(s, {}) == {};
  }

  lemma RefundOneEffect(cfg: Config, s: State, id: PreorderId)
    requires EscrowInv(cfg, s) && id in s.preorders
    ensures EscrowInv(cfg, RefundOne(cfg, s, id).value)
    ensures Refunded(cfg, s, RefundOne(cfg, s, id).value, {id})
  {
    ReleaseKeepsEscrow(cfg, s, id);
    ReleasePaysInFull(cfg, s, id);
    assert OwnersOf(s, {id}) == {s.preorders[id].owner};
    UnreserveConserves(s.ledger, s.preorders[id].owner, cfg.primePrice);
  }

  lemma RefundedTwice(cfg: Config, s: State, s1: State, s2: State, ids1: set<PreorderId>, ids2: set<PreorderId>)
    requires Refunded(cfg, s, s1, ids1) && Refunded(cfg, s1, s2, ids2)
    requires ids1 !! ids2
    ensures Refunded(cfg, s, s2, ids1 + ids2)
  {
    OwnersTwice(s, s1, ids1, ids2);
    SameTotalsTwice(s.ledger, s1.ledger, s2.ledger);
    hide LiveOf, OwnersOf, SameTotals, Ledger.Reserved;
  }

  lemma SameTotalsTwice(l: Ledger, l1: Ledger, l2: Ledger)
    requires SameTotals(l, l1) && SameTotals(l1, l2)
    ensures SameTotals(l, l2)
  {
    hide Ledger.Total;
    forall a ensures l2.Total(a) == l.Total(a) { assert l1.Total(a) == l.Total(a); }
  }

  lemma OwnersTwice(s: State, s1: State, ids1: set<PreorderId>, ids2: set<PreorderId>)
    requires s1.preorders == s.preorders - ids1 && ids1 !! ids2
    ensures s.preorders - (ids1 + ids2) == s1.preorders - ids2
    ensures OwnersOf(s, ids1 + ids2) == OwnersOf(s, ids1) + OwnersOf(s1, ids2)
  {
    assert OwnersOf(s1, ids2) == OwnersOf(s, ids2);
  }

  /** The flags after a batch that took the preorders of `ids`. */
  ghost function FlagsAfter(s: State, ids: seq<PreorderId>): set<AccountId> {
    if s.lastDayOfSale then s.ownerHasPreorder else s.ownerHasPreorder - OwnersOf(s, ToSet(ids))
  }

  lemma FlagsAfterFirst(s: State, s1: State, ids: seq<PreorderId>)
    requires ids != [] && ids[0] in s.preorders && ids[0] !in ids[1..]
    requires s1.preorders == s.preorders - {ids[0]} && s1.lastDayOfSale == s.lastDayOfSale
    requires s1.ownerHasPreorder ==
      if s.lastDayOfSale then s.ownerHasPreorder else s.ownerHasPreorder - {s.preorders[ids[0]].owner}
    ensures FlagsAfter(s1, ids[1..]) == FlagsAfter(s, ids)
  {
    ToSetSplit(ids);
    assert OwnersOf(s, ToSet(ids)) == {s.preorders[ids[0]].owner} + OwnersOf(s1, ToSet(ids[1..])) by {
      OwnersTwice(s, s1, {ids[0]}, ToSet(ids[1..]));
      assert OwnersOf(s, {ids[0]}) == {s.preorders[ids[0]].owner};
    }
  }

  /** A batch clears its owners' flags, except on the last day of sale. */
  lemma {:induction false} RefundAllFlags(cfg: Config, s: State, ids: seq<PreorderId>)
    requires RefundAll(cfg, s, ids).Ok?
    ensures AllLive(s, ids)
    ensures RefundAll(cfg, s, ids).value.ownerHasPreorder == FlagsAfter(s, ids)
    decreases |ids|
  {
    if ids == [] {
      assert OwnersOf(s, ToSet(ids)) == {};
    } else {
      var s1 := RefundOne(cfg, s, ids[0]).value;
      assert s1.preorders == s.preorders - {ids[0]} && s1.lastDayOfSale == s.lastDayOfSale;
      assert s1.ownerHasPreorder ==
             if s.lastDayOfSale then s.ownerHasPreorder else s.ownerHasPreorder - {s.preorders[ids[0]].owner};
      hide RefundOne;
      RefundAllFlags(cfg, s1, ids[1..]);
      RefundAllSucceedsIff(cfg, s, ids);
      FlagsAfterFirst(s, s1, ids);
    }
  }

  /** A successful batch refunds exactly the ids of its list. */
  lemma {:induction false} RefundAllEffect(cfg: Config, s: State, ids: seq<PreorderId>)
    requires EscrowInv(cfg, s) && RefundAll(cfg, s, ids).Ok?
    ensures Refunded(cfg, s, RefundAll(cfg, s, ids).value, ToSet(ids))
    decreases |ids|
  {
    hide Refunded, EscrowInv;
    if ids == [] {
      RefundedNothing(cfg, s);
      assert ToSet(ids) == {};
    } else {
      RefundAllSucceedsIff(cfg, s, ids);
      DistinctTail(ids);
      RefundOneEffect(cfg, s, ids[0]);
      var s1 := RefundOne(cfg, s, ids[0]).value;
      RefundAllEffect(cfg, s1, ids[1..]);
      ToSetSplit(ids);
      RefundedTwice(cfg, s, s1, RefundAll(cfg, s, ids).value, {ids[0]}, ToSet(ids[1..]));
    }
  }

  /** The description leaves no freedom. */
  lemma RefundedIsUnique(cfg: Config, s: State, s1: State, s2: State, ids: set<PreorderId>)
    requires Refunded(cfg, s, s1, ids) && Refunded(cfg, s, s2, ids)
    ensures s1 == s2
  {
    forall a
      ensures s1.ledger.Free(a) == s2.ledger.Free(a) && s1.ledger.Reserved(a) == s2.ledger.Reserved(a)
    {
      assert s1.ledger.Total(a) == s2.ledger.Total(a);
    }
    SameLedger(s1.ledger, s2.ledger);
  }

  lemma SameLedger(l1: Ledger, l2: Ledger)
    requires l1.free.Keys == l2.free.Keys && l1.reserved.Keys == l2.reserved.Keys
    requires forall a :: l1.Free(a) == l2.Free(a) && l1.Reserved(a) == l2.Reserved(a)
    ensures l1 == l2
  {
    assert forall a :: a in l1.free ==> l1.free[a] == l1.Free(a);
    assert forall a :: a in l2.free ==> l2.free[a] == l2.Free(a);
    assert l1.free == l2.free;
    assert forall a :: a in l1.reserved ==> l1.reserved[a] == l1.Reserved(a);
    assert forall a :: a in l2.reserved ==> l2.reserved[a] == l2.Reserved(a);
    assert l1.reserved == l2.reserved;
  }

  /** Naming the same preorders in another order succeeds alike and leads to the same storage. */
  lemma RefundOrderIsIrrelevant(cfg: Config, s: State, ids1: seq<PreorderId>, ids2: seq<PreorderId>)
    requires EscrowInv(cfg, s) && multiset(ids1) == multiset(ids2)
    ensures RefundAll(cfg, s, ids1) == RefundAll(cfg, s, ids2)
  {
    hide Refunded, EscrowInv;
    RefundAllSucceedsIff(cfg, s, ids1);
    RefundAllSucceedsIff(cfg, s, ids2);
    assert forall id :: id in ids1 <==> id in multiset(ids1);
    assert forall id :: id in ids2 <==> id in multiset(ids2);
    DistinctIffSimple(ids1);
    DistinctIffSimple(ids2);
    assert ToSet(ids1) == ToSet(ids2);
    if RefundAll(cfg, s, ids1).Ok? {
      RefundAllEffect(cfg, s, ids1);
      RefundAllEffect(cfg, s, ids2);
      RefundedIsUnique(cfg, s, RefundAll(cfg, s, ids1).value, RefundAll(cfg, s, ids2).value, ToSet(ids1));
    }
  }

  // ----- Chunks -----

  /** The overlord's driver: call with the whole list, then with what the call did not look at. */
  function DriveRefunds(cfg: Config, s: State, sender: AccountId, ids: seq<PreorderId>): Result<State>
    requires cfg.Valid()
    decreases |ids|
  {
    if ids == [] then Ok(s)
    else
      var s1 :- RefundNotChosen(cfg, s, sender, ids);
      DriveRefunds(cfg, s1, sender, ids[|Chunk(cfg, ids)|..])
  }

  lemma {:induction false} RefundAllAppend(cfg: Config, s: State, ids: seq<PreorderId>, more: seq<PreorderId>)
    ensures RefundAll(cfg, s, ids + more) ==
            match RefundAll(cfg, s, ids) { case Ok(s1) => RefundAll(cfg, s1, more) case Err(e) => Err(e) }
    decreases |ids|
  {
    if ids == [] {
      assert ids + more == more;
    } else {
      assert (ids + more)[1..] == ids[1..] + more;
      if ids[0] in s.preorders {
        RefundAllAppend(cfg, RefundOne(cfg, s, ids[0]).value, ids[1..], more);
      }
    }
  }

  /** Chunked refunds and one unbounded pass over the list have the same outcome, success or error. */
  lemma {:induction false} DriveRefundsIsOnePass(cfg: Config, s: State, sender: AccountId, ids: seq<PreorderId>)
    requires cfg.Valid() && s.overlord == Some(sender)
    ensures DriveRefunds(cfg, s, sender, ids) == RefundAll(cfg, s, ids)
    decreases |ids|
  {
    hide RefundOne;
    if ids != [] {
      var chunk := Chunk(cfg, ids);
      var rest := ids[|chunk|..];
      assert ids == chunk + rest;
      RefundAllAppend(cfg, s, chunk, rest);
      if RefundAll(cfg, s, chunk).Ok? {
        DriveRefundsIsOnePass(cfg, RefundAll(cfg, s, chunk).value, sender, rest);
      }
    }
  }

  /** Driving the refunds over the list leaves no preorder, no reserve, and everybody with the money they had. */
  ghost predicate Recovers(cfg: Config, s: State, sender: AccountId, ids: seq<PreorderId>)
    requires cfg.Valid()
  {
    var r := DriveRefunds(cfg, s, sender, ids);
    && r.Ok?
    && r.value.preorders == map[]
    && (forall a :: r.value.ledger.Reserved(a) == 0)
    && (forall a :: r.value.ledger.Free(a) == s.ledger.Total(a))
  }

  /**
   From every reachable storage with an overlord, refunding every live preorder in chunks, in whatever
   order, succeeds and leaves no preorder, no reserve, and everybody with the money they had.
   */
  lemma EscrowIsRecoverable(cfg: Config, s: State, sender: AccountId, ids: seq<PreorderId>)
    requires cfg.Valid() && WorldInv(cfg, s) && s.overlord == Some(sender)
    requires Distinct(ids) && ToSet(ids) == s.preorders.Keys
    ensures Recovers(cfg, s, sender, ids)
  {
    EscrowOf(cfg, s);
    hide WorldInv, EscrowInv, RefundAll, Refunded;
    DriveRefundsIsOnePass(cfg, s, sender, ids);
    assert RefundAll(cfg, s, ids).Ok? by {
      RefundAllSucceedsIff(cfg, s, ids);
      assert forall id :: id in ids <==> id in ToSet(ids);
    }
    RefundAllEffect(cfg, s, ids);
    RefundedEverything(cfg, s, RefundAll(cfg, s, ids).value);
  }

  lemma RefundedEverything(cfg: Config, s: State, s': State)
    requires Refunded(cfg, s, s', s.preorders.Keys)
    ensures s'.preorders == map[]
    ensures forall a :: s'.ledger.Reserved(a) == 0 && s'.ledger.Free(a) == s.ledger.Total(a)
  {
    assert s'.preorders == map[];
    forall a
      ensures s'.ledger.Reserved(a) == 0 && s'.ledger.Free(a) == s.ledger.Total(a)
    {
      assert LiveOf(s'.preorders, a) == {};
      assert s'.ledger.Total(a) == s.ledger.Total(a);
    }
  }

  /** There is such a list for every storage. */
  lemma {:induction false} Enumeration(ids: set<PreorderId>) returns (r: seq<PreorderId>)
    ensures Distinct(r) && ToSet(r) == ids
    decreases |ids|
  {
    if ids == {} {
      r := [];
    } else {
      var id :| id in ids;
      var rest := Enumeration(ids - {id});
      r := [id] + rest;
      assert forall x :: x in rest <==> x in ToSet(rest);
      DistinctTail(r);
      assert r[1..] == rest;
      assert forall x :: x in r <==> x == id || x in rest;
      assert ToSet(r) == {id} + ToSet(rest);
    }
  }

  /** So every reachable storage with an overlord has a list of refunds that pays all escrow back. */
  lemma RecoveryExists(cfg: Config, s: State, sender: AccountId)
    requires cfg.Valid() && WorldInv(cfg, s) && s.overlord == Some(sender)
    ensures exists ids :: Recovers(cfg, s, sender, ids)
  {
    hide WorldInv, DriveRefunds, Distinct, ToSet;
    var ids := Enumeration(s.preorders.Keys);
    EscrowIsRecoverable(cfg, s, sender, ids);
    assert Recovers(cfg, s, sender, ids);
  }

  // ----- No preorder without an overlord -----

  /** The Spirit collection is named by an overlord, and there is one from the first SetOverlord on. */
  predicate OverlordInv(s: State) {
    s.overlord.None? ==> s.spiritCollection.None?
  }

  lemma StepKeepsOverlord(cfg: Config, s: State, act: Action)
    requires cfg.Valid() && OverlordInv(s)
    ensures OverlordInv(Next(cfg, s, act))
  {
    NextIs(cfg, s, act);
    if act.CallSetSpiritCollectionId? {
      NamingCall(cfg, s, act);
    }
    if act.CallSetOverlord? {
      OverlordIsSet(cfg, s, act);
    }
    hide Next, Step;
    if Step(cfg, s, act).Ok? {
      StepUntouched(cfg, s, act);
    }
  }

  lemma OverlordIsSet(cfg: Config, s: State, act: Action)
    requires cfg.Valid() && act.CallSetOverlord?
    ensures Step(cfg, s, act).Ok? ==> Step(cfg, s, act).value.overlord == Some(act.newOverlord)
  {
    hide MarketStep, IncubationStep;
  }

  lemma {:induction false} RunKeepsOverlord(cfg: Config, s: State, acts: seq<Action>)
    requires cfg.Valid() && OverlordInv(s)
    ensures OverlordInv(Run(cfg, s, acts))
    decreases |acts|
  {
    hide Next, OverlordInv;
    if acts != [] {
      RunKeepsOverlord(cfg, s, acts[..|acts| - 1]);
      StepKeepsOverlord(cfg, Run(cfg, s, acts[..|acts| - 1]), acts[|acts| - 1]);
    }
  }

  /** Owners of preorders have Spirits, so without a Spirit collection there is no preorder, and so no reserve. */
  lemma NothingEscrowed(cfg: Config, s: State, a: AccountId)
    requires cfg.Valid() && WorldInv(cfg, s) && s.spiritCollection.None?
    ensures s.preorders == map[] && s.ledger.Reserved(a) == 0 && s.ledger.Free(a) == s.ledger.Total(a)
  {
    EscrowOf(cfg, s);
    assert SpiritInv(s);
    hide WorldInv, CollectionsInv, FrozenInv, TraitsInv, LineageInv, InventoryInv;
    assert s.preorders == map[];
    assert LiveOf(s.preorders, a) == {};
  }

  lemma GenesisOverlord(balances: map<AccountId, Balance>)
    ensures OverlordInv(Genesis(balances))
  {
  }

  lemma NothingToRecover(cfg: Config, s: State, sender: AccountId)
    requires cfg.Valid() && WorldInv(cfg, s) && s.spiritCollection.None?
    ensures Recovers(cfg, s, sender, [])
  {
    hide WorldInv;
    NothingEscrowed(cfg, s, sender);
    forall a {
      NothingEscrowed(cfg, s, a);
    }
  }

  /** Some account, the overlord if there is one, has refund calls that pay all escrow back. */
  ghost predicate Recoverable(cfg: Config, s: State)
    requires cfg.Valid()
  {
    exists sender: AccountId, ids: seq<PreorderId> ::
      (s.overlord.None? || s.overlord == Some(sender)) && Recovers(cfg, s, sender, ids)
  }

  /** After every run all escrow can be paid back; without an overlord there is none. */
  lemma EveryRunIsRecoverable(cfg: Config, balances: map<AccountId, Balance>, acts: seq<Action>)
    requires cfg.Valid() && AdmissibleRun(cfg, Genesis(balances), acts)
    ensures
      var s := Run(cfg, Genesis(balances), acts);
      (s.overlord.None? ==> s.preorders == map[]) && Recoverable(cfg, s)
  {
    GenesisInv(cfg, balances);
    GenesisOverlord(balances);
    RunKeepsOverlord(cfg, Genesis(balances), acts);
    hide WorldInv, Run, Genesis, AdmissibleRun, Recovers;
    RunKeeps(cfg, Genesis(balances), acts);
    var s := Run(cfg, Genesis(balances), acts);
    if s.overlord.Some? {
      RecoveryExists(cfg, s, s.overlord.value);
    } else {
      NothingEscrowed(cfg, s, 0);
      NothingToRecover(cfg, s, 0);
    }
  }
}
