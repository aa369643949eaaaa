/**
 The flag of an account as an index of its live preorders: exactly which calls and which runs keep it exact. On the last
 day of sale neither preorders nor batches touch the flags, so every one of them makes the index wrong.
 */
module Flags {
  import opened Primitives
  import opened Sums
  import opened Currency
  import opened Nfts
  import opened World
  import opened Frames
  import opened Invariants
  import opened Preservation
  import opened Refunds
  import opened Settlements
  import opened BatchConditions
  import opened Conditions
  import opened Holdings

  // ----- One preorder -----

  /** A preorder keeps the flags exact before the last day of sale, and never on it. */
  lemma PreorderKeepsFlagsIff(cfg: Config, s: State, sender: AccountId, race: RaceType, career: CareerType)
    requires WorldInv(cfg, s) && FlagInv(s) && PreorderOriginOfShell(cfg, s, sender, race, career).Ok?
    ensures FlagInv(PreorderOriginOfShell(cfg, s, sender, race, career).value) <==> !s.lastDayOfSale
  {
    var s' := PreorderOriginOfShell(cfg, s, sender, race, career).value;
    if s.lastDayOfSale {
      FlagOf(s, sender);
      EscrowOf(cfg, s);
      assert s.preorderIndex !in s.preorders;
      LiveOfInsert(s.preorders, s.preorderIndex, PreorderInfo(sender, race, career, s.originMetadata[race]), sender);
      assert s'.ownerHasPreorder == s.ownerHasPreorder;
      hide WorldInv, EscrowInv, LiveOf, PreorderOriginOfShell;
      assert !FlagAt(s', sender);
    } else {
      hide WorldInv, FlagAt, PreorderOriginOfShell, Held, Live;
      forall a ensures FlagAt(s', a) { PreorderHolds(cfg, s, sender, race, career, a); }
    }
  }

  // ----- Batches -----

  /** `s'` is `s` after a batch, of refunds or of settlements, over the list `ids`. */
  ghost predicate Taken(s: State, s': State, ids: seq<PreorderId>) {
    && AllLive(s, ids)
    && s'.preorders == s.preorders - ToSet(ids)
    && s'.ownerHasPreorder == FlagsAfter(s, ids)
  }

  lemma EarlyBatchKeepsFlag(s: State, s': State, ids: seq<PreorderId>, a: AccountId)
    requires Taken(s, s', ids) && FlagAt(s, a) && !s.lastDayOfSale
    ensures FlagAt(s', a)
  {
    LiveAfter(s, s', ids, a);
    if a in OwnersOf(s, ToSet(ids)) {
      var id :| id in ToSet(ids) && id in s.preorders && s.preorders[id].owner == a;
      OnlyMember(LiveOf(s.preorders, a), id);
      assert {id} - ToSet(ids) == {};
    } else {
      assert LiveOf(s.preorders, a) - ToSet(ids) == LiveOf(s.preorders, a);
    }
  }

  lemma LiveAfter(s: State, s': State, ids: seq<PreorderId>, a: AccountId)
    requires s'.preorders == s.preorders - ToSet(ids)
    ensures LiveOf(s'.preorders, a) == LiveOf(s.preorders, a) - ToSet(ids)
  {
    hide ToSet;
  }

  lemma OnlyMember<T>(s: set<T>, x: T)
    requires x in s && |s| <= 1
    ensures s == {x}
  {
    assert |s - {x}| == 0;
  }

  /** The owner of the first preorder has lost its only one and still carries the flag. */
  lemma LateBatchBreaksFlag(s: State, s': State, ids: seq<PreorderId>)
    requires Taken(s, s', ids) && FlagInv(s) && s.lastDayOfSale && ids != []
    ensures !FlagInv(s')
  {
    var a := s.preorders[ids[0]].owner;
    FlagOf(s, a);
    OnlyMember(LiveOf(s.preorders, a), ids[0]);
    LiveAfter(s, s', ids, a);
    assert {ids[0]} - ToSet(ids) == {};
    assert !FlagAt(s', a);
  }

  lemma BatchKeepsFlagsIff(s: State, s': State, ids: seq<PreorderId>)
    requires Taken(s, s', ids) && FlagInv(s)
    ensures FlagInv(s') <==> !s.lastDayOfSale || ids == []
  {
    hide Taken, FlagAt;
    if ids == [] {
      NothingTaken(s, s', ids);
    } else if s.lastDayOfSale {
      LateBatchBreaksFlag(s, s', ids);
    } else {
      forall a ensures FlagAt(s', a) { EarlyBatchKeepsFlag(s, s', ids, a); }
    }
  }

  lemma NothingTaken(s: State, s': State, ids: seq<PreorderId>)
    requires Taken(s, s', ids) && ids == [] && FlagInv(s)
    ensures FlagInv(s')
  {
    assert ToSet(ids) == {} && OwnersOf(s, ToSet(ids)) == {};
    assert s'.preorders == s.preorders && s'.ownerHasPreorder == s.ownerHasPreorder;
    forall a ensures FlagAt(s', a) { FlagOf(s, a); }
  }

  /** A list of refunds keeps the flags exact if and only if it is not the last day of sale, or the list is empty. */
  lemma RefundAllKeepsFlagsIff(cfg: Config, s: State, ids: seq<PreorderId>)
    requires FlagInv(s) && RefundAll(cfg, s, ids).Ok?
    ensures FlagInv(RefundAll(cfg, s, ids).value) <==> !s.lastDayOfSale || ids == []
  {
    hide FlagInv, RefundAll, FlagsAfter, AllLive;
    RefundAllTakes(cfg, s, ids);
    RefundAllFlags(cfg, s, ids);
    BatchKeepsFlagsIff(s, RefundAll(cfg, s, ids).value, ids);
  }

  /** So does a list of settlements ... */
  lemma SettleAllKeepsFlagsIff(cfg: Config, s: State, overlord: AccountId, ids: seq<PreorderId>, host: Host)
    requires FlagInv(s) && SettleAll(cfg, s, overlord, ids, host).Ok?
    ensures FlagInv(SettleAll(cfg, s, overlord, ids, host).value) <==> !s.lastDayOfSale || ids == []
  {
    hide FlagInv, SettleAll, FlagsAfter, AllLive;
    SettleAllTakes(cfg, s, overlord, ids, host);
    SettleAllLive(cfg, s, overlord, ids, host);
    SettleAllFlags(cfg, s, overlord, ids, host);
    BatchKeepsFlagsIff(s, SettleAll(cfg, s, overlord, ids, host).value, ids);
  }

  /** ... and a single refund or settlement, which is a list of one. */
  lemma RefundKeepsFlagsIff(cfg: Config, s: State, id: PreorderId)
    requires FlagInv(s) && id in s.preorders
    ensures FlagInv(RefundOne(cfg, s, id).value) <==> !s.lastDayOfSale
  {
    var s1 := RefundOne(cfg, s, id).value;
    assert RefundAll(cfg, s, [id]) == RefundAll(cfg, s1, []) == Ok(s1);
    hide FlagInv, RefundOne, RefundAll;
    RefundAllKeepsFlagsIff(cfg, s, [id]);
  }

  lemma SettleKeepsFlagsIff(cfg: Config, s: State, overlord: AccountId, id: PreorderId, host: Host)
    requires FlagInv(s) && SettleOne(cfg, s, overlord, id, host).Ok?
    ensures FlagInv(SettleOne(cfg, s, overlord, id, host).value) <==> !s.lastDayOfSale
  {
    hide FlagInv, SettleOne;
    var s1 := SettleOne(cfg, s, overlord, id, host).value;
    assert SettleAll(cfg, s, overlord, [id], host) == SettleAll(cfg, s1, overlord, [], host) == Ok(s1);
    hide SettleAll;
    SettleAllKeepsFlagsIff(cfg, s, overlord, [id], host);
  }

  // ----- Calls -----

  /**
   On the last day of sale, a preorder that can be placed, or a batch of the overlord that names some preorder and can
   be carried out: judged on the storage before the call.
   */
  ghost predicate IsLate(cfg: Config, s: State, act: Action) {
    s.lastDayOfSale &&
    match act
    case CallPreorder(sender, race, _) => Preorderable(cfg, s, sender, race)
    case CallMintChosen(sender, ids, host) =>
      ids != [] && s.overlord == Some(sender) && Settleable(cfg, s, sender, Chunk(cfg, ids), host)
    case CallRefundNotChosen(sender, ids) =>
      ids != [] && s.overlord == Some(sender) && Distinct(Chunk(cfg, ids)) && AllLive(s, Chunk(cfg, ids))
    case _ => false
  }

  lemma ChunkIsEmptyIff(cfg: Config, ids: seq<PreorderId>)
    requires cfg.Valid()
    ensures Chunk(cfg, ids) == [] <==> ids == []
  {
  }

  /** Whether a call on preorders succeeds, on the storage before it. */
  lemma PreorderCallSucceedsIff(cfg: Config, s: State, act: Action)
    requires cfg.Valid() && WorldInv(cfg, s) && TouchesPreorders(act)
    ensures Step(cfg, s, act).Ok? <==>
      match act
      case CallPreorder(sender, race, _) => Preorderable(cfg, s, sender, race)
      case CallMintChosen(sender, ids, host) =>
        s.overlord == Some(sender) && Settleable(cfg, s, sender, Chunk(cfg, ids), host)
      case CallRefundNotChosen(sender, ids) =>
        s.overlord == Some(sender) && Distinct(Chunk(cfg, ids)) && AllLive(s, Chunk(cfg, ids))
  {
    PreorderCall(cfg, s, act);
    hide *;
    match act
    case CallPreorder(sender, race, career) => PreorderSucceedsIff(cfg, s, sender, race, career);
    case CallMintChosen(sender, ids, host) => MintChosenSucceedsIff(cfg, s, sender, ids, host);
    case CallRefundNotChosen(sender, ids) => RefundSucceedsIff(cfg, s, sender, ids);
  }

  /** A call is late exactly when it succeeds in touching preorders on the last day of sale. */
  lemma IsLateIff(cfg: Config, s: State, act: Action)
    requires cfg.Valid() && WorldInv(cfg, s)
    ensures IsLate(cfg, s, act) <==>
      && s.lastDayOfSale && Step(cfg, s, act).Ok?
      && (act.CallPreorder? || ((act.CallMintChosen? || act.CallRefundNotChosen?) && act.ids != []))
  {
    hide WorldInv, Step, Preorderable, Settleable, AllLive, Distinct, Chunk;
    if TouchesPreorders(act) {
      PreorderCallSucceedsIff(cfg, s, act);
    }
  }

  /** Any call at all keeps the flags exact if and only if it is not a late one. */
  lemma StepKeepsFlagsIff(cfg: Config, s: State, act: Action)
    requires cfg.Valid() && WorldInv(cfg, s) && FlagInv(s)
    ensures FlagInv(Next(cfg, s, act)) <==> !IsLate(cfg, s, act)
  {
    IsLateIff(cfg, s, act);
    NextIs(cfg, s, act);
    hide WorldInv, Next, Step, FlagInv, SettleAll, RefundAll, PreorderOriginOfShell, Chunk, IsLate;
    if Step(cfg, s, act).Ok? {
      if act.CallPreorder? {
        MarketCall(cfg, s, act);
        PreorderKeepsFlagsIff(cfg, s, act.sender, act.race, act.career);
      } else if act.CallMintChosen? {
        BatchCall(cfg, s, act);
        ChunkIsEmptyIff(cfg, act.ids);
        SettleAllKeepsFlagsIff(cfg, s, act.sender, Chunk(cfg, act.ids), act.host);
      } else if act.CallRefundNotChosen? {
        BatchCall(cfg, s, act);
        ChunkIsEmptyIff(cfg, act.ids);
        RefundAllKeepsFlagsIff(cfg, s, Chunk(cfg, act.ids));
      } else {
        StepUntouched(cfg, s, act);
        SamePreordersKeepFlags(s, Step(cfg, s, act).value);
      }
    }
  }

  lemma SamePreordersKeepFlags(s: State, s': State)
    requires SamePreorders(s, s') && FlagInv(s)
    ensures FlagInv(s')
  {
    forall a ensures FlagAt(s', a) { FlagOf(s, a); }
  }

  // ----- Runs -----

  /** The flags are exact at every point of the run. */
  ghost predicate AlwaysExact(cfg: Config, s: State, acts: seq<Action>)
    requires cfg.Valid()
  {
    FlagInv(Run(cfg, s, acts)) && (acts == [] || AlwaysExact(cfg, s, acts[..|acts| - 1]))
  }

  /** Nothing in the run is a late call. */
  ghost predicate NeverLate(cfg: Config, s: State, acts: seq<Action>)
    requires cfg.Valid()
  {
    acts == [] ||
    (NeverLate(cfg, s, acts[..|acts| - 1]) && !IsLate(cfg, Run(cfg, s, acts[..|acts| - 1]), acts[|acts| - 1]))
  }

  /** The flags stay exact throughout a run if and only if the run has no late call. */
  lemma {:induction false} FlagsStayExactIff(cfg: Config, balances: map<AccountId, Balance>, acts: seq<Action>)
    requires cfg.Valid() && AdmissibleRun(cfg, Genesis(balances), acts)
    ensures AlwaysExact(cfg, Genesis(balances), acts) <==> NeverLate(cfg, Genesis(balances), acts)
    decreases |acts|
  {
    var g := Genesis(balances);
    if acts == [] {
      forall a ensures FlagAt(g, a) { assert LiveOf(g.preorders, a) == {}; }
    } else {
      var rest := acts[..|acts| - 1];
      FlagsStayExactIff(cfg, balances, rest);
      GenesisInv(cfg, balances);
      RunKeeps(cfg, g, rest);
      hide WorldInv, FlagInv, IsLate, Next, Genesis;
      if AlwaysExact(cfg, g, rest) {
        ExactNow(cfg, g, rest);
        StepKeepsFlagsIff(cfg, Run(cfg, g, rest), acts[|acts| - 1]);
      }
    }
  }

  lemma ExactNow(cfg: Config, s: State, acts: seq<Action>)
    requires cfg.Valid() && AlwaysExact(cfg, s, acts)
    ensures FlagInv(Run(cfg, s, acts))
  {
  }

  // ----- Stranded flags -----

  /** The account carries the flag although it has no live preorder. */
  ghost predicate Stranded(s: State, a: AccountId) {
    a in s.ownerHasPreorder && LiveOf(s.preorders, a) == {}
  }

  /** A late batch strands every owner on its list, if the flags were exact. */
  lemma LateBatchStrands(s: State, s': State, ids: seq<PreorderId>, a: AccountId)
    requires Taken(s, s', ids) && FlagInv(s) && s.lastDayOfSale && a in OwnersOf(s, ToSet(ids))
    ensures Stranded(s', a)
  {
    var id :| id in ToSet(ids) && id in s.preorders && s.preorders[id].owner == a;
    FlagOf(s, a);
    OnlyMember(LiveOf(s.preorders, a), id);
    LiveAfter(s, s', ids, a);
    assert {id} - ToSet(ids) == {};
  }

  /** Late refunds and settlements do so. */
  lemma LateRefundsStrand(cfg: Config, s: State, ids: seq<PreorderId>, a: AccountId)
    requires FlagInv(s) && s.lastDayOfSale && RefundAll(cfg, s, ids).Ok? && a in OwnersOf(s, ToSet(ids))
    ensures Stranded(RefundAll(cfg, s, ids).value, a)
  {
    hide FlagInv, RefundAll, FlagsAfter, AllLive, OwnersOf, Stranded;
    RefundAllTakes(cfg, s, ids);
    RefundAllFlags(cfg, s, ids);
    LateBatchStrands(s, RefundAll(cfg, s, ids).value, ids, a);
  }

  lemma LateSettlementsStrand(cfg: Config, s: State, overlord: AccountId, ids: seq<PreorderId>, host: Host,
                              a: AccountId)
    requires FlagInv(s) && s.lastDayOfSale && SettleAll(cfg, s, overlord, ids, host).Ok?
    requires a in OwnersOf(s, ToSet(ids))
    ensures Stranded(SettleAll(cfg, s, overlord, ids, host).value, a)
  {
    hide FlagInv, SettleAll, FlagsAfter, AllLive, OwnersOf, Stranded;
    SettleAllTakes(cfg, s, overlord, ids, host);
    SettleAllLive(cfg, s, overlord, ids, host);
    SettleAllFlags(cfg, s, overlord, ids, host);
    LateBatchStrands(s, SettleAll(cfg, s, overlord, ids, host).value, ids, a);
  }

  /** A batch clears no stranded flag: the account owns nothing on the list. */
  lemma BatchLeavesStranded(s: State, s': State, ids: seq<PreorderId>, a: AccountId)
    requires Taken(s, s', ids) && Stranded(s, a)
    ensures Stranded(s', a)
  {
    assert forall id :: id in s.preorders && s.preorders[id].owner == a ==> id in LiveOf(s.preorders, a);
    LiveAfter(s, s', ids, a);
  }

  /** Off the last day of sale a stranded account cannot preorder ... */
  lemma StrandedCannotPreorder(cfg: Config, s: State, a: AccountId, race: RaceType, career: CareerType)
    requires Stranded(s, a) && !s.lastDayOfSale
    ensures PreorderOriginOfShell(cfg, s, a, race, career) == Err(PreorderOriginOfShellNotAvailable)
  {
    hide PlacePreorder, Nfts.Uniques.Owns;
  }

  lemma PreorderLeavesStrandedIff(cfg: Config, s: State, sender: AccountId, race: RaceType, career: CareerType,
                                  a: AccountId)
    requires Stranded(s, a) && PreorderOriginOfShell(cfg, s, sender, race, career).Ok?
    ensures Stranded(PreorderOriginOfShell(cfg, s, sender, race, career).value, a) <==> sender != a
    ensures sender == a ==> s.lastDayOfSale
  {
    var s' := PreorderOriginOfShell(cfg, s, sender, race, career).value;
    hide Nfts.Uniques.Owns, Ledger.Reserve;
    if sender == a {
      assert s.preorderIndex in LiveOf(s'.preorders, a);
    }
  }

  /** A late preorder of the account itself succeeds. */
  predicate PlacesLate(cfg: Config, s: State, act: Action, a: AccountId)
    requires cfg.Valid()
  {
    s.lastDayOfSale && act.CallPreorder? && act.sender == a && Step(cfg, s, act).Ok?
  }

  /** ... and no call changes that but a preorder of its own on a last day of sale. */
  lemma StepLeavesStrandedIff(cfg: Config, s: State, act: Action, a: AccountId)
    requires cfg.Valid() && Stranded(s, a)
    ensures Stranded(Next(cfg, s, act), a) <==> !PlacesLate(cfg, s, act, a)
  {
    NextIs(cfg, s, act);
    hide Next, Step, SettleAll, RefundAll, PreorderOriginOfShell, Chunk, Stranded, FlagsAfter, AllLive;
    if Step(cfg, s, act).Ok? {
      if act.CallPreorder? {
        MarketCall(cfg, s, act);
        PreorderLeavesStrandedIff(cfg, s, act.sender, act.race, act.career, a);
      } else if act.CallMintChosen? {
        BatchCall(cfg, s, act);
        SettleAllTakes(cfg, s, act.sender, Chunk(cfg, act.ids), act.host);
        SettleAllLive(cfg, s, act.sender, Chunk(cfg, act.ids), act.host);
        SettleAllFlags(cfg, s, act.sender, Chunk(cfg, act.ids), act.host);
        BatchLeavesStranded(s, Step(cfg, s, act).value, Chunk(cfg, act.ids), a);
      } else if act.CallRefundNotChosen? {
        BatchCall(cfg, s, act);
        RefundAllTakes(cfg, s, Chunk(cfg, act.ids));
        RefundAllFlags(cfg, s, Chunk(cfg, act.ids));
        BatchLeavesStranded(s, Step(cfg, s, act).value, Chunk(cfg, act.ids), a);
      } else {
        OtherCallEvolves(cfg, s, act);
        SamePreordersLeaveStranded(s, Step(cfg, s, act).value, a);
      }
    }
  }

  lemma SamePreordersLeaveStranded(s: State, s': State, a: AccountId)
    requires SamePreorders(s, s') && Stranded(s, a)
    ensures Stranded(s', a)
  {
  }

  /** The account places no preorder on a last day of sale. */
  predicate NeverPlacesLate(cfg: Config, s: State, acts: seq<Action>, a: AccountId)
    requires cfg.Valid()
  {
    acts == [] ||
    (NeverPlacesLate(cfg, s, acts[..|acts| - 1], a) &&
     !PlacesLate(cfg, Run(cfg, s, acts[..|acts| - 1]), acts[|acts| - 1], a))
  }

  /**
   A stranded account stays stranded, over last days of sale and beyond, until it places a preorder on one of them. Off
   the last days every preorder it tries in the meantime is refused.
   */
  lemma {:induction false} StrandedForGood(cfg: Config, s: State, acts: seq<Action>, a: AccountId, race: RaceType,
                                           career: CareerType)
    requires cfg.Valid() && Stranded(s, a) && NeverPlacesLate(cfg, s, acts, a)
    ensures Stranded(Run(cfg, s, acts), a)
    ensures !Run(cfg, s, acts).lastDayOfSale ==>
      PreorderOriginOfShell(cfg, Run(cfg, s, acts), a, race, career) == Err(PreorderOriginOfShellNotAvailable)
    decreases |acts|
  {
    hide Next, Stranded, PreorderOriginOfShell, PlacesLate;
    if acts != [] {
      StrandedForGood(cfg, s, acts[..|acts| - 1], a, race, career);
      StepLeavesStrandedIff(cfg, Run(cfg, s, acts[..|acts| - 1]), acts[|acts| - 1], a);
    }
    if !Run(cfg, s, acts).lastDayOfSale {
      StrandedCannotPreorder(cfg, Run(cfg, s, acts), a, race, career);
    }
  }

  /** In particular over every run in which no last day of sale is declared. */
  lemma {:induction false} EarlyRunsPlaceNothingLate(cfg: Config, s: State, acts: seq<Action>, a: AccountId)
    requires cfg.Valid() && Early(cfg, s, acts)
    ensures NeverPlacesLate(cfg, s, acts, a)
    decreases |acts|
  {
    hide Run, Step;
    if acts != [] {
      EarlyRunsPlaceNothingLate(cfg, s, acts[..|acts| - 1], a);
    }
  }

  // ----- The index does break -----

  /** The call may be made in `s` and leads to `s'`. */
  ghost predicate Leads(cfg: Config, s: State, act: Action, s': State)
    requires cfg.Valid()
  {
    Admissible(s, act) && Next(cfg, s, act) == s'
  }

  lemma {:induction false} TraceReaches(cfg: Config, acts: seq<Action>, states: seq<State>)
    requires cfg.Valid() && |states| == |acts| + 1
    requires forall k :: 0 <= k < |acts| ==> Leads(cfg, states[k], acts[k], states[k + 1])
    ensures AdmissibleRun(cfg, states[0], acts) && Run(cfg, states[0], acts) == states[|acts|]
    decreases |acts|
  {
    hide Next, Admissible;
    if acts != [] {
      TraceReaches(cfg, acts[..|acts| - 1], states[..|acts|]);
      assert Leads(cfg, states[|acts| - 1], acts[|acts| - 1], states[|acts|]);
    }
  }

  lemma SettingLeads(cfg: Config, s: State, act: Action, s': State)
    requires cfg.Valid() && act.IsSetting() && Admissible(s, act) && SettingStep(cfg, s, act) == Ok(s')
    ensures Leads(cfg, s, act, s')
  {
    hide Step, SettingStep, Next, Admissible;
    SettingCall(cfg, s, act);
    NextIs(cfg, s, act);
  }

  lemma StatusLeads(cfg: Config, s: State, status: bool, statusType: StatusType, s': State)
    requires cfg.Valid() && SetStatusType(s, 0, status, statusType) == Ok(s')
    ensures Leads(cfg, s, CallSetStatusType(0, status, statusType), s')
  {
    hide SetStatusType;
    SettingLeads(cfg, s, CallSetStatusType(0, status, statusType), s');
  }

  /** The overlord 0 names the Spirit collection 0 and the Origin of Shell collection 1 and opens the claims. */
  function SetUp(): seq<Action> {
    [CallSetOverlord(true, 0), CallSetSpiritCollectionId(0, 0), CallSetOriginOfShellCollectionId(0, 1),
     CallSetSpiritsMetadata(0, []), CallSetOriginOfShellsMetadata(0, [(Cyborg, [])]),
     CallSetStatusType(0, true, ClaimSpirits)]
  }

  function SetUpStates(balances: map<AccountId, Balance>): (r: seq<State>)
    ensures |r| == 7
  {
    var s0 := Genesis(balances);
    var s1 := s0.(overlord := Some(0));
    var s2 := s1.(spiritCollection := Some(0));
    var s3 := s2.(originCollection := Some(1));
    var s4 := s3.(spiritsMetadata := Some([]));
    var s5 := s4.(originMetadata := map[Cyborg := []]);
    [s0, s1, s2, s3, s4, s5, s5.(canClaimSpirits := true)]
  }

  lemma SetUpLeads(cfg: Config, balances: map<AccountId, Balance>, k: nat)
    requires cfg.Valid() && k < 6
    ensures Leads(cfg, SetUpStates(balances)[k], SetUp()[k], SetUpStates(balances)[k + 1])
  {
    assert InsertAll(map[], [(Cyborg, [])]) == InsertAll(map[Cyborg := []], []);
    hide Leads;
    SettingLeads(cfg, SetUpStates(balances)[k], SetUp()[k], SetUpStates(balances)[k + 1]);
  }

  /**
   Account 1 has a Spirit, no Origin of Shell, the money for `more` preorders and `live` of them; `flagged` says its
   flag.
   */
  ghost predicate Buyer(cfg: Config, s: State, live: nat, more: nat, flagged: bool) {
    && s.overlord == Some(0) && s.spiritCollection.Some? && s.originCollection.Some? && Cyborg in s.originMetadata
    && s.OwnsSpirit(1) && !s.uniques.Owns(1, s.originCollection.value)
    && s.preorderIndex == live && (forall id :: id in s.preorders ==> id < live)
    && |LiveOf(s.preorders, 1)| == live && (1 in s.ownerHasPreorder <==> flagged)
    && cfg.primePrice * more <= s.ledger.Free(1)
  }

  lemma ClaimLeads(cfg: Config, balances: map<AccountId, Balance>)
    requires cfg.Valid() && 1 in balances && cfg.minBalanceToClaimSpirit <= balances[1]
    requires 2 * cfg.primePrice <= balances[1]
    ensures
      var s := SetUpStates(balances)[6];
      var s' := Next(cfg, s, CallClaimSpirit(1, Willing()));
      Buyer(cfg, s', 0, 2, false) && !s'.lastDayOfSale
  {
    var s, act := SetUpStates(balances)[6], CallClaimSpirit(1, Willing());
    assert s.uniques.OwnedInCollection(0, 1) == {};
    SpiritSucceedsIff(cfg, s, act);
    SpiritCall(cfg, s, act);
    hide Step;
    var s' := MintSpirit(s, 1, Willing()).value;
    assert s'.uniques.owner == map[(0, 0) := 1];
    assert (0, 0) in s'.uniques.OwnedInCollection(0, 1);
    assert s'.uniques.OwnedInCollection(1, 1) == {};
    assert LiveOf(s'.preorders, 1) == {};
  }

  lemma PreorderLeads(cfg: Config, s: State, live: nat, more: nat)
    requires cfg.Valid() && live <= 1 && more >= 1 && Buyer(cfg, s, live, more, false)
    requires (s.lastDayOfSale || s.canPreorder)
    ensures
      var s' := Next(cfg, s, CallPreorder(1, Cyborg, HackerWizard));
      Buyer(cfg, s', live + 1, more - 1, !s.lastDayOfSale) && s'.lastDayOfSale == s.lastDayOfSale
  {
    var act := CallPreorder(1, Cyborg, HackerWizard);
    assert cfg.primePrice * more == cfg.primePrice * (more - 1) + cfg.primePrice by {
      TimesSuccessor(cfg.primePrice, more - 1);
    }
    PreorderSucceedsIff(cfg, s, 1, Cyborg, HackerWizard);
    MarketCall(cfg, s, act);
    hide Step, LiveOf, Nfts.Uniques.Owns;
    LiveOfInsert(s.preorders, s.preorderIndex, PreorderInfo(1, Cyborg, HackerWizard, s.originMetadata[Cyborg]), 1);
  }

  lemma BuyerStays(cfg: Config, s: State, live: nat, more: nat, flagged: bool, canPreorder: bool, lastDayOfSale: bool)
    requires Buyer(cfg, s, live, more, flagged)
    ensures Buyer(cfg, s.(canPreorder := canPreorder, lastDayOfSale := lastDayOfSale), live, more, flagged)
    ensures s.overlord == Some(0)
  {
    hide LiveOf, Nfts.Uniques.Owns;
  }

  lemma LastDayLeads(cfg: Config, s: State, live: nat, more: nat, status: bool)
    requires cfg.Valid() && Buyer(cfg, s, live, more, false)
    ensures
      var s' := Next(cfg, s, CallSetStatusType(0, status, LastDayOfSale));
      Buyer(cfg, s', live, more, false) && s'.lastDayOfSale == status
  {
    BuyerStays(cfg, s, live, more, false, s.canPreorder, status);
    assert SetStatusType(s, 0, status, LastDayOfSale) == Ok(s.(lastDayOfSale := status));
    hide Buyer, Next, SetStatusType, Admissible;
    StatusLeads(cfg, s, status, LastDayOfSale, s.(lastDayOfSale := status));
  }

  lemma OpeningLeads(cfg: Config, s: State, live: nat, more: nat)
    requires cfg.Valid() && Buyer(cfg, s, live, more, false)
    ensures
      var s' := Next(cfg, s, CallSetStatusType(0, true, PreorderOriginOfShells));
      Buyer(cfg, s', live, more, false) && s'.lastDayOfSale == s.lastDayOfSale && s'.canPreorder
  {
    BuyerStays(cfg, s, live, more, false, true, s.lastDayOfSale);
    assert SetStatusType(s, 0, true, PreorderOriginOfShells) == Ok(s.(canPreorder := true));
    hide Buyer, Next, SetStatusType, Admissible;
    StatusLeads(cfg, s, true, PreorderOriginOfShells, s.(canPreorder := true));
  }

  ghost predicate Reaches(cfg: Config, g: State, acts: seq<Action>, s: State)
    requires cfg.Valid()
  {
    AdmissibleRun(cfg, g, acts) && Run(cfg, g, acts) == s
  }

  lemma Onward(cfg: Config, g: State, acts: seq<Action>, s: State, act: Action)
    requires cfg.Valid() && Reaches(cfg, g, acts, s) && (act.IsMarket() || act.CallSetStatusType?)
    ensures Reaches(cfg, g, acts + [act], Next(cfg, s, act))
  {
    NothingAssumed(s, act);
    hide Next, Admissible, Action.IsMarket;
    var more := acts + [act];
    assert more[..|more| - 1] == acts && more[|more| - 1] == act && more != [];
  }

  lemma NothingAssumed(s: State, act: Action)
    requires act.IsMarket() || act.CallSetStatusType?
    ensures Admissible(s, act)
  {
  }

  lemma SetUpReaches(cfg: Config, balances: map<AccountId, Balance>)
    requires cfg.Valid()
    ensures Reaches(cfg, Genesis(balances), SetUp(), SetUpStates(balances)[6])
  {
    assert |SetUpStates(balances)| == 7 && |SetUp()| == 6 && SetUpStates(balances)[0] == Genesis(balances);
    hide Leads, SetUp, SetUpStates, Genesis, Run, AdmissibleRun;
    forall k | 0 <= k < 6
      ensures Leads(cfg, SetUpStates(balances)[k], SetUp()[k], SetUpStates(balances)[k + 1])
    {
      SetUpLeads(cfg, balances, k);
    }
    TraceReaches(cfg, SetUp(), SetUpStates(balances));
  }

  function Late(): seq<Action> {
    [CallClaimSpirit(1, Willing()), CallSetStatusType(0, true, LastDayOfSale), CallPreorder(1, Cyborg, HackerWizard),
     CallSetStatusType(0, false, LastDayOfSale), CallSetStatusType(0, true, PreorderOriginOfShells),
     CallPreorder(1, Cyborg, HackerWizard)]
  }

  /** A preorder on the last day of sale, and one more when it is over. */
  function LateRun(): seq<Action> {
    SetUp() + [Late()[0]] + [Late()[1]] + [Late()[2]] + [Late()[3]] + [Late()[4]] + [Late()[5]]
  }

  /** Six calls, one after the other. */
  function AfterLate(cfg: Config, s: State): State
    requires cfg.Valid()
  {
    var s7 := Next(cfg, s, Late()[0]);
    var s8 := Next(cfg, s7, Late()[1]);
    var s9 := Next(cfg, s8, Late()[2]);
    var s10 := Next(cfg, s9, Late()[3]);
    var s11 := Next(cfg, s10, Late()[4]);
    Next(cfg, s11, Late()[5])
  }

  lemma LateRunReaches(cfg: Config, balances: map<AccountId, Balance>)
    requires cfg.Valid()
    ensures Reaches(cfg, Genesis(balances), LateRun(), AfterLate(cfg, SetUpStates(balances)[6]))
  {
    hide SetUp, SetUpStates, Genesis, Reaches, Next;
    var g, a6, late := Genesis(balances), SetUp(), Late();
    var s6 := SetUpStates(balances)[6];
    var s7 := Next(cfg, s6, late[0]);
    var s8 := Next(cfg, s7, late[1]);
    var s9 := Next(cfg, s8, late[2]);
    var s10 := Next(cfg, s9, late[3]);
    var s11 := Next(cfg, s10, late[4]);
    SetUpReaches(cfg, balances);
    Onward(cfg, g, a6, s6, late[0]);
    Onward(cfg, g, a6 + [late[0]], s7, late[1]);
    Onward(cfg, g, a6 + [late[0]] + [late[1]], s8, late[2]);
    Onward(cfg, g, a6 + [late[0]] + [late[1]] + [late[2]], s9, late[3]);
    Onward(cfg, g, a6 + [late[0]] + [late[1]] + [late[2]] + [late[3]], s10, late[4]);
    Onward(cfg, g, a6 + [late[0]] + [late[1]] + [late[2]] + [late[3]] + [late[4]], s11, late[5]);
  }

  /**
   A run in which the index breaks, under every configuration: account 1 has the money for two preorders, places one on
   the last day of sale and one after it, and then has two live preorders although it is not the last day of sale.
   */
  lemma FlagsBreak(cfg: Config, balances: map<AccountId, Balance>)
    requires cfg.Valid() && 1 in balances && cfg.minBalanceToClaimSpirit <= balances[1]
    requires 2 * cfg.primePrice <= balances[1]
    ensures AdmissibleRun(cfg, Genesis(balances), LateRun())
    ensures
      var s := Run(cfg, Genesis(balances), LateRun());
      !s.lastDayOfSale && |LiveOf(s.preorders, 1)| == 2 && 1 in s.ownerHasPreorder && !FlagInv(s)
  {
    var g := Genesis(balances);
    LateRunReaches(cfg, balances);
    LateRunBuys(cfg, balances);
    TwoLive(cfg, AfterLate(cfg, SetUpStates(balances)[6]));
    hide Genesis, SetUpStates, AfterLate, LateRun, LiveOf, FlagInv, Run, AdmissibleRun, Buyer;
  }

  lemma LateRunBuys(cfg: Config, balances: map<AccountId, Balance>)
    requires cfg.Valid() && 1 in balances && cfg.minBalanceToClaimSpirit <= balances[1]
    requires 2 * cfg.primePrice <= balances[1]
    ensures
      var s := AfterLate(cfg, SetUpStates(balances)[6]);
      Buyer(cfg, s, 2, 0, true) && !s.lastDayOfSale
  {
    hide Buyer, Next, SetUpStates;
    var s6, late := SetUpStates(balances)[6], Late();
    var s7 := Next(cfg, s6, late[0]);
    var s8 := Next(cfg, s7, late[1]);
    var s9 := Next(cfg, s8, late[2]);
    var s10 := Next(cfg, s9, late[3]);
    var s11 := Next(cfg, s10, late[4]);
    ClaimLeads(cfg, balances);
    LastDayLeads(cfg, s7, 0, 2, true);
    PreorderLeads(cfg, s8, 0, 2);
    LastDayLeads(cfg, s9, 1, 1, false);
    OpeningLeads(cfg, s10, 1, 1);
    PreorderLeads(cfg, s11, 1, 1);
  }

  lemma TwoLive(cfg: Config, s: State)
    requires Buyer(cfg, s, 2, 0, true)
    ensures |LiveOf(s.preorders, 1)| == 2 && 1 in s.ownerHasPreorder && !FlagInv(s)
  {
    assert !FlagAt(s, 1);
  }
}
