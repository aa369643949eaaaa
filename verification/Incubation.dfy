/**
 Every call on incubating shells on the storage items themselves, and the hatch time as it follows from the calls that
 opened the gate.
 */
module Incubation {
  import opened Primitives
  import opened Sums
  import opened Nfts
  import opened World
  import opened Frames
  import opened Invariants
  import opened Conditions
  import opened Hatching
  import opened Sales

  // ----- Starting -----

  /** The owner of an Origin of Shell starts it once, while the gate is open; its time is the official one. */
  lemma StartCall(cfg: Config, s: State, act: Action)
    requires cfg.Valid() && act.CallStartIncubation?
    ensures Step(cfg, s, act).Ok? <==>
      && s.canStartIncubation && s.originCollection == Some(act.nft.0)
      && act.nft in s.uniques.owner && s.uniques.owner[act.nft] == act.sender
      && act.nft !in s.hatchTimes
    ensures Step(cfg, s, act).Ok? ==>
      Step(cfg, s, act).value == s.(hatchTimes := s.hatchTimes[act.nft := s.officialHatchTime])
  {
    IncubationCall(cfg, s, act);
    hide Step;
  }

  // ----- Feeding -----

  /** What the account has fed in this era. */
  function FedInEra(s: State, a: AccountId): seq<Nft> {
    if a in s.foodByOwners && s.era <= s.foodByOwners[a].era then s.foodByOwners[a].originOfShellsFed else []
  }

  /**
   An owner of some Origin of Shell feeds any incubating one up to and including its hatch time, within its rations for
   the era. The first feeding of an era is not held against the limit per shell.
   */
  lemma FeedSucceedsIff(cfg: Config, s: State, act: Action)
    requires cfg.Valid() && act.CallFeed?
    ensures Step(cfg, s, act).Ok? <==>
      && s.canStartIncubation && s.originCollection == Some(act.nft.0)
      && act.nft in s.hatchTimes && s.now <= s.hatchTimes[act.nft]
      && HasOne(s, act.sender, s.originCollection)
      && |FedInEra(s, act.sender)| < cfg.foodPerEra
      && (act.sender in s.foodByOwners && s.era <= s.foodByOwners[act.sender].era ==>
            multiset(FedInEra(s, act.sender))[act.nft] < cfg.maxFoodFeedSelf)
  {
    IncubationCall(cfg, s, act);
    HasOneIff(s, act.sender, act.nft.0);
    hide Step, HasOne, Nfts.Uniques.Owns;
  }

  /** The list of the era grows by the shell, and so does the shell's total of the era, in 32 bits. */
  lemma FeedCallEffect(cfg: Config, s: State, act: Action)
    requires cfg.Valid() && act.CallFeed? && Step(cfg, s, act).Ok?
    ensures
      var s' := Step(cfg, s, act).value;
      && s'.foodByOwners.Keys == s.foodByOwners.Keys + {act.sender}
      && s'.foodByOwners[act.sender].originOfShellsFed == FedInEra(s, act.sender) + [act.nft]
      && (FedInEra(s, act.sender) == [] || s'.foodByOwners[act.sender].era == s.foodByOwners[act.sender].era)
      && (act.sender !in s.foodByOwners || s.foodByOwners[act.sender].era <= s.era ==>
            s'.foodByOwners[act.sender].era == s.era)
      && (forall a :: a in s.foodByOwners && a != act.sender ==> s'.foodByOwners[a] == s.foodByOwners[a])
      && s'.foodStats == s.foodStats[(s.era, act.nft) := (s.FoodStat(s.era, act.nft) + 1) % 0x1_0000_0000]
      && s' == s.(foodByOwners := s'.foodByOwners, foodStats := s'.foodStats)
  {
    IncubationCall(cfg, s, act);
    hide Step, Nfts.Uniques.Owns;
  }

  // ----- Hatching -----

  /** What RMRK and pallet-uniques must do for a hatch of `n`. */
  predicate TakesHatch(s: State, n: Nft, host: Host) {
    s.shellCollection.Some? &&
    var m := (s.shellCollection.value, Get(s.uniques.nextNftId, s.shellCollection.value));
    && m.1 < U32_MAX
    && host.burns(n) && host.clearsAttributes(n) && host.mints(m) && host.setsAttributes(m)
  }

  /** The overlord hatches a live Origin of Shell strictly after its hatch time. */
  lemma HatchCallSucceedsIff(cfg: Config, s: State, act: Action)
    requires cfg.Valid() && WorldInv(cfg, s) && act.CallHatch?
    ensures Step(cfg, s, act).Ok? <==>
      && s.overlord == Some(act.sender) && s.canStartIncubation && s.originCollection == Some(act.nft.0)
      && act.nft in s.uniques.owner && act.nft in s.hatchTimes && s.hatchTimes[act.nft] < s.now
      && 10 <= cfg.keyLimit && TakesHatch(s, act.nft, act.host)
  {
    IncubationCall(cfg, s, act);
    HatchSucceedsIff(cfg, s, act.sender, act.nft, act.host);
    KeysFitIff(cfg);
    hide Step, WorldInv, KeysFit, HatchOriginOfShell;
  }

  /** The Origin of Shell is gone with its labels; the next Shell has its owner and its traits, and can be moved. */
  lemma HatchCallEffect(cfg: Config, s: State, act: Action)
    requires cfg.Valid() && WorldInv(cfg, s) && act.CallHatch? && Step(cfg, s, act).Ok?
    ensures act.nft in s.uniques.owner && s.shellCollection.Some?
    ensures
      var s' := Step(cfg, s, act).value;
      var n, m := act.nft, (s.shellCollection.value, Get(s.uniques.nextNftId, s.shellCollection.value));
      && s'.uniques.owner == (s.uniques.owner - {n})[m := s.uniques.owner[n]]
      && s'.uniques.nextNftId == s.uniques.nextNftId[m.0 := m.1 + 1]
      && s'.uniques.frozen == s.uniques.frozen - {n}
      && TraitsOf(s.uniques, n).Some? && TraitsOf(s'.uniques, m) == TraitsOf(s.uniques, n)
      && (forall key :: s'.uniques.Attribute(n, key) == None)
      && (forall k :: k != n && k != m ==> TraitsOf(s'.uniques, k) == TraitsOf(s.uniques, k))
      && s' == s.(uniques := s'.uniques)
  {
    hide *;
    HatchCallIs(cfg, s, act);
    CollectionsOf(cfg, s);
    HatchEffect(cfg, s, act.sender, act.nft, act.host);
    NextIsAnother(s, act.nft);
    HatchClears(cfg, s, act.sender, act.nft, act.host);
    AwakenedIs(s.uniques, Step(cfg, s, act).value.uniques, act.nft, s.shellCollection.value);
  }

  lemma HatchCallIs(cfg: Config, s: State, act: Action)
    requires cfg.Valid() && act.CallHatch?
    ensures Step(cfg, s, act) == HatchOriginOfShell(cfg, s, act.sender, act.nft, act.host)
  {
    IncubationCall(cfg, s, act);
    hide Step, HatchOriginOfShell;
  }

  lemma NextIsAnother(s: State, n: Nft)
    requires n in s.uniques.owner && s.shellCollection.Some?
    requires s.uniques.NextNft(s.shellCollection.value) !in s.uniques.owner
    ensures s.uniques.NextNft(s.shellCollection.value) != n
    ensures s.uniques.NextNft(s.shellCollection.value) ==
            (s.shellCollection.value, Get(s.uniques.nextNftId, s.shellCollection.value))
  {
  }

  lemma AwakenedIs(u: Uniques, u': Uniques, n: Nft, shell: CollectionId)
    requires n in u.owner && Awakened(u, u', n, shell)
    ensures
      var m := (shell, Get(u.nextNftId, shell));
      && u'.owner == (u.owner - {n})[m := u.owner[n]]
      && u'.nextNftId == u.nextNftId[m.0 := m.1 + 1]
      && u'.frozen == u.frozen - {n}
      && forall k :: k != n && k != m ==> TraitsOf(u', k) == TraitsOf(u, k)
  {
    hide TraitsOf;
  }

  lemma HatchClears(cfg: Config, s: State, sender: AccountId, n: Nft, host: Host)
    requires HatchOriginOfShell(cfg, s, sender, n, host).Ok?
    requires s.shellCollection.Some? ==> s.uniques.NextNft(s.shellCollection.value) != n
    ensures forall key :: HatchOriginOfShell(cfg, s, sender, n, host).value.uniques.Attribute(n, key) == None
  {
    hide KeysFit, ReadTraits, Awaken;
    var traits := ReadTraits(s.uniques, n).value;
    AwakenClears(cfg, s, n, s.uniques.owner[n], s.shellCollection.value, traits, host);
  }

  lemma AwakenClears(cfg: Config, s: State, n: Nft, owner: AccountId, shell: CollectionId, t: Traits, host: Host)
    requires Awaken(cfg, s.overlord, s.uniques, n, owner, shell, t, host).Ok? && s.uniques.NextNft(shell) != n
    ensures forall key :: Awaken(cfg, s.overlord, s.uniques, n, owner, shell, t, host).value.Attribute(n, key) == None
  {
    var burnt := s.uniques.Burn(host, owner, n).value;
    var cleared := ClearTraits(burnt, host, n).value;
    var minted := cleared.Mint(host, shell, owner).value;
    SetAttributesEffect(cfg, s, minted, host, s.uniques.NextNft(shell), t);
    var u' := Awaken(cfg, s.overlord, s.uniques, n, owner, shell, t, host).value;
    assert SameAttributes(minted, u', n);
    forall key
      ensures u'.Attribute(n, key) == None
    {
      AllCleared(burnt, host, n, key);
    }
  }

  lemma AllCleared(u: Uniques, host: Host, n: Nft, key: AttributeKey)
    requires ClearTraits(u, host, n).Ok?
    ensures ClearTraits(u, host, n).value.Attribute(n, key) == None
  {
  }

  // ----- Shortening -----

  /** The overlord's batch: every entry names an incubating Origin of Shell, and every time falls by its reductions. */
  lemma UpdateCall(cfg: Config, s: State, act: Action)
    requires cfg.Valid() && act.CallUpdateIncubationTime?
    ensures Step(cfg, s, act).Ok? <==>
      && s.overlord == Some(act.sender)
      && forall r :: r in act.reductions ==> s.originCollection == Some(r.0.0) && r.0 in s.hatchTimes
    ensures Step(cfg, s, act).Ok? ==>
      var s' := Step(cfg, s, act).value;
      && s' == s.(hatchTimes := s'.hatchTimes)
      && s'.hatchTimes.Keys == s.hatchTimes.Keys
      && forall n :: n in s.hatchTimes ==>
           var all := ReductionOf(act.reductions, n);
           s'.hatchTimes[n] == if all <= s.hatchTimes[n] then s.hatchTimes[n] - all else 0
  {
    IncubationCall(cfg, s, act);
    UpdateSucceedsIff(s, act.sender, act.reductions);
    ReduceAllIs(s, act.reductions);
    hide Step, ReduceAll, ReductionOf;
  }

  // ----- The gate -----

  /** The overlord sets the gate, and with it the official hatch time: now and the duration, in 64 bits. */
  lemma GateCall(cfg: Config, s: State, act: Action)
    requires cfg.Valid() && act.CallSetCanStartIncubation?
    ensures Step(cfg, s, act) ==
      if s.overlord != Some(act.sender) then Err(RequireOverlordAccount)
      else Ok(s.(canStartIncubation := act.status,
                 officialHatchTime := (s.now + cfg.incubationDuration) % 0x1_0000_0000_0000_0000))
  {
    SettingCall(cfg, s, act);
    hide Step, SetStatusType, SetOverlord, InitializeWorldClock, SetSpiritCollectionId, SetOriginOfShellCollectionId,
      SetShellCollectionId, SetSpiritsMetadata, SetOriginOfShellsMetadata;
  }

  /** When the overlord last set the gate, and to what. */
  function GateSet(cfg: Config, s: State, acts: seq<Action>): Option<(nat, bool)>
    requires cfg.Valid()
  {
    if acts == [] then None
    else
      var before, act := Run(cfg, s, acts[..|acts| - 1]), acts[|acts| - 1];
      if act.CallSetCanStartIncubation? && before.overlord == Some(act.sender) then Some((before.now, act.status))
      else GateSet(cfg, s, acts[..|acts| - 1])
  }

  /** The official hatch time of a gate set at `t`: the duration later, in 64 bits. */
  function OfficialTime(cfg: Config, t: nat): nat {
    (t + cfg.incubationDuration) % 0x1_0000_0000_0000_0000
  }

  /** The gate and the official hatch time are those of the last time it was set. */
  ghost predicate GateAgrees(cfg: Config, s: State, last: Option<(nat, bool)>) {
    match last
    case None => s.officialHatchTime == 0 && !s.canStartIncubation
    case Some(at) => s.officialHatchTime == OfficialTime(cfg, at.0) && s.canStartIncubation == at.1
  }

  lemma OtherCallsLeaveTheGate(cfg: Config, s: State, act: Action)
    requires cfg.Valid() && !act.CallSetCanStartIncubation?
    ensures Next(cfg, s, act).officialHatchTime == s.officialHatchTime
    ensures Next(cfg, s, act).canStartIncubation == s.canStartIncubation
  {
    hide Step;
    if Step(cfg, s, act).Ok? {
      StepUntouched(cfg, s, act);
    }
  }

  /** Over every run the gate and the official hatch time are those of the last call that set them. */
  lemma {:induction false} GateFollowsTheLastCall(cfg: Config, balances: map<AccountId, Balance>, acts: seq<Action>)
    requires cfg.Valid()
    ensures GateAgrees(cfg, Run(cfg, Genesis(balances), acts), GateSet(cfg, Genesis(balances), acts))
    decreases |acts|
  {
    if acts != [] {
      hide Next, GateAgrees;
      GateFollowsTheLastCall(cfg, balances, acts[..|acts| - 1]);
      GateStep(cfg, Run(cfg, Genesis(balances), acts[..|acts| - 1]), acts[|acts| - 1],
               GateSet(cfg, Genesis(balances), acts[..|acts| - 1]));
    }
  }

  lemma GateStep(cfg: Config, s: State, act: Action, last: Option<(nat, bool)>)
    requires cfg.Valid() && GateAgrees(cfg, s, last)
    ensures
      var sets := act.CallSetCanStartIncubation? && s.overlord == Some(act.sender);
      GateAgrees(cfg, Next(cfg, s, act), if sets then Some((s.now, act.status)) else last)
  {
    if act.CallSetCanStartIncubation? {
      GateCall(cfg, s, act);
      NextIs(cfg, s, act);
      hide Next, Step;
    } else {
      OtherCallsLeaveTheGate(cfg, s, act);
      hide Next, Step, OfficialTime;
    }
  }

  /** When the gate was set under which `n` started, if it did. */
  function OpenedFor(cfg: Config, s: State, acts: seq<Action>, n: Nft): Option<nat>
    requires cfg.Valid()
  {
    if acts == [] then None
    else
      var rest, act := acts[..|acts| - 1], acts[|acts| - 1];
      if Starts(cfg, Run(cfg, s, rest), act, n) && GateSet(cfg, s, rest).Some? then Some(GateSet(cfg, s, rest).value.0)
      else OpenedFor(cfg, s, rest, n)
  }

  lemma StartsBehindTheGate(cfg: Config, s: State, act: Action, n: Nft, last: Option<(nat, bool)>)
    requires cfg.Valid() && GateAgrees(cfg, s, last) && Starts(cfg, s, act, n)
    ensures last.Some? && s.officialHatchTime == OfficialTime(cfg, last.value.0)
  {
    StartCall(cfg, s, act);
    hide Step, OfficialTime;
  }

  lemma {:induction false} StartedAtTheOfficialTime(cfg: Config, balances: map<AccountId, Balance>, acts: seq<Action>,
                                                    n: Nft)
    requires cfg.Valid()
    ensures
      var since := OpenedFor(cfg, Genesis(balances), acts, n);
      StartedAt(cfg, Genesis(balances), acts, n) ==
      match since
      case None => None
      case Some(t) => Some(OfficialTime(cfg, t))
    decreases |acts|
  {
    if acts != [] {
      var g, rest, act := Genesis(balances), acts[..|acts| - 1], acts[|acts| - 1];
      hide Starts, GateAgrees, Next, GateSet, Genesis, OfficialTime;
      StartedAtTheOfficialTime(cfg, balances, rest, n);
      GateFollowsTheLastCall(cfg, balances, rest);
      if Starts(cfg, Run(cfg, g, rest), act, n) {
        StartsBehindTheGate(cfg, Run(cfg, g, rest), act, n, GateSet(cfg, g, rest));
      }
    }
  }

  /** The hatch time is `end` in 64 bits, minus what was reduced, stopping at zero. */
  predicate DueAt(hatchTime: nat, end: nat, reduced: nat) {
    var due := end % 0x1_0000_0000_0000_0000;
    hatchTime == if reduced <= due then due - reduced else 0
  }

  /**
   Over every run a shell has a hatch time exactly when it was started, and it is the time at which the gate was last
   set before its start, plus the duration, in 64 bits, minus all reductions, stopping at zero.
   */
  lemma HatchTimeFromTheGate(cfg: Config, balances: map<AccountId, Balance>, acts: seq<Action>, n: Nft)
    requires cfg.Valid()
    ensures
      var s := Run(cfg, Genesis(balances), acts);
      var since := OpenedFor(cfg, Genesis(balances), acts, n);
      && (n in s.hatchTimes <==> since.Some?)
      && (since.Some? ==>
            DueAt(s.hatchTimes[n], since.value + cfg.incubationDuration, Reduced(cfg, Genesis(balances), acts, n)))
  {
    hide *;
    HatchTimeClosedForm(cfg, balances, acts, n);
    StartedAtTheOfficialTime(cfg, balances, acts, n);
    var since := OpenedFor(cfg, Genesis(balances), acts, n);
    if since.Some? {
      DueAtIs(cfg, since.value, Reduced(cfg, Genesis(balances), acts, n));
    }
  }

  lemma DueAtIs(cfg: Config, t: nat, reduced: nat)
    ensures DueAt(SaturatingSub(OfficialTime(cfg, t), reduced), t + cfg.incubationDuration, reduced)
  {
  }

  /** So, where 64 bits suffice, a shell incubates for the whole duration less its reductions, and not a second more. */
  lemma IncubatesForTheDuration(cfg: Config, balances: map<AccountId, Balance>, acts: seq<Action>, n: Nft)
    requires cfg.Valid() && OpenedFor(cfg, Genesis(balances), acts, n).Some?
    requires OpenedFor(cfg, Genesis(balances), acts, n).value + cfg.incubationDuration < 0x1_0000_0000_0000_0000
    ensures
      var s := Run(cfg, Genesis(balances), acts);
      var end := OpenedFor(cfg, Genesis(balances), acts, n).value + cfg.incubationDuration;
      && n in s.hatchTimes
      && (s.now <= s.hatchTimes[n] <==> s.now == 0 || s.now + Reduced(cfg, Genesis(balances), acts, n) <= end)
  {
    hide *;
    HatchTimeFromTheGate(cfg, balances, acts, n);
    var s := Run(cfg, Genesis(balances), acts);
    NotPastUntil(s.now, OpenedFor(cfg, Genesis(balances), acts, n).value + cfg.incubationDuration,
                 Reduced(cfg, Genesis(balances), acts, n), s.hatchTimes[n]);
  }

  lemma NotPastUntil(now: nat, end: nat, reduced: nat, hatchTime: nat)
    requires end < 0x1_0000_0000_0000_0000 && DueAt(hatchTime, end, reduced)
    ensures now <= hatchTime <==> now == 0 || now + reduced <= end
  {
  }

  // ----- The end of a block -----

  /** The era moves by one, and only if a whole era of seconds more than it has counted lies behind zero day. */
  lemma FinalizeStep(cfg: Config, s: State)
    requires cfg.Valid()
    ensures Next(cfg, s, Finalize) ==
      if s.zeroDay.Some? && s.now > s.zeroDay.value && (s.now - s.zeroDay.value) / cfg.secondsPerEra > s.era
      then s.(era := s.era + 1) else s
  {
    hide MarketStep, SettingStep, IncubationStep;
  }
}
