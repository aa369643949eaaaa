/** Feeding: the per-era totals agree with the per-account lists, and food is rationed. */
module Food {
  import opened Primitives
  import opened Sums
  import opened World
  import opened Frames

  // ----- The index agrees with the lists -----

  /** Per account whose list is of era `e`: how often it fed `n`. */
  ghost function FedMap(food: map<AccountId, FoodInfo>, e: EraId, n: Nft): map<AccountId, nat> {
    map a | a in food && food[a].era == e :: multiset(food[a].originOfShellsFed)[n]
  }

  ghost function FedTotal(food: map<AccountId, FoodInfo>, e: EraId, n: Nft): nat {
    SumMap(FedMap(food, e, n))
  }

  /** Lists are of this era or an earlier one, and within the rations. */
  ghost predicate ListsInv(cfg: Config, s: State) {
    forall a :: a in s.foodByOwners ==>
      && s.foodByOwners[a].era <= s.era
      && |s.foodByOwners[a].originOfShellsFed| <= cfg.foodPerEra
      && forall n :: multiset(s.foodByOwners[a].originOfShellsFed)[n] <= Max(1, cfg.maxFoodFeedSelf)
  }

  /** The total of every shell for the current era is the sum over the lists; later eras have no totals. */
  ghost predicate StatsInv(s: State) {
    && (forall n :: s.FoodStat(s.era, n) == WrapU32(FedTotal(s.foodByOwners, s.era, n)))
    && (forall e, n :: e > s.era ==> s.FoodStat(e, n) == 0)
  }

  ghost predicate FoodInv(cfg: Config, s: State) {
    ListsInv(cfg, s) && StatsInv(s)
  }

  /** What feeding writes: the sender's list is of this era and one longer. */
  lemma FeedEffect(cfg: Config, s: State, sender: AccountId, n: Nft)
    requires ListsInv(cfg, s) && FeedOriginOfShell(cfg, s, sender, n).Ok?
    ensures
      var s' := FeedOriginOfShell(cfg, s, sender, n).value;
      var isFresh := sender in s.foodByOwners && s.foodByOwners[sender].era == s.era;
      var before := if isFresh then s.foodByOwners[sender].originOfShellsFed else [];
      && s'.foodByOwners == s.foodByOwners[sender := FoodInfo(s.era, before + [n])]
      && |before| < cfg.foodPerEra
      && (isFresh ==> multiset(before)[n] < cfg.maxFoodFeedSelf)
      && s'.foodStats == s.foodStats[(s.era, n) := WrapU32(s.FoodStat(s.era, n) + 1)]
      && s'.era == s.era
  {
  }

  lemma FeedKeepsLists(cfg: Config, s: State, sender: AccountId, n: Nft)
    requires ListsInv(cfg, s) && FeedOriginOfShell(cfg, s, sender, n).Ok?
    ensures ListsInv(cfg, FeedOriginOfShell(cfg, s, sender, n).value)
  {
    FeedEffect(cfg, s, sender, n);
    hide FeedOriginOfShell;
  }

  /** One more entry in a list of this era is one more in the sum. */
  lemma FedTotalAfterFeed(food: map<AccountId, FoodInfo>, e: EraId, a: AccountId, n: Nft, m: Nft)
    ensures
      var before := if a in food && food[a].era == e then food[a].originOfShellsFed else [];
      FedTotal(food[a := FoodInfo(e, before + [n])], e, m) == FedTotal(food, e, m) + if m == n then 1 else 0
  {
    var before := if a in food && food[a].era == e then food[a].originOfShellsFed else [];
    var food' := food[a := FoodInfo(e, before + [n])];
    var count := multiset(before + [n])[m];
    assert count == multiset(before)[m] + if m == n then 1 else 0;
    assert FedMap(food', e, m) == FedMap(food, e, m)[a := count];
    SumUpdate(FedMap(food, e, m), a, count);
    assert Get(FedMap(food, e, m), a) == multiset(before)[m];
  }

  lemma StatAfterFeed(s: State, s': State, n: Nft, m: Nft)
    requires s'.foodStats == s.foodStats[(s.era, n) := WrapU32(s.FoodStat(s.era, n) + 1)]
    ensures s'.FoodStat(s.era, m) == if m == n then WrapU32(s.FoodStat(s.era, m) + 1) else s.FoodStat(s.era, m)
  {
  }

  lemma FeedKeepsStatOf(cfg: Config, s: State, sender: AccountId, n: Nft, m: Nft)
    requires FoodInv(cfg, s) && FeedOriginOfShell(cfg, s, sender, n).Ok?
    ensures
      var s' := FeedOriginOfShell(cfg, s, sender, n).value;
      s'.FoodStat(s.era, m) == WrapU32(FedTotal(s'.foodByOwners, s.era, m))
  {
    hide *;
    FoodInvIs(cfg, s);
    StatIs(s, m);
    FeedEffect(cfg, s, sender, n);
    StatAfterFeed(s, FeedOriginOfShell(cfg, s, sender, n).value, n, m);
    FedTotalAfterFeed(s.foodByOwners, s.era, sender, n, m);
    CountOneMore(FedTotal(s.foodByOwners, s.era, m));
  }

  lemma StatIs(s: State, n: Nft)
    requires StatsInv(s)
    ensures s.FoodStat(s.era, n) == WrapU32(FedTotal(s.foodByOwners, s.era, n))
  {
    hide FedTotal, WrapU32;
  }

  lemma FeedKeepsStats(cfg: Config, s: State, sender: AccountId, n: Nft)
    requires FoodInv(cfg, s) && FeedOriginOfShell(cfg, s, sender, n).Ok?
    ensures StatsInv(FeedOriginOfShell(cfg, s, sender, n).value)
  {
    FeedEffect(cfg, s, sender, n);
    var s' := FeedOriginOfShell(cfg, s, sender, n).value;
    hide FeedOriginOfShell, FedTotal, ListsInv;
    forall m
      ensures s'.FoodStat(s.era, m) == WrapU32(FedTotal(s'.foodByOwners, s.era, m))
    {
      FeedKeepsStatOf(cfg, s, sender, n, m);
    }
    forall e, m | e > s.era
      ensures s'.FoodStat(e, m) == 0
    {
      assert s.FoodStat(e, m) == 0;
    }
  }

  lemma CountOneMore(x: nat)
    ensures WrapU32(WrapU32(x) + 1) == WrapU32(x + 1)
  {
  }

  /** A new era starts with empty totals because every list is of an earlier era. */
  lemma NewEraKeeps(cfg: Config, s: State, s': State)
    requires FoodInv(cfg, s) && SameFood(s, s') && s.era <= s'.era
    ensures FoodInv(cfg, s')
  {
    assert forall e, n :: s'.FoodStat(e, n) == s.FoodStat(e, n);
    hide FedTotal;
    if s.era < s'.era {
      forall n {
        NothingFedYet(cfg, s, s'.era, n);
      }
    }
  }

  lemma NothingFedYet(cfg: Config, s: State, e: EraId, n: Nft)
    requires ListsInv(cfg, s) && s.era < e
    ensures FedTotal(s.foodByOwners, e, n) == 0
  {
    assert FedMap(s.foodByOwners, e, n) == map[];
  }

  lemma EraNeverFalls(cfg: Config, s: State, act: Action)
    requires cfg.Valid()
    ensures s.era <= Next(cfg, s, act).era
  {
    if Step(cfg, s, act).Ok? {
      StepUntouched(cfg, s, act);
      hide MarketStep, SettingStep, IncubationStep, DueEra;
    }
  }

  lemma StepKeepsFood(cfg: Config, s: State, act: Action)
    requires cfg.Valid() && FoodInv(cfg, s)
    ensures FoodInv(cfg, Next(cfg, s, act))
  {
    EraNeverFalls(cfg, s, act);
    if Step(cfg, s, act).Ok? {
      hide Step, FoodInv, FeedOriginOfShell;
      if act.CallFeed? {
        IncubationCall(cfg, s, act);
        FoodInvIs(cfg, s);
        FeedKeepsLists(cfg, s, act.sender, act.nft);
        FeedKeepsStats(cfg, s, act.sender, act.nft);
        FoodInvIs(cfg, Step(cfg, s, act).value);
      } else {
        StepUntouched(cfg, s, act);
        NewEraKeeps(cfg, s, Step(cfg, s, act).value);
      }
    }
  }

  lemma FoodInvIs(cfg: Config, s: State)
    ensures FoodInv(cfg, s) <==> ListsInv(cfg, s) && StatsInv(s)
  {
  }

  /**
   In every reachable storage the totals of the current era are the sums over the lists (counted in 32 bits),
   later eras have none, and every list is within the rations.
   */
  lemma {:induction false} RunKeepsFood(cfg: Config, balances: map<AccountId, Balance>, acts: seq<Action>)
    requires cfg.Valid()
    ensures FoodInv(cfg, Run(cfg, Genesis(balances), acts))
    decreases |acts|
  {
    if acts == [] {
      forall n ensures FedTotal(map[], 0, n) == 0 { assert FedMap(map[], 0, n) == map[]; }
    } else {
      hide FoodInv, Next;
      RunKeepsFood(cfg, balances, acts[..|acts| - 1]);
      StepKeepsFood(cfg, Run(cfg, Genesis(balances), acts[..|acts| - 1]), acts[|acts| - 1]);
    }
  }

  /** The totals of an era that is over never change again. */
  lemma {:induction false} PastStatsAreFinal(cfg: Config, s: State, acts: seq<Action>, e: EraId, n: Nft)
    requires cfg.Valid() && e < s.era
    ensures s.era <= Run(cfg, s, acts).era
    ensures Run(cfg, s, acts).FoodStat(e, n) == s.FoodStat(e, n)
    decreases |acts|
  {
    if acts != [] {
      var before, act := Run(cfg, s, acts[..|acts| - 1]), acts[|acts| - 1];
      PastStatsAreFinal(cfg, s, acts[..|acts| - 1], e, n);
      EraNeverFalls(cfg, before, act);
      if Step(cfg, before, act).Ok? {
        FeedWritesThisEra(cfg, before, act, e, n);
      }
      hide Step;
    }
  }

  lemma FeedWritesThisEra(cfg: Config, s: State, act: Action, e: EraId, n: Nft)
    requires cfg.Valid() && Step(cfg, s, act).Ok? && e != s.era
    ensures Step(cfg, s, act).value.FoodStat(e, n) == s.FoodStat(e, n)
  {
    if act.CallFeed? {
      IncubationCall(cfg, s, act);
    } else {
      StepUntouched(cfg, s, act);
    }
    hide Step;
  }

  // ----- Rations over whole runs -----

  /** Whether a call is a feeding that succeeds. */
  predicate Fed(cfg: Config, s: State, act: Action)
    requires cfg.Valid()
  {
    act.CallFeed? && Step(cfg, s, act).Ok?
  }

  /** How often `a` fed the shell `n` in era `e` of a run. */
  function FeedsBy(cfg: Config, s: State, acts: seq<Action>, e: EraId, a: AccountId, n: Nft): nat
    requires cfg.Valid()
  {
    if acts == [] then 0
    else
      var before, act := Run(cfg, s, acts[..|acts| - 1]), acts[|acts| - 1];
      FeedsBy(cfg, s, acts[..|acts| - 1], e, a, n) +
        if Fed(cfg, before, act) && before.era == e && act.sender == a && act.nft == n then 1 else 0
  }

  /** How often `a` fed anything in era `e`. */
  function FeedsOf(cfg: Config, s: State, acts: seq<Action>, e: EraId, a: AccountId): nat
    requires cfg.Valid()
  {
    if acts == [] then 0
    else
      var before, act := Run(cfg, s, acts[..|acts| - 1]), acts[|acts| - 1];
      FeedsOf(cfg, s, acts[..|acts| - 1], e, a) +
        if Fed(cfg, before, act) && before.era == e && act.sender == a then 1 else 0
  }

  /** How often anybody fed anything in era `e`, and who did. */
  function FeedsIn(cfg: Config, s: State, acts: seq<Action>, e: EraId): nat
    requires cfg.Valid()
  {
    if acts == [] then 0
    else
      var before, act := Run(cfg, s, acts[..|acts| - 1]), acts[|acts| - 1];
      FeedsIn(cfg, s, acts[..|acts| - 1], e) + if Fed(cfg, before, act) && before.era == e then 1 else 0
  }

  function Feeders(cfg: Config, s: State, acts: seq<Action>, e: EraId): set<AccountId>
    requires cfg.Valid()
  {
    if acts == [] then {}
    else
      var before, act := Run(cfg, s, acts[..|acts| - 1]), acts[|acts| - 1];
      Feeders(cfg, s, acts[..|acts| - 1], e) + if Fed(cfg, before, act) && before.era == e then {act.sender} else {}
  }

  /** How often anybody fed the shell `n` in era `e`. */
  function FeedsOn(cfg: Config, s: State, acts: seq<Action>, e: EraId, n: Nft): nat
    requires cfg.Valid()
  {
    if acts == [] then 0
    else
      var before, act := Run(cfg, s, acts[..|acts| - 1]), acts[|acts| - 1];
      FeedsOn(cfg, s, acts[..|acts| - 1], e, n) +
        if Fed(cfg, before, act) && before.era == e && act.nft == n then 1 else 0
  }

  /** A successful feeding adds one to the total of its shell in the current era; nothing else touches the totals. */
  lemma StatsAfter(cfg: Config, s: State, act: Action)
    requires cfg.Valid()
    ensures Next(cfg, s, act).foodStats ==
      if Fed(cfg, s, act) then s.foodStats[(s.era, act.nft) := WrapU32(s.FoodStat(s.era, act.nft) + 1)]
      else s.foodStats
  {
    NextIs(cfg, s, act);
    hide Next, Step, FeedOriginOfShell, WrapU32;
    if Step(cfg, s, act).Ok? {
      if act.CallFeed? {
        IncubationCall(cfg, s, act);
        FeedWrites(cfg, s, act.sender, act.nft);
      } else {
        StepUntouched(cfg, s, act);
      }
    }
  }

  lemma StepCountsFeeds(cfg: Config, s: State, act: Action, e: EraId, n: Nft)
    requires cfg.Valid()
    ensures Next(cfg, s, act).FoodStat(e, n) ==
      if Fed(cfg, s, act) && s.era == e && act.nft == n then WrapU32(s.FoodStat(e, n) + 1) else s.FoodStat(e, n)
  {
    hide Next, Step, WrapU32;
    StatsAfter(cfg, s, act);
  }

  lemma FeedWrites(cfg: Config, s: State, sender: AccountId, n: Nft)
    requires FeedOriginOfShell(cfg, s, sender, n).Ok?
    ensures FeedOriginOfShell(cfg, s, sender, n).value.foodStats ==
      s.foodStats[(s.era, n) := WrapU32(s.FoodStat(s.era, n) + 1)]
  {
    hide FoodAfter;
  }

  /** The totals of every era, past ones included, count the feedings of that era, in 32 bits. */
  lemma {:induction false} StatsCountFeeds(cfg: Config, balances: map<AccountId, Balance>, acts: seq<Action>, e: EraId,
                                           n: Nft)
    requires cfg.Valid()
    ensures Run(cfg, Genesis(balances), acts).FoodStat(e, n) == WrapU32(FeedsOn(cfg, Genesis(balances), acts, e, n))
    decreases |acts|
  {
    hide *;
    var g := Genesis(balances);
    if acts == [] {
      NoFeedsYet(cfg, balances, e, n);
    } else {
      var rest := acts[..|acts| - 1];
      StatsCountFeeds(cfg, balances, rest, e, n);
      StepCountsFeeds(cfg, Run(cfg, g, rest), acts[|acts| - 1], e, n);
      CountOneMore(FeedsOn(cfg, g, rest, e, n));
      RunUnfolds(cfg, g, acts);
      FeedsOnUnfolds(cfg, g, acts, e, n);
    }
  }

  lemma NoFeedsYet(cfg: Config, balances: map<AccountId, Balance>, e: EraId, n: Nft)
    requires cfg.Valid()
    ensures Run(cfg, Genesis(balances), []).FoodStat(e, n) == WrapU32(FeedsOn(cfg, Genesis(balances), [], e, n))
  {
    hide Next, Fed;
  }

  lemma FeedsOnUnfolds(cfg: Config, s: State, acts: seq<Action>, e: EraId, n: Nft)
    requires cfg.Valid() && acts != []
    ensures
      var before, act := Run(cfg, s, acts[..|acts| - 1]), acts[|acts| - 1];
      FeedsOn(cfg, s, acts, e, n) == FeedsOn(cfg, s, acts[..|acts| - 1], e, n) +
        if Fed(cfg, before, act) && before.era == e && act.nft == n then 1 else 0
  {
    hide Fed, Run;
  }

  /** A list of era `e` records all feedings of that era; before the first feeding of an era there are none. */
  ghost predicate Listed(s: State, e: EraId, a: AccountId, n: Nft, same: nat, all: nat) {
    && (a in s.foodByOwners && s.foodByOwners[a].era == e ==>
          same == multiset(s.foodByOwners[a].originOfShellsFed)[n] && all == |s.foodByOwners[a].originOfShellsFed|)
    && (a !in s.foodByOwners || s.foodByOwners[a].era < e ==> same == 0 && all == 0)
  }

  lemma FeedRecords(cfg: Config, s: State, act: Action, e: EraId, a: AccountId, n: Nft, same: nat, all: nat)
    requires cfg.Valid() && FoodInv(cfg, s) && Fed(cfg, s, act) && Listed(s, e, a, n, same, all)
    ensures
      var hits := s.era == e && act.sender == a;
      Listed(Next(cfg, s, act), e, a, n, same + (if hits && act.nft == n then 1 else 0), all + (if hits then 1 else 0))
  {
    IncubationCall(cfg, s, act);
    FeedEffect(cfg, s, act.sender, act.nft);
    hide Step, FeedOriginOfShell, StatsInv;
  }

  lemma StepRecords(cfg: Config, s: State, act: Action, e: EraId, a: AccountId, n: Nft, same: nat, all: nat)
    requires cfg.Valid() && FoodInv(cfg, s) && !Fed(cfg, s, act) && Listed(s, e, a, n, same, all)
    ensures Listed(Next(cfg, s, act), e, a, n, same, all)
  {
    if Step(cfg, s, act).Ok? {
      StepUntouched(cfg, s, act);
    }
    hide Step, FoodInv;
  }

  lemma {:induction false} RunRecords(cfg: Config, balances: map<AccountId, Balance>, acts: seq<Action>, e: EraId,
                                      a: AccountId, n: Nft)
    requires cfg.Valid()
    ensures
      var g := Genesis(balances);
      Listed(Run(cfg, g, acts), e, a, n, FeedsBy(cfg, g, acts, e, a, n), FeedsOf(cfg, g, acts, e, a))
    decreases |acts|
  {
    if acts != [] {
      var g := Genesis(balances);
      var before, act := Run(cfg, g, acts[..|acts| - 1]), acts[|acts| - 1];
      RunRecords(cfg, balances, acts[..|acts| - 1], e, a, n);
      RunKeepsFood(cfg, balances, acts[..|acts| - 1]);
      hide Fed, FoodInv, Listed, Genesis, Next;
      var same, all := FeedsBy(cfg, g, acts[..|acts| - 1], e, a, n), FeedsOf(cfg, g, acts[..|acts| - 1], e, a);
      if Fed(cfg, before, act) {
        FeedRecords(cfg, before, act, e, a, n, same, all);
      } else {
        StepRecords(cfg, before, act, e, a, n, same, all);
      }
      RunUnfolds(cfg, g, acts);
    }
  }

  lemma RunUnfolds(cfg: Config, s: State, acts: seq<Action>)
    requires cfg.Valid() && acts != []
    ensures Run(cfg, s, acts) == Next(cfg, Run(cfg, s, acts[..|acts| - 1]), acts[|acts| - 1])
  {
    hide Next;
  }

  /**
   Rationing, in every run, in every era and for every account: at most `FoodPerEra` feedings, at most
   `MaxFoodFeedSelf` (or one, where the runtime says zero) of the same shell.
   */
  lemma {:induction false} FoodIsRationed(cfg: Config, balances: map<AccountId, Balance>, acts: seq<Action>, e: EraId,
                                          a: AccountId, n: Nft)
    requires cfg.Valid()
    ensures FeedsOf(cfg, Genesis(balances), acts, e, a) <= cfg.foodPerEra
    ensures FeedsBy(cfg, Genesis(balances), acts, e, a, n) <= Max(1, cfg.maxFoodFeedSelf)
    decreases |acts|
  {
    if acts != [] {
      var g := Genesis(balances);
      var before, act := Run(cfg, g, acts[..|acts| - 1]), acts[|acts| - 1];
      FoodIsRationed(cfg, balances, acts[..|acts| - 1], e, a, n);
      if Fed(cfg, before, act) && before.era == e && act.sender == a {
        RunRecords(cfg, balances, acts, e, a, n);
        RunKeepsFood(cfg, balances, acts);
        RunUnfolds(cfg, g, acts);
        RunKeepsFood(cfg, balances, acts[..|acts| - 1]);
        ListedAfterFeeding(cfg, before, act);
        hide Fed, Genesis, Next, StatsInv;
      }
    }
  }

  lemma ListedAfterFeeding(cfg: Config, s: State, act: Action)
    requires cfg.Valid() && FoodInv(cfg, s) && Fed(cfg, s, act)
    ensures act.sender in Next(cfg, s, act).foodByOwners && Next(cfg, s, act).foodByOwners[act.sender].era == s.era
  {
    IncubationCall(cfg, s, act);
    FeedEffect(cfg, s, act.sender, act.nft);
    hide Step, FeedOriginOfShell, StatsInv;
  }

  /** Who fed how much in era `e`. */
  ghost function Diets(cfg: Config, s: State, acts: seq<Action>, e: EraId): map<AccountId, nat>
    requires cfg.Valid()
  {
    map a | a in Feeders(cfg, s, acts, e) :: FeedsOf(cfg, s, acts, e, a)
  }

  lemma {:induction false} NonFeedersFedNothing(cfg: Config, s: State, acts: seq<Action>, e: EraId, a: AccountId)
    requires cfg.Valid() && a !in Feeders(cfg, s, acts, e)
    ensures FeedsOf(cfg, s, acts, e, a) == 0
    decreases |acts|
  {
    if acts != [] {
      hide Fed, Run;
      NonFeedersFedNothing(cfg, s, acts[..|acts| - 1], e, a);
    }
  }

  lemma {:induction false} FeedsAddUp(cfg: Config, s: State, acts: seq<Action>, e: EraId)
    requires cfg.Valid()
    ensures FeedsIn(cfg, s, acts, e) == SumMap(Diets(cfg, s, acts, e))
    decreases |acts|
  {
    hide Step, Run;
    if acts == [] {
      assert Diets(cfg, s, acts, e) == map[];
    } else {
      var rest := acts[..|acts| - 1];
      var before, act := Run(cfg, s, rest), acts[|acts| - 1];
      FeedsAddUp(cfg, s, rest, e);
      if Fed(cfg, before, act) && before.era == e {
        var a := act.sender;
        if a !in Feeders(cfg, s, rest, e) {
          NonFeedersFedNothing(cfg, s, rest, e, a);
        }
        SumUpdate(Diets(cfg, s, rest, e), a, FeedsOf(cfg, s, acts, e, a));
        OneMoreDiet(cfg, s, acts, e);
      } else {
        assert Diets(cfg, s, acts, e) == Diets(cfg, s, rest, e);
      }
    }
  }

  lemma OneMoreDiet(cfg: Config, s: State, acts: seq<Action>, e: EraId)
    requires cfg.Valid() && acts != []
    requires Fed(cfg, Run(cfg, s, acts[..|acts| - 1]), acts[|acts| - 1]) && Run(cfg, s, acts[..|acts| - 1]).era == e
    ensures
      var a := acts[|acts| - 1].sender;
      Diets(cfg, s, acts, e) == Diets(cfg, s, acts[..|acts| - 1], e)[a := FeedsOf(cfg, s, acts, e, a)]
  {
    hide Fed, Run, Feeders, FeedsOf;
    FeedersUnfolds(cfg, s, acts, e);
    forall b { FeedsOfUnfolds(cfg, s, acts, e, b); }
  }

  lemma FeedersUnfolds(cfg: Config, s: State, acts: seq<Action>, e: EraId)
    requires cfg.Valid() && acts != []
    requires Fed(cfg, Run(cfg, s, acts[..|acts| - 1]), acts[|acts| - 1]) && Run(cfg, s, acts[..|acts| - 1]).era == e
    ensures Feeders(cfg, s, acts, e) == Feeders(cfg, s, acts[..|acts| - 1], e) + {acts[|acts| - 1].sender}
  {
    hide Step, Run;
  }

  lemma FeedsOfUnfolds(cfg: Config, s: State, acts: seq<Action>, e: EraId, a: AccountId)
    requires cfg.Valid() && acts != []
    ensures
      var before, act := Run(cfg, s, acts[..|acts| - 1]), acts[|acts| - 1];
      FeedsOf(cfg, s, acts, e, a) == FeedsOf(cfg, s, acts[..|acts| - 1], e, a) +
        if Fed(cfg, before, act) && before.era == e && act.sender == a then 1 else 0
  {
    hide Fed, Run;
  }

  /** The shells that were fed in era `e`. */
  function FedShells(cfg: Config, s: State, acts: seq<Action>, e: EraId): set<Nft>
    requires cfg.Valid()
  {
    if acts == [] then {}
    else
      var before, act := Run(cfg, s, acts[..|acts| - 1]), acts[|acts| - 1];
      FedShells(cfg, s, acts[..|acts| - 1], e) + if Fed(cfg, before, act) && before.era == e then {act.nft} else {}
  }

  /** How often each of them was fed. */
  ghost function Portions(cfg: Config, s: State, acts: seq<Action>, e: EraId): map<Nft, nat>
    requires cfg.Valid()
  {
    map n | n in FedShells(cfg, s, acts, e) :: FeedsOn(cfg, s, acts, e, n)
  }

  lemma {:induction false} UnfedShellsGotNothing(cfg: Config, s: State, acts: seq<Action>, e: EraId, n: Nft)
    requires cfg.Valid() && n !in FedShells(cfg, s, acts, e)
    ensures FeedsOn(cfg, s, acts, e, n) == 0
    decreases |acts|
  {
    if acts != [] {
      hide Step, Run;
      UnfedShellsGotNothing(cfg, s, acts[..|acts| - 1], e, n);
    }
  }

  /** Counted by shell or all at once, an era has the same number of feedings. */
  lemma {:induction false} PortionsAddUp(cfg: Config, s: State, acts: seq<Action>, e: EraId)
    requires cfg.Valid()
    ensures FeedsIn(cfg, s, acts, e) == SumMap(Portions(cfg, s, acts, e))
    decreases |acts|
  {
    hide Step, Run;
    if acts == [] {
      assert Portions(cfg, s, acts, e) == map[];
    } else {
      var rest := acts[..|acts| - 1];
      var before, act := Run(cfg, s, rest), acts[|acts| - 1];
      PortionsAddUp(cfg, s, rest, e);
      if Fed(cfg, before, act) && before.era == e {
        var n := act.nft;
        if n !in FedShells(cfg, s, rest, e) {
          UnfedShellsGotNothing(cfg, s, rest, e, n);
        }
        SumUpdate(Portions(cfg, s, rest, e), n, FeedsOn(cfg, s, acts, e, n));
        OneMorePortion(cfg, s, acts, e);
      } else {
        assert Portions(cfg, s, acts, e) == Portions(cfg, s, rest, e);
      }
    }
  }

  lemma OneMorePortion(cfg: Config, s: State, acts: seq<Action>, e: EraId)
    requires cfg.Valid() && acts != []
    requires Fed(cfg, Run(cfg, s, acts[..|acts| - 1]), acts[|acts| - 1]) && Run(cfg, s, acts[..|acts| - 1]).era == e
    ensures
      var n := acts[|acts| - 1].nft;
      Portions(cfg, s, acts, e) == Portions(cfg, s, acts[..|acts| - 1], e)[n := FeedsOn(cfg, s, acts, e, n)]
  {
    hide Fed, Run, FedShells, FeedsOn;
    FedShellsUnfolds(cfg, s, acts, e);
    forall m { FeedsOnUnfolds(cfg, s, acts, e, m); }
  }

  lemma FedShellsUnfolds(cfg: Config, s: State, acts: seq<Action>, e: EraId)
    requires cfg.Valid() && acts != []
    requires Fed(cfg, Run(cfg, s, acts[..|acts| - 1]), acts[|acts| - 1]) && Run(cfg, s, acts[..|acts| - 1]).era == e
    ensures FedShells(cfg, s, acts, e) == FedShells(cfg, s, acts[..|acts| - 1], e) + {acts[|acts| - 1].nft}
  {
    hide Step, Run;
  }

  /** The stored totals of era `e`, shell by shell. */
  ghost function EraStats(s: State, e: EraId): map<Nft, nat> {
    map key: (EraId, Nft) | key in s.foodStats && key.0 == e :: key.1 := s.foodStats[key]
  }

  lemma EraStatsAt(s: State, e: EraId, n: Nft)
    ensures n in EraStats(s, e) <==> (e, n) in s.foodStats
    ensures n in EraStats(s, e) ==> EraStats(s, e)[n] == s.FoodStat(e, n)
  {
    var key: (EraId, Nft) := (e, n);
    assert key.0 == e && key.1 == n;
  }

  lemma StepStatKeys(cfg: Config, s: State, act: Action, e: EraId, n: Nft)
    requires cfg.Valid()
    ensures (e, n) in Next(cfg, s, act).foodStats <==>
      (e, n) in s.foodStats || (Fed(cfg, s, act) && s.era == e && act.nft == n)
  {
    hide Next, Step, WrapU32;
    StatsAfter(cfg, s, act);
  }

  /** An era has a total for exactly the shells that were fed in it. */
  lemma {:induction false} StatKeysAreFedShells(cfg: Config, balances: map<AccountId, Balance>, acts: seq<Action>,
                                                e: EraId,
                                                n: Nft)
    requires cfg.Valid()
    ensures (e, n) in Run(cfg, Genesis(balances), acts).foodStats <==> n in FedShells(cfg, Genesis(balances), acts, e)
    decreases |acts|
  {
    if acts != [] {
      hide Fed, Next;
      StatKeysAreFedShells(cfg, balances, acts[..|acts| - 1], e, n);
      StepStatKeys(cfg, Run(cfg, Genesis(balances), acts[..|acts| - 1]), acts[|acts| - 1], e, n);
    }
  }

  /**
   The stored totals of an era add up to the feedings of that era, less what wrapped around: never more, and exactly
   that if the feedings fit 32 bits.
   */
  lemma StoredTotalsAddUp(cfg: Config, balances: map<AccountId, Balance>, acts: seq<Action>, e: EraId)
    requires cfg.Valid()
    ensures
      var g := Genesis(balances);
      var stored := SumMap(EraStats(Run(cfg, g, acts), e));
      && stored <= FeedsIn(cfg, g, acts, e)
      && (FeedsIn(cfg, g, acts, e) <= U32_MAX ==> stored == FeedsIn(cfg, g, acts, e))
  {
    hide *;
    var g := Genesis(balances);
    var stats, portions := EraStats(Run(cfg, g, acts), e), Portions(cfg, g, acts, e);
    PortionsAddUp(cfg, g, acts, e);
    forall n
      ensures n in stats <==> n in portions
      ensures n in stats ==> stats[n] <= portions[n] && (portions[n] <= U32_MAX ==> stats[n] == portions[n])
    {
      StatOfPortion(cfg, balances, acts, e, n);
    }
    assert stats.Keys == portions.Keys;
    SumAtMost(stats, portions);
    if FeedsIn(cfg, g, acts, e) <= U32_MAX {
      forall n | n in portions
        ensures portions[n] <= U32_MAX
      {
        SumRemove(portions, n);
      }
      assert stats == portions;
    }
  }

  lemma StatOfPortion(cfg: Config, balances: map<AccountId, Balance>, acts: seq<Action>, e: EraId, n: Nft)
    requires cfg.Valid()
    ensures
      var stats, portions := EraStats(Run(cfg, Genesis(balances), acts), e), Portions(cfg, Genesis(balances), acts, e);
      && (n in stats <==> n in portions)
      && (n in stats ==> stats[n] <= portions[n] && (portions[n] <= U32_MAX ==> stats[n] == portions[n]))
  {
    hide *;
    EraStatsAt(Run(cfg, Genesis(balances), acts), e, n);
    StatsCountFeeds(cfg, balances, acts, e, n);
    StatKeysAreFedShells(cfg, balances, acts, e, n);
    PortionAt(cfg, Genesis(balances), acts, e, n);
    WrapsDown(FeedsOn(cfg, Genesis(balances), acts, e, n));
  }

  lemma PortionAt(cfg: Config, s: State, acts: seq<Action>, e: EraId, n: Nft)
    requires cfg.Valid()
    ensures n in Portions(cfg, s, acts, e) <==> n in FedShells(cfg, s, acts, e)
    ensures n in Portions(cfg, s, acts, e) ==> Portions(cfg, s, acts, e)[n] == FeedsOn(cfg, s, acts, e, n)
  {
    hide FedShells, FeedsOn;
  }

  lemma WrapsDown(x: nat)
    ensures WrapU32(x) <= x && (x <= U32_MAX ==> WrapU32(x) == x)
  {
  }

  /** The food of an era is at most `FoodPerEra` for each account that fed in it: the feedings... */
  lemma EraFeedsAreBounded(cfg: Config, balances: map<AccountId, Balance>, acts: seq<Action>, e: EraId)
    requires cfg.Valid()
    ensures FeedsIn(cfg, Genesis(balances), acts, e) <= cfg.foodPerEra * |Feeders(cfg, Genesis(balances), acts, e)|
  {
    var g := Genesis(balances);
    hide Genesis, FeedsIn, FeedsOf, Feeders;
    FeedsAddUp(cfg, g, acts, e);
    var diets := Diets(cfg, g, acts, e);
    forall a | a in diets
      ensures diets[a] <= cfg.foodPerEra
    {
      FoodIsRationed(cfg, balances, acts, e, a, (0, 0));
    }
    SumBound(diets, cfg.foodPerEra);
    assert diets.Keys == Feeders(cfg, g, acts, e);
  }

  /** ... and the totals recorded in storage, which are exactly the feedings wherever that bound fits 32 bits. */
  lemma EraFoodIsBounded(cfg: Config, balances: map<AccountId, Balance>, acts: seq<Action>, e: EraId)
    requires cfg.Valid()
    ensures
      var g := Genesis(balances);
      var stored := SumMap(EraStats(Run(cfg, g, acts), e));
      var bound := cfg.foodPerEra * |Feeders(cfg, g, acts, e)|;
      && stored <= bound
      && (bound <= U32_MAX ==> stored == FeedsIn(cfg, g, acts, e))
  {
    hide *;
    EraFeedsAreBounded(cfg, balances, acts, e);
    StoredTotalsAddUp(cfg, balances, acts, e);
  }
}
