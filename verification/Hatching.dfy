/** Incubation: hatch times in closed form, feeding before hatching, and what a hatch preserves. */
module Hatching {
  import opened Primitives
  import opened Sums
  import opened Nfts
  import opened World
  import opened Frames
  import opened Invariants
  import opened Preservation

  // ----- A batch of reductions -----

  /** The sum of the reductions that a batch names for `n`. */
  function ReductionOf(reductions: seq<(Nft, nat)>, n: Nft): nat
    decreases |reductions|
  {
    if reductions == [] then 0
    else (if reductions[0].0 == n then reductions[0].1 else 0) + ReductionOf(reductions[1..], n)
  }

  predicate Reducible(s: State, n: Nft) {
    s.originCollection == Some(n.0) && n in s.hatchTimes
  }

  predicate AllReducible(s: State, reductions: seq<(Nft, nat)>) {
    forall r :: r in reductions ==> Reducible(s, r.0)
  }

  function ReducedTimes(times: map<Nft, nat>, reductions: seq<(Nft, nat)>): map<Nft, nat> {
    map n | n in times :: SaturatingSub(times[n], ReductionOf(reductions, n))
  }

  lemma ReduceFirst(s: State, reductions: seq<(Nft, nat)>)
    requires reductions != [] && ReduceOne(s, reductions[0].0, reductions[0].1).Ok?
    ensures
      var s1 := ReduceOne(s, reductions[0].0, reductions[0].1).value;
      && s1 == s.(hatchTimes := s1.hatchTimes)
      && (AllReducible(s, reductions) <==> AllReducible(s1, reductions[1..]))
      && ReducedTimes(s1.hatchTimes, reductions[1..]) == ReducedTimes(s.hatchTimes, reductions)
  {
    assert reductions == [reductions[0]] + reductions[1..];
    var s1 := ReduceOne(s, reductions[0].0, reductions[0].1).value;
    assert forall n :: Reducible(s1, n) <==> Reducible(s, n);
  }

  /**
   A batch succeeds exactly when every entry names an incubating Origin of Shell, judged before the batch; then every
   hatch time falls by the sum of its reductions, stopping at zero.
   */
  lemma {:induction false} ReduceAllIs(s: State, reductions: seq<(Nft, nat)>)
    ensures ReduceAll(s, reductions).Ok? <==> AllReducible(s, reductions)
    ensures ReduceAll(s, reductions).Ok? ==>
      ReduceAll(s, reductions).value == s.(hatchTimes := ReducedTimes(s.hatchTimes, reductions))
    decreases |reductions|
  {
    if reductions == [] {
      assert ReducedTimes(s.hatchTimes, reductions) == s.hatchTimes;
    } else {
      assert reductions == [reductions[0]] + reductions[1..];
      if ReduceOne(s, reductions[0].0, reductions[0].1).Ok? {
        var s1 := ReduceOne(s, reductions[0].0, reductions[0].1).value;
        ReduceAllIs(s1, reductions[1..]);
        ReduceFirst(s, reductions);
        hide AllReducible, ReducedTimes, ReduceOne;
      } else {
        assert !Reducible(s, reductions[0].0);
      }
    }
  }

  lemma {:induction false} ReductionOfSplit(a: seq<(Nft, nat)>, b: seq<(Nft, nat)>, n: Nft)
    ensures ReductionOf(a + b, n) == ReductionOf(a, n) + ReductionOf(b, n)
    decreases |a|
  {
    if a == [] {
      assert a + b == b;
    } else {
      assert (a + b)[1..] == a[1..] + b;
      ReductionOfSplit(a[1..], b, n);
    }
  }

  lemma ReductionOfWithout(s: seq<(Nft, nat)>, i: nat, n: Nft)
    requires i < |s|
    ensures ReductionOf(s, n) == ReductionOf(s[..i] + s[i + 1..], n) + if s[i].0 == n then s[i].1 else 0
  {
    ReductionOfSplit(s[..i], s[i + 1..], n);
    ReductionOfSplit(s[..i], s[i..], n);
    assert s == s[..i] + s[i..];
    assert s[i..][1..] == s[i + 1..];
  }

  lemma {:induction false} ReductionOfPermuted(a: seq<(Nft, nat)>, b: seq<(Nft, nat)>, n: Nft)
    requires multiset(a) == multiset(b)
    ensures ReductionOf(a, n) == ReductionOf(b, n)
    decreases |a|
  {
    if a == [] {
      assert |b| == |multiset(b)| == 0;
    } else {
      var i := WithoutFirst(a, b);
      ReductionOfPermuted(a[1..], b[..i] + b[i + 1..], n);
      ReductionOfWithout(b, i, n);
    }
  }

  /** The order of the entries of a batch does not matter, even if it names a shell several times. */
  lemma ReductionOrderIsIrrelevant(s: State, a: seq<(Nft, nat)>, b: seq<(Nft, nat)>)
    requires multiset(a) == multiset(b)
    ensures ReduceAll(s, a).Ok? <==> ReduceAll(s, b).Ok?
    ensures ReduceAll(s, a).Ok? ==> ReduceAll(s, a) == ReduceAll(s, b)
  {
    ReduceAllIs(s, a);
    ReduceAllIs(s, b);
    assert forall r :: r in a <==> r in multiset(a);
    assert forall r :: r in b <==> r in multiset(b);
    forall n
      ensures ReductionOf(a, n) == ReductionOf(b, n)
    {
      ReductionOfPermuted(a, b, n);
    }
    assert ReducedTimes(s.hatchTimes, a) == ReducedTimes(s.hatchTimes, b);
  }

  // ----- Hatch times over runs -----

  predicate Starts(cfg: Config, s: State, act: Action, n: Nft)
    requires cfg.Valid()
  {
    act.CallStartIncubation? && act.nft == n && Step(cfg, s, act).Ok?
  }

  /** The official hatch time at the moment `n` started incubating, if it did. */
  function StartedAt(cfg: Config, s: State, acts: seq<Action>, n: Nft): Option<nat>
    requires cfg.Valid()
  {
    if acts == [] then None
    else
      var before, act := Run(cfg, s, acts[..|acts| - 1]), acts[|acts| - 1];
      if Starts(cfg, before, act, n) then Some(before.officialHatchTime)
      else StartedAt(cfg, s, acts[..|acts| - 1], n)
  }

  /** The reductions that one call applies to `n`. */
  function StepReduces(cfg: Config, s: State, act: Action, n: Nft): nat
    requires cfg.Valid()
  {
    if act.CallUpdateIncubationTime? && Step(cfg, s, act).Ok? then ReductionOf(act.reductions, n) else 0
  }

  function Reduced(cfg: Config, s: State, acts: seq<Action>, n: Nft): nat
    requires cfg.Valid()
  {
    if acts == [] then 0
    else
      Reduced(cfg, s, acts[..|acts| - 1], n) +
        StepReduces(cfg, Run(cfg, s, acts[..|acts| - 1]), acts[|acts| - 1], n)
  }

  lemma {:induction false} NotNamedNotReduced(s: State, reductions: seq<(Nft, nat)>, n: Nft)
    requires AllReducible(s, reductions) && n !in s.hatchTimes
    ensures ReductionOf(reductions, n) == 0
    decreases |reductions|
  {
    if reductions != [] {
      assert reductions == [reductions[0]] + reductions[1..];
      NotNamedNotReduced(s, reductions[1..], n);
    }
  }

  /** What one call does to the hatch time of `n`. */
  ghost predicate TimeEvolves(s: State, s': State, n: Nft, starts: bool, reduction: nat) {
    if starts then
      n !in s.hatchTimes && n in s'.hatchTimes && s'.hatchTimes[n] == s.officialHatchTime && reduction == 0
    else
      && (n in s'.hatchTimes <==> n in s.hatchTimes)
      && (if n in s.hatchTimes then s'.hatchTimes[n] == SaturatingSub(s.hatchTimes[n], reduction) else reduction == 0)
  }

  lemma StepHatchTime(cfg: Config, s: State, act: Action, n: Nft)
    requires cfg.Valid()
    ensures TimeEvolves(s, Next(cfg, s, act), n, Starts(cfg, s, act, n), StepReduces(cfg, s, act, n))
  {
    hide Step, TimeEvolves;
    if Step(cfg, s, act).Ok? {
      if act.CallStartIncubation? {
        IncubationCall(cfg, s, act);
        StartHatchTime(s, act.sender, act.nft, n);
      } else if act.CallUpdateIncubationTime? {
        IncubationCall(cfg, s, act);
        UpdateHatchTime(s, act.sender, act.reductions, n);
      } else {
        StepUntouched(cfg, s, act);
        SameHatchTime(s, Step(cfg, s, act).value, n);
      }
    } else {
      SameHatchTime(s, s, n);
    }
  }

  lemma SameHatchTime(s: State, s': State, n: Nft)
    requires s'.hatchTimes == s.hatchTimes
    ensures TimeEvolves(s, s', n, false, 0)
  {
  }

  lemma StartHatchTime(s: State, sender: AccountId, m: Nft, n: Nft)
    requires StartIncubation(s, sender, m).Ok?
    ensures TimeEvolves(s, StartIncubation(s, sender, m).value, n, m == n, 0)
  {
  }

  lemma UpdateHatchTime(s: State, sender: AccountId, reductions: seq<(Nft, nat)>, n: Nft)
    requires UpdateIncubationTime(s, sender, reductions).Ok?
    ensures TimeEvolves(s, UpdateIncubationTime(s, sender, reductions).value, n, false, ReductionOf(reductions, n))
  {
    ReduceAllIs(s, reductions);
    hide ReduceAll, ReductionOf;
    if n !in s.hatchTimes {
      NotNamedNotReduced(s, reductions, n);
    }
  }

  /**
   In every run a shell has a hatch time exactly when it started incubating, and the time is the official one at the
   start minus all reductions applied to it, stopping at zero.
   */
  lemma {:induction false} HatchTimeClosedForm(cfg: Config, balances: map<AccountId, Balance>, acts: seq<Action>,
                                               n: Nft)
    requires cfg.Valid()
    ensures
      var s := Run(cfg, Genesis(balances), acts);
      var started := StartedAt(cfg, Genesis(balances), acts, n);
      && (n in s.hatchTimes <==> started.Some?)
      && (if started.Some? then
            s.hatchTimes[n] == SaturatingSub(started.value, Reduced(cfg, Genesis(balances), acts, n))
          else Reduced(cfg, Genesis(balances), acts, n) == 0)
    decreases |acts|
  {
    if acts != [] {
      hide Starts, StepReduces, Next;
      HatchTimeClosedForm(cfg, balances, acts[..|acts| - 1], n);
      StepHatchTime(cfg, Run(cfg, Genesis(balances), acts[..|acts| - 1]), acts[|acts| - 1], n);
    }
  }

  // ----- Feeding precedes hatching -----

  /** The shell is past its hatch time. */
  predicate Past(s: State, n: Nft) {
    n in s.hatchTimes && s.CanHatch(s.hatchTimes[n])
  }

  lemma StepKeepsPast(cfg: Config, s: State, act: Action, n: Nft)
    requires cfg.Valid() && Admissible(s, act) && Past(s, n)
    ensures Past(Next(cfg, s, act), n)
  {
    StepHatchTime(cfg, s, act, n);
    TimeNeverFalls(cfg, s, act);
    hide Starts, StepReduces, Next, Admissible;
  }

  lemma TimeNeverFalls(cfg: Config, s: State, act: Action)
    requires cfg.Valid() && Admissible(s, act)
    ensures s.now <= Next(cfg, s, act).now
  {
    if Step(cfg, s, act).Ok? {
      StepUntouched(cfg, s, act);
      hide MarketStep, SettingStep, IncubationStep;
    }
  }

  /** Once a shell is past its hatch time it stays past it. */
  lemma {:induction false} PastForGood(cfg: Config, s: State, acts: seq<Action>, n: Nft)
    requires cfg.Valid() && AdmissibleRun(cfg, s, acts) && Past(s, n)
    ensures Past(Run(cfg, s, acts), n)
    decreases |acts|
  {
    if acts != [] {
      hide Past, Next, Admissible;
      PastForGood(cfg, s, acts[..|acts| - 1], n);
      StepKeepsPast(cfg, Run(cfg, s, acts[..|acts| - 1]), acts[|acts| - 1], n);
    }
  }

  lemma {:induction false} StartedForGood(cfg: Config, s: State, acts: seq<Action>, n: Nft)
    requires cfg.Valid() && n in s.hatchTimes
    ensures n in Run(cfg, s, acts).hatchTimes
    decreases |acts|
  {
    if acts != [] {
      hide Starts, StepReduces, Next;
      StartedForGood(cfg, s, acts[..|acts| - 1], n);
      StepHatchTime(cfg, Run(cfg, s, acts[..|acts| - 1]), acts[|acts| - 1], n);
    }
  }

  // ----- NFTs keep their traits, and their ids are never used again -----

  /** Of the NFTs handed out in `u`, those still there in `u'` have their old owner and their old traits. */
  ghost predicate Evolved(u: Uniques, u': Uniques) {
    && (forall c :: u.NextNftId(c) <= u'.NextNftId(c))
    && (forall n: Nft :: n.1 < u.NextNftId(n.0) && n in u'.owner ==> SameNft(u, u', n))
  }

  ghost predicate SameNft(u: Uniques, u': Uniques, n: Nft) {
    n in u.owner && n in u'.owner && u'.owner[n] == u.owner[n] && TraitsOf(u', n) == TraitsOf(u, n)
  }

  lemma EvolvedTwice(u: Uniques, u1: Uniques, u2: Uniques)
    requires Evolved(u, u1) && Evolved(u1, u2)
    ensures Evolved(u, u2)
  {
    hide TraitsOf;
    forall n: Nft | n.1 < u.NextNftId(n.0) && n in u2.owner
      ensures SameNft(u, u2, n)
    {
      assert u.NextNftId(n.0) <= u1.NextNftId(n.0);
      assert SameNft(u1, u2, n);
      assert SameNft(u, u1, n);
    }
  }

  lemma MintedEvolves(u: Uniques, u': Uniques, c: CollectionId, a: AccountId)
    requires Minted(u, u', c, a)
    ensures Evolved(u, u')
  {
    hide TraitsOf;
  }

  lemma AwakenedEvolves(u: Uniques, u': Uniques, n: Nft, shell: CollectionId)
    requires n in u.owner && n != u.NextNft(shell) && Awakened(u, u', n, shell)
    ensures Evolved(u, u')
  {
    hide TraitsOf;
  }

  lemma {:induction false} SettleAllEvolvesNfts(cfg: Config, s: State, overlord: AccountId, ids: seq<PreorderId>,
                                                host: Host)
    requires SettleAll(cfg, s, overlord, ids, host).Ok?
    ensures Evolved(s.uniques, SettleAll(cfg, s, overlord, ids, host).value.uniques)
    decreases |ids|
  {
    if ids != [] {
      var s1 := SettleOne(cfg, s, overlord, ids[0], host).value;
      SettleOneEvolvesNfts(cfg, s, overlord, ids[0], host);
      hide Evolved, SettleOne;
      SettleAllEvolvesNfts(cfg, s1, overlord, ids[1..], host);
      EvolvedTwice(s.uniques, s1.uniques, SettleAll(cfg, s1, overlord, ids[1..], host).value.uniques);
    }
  }

  lemma SettleOneEvolvesNfts(cfg: Config, s: State, overlord: AccountId, id: PreorderId, host: Host)
    requires SettleOne(cfg, s, overlord, id, host).Ok?
    ensures Evolved(s.uniques, SettleOne(cfg, s, overlord, id, host).value.uniques)
  {
    var order := PreorderMint(cfg, overlord, s.preorders[id]);
    MintOriginEffect(cfg, Release(cfg, s, id), order, host);
    hide MintOriginOfShell, Minted, Evolved;
    MintedEvolves(s.uniques, SettleOne(cfg, s, overlord, id, host).value.uniques, s.originCollection.value,
      order.owner);
  }

  lemma StepEvolvesNfts(cfg: Config, s: State, act: Action)
    requires cfg.Valid() && WorldInv(cfg, s)
    ensures Evolved(s.uniques, Next(cfg, s, act).uniques)
  {
    if Step(cfg, s, act).Ok? {
      CallEvolvesNfts(cfg, s, act);
    } else {
      hide Step, TraitsOf;
    }
  }

  lemma CallEvolvesNfts(cfg: Config, s: State, act: Action)
    requires cfg.Valid() && WorldInv(cfg, s) && Step(cfg, s, act).Ok?
    ensures Evolved(s.uniques, Step(cfg, s, act).value.uniques)
  {
    hide WorldInv, Step, MintOriginOfShell, MintSpirit, HatchOriginOfShell, SettleAll, Evolved, Minted, Awakened,
      OrderOf,
      TraitsOf;
    var s' := Step(cfg, s, act).value;
    if IsMint(act) {
      MintCall(cfg, s, act);
      MintOriginEffect(cfg, s, OrderOf(cfg, s, act), act.host);
      MintedEvolves(s.uniques, s'.uniques, s.originCollection.value, OrderOf(cfg, s, act).owner);
    } else if act.CallClaimSpirit? || act.CallRedeemSpirit? {
      SpiritCall(cfg, s, act);
      MintSpiritEffect(s, act.sender, act.host);
      MintedEvolves(s.uniques, s'.uniques, s.spiritCollection.value, act.sender);
    } else if act.CallMintChosen? {
      BatchCall(cfg, s, act);
      SettleAllEvolvesNfts(cfg, s, act.sender, Chunk(cfg, act.ids), act.host);
    } else if act.CallHatch? {
      IncubationCall(cfg, s, act);
      CollectionsOf(cfg, s);
      HatchEffect(cfg, s, act.sender, act.nft, act.host);
      AwakenedEvolves(s.uniques, s'.uniques, act.nft, s.shellCollection.value);
    } else {
      StepUntouched(cfg, s, act);
      UnchangedEvolves(s.uniques);
    }
  }

  lemma UnchangedEvolves(u: Uniques)
    ensures Evolved(u, u)
  {
  }

  lemma CollectionsOf(cfg: Config, s: State)
    requires WorldInv(cfg, s)
    ensures CollectionsInv(s) && TraitsInv(s)
  {
  }

  /** Over any run NFTs keep their owner and traits, and the id of a burned one is never used again. */
  lemma {:induction false} NftsEvolve(cfg: Config, s: State, acts: seq<Action>)
    requires cfg.Valid() && WorldInv(cfg, s) && AdmissibleRun(cfg, s, acts)
    ensures Evolved(s.uniques, Run(cfg, s, acts).uniques)
    decreases |acts|
  {
    hide WorldInv, Evolved, Next, Admissible;
    if acts == [] {
      UnchangedEvolves(s.uniques);
    } else {
      var before := Run(cfg, s, acts[..|acts| - 1]);
      NftsEvolve(cfg, s, acts[..|acts| - 1]);
      RunKeeps(cfg, s, acts[..|acts| - 1]);
      StepEvolvesNfts(cfg, before, acts[|acts| - 1]);
      EvolvedTwice(s.uniques, before.uniques, Run(cfg, s, acts).uniques);
    }
  }

  lemma BurnedForGood(u: Uniques, u': Uniques, n: Nft)
    requires Evolved(u, u') && n.1 < u.NextNftId(n.0) && n !in u.owner
    ensures n !in u'.owner
  {
    hide TraitsOf;
  }

  // ----- Hatching -----

  /** What the libraries must not refuse for the hatch of `n` into `m`. */
  predicate HostHatches(host: Host, n: Nft, m: Nft) {
    host.burns(n) && host.clearsAttributes(n) && host.mints(m) && host.setsAttributes(m)
  }

  predicate TraitsError(error: Error) {
    error in {DecodePanic, RaceNotDetected, CareerNotDetected, RarityTypeNotDetected, GenerationNotDetected}
  }

  lemma AwakenSucceedsIff(cfg: Config, s: State, n: Nft, owner: AccountId, shell: CollectionId, t: Traits, host: Host)
    requires n in s.uniques.owner && s.uniques.owner[n] == owner && s.overlord.Some? && KeysFit(cfg)
    ensures Awaken(cfg, s.overlord, s.uniques, n, owner, shell, t, host).Ok?
       <==> HostHatches(host, n, s.uniques.NextNft(shell)) && s.uniques.NextNftId(shell) < U32_MAX
    ensures Awaken(cfg, s.overlord, s.uniques, n, owner, shell, t, host).Err? ==>
      !TraitsError(Awaken(cfg, s.overlord, s.uniques, n, owner, shell, t, host).error)
  {
    hide KeysFit;
  }

  /** The checks of a hatch, before it reads the traits and moves NFTs. */
  predicate MayHatch(cfg: Config, s: State, sender: AccountId, n: Nft) {
    && s.overlord == Some(sender) && s.canStartIncubation
    && s.originCollection == Some(n.0) && n in s.uniques.owner && Past(s, n)
    && s.shellCollection.Some? && KeysFit(cfg)
  }

  lemma HatchIs(cfg: Config, s: State, sender: AccountId, n: Nft, host: Host)
    requires MayHatch(cfg, s, sender, n) && ReadTraits(s.uniques, n).Ok?
    ensures
      var traits := ReadTraits(s.uniques, n).value;
      var moved := Awaken(cfg, s.overlord, s.uniques, n, s.uniques.owner[n], s.shellCollection.value, traits, host);
      var r := HatchOriginOfShell(cfg, s, sender, n, host);
      if moved.Ok? then r.Ok? else r == Err(moved.error)
  {
    hide KeysFit, Awaken, ReadTraits;
  }

  lemma TraitsCanBeRead(cfg: Config, s: State, sender: AccountId, n: Nft)
    requires WorldInv(cfg, s) && MayHatch(cfg, s, sender, n)
    ensures n in s.uniques.owner && s.shellCollection.Some? && s.overlord.Some? && KeysFit(cfg)
    ensures ReadTraits(s.uniques, n).Ok?
  {
    CollectionsOf(cfg, s);
    hide WorldInv, CollectionsInv, KeysFit, ReadTraits, TraitsOf;
    ReadTraitsEffect(s.uniques, n);
  }

  lemma HatchIsNot(cfg: Config, s: State, sender: AccountId, n: Nft, host: Host)
    requires !MayHatch(cfg, s, sender, n)
    ensures HatchOriginOfShell(cfg, s, sender, n, host).Err?
    ensures !TraitsError(HatchOriginOfShell(cfg, s, sender, n, host).error)
  {
    hide KeysFit, Awaken, ReadTraits;
  }

  /**
   In every reachable storage: which hatches succeed. Reading the traits is not among the conditions, so the
   `expect`s on decoding and the four NotDetected errors are never reached.
   */
  lemma HatchSucceedsIff(cfg: Config, s: State, sender: AccountId, n: Nft, host: Host)
    requires WorldInv(cfg, s)
    ensures HatchOriginOfShell(cfg, s, sender, n, host).Ok? <==>
      && MayHatch(cfg, s, sender, n)
      && s.uniques.NextNftId(s.shellCollection.value) < U32_MAX
      && HostHatches(host, n, s.uniques.NextNft(s.shellCollection.value))
    ensures HatchOriginOfShell(cfg, s, sender, n, host).Err? ==>
      !TraitsError(HatchOriginOfShell(cfg, s, sender, n, host).error)
  {
    hide MayHatch, WorldInv, KeysFit, Awaken, ReadTraits, TraitsOf, HostHatches, HatchOriginOfShell, TraitsError;
    if MayHatch(cfg, s, sender, n) {
      TraitsCanBeRead(cfg, s, sender, n);
      HatchIs(cfg, s, sender, n, host);
      AwakenSucceedsIff(cfg, s, n, s.uniques.owner[n], s.shellCollection.value, ReadTraits(s.uniques, n).value, host);
    } else {
      HatchIsNot(cfg, s, sender, n, host);
    }
  }

  /** Hatching burns `n` and mints the next Shell to the same owner with the same traits. */
  lemma HatchPreserves(cfg: Config, s: State, sender: AccountId, n: Nft, host: Host)
    requires WorldInv(cfg, s) && HatchOriginOfShell(cfg, s, sender, n, host).Ok?
    ensures
      var s' := HatchOriginOfShell(cfg, s, sender, n, host).value;
      var m := s.uniques.NextNft(s.shellCollection.value);
      && n in s.uniques.owner && n !in s'.uniques.owner
      && m !in s.uniques.owner && s'.uniques.owner == (s.uniques.owner - {n})[m := s.uniques.owner[n]]
      && TraitsOf(s.uniques, n).Some?
      && TraitsOf(s'.uniques, m) == TraitsOf(s.uniques, n)
      && n.1 < s'.uniques.NextNftId(n.0) && Past(s', n)
  {
    CollectionsOf(cfg, s);
    hide WorldInv, HatchOriginOfShell, TraitsOf, TraitsInv, Awakened;
    HatchEffect(cfg, s, sender, n, host);
    assert n.1 < s.uniques.NextNftId(n.0);
    hide CollectionsInv;
    AwakenedOwners(s.uniques, HatchOriginOfShell(cfg, s, sender, n, host).value.uniques, n, s.shellCollection.value);
  }

  lemma AwakenedOwners(u: Uniques, u': Uniques, n: Nft, shell: CollectionId)
    requires n in u.owner && u.NextNft(shell) !in u.owner && Awakened(u, u', n, shell)
    ensures n !in u'.owner && u'.owner == (u.owner - {n})[u.NextNft(shell) := u.owner[n]]
    ensures u.NextNftId(n.0) <= u'.NextNftId(n.0)
  {
    hide SameTraitsBut;
  }

  // ----- The life of a shell over a run -----

  lemma {:induction false} RunSplit(cfg: Config, s: State, a: seq<Action>, b: seq<Action>)
    requires cfg.Valid()
    ensures Run(cfg, s, a + b) == Run(cfg, Run(cfg, s, a), b)
    ensures AdmissibleRun(cfg, s, a + b) ==> AdmissibleRun(cfg, s, a) && AdmissibleRun(cfg, Run(cfg, s, a), b)
    decreases |b|
  {
    hide Next, Admissible;
    if b == [] {
      assert a + b == a;
    } else {
      assert (a + b)[..|a + b| - 1] == a + b[..|b| - 1];
      RunSplit(cfg, s, a, b[..|b| - 1]);
    }
  }

  /** Whether the call at position `i` of a run succeeds. */
  predicate Succeeds(cfg: Config, s: State, acts: seq<Action>, i: nat)
    requires cfg.Valid() && i < |acts|
  {
    Step(cfg, Run(cfg, s, acts[..i]), acts[i]).Ok?
  }

  /** Calls on a shell that can only succeed before it is hatched. */
  predicate Concerns(act: Action, n: Nft) {
    (act.CallFeed? || act.CallStartIncubation? || act.CallHatch?) && act.nft == n
  }

  /** A shell is fed only between its start and its hatch time, and hatched only after it. */
  lemma WhatCallsNeed(cfg: Config, s: State, act: Action, n: Nft)
    requires cfg.Valid() && Concerns(act, n) && Step(cfg, s, act).Ok?
    ensures act.CallStartIncubation? ==> n !in s.hatchTimes && n in Next(cfg, s, act).hatchTimes
    ensures act.CallFeed? ==> n in s.hatchTimes && !Past(s, n)
    ensures act.CallHatch? ==> Past(s, n) && n in s.uniques.owner
  {
    IncubationCall(cfg, s, act);
    hide Step, Awaken, ReadTraits, FoodAfter;
  }

  lemma HatchedForGood(cfg: Config, s: State, hatch: Action, acts: seq<Action>, act: Action)
    requires cfg.Valid() && WorldInv(cfg, s) && hatch.CallHatch? && Step(cfg, s, hatch).Ok?
    requires AdmissibleRun(cfg, Next(cfg, s, hatch), acts) && Concerns(act, hatch.nft)
    ensures Step(cfg, Run(cfg, Next(cfg, s, hatch), acts), act).Err?
  {
    var n, s1 := hatch.nft, Next(cfg, s, hatch);
    var later := Run(cfg, s1, acts);
    IncubationCall(cfg, s, hatch);
    HatchPreserves(cfg, s, hatch.sender, n, hatch.host);
    HatchKeeps(cfg, s, hatch.sender, n, hatch.host);
    hide WorldInv, Step, HatchOriginOfShell, TraitsOf, Run;
    NftsEvolve(cfg, s1, acts);
    PastForGood(cfg, s1, acts, n);
    BurnedForGood(s1.uniques, later.uniques, n);
    if Step(cfg, later, act).Ok? {
      WhatCallsNeed(cfg, later, act, n);
    }
  }

  /** Any two successful calls of a run, the earlier at `i`, the later at `j`. */
  lemma CallsInOrder(cfg: Config, balances: map<AccountId, Balance>, acts: seq<Action>, i: nat, j: nat)
    requires cfg.Valid() && AdmissibleRun(cfg, Genesis(balances), acts) && i < j < |acts|
    requires Succeeds(cfg, Genesis(balances), acts, i)
    ensures
      var g := Genesis(balances);
      && WorldInv(cfg, Run(cfg, g, acts[..i]))
      && var s1 := Next(cfg, Run(cfg, g, acts[..i]), acts[i]);
      && AdmissibleRun(cfg, s1, acts[i + 1..j])
      && Run(cfg, g, acts[..j]) == Run(cfg, s1, acts[i + 1..j])
  {
    hide WorldInv, Genesis, Next, Admissible;
    var g := Genesis(balances);
    GenesisInv(cfg, balances);
    RunCut(cfg, g, acts, j);
    RunCut(cfg, g, acts[..j], i + 1);
    RunCut(cfg, g, acts[..j], i);
    assert acts[..j][..i] == acts[..i] && acts[..j][..i + 1] == acts[..i + 1] && acts[..j][i + 1..] == acts[i + 1..j];
    RunKeeps(cfg, g, acts[..i]);
    LastStep(cfg, g, acts, i);
  }

  lemma LastStep(cfg: Config, s: State, acts: seq<Action>, i: nat)
    requires cfg.Valid() && i < |acts|
    ensures Run(cfg, s, acts[..i + 1]) == Next(cfg, Run(cfg, s, acts[..i]), acts[i])
  {
    hide Next;
    assert acts[..i + 1][..i] == acts[..i];
  }

  lemma RunCut(cfg: Config, s: State, acts: seq<Action>, k: nat)
    requires cfg.Valid() && k <= |acts| && AdmissibleRun(cfg, s, acts)
    ensures Run(cfg, s, acts) == Run(cfg, Run(cfg, s, acts[..k]), acts[k..])
    ensures AdmissibleRun(cfg, s, acts[..k]) && AdmissibleRun(cfg, Run(cfg, s, acts[..k]), acts[k..])
  {
    hide Run, AdmissibleRun;
    assert acts == acts[..k] + acts[k..];
    RunSplit(cfg, s, acts[..k], acts[k..]);
  }

  /** In every run: no shell is started twice, and after its hatch it is neither fed nor started nor hatched again. */
  lemma LifeOfAShell(cfg: Config, balances: map<AccountId, Balance>, acts: seq<Action>, i: nat, j: nat, n: Nft)
    requires cfg.Valid() && AdmissibleRun(cfg, Genesis(balances), acts) && i < j < |acts|
    requires Succeeds(cfg, Genesis(balances), acts, i) && Succeeds(cfg, Genesis(balances), acts, j)
    requires Concerns(acts[i], n) && Concerns(acts[j], n)
    ensures !acts[i].CallHatch?
    ensures !acts[j].CallStartIncubation?
  {
    var g := Genesis(balances);
    var s, later := Run(cfg, g, acts[..i]), Run(cfg, g, acts[..j]);
    CallsInOrder(cfg, balances, acts, i, j);
    var s1 := Next(cfg, s, acts[i]);
    hide WorldInv, Genesis, Run, AdmissibleRun;
    if acts[i].CallHatch? {
      HatchedForGood(cfg, s, acts[i], acts[i + 1..j], acts[j]);
    }
    WhatCallsNeed(cfg, s, acts[i], n);
    WhatCallsNeed(cfg, later, acts[j], n);
    hide Step;
    StepHatchTime(cfg, s, acts[i], n);
    StartedForGood(cfg, s1, acts[i + 1..j], n);
  }

  /** A shell that can hatch is not fed, and not started, in any continuation of a run. */
  lemma NoFoodOncePast(cfg: Config, s: State, acts: seq<Action>, act: Action, n: Nft)
    requires cfg.Valid() && AdmissibleRun(cfg, s, acts) && Past(s, n)
    requires (act.CallFeed? || act.CallStartIncubation?) && act.nft == n
    ensures Step(cfg, Run(cfg, s, acts), act).Err?
  {
    var later := Run(cfg, s, acts);
    PastForGood(cfg, s, acts, n);
    hide Run, AdmissibleRun, Step;
    if Step(cfg, later, act).Ok? {
      WhatCallsNeed(cfg, later, act, n);
    }
  }

  /** In every run: from any instant at which a shell can hatch, no later call feeds or starts it. */
  lemma NothingFedOncePast(cfg: Config, balances: map<AccountId, Balance>, acts: seq<Action>, k: nat, j: nat, n: Nft)
    requires cfg.Valid() && AdmissibleRun(cfg, Genesis(balances), acts) && k <= j < |acts|
    requires Past(Run(cfg, Genesis(balances), acts[..k]), n)
    requires (acts[j].CallFeed? || acts[j].CallStartIncubation?) && acts[j].nft == n
    ensures !Succeeds(cfg, Genesis(balances), acts, j)
  {
    var g := Genesis(balances);
    hide Genesis, Run, AdmissibleRun, Past, Step;
    RunCut(cfg, g, acts, j);
    RunCut(cfg, g, acts[..j], k);
    assert acts[..j][..k] == acts[..k];
    NoFoodOncePast(cfg, Run(cfg, g, acts[..k]), acts[..j][k..], acts[j], n);
  }
}
