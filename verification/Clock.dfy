/** The world clock: zero day, the era counter, and how it follows the time. */
module Clock {
  import opened Primitives
  import opened World
  import opened Frames
  import opened Hatching

  // ----- Whole eras between two times -----

  function ErasBetween(cfg: Config, from: nat, to: nat): nat
    requires cfg.Valid() && from <= to
  {
    (to - from) / cfg.secondsPerEra
  }

  lemma QuotientMonotone(a: nat, b: nat, d: nat)
    requires d >= 1 && a <= b
    ensures a / d <= b / d
  {
    assert a == d * (a / d) + a % d && b == d * (b / d) + b % d;
    if a / d > b / d {
      MulAtLeast(a / d, b / d, d);
    }
  }

  lemma QuotientOneMore(a: nat, b: nat, d: nat)
    requires d >= 1 && b <= a + d
    ensures b / d <= a / d + 1
  {
    assert a == d * (a / d) + a % d && b == d * (b / d) + b % d;
    if b / d > a / d + 1 {
      MulAtLeast(a / d + 1, a / d, d);
      MulAtLeast(b / d, a / d + 1, d);
    }
  }

  lemma MulAtLeast(x: nat, y: nat, d: nat)
    requires x >= y
    ensures d * x >= d * y
    ensures x > y ==> d * x >= d * y + d
  {
    assert d * x == d * y + d * (x - y);
    if x > y {
      assert d * (x - y) == d + d * (x - y - 1);
    }
  }

  lemma ErasMonotone(cfg: Config, from: nat, t1: nat, t2: nat)
    requires cfg.Valid() && from <= t1 <= t2
    ensures ErasBetween(cfg, from, t1) <= ErasBetween(cfg, from, t2)
    ensures t2 <= t1 + cfg.secondsPerEra ==> ErasBetween(cfg, from, t2) <= ErasBetween(cfg, from, t1) + 1
  {
    QuotientMonotone(t1 - from, t2 - from, cfg.secondsPerEra);
    if t2 <= t1 + cfg.secondsPerEra {
      QuotientOneMore(t1 - from, t2 - from, cfg.secondsPerEra);
    }
  }

  /** Rounding down to whole eras: aligned, in the past, and less than one era ago. */
  lemma RoundedDown(cfg: Config, t: nat)
    requires cfg.Valid()
    ensures
      var z := t - t % cfg.secondsPerEra;
      0 <= z <= t && z % cfg.secondsPerEra == 0 && ErasBetween(cfg, z, t) == 0
  {
    var d := cfg.secondsPerEra;
    assert t == d * (t / d) + t % d;
    AlignedMultiple(t / d, d);
  }

  lemma AlignedMultiple(q: nat, d: nat)
    requires d >= 1
    ensures d * q % d == 0
  {
    var x := d * q;
    var k := x / d;
    if q > k {
      MulAtLeast(q, k, d);
    } else {
      MulAtLeast(k, q, d);
    }
    assert x == d * k + x % d;
  }

  lemma DueIs(cfg: Config, s: State)
    requires cfg.Valid()
    ensures s.zeroDay == None ==> DueEra(cfg, s) == 0
    ensures s.zeroDay.Some? && s.zeroDay.value <= s.now ==> DueEra(cfg, s) == ErasBetween(cfg, s.zeroDay.value, s.now)
  {
  }

  // ----- One step -----

  lemma StepClock(cfg: Config, s: State, act: Action)
    requires cfg.Valid()
    ensures
      var s' := Next(cfg, s, act);
      && (s'.zeroDay == s.zeroDay ||
          (act.CallInitializeWorldClock? && s.zeroDay == None && s'.zeroDay == Some(s.now - s.now % cfg.secondsPerEra)))
      && s'.now == (if act.Tick? then act.time else s.now)
      && s'.era == s.era + (if act.Finalize? && s.era < DueEra(cfg, s) then 1 else 0)
  {
    if Step(cfg, s, act).Ok? {
      StepUntouched(cfg, s, act);
      if act.CallInitializeWorldClock? {
        RoundedDown(cfg, s.now);
        hide MarketStep, IncubationStep, DueEra;
      } else {
        hide MarketStep, SettingStep, IncubationStep, DueEra;
      }
    } else {
      hide MarketStep, SettingStep, IncubationStep, DueEra;
    }
  }

  /** Zero day is aligned and not in the future, and the era counter is never ahead. */
  ghost predicate ClockInv(cfg: Config, s: State)
    requires cfg.Valid()
  {
    && (s.zeroDay.Some? ==> s.zeroDay.value % cfg.secondsPerEra == 0 && s.zeroDay.value <= s.now)
    && s.era <= DueEra(cfg, s)
  }

  lemma DueNeverFalls(cfg: Config, s: State, act: Action)
    requires cfg.Valid() && ClockInv(cfg, s) && Admissible(s, act)
    ensures DueEra(cfg, s) <= DueEra(cfg, Next(cfg, s, act))
    ensures Next(cfg, s, act).zeroDay.Some? ==>
      Next(cfg, s, act).zeroDay.value % cfg.secondsPerEra == 0 &&
      Next(cfg, s, act).zeroDay.value <= Next(cfg, s, act).now
  {
    StepClock(cfg, s, act);
    TimeNeverFalls(cfg, s, act);
    DueIs(cfg, s);
    DueIs(cfg, Next(cfg, s, act));
    RoundedDown(cfg, s.now);
    var s' := Next(cfg, s, act);
    hide Next, DueEra, ErasBetween, Admissible;
    if s.zeroDay.Some? {
      ErasMonotone(cfg, s.zeroDay.value, s.now, s'.now);
    }
  }

  lemma StepKeepsClock(cfg: Config, s: State, act: Action)
    requires cfg.Valid() && ClockInv(cfg, s) && Admissible(s, act)
    ensures ClockInv(cfg, Next(cfg, s, act))
  {
    DueNeverFalls(cfg, s, act);
    StepClock(cfg, s, act);
    hide Next, DueEra, Admissible;
  }

  // ----- Over runs -----

  /** In every reachable storage: zero day is aligned and past, and `Era` is at most the whole eras since. */
  lemma {:induction false} RunKeepsClock(cfg: Config, balances: map<AccountId, Balance>, acts: seq<Action>)
    requires cfg.Valid() && AdmissibleRun(cfg, Genesis(balances), acts)
    ensures ClockInv(cfg, Run(cfg, Genesis(balances), acts))
    decreases |acts|
  {
    if acts != [] {
      hide ClockInv, Next, Admissible;
      RunKeepsClock(cfg, balances, acts[..|acts| - 1]);
      StepKeepsClock(cfg, Run(cfg, Genesis(balances), acts[..|acts| - 1]), acts[|acts| - 1]);
    }
  }

  /** In whole eras of seconds: none are counted before the clock is started, and never more than have passed. */
  lemma EraIsNeverAhead(cfg: Config, balances: map<AccountId, Balance>, acts: seq<Action>)
    requires cfg.Valid() && AdmissibleRun(cfg, Genesis(balances), acts)
    ensures
      var s := Run(cfg, Genesis(balances), acts);
      && (s.zeroDay.None? ==> s.era == 0)
      && (s.zeroDay.Some? ==>
            s.zeroDay.value <= s.now && s.era <= (s.now - s.zeroDay.value) / cfg.secondsPerEra)
  {
    hide *;
    RunKeepsClock(cfg, balances, acts);
    EraBound(cfg, Run(cfg, Genesis(balances), acts));
  }

  lemma EraBound(cfg: Config, s: State)
    requires cfg.Valid() && ClockInv(cfg, s)
    ensures s.zeroDay.None? ==> s.era == 0
    ensures s.zeroDay.Some? ==> s.zeroDay.value <= s.now && s.era <= (s.now - s.zeroDay.value) / cfg.secondsPerEra
  {
  }

  /** The clock is started once. */
  lemma {:induction false} ZeroDayIsFixed(cfg: Config, s: State, acts: seq<Action>)
    requires cfg.Valid() && s.zeroDay.Some?
    ensures Run(cfg, s, acts).zeroDay == s.zeroDay
    decreases |acts|
  {
    if acts != [] {
      hide Next;
      ZeroDayIsFixed(cfg, s, acts[..|acts| - 1]);
      StepClock(cfg, Run(cfg, s, acts[..|acts| - 1]), acts[|acts| - 1]);
    }
  }

  /** The time of the last end of a block, or of the start of the clock if that is later. */
  function LastMark(cfg: Config, s: State, acts: seq<Action>): nat
    requires cfg.Valid()
  {
    if acts == [] then s.now
    else
      var before, act := Run(cfg, s, acts[..|acts| - 1]), acts[|acts| - 1];
      if act.Finalize? || (act.CallInitializeWorldClock? && Step(cfg, before, act).Ok?) then before.now
      else LastMark(cfg, s, acts[..|acts| - 1])
  }

  /** Since the clock was started no block ended more than one era after the previous one (or after the start). */
  predicate Steady(cfg: Config, s: State, acts: seq<Action>)
    requires cfg.Valid()
  {
    acts == [] ||
    (Steady(cfg, s, acts[..|acts| - 1]) &&
     var before := Run(cfg, s, acts[..|acts| - 1]);
     (acts[|acts| - 1].Finalize? && before.zeroDay.Some? ==>
        before.now <= LastMark(cfg, s, acts[..|acts| - 1]) + cfg.secondsPerEra))
  }

  /** At the mark `t` the era counter was exact. */
  ghost predicate ExactAt(cfg: Config, s: State, t: nat)
    requires cfg.Valid()
  {
    t <= s.now && (s.zeroDay.Some? ==> s.zeroDay.value <= t && s.era == ErasBetween(cfg, s.zeroDay.value, t))
  }

  lemma FinalizeIsExact(cfg: Config, s: State, t: nat)
    requires cfg.Valid() && ClockInv(cfg, s) && ExactAt(cfg, s, t)
    requires s.zeroDay.Some? ==> s.now <= t + cfg.secondsPerEra
    ensures ExactAt(cfg, Next(cfg, s, Finalize), s.now)
  {
    StepClock(cfg, s, Finalize);
    DueIs(cfg, s);
    hide Next, DueEra, ErasBetween;
    if s.zeroDay.Some? {
      ErasMonotone(cfg, s.zeroDay.value, t, s.now);
    }
  }

  lemma OtherStepIsExact(cfg: Config, s: State, act: Action, t: nat)
    requires cfg.Valid() && ClockInv(cfg, s) && ExactAt(cfg, s, t) && Admissible(s, act) && !act.Finalize?
    ensures
      var starts := act.CallInitializeWorldClock? && Step(cfg, s, act).Ok?;
      ExactAt(cfg, Next(cfg, s, act), if starts then s.now else t)
  {
    StepClock(cfg, s, act);
    TimeNeverFalls(cfg, s, act);
    RoundedDown(cfg, s.now);
    DueIs(cfg, s);
    if act.CallInitializeWorldClock? && Step(cfg, s, act).Ok? {
      StartsOnce(cfg, s, act);
    } else {
      NotStarted(cfg, s, act);
    }
    hide Step, DueEra, ErasBetween, Admissible;
  }

  lemma StartsOnce(cfg: Config, s: State, act: Action)
    requires cfg.Valid() && act.CallInitializeWorldClock? && Step(cfg, s, act).Ok?
    ensures s.zeroDay == None && Next(cfg, s, act).zeroDay.Some?
  {
    RoundedDown(cfg, s.now);
  }

  lemma NotStarted(cfg: Config, s: State, act: Action)
    requires cfg.Valid() && !(act.CallInitializeWorldClock? && Step(cfg, s, act).Ok?)
    ensures Next(cfg, s, act).zeroDay == s.zeroDay
  {
    if Step(cfg, s, act).Ok? {
      StepUntouched(cfg, s, act);
    }
    hide Step;
  }

  /** In a steady run the era counter is exact at every mark... */
  lemma {:induction false} ExactAtMarks(cfg: Config, balances: map<AccountId, Balance>, acts: seq<Action>)
    requires cfg.Valid() && AdmissibleRun(cfg, Genesis(balances), acts) && Steady(cfg, Genesis(balances), acts)
    ensures ExactAt(cfg, Run(cfg, Genesis(balances), acts), LastMark(cfg, Genesis(balances), acts))
    decreases |acts|
  {
    if acts != [] {
      var g := Genesis(balances);
      var before, act := Run(cfg, g, acts[..|acts| - 1]), acts[|acts| - 1];
      hide ClockInv, ExactAt, Step, Admissible, Genesis;
      RunKeepsClock(cfg, balances, acts[..|acts| - 1]);
      ExactAtMarks(cfg, balances, acts[..|acts| - 1]);
      var t := LastMark(cfg, g, acts[..|acts| - 1]);
      if act.Finalize? {
        FinalizeIsExact(cfg, before, t);
      } else {
        OtherStepIsExact(cfg, before, act, t);
      }
    }
  }

  /** ... so after the end of every block it is the number of whole eras since zero day. */
  lemma EraFollowsTheClock(cfg: Config, balances: map<AccountId, Balance>, acts: seq<Action>)
    requires cfg.Valid() && AdmissibleRun(cfg, Genesis(balances), acts + [Finalize])
    requires Steady(cfg, Genesis(balances), acts + [Finalize])
    ensures
      var s := Run(cfg, Genesis(balances), acts + [Finalize]);
      && s.era == DueEra(cfg, s)
      && (s.zeroDay.None? ==> s.era == 0)
      && (s.zeroDay.Some? ==>
            s.zeroDay.value <= s.now && s.era == (s.now - s.zeroDay.value) / cfg.secondsPerEra)
  {
    var g, run := Genesis(balances), acts + [Finalize];
    assert run[..|run| - 1] == acts;
    ExactAtMarks(cfg, balances, run);
    RunKeepsClock(cfg, balances, run);
    StepClock(cfg, Run(cfg, g, acts), Finalize);
    assert LastMark(cfg, g, run) == Run(cfg, g, run).now;
    DueIs(cfg, Run(cfg, g, run));
    hide DueEra, Next;
  }

  // ----- Catching up -----

  /** By how many eras the counter is behind. */
  function Lag(cfg: Config, s: State): nat
    requires cfg.Valid()
  {
    SaturatingSub(DueEra(cfg, s), s.era)
  }

  function BlocksEnded(acts: seq<Action>): nat {
    if acts == [] then 0 else BlocksEnded(acts[..|acts| - 1]) + if acts[|acts| - 1].Finalize? then 1 else 0
  }

  lemma {:induction false} RunDueNeverFalls(cfg: Config, s: State, acts: seq<Action>)
    requires cfg.Valid() && ClockInv(cfg, s) && AdmissibleRun(cfg, s, acts)
    ensures ClockInv(cfg, Run(cfg, s, acts)) && DueEra(cfg, s) <= DueEra(cfg, Run(cfg, s, acts))
    decreases |acts|
  {
    if acts != [] {
      hide ClockInv, Next, Admissible, DueEra;
      RunDueNeverFalls(cfg, s, acts[..|acts| - 1]);
      StepKeepsClock(cfg, Run(cfg, s, acts[..|acts| - 1]), acts[|acts| - 1]);
      DueNeverFalls(cfg, Run(cfg, s, acts[..|acts| - 1]), acts[|acts| - 1]);
    }
  }

  /** While no new era falls due, every end of a block takes one off the lag until there is none. */
  lemma {:induction false} LagFallsByBlocks(cfg: Config, s: State, acts: seq<Action>)
    requires cfg.Valid() && ClockInv(cfg, s) && AdmissibleRun(cfg, s, acts)
    requires DueEra(cfg, Run(cfg, s, acts)) == DueEra(cfg, s)
    ensures Lag(cfg, Run(cfg, s, acts)) == SaturatingSub(Lag(cfg, s), BlocksEnded(acts))
    decreases |acts|
  {
    if acts != [] {
      var before, act := Run(cfg, s, acts[..|acts| - 1]), acts[|acts| - 1];
      hide ClockInv, Next, Admissible, DueEra;
      RunDueNeverFalls(cfg, s, acts[..|acts| - 1]);
      DueNeverFalls(cfg, before, act);
      LagFallsByBlocks(cfg, s, acts[..|acts| - 1]);
      StepClock(cfg, before, act);
    }
  }
}
