/** Where the money goes: issuance is constant and accounts pay for what they buy, no more and no less. */
module Money {
  import opened Primitives
  import opened Currency
  import opened Nfts
  import opened World
  import opened Invariants
  import opened Frames
  import opened Settlements

  // ----- Conservation -----

  lemma TransferConserves(l: Ledger, from: AccountId, to: AccountId, value: Balance, existentialDeposit: Balance)
    requires l.Transfer(from, to, value, existentialDeposit).Ok?
    ensures Issuance(l.Transfer(from, to, value, existentialDeposit).value) == Issuance(l)
  {
    if value != 0 && from != to {
      MoveConserves(l, from, to, value);
    }
  }

  lemma MintConserves(cfg: Config, s: State, order: MintOrder, host: Host)
    requires MintOriginOfShell(cfg, s, order, host).Ok?
    ensures Issuance(MintOriginOfShell(cfg, s, order, host).value.ledger) == Issuance(s.ledger)
  {
    hide TraitsOf, Minted, MintOriginOfShell, Issuance, Ledger.Transfer;
    MintOriginEffect(cfg, s, order, host);
    TransferConserves(s.ledger, order.owner, order.overlord, order.price, cfg.existentialDeposit);
  }

  lemma {:induction false} SettleAllConserves(cfg: Config, s: State, overlord: AccountId, ids: seq<PreorderId>,
                                              host: Host)
    requires SettleAll(cfg, s, overlord, ids, host).Ok?
    ensures Issuance(SettleAll(cfg, s, overlord, ids, host).value.ledger) == Issuance(s.ledger)
    decreases |ids|
  {
    hide Issuance, MintOriginOfShell;
    if ids != [] {
      var p := s.preorders[ids[0]];
      UnreserveConserves(s.ledger, p.owner, cfg.primePrice);
      MintConserves(cfg, Release(cfg, s, ids[0]), PreorderMint(cfg, overlord, p), host);
      SettleAllConserves(cfg, SettleOne(cfg, s, overlord, ids[0], host).value, overlord, ids[1..], host);
    }
  }

  lemma {:induction false} RefundAllConserves(cfg: Config, s: State, ids: seq<PreorderId>)
    requires RefundAll(cfg, s, ids).Ok?
    ensures Issuance(RefundAll(cfg, s, ids).value.ledger) == Issuance(s.ledger)
    ensures forall a :: RefundAll(cfg, s, ids).value.ledger.Total(a) == s.ledger.Total(a)
    decreases |ids|
  {
    hide Issuance;
    if ids != [] {
      UnreserveConserves(s.ledger, s.preorders[ids[0]].owner, cfg.primePrice);
      RefundAllConserves(cfg, RefundOne(cfg, s, ids[0]).value, ids[1..]);
    }
  }

  lemma StepConserves(cfg: Config, s: State, act: Action)
    requires cfg.Valid()
    ensures Issuance(Next(cfg, s, act).ledger) == Issuance(s.ledger)
  {
    if Step(cfg, s, act).Ok? {
      if !MovesMoney(act) {
        StepUntouched(cfg, s, act);
        hide Step, Issuance;
      } else {
        hide MintOriginOfShell, SettleAll, RefundAll, MarketStep, SettingStep, IncubationStep, Issuance, Ledger.Move,
          OrderOf;
        if IsMint(act) {
          MintCall(cfg, s, act);
          MintConserves(cfg, s, OrderOf(cfg, s, act), act.host);
        } else if act.CallPreorder? {
          MarketCall(cfg, s, act);
          ReserveConserves(s.ledger, act.sender, cfg.primePrice);
        } else if act.CallMintChosen? {
          BatchCall(cfg, s, act);
          SettleAllConserves(cfg, s, act.sender, Chunk(cfg, act.ids), act.host);
        } else if act.CallRefundNotChosen? {
          BatchCall(cfg, s, act);
          RefundAllConserves(cfg, s, Chunk(cfg, act.ids));
        } else {
          MoveConserves(s.ledger, act.from, act.to, act.value);
        }
      }
    }
  }

  /** No run creates or destroys money. */
  lemma {:induction false} RunConserves(cfg: Config, s: State, acts: seq<Action>)
    requires cfg.Valid()
    ensures Issuance(Run(cfg, s, acts).ledger) == Issuance(s.ledger)
    decreases |acts|
  {
    hide Issuance, Next;
    if acts != [] {
      RunConserves(cfg, s, acts[..|acts| - 1]);
      StepConserves(cfg, Run(cfg, s, acts[..|acts| - 1]), acts[|acts| - 1]);
    }
  }

  // ----- What an account pays -----

  /** The prices of the for-sale mints that a successful call makes for `a`. Gifts, refunds and preorders are free. */
  ghost function Bill(cfg: Config, s: State, act: Action, a: AccountId): nat {
    match act
    case CallBuyRare(sender, rarity, _, _, _) => if sender == a then cfg.PriceOf(rarity) else 0
    case CallBuyPrime(sender, _, _, _, _) => if sender == a then cfg.primePrice else 0
    case CallMintChosen(_, ids, _) => Cost(cfg, PreordersOf(s, Chunk(cfg, ids), a))
    case _ => 0
  }

  /** What a successful call brings the overlord `o`: the prices of the mints for everybody else. */
  ghost function Income(cfg: Config, s: State, act: Action, o: AccountId): nat {
    match act
    case CallBuyRare(sender, rarity, _, _, _) => if sender == o then 0 else cfg.PriceOf(rarity)
    case CallBuyPrime(sender, _, _, _, _) => if sender == o then 0 else cfg.primePrice
    case CallMintChosen(_, ids, _) => Cost(cfg, OthersOf(s, Chunk(cfg, ids), o))
    case _ => 0
  }

  lemma PreorderIsFree(cfg: Config, s: State, sender: AccountId, race: RaceType, career: CareerType, a: AccountId)
    requires PreorderOriginOfShell(cfg, s, sender, race, career).Ok?
    ensures PreorderOriginOfShell(cfg, s, sender, race, career).value.ledger.Total(a) == s.ledger.Total(a)
  {
  }

  /** Across the call a buyer loses its bill, the overlord gains its income, and nobody else gains or loses. */
  ghost predicate Billed(cfg: Config, s: State, s': State, act: Action, a: AccountId) {
    if s.overlord == Some(a) then s'.ledger.Total(a) == s.ledger.Total(a) + Income(cfg, s, act, a)
    else s'.ledger.Total(a) + Bill(cfg, s, act, a) == s.ledger.Total(a)
  }

  lemma FreeCallBill(cfg: Config, s: State, s': State, act: Action, a: AccountId)
    requires !IsMint(act) && !act.CallMintChosen? && s'.ledger.Total(a) == s.ledger.Total(a)
    ensures Billed(cfg, s, s', act, a)
  {
  }

  lemma OrderBill(cfg: Config, s: State, act: Action, a: AccountId)
    requires IsMint(act) && s.overlord.Some? && OrderOf(cfg, s, act).overlord == s.overlord.value
    ensures
      var order := OrderOf(cfg, s, act);
      && Bill(cfg, s, act, a) == (if order.owner == a then order.price else 0)
      && Income(cfg, s, act, a) == (if order.owner == a then 0 else order.price)
  {
    hide Cost;
  }

  lemma MintCallBill(cfg: Config, s: State, act: Action, a: AccountId)
    requires cfg.Valid() && IsMint(act) && Step(cfg, s, act).Ok?
    ensures Billed(cfg, s, Step(cfg, s, act).value, act, a)
  {
    MintCall(cfg, s, act);
    OrderBill(cfg, s, act, a);
    hide Step, MintOriginOfShell, OrderOf, Bill, Income, Ledger.Total;
    MintBill(cfg, s, OrderOf(cfg, s, act), act.host, a);
  }

  lemma MintChosenBill(cfg: Config, s: State, act: Action, a: AccountId)
    requires cfg.Valid() && act.CallMintChosen? && Step(cfg, s, act).Ok?
    ensures Billed(cfg, s, Step(cfg, s, act).value, act, a)
  {
    hide *;
    BatchCall(cfg, s, act);
    SettleAllBalances(cfg, s, act.sender, Chunk(cfg, act.ids), act.host, a);
    BatchBill(cfg, s, Step(cfg, s, act).value, act, a);
  }

  lemma BatchBill(cfg: Config, s: State, s': State, act: Action, a: AccountId)
    requires act.CallMintChosen? && s.overlord == Some(act.sender)
    requires BalanceAfter(cfg, s, s', act.sender, Chunk(cfg, act.ids), a)
    ensures Billed(cfg, s, s', act, a)
  {
    hide Cost, PreordersOf, OthersOf, Chunk, Ledger.Total;
  }

  lemma OutsideTransferBill(cfg: Config, s: State, act: Action, a: AccountId)
    requires cfg.Valid() && act.OutsideTransfer? && Step(cfg, s, act).Ok? && act.from != a && act.to != a
    ensures Step(cfg, s, act).value.ledger.Total(a) == s.ledger.Total(a)
  {
    hide MarketStep, SettingStep, IncubationStep;
  }

  /** A call costs a buyer its bill, brings the overlord its income, and is free for everybody else. */
  lemma StepBill(cfg: Config, s: State, act: Action, a: AccountId)
    requires cfg.Valid() && Step(cfg, s, act).Ok?
    requires act.OutsideTransfer? ==> act.from != a && act.to != a
    ensures Billed(cfg, s, Step(cfg, s, act).value, act, a)
  {
    hide Step, Billed, RefundAll, PreorderOriginOfShell, Ledger.Total;
    if IsMint(act) {
      MintCallBill(cfg, s, act, a);
    } else if act.CallMintChosen? {
      MintChosenBill(cfg, s, act, a);
    } else {
      if act.CallPreorder? {
        MarketCall(cfg, s, act);
        PreorderIsFree(cfg, s, act.sender, act.race, act.career, a);
      } else if act.CallRefundNotChosen? {
        BatchCall(cfg, s, act);
        RefundAllConserves(cfg, s, Chunk(cfg, act.ids));
      } else if act.OutsideTransfer? {
        OutsideTransferBill(cfg, s, act, a);
      } else {
        StepUntouched(cfg, s, act);
      }
      FreeCallBill(cfg, s, Step(cfg, s, act).value, act, a);
    }
  }

  // ----- Over runs -----

  /** What `a` paid in a run, for mints while somebody else was overlord. */
  ghost function Spent(cfg: Config, s: State, acts: seq<Action>, a: AccountId): nat
    requires cfg.Valid()
  {
    if acts == [] then 0
    else
      var before, act := Run(cfg, s, acts[..|acts| - 1]), acts[|acts| - 1];
      Spent(cfg, s, acts[..|acts| - 1], a) +
        if Step(cfg, before, act).Ok? && before.overlord != Some(a) then Bill(cfg, before, act, a) else 0
  }

  /** What `a` took in a run, from mints for others while it was overlord. */
  ghost function Earned(cfg: Config, s: State, acts: seq<Action>, a: AccountId): nat
    requires cfg.Valid()
  {
    if acts == [] then 0
    else
      var before, act := Run(cfg, s, acts[..|acts| - 1]), acts[|acts| - 1];
      Earned(cfg, s, acts[..|acts| - 1], a) +
        if Step(cfg, before, act).Ok? && before.overlord == Some(a) then Income(cfg, before, act, a) else 0
  }

  predicate NoOutsideTransfers(acts: seq<Action>, a: AccountId) {
    forall i :: 0 <= i < |acts| && acts[i].OutsideTransfer? ==> acts[i].from != a && acts[i].to != a
  }

  ghost predicate NeverOverlord(cfg: Config, s: State, acts: seq<Action>, a: AccountId)
    requires cfg.Valid()
  {
    forall i :: 0 <= i < |acts| ==> Run(cfg, s, acts[..i]).overlord != Some(a)
  }

  /** In any run, an account ends with what it had, less what it paid for its mints, plus what it took as overlord. */
  lemma {:induction false} RunBalance(cfg: Config, s: State, acts: seq<Action>, a: AccountId)
    requires cfg.Valid() && NoOutsideTransfers(acts, a)
    ensures Run(cfg, s, acts).ledger.Total(a) + Spent(cfg, s, acts, a) == s.ledger.Total(a) + Earned(cfg, s, acts, a)
    decreases |acts|
  {
    if acts != [] {
      var before, act := Run(cfg, s, acts[..|acts| - 1]), acts[|acts| - 1];
      hide Step, Bill, Income;
      RunBalance(cfg, s, acts[..|acts| - 1], a);
      if Step(cfg, before, act).Ok? {
        StepBill(cfg, before, act, a);
      }
    }
  }

  lemma {:induction false} NeverOverlordEarnsNothing(cfg: Config, s: State, acts: seq<Action>, a: AccountId)
    requires cfg.Valid() && NeverOverlord(cfg, s, acts, a)
    ensures Earned(cfg, s, acts, a) == 0
    decreases |acts|
  {
    hide Step, Run;
    if acts != [] {
      var rest := acts[..|acts| - 1];
      forall i | 0 <= i < |rest|
        ensures Run(cfg, s, rest[..i]).overlord != Some(a)
      {
        assert rest[..i] == acts[..i];
      }
      NeverOverlordEarnsNothing(cfg, s, rest, a);
      assert rest == acts[..|acts| - 1];
    }
  }

  /** An account that was never overlord has lost exactly the prices of its for-sale mints. */
  lemma BuyersPayThePrice(cfg: Config, s: State, acts: seq<Action>, a: AccountId)
    requires cfg.Valid() && NoOutsideTransfers(acts, a) && NeverOverlord(cfg, s, acts, a)
    ensures Run(cfg, s, acts).ledger.Total(a) + Spent(cfg, s, acts, a) == s.ledger.Total(a)
  {
    hide Run, Step, NeverOverlord;
    RunBalance(cfg, s, acts, a);
    NeverOverlordEarnsNothing(cfg, s, acts, a);
  }
}
