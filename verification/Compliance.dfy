/** Frozen accounts, and recovery of their positions. */
module Compliance {
  import opened Base
  import opened World
  import SYWrapper
  import PM = PrincipalManager
  import opened Effects
  import opened YL = YieldLedger
  import opened YieldRow
  import opened Market
  import opened History
  import opened Accrual
  import opened Calls
  import opened Positions

  /** Deauthorized by the issuer, or revoked by the Permissioning registry. */
  predicate Blocked(w: World, a: Address) {
    a !in w.net.authorized || a !in w.net.allowed
  }

  /** What one transaction seized from `a` through the escrow. */
  function SeizedBy(c: Config, w: World, tx: Tx, a: Address): Holdings {
    if Step(c, w, tx).Ok? && tx.op.OnEscrow? then
      match tx.op.recovery
      case RecoverSy(account, n) => Holdings(if account == a then n else 0, 0, 0)
      case RecoverPt(account, n) => Holdings(0, if account == a then n else 0, 0)
      case RecoverYt(account, n) => Holdings(0, 0, if account == a then n else 0)
      case _ => Holdings(0, 0, 0)
    else Holdings(0, 0, 0)
  }

  function SeizedFrom(c: Config, w: World, txs: seq<Tx>, a: Address): Holdings {
    if txs == [] then Holdings(0, 0, 0) else
      Sum(SeizedFrom(c, w, txs[..|txs| - 1], a), SeizedBy(c, Run(c, w, txs[..|txs| - 1]), txs[|txs| - 1], a))
  }

  /** Blocked in every state in which a transaction of the run executes. */
  predicate BlockedThroughout(c: Config, w: World, txs: seq<Tx>, a: Address) {
    txs == [] || (BlockedThroughout(c, w, txs[..|txs| - 1], a) && Blocked(Run(c, w, txs[..|txs| - 1]), a))
  }

  // ---- one transaction ----

  /** The only thing that happens to a frozen account is seizure; nothing is paid to it and the
      yield it has accrued is not taken away. */
  ghost predicate FrozenStep(c: Config, w: World, tx: Tx, a: Address) {
    var w' := Next(c, w, tx);
    && HoldingsOf(w', a) == Less(HoldingsOf(w, a), SeizedBy(c, w, tx, a))
    && At(w'.yt.ledger.pending, a) >= At(w.yt.ledger.pending, a)
    && YieldPaid(c, w, tx, a) == 0
  }

  lemma FrozenSyCall(c: Config, w: World, tx: Tx, a: Address)
    requires c.Valid() && Inv(c, w) && Blocked(w, a) && tx.op.OnSy?
    ensures FrozenStep(c, w, tx, a)
  {
    var me := tx.signer;
    match tx.op.sy
    case Pause(_) =>
    case Deposit(amount) => SYWrapper.DepositKeeps(w.sy, w.net, c.sy, me, me, amount);
    case Withdraw(shares, to) => SYWrapper.WithdrawKeeps(w.sy, w.net, c.sy, me, me, shares, to);
    case Transfer(_, _) =>
    case Seize(_, _) =>
  }

  lemma FrozenPtCall(c: Config, w: World, tx: Tx, a: Address)
    requires Blocked(w, a) && tx.op.OnPt?
    ensures FrozenStep(c, w, tx, a)
  {
    match tx.op.pt
    case Move(_, _) =>
    case MoveFrom(_, _, _) =>
    case _ =>
  }

  lemma FrozenYtCall(c: Config, w: World, tx: Tx, a: Address)
    requires Blocked(w, a) && tx.op.OnYt?
    ensures FrozenStep(c, w, tx, a)
  {
    if Step(c, w, tx).Ok? {
      var call := tx.op.yt;
      if call.Move? {
        MoveProjects(w.yt.ledger, tx.signer, call.to, call.amount, a);
      } else if call.MoveFrom? {
        MoveProjects(w.yt.ledger, call.from, call.to, call.amount, a);
      }
    }
  }

  lemma FrozenIndexCall(c: Config, w: World, tx: Tx, a: Address)
    requires w.oracle.reading.Some? && Blocked(w, a) && (tx.op.YtClaim? || tx.op.YtUpdateIndex?)
    ensures FrozenStep(c, w, tx, a)
  {
    UpdateEffect(w);
  }

  lemma FrozenSplit(c: Config, w: World, me: Address, n: int, a: Address)
    requires c.Valid() && Inv(c, w) && Blocked(w, a)
    ensures FrozenStep(c, w, Tx(me, OnManager(Split(n))), a)
  {
    MintEffect(c, w, me, me, n);
    if Step(c, w, Tx(me, OnManager(Split(n)))).Ok? {
      SettleProjects(Indexed(w), me, a);
    }
  }

  /** Nobody but the redeemer and the manager's custody is touched by a redemption, and the custody
      of a blocked manager cannot be drawn on. */
  lemma RedeemBystander(c: Config, w: World, from: Address, p: int, y: int, a: Address)
    requires c.Valid() && Inv(c, w) && PM.Redeem(c, w, from, from, p, y).Ok? && a != from
    ensures var w' := PM.Redeem(c, w, from, from, p, y).value.world;
            && At(w'.pt.balance, a) == At(w.pt.balance, a)
            && At(w'.yt.ledger.balance, a) == At(w.yt.ledger.balance, a)
            && SnapshotOf(w'.yt.ledger, a) == SnapshotOf(w.yt.ledger, a)
            && At(w'.yt.ledger.pending, a) == At(w.yt.ledger.pending, a)
            && (a != c.pm || Blocked(w, a) ==> At(w'.sy.balance, a) == At(w.sy.balance, a))
  {
    RedeemEffect(c, w, from, from, p, y);
    if y > 0 {
      SettleProjects(Indexed(w), from, a);
      SettleProjects(Apply(Indexed(w), Destroy(from, y)), from, a);
    }
  }

  lemma FrozenRedeem(c: Config, w: World, me: Address, p: int, y: int, a: Address)
    requires c.Valid() && Inv(c, w) && Blocked(w, a)
    ensures FrozenStep(c, w, Tx(me, OnManager(Redeem(p, y))), a)
  {
    if Step(c, w, Tx(me, OnManager(Redeem(p, y)))).Ok? {
      RedeemEffect(c, w, me, me, p, y);
      RedeemBystander(c, w, me, p, y, a);
    }
  }

  lemma FrozenClaim(c: Config, w: World, me: Address, a: Address)
    requires c.Valid() && Inv(c, w) && Blocked(w, a)
    ensures FrozenStep(c, w, Tx(me, OnManager(ClaimAccrued)), a)
  {
    if Step(c, w, Tx(me, OnManager(ClaimAccrued))).Ok? {
      ClaimEffect(c, w, me, me);
      SettleProjects(Indexed(w), me, a);
    }
  }

  lemma FrozenFinalize(c: Config, w: World, tx: Tx, a: Address)
    requires c.Valid() && Inv(c, w) && Blocked(w, a) && a != c.escrow
    requires tx.op.OnEscrow? && (tx.op.recovery.FinalizePt? || tx.op.recovery.FinalizeYt?)
    ensures FrozenStep(c, w, tx, a)
  {
    if Step(c, w, tx).Ok? {
      if tx.op.recovery.FinalizePt? {
        RedeemBystander(c, w, c.escrow, tx.op.recovery.amount, 0, a);
      } else {
        RedeemBystander(c, w, c.escrow, 0, tx.op.recovery.amount, a);
      }
    }
  }

  lemma FrozenRecovery(c: Config, w: World, tx: Tx, a: Address)
    requires c.Valid() && Inv(c, w) && Blocked(w, a) && a != c.escrow
    requires tx.op.OnEscrow? && !tx.op.recovery.FinalizePt? && !tx.op.recovery.FinalizeYt?
    ensures FrozenStep(c, w, tx, a)
  {
    if Step(c, w, tx).Ok? {
      match tx.op.recovery
      case RecoverSy(account, n) => SeizeSyEffect(c, w, tx.signer, tx.signer, account, n);
      case RecoverPt(_, _) =>
      case RecoverYt(account, amount) => MoveProjects(w.yt.ledger, account, c.escrow, amount, a);
    }
  }

  lemma FrozenOne(c: Config, w: World, tx: Tx, a: Address)
    requires c.Valid() && Inv(c, w) && Blocked(w, a) && a != c.escrow
    ensures FrozenStep(c, w, tx, a)
  {
    match tx.op
    case OnSy(_) => FrozenSyCall(c, w, tx, a);
    case OnPt(_) => FrozenPtCall(c, w, tx, a);
    case OnYt(_) => FrozenYtCall(c, w, tx, a);
    case YtClaim(_) => FrozenIndexCall(c, w, tx, a);
    case YtUpdateIndex => FrozenIndexCall(c, w, tx, a);
    case OnManager(PauseManager(_)) =>
    case OnManager(Split(n)) => FrozenSplit(c, w, tx.signer, n, a);
    case OnManager(Redeem(p, y)) => FrozenRedeem(c, w, tx.signer, p, y, a);
    case OnManager(ClaimAccrued) => FrozenClaim(c, w, tx.signer, a);
    case OnEscrow(call) =>
      if call.FinalizePt? || call.FinalizeYt? {
        FrozenFinalize(c, w, tx, a);
      } else {
        FrozenRecovery(c, w, tx, a);
      }
    case _ =>
  }

  /** One transaction that makes no claim for an account takes nothing it could claim. */
  lemma StepKeepsClaim(c: Config, w: World, tx: Tx, a: Address)
    requires c.Valid() && Inv(c, w) && Claim(a) !in EventsOf(c, w, tx)
    ensures Claimable(Next(c, w, tx).yt.ledger, a) >= Claimable(w.yt.ledger, a)
  {
    StepTraced(c, w, tx);
    OnlyClaimsTake(w.yt.ledger, EventsOf(c, w, tx), a);
  }

  /** A blocked account makes no claim, and nobody but the escrow makes one in a recovery. */
  lemma NoClaim(c: Config, w: World, tx: Tx, a: Address)
    requires w.oracle.reading.Some? && a != c.escrow && (Blocked(w, a) || tx.op.OnEscrow?)
    ensures Claim(a) !in EventsOf(c, w, tx)
  {
  }

  /** Frozen account: over any run during which an account other than the escrow stays blocked, its
      SY, PT and YT balances are what they were less exactly what the escrow seized; it is paid no
      yield, and keeps every claim it had, pending or accrued. */
  lemma {:induction false} FrozenAccount(c: Config, w: World, txs: seq<Tx>, a: Address)
    requires c.Valid() && Inv(c, w) && a != c.escrow && BlockedThroughout(c, w, txs, a)
    ensures HoldingsOf(Run(c, w, txs), a) == Less(HoldingsOf(w, a), SeizedFrom(c, w, txs, a))
    ensures At(Run(c, w, txs).yt.ledger.pending, a) >= At(w.yt.ledger.pending, a)
    ensures Claimable(Run(c, w, txs).yt.ledger, a) >= Claimable(w.yt.ledger, a)
    ensures YieldPaidTo(c, w, txs, a) == 0
  {
    if txs == [] {
    } else {
      var init := txs[..|txs| - 1];
      FrozenAccount(c, w, init, a);
      RunKeeps(c, w, init);
      FrozenOne(c, Run(c, w, init), txs[|txs| - 1], a);
      NoClaim(c, Run(c, w, init), txs[|txs| - 1], a);
      StepKeepsClaim(c, Run(c, w, init), txs[|txs| - 1], a);
      SeizedSnoc(c, w, txs, a);
      LessTwice(HoldingsOf(w, a), SeizedFrom(c, w, init, a), SeizedBy(c, Run(c, w, init), txs[|txs| - 1], a));
    }
  }

  lemma LessTwice(x: Holdings, s: Holdings, e: Holdings)
    ensures Less(Less(x, s), e) == Less(x, Sum(s, e))
  {
  }

  lemma SeizedSnoc(c: Config, w: World, txs: seq<Tx>, a: Address)
    requires txs != []
    ensures SeizedFrom(c, w, txs, a) ==
            Sum(SeizedFrom(c, w, txs[..|txs| - 1], a), SeizedBy(c, Run(c, w, txs[..|txs| - 1]), txs[|txs| - 1], a))
  {
  }

  /** Authorized by the issuer in every state in which a transaction of the run executes. */
  predicate AuthorizedThroughout(c: Config, w: World, txs: seq<Tx>, a: Address) {
    txs == [] ||
    (AuthorizedThroughout(c, w, txs[..|txs| - 1], a) && a in Run(c, w, txs[..|txs| - 1]).net.authorized)
  }

  /** From an account that stays authorized nothing is ever seized. */
  lemma {:induction false} AuthorizedIsNotSeized(c: Config, w: World, txs: seq<Tx>, a: Address)
    requires c.Valid() && Inv(c, w) && AuthorizedThroughout(c, w, txs, a)
    ensures SeizedFrom(c, w, txs, a) == Holdings(0, 0, 0)
  {
    if txs == [] {
    } else {
      var init, tx := txs[..|txs| - 1], txs[|txs| - 1];
      AuthorizedIsNotSeized(c, w, init, a);
      RunKeeps(c, w, init);
      NotSeizedOnce(c, Run(c, w, init), tx, a);
    }
  }

  lemma NotSeizedOnce(c: Config, w: World, tx: Tx, a: Address)
    requires c.Valid() && Inv(c, w) && a in w.net.authorized
    ensures SeizedBy(c, w, tx, a) == Holdings(0, 0, 0)
  {
    match tx.op
    case OnEscrow(RecoverSy(account, n)) => RecoverSyCall(c, w, tx.signer, account, n);
    case OnEscrow(RecoverPt(account, n)) => RecoverPtCall(c, w, tx.signer, account, n);
    case OnEscrow(RecoverYt(account, n)) => RecoverYtCall(c, w, tx.signer, account, n);
    case _ =>
  }

  /** An escrow call by anyone but the live issuer changes nothing. */
  lemma OnlyIssuerRecovers(c: Config, w: World, me: Address, call: EscrowCall)
    requires c.Valid() && Inv(c, w) && me != w.net.admin
    ensures Step(c, w, Tx(me, OnEscrow(call))).Err? && Next(c, w, Tx(me, OnEscrow(call))) == w
  {
    match call
    case RecoverSy(account, n) => RecoverSyCall(c, w, me, account, n);
    case RecoverPt(account, n) => RecoverPtCall(c, w, me, account, n);
    case RecoverYt(account, n) => RecoverYtCall(c, w, me, account, n);
    case FinalizePt(n) => FinalizeCalls(c, w, me, n);
    case FinalizeYt(n) => FinalizeCalls(c, w, me, n);
  }

  // ---- recovery ----

  predicate Recovery(txs: seq<Tx>) {
    forall i :: 0 <= i < |txs| ==> txs[i].op.OnEscrow?
  }

  predicate Targets(call: EscrowCall, a: Address) {
    (call.RecoverSy? || call.RecoverPt? || call.RecoverYt?) && call.account == a
  }

  predicate Targeted(txs: seq<Tx>, a: Address) {
    exists i :: 0 <= i < |txs| && txs[i].op.OnEscrow? && Targets(txs[i].op.recovery, a)
  }

  /** Holdings and settled yield position of an account. */
  function PositionOf(w: World, a: Address): (Holdings, nat, nat) {
    (HoldingsOf(w, a), SnapshotOf(w.yt.ledger, a), At(w.yt.ledger.pending, a))
  }

  /** One recovery call leaves every bystander's position alone. */
  lemma BystanderUntouched(c: Config, w: World, tx: Tx, a: Address)
    requires c.Valid() && Inv(c, w) && tx.op.OnEscrow?
    requires a != c.escrow && a != c.pm && !Targets(tx.op.recovery, a)
    ensures PositionOf(Next(c, w, tx), a) == PositionOf(w, a)
  {
    if Step(c, w, tx).Ok? {
      match tx.op.recovery
      case RecoverSy(account, n) => SeizeSyEffect(c, w, tx.signer, tx.signer, account, n);
      case RecoverPt(_, _) =>
      case RecoverYt(account, amount) => MoveProjects(w.yt.ledger, account, c.escrow, amount, a);
      case FinalizePt(amount) => RedeemBystander(c, w, c.escrow, amount, 0, a);
      case FinalizeYt(amount) => RedeemBystander(c, w, c.escrow, 0, amount, a);
    }
  }

  /** No recovery call takes a settled claim from anyone but the escrow. */
  lemma TargetKeepsYield(c: Config, w: World, tx: Tx, a: Address)
    requires c.Valid() && Inv(c, w) && tx.op.OnEscrow? && a != c.escrow
    ensures At(Next(c, w, tx).yt.ledger.pending, a) >= At(w.yt.ledger.pending, a)
  {
    if Step(c, w, tx).Ok? {
      match tx.op.recovery
      case RecoverSy(account, n) => SeizeSyEffect(c, w, tx.signer, tx.signer, account, n);
      case RecoverPt(_, _) =>
      case RecoverYt(account, amount) => MoveProjects(w.yt.ledger, account, c.escrow, amount, a);
      case FinalizePt(amount) => RedeemBystander(c, w, c.escrow, amount, 0, a);
      case FinalizeYt(amount) => RedeemBystander(c, w, c.escrow, 0, amount, a);
    }
  }

  /** Recovery isolation: a run of seizures and finalizations leaves the position of everyone but its
      targets, the escrow and the manager's custody exactly as it was, takes nothing pending and
      nothing accrued from anyone but the escrow itself, targets included, and keeps the SY exchange rate. */
  lemma {:induction false} RecoveryIsolated(c: Config, w: World, txs: seq<Tx>, a: Address)
    requires c.Valid() && Inv(c, w) && Recovery(txs) && a != c.escrow
    ensures a != c.pm && !Targeted(txs, a) ==> PositionOf(Run(c, w, txs), a) == PositionOf(w, a)
    ensures At(Run(c, w, txs).yt.ledger.pending, a) >= At(w.yt.ledger.pending, a)
    ensures Claimable(Run(c, w, txs).yt.ledger, a) >= Claimable(w.yt.ledger, a)
    ensures SYWrapper.ExchangeRate(Run(c, w, txs).sy) == SYWrapper.ExchangeRate(w.sy)
  {
    if txs == [] {
    } else {
      var init, tx := txs[..|txs| - 1], txs[|txs| - 1];
      RecoveryIsolated(c, w, init, a);
      RunKeeps(c, w, init);
      var y := Run(c, w, init);
      TargetKeepsYield(c, y, tx, a);
      NoClaim(c, y, tx, a);
      StepKeepsClaim(c, y, tx, a);
      if a != c.pm && !Targeted(txs, a) {
        assert !Targets(tx.op.recovery, a);
        BystanderUntouched(c, y, tx, a);
      }
      StepKeeps(c, y, tx);
      SYWrapper.OneToOneRate(y.sy);
      SYWrapper.OneToOneRate(Run(c, w, txs).sy);
    }
  }

  /** Seizing YT leaves the yield accrued up to the current index with its target and gives the escrow
      nothing of it: each side is credited what its own holding had earned. */
  lemma SeizureSplitsYield(c: Config, w: World, me: Address, account: Address, n: int)
    requires c.Valid() && Inv(c, w) && account != c.escrow
    requires Step(c, w, Tx(me, OnEscrow(RecoverYt(account, n)))).Ok?
    ensures var l, l' := w.yt.ledger, Next(c, w, Tx(me, OnEscrow(RecoverYt(account, n)))).yt.ledger;
            && account !in w.net.authorized && me == w.net.admin
            && At(l'.balance, account) == At(l.balance, account) - n
            && At(l'.balance, c.escrow) == At(l.balance, c.escrow) + n
            && At(l'.pending, account) == At(l.pending, account) + OwedTo(l, account)
            && At(l'.pending, c.escrow) == At(l.pending, c.escrow) + OwedTo(l, c.escrow)
            && OwedTo(l', account) == 0 && OwedTo(l', c.escrow) == 0
            && l'.index == l.index && l'.supply == l.supply
  {
    ApplyProjects(w.yt.ledger, YL.Move(account, c.escrow, n), account);
    ApplyProjects(w.yt.ledger, YL.Move(account, c.escrow, n), c.escrow);
  }

  /** Seized shares end as raw underlying with the escrow, one for one, ready for the issuer. */
  lemma SeizedSharesUnwrap(c: Config, w: World, me: Address, account: Address, n: int)
    requires c.Valid() && Inv(c, w)
    requires Step(c, w, Tx(me, OnEscrow(RecoverSy(account, n)))).Ok?
    ensures var r := Step(c, w, Tx(me, OnEscrow(RecoverSy(account, n))));
            var w' := r.value.world;
            && r.value.receipt == Amount(n)
            && account !in w.net.authorized && me == w.net.admin && account != c.escrow
            && At(w'.sy.balance, account) == At(w.sy.balance, account) - n
            && At(w'.sy.balance, c.escrow) == At(w.sy.balance, c.escrow)
            && At(w'.net.sac, c.escrow) == At(w.net.sac, c.escrow) + n
            && At(w'.net.sac, c.sy) == At(w.net.sac, c.sy) - n
            && w'.sy.totalShares == w.sy.totalShares - n
  {
    SeizeSyEffect(c, w, me, me, account, n);
    var s := SYWrapper.Seize(w.sy, c.escrow, c.escrow, c.escrow, account, n);
    SYWrapper.SeizeKeeps(w.sy, c.escrow, c.escrow, c.escrow, account, n);
    SYWrapper.WithdrawKeeps(s.value, w.net, c.sy, c.escrow, c.escrow, n, c.escrow);
  }

  /** The calls reserved for the manager and the escrow are refused to every signer: minting, burning,
      seizing, and settling a claim without paying it. */
  lemma ReservedCallsRefused(c: Config, w: World, me: Address, account: Address, n: int)
    ensures Step(c, w, Tx(me, YtClaim(account))).Err?
    ensures Step(c, w, Tx(me, OnSy(Seize(account, n)))).Err?
    ensures forall call: TokenCall | call.Mint? || call.Burn? || call.SeizeToken? ::
              Step(c, w, Tx(me, OnPt(call))).Err? && Step(c, w, Tx(me, OnYt(call))).Err?
  {
  }
}
