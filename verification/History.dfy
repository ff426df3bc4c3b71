/** Whole runs of a market: the invariant every transaction keeps, the yield-ledger events a run
    amounts to, and what an outside observer can total from calls and their return values. */
module History {
  import opened Base
  import opened Network
  import opened World
  import OracleAdapter
  import SYWrapper
  import PTToken
  import YTToken
  import PM = PrincipalManager
  import opened Effects
  import opened YL = YieldLedger
  import opened Market

  ghost predicate Inv(c: Config, w: World) {
    && w.oracle.reading.Some?
    && Funded(c, w)
    && PTToken.Balanced(w.pt)
    && Sound(w.yt.ledger)
    && w.yt.ledger.rate <= PriceOf(w)
    && (w.net.now < c.maturity ==> w.pt.totalSupply == w.yt.ledger.supply)
  }

  lemma DeployedInv(c: Config, w: World)
    requires Deployed(w)
    ensures Inv(c, w)
  {
    GenesisSound(PriceOf(w));
  }

  /** Where runs start: a yield token just created, beside a fresh wrapper, a fresh principal token and an
      unpaused manager, is a deployed market and satisfies the invariant. */
  lemma CreatedMarketDeployed(c: Config, net: Net, oracle: OracleAdapter.Oracle, auth: Address, admin: Address,
      syAdmin: Address, managerAdmin: Address)
    requires YTToken.Initialize(net, oracle, auth, admin).Ok?
    ensures var yt := YTToken.Initialize(net, oracle, auth, admin).value;
            var w := World(net, oracle, SYWrapper.Fresh(syAdmin), PTToken.Fresh(), yt, Manager(managerAdmin, false));
            Deployed(w) && Inv(c, w)
  {
    YTToken.InitializeExactly(net, oracle, auth, admin);
    var yt := YTToken.Initialize(net, oracle, auth, admin).value;
    DeployedInv(c, World(net, oracle, SYWrapper.Fresh(syAdmin), PTToken.Fresh(), yt, Manager(managerAdmin, false)));
  }

  // ---- the yield-ledger events of a transaction ----

  /** The events one transaction puts on the yield ledger, in order; none if it panics. */
  function EventsOf(c: Config, w: World, tx: Tx): seq<Event>
    requires w.oracle.reading.Some?
  {
    var r := Step(c, w, tx);
    if r.Err? then [] else
      match tx.op
      case OnYt(call) => TokenEvents(tx.signer, call)
      case YtUpdateIndex => [IndexNow(w)]
      case OnManager(Split(shares)) => [IndexNow(w), Issue(tx.signer, Nat(PM.Notional(shares, PriceOf(w))))]
      case OnManager(Redeem(_, y)) => RedeemEvents(w, tx.signer, y)
      case OnManager(ClaimAccrued) => [IndexNow(w), Claim(tx.signer)]
      case OnEscrow(RecoverYt(account, amount)) => [YL.Move(account, c.escrow, Nat(amount))]
      case OnEscrow(FinalizeYt(amount)) => RedeemEvents(w, c.escrow, amount)
      case _ => []
  }

  function Nat(n: int): nat {
    if n >= 0 then n else 0
  }

  function TokenEvents(me: Address, call: TokenCall): seq<Event> {
    match call
    case Move(to, amount) => [YL.Move(me, to, Nat(amount))]
    case MoveFrom(from, to, amount) => [YL.Move(from, to, Nat(amount))]
    case _ => []
  }

  function RedeemEvents(w: World, from: Address, y: int): seq<Event>
    requires w.oracle.reading.Some?
  {
    if y > 0 then [IndexNow(w), Destroy(from, y), Claim(from)] else []
  }

  /** What a transaction paid to `a` on the yield leg, by its return value. */
  function YieldPaid(c: Config, w: World, tx: Tx, a: Address): int {
    var r := Step(c, w, tx);
    if r.Err? then 0 else
      match tx.op
      case OnManager(Redeem(_, _)) => if a == tx.signer && r.value.receipt.Pair? then r.value.receipt.fromYt else 0
      case OnManager(ClaimAccrued) => if a == tx.signer && r.value.receipt.Amount? then r.value.receipt.amount else 0
      case OnEscrow(FinalizeYt(_)) => if a == c.escrow && r.value.receipt.Amount? then r.value.receipt.amount else 0
      case _ => 0
  }

  // ---- one transaction, contract by contract ----

  /** Yield-ledger side of a transaction: its events are enabled in turn and lead to the new ledger,
      and every claim among them is paid exactly. */
  ghost predicate Traced(c: Config, w: World, tx: Tx)
    requires w.oracle.reading.Some?
  {
    var l, es := w.yt.ledger, EventsOf(c, w, tx);
    && Legal(l, es)
    && After(l, es) == Next(c, w, tx).yt.ledger
    && (forall a :: Claimed(l, es, a) == YieldPaid(c, w, tx, a))
  }

  lemma TraceNone(l: Ledger)
    ensures Legal(l, []) && After(l, []) == l && forall a :: Claimed(l, [], a) == 0
  {
  }

  lemma TraceOne(l: Ledger, e: Event)
    requires Enabled(l, e)
    ensures Legal(l, [e]) && After(l, [e]) == Apply(l, e)
    ensures forall a :: Claimed(l, [e], a) == ClaimedBy(l, e, a)
  {
    var none: seq<Event> := [];
    TraceNone(l);
    AfterSnoc(l, none, e);
    assert none + [e] == [e];
  }

  lemma TraceTwo(l: Ledger, e: Event, f: Event)
    requires Enabled(l, e) && Enabled(Apply(l, e), f)
    ensures Legal(l, [e, f]) && After(l, [e, f]) == Apply(Apply(l, e), f)
    ensures forall a :: Claimed(l, [e, f], a) == ClaimedBy(l, e, a) + ClaimedBy(Apply(l, e), f, a)
  {
    TraceOne(l, e);
    AfterSnoc(l, [e], f);
    assert [e] + [f] == [e, f];
  }

  lemma TraceThree(l: Ledger, e: Event, f: Event, g: Event)
    requires Enabled(l, e) && Enabled(Apply(l, e), f) && Enabled(Apply(Apply(l, e), f), g)
    ensures Legal(l, [e, f, g]) && After(l, [e, f, g]) == Apply(Apply(Apply(l, e), f), g)
    ensures forall a :: Claimed(l, [e, f, g], a) ==
              ClaimedBy(l, e, a) + ClaimedBy(Apply(l, e), f, a) + ClaimedBy(Apply(Apply(l, e), f), g, a)
  {
    TraceTwo(l, e, f);
    AfterSnoc(l, [e, f], g);
    assert [e, f] + [g] == [e, f, g];
  }

  lemma YtCallTraced(c: Config, w: World, tx: Tx)
    requires c.Valid() && w.oracle.reading.Some? && (tx.op.OnYt? || tx.op.YtClaim? || tx.op.YtUpdateIndex?)
    ensures Traced(c, w, tx)
  {
    TraceNone(w.yt.ledger);
    if Step(c, w, tx).Ok? {
      match tx.op
      case OnYt(call) =>
        if call.Move? {
          TraceOne(w.yt.ledger, YL.Move(tx.signer, call.to, call.amount));
        } else if call.MoveFrom? {
          TraceOne(w.yt.ledger, YL.Move(call.from, call.to, call.amount));
        }
      case YtUpdateIndex =>
        UpdateEffect(w);
        TraceOne(w.yt.ledger, IndexNow(w));
      case YtClaim(_) =>
    }
  }

  lemma RedeemTraced(l: Ledger, now: nat, from: Address, y: nat)
    requires y <= At(l.balance, from)
    ensures var es := [Index(now), Destroy(from, y), Claim(from)];
            var burnt := Apply(Apply(l, Index(now)), Destroy(from, y));
            && Legal(l, es)
            && After(l, es) == Apply(burnt, Claim(from))
            && (forall a :: Claimed(l, es, a) == if a == from then Claimable(burnt, from) else 0)
  {
    TraceThree(l, Index(now), Destroy(from, y), Claim(from));
  }

  lemma SplitTraced(c: Config, w: World, me: Address, n: int)
    requires c.Valid() && w.oracle.reading.Some? && Funded(c, w)
    ensures Traced(c, w, Tx(me, OnManager(Split(n))))
  {
    TraceNone(w.yt.ledger);
    if Step(c, w, Tx(me, OnManager(Split(n)))).Ok? {
      MintEffect(c, w, me, me, n);
      TraceTwo(w.yt.ledger, IndexNow(w), Issue(me, PM.Notional(n, PriceOf(w))));
    }
  }

  lemma RedeemCallTraced(c: Config, w: World, me: Address, p: int, y: int)
    requires c.Valid() && w.oracle.reading.Some? && Funded(c, w)
    ensures Traced(c, w, Tx(me, OnManager(Redeem(p, y))))
  {
    TraceNone(w.yt.ledger);
    if Step(c, w, Tx(me, OnManager(Redeem(p, y)))).Ok? {
      RedeemEffect(c, w, me, me, p, y);
      if y > 0 {
        RedeemTraced(w.yt.ledger, PriceOf(w), me, y);
      }
    }
  }

  lemma ClaimCallTraced(c: Config, w: World, me: Address)
    requires c.Valid() && w.oracle.reading.Some? && Funded(c, w)
    ensures Traced(c, w, Tx(me, OnManager(ClaimAccrued)))
  {
    TraceNone(w.yt.ledger);
    if Step(c, w, Tx(me, OnManager(ClaimAccrued))).Ok? {
      ClaimEffect(c, w, me, me);
      TraceTwo(w.yt.ledger, IndexNow(w), Claim(me));
    }
  }

  lemma FinalizeTraced(c: Config, w: World, tx: Tx)
    requires c.Valid() && w.oracle.reading.Some? && Funded(c, w)
    requires tx.op.OnEscrow? && (tx.op.recovery.FinalizePt? || tx.op.recovery.FinalizeYt?)
    ensures Traced(c, w, tx)
  {
    TraceNone(w.yt.ledger);
    if Step(c, w, tx).Ok? {
      if tx.op.recovery.FinalizePt? {
        RedeemEffect(c, w, c.escrow, c.escrow, tx.op.recovery.amount, 0);
      } else {
        RedeemEffect(c, w, c.escrow, c.escrow, 0, tx.op.recovery.amount);
        RedeemTraced(w.yt.ledger, PriceOf(w), c.escrow, tx.op.recovery.amount);
      }
    }
  }

  lemma RecoverTraced(c: Config, w: World, tx: Tx)
    requires c.Valid() && w.oracle.reading.Some? && Funded(c, w)
    requires tx.op.OnEscrow? && !tx.op.recovery.FinalizePt? && !tx.op.recovery.FinalizeYt?
    ensures Traced(c, w, tx)
  {
    TraceNone(w.yt.ledger);
    if Step(c, w, tx).Ok? {
      match tx.op.recovery
      case RecoverSy(account, n) => SeizeSyEffect(c, w, tx.signer, tx.signer, account, n);
      case RecoverPt(_, _) =>
      case RecoverYt(account, amount) => TraceOne(w.yt.ledger, YL.Move(account, c.escrow, amount));
    }
  }

  lemma StepTraced(c: Config, w: World, tx: Tx)
    requires c.Valid() && w.oracle.reading.Some? && Funded(c, w)
    ensures Traced(c, w, tx)
  {
    match tx.op
    case OnYt(_) => YtCallTraced(c, w, tx);
    case YtClaim(_) => YtCallTraced(c, w, tx);
    case YtUpdateIndex => YtCallTraced(c, w, tx);
    case OnManager(PauseManager(_)) => TraceNone(w.yt.ledger);
    case OnManager(Split(n)) => SplitTraced(c, w, tx.signer, n);
    case OnManager(Redeem(p, y)) => RedeemCallTraced(c, w, tx.signer, p, y);
    case OnManager(ClaimAccrued) => ClaimCallTraced(c, w, tx.signer);
    case OnEscrow(call) =>
      if call.FinalizePt? || call.FinalizeYt? {
        FinalizeTraced(c, w, tx);
      } else {
        RecoverTraced(c, w, tx);
      }
    case _ => TraceNone(w.yt.ledger);
  }

  // ---- the invariant, transaction by transaction ----

  /** What one transaction does to the quantities the run theorems speak of. */
  ghost predicate Progress(c: Config, w: World, w': World) {
    && Inv(c, w')
    && w'.net.now >= w.net.now
    && w.oracle.reading.Some? && PriceOf(w') >= PriceOf(w)
    && (w.net.now >= c.maturity ==> w'.pt.totalSupply <= w.pt.totalSupply && w'.yt.ledger.supply <= w.yt.ledger.supply)
  }

  lemma SyCallKeeps(c: Config, w: World, tx: Tx)
    requires c.Valid() && Inv(c, w) && tx.op.OnSy? && Step(c, w, tx).Ok?
    ensures Progress(c, w, Next(c, w, tx))
  {
    var me := tx.signer;
    match tx.op.sy
    case Pause(_) =>
    case Deposit(amount) => SYWrapper.DepositKeeps(w.sy, w.net, c.sy, me, me, amount);
    case Withdraw(shares, to) => SYWrapper.WithdrawKeeps(w.sy, w.net, c.sy, me, me, shares, to);
    case Transfer(to, amount) => SYWrapper.TransferKeeps(w.sy, w.net, me, me, to, amount);
    case Seize(account, shares) => SYWrapper.SeizeKeeps(w.sy, c.escrow, me, me, account, shares);
  }

  lemma PtCallKeeps(c: Config, w: World, tx: Tx)
    requires c.Valid() && Inv(c, w) && tx.op.OnPt? && Step(c, w, tx).Ok?
    ensures Progress(c, w, Next(c, w, tx))
  {
    var me, k := tx.signer, c.PtWiring();
    match tx.op.pt
    case Move(to, amount) => PTToken.MovesKeepSupply(w.pt, k, w.net, me, me, me, to, amount);
    case MoveFrom(from, to, amount) => PTToken.MovesKeepSupply(w.pt, k, w.net, me, me, from, to, amount);
    case SeizeToken(account, amount) => PTToken.MovesKeepSupply(w.pt, k, w.net, me, me, account, me, amount);
    case _ =>
  }

  lemma YtCallKeeps(c: Config, w: World, tx: Tx)
    requires c.Valid() && Inv(c, w) && Step(c, w, tx).Ok?
    requires tx.op.OnYt? || tx.op.YtClaim? || tx.op.YtUpdateIndex?
    ensures Progress(c, w, Next(c, w, tx))
  {
    var l := w.yt.ledger;
    match tx.op
    case OnYt(call) =>
      if call.Move? {
        ApplyKeepsSound(l, YL.Move(tx.signer, call.to, call.amount));
      } else if call.MoveFrom? {
        ApplyKeepsSound(l, YL.Move(call.from, call.to, call.amount));
      }
    case YtUpdateIndex =>
      UpdateEffect(w);
      ApplyKeepsSound(l, IndexNow(w));
    case YtClaim(_) =>
  }

  lemma MintKeeps(c: Config, w: World, me: Address, n: int)
    requires c.Valid() && Inv(c, w) && PM.Mint(c, w, me, me, n).Ok?
    ensures Progress(c, w, PM.Mint(c, w, me, me, n).value.world)
  {
    MintEffect(c, w, me, me, n);
    var notional := PM.Notional(n, PriceOf(w));
    TotalMoved(w.sy.balance, me, c.pm, n);
    TotalUpdate(w.pt.balance, me, At(w.pt.balance, me) + notional);
    ApplyKeepsSound(w.yt.ledger, IndexNow(w));
    ApplyKeepsSound(Indexed(w), Issue(me, notional));
  }

  lemma RedeemKeeps(c: Config, w: World, from: Address, p: int, y: int)
    requires c.Valid() && Inv(c, w) && PM.Redeem(c, w, from, from, p, y).Ok?
    ensures Progress(c, w, PM.Redeem(c, w, from, from, p, y).value.world)
  {
    RedeemEffect(c, w, from, from, p, y);
    if p > 0 {
      TotalUpdate(w.pt.balance, from, At(w.pt.balance, from) - p);
    }
    if y > 0 {
      ApplyKeepsSound(w.yt.ledger, IndexNow(w));
      ApplyKeepsSound(Indexed(w), Destroy(from, y));
      ApplyKeepsSound(Apply(Indexed(w), Destroy(from, y)), Claim(from));
    }
  }

  lemma ClaimKeeps(c: Config, w: World, me: Address)
    requires c.Valid() && Inv(c, w) && PM.ClaimYield(c, w, me, me).Ok?
    ensures Progress(c, w, PM.ClaimYield(c, w, me, me).value.world)
  {
    ClaimEffect(c, w, me, me);
    ApplyKeepsSound(w.yt.ledger, IndexNow(w));
    ApplyKeepsSound(Indexed(w), Claim(me));
  }

  lemma EscrowCallKeeps(c: Config, w: World, tx: Tx)
    requires c.Valid() && Inv(c, w) && tx.op.OnEscrow? && Step(c, w, tx).Ok?
    ensures Progress(c, w, Next(c, w, tx))
  {
    var me := tx.signer;
    match tx.op.recovery
    case RecoverSy(account, n) => SeizeSyEffect(c, w, me, me, account, n);
    case RecoverPt(account, amount) =>
      PTToken.MovesKeepSupply(w.pt, c.PtWiring(), w.net, c.escrow, me, account, c.escrow, amount);
    case RecoverYt(account, amount) => ApplyKeepsSound(w.yt.ledger, YL.Move(account, c.escrow, amount));
    case FinalizePt(amount) => RedeemKeeps(c, w, c.escrow, amount, 0);
    case FinalizeYt(amount) => RedeemKeeps(c, w, c.escrow, 0, amount);
  }

  /** Every transaction, successful or not, keeps the invariant; time and price never go back and
      after maturity neither supply rises. */
  lemma StepKeeps(c: Config, w: World, tx: Tx)
    requires c.Valid() && Inv(c, w)
    ensures Progress(c, w, Next(c, w, tx))
  {
    if Step(c, w, tx).Ok? {
      match tx.op
      case OnSy(_) => SyCallKeeps(c, w, tx);
      case OnPt(_) => PtCallKeeps(c, w, tx);
      case OnYt(_) => YtCallKeeps(c, w, tx);
      case YtClaim(_) => YtCallKeeps(c, w, tx);
      case YtUpdateIndex => YtCallKeeps(c, w, tx);
      case OnManager(PauseManager(_)) =>
      case OnManager(Split(n)) => MintKeeps(c, w, tx.signer, n);
      case OnManager(Redeem(p, y)) => RedeemKeeps(c, w, tx.signer, p, y);
      case OnManager(ClaimAccrued) => ClaimKeeps(c, w, tx.signer);
      case OnEscrow(_) => EscrowCallKeeps(c, w, tx);
      case _ =>
    }
  }

  // ---- runs ----

  lemma {:induction false} RunKeeps(c: Config, w: World, txs: seq<Tx>)
    requires c.Valid() && Inv(c, w)
    ensures Progress(c, w, Run(c, w, txs))
  {
    if txs == [] {
    } else {
      RunKeeps(c, w, txs[..|txs| - 1]);
      StepKeeps(c, Run(c, w, txs[..|txs| - 1]), txs[|txs| - 1]);
    }
  }

  /** All yield-ledger events of a run, in order. */
  ghost function Trace(c: Config, w: World, txs: seq<Tx>): seq<Event>
    requires c.Valid() && Inv(c, w)
  {
    if txs == [] then [] else
      RunKeeps(c, w, txs[..|txs| - 1]);
      Trace(c, w, txs[..|txs| - 1]) + EventsOf(c, Run(c, w, txs[..|txs| - 1]), txs[|txs| - 1])
  }

  function YieldPaidTo(c: Config, w: World, txs: seq<Tx>, a: Address): int {
    if txs == [] then 0 else
      YieldPaidTo(c, w, txs[..|txs| - 1], a) + YieldPaid(c, Run(c, w, txs[..|txs| - 1]), txs[|txs| - 1], a)
  }

  lemma {:induction false} AfterAppend(l: Ledger, es: seq<Event>, fs: seq<Event>)
    requires Legal(l, es) && Legal(After(l, es), fs)
    ensures Legal(l, es + fs) && After(l, es + fs) == After(After(l, es), fs)
    ensures forall a :: Claimed(l, es + fs, a) == Claimed(l, es, a) + Claimed(After(l, es), fs, a)
  {
    if fs == [] {
      assert es + fs == es;
    } else {
      var init, f := fs[..|fs| - 1], fs[|fs| - 1];
      AfterAppend(l, es, init);
      AfterSnoc(l, es + init, f);
      assert (es + init) + [f] == es + fs;
    }
  }

  /** A run of the whole market is, on the yield ledger, the run of its events; and every claim the
      ledger grants is paid in full by the manager. */
  lemma {:induction false} RunTraced(c: Config, w: World, txs: seq<Tx>)
    requires c.Valid() && Inv(c, w)
    ensures Legal(w.yt.ledger, Trace(c, w, txs))
    ensures After(w.yt.ledger, Trace(c, w, txs)) == Run(c, w, txs).yt.ledger
    ensures forall a :: Claimed(w.yt.ledger, Trace(c, w, txs), a) == YieldPaidTo(c, w, txs, a)
  {
    TraceNone(w.yt.ledger);
    if txs == [] {
    } else {
      var init, tx := txs[..|txs| - 1], txs[|txs| - 1];
      RunTraced(c, w, init);
      RunKeeps(c, w, init);
      var y := Run(c, w, init);
      StepTraced(c, y, tx);
      AfterAppend(w.yt.ledger, Trace(c, w, init), EventsOf(c, y, tx));
    }
  }
}
