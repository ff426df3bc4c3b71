/** Who can change what an account holds: the run laws of SY, PT and YT balances and of allowances. */
module Positions {
  import opened Base
  import opened World
  import opened Sep41
  import PM = PrincipalManager
  import opened Effects
  import opened YL = YieldLedger
  import opened YieldRow
  import opened Market
  import opened History
  import opened Backing
  import opened Calls

  datatype Holdings = Holdings(sy: int, pt: int, yt: int)

  function HoldingsOf(w: World, a: Address): Holdings {
    Holdings(At(w.sy.balance, a), At(w.pt.balance, a), At(w.yt.ledger.balance, a))
  }

  function Less(x: Holdings, y: Holdings): Holdings {
    Holdings(x.sy - y.sy, x.pt - y.pt, x.yt - y.yt)
  }

  function Sum(x: Holdings, y: Holdings): Holdings {
    Holdings(x.sy + y.sy, x.pt + y.pt, x.yt + y.yt)
  }

  // ---- balances ----

  /** `y` is `x` and `e` together. */
  predicate Grown(x: Holdings, y: Holdings, e: Holdings) {
    y.sy == x.sy + e.sy && y.pt == x.pt + e.pt && y.yt == x.yt + e.yt
  }

  function When(condition: bool, n: int): int {
    if condition then n else 0
  }

  /** What a call that went through does to the holdings of `a`, by its arguments and its return value. */
  function Movement(c: Config, tx: Tx, receipt: Receipt, a: Address): Holdings {
    var me := tx.signer;
    match tx.op
    case OnSy(Deposit(n)) => Holdings(When(a == me, n), 0, 0)
    case OnSy(Withdraw(n, _)) => Holdings(When(a == me, -n), 0, 0)
    case OnSy(Transfer(to, n)) => Holdings(When(a == to, n) - When(a == me, n), 0, 0)
    case OnPt(Move(to, n)) => Holdings(0, When(a == to, n) - When(a == me, n), 0)
    case OnPt(MoveFrom(from, to, n)) => Holdings(0, When(a == to, n) - When(a == from, n), 0)
    case OnYt(Move(to, n)) => Holdings(0, 0, When(a == to, n) - When(a == me, n))
    case OnYt(MoveFrom(from, to, n)) => Holdings(0, 0, When(a == to, n) - When(a == from, n))
    case OnManager(call) => ManagerMovement(c, me, call, receipt, a)
    case OnEscrow(call) => EscrowMovement(c, call, receipt, a)
    case _ => Holdings(0, 0, 0)
  }

  function ManagerMovement(c: Config, me: Address, call: ManagerCall, receipt: Receipt, a: Address): Holdings {
    match call
    case Split(n) =>
      var minted := if receipt.Amount? then receipt.amount else 0;
      Holdings(When(a == c.pm, n) - When(a == me, n), When(a == me, minted), When(a == me, minted))
    case Redeem(p, y) =>
      var paid := if receipt.Pair? then receipt.fromPt + receipt.fromYt else 0;
      Holdings(When(a == c.pm, -paid), -When(a == me, Nat(p)), -When(a == me, Nat(y)))
    case ClaimAccrued =>
      var paid := if receipt.Amount? then receipt.amount else 0;
      Holdings(When(a == c.pm, -paid), 0, 0)
    case PauseManager(_) => Holdings(0, 0, 0)
  }

  function EscrowMovement(c: Config, call: EscrowCall, receipt: Receipt, a: Address): Holdings {
    var paid := if receipt.Amount? then receipt.amount else 0;
    match call
    case RecoverSy(account, n) => Holdings(When(a == account, -n), 0, 0)
    case RecoverPt(account, n) => Holdings(0, When(a == c.escrow, n) - When(a == account, n), 0)
    case RecoverYt(account, n) => Holdings(0, 0, When(a == c.escrow, n) - When(a == account, n))
    case FinalizePt(p) => Holdings(When(a == c.pm, -paid), When(a == c.escrow, -p), 0)
    case FinalizeYt(y) => Holdings(When(a == c.pm, -paid), 0, When(a == c.escrow, -y))
  }

  function MovementOf(c: Config, w: World, tx: Tx, a: Address): Holdings {
    var r := Step(c, w, tx);
    if r.Ok? then Movement(c, tx, r.value.receipt, a) else Holdings(0, 0, 0)
  }

  function MovementsOf(c: Config, w: World, txs: seq<Tx>, a: Address): Holdings {
    if txs == [] then Holdings(0, 0, 0) else
      Sum(MovementsOf(c, w, txs[..|txs| - 1], a), MovementOf(c, Run(c, w, txs[..|txs| - 1]), txs[|txs| - 1], a))
  }

  ghost predicate Booked(c: Config, w: World, tx: Tx, a: Address) {
    Grown(HoldingsOf(w, a), HoldingsOf(Next(c, w, tx), a), MovementOf(c, w, tx, a))
  }

  lemma DepositBooked(c: Config, w: World, me: Address, n: int, a: Address)
    requires c.Valid() && Inv(c, w)
    ensures Booked(c, w, Tx(me, OnSy(Deposit(n))), a)
  {
    var r := Step(c, w, Tx(me, OnSy(Deposit(n))));
    if r.Ok? {
      DepositCall(c, w, me, n);
    }
  }

  lemma WithdrawBooked(c: Config, w: World, me: Address, n: int, to: Address, a: Address)
    requires c.Valid() && Inv(c, w)
    ensures Booked(c, w, Tx(me, OnSy(Withdraw(n, to))), a)
  {
    var r := Step(c, w, Tx(me, OnSy(Withdraw(n, to))));
    if r.Ok? {
      WithdrawCall(c, w, me, n, to);
    }
  }

  lemma ShareTransferBooked(c: Config, w: World, me: Address, to: Address, n: int, a: Address)
    ensures Booked(c, w, Tx(me, OnSy(Transfer(to, n))), a)
  {
    var r := Step(c, w, Tx(me, OnSy(Transfer(to, n))));
    if r.Ok? {
      ShareTransferCall(c, w, me, to, n);
    }
  }

  lemma PtTransferBooked(c: Config, w: World, me: Address, to: Address, n: int, a: Address)
    ensures Booked(c, w, Tx(me, OnPt(TokenCall.Move(to, n))), a)
  {
    var r := Step(c, w, Tx(me, OnPt(TokenCall.Move(to, n))));
    if r.Ok? {
      PtTransferCall(c, w, me, to, n);
    }
  }

  lemma PtTransferFromBooked(c: Config, w: World, me: Address, from: Address, to: Address, n: int, a: Address)
    ensures Booked(c, w, Tx(me, OnPt(MoveFrom(from, to, n))), a)
  {
    var r := Step(c, w, Tx(me, OnPt(MoveFrom(from, to, n))));
    if r.Ok? {
      PtTransferFromCall(c, w, me, from, to, n);
    }
  }

  lemma YtTransferBooked(c: Config, w: World, me: Address, to: Address, n: int, a: Address)
    ensures Booked(c, w, Tx(me, OnYt(TokenCall.Move(to, n))), a)
  {
    var r := Step(c, w, Tx(me, OnYt(TokenCall.Move(to, n))));
    if r.Ok? {
      YtTransferCall(c, w, me, to, n);
    }
  }

  lemma YtTransferFromBooked(c: Config, w: World, me: Address, from: Address, to: Address, n: int, a: Address)
    ensures Booked(c, w, Tx(me, OnYt(MoveFrom(from, to, n))), a)
  {
    var r := Step(c, w, Tx(me, OnYt(MoveFrom(from, to, n))));
    if r.Ok? {
      YtTransferFromCall(c, w, me, from, to, n);
    }
  }

  lemma UpdateBooked(c: Config, w: World, me: Address, a: Address)
    requires Inv(c, w)
    ensures Booked(c, w, Tx(me, YtUpdateIndex), a)
  {
    var r := Step(c, w, Tx(me, YtUpdateIndex));
    if r.Ok? {
      UpdateIndexCall(c, w, me);
    }
  }

  lemma TokenCallBooked(c: Config, w: World, tx: Tx, a: Address)
    requires tx.op.OnPt? || tx.op.OnYt?
    ensures Booked(c, w, tx, a)
  {
    match tx.op
    case OnPt(Move(to, n)) => PtTransferBooked(c, w, tx.signer, to, n, a);
    case OnPt(MoveFrom(from, to, n)) => PtTransferFromBooked(c, w, tx.signer, from, to, n, a);
    case OnYt(Move(to, n)) => YtTransferBooked(c, w, tx.signer, to, n, a);
    case OnYt(MoveFrom(from, to, n)) => YtTransferFromBooked(c, w, tx.signer, from, to, n, a);
    case _ => QuietBooked(c, w, tx, a);
  }

  /** Approvals, and the calls reserved for the manager and the escrow. */
  lemma QuietBooked(c: Config, w: World, tx: Tx, a: Address)
    requires match tx.op
             case OnPt(call) => !call.Move? && !call.MoveFrom?
             case OnYt(call) => !call.Move? && !call.MoveFrom?
             case OnSy(call) => call.Pause? || call.Seize?
             case OnManager(call) => call.PauseManager?
             case OnEscrow(_) => false
             case YtUpdateIndex => false
             case _ => true
    ensures Booked(c, w, tx, a)
  {
    if Step(c, w, tx).Ok? {
      var z := Next(c, w, tx);
      assert z.sy.balance == w.sy.balance && z.pt.balance == w.pt.balance && z.yt.ledger == w.yt.ledger;
    }
  }

  lemma SplitHoldings(w: World, z: World, me: Address, pm: Address, n: nat, minted: nat, a: Address)
    requires w.oracle.reading.Some? && n <= At(w.sy.balance, me)
    requires z.sy.balance == Moved(w.sy.balance, me, pm, n)
    requires z.pt.balance == w.pt.balance[me := At(w.pt.balance, me) + minted]
    requires z.yt.ledger == Apply(Indexed(w), Issue(me, minted))
    ensures Grown(HoldingsOf(w, a), HoldingsOf(z, a),
                  Holdings(When(a == pm, n) - When(a == me, n), When(a == me, minted), When(a == me, minted)))
  {
    MovedShifts(w.sy.balance, me, pm, n);
    SettleProjects(Indexed(w), me, a);
  }

  lemma SplitBooked(c: Config, w: World, me: Address, n: int, a: Address)
    requires c.Valid() && Inv(c, w)
    ensures Booked(c, w, Tx(me, OnManager(Split(n))), a)
  {
    var r := Step(c, w, Tx(me, OnManager(Split(n))));
    if r.Ok? {
      MintEffect(c, w, me, me, n);
      SplitHoldings(w, r.value.world, me, c.pm, n, PM.Notional(n, PriceOf(w)), a);
    }
  }

  lemma ClaimBooked(c: Config, w: World, me: Address, a: Address)
    requires c.Valid() && Inv(c, w)
    ensures Booked(c, w, Tx(me, OnManager(ClaimAccrued)), a)
  {
    var r := Step(c, w, Tx(me, OnManager(ClaimAccrued)));
    if r.Ok? {
      ClaimEffect(c, w, me, me);
      SettleProjects(Indexed(w), me, a);
      assert At(r.value.world.sy.balance, a) == At(w.sy.balance, a) - When(a == c.pm, r.value.receipt.amount);
    }
  }

  lemma RedeemSyBalance(c: Config, w: World, from: Address, p: int, y: int, a: Address)
    requires c.Valid() && Inv(c, w) && PM.Redeem(c, w, from, from, p, y).Ok?
    ensures var r := PM.Redeem(c, w, from, from, p, y).value;
            At(r.world.sy.balance, a) == At(w.sy.balance, a) - When(a == c.pm, r.fromPt + r.fromYt)
  {
    RedeemEffect(c, w, from, from, p, y);
  }

  lemma RedeemPtBalance(c: Config, w: World, from: Address, p: int, y: int, a: Address)
    requires c.Valid() && Inv(c, w) && PM.Redeem(c, w, from, from, p, y).Ok?
    ensures var r := PM.Redeem(c, w, from, from, p, y).value;
            At(r.world.pt.balance, a) == At(w.pt.balance, a) - When(a == from, Nat(p))
  {
    RedeemEffect(c, w, from, from, p, y);
  }

  lemma RedeemYtBalance(c: Config, w: World, from: Address, p: int, y: int, a: Address)
    requires c.Valid() && Inv(c, w) && PM.Redeem(c, w, from, from, p, y).Ok?
    ensures var r := PM.Redeem(c, w, from, from, p, y).value;
            At(r.world.yt.ledger.balance, a) == At(w.yt.ledger.balance, a) - When(a == from, Nat(y))
  {
    RedeemEffect(c, w, from, from, p, y);
    if y > 0 {
      SettleProjects(Indexed(w), from, a);
      SettleProjects(Apply(Indexed(w), Destroy(from, y)), from, a);
    }
  }

  /** What a redemption by `from` does to the balances of `a`. */
  lemma RedeemBooked(c: Config, w: World, from: Address, p: int, y: int, a: Address)
    requires c.Valid() && Inv(c, w) && PM.Redeem(c, w, from, from, p, y).Ok?
    ensures var r := PM.Redeem(c, w, from, from, p, y).value;
            Grown(HoldingsOf(w, a), HoldingsOf(r.world, a),
                  Holdings(When(a == c.pm, -(r.fromPt + r.fromYt)), -When(a == from, Nat(p)), -When(a == from, Nat(y))))
  {
    RedeemSyBalance(c, w, from, p, y, a);
    RedeemPtBalance(c, w, from, p, y, a);
    RedeemYtBalance(c, w, from, p, y, a);
  }

  /** What a redemption by `from` moves, when it goes through. */
  ghost predicate Redeems(c: Config, w: World, from: Address, p: int, y: int, a: Address) {
    var r := PM.Redeem(c, w, from, from, p, y);
    r.Ok? ==>
      Grown(HoldingsOf(w, a), HoldingsOf(r.value.world, a),
            Holdings(When(a == c.pm, -(r.value.fromPt + r.value.fromYt)), -When(a == from, Nat(p)),
                     -When(a == from, Nat(y))))
  }

  lemma AnyRedemption(c: Config, w: World, from: Address, p: int, y: int, a: Address)
    requires c.Valid() && Inv(c, w)
    ensures Redeems(c, w, from, p, y, a)
  {
    if PM.Redeem(c, w, from, from, p, y).Ok? {
      RedeemBooked(c, w, from, p, y, a);
    }
  }

  lemma RedeemOutcome(c: Config, w: World, me: Address, p: int, y: int)
    requires Step(c, w, Tx(me, OnManager(Redeem(p, y)))).Ok?
    ensures PM.Redeem(c, w, me, me, p, y).Ok?
    ensures var r := PM.Redeem(c, w, me, me, p, y).value;
            Step(c, w, Tx(me, OnManager(Redeem(p, y)))).value == Outcome(r.world, Pair(r.fromPt, r.fromYt))
  {
  }

  /** A call that went through is booked once its outcome is known. */
  lemma OutcomeBooked(c: Config, w: World, tx: Tx, z: World, receipt: Receipt, a: Address)
    requires Step(c, w, tx) == Ok(Outcome(z, receipt))
    requires Grown(HoldingsOf(w, a), HoldingsOf(z, a), Movement(c, tx, receipt, a))
    ensures Booked(c, w, tx, a)
  {
  }

  lemma RedeemMovement(c: Config, me: Address, p: int, y: int, fromPt: int, fromYt: int, a: Address)
    ensures Movement(c, Tx(me, OnManager(Redeem(p, y))), Pair(fromPt, fromYt), a) ==
            Holdings(When(a == c.pm, -(fromPt + fromYt)), -When(a == me, Nat(p)), -When(a == me, Nat(y)))
  {
  }

  lemma RedeemReceiptBooked(c: Config, w: World, tx: Tx, z: World, fromPt: int, fromYt: int, a: Address)
    requires tx.op.OnManager? && tx.op.pm.Redeem?
    requires Step(c, w, tx) == Ok(Outcome(z, Pair(fromPt, fromYt)))
    requires var p, y := Nat(tx.op.pm.ptAmount), Nat(tx.op.pm.ytAmount);
             Grown(HoldingsOf(w, a), HoldingsOf(z, a),
                   Holdings(When(a == c.pm, -(fromPt + fromYt)), -When(a == tx.signer, p), -When(a == tx.signer, y)))
    ensures Booked(c, w, tx, a)
  {
    RedeemMovement(c, tx.signer, tx.op.pm.ptAmount, tx.op.pm.ytAmount, fromPt, fromYt, a);
    OutcomeBooked(c, w, tx, z, Pair(fromPt, fromYt), a);
  }

  lemma RedeemCallMoves(c: Config, w: World, me: Address, p: int, y: int, a: Address)
    requires Redeems(c, w, me, p, y, a)
    ensures Booked(c, w, Tx(me, OnManager(Redeem(p, y))), a)
  {
    var tx := Tx(me, OnManager(Redeem(p, y)));
    if Step(c, w, tx).Ok? {
      RedeemOutcome(c, w, me, p, y);
      var r := PM.Redeem(c, w, me, me, p, y).value;
      RedeemReceiptBooked(c, w, tx, r.world, r.fromPt, r.fromYt, a);
    }
  }

  lemma RedeemCallBooked(c: Config, w: World, me: Address, p: int, y: int, a: Address)
    requires c.Valid() && Inv(c, w)
    ensures Booked(c, w, Tx(me, OnManager(Redeem(p, y))), a)
  {
    AnyRedemption(c, w, me, p, y, a);
    RedeemCallMoves(c, w, me, p, y, a);
  }

  lemma RecoverBooked(c: Config, w: World, me: Address, call: EscrowCall, a: Address)
    requires c.Valid() && Inv(c, w) && !call.FinalizePt? && !call.FinalizeYt?
    ensures Booked(c, w, Tx(me, OnEscrow(call)), a)
  {
    var r := Step(c, w, Tx(me, OnEscrow(call)));
    if r.Ok? {
      match call
      case RecoverSy(account, n) =>
        RecoverSyCall(c, w, me, account, n);
      case RecoverPt(account, n) =>
        RecoverPtCall(c, w, me, account, n);
      case RecoverYt(account, n) =>
        RecoverYtCall(c, w, me, account, n);
    }
  }

  predicate OneLegged(c: Config, w: World, from: Address, p: int, y: int) {
    var r := PM.Redeem(c, w, from, from, p, y);
    r.Ok? ==> (p == 0 ==> r.value.fromPt == 0) && (y == 0 ==> r.value.fromYt == 0)
  }

  lemma EmptyLegPaysNothing(c: Config, w: World, from: Address, p: int, y: int)
    requires c.Valid() && Inv(c, w)
    ensures OneLegged(c, w, from, p, y)
  {
    if PM.Redeem(c, w, from, from, p, y).Ok? {
      RedeemEffect(c, w, from, from, p, y);
    }
  }

  lemma EscrowCallMovement(c: Config, tx: Tx, receipt: Receipt, a: Address)
    requires tx.op.OnEscrow?
    ensures Movement(c, tx, receipt, a) == EscrowMovement(c, tx.op.recovery, receipt, a)
  {
  }

  lemma RecoveredBooked(c: Config, w: World, tx: Tx, z: World, paid: int, a: Address)
    requires tx.op.OnEscrow? && Step(c, w, tx) == Ok(Outcome(z, Amount(paid)))
    requires Grown(HoldingsOf(w, a), HoldingsOf(z, a), EscrowMovement(c, tx.op.recovery, Amount(paid), a))
    ensures Booked(c, w, tx, a)
  {
    EscrowCallMovement(c, tx, Amount(paid), a);
    OutcomeBooked(c, w, tx, z, Amount(paid), a);
  }

  /** What a redemption by the escrow of one token alone moves, when it goes through. */
  ghost predicate PtAlone(c: Config, w: World, p: int, a: Address) {
    var r := PM.Redeem(c, w, c.escrow, c.escrow, p, 0);
    p > 0 && r.Ok? ==>
      Grown(HoldingsOf(w, a), HoldingsOf(r.value.world, a),
            EscrowMovement(c, FinalizePt(p), Amount(r.value.fromPt), a))
  }

  lemma PtAloneGrown(c: Config, was: Holdings, now: Holdings, p: int, fromPt: int, fromYt: int, a: Address)
    requires p > 0 && fromYt == 0
    requires Grown(was, now, Holdings(When(a == c.pm, -(fromPt + fromYt)), -When(a == c.escrow, Nat(p)),
                                      -When(a == c.escrow, Nat(0))))
    ensures Grown(was, now, EscrowMovement(c, FinalizePt(p), Amount(fromPt), a))
  {
  }

  lemma PtAloneMoves(c: Config, w: World, p: int, a: Address)
    requires Redeems(c, w, c.escrow, p, 0, a) && OneLegged(c, w, c.escrow, p, 0)
    ensures PtAlone(c, w, p, a)
  {
    var r := PM.Redeem(c, w, c.escrow, c.escrow, p, 0);
    if p > 0 && r.Ok? {
      PtAloneGrown(c, HoldingsOf(w, a), HoldingsOf(r.value.world, a), p, r.value.fromPt, r.value.fromYt, a);
    }
  }

  lemma FinalizePtOutcome(c: Config, w: World, me: Address, p: int)
    requires Step(c, w, Tx(me, OnEscrow(FinalizePt(p)))).Ok?
    ensures p > 0 && PM.Redeem(c, w, c.escrow, c.escrow, p, 0).Ok?
    ensures var r := PM.Redeem(c, w, c.escrow, c.escrow, p, 0).value;
            Step(c, w, Tx(me, OnEscrow(FinalizePt(p)))).value == Outcome(r.world, Amount(r.fromPt))
  {
  }

  lemma FinalizePtMoves(c: Config, w: World, me: Address, p: int, a: Address)
    requires PtAlone(c, w, p, a)
    ensures Booked(c, w, Tx(me, OnEscrow(FinalizePt(p))), a)
  {
    var tx := Tx(me, OnEscrow(FinalizePt(p)));
    if Step(c, w, tx).Ok? {
      FinalizePtOutcome(c, w, me, p);
      var r := PM.Redeem(c, w, c.escrow, c.escrow, p, 0).value;
      RecoveredBooked(c, w, tx, r.world, r.fromPt, a);
    }
  }

  lemma FinalizePtBooked(c: Config, w: World, me: Address, p: int, a: Address)
    requires c.Valid() && Inv(c, w)
    ensures Booked(c, w, Tx(me, OnEscrow(FinalizePt(p))), a)
  {
    AnyRedemption(c, w, c.escrow, p, 0, a);
    EmptyLegPaysNothing(c, w, c.escrow, p, 0);
    PtAloneMoves(c, w, p, a);
    FinalizePtMoves(c, w, me, p, a);
  }

  /** What a redemption by the escrow of one token alone moves, when it goes through. */
  ghost predicate YtAlone(c: Config, w: World, y: int, a: Address) {
    var r := PM.Redeem(c, w, c.escrow, c.escrow, 0, y);
    y > 0 && r.Ok? ==>
      Grown(HoldingsOf(w, a), HoldingsOf(r.value.world, a),
            EscrowMovement(c, FinalizeYt(y), Amount(r.value.fromYt), a))
  }

  lemma YtAloneGrown(c: Config, was: Holdings, now: Holdings, y: int, fromPt: int, fromYt: int, a: Address)
    requires y > 0 && fromPt == 0
    requires Grown(was, now, Holdings(When(a == c.pm, -(fromPt + fromYt)), -When(a == c.escrow, Nat(0)),
                                      -When(a == c.escrow, Nat(y))))
    ensures Grown(was, now, EscrowMovement(c, FinalizeYt(y), Amount(fromYt), a))
  {
  }

  lemma YtAloneMoves(c: Config, w: World, y: int, a: Address)
    requires Redeems(c, w, c.escrow, 0, y, a) && OneLegged(c, w, c.escrow, 0, y)
    ensures YtAlone(c, w, y, a)
  {
    var r := PM.Redeem(c, w, c.escrow, c.escrow, 0, y);
    if y > 0 && r.Ok? {
      YtAloneGrown(c, HoldingsOf(w, a), HoldingsOf(r.value.world, a), y, r.value.fromPt, r.value.fromYt, a);
    }
  }

  lemma FinalizeYtOutcome(c: Config, w: World, me: Address, y: int)
    requires Step(c, w, Tx(me, OnEscrow(FinalizeYt(y)))).Ok?
    ensures y > 0 && PM.Redeem(c, w, c.escrow, c.escrow, 0, y).Ok?
    ensures var r := PM.Redeem(c, w, c.escrow, c.escrow, 0, y).value;
            Step(c, w, Tx(me, OnEscrow(FinalizeYt(y)))).value == Outcome(r.world, Amount(r.fromYt))
  {
  }

  lemma FinalizeYtMoves(c: Config, w: World, me: Address, y: int, a: Address)
    requires YtAlone(c, w, y, a)
    ensures Booked(c, w, Tx(me, OnEscrow(FinalizeYt(y))), a)
  {
    var tx := Tx(me, OnEscrow(FinalizeYt(y)));
    if Step(c, w, tx).Ok? {
      FinalizeYtOutcome(c, w, me, y);
      var r := PM.Redeem(c, w, c.escrow, c.escrow, 0, y).value;
      RecoveredBooked(c, w, tx, r.world, r.fromYt, a);
    }
  }

  lemma FinalizeYtBooked(c: Config, w: World, me: Address, y: int, a: Address)
    requires c.Valid() && Inv(c, w)
    ensures Booked(c, w, Tx(me, OnEscrow(FinalizeYt(y))), a)
  {
    AnyRedemption(c, w, c.escrow, 0, y, a);
    EmptyLegPaysNothing(c, w, c.escrow, 0, y);
    YtAloneMoves(c, w, y, a);
    FinalizeYtMoves(c, w, me, y, a);
  }

  lemma StepBooked(c: Config, w: World, tx: Tx, a: Address)
    requires c.Valid() && Inv(c, w)
    ensures Booked(c, w, tx, a)
  {
    var me := tx.signer;
    if tx.op.OnPt? || tx.op.OnYt? {
      TokenCallBooked(c, w, tx, a);
    } else if tx.op.OnEscrow? {
      if tx.op.recovery.FinalizePt? {
        FinalizePtBooked(c, w, me, tx.op.recovery.amount, a);
      } else if tx.op.recovery.FinalizeYt? {
        FinalizeYtBooked(c, w, me, tx.op.recovery.amount, a);
      } else {
        RecoverBooked(c, w, me, tx.op.recovery, a);
      }
    } else {
      match tx.op
      case OnSy(Deposit(n)) => DepositBooked(c, w, me, n, a);
      case OnSy(Withdraw(n, to)) => WithdrawBooked(c, w, me, n, to, a);
      case OnSy(Transfer(to, n)) => ShareTransferBooked(c, w, me, to, n, a);
      case YtUpdateIndex => UpdateBooked(c, w, me, a);
      case OnManager(Split(n)) => SplitBooked(c, w, me, n, a);
      case OnManager(Redeem(p, y)) => RedeemCallBooked(c, w, me, p, y, a);
      case OnManager(ClaimAccrued) => ClaimBooked(c, w, me, a);
      case _ => QuietBooked(c, w, tx, a);
    }
  }

  /** The law of balances: over any run the SY, PT and YT of any account, the manager and the escrow among
      them, are what they were and what the calls of the run did to them by their arguments and return
      values. */
  lemma {:induction false} HoldingsAreBooked(c: Config, w: World, txs: seq<Tx>, a: Address)
    requires c.Valid() && Inv(c, w)
    ensures Grown(HoldingsOf(w, a), HoldingsOf(Run(c, w, txs), a), MovementsOf(c, w, txs, a))
  {
    if txs == [] {
    } else {
      var init := txs[..|txs| - 1];
      HoldingsAreBooked(c, w, init, a);
      RunKeeps(c, w, init);
      StepBooked(c, Run(c, w, init), txs[|txs| - 1], a);
      GrownTwice(HoldingsOf(w, a), HoldingsOf(Run(c, w, init), a), HoldingsOf(Run(c, w, txs), a),
                 MovementsOf(c, w, init, a), MovementOf(c, Run(c, w, init), txs[|txs| - 1], a));
    }
  }

  lemma GrownTwice(x: Holdings, y: Holdings, z: Holdings, s: Holdings, e: Holdings)
    requires Grown(x, y, s) && Grown(y, z, e)
    ensures Grown(x, z, Sum(s, e))
  {
  }

  /** No balance of `x` is below that of `y`. */
  predicate NoLess(x: Holdings, y: Holdings) {
    x.sy >= y.sy && x.pt >= y.pt && x.yt >= y.yt
  }

  /** An account spent for by a spender within its allowance. */
  predicate SpentFor(w: World, tx: Tx, a: Address) {
    match tx.op
    case OnPt(MoveFrom(from, _, n)) => from == a && Allowed(w.pt.allowances, a, tx.signer, n, w.net.sequence)
    case OnYt(MoveFrom(from, _, n)) => from == a && Allowed(w.yt.allowances, a, tx.signer, n, w.net.sequence)
    case _ => false
  }

  /** Nothing is taken from an account, but for the manager's custody and the escrow, except by its own hand,
      by a spender within its allowance, or from a deauthorized account by the issuer's seizure. */
  lemma WhoCanTake(c: Config, w: World, tx: Tx, a: Address)
    requires c.Valid() && Inv(c, w) && a != c.pm && a != c.escrow
    requires tx.signer != a && !SpentFor(w, tx, a)
    requires !(tx.op.OnEscrow? && ByIssuer(c, w, tx.signer) && a !in w.net.authorized)
    ensures NoLess(HoldingsOf(Next(c, w, tx), a), HoldingsOf(w, a))
  {
    StepBooked(c, w, tx, a);
    if Step(c, w, tx).Ok? {
      match tx.op
      case OnSy(Deposit(n)) => DepositCall(c, w, tx.signer, n);
      case OnSy(Transfer(to, n)) => ShareTransferCall(c, w, tx.signer, to, n);
      case OnPt(Move(to, n)) => PtTransferCall(c, w, tx.signer, to, n);
      case OnPt(MoveFrom(from, to, n)) => PtTransferFromCall(c, w, tx.signer, from, to, n);
      case OnYt(Move(to, n)) => YtTransferCall(c, w, tx.signer, to, n);
      case OnYt(MoveFrom(from, to, n)) => YtTransferFromCall(c, w, tx.signer, from, to, n);
      case OnEscrow(RecoverSy(account, n)) => RecoverSyCall(c, w, tx.signer, account, n);
      case OnEscrow(RecoverPt(account, n)) => RecoverPtCall(c, w, tx.signer, account, n);
      case OnEscrow(RecoverYt(account, n)) => RecoverYtCall(c, w, tx.signer, account, n);
      case _ =>
    }
  }

  // ---- allowances ----

  /** The two tokens that keep allowances. */
  datatype Token = PT | YT

  function AllowancesIn(w: World, token: Token): Allowances {
    if token.PT? then w.pt.allowances else w.yt.allowances
  }

  function CallOn(tx: Tx, token: Token): Option<TokenCall> {
    match tx.op
    case OnPt(call) => if token.PT? then Some(call) else None
    case OnYt(call) => if token.YT? then Some(call) else None
    case _ => None
  }

  /** What an approval that went through grants a spender. */
  function Approval(c: Config, w: World, tx: Tx, token: Token, owner: Address, spender: Address): Option<Allowance> {
    var call := CallOn(tx, token);
    if Step(c, w, tx).Ok? && tx.signer == owner && call.Some? && call.value.Approve? && call.value.spender == spender
    then Some(Allowance(call.value.amount, call.value.expiration)) else None
  }

  /** What a spender moved out of an owner's balance. */
  function SpentBy(c: Config, w: World, tx: Tx, token: Token, owner: Address, spender: Address): int {
    var call := CallOn(tx, token);
    if Step(c, w, tx).Ok? && tx.signer == spender && call.Some? && call.value.MoveFrom? && call.value.from == owner
    then call.value.amount else 0
  }

  /** The last approval of a run, or the allowance it started with. */
  function LastGrant(c: Config, w: World, txs: seq<Tx>, token: Token, owner: Address, spender: Address): Allowance {
    if txs == [] then AllowanceOf(AllowancesIn(w, token), owner, spender) else
      var init := txs[..|txs| - 1];
      var grant := Approval(c, Run(c, w, init), txs[|txs| - 1], token, owner, spender);
      if grant.Some? then grant.value else LastGrant(c, w, init, token, owner, spender)
  }

  /** What the spender moved since. */
  function SpentSince(c: Config, w: World, txs: seq<Tx>, token: Token, owner: Address, spender: Address): int {
    if txs == [] then 0 else
      var init, tx := txs[..|txs| - 1], txs[|txs| - 1];
      var y := Run(c, w, init);
      if Approval(c, y, tx, token, owner, spender).Some? then 0
      else SpentSince(c, w, init, token, owner, spender) + SpentBy(c, y, tx, token, owner, spender)
  }

  lemma StepAllowance(c: Config, w: World, tx: Tx, token: Token, owner: Address, spender: Address)
    requires c.Valid() && Inv(c, w)
    ensures var before := AllowanceOf(AllowancesIn(w, token), owner, spender);
            var grant := Approval(c, w, tx, token, owner, spender);
            AllowanceOf(AllowancesIn(Next(c, w, tx), token), owner, spender) ==
            if grant.Some? then grant.value
            else Allowance(before.amount - SpentBy(c, w, tx, token, owner, spender), before.expiration)
  {
    if Step(c, w, tx).Ok? {
      match tx.op
      case OnPt(call) => PtCallAllowance(c, w, tx);
      case OnYt(call) => YtCallAllowance(c, w, tx);
      case _ => OtherCallsKeepAllowances(c, w, tx);
    }
  }

  lemma PtCallAllowance(c: Config, w: World, tx: Tx)
    requires tx.op.OnPt? && Step(c, w, tx).Ok?
    ensures var z, call := Next(c, w, tx), tx.op.pt;
            && z.yt == w.yt
            && match call
               case MoveFrom(from, _, n) => Spent(w.pt.allowances, z.pt.allowances, from, tx.signer, n)
               case Approve(spender, n, expiration) =>
                 Granted(w.pt.allowances, z.pt.allowances, tx.signer, spender, Allowance(n, expiration))
               case _ => z.pt.allowances == w.pt.allowances
  {
    match tx.op.pt
    case MoveFrom(from, to, n) => PtTransferFromCall(c, w, tx.signer, from, to, n);
    case Approve(spender, n, expiration) => PtApproveCall(c, w, tx.signer, spender, n, expiration);
    case _ =>
  }

  lemma YtCallAllowance(c: Config, w: World, tx: Tx)
    requires tx.op.OnYt? && Step(c, w, tx).Ok?
    ensures var z, call := Next(c, w, tx), tx.op.yt;
            && z.pt == w.pt
            && match call
               case MoveFrom(from, _, n) => Spent(w.yt.allowances, z.yt.allowances, from, tx.signer, n)
               case Approve(spender, n, expiration) =>
                 Granted(w.yt.allowances, z.yt.allowances, tx.signer, spender, Allowance(n, expiration))
               case _ => z.yt.allowances == w.yt.allowances
  {
    match tx.op.yt
    case MoveFrom(from, to, n) => YtTransferFromCall(c, w, tx.signer, from, to, n);
    case Approve(spender, n, expiration) => YtApproveCall(c, w, tx.signer, spender, n, expiration);
    case _ =>
  }

  lemma OtherCallsKeepAllowances(c: Config, w: World, tx: Tx)
    requires c.Valid() && Inv(c, w) && Step(c, w, tx).Ok? && !tx.op.OnPt? && !tx.op.OnYt?
    ensures Next(c, w, tx).pt.allowances == w.pt.allowances && Next(c, w, tx).yt.allowances == w.yt.allowances
  {
    match tx.op
    case YtUpdateIndex => UpdateIndexCall(c, w, tx.signer);
    case OnManager(Split(n)) => MintEffect(c, w, tx.signer, tx.signer, n);
    case OnManager(Redeem(p, y)) => RedeemEffect(c, w, tx.signer, tx.signer, p, y);
    case OnManager(ClaimAccrued) => ClaimEffect(c, w, tx.signer, tx.signer);
    case OnEscrow(FinalizePt(p)) => RedeemEffect(c, w, c.escrow, c.escrow, p, 0);
    case OnEscrow(FinalizeYt(y)) => RedeemEffect(c, w, c.escrow, c.escrow, 0, y);
    case _ =>
  }

  /** The law of allowances, for both tokens: over any run the current allowance and what the spender moved
      since the last approval come to the approved amount, and the approval's expiration stands. */
  lemma {:induction false} AllowanceIsWhatIsLeft(c: Config, w: World, txs: seq<Tx>, token: Token, owner: Address,
      spender: Address)
    requires c.Valid() && Inv(c, w)
    ensures var grant := LastGrant(c, w, txs, token, owner, spender);
            AllowanceOf(AllowancesIn(Run(c, w, txs), token), owner, spender) ==
            Allowance(grant.amount - SpentSince(c, w, txs, token, owner, spender), grant.expiration)
  {
    if txs == [] {
    } else {
      var init := txs[..|txs| - 1];
      AllowanceIsWhatIsLeft(c, w, init, token, owner, spender);
      RunKeeps(c, w, init);
      StepAllowance(c, Run(c, w, init), txs[|txs| - 1], token, owner, spender);
    }
  }

  /** So no spender moves more than what is left of its last approval, after its expiration, or without one:
      in a market since deployment a first approval has to come before. */
  lemma SpendingStaysWithinApproval(c: Config, w: World, txs: seq<Tx>, tx: Tx, token: Token, owner: Address,
      spender: Address)
    requires c.Valid() && Inv(c, w) && SpentBy(c, Run(c, w, txs), tx, token, owner, spender) != 0
    ensures var n := SpentBy(c, Run(c, w, txs), tx, token, owner, spender);
            var grant := LastGrant(c, w, txs, token, owner, spender);
            && 0 < n <= grant.amount - SpentSince(c, w, txs, token, owner, spender)
            && Run(c, w, txs).net.sequence <= grant.expiration
    ensures Deployed(w) ==>
              exists i :: 0 <= i < |txs| && Approval(c, Run(c, w, txs[..i]), txs[i], token, owner, spender).Some?
  {
    AllowanceIsWhatIsLeft(c, w, txs, token, owner, spender);
    SpentIsAllowed(c, Run(c, w, txs), tx, token, owner, spender);
    if Deployed(w) && forall i :: 0 <= i < |txs| ==>
                        Approval(c, Run(c, w, txs[..i]), txs[i], token, owner, spender).None? {
      NeverApproved(c, w, txs, token, owner, spender);
      assert false;
    }
  }

  lemma SpentIsAllowed(c: Config, w: World, tx: Tx, token: Token, owner: Address, spender: Address)
    requires SpentBy(c, w, tx, token, owner, spender) != 0
    ensures var left := AllowanceOf(AllowancesIn(w, token), owner, spender);
            0 < SpentBy(c, w, tx, token, owner, spender) <= left.amount && w.net.sequence <= left.expiration
  {
    match tx.op
    case OnPt(MoveFrom(from, to, n)) => PtTransferFromCall(c, w, spender, from, to, n);
    case OnYt(MoveFrom(from, to, n)) => YtTransferFromCall(c, w, spender, from, to, n);
  }

  lemma {:induction false} NeverApproved(c: Config, w: World, txs: seq<Tx>, token: Token, owner: Address,
      spender: Address)
    requires Deployed(w)
    requires forall i :: 0 <= i < |txs| ==> Approval(c, Run(c, w, txs[..i]), txs[i], token, owner, spender).None?
    ensures LastGrant(c, w, txs, token, owner, spender).amount == 0
    ensures SpentSince(c, w, txs, token, owner, spender) >= 0
  {
    if txs == [] {
    } else {
      var init := txs[..|txs| - 1];
      assert forall i :: 0 <= i < |init| ==> init[..i] == txs[..i] && init[i] == txs[i];
      NeverApproved(c, w, init, token, owner, spender);
      var k := |txs| - 1;
      assert Approval(c, Run(c, w, txs[..k]), txs[k], token, owner, spender).None?;
      SpentPositive(c, Run(c, w, init), txs[k], token, owner, spender);
    }
  }

  lemma SpentPositive(c: Config, w: World, tx: Tx, token: Token, owner: Address, spender: Address)
    ensures SpentBy(c, w, tx, token, owner, spender) >= 0
  {
    match tx.op
    case OnPt(MoveFrom(from, to, n)) => PtTransferFromCall(c, w, tx.signer, from, to, n);
    case OnYt(MoveFrom(from, to, n)) => YtTransferFromCall(c, w, tx.signer, from, to, n);
    case _ =>
  }
}
