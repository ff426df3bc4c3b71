/** Why calls are refused: the error of a refused transaction names a condition that really fails. */
module Refusals {
  import opened Base
  import opened Network
  import opened World
  import OracleAdapter
  import SYWrapper
  import PTToken
  import YTToken
  import PM = PrincipalManager
  import RecoveryEscrow
  import opened Effects
  import opened YL = YieldLedger
  import opened Market
  import opened History
  import opened Backing
  import opened Calls

  function BalanceIn(w: World, onPt: bool): Balances {
    if onPt then w.pt.balance else w.yt.ledger.balance
  }

  /** The condition a wrapper call reports. */
  predicate SyReports(c: Config, w: World, me: Address, call: SyCall, e: Error) {
    match call
    case Pause(_) => e == Unauthorized && me != w.sy.admin
    case Seize(_, _) => e == Unauthorized || e == NotRecoveryEscrow
    case Deposit(n) =>
      (match e
       case Paused => w.sy.paused
       case NotAuthorizedOnSac => me !in w.net.authorized
       case PermissionDenied => me !in w.net.allowed
       case ZeroAmount => n <= 0
       case AssetTransferFailed => c.sy !in w.net.authorized || n > At(w.net.sac, me)
       case _ => false)
    case Withdraw(n, to) =>
      (match e
       case Paused => w.sy.paused
       case NotAuthorizedOnSac => !({me, to} <= w.net.authorized)
       case PermissionDenied => !({me, to} <= w.net.allowed)
       case ZeroAmount => n <= 0
       case InsufficientShares => n > At(w.sy.balance, me)
       case AssetTransferFailed => c.sy !in w.net.authorized
       case _ => false)
    case Transfer(to, n) =>
      (match e
       case Paused => w.sy.paused
       case NotAuthorizedOnSac => !({me, to} <= w.net.authorized)
       case PermissionDenied => !({me, to} <= w.net.allowed)
       case ZeroAmount => n <= 0
       case InsufficientShares => n > At(w.sy.balance, me)
       case _ => false)
  }

  lemma SyCallReports(c: Config, w: World, me: Address, call: SyCall)
    requires c.Valid() && Inv(c, w) && me !in c.Contracts()
    ensures var r := StepSy(c, w, me, call);
            r.Err? ==> SyReports(c, w, me, call, r.error)
  {
    SYWrapper.OneToOneRate(w.sy);
    AtMostTotal(w.sy.balance, me);
  }

  predicate MoveReports(w: World, onPt: bool, asset: Address, from: Address, to: Address, n: int, e: Error) {
    match e
    case ZeroAmount => n <= 0
    case NotAuthorizedOnSac => !({from, to} <= w.net.authorized)
    case PermissionDenied => !({from, to} <= w.net.allowed && {(from, asset), (to, asset)} <= w.net.eligible)
    case InsufficientBalance => n > At(BalanceIn(w, onPt), from)
    case _ => false
  }

  /** The condition a token call reports. */
  predicate TokenReports(c: Config, w: World, onPt: bool, me: Address, call: TokenCall, e: Error) {
    var asset, allowances := if onPt then c.pt else c.yt, if onPt then w.pt.allowances else w.yt.allowances;
    match call
    case Move(to, n) => MoveReports(w, onPt, asset, me, to, n, e)
    case MoveFrom(from, to, n) =>
      || MoveReports(w, onPt, asset, from, to, n, e)
      || (e == InsufficientAllowance && n > 0 && !Allowed(allowances, from, me, n, w.net.sequence))
    case Approve(_, n, _) => e == ZeroAmount && n < 0
    case Mint(_, _) => e == Unauthorized
    case Burn(_, _) => e == Unauthorized
    case SeizeToken(_, _) => e == NotRecoveryEscrow
  }

  lemma TokenCallReports(c: Config, w: World, me: Address, call: TokenCall)
    requires me !in c.Contracts()
    ensures var r := StepPt(w.pt, c.PtWiring(), w.net, me, call);
            r.Err? ==> TokenReports(c, w, true, me, call, r.error)
    ensures var r := StepYt(w.yt, c.YtWiring(), w.net, me, call);
            r.Err? ==> TokenReports(c, w, false, me, call, r.error)
  {
  }

  /** The conditions a payout reports: the wrapper's, and what custody holds. */
  predicate PayReports(c: Config, w: World, to: Address, u: int, e: Error) {
    match e
    case Paused => w.sy.paused
    case NotAuthorizedOnSac => !({c.pm, to} <= w.net.authorized)
    case PermissionDenied => !({c.pm, to} <= w.net.allowed)
    case ZeroAmount => u <= 0
    case InsufficientShares => u > Custody(c, w)
    case AssetTransferFailed => c.sy !in w.net.authorized
    case _ => false
  }

  lemma PayOutReports(c: Config, w: World, to: Address, u: int)
    requires c.Valid() && Funded(c, w)
    ensures var r := PM.PayOut(c, w, to, u);
            r.Err? ==> PayReports(c, w, to, u, r.error)
  {
    SYWrapper.OneToOneRate(w.sy);
    DivScale(u);
    AtMostTotal(w.sy.balance, c.pm);
    assert PM.SharesFor(SYWrapper.ExchangeRate(w.sy), u) == Ok(u);
  }

  lemma DivScale(u: int)
    ensures u * SCALE / SCALE == u
  {
  }

  /** The conditions a redemption reports, for the caller itself or for the escrow. */
  predicate RedeemReports(c: Config, w: World, from: Address, p: int, y: int, e: Error)
    requires w.oracle.reading.Some?
  {
    match e
    case Paused => w.manager.paused || w.sy.paused
    case NotMature => w.net.now < c.maturity
    case OracleStale => !Timely(w)
    case NotAuthorizedOnSac => !({c.pm, from} <= w.net.authorized)
    case PermissionDenied => !({c.pm, from} <= w.net.allowed)
    case ZeroAmount => (p == 0 && y == 0) || (p > 0 && PrincipalDue(w, p) <= 0)
    case InsufficientBalance => p > At(w.pt.balance, from) || y > At(w.yt.ledger.balance, from)
    case InsufficientShares => PrincipalDue(w, p) + YieldDue(w, from, y) > Custody(c, w)
    case AssetTransferFailed => c.sy !in w.net.authorized
    case _ => false
  }

  lemma RedeemPtReports(c: Config, w: World, from: Address, p: int)
    requires c.Valid() && Inv(c, w)
    ensures var r := PM.RedeemPt(c, w, from, p, PriceOf(w));
            r.Err? ==>
              && p > 0
              && ((r.error == InsufficientBalance && p > At(w.pt.balance, from))
                  || PayReports(c, w, from, PrincipalDue(w, p), r.error))
  {
    var burnt := PTToken.Burn(w.pt, c.PtWiring(), c.pm, from, p);
    if burnt.Ok? {
      PayOutReports(c, w.(pt := burnt.value), from, PM.Principal(p, PriceOf(w)));
    }
  }

  lemma RedeemYtReports(c: Config, w: World, from: Address, y: int)
    requires c.Valid() && Funded(c, w) && w.oracle.reading.Some? && Timely(w)
    ensures var r := PM.RedeemYt(c, w, from, y);
            r.Err? ==>
              && y > 0
              && ((r.error == InsufficientBalance && y > At(w.yt.ledger.balance, from))
                  || (YieldDue(w, from, y) > 0 && PayReports(c, w, from, YieldDue(w, from, y), r.error)))
  {
    UpdateEffect(w);
    if 0 < y <= At(w.yt.ledger.balance, from) {
      var l := Apply(Indexed(w), Destroy(from, y));
      PayOutReports(c, w.(yt := w.yt.(ledger := Apply(l, Claim(from)))), from, Claimable(l, from));
    }
  }

  lemma RedeemCallReports(c: Config, w: World, from: Address, p: int, y: int)
    requires c.Valid() && Inv(c, w)
    ensures var r := PM.Redeem(c, w, from, from, p, y);
            r.Err? ==> RedeemReports(c, w, from, p, y, r.error)
  {
    FreshIsTimely(w);
    RedeemPtReports(c, w, from, p);
    var first := PM.RedeemPt(c, w, from, p, PriceOf(w));
    if first.Ok? && Timely(w) {
      RedeemPtEffect(c, w, from, p, PriceOf(w));
      AfterPtLeg(c, w, from, p, y);
      RedeemYtReports(c, first.value.world, from, y);
    }
  }

  /** The condition a call of the manager reports. */
  predicate ManagerReports(c: Config, w: World, me: Address, call: ManagerCall, e: Error)
    requires w.oracle.reading.Some?
  {
    match call
    case PauseManager(_) => e == Unauthorized && me != w.manager.admin
    case Redeem(p, y) => RedeemReports(c, w, me, p, y, e)
    case ClaimAccrued =>
      || (e == Paused && w.manager.paused)
      || (e == OracleStale && !Timely(w))
      || (e == NotAuthorizedOnSac && me !in w.net.authorized)
      || (e == PermissionDenied && me !in w.net.allowed)
      || (Claimable(Indexed(w), me) > 0 && PayReports(c, w, me, Claimable(Indexed(w), me), e))
    case Split(n) =>
      (match e
       case Paused => w.manager.paused || w.sy.paused
       case AlreadyMature => w.net.now >= c.maturity
       case OracleStale => !Timely(w)
       case ZeroAmount => n * PriceOf(w) < SCALE
       case NotAuthorizedOnSac => !({me, c.pm} <= w.net.authorized)
       case PermissionDenied =>
         !({me, c.pm} <= w.net.allowed && {(me, c.pt), (me, c.yt)} <= w.net.eligible)
       case InsufficientShares => n > At(w.sy.balance, me)
       case _ => false)
  }

  lemma SplitReports(c: Config, w: World, me: Address, n: int)
    requires c.Valid() && Inv(c, w)
    ensures var r := PM.Mint(c, w, me, me, n);
            r.Err? ==> ManagerReports(c, w, me, Split(n), r.error)
  {
    UpdateEffect(w);
    FreshIsTimely(w);
    NotionalSign(n, PriceOf(w));
  }

  lemma NotionalSign(n: int, rate: OracleAdapter.Price)
    ensures PM.Notional(n, rate) > 0 <==> n * rate >= SCALE
    ensures n <= 0 ==> n * rate < SCALE
  {
  }

  lemma ClaimReports(c: Config, w: World, me: Address)
    requires c.Valid() && Inv(c, w)
    ensures var r := PM.ClaimYield(c, w, me, me);
            r.Err? ==> ManagerReports(c, w, me, ClaimAccrued, r.error)
  {
    UpdateEffect(w);
    FreshIsTimely(w);
    PayOutReports(c, w.(yt := w.yt.(ledger := Apply(Indexed(w), Claim(me)))), me, Claimable(Indexed(w), me));
  }

  /** The condition a call of the escrow reports. */
  predicate EscrowReports(c: Config, w: World, me: Address, call: EscrowCall, e: Error)
    requires w.oracle.reading.Some?
  {
    || (e == Unauthorized && me != w.net.admin)
    || match call
       case RecoverSy(account, n) =>
         (match e
          case TargetStillAuthorized => account in w.net.authorized
          case ZeroAmount => n <= 0
          case InsufficientShares => n > At(w.sy.balance, account)
          case Paused => w.sy.paused
          case NotAuthorizedOnSac => c.escrow !in w.net.authorized
          case PermissionDenied => c.escrow !in w.net.allowed
          case AssetTransferFailed => c.sy !in w.net.authorized
          case _ => false)
       case RecoverPt(account, n) =>
         (match e
          case TargetStillAuthorized => account in w.net.authorized
          case ZeroAmount => n <= 0
          case InsufficientBalance => n > At(w.pt.balance, account)
          case _ => false)
       case RecoverYt(account, n) =>
         (match e
          case TargetStillAuthorized => account in w.net.authorized
          case ZeroAmount => n <= 0
          case InsufficientBalance => n > At(w.yt.ledger.balance, account)
          case _ => false)
       case FinalizePt(n) => (e == ZeroAmount && n <= 0) || RedeemReports(c, w, c.escrow, n, 0, e)
       case FinalizeYt(n) => (e == ZeroAmount && n <= 0) || RedeemReports(c, w, c.escrow, 0, n, e)
  }

  lemma EscrowCallReports(c: Config, w: World, me: Address, call: EscrowCall)
    requires c.Valid() && Inv(c, w)
    ensures var r := StepEscrow(c, w, me, call);
            r.Err? ==> EscrowReports(c, w, me, call, r.error)
  {
    match call
    case RecoverSy(account, n) => RecoverSyReports(c, w, me, account, n);
    case RecoverPt(_, _) =>
    case RecoverYt(_, _) =>
    case FinalizePt(n) => RedeemCallReports(c, w, c.escrow, n, 0);
    case FinalizeYt(n) => RedeemCallReports(c, w, c.escrow, 0, n);
  }

  lemma RecoverSyReports(c: Config, w: World, me: Address, account: Address, n: int)
    requires c.Valid() && Inv(c, w)
    ensures var r := RecoveryEscrow.SeizeSy(c, w, me, me, account, n);
            r.Err? ==> EscrowReports(c, w, me, RecoverSy(account, n), r.error)
  {
    var s := SYWrapper.Seize(w.sy, c.escrow, c.escrow, c.escrow, account, n);
    if s.Ok? {
      SYWrapper.SeizeKeeps(w.sy, c.escrow, c.escrow, c.escrow, account, n);
      SYWrapper.OneToOneRate(s.value);
      AtMostTotal(w.sy.balance, account);
    }
  }

  /** The condition any refused transaction reports. */
  predicate Reports(c: Config, w: World, tx: Tx, e: Error)
    requires w.oracle.reading.Some?
  {
    var me := tx.signer;
    || (e == Unauthorized && me in c.Contracts())
    || match tx.op
       case SetPrice(value, timestamp) =>
         var last := w.oracle.reading.value;
         (match e
          case Unauthorized => me != w.oracle.admin
          case InvalidValue => value <= 0
          case ValueDecreased => value < last.price
          case TimestampTooOld => timestamp <= last.timestamp
          case _ => false)
       case Around(PassTime(now, sequence)) => e == InvalidValue && (now < w.net.now || sequence < w.net.sequence)
       case Around(MoveUnderlying(to, n)) =>
         && e == AssetTransferFailed
         && (n < 0 || !({me, to} <= w.net.authorized) || n > At(w.net.sac, me))
       case Around(_) => false
       case OnSy(call) => SyReports(c, w, me, call, e)
       case OnPt(call) => TokenReports(c, w, true, me, call, e)
       case OnYt(call) => TokenReports(c, w, false, me, call, e)
       case YtUpdateIndex => e == OracleStale && !Timely(w)
       case YtClaim(_) => e == Unauthorized
       case OnManager(call) => ManagerReports(c, w, me, call, e)
       case OnEscrow(call) => EscrowReports(c, w, me, call, e)
  }

  lemma ManagerCallReports(c: Config, w: World, me: Address, call: ManagerCall)
    requires c.Valid() && Inv(c, w)
    ensures var r := StepManager(c, w, me, call);
            r.Err? ==> ManagerReports(c, w, me, call, r.error)
  {
    match call
    case PauseManager(_) =>
    case Split(n) => SplitReports(c, w, me, n);
    case Redeem(p, y) => RedeemCallReports(c, w, me, p, y);
    case ClaimAccrued => ClaimReports(c, w, me);
  }

  /** Errors are truthful: whatever transaction is refused, in any reachable state, the condition its error
      names is one that fails; and a refused transaction changes nothing. */
  lemma RefusalsAreTruthful(c: Config, w: World, tx: Tx)
    requires c.Valid() && Inv(c, w) && Step(c, w, tx).Err?
    ensures Reports(c, w, tx, Step(c, w, tx).error) && Next(c, w, tx) == w
  {
    if tx.signer !in c.Contracts() {
      match tx.op
      case OnSy(call) => SyCallReports(c, w, tx.signer, call);
      case OnPt(call) => TokenCallReports(c, w, tx.signer, call);
      case OnYt(call) => TokenCallReports(c, w, tx.signer, call);
      case YtUpdateIndex => UpdateEffect(w); FreshIsTimely(w);
      case OnManager(call) => ManagerCallReports(c, w, tx.signer, call);
      case OnEscrow(call) => EscrowCallReports(c, w, tx.signer, call);
      case _ =>
    }
  }
}
