/** Where the money is: the wrapper, the manager's custody, the backing of PT and the value one
    position brings back. */
module Backing {
  import opened Base
  import opened Arith
  import opened World
  import OracleAdapter
  import SYWrapper
  import PTToken
  import PM = PrincipalManager
  import opened Effects
  import opened YL = YieldLedger
  import opened YieldRow
  import opened Market
  import opened History
  import opened Accrual

  /** What an observer of the manager's calls and return values adds up. */
  datatype Books = Books(sharesIn: int, gifts: int, seized: int, ptPaid: int, ytPaid: int)

  function Plus(b: Books, e: Books): Books {
    Books(b.sharesIn + e.sharesIn, b.gifts + e.gifts, b.seized + e.seized, b.ptPaid + e.ptPaid, b.ytPaid + e.ytPaid)
  }

  /** The entry of a call that returned `receipt`. */
  function Booked(c: Config, tx: Tx, receipt: Receipt): Books {
    match tx.op
    case OnSy(call) =>
      if call.Transfer? && call.to == c.pm then Books(0, call.amount, 0, 0, 0) else Books(0, 0, 0, 0, 0)
    case OnManager(call) =>
      if call.Split? then Books(call.shares, 0, 0, 0, 0)
      else if call.Redeem? && receipt.Pair? then Books(0, 0, 0, receipt.fromPt, receipt.fromYt)
      else if call.ClaimAccrued? && receipt.Amount? then Books(0, 0, 0, 0, receipt.amount)
      else Books(0, 0, 0, 0, 0)
    case OnEscrow(call) =>
      if call.RecoverSy? && call.account == c.pm then Books(0, 0, call.shares, 0, 0)
      else if call.FinalizePt? && receipt.Amount? then Books(0, 0, 0, receipt.amount, 0)
      else if call.FinalizeYt? && receipt.Amount? then Books(0, 0, 0, 0, receipt.amount)
      else Books(0, 0, 0, 0, 0)
    case _ => Books(0, 0, 0, 0, 0)
  }

  function Entry(c: Config, w: World, tx: Tx): Books {
    var r := Step(c, w, tx);
    if r.Ok? then Booked(c, tx, r.value.receipt) else Books(0, 0, 0, 0, 0)
  }

  function BooksOf(c: Config, w: World, txs: seq<Tx>): Books {
    if txs == [] then Books(0, 0, 0, 0, 0) else
      Plus(BooksOf(c, w, txs[..|txs| - 1]), Entry(c, Run(c, w, txs[..|txs| - 1]), txs[|txs| - 1]))
  }

  /** Wrapper reachability: in every reachable state underlying, shares and holdings agree and are
      covered by the asset itself, so the rate is exactly 1:1 and a desired payout survives the
      conversion to shares and back unchanged. */
  lemma WrapperStaysOneToOne(c: Config, w: World, txs: seq<Tx>, u: nat)
    requires c.Valid() && Deployed(w)
    ensures var z := Run(c, w, txs);
            && z.sy.totalUnderlying == z.sy.totalShares == Total(z.sy.balance) <= At(z.net.sac, c.sy)
            && SYWrapper.ExchangeRate(z.sy) == SCALE
            && PM.SharesFor(SYWrapper.ExchangeRate(z.sy), u) == Ok(u)
            && SYWrapper.SharesToUnderlying(z.sy, u) == u
  {
    DeployedInv(c, w);
    RunKeeps(c, w, txs);
    SYWrapper.OneToOneRate(Run(c, w, txs).sy);
    DivExact(u, SCALE);
  }

  lemma CustodySyCall(c: Config, w: World, tx: Tx)
    requires c.Valid() && Funded(c, w) && w.oracle.reading.Some? && tx.op.OnSy? && Step(c, w, tx).Ok?
    ensures var e := Entry(c, w, tx);
            Custody(c, Next(c, w, tx)) == Custody(c, w) + e.sharesIn + e.gifts - e.seized - e.ptPaid - e.ytPaid
  {
    var me := tx.signer;
    match tx.op.sy
    case Pause(_) =>
    case Deposit(amount) => SYWrapper.DepositKeeps(w.sy, w.net, c.sy, me, me, amount);
    case Withdraw(shares, to) => SYWrapper.WithdrawKeeps(w.sy, w.net, c.sy, me, me, shares, to);
    case Transfer(to, amount) =>
    case Seize(account, shares) =>
  }

  lemma CustodyManagerCall(c: Config, w: World, tx: Tx)
    requires c.Valid() && Funded(c, w) && w.oracle.reading.Some? && tx.op.OnManager? && Step(c, w, tx).Ok?
    ensures var e := Entry(c, w, tx);
            Custody(c, Next(c, w, tx)) == Custody(c, w) + e.sharesIn + e.gifts - e.seized - e.ptPaid - e.ytPaid
  {
    var me := tx.signer;
    match tx.op.pm
    case PauseManager(_) =>
    case Split(n) => MintEffect(c, w, me, me, n);
    case Redeem(p, y) => RedeemEffect(c, w, me, me, p, y);
    case ClaimAccrued => ClaimEffect(c, w, me, me);
  }

  lemma CustodyEscrowCall(c: Config, w: World, tx: Tx)
    requires c.Valid() && Funded(c, w) && w.oracle.reading.Some? && tx.op.OnEscrow? && Step(c, w, tx).Ok?
    ensures var e := Entry(c, w, tx);
            Custody(c, Next(c, w, tx)) == Custody(c, w) + e.sharesIn + e.gifts - e.seized - e.ptPaid - e.ytPaid
  {
    match tx.op.recovery
    case RecoverSy(account, n) =>
      SeizeSyEffect(c, w, tx.signer, tx.signer, account, n);
    case RecoverPt(_, _) =>
    case RecoverYt(_, _) =>
    case FinalizePt(amount) =>
      RedeemEffect(c, w, c.escrow, c.escrow, amount, 0);
    case FinalizeYt(amount) =>
      RedeemEffect(c, w, c.escrow, c.escrow, 0, amount);
  }

  lemma CustodyStep(c: Config, w: World, tx: Tx)
    requires c.Valid() && Funded(c, w) && w.oracle.reading.Some?
    ensures var e := Entry(c, w, tx);
            Custody(c, Next(c, w, tx)) == Custody(c, w) + e.sharesIn + e.gifts - e.seized - e.ptPaid - e.ytPaid
  {
    if Step(c, w, tx).Ok? {
      match tx.op
      case OnSy(_) => CustodySyCall(c, w, tx);
      case OnManager(_) => CustodyManagerCall(c, w, tx);
      case OnEscrow(_) => CustodyEscrowCall(c, w, tx);
      case _ =>
    }
  }

  /** Custody conservation: the manager's SY balance is what mints and direct transfers brought in,
      less what was paid out and what was seized from the manager itself. */
  lemma {:induction false} CustodyConserved(c: Config, w: World, txs: seq<Tx>)
    requires c.Valid() && Inv(c, w)
    ensures var b := BooksOf(c, w, txs);
            Custody(c, Run(c, w, txs)) == Custody(c, w) + b.sharesIn + b.gifts - b.ptPaid - b.ytPaid - b.seized
  {
    if txs == [] {
    } else {
      var init := txs[..|txs| - 1];
      CustodyConserved(c, w, init);
      RunKeeps(c, w, init);
      CustodyStep(c, Run(c, w, init), txs[|txs| - 1]);
    }
  }

  /** PT in units of underlying at the current price is covered by `x` shares. */
  ghost predicate Backed(w: World, x: int)
    requires w.oracle.reading.Some?
  {
    0 <= w.pt.totalSupply && w.pt.totalSupply * SCALE <= x * PriceOf(w)
  }

  lemma BackedNonNegative(supply: nat, x: int, price: int)
    requires supply * SCALE <= x * price && price > 0
    ensures x >= 0
  {
    if x < 0 {
      MulMonotone(x, -1, price);
      assert false;
    }
  }

  lemma BackedMint(supply: nat, x: int, price: int, n: int)
    requires supply * SCALE <= x * price && price > 0 && n >= 0
    ensures (supply + PM.Notional(n, price)) * SCALE <= (x + n) * price
  {
    DivBounds(n * price, SCALE);
    assert (x + n) * price == x * price + n * price;
  }

  lemma BackedRedeem(supply: nat, x: int, price: OracleAdapter.Price, p: nat)
    requires supply * SCALE <= x * price && p <= supply
    ensures (supply - p) * SCALE <= (x - PM.Principal(p, price)) * price
  {
    var paid := PM.Principal(p, price);
    DivBounds(p * SCALE, price);
    assert (x - paid) * price == x * price - paid * price;
  }

  /** With the supply unchanged, a price that has not fallen keeps the backing. */
  lemma BackedQuiet(w: World, w': World, x: int)
    requires w.oracle.reading.Some? && Backed(w, x)
    requires w'.oracle.reading.Some? && PriceOf(w') >= PriceOf(w) && w'.pt.totalSupply == w.pt.totalSupply
    ensures Backed(w', x)
  {
    BackedNonNegative(w.pt.totalSupply, x, PriceOf(w));
    MulMonotone(PriceOf(w), PriceOf(w'), x);
  }

  lemma PtCallKeepsSupply(c: Config, w: World, tx: Tx)
    requires c.Valid() && Inv(c, w) && tx.op.OnPt?
    ensures Next(c, w, tx).pt.totalSupply == w.pt.totalSupply
  {
    var me, k := tx.signer, c.PtWiring();
    match tx.op.pt
    case Move(to, amount) => PTToken.MovesKeepSupply(w.pt, k, w.net, me, me, me, to, amount);
    case MoveFrom(from, to, amount) => PTToken.MovesKeepSupply(w.pt, k, w.net, me, me, from, to, amount);
    case SeizeToken(account, amount) => PTToken.MovesKeepSupply(w.pt, k, w.net, me, me, account, me, amount);
    case _ =>
  }

  lemma BackedManagerCall(c: Config, w: World, tx: Tx, x: int)
    requires c.Valid() && Inv(c, w) && Backed(w, x) && tx.op.OnManager? && Step(c, w, tx).Ok?
    ensures Next(c, w, tx).oracle == w.oracle
    ensures Backed(Next(c, w, tx), x + Entry(c, w, tx).sharesIn - Entry(c, w, tx).ptPaid)
  {
    var me := tx.signer;
    match tx.op.pm
    case PauseManager(_) =>
    case Split(n) =>
      MintEffect(c, w, me, me, n);
      BackedMint(w.pt.totalSupply, x, PriceOf(w), n);
    case Redeem(p, y) => BackedRedemption(c, w, me, p, y, x);
    case ClaimAccrued => ClaimEffect(c, w, me, me);
  }

  lemma BackedEscrowCall(c: Config, w: World, tx: Tx, x: int)
    requires c.Valid() && Inv(c, w) && Backed(w, x) && tx.op.OnEscrow? && Step(c, w, tx).Ok?
    ensures Next(c, w, tx).oracle == w.oracle
    ensures Backed(Next(c, w, tx), x + Entry(c, w, tx).sharesIn - Entry(c, w, tx).ptPaid)
  {
    match tx.op.recovery
    case RecoverSy(account, n) => SeizeSyEffect(c, w, tx.signer, tx.signer, account, n);
    case FinalizePt(amount) => BackedRedemption(c, w, c.escrow, amount, 0, x);
    case FinalizeYt(amount) => BackedRedemption(c, w, c.escrow, 0, amount, x);
    case _ =>
  }

  lemma BackedStep(c: Config, w: World, tx: Tx, x: int, x': int)
    requires c.Valid() && Inv(c, w) && Backed(w, x)
    requires x' == x + Entry(c, w, tx).sharesIn - Entry(c, w, tx).ptPaid
    ensures Next(c, w, tx).oracle.reading.Some? && Backed(Next(c, w, tx), x')
  {
    if Step(c, w, tx).Ok? && tx.op.OnManager? {
      BackedManagerCall(c, w, tx, x);
    } else if Step(c, w, tx).Ok? && tx.op.OnEscrow? {
      BackedEscrowCall(c, w, tx, x);
    } else {
      QuietCall(c, w, tx);
      BackedQuiet(w, Next(c, w, tx), x);
    }
  }

  /** Calls other than the manager's and the escrow's neither book anything on PT nor change its supply. */
  lemma QuietCall(c: Config, w: World, tx: Tx)
    requires c.Valid() && Inv(c, w) && (Step(c, w, tx).Err? || !(tx.op.OnManager? || tx.op.OnEscrow?))
    ensures var w' := Next(c, w, tx);
            && w'.oracle.reading.Some? && PriceOf(w') >= PriceOf(w) && w'.pt.totalSupply == w.pt.totalSupply
    ensures Entry(c, w, tx).sharesIn == 0 && Entry(c, w, tx).ptPaid == 0
  {
    StepKeeps(c, w, tx);
    if tx.op.OnPt? {
      PtCallKeepsSupply(c, w, tx);
    }
  }

  /** What a redemption does to the PT supply. */
  lemma RedeemSupply(c: Config, w: World, from: Address, p: int, y: int)
    requires c.Valid() && Inv(c, w)
    ensures var r := PM.Redeem(c, w, from, from, p, y);
            r.Ok? ==> && r.value.world.oracle == w.oracle
                      && (p > 0 ==> p <= w.pt.totalSupply && r.value.fromPt == PM.Principal(p, PriceOf(w)))
                      && (p <= 0 ==> r.value.fromPt == 0)
                      && r.value.world.pt.totalSupply == w.pt.totalSupply - Nat(p)
  {
    RedeemEffect(c, w, from, from, p, y);
    AtMostTotal(w.pt.balance, from);
  }

  lemma BackedRedemption(c: Config, w: World, from: Address, p: int, y: int, x: int)
    requires c.Valid() && Inv(c, w) && Backed(w, x)
    ensures var r := PM.Redeem(c, w, from, from, p, y);
            r.Ok? ==> r.value.world.oracle == w.oracle && Backed(r.value.world, x - r.value.fromPt)
  {
    RedeemSupply(c, w, from, p, y);
    if 0 < p <= w.pt.totalSupply {
      BackedRedeem(w.pt.totalSupply, x, PriceOf(w), p);
    }
  }

  lemma {:induction false} RunBacked(c: Config, w: World, txs: seq<Tx>, cover: int)
    requires c.Valid() && Inv(c, w) && Backed(w, 0)
    requires cover == BooksOf(c, w, txs).sharesIn - BooksOf(c, w, txs).ptPaid
    ensures Inv(c, Run(c, w, txs)) && Backed(Run(c, w, txs), cover)
  {
    RunKeeps(c, w, txs);
    if txs == [] {
    } else {
      var init := txs[..|txs| - 1];
      var before := BooksOf(c, w, init).sharesIn - BooksOf(c, w, init).ptPaid;
      RunBacked(c, w, init, before);
      BookedSnoc(c, w, txs, before, cover);
      BackedStep(c, Run(c, w, init), txs[|txs| - 1], before, cover);
    }
  }

  lemma BookedSnoc(c: Config, w: World, txs: seq<Tx>, before: int, after: int)
    requires txs != []
    requires before == BooksOf(c, w, txs[..|txs| - 1]).sharesIn - BooksOf(c, w, txs[..|txs| - 1]).ptPaid
    requires after == BooksOf(c, w, txs).sharesIn - BooksOf(c, w, txs).ptPaid
    ensures var e := Entry(c, Run(c, w, txs[..|txs| - 1]), txs[|txs| - 1]);
            after == before + e.sharesIn - e.ptPaid
  {
  }

  /** PT backing over whole runs: the shares taken in by mints less the underlying paid on PT always
      cover the outstanding PT at the current price; so PT alone never pays out more than came in. */
  lemma PtAlwaysBacked(c: Config, w: World, txs: seq<Tx>)
    requires c.Valid() && Deployed(w)
    ensures var z, b := Run(c, w, txs), BooksOf(c, w, txs);
            z.oracle.reading.Some? && Backed(z, b.sharesIn - b.ptPaid) && b.ptPaid <= b.sharesIn
  {
    DeployedInv(c, w);
    NothingBacked(w);
    CoveredRun(c, w, txs);
  }

  lemma NothingBacked(w: World)
    requires Deployed(w)
    ensures Backed(w, 0)
  {
    assert 0 * PriceOf(w) == 0;
  }

  lemma CoveredRun(c: Config, w: World, txs: seq<Tx>)
    requires c.Valid() && Inv(c, w) && Backed(w, 0)
    ensures var z, b := Run(c, w, txs), BooksOf(c, w, txs);
            z.oracle.reading.Some? && Backed(z, b.sharesIn - b.ptPaid) && b.ptPaid <= b.sharesIn
  {
    var z, cover := Run(c, w, txs), BooksOf(c, w, txs).sharesIn - BooksOf(c, w, txs).ptPaid;
    RunBacked(c, w, txs, cover);
    BackedNonNegative(z.pt.totalSupply, cover, PriceOf(z));
  }

  /** Supply ledger: in every reachable state both supplies are the sums of their balances, they are
      equal until maturity, and from maturity on neither ever rises. */
  lemma SuppliesLedgered(c: Config, w: World, txs: seq<Tx>, more: seq<Tx>)
    requires c.Valid() && Deployed(w)
    ensures var z := Run(c, w, txs); var z' := Run(c, z, more);
            && z.pt.totalSupply == Total(z.pt.balance)
            && z.yt.ledger.supply == Total(z.yt.ledger.balance)
            && (z.net.now < c.maturity ==> z.pt.totalSupply == z.yt.ledger.supply)
            && (z.net.now >= c.maturity ==>
                 z'.pt.totalSupply <= z.pt.totalSupply && z'.yt.ledger.supply <= z.yt.ledger.supply)
  {
    DeployedInv(c, w);
    RunKeeps(c, w, txs);
    RunKeeps(c, Run(c, w, txs), more);
  }

  /** The manager's gates towards the wrapper and the receiver, without the question of custody. */
  predicate PayoutGates(c: Config, w: World, to: Address) {
    !w.sy.paused && {c.pm, c.sy, to} <= w.net.authorized && {c.pm, to} <= w.net.allowed
  }

  /** The exact condition under which accrued yield can be claimed: the gates of the manager and the
      wrapper, and custody covering what is due. */
  lemma ClaimSucceedsIff(c: Config, w: World, a: Address)
    requires c.Valid() && Inv(c, w) && a !in c.Contracts()
    ensures Step(c, w, Tx(a, OnManager(ClaimAccrued))).Ok? <==>
            && !w.manager.paused && Timely(w)
            && a in w.net.authorized && a in w.net.allowed
            && (Claimable(Indexed(w), a) > 0 ==> PayoutGates(c, w, a))
            && Claimable(Indexed(w), a) <= Custody(c, w)
  {
    UpdateEffect(w);
    var w1 := w.(yt := w.yt.(ledger := Apply(Indexed(w), Claim(a))));
    if Claimable(Indexed(w), a) > 0 {
      PayOutSucceedsIff(c, w1, a, Claimable(Indexed(w), a));
    }
  }

  lemma RedeemPtSucceedsIff(c: Config, w: World, a: Address, p: int)
    requires c.Valid() && Funded(c, w) && w.oracle.reading.Some?
    ensures PM.RedeemPt(c, w, a, p, PriceOf(w)).Ok? <==>
            (p > 0 ==>
              p <= At(w.pt.balance, a) && PayoutGates(c, w, a) && 0 < PM.Principal(p, PriceOf(w)) <= Custody(c, w))
  {
    var burnt := PTToken.Burn(w.pt, c.PtWiring(), c.pm, a, p);
    if burnt.Ok? {
      PayOutSucceedsIff(c, w.(pt := burnt.value), a, PM.Principal(p, PriceOf(w)));
    }
  }

  lemma RedeemYtSucceedsIff(c: Config, w: World, a: Address, y: int)
    requires c.Valid() && Funded(c, w) && w.oracle.reading.Some? && Timely(w)
    ensures PM.RedeemYt(c, w, a, y).Ok? <==>
            y > 0 ==> y <= At(w.yt.ledger.balance, a) && YieldDue(w, a, y) <= Custody(c, w)
                      && (YieldDue(w, a, y) > 0 ==> PayoutGates(c, w, a))
  {
    UpdateEffect(w);
    if 0 < y <= At(w.yt.ledger.balance, a) {
      var l := Apply(Indexed(w), Destroy(a, y));
      PayOutSucceedsIff(c, w.(yt := w.yt.(ledger := Apply(l, Claim(a)))), a, Claimable(l, a));
    }
  }

  /** Yield due on redeeming `y` YT at the current price. */
  function YieldDue(w: World, a: Address, y: int): nat
    requires w.oracle.reading.Some?
  {
    if 0 < y <= At(w.yt.ledger.balance, a) then Claimable(Apply(Indexed(w), Destroy(a, y)), a) else 0
  }

  /** Principal due on redeeming `p` PT at the current price. */
  function PrincipalDue(w: World, p: int): int
    requires w.oracle.reading.Some?
  {
    if p > 0 then PM.Principal(p, PriceOf(w)) else 0
  }

  /** The exact condition under which PT and YT are redeemed: the gates, the balances, principal of at
      least one unit, and custody covering both legs together. A non-positive leg is skipped. */
  ghost predicate CanRedeem(c: Config, w: World, a: Address, p: int, y: int)
    requires w.oracle.reading.Some?
  {
    && !w.manager.paused && w.net.now >= c.maturity && Timely(w)
    && a in w.net.authorized && a in w.net.allowed && (p != 0 || y != 0)
    && (p > 0 ==> p <= At(w.pt.balance, a) && PrincipalDue(w, p) > 0)
    && (y > 0 ==> y <= At(w.yt.ledger.balance, a))
    && (PrincipalDue(w, p) + YieldDue(w, a, y) > 0 ==> PayoutGates(c, w, a))
    && PrincipalDue(w, p) + YieldDue(w, a, y) <= Custody(c, w)
  }

  lemma RedeemIff(c: Config, w: World, a: Address, p: int, y: int)
    requires c.Valid() && Inv(c, w)
    ensures PM.Redeem(c, w, a, a, p, y).Ok? <==> CanRedeem(c, w, a, p, y)
  {
    FreshIsTimely(w);
    RedeemPtSucceedsIff(c, w, a, p);
    var first := PM.RedeemPt(c, w, a, p, PriceOf(w));
    if first.Ok? && Timely(w) {
      AfterPtLeg(c, w, a, p, y);
      RedeemYtSucceedsIff(c, first.value.world, a, y);
    }
  }

  lemma RedeemSucceedsIff(c: Config, w: World, a: Address, p: int, y: int)
    requires c.Valid() && Inv(c, w) && a !in c.Contracts()
    ensures Step(c, w, Tx(a, OnManager(Redeem(p, y)))).Ok? <==> CanRedeem(c, w, a, p, y)
  {
    RedeemIff(c, w, a, p, y);
  }

  /** The PT leg leaves the YT leg as it was, but for the custody it drew on. */
  lemma AfterPtLeg(c: Config, w: World, a: Address, p: int, y: int)
    requires c.Valid() && Funded(c, w) && w.oracle.reading.Some? && PM.RedeemPt(c, w, a, p, PriceOf(w)).Ok?
    ensures var w1 := PM.RedeemPt(c, w, a, p, PriceOf(w)).value.world;
            && Funded(c, w1) && w1.oracle == w.oracle && w1.yt == w.yt && w1.net.now == w.net.now
            && Custody(c, w1) == Custody(c, w) - PrincipalDue(w, p)
            && (PayoutGates(c, w1, a) <==> PayoutGates(c, w, a))
            && PrincipalDue(w, p) >= 0 && YieldDue(w1, a, y) == YieldDue(w, a, y)
  {
    RedeemPtEffect(c, w, a, p, PriceOf(w));
  }

  /** The exact condition under which shares can be split; a notional that rounds to zero is refused. */
  lemma SplitSucceedsIff(c: Config, w: World, a: Address, n: int)
    requires c.Valid() && Inv(c, w) && a !in c.Contracts()
    ensures Step(c, w, Tx(a, OnManager(Split(n)))).Ok? <==>
            && !w.manager.paused && w.net.now < c.maturity && Timely(w)
            && !w.sy.paused && {a, c.pm} <= w.net.authorized && {a, c.pm} <= w.net.allowed
            && {(a, c.pt), (a, c.yt)} <= w.net.eligible
            && 0 < n <= At(w.sy.balance, a) && n * PriceOf(w) >= SCALE
  {
    UpdateEffect(w);
    DivBounds(n * PriceOf(w), SCALE);
    if n * PriceOf(w) >= SCALE {
      QuotientAtLeast(1, n * PriceOf(w), SCALE);
    } else {
      QuotientBelow(1, n * PriceOf(w), SCALE);
    }
  }

  /** What the manager pays arrives: a redemption raises the redeemer's own underlying by both legs. */
  lemma RedemptionArrives(c: Config, w: World, a: Address, p: int, y: int)
    requires c.Valid() && Inv(c, w)
    requires Step(c, w, Tx(a, OnManager(Redeem(p, y)))).Ok?
    ensures var r := Step(c, w, Tx(a, OnManager(Redeem(p, y))));
            && r.value.receipt.Pair?
            && At(r.value.world.net.sac, a) == At(w.net.sac, a) + r.value.receipt.fromPt + r.value.receipt.fromYt
            && At(r.value.world.net.sac, c.sy) == At(w.net.sac, c.sy) - r.value.receipt.fromPt - r.value.receipt.fromYt
  {
    var r := PM.RedeemPt(c, w, a, p, PriceOf(w));
    RedeemPtEffect(c, w, a, p, PriceOf(w));
    RedeemPtArrives(c, w, a, p);
    PayingYtArrives(c, r.value.world, a, y);
  }

  lemma PayOutArrives(c: Config, w: World, to: Address, u: int)
    requires c.Valid() && Funded(c, w) && to != c.sy && PM.PayOut(c, w, to, u).Ok?
    ensures var r := PM.PayOut(c, w, to, u).value;
            && At(r.world.net.sac, to) == At(w.net.sac, to) + r.amount
            && At(r.world.net.sac, c.sy) == At(w.net.sac, c.sy) - r.amount
  {
    PayOutEffect(c, w, to, u);
  }

  lemma RedeemPtArrives(c: Config, w: World, to: Address, p: int)
    requires c.Valid() && Inv(c, w) && to != c.sy && PM.RedeemPt(c, w, to, p, PriceOf(w)).Ok?
    ensures var r := PM.RedeemPt(c, w, to, p, PriceOf(w)).value;
            && At(r.world.net.sac, to) == At(w.net.sac, to) + r.amount
            && At(r.world.net.sac, c.sy) == At(w.net.sac, c.sy) - r.amount
  {
    if p > 0 {
      var burnt := PTToken.Burn(w.pt, c.PtWiring(), c.pm, to, p);
      PayOutArrives(c, w.(pt := burnt.value), to, PM.Principal(p, PriceOf(w)));
    }
  }

  lemma PayingYtArrives(c: Config, w: World, to: Address, y: int)
    requires c.Valid() && Funded(c, w) && w.oracle.reading.Some? && to != c.sy && PM.RedeemYt(c, w, to, y).Ok?
    ensures var r := PM.RedeemYt(c, w, to, y).value;
            && At(r.world.net.sac, to) == At(w.net.sac, to) + r.amount
            && At(r.world.net.sac, c.sy) == At(w.net.sac, c.sy) - r.amount
  {
    if y > 0 {
      UpdateEffect(w);
      var l := Apply(Indexed(w), Destroy(to, y));
      var claimed := w.(yt := w.yt.(ledger := Apply(l, Claim(to))));
      if Claimable(l, to) > 0 {
        PayOutArrives(c, claimed, to, Claimable(l, to));
      }
    }
  }

  // ---- one position from mint to redemption ----

  /** The calls through which a run could change or claim the YT position of `a`. */
  predicate Touches(c: Config, tx: Tx, a: Address) {
    match tx.op
    case OnYt(Move(to, _)) => a == tx.signer || a == to
    case OnYt(MoveFrom(from, to, _)) => a == from || a == to
    case OnManager(call) => a == tx.signer
    case OnEscrow(RecoverYt(account, _)) => a == account || a == c.escrow
    case OnEscrow(FinalizeYt(_)) => a == c.escrow
    case _ => false
  }

  lemma UntouchedStep(c: Config, w: World, tx: Tx, a: Address)
    requires w.oracle.reading.Some? && !Touches(c, tx, a)
    ensures Idle(Project(EventsOf(c, w, tx), a))
  {
    var es := EventsOf(c, w, tx);
    assert forall i :: 0 <= i < |es| ==> !Settles(es[i], a);
    IdleProjection(es, a);
  }

  lemma {:induction false} IdleProjection(es: seq<Event>, a: Address)
    requires forall i :: 0 <= i < |es| ==> !Settles(es[i], a)
    ensures Idle(Project(es, a))
  {
    if es == [] {
    } else {
      IdleProjection(es[..|es| - 1], a);
      assert !Settles(es[|es| - 1], a);
    }
  }

  lemma {:induction false} ProjectAppend(es: seq<Event>, fs: seq<Event>, a: Address)
    ensures Project(es + fs, a) == Project(es, a) + Project(fs, a)
  {
    if fs == [] {
      assert es + fs == es;
    } else {
      var init, f := fs[..|fs| - 1], fs[|fs| - 1];
      ProjectAppend(es, init, a);
      assert (es + fs)[..|es + fs| - 1] == es + init;
      assert (es + fs)[|es + fs| - 1] == f;
      var x, y, z := Project(es, a), Project(init, a), ActsIn(f, a);
      assert (x + y) + z == x + (y + z);
    }
  }

  lemma {:induction false} UntouchedRun(c: Config, w: World, txs: seq<Tx>, a: Address)
    requires c.Valid() && Inv(c, w)
    requires forall i :: 0 <= i < |txs| ==> !Touches(c, txs[i], a)
    ensures Idle(ActsOf(c, w, txs, a))
  {
    if txs == [] {
    } else {
      var init, tx := txs[..|txs| - 1], txs[|txs| - 1];
      UntouchedRun(c, w, init, a);
      RunKeeps(c, w, init);
      UntouchedStep(c, Run(c, w, init), tx, a);
      ProjectAppend(Trace(c, w, init), EventsOf(c, Run(c, w, init), tx), a);
    }
  }

  /** n*(SCALE+R-r)/R - 2 < paid <= n*(SCALE+R-r)/R + n*k/f0, in integers. */
  predicate WithinPosition(n: nat, f0: nat, r: nat, R: nat, k: nat, paid: int) {
    && n * (SCALE + R - r) < (paid + 2) * R
    && paid * (f0 * R) <= n * (f0 * (SCALE + R - r) + k * R)
  }

  lemma PositionBounds(n: nat, f0: nat, r: nat, R: OracleAdapter.Price, k: nat, owed: nat, paid: int)
    requires WithinAccuracy(n, f0, r, R, k, owed) && paid == PM.Principal(n, R) + owed
    ensures WithinPosition(n, f0, r, R, k, paid)
  {
    var p := PM.Principal(n, R);
    DivBounds(n * SCALE, R);
    DivBounds(n * (R - r), R);
    MulMonotone(n * (R - r) / R, owed, R);
    PositionLow(n, r, R, p, owed);
    PositionHigh(n, f0, r, R, k, p, owed);
  }

  lemma PositionLow(n: nat, r: int, R: int, p: int, owed: int)
    requires n * SCALE < p * R + R && n * (R - r) < owed * R + R
    ensures n * (SCALE + R - r) < (p + owed + 2) * R
  {
    Distribute(n, SCALE, R - r);
    assert (p + owed + 2) * R == p * R + owed * R + R + R;
  }

  lemma PositionHigh(n: nat, f0: nat, r: int, R: int, k: nat, p: int, owed: int)
    requires p * R <= n * SCALE && owed * (f0 * R) <= n * (f0 * (R - r) + k * R)
    ensures (p + owed) * (f0 * R) <= n * (f0 * (SCALE + R - r) + k * R)
  {
    MulMonotone(p * R, n * SCALE, f0);
    assert p * (f0 * R) == (p * R) * f0;
    assert (n * SCALE) * f0 == n * (f0 * SCALE);
    Distribute(f0 * R, p, owed);
    Distribute(f0, SCALE, R - r);
    Distribute(n, f0 * SCALE, f0 * (R - r) + k * R);
  }

  /** If the account can redeem `n` of PT and `n` of YT together, it is paid `paid`. */
  ghost predicate PaysAll(c: Config, z: World, a: Address, n: nat, paid: int) {
    var last := Step(c, z, Tx(a, OnManager(Redeem(n, n))));
    last.Ok? ==> last.value.receipt.Pair? && last.value.receipt.fromPt + last.value.receipt.fromYt == paid
  }

  /** One position, from any rate: YT of balance n whose snapshot stands at the index at rate r, left alone
      by any run with k index moves and then redeemed with as much PT at price R, is paid n*(SCALE+R-r)/R
      less at most two units, and at most n*k/f0 more. Above par that exceeds its deposit n*SCALE/r. */
  lemma PositionPays(c: Config, w: World, txs: seq<Tx>, a: Address, n: nat) returns (paid: int)
    requires c.Valid() && Inv(c, w) && At(w.yt.ledger.balance, a) == n > 0
    requires Taken(RowOf(w.yt.ledger, a)) && w.yt.ledger.index > 0
    requires forall i :: 0 <= i < |txs| ==> !Touches(c, txs[i], a)
    ensures Inv(c, Run(c, w, txs))
    ensures PaysAll(c, Run(c, w, txs), a, n, paid)
    ensures var l, z := w.yt.ledger, Run(c, w, txs);
            WithinPosition(n, l.index, l.rate, PriceOf(z), MovesThrough(c, w, txs), paid)
  {
    HeldPosition(c, w, txs, a);
    var z := Run(c, w, txs);
    HeldRow(z, a, RowOf(w.yt.ledger, a), MovesThrough(c, w, txs));
    RedeemAll(c, z, a, n);
    HeldBounds(RowOf(w.yt.ledger, a), RowOf(Indexed(z), a), MovesThrough(c, w, txs), PriceOf(z));
    paid := PM.Principal(n, PriceOf(z)) + OwedTo(Indexed(z), a);
  }

  /** Redeeming everything pays the principal and all that is pending and owed. */
  lemma RedeemAll(c: Config, z: World, a: Address, n: nat)
    requires c.Valid() && Inv(c, z) && n > 0 && At(z.yt.ledger.balance, a) == n
    ensures PaysAll(c, z, a, n, PM.Principal(n, PriceOf(z)) + At(z.yt.ledger.pending, a) + OwedTo(Indexed(z), a))
  {
    RedeemEffect(c, z, a, a, n, n);
    ClaimOfRow(Indexed(z), a, n);
  }

  lemma HeldRow(z: World, a: Address, before: Row, k: nat)
    requires z.oracle.reading.Some? && HeldTo(before, RowOf(Indexed(z), a), k)
    ensures At(z.yt.ledger.balance, a) == before.balance && At(z.yt.ledger.pending, a) == before.pending
    ensures OwedOn(RowOf(Indexed(z), a)) == OwedTo(Indexed(z), a)
  {
  }

  lemma HeldBounds(before: Row, now: Row, k: nat, price: OracleAdapter.Price)
    requires HeldTo(before, now, k) && now.rate == price
    ensures WithinPosition(before.balance, before.index, before.rate, price, k,
                           PM.Principal(before.balance, price) + OwedOn(now))
  {
    PositionBounds(before.balance, before.index, before.rate, price, k, OwedOn(now),
      PM.Principal(before.balance, price) + OwedOn(now));
  }

  lemma ParPosition(n: nat, R: nat, k: nat, paid: int)
    requires R > 0 && WithinPosition(n, SCALE, SCALE, R, k, paid)
    ensures WithinDust(n, paid, k)
  {
    if n >= paid + 2 {
      MulMonotone(paid + 2, n, R);
      assert false;
    }
    assert paid * (SCALE * R) == (paid * SCALE) * R;
    assert n * (SCALE * R + k * R) == (n * (SCALE + k)) * R;
    if paid * SCALE > n * (SCALE + k) {
      MulLess(n * (SCALE + k), paid * SCALE, R);
      assert false;
    }
  }

  /** Conservation with a dust bound: a fresh holder that mints N at genesis rate SCALE, is left alone
      by any run and then redeems all of it at any price gets back, PT and YT together, between N - 1
      and N + N*k/SCALE, where k counts the index moves in between. */
  lemma PositionConserved(c: Config, w: World, a: Address, n: nat, txs: seq<Tx>) returns (paid: int)
    requires c.Valid() && Inv(c, w)
    requires w.yt.ledger.index == SCALE && w.yt.ledger.rate == SCALE && PriceOf(w) == SCALE
    requires At(w.yt.ledger.balance, a) == 0 && At(w.yt.ledger.pending, a) == 0
    requires n > 0 && Step(c, w, Tx(a, OnManager(Split(n)))).Ok?
    requires forall i :: 0 <= i < |txs| ==> !Touches(c, txs[i], a)
    ensures Step(c, w, Tx(a, OnManager(Split(n)))).value.receipt == Amount(n)
    ensures var held := Next(c, w, Tx(a, OnManager(Split(n))));
            && Inv(c, held)
            && PaysAll(c, Run(c, held, txs), a, n, paid)
            && WithinDust(n, paid, MovesThrough(c, held, txs))
  {
    var held := Next(c, w, Tx(a, OnManager(Split(n))));
    StepKeeps(c, w, Tx(a, OnManager(Split(n))));
    FreshPosition(c, w, a, n);
    paid := PositionPays(c, held, txs, a, n);
    ParPosition(n, PriceOf(Run(c, held, txs)), MovesThrough(c, held, txs), paid);
  }

  /** n - 1 <= paid <= n + n*k/SCALE. */
  predicate WithinDust(n: nat, paid: int, k: nat) {
    n - 1 <= paid && paid * SCALE <= n * (SCALE + k)
  }

  lemma FreshPosition(c: Config, w: World, a: Address, n: int)
    requires c.Valid() && Inv(c, w)
    requires w.yt.ledger.index == SCALE && w.yt.ledger.rate == SCALE && PriceOf(w) == SCALE
    requires At(w.yt.ledger.balance, a) == 0 && At(w.yt.ledger.pending, a) == 0
    requires Step(c, w, Tx(a, OnManager(Split(n)))).Ok?
    ensures n > 0 && Step(c, w, Tx(a, OnManager(Split(n)))).value.receipt == Amount(n)
    ensures RowOf(Next(c, w, Tx(a, OnManager(Split(n)))).yt.ledger, a) == Row(SCALE, SCALE, n, SCALE, 0)
  {
    MintEffect(c, w, a, a, n);
    NotionalAtScale(n);
    IndexUnmoved(w.yt.ledger, PriceOf(w));
    IssueToEmpty(w.yt.ledger, a, n);
  }

  lemma IndexUnmoved(l: Ledger, now: nat)
    requires now <= l.rate
    ensures Apply(l, Index(now)) == l
  {
  }

  lemma IssueToEmpty(l: Ledger, a: Address, n: nat)
    requires At(l.balance, a) == 0 && At(l.pending, a) == 0
    ensures RowOf(Apply(l, Issue(a, n)), a) == Row(l.index, l.rate, n, l.index, 0)
  {
    assert OwedTo(l, a) == 0;
  }

  lemma NotionalAtScale(n: int)
    ensures PM.Notional(n, SCALE) == n
  {
    DivExact(n, SCALE);
  }

  /** A position whose snapshot stands at the index, after a run that leaves it alone and a last index
      update. */
  lemma HeldPosition(c: Config, w: World, txs: seq<Tx>, a: Address)
    requires c.Valid() && Inv(c, w)
    requires SnapshotOf(w.yt.ledger, a) == w.yt.ledger.index > 0
    requires forall i :: 0 <= i < |txs| ==> !Touches(c, txs[i], a)
    ensures Inv(c, Run(c, w, txs))
    ensures var z := Run(c, w, txs);
            && Indexed(z).rate == PriceOf(z)
            && HeldTo(RowOf(w.yt.ledger, a), RowOf(Indexed(z), a), MovesThrough(c, w, txs))
  {
    RunKeeps(c, w, txs);
    UntouchedRun(c, w, txs, a);
    RunProjects(c, w, txs, a);
    var z := Run(c, w, txs);
    TickedRow(z.yt.ledger, Indexed(z), PriceOf(z), a);
    IdleThenTick(RowOf(w.yt.ledger, a), ActsOf(c, w, txs, a), RowOf(z.yt.ledger, a), PriceOf(z),
      MovesThrough(c, w, txs));
  }

  /** Burning a whole balance leaves to be claimed what was pending and what it was owed. */
  lemma ClaimOfRow(l: Ledger, a: Address, n: nat)
    requires At(l.balance, a) == n
    ensures Claimable(Apply(l, Destroy(a, n)), a) == At(l.pending, a) + OwedTo(l, a)
  {
    SettleProjects(l, a, a);
    SettleProjects(Apply(l, Destroy(a, n)), a, a);
  }
}
