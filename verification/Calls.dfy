/** What each call of the wrapper, the tokens, the oracle and the escrow requires and does, stated on
    balances and sets: the exact condition under which it goes through, and the whole new state. */
module Calls {
  import opened Base
  import opened Arith
  import opened Network
  import opened World
  import opened Sep41
  import OracleAdapter
  import SYWrapper
  import PTToken
  import YTToken
  import PM = PrincipalManager
  import opened Effects
  import opened YL = YieldLedger
  import opened YieldRow
  import opened Market
  import opened History
  import opened Backing

  lemma MovedShifts(m: Balances, from: Address, to: Address, amount: nat)
    requires amount <= At(m, from)
    ensures Shifted(m, Moved(m, from, to, amount), from, to, amount)
  {
  }

  // ---- oracle and pauses ----

  /** The administrator sets a positive price no lower than the last, with a later timestamp; nobody else
      and nothing else does. */
  lemma SetPriceCall(c: Config, w: World, me: Address, value: int, timestamp: nat)
    ensures var r := Step(c, w, Tx(me, SetPrice(value, timestamp)));
            && (r.Ok? <==>
                 && me !in c.Contracts() && me == w.oracle.admin && value > 0
                 && match w.oracle.reading
                    case Some(last) => value >= last.price && timestamp > last.timestamp
                    case None => timestamp > 0)
            && (r.Ok? ==>
                 && r.value.world == w.(oracle := r.value.world.oracle)
                 && r.value.world.oracle.admin == w.oracle.admin
                 && r.value.world.oracle.reading.Some?
                 && r.value.world.oracle.reading.value.price == value
                 && r.value.world.oracle.reading.value.timestamp == timestamp)
  {
  }

  lemma PauseCalls(c: Config, w: World, me: Address, paused: bool)
    ensures var r := Step(c, w, Tx(me, OnSy(Pause(paused))));
            && (r.Ok? <==> me !in c.Contracts() && me == w.sy.admin)
            && (r.Ok? ==> r.value.world == w.(sy := w.sy.(paused := paused)))
    ensures var r := Step(c, w, Tx(me, OnManager(PauseManager(paused))));
            && (r.Ok? <==> me !in c.Contracts() && me == w.manager.admin)
            && (r.Ok? ==> r.value.world == w.(manager := w.manager.(paused := paused)))
  {
  }

  // ---- the wrapper ----

  lemma DepositCall(c: Config, w: World, me: Address, n: int)
    requires c.Valid() && Inv(c, w)
    ensures var r := Step(c, w, Tx(me, OnSy(Deposit(n))));
            && (r.Ok? <==>
                 && me !in c.Contracts() && !w.sy.paused
                 && me in w.net.authorized && c.sy in w.net.authorized && me in w.net.allowed
                 && 0 < n <= At(w.net.sac, me))
            && (r.Ok? ==>
                 var z := r.value.world;
                 && r.value.receipt == Amount(n)
                 && z == w.(sy := z.sy, net := w.net.(sac := z.net.sac))
                 && z.sy == w.sy.(balance := z.sy.balance, totalShares := w.sy.totalShares + n,
                                  totalUnderlying := w.sy.totalUnderlying + n)
                 && Changed(w.sy.balance, z.sy.balance, me, n)
                 && Shifted(w.net.sac, z.net.sac, me, c.sy, n))
  {
    SYWrapper.OneToOneRate(w.sy);
    SYWrapper.DepositKeeps(w.sy, w.net, c.sy, me, me, n);
    if 0 <= n <= At(w.net.sac, me) {
      MovedShifts(w.net.sac, me, c.sy, n);
    }
  }

  lemma WithdrawCall(c: Config, w: World, me: Address, n: int, to: Address)
    requires c.Valid() && Inv(c, w)
    ensures var r := Step(c, w, Tx(me, OnSy(Withdraw(n, to))));
            && (r.Ok? <==>
                 && me !in c.Contracts() && !w.sy.paused
                 && {me, to, c.sy} <= w.net.authorized && {me, to} <= w.net.allowed
                 && 0 < n <= At(w.sy.balance, me))
            && (r.Ok? ==>
                 var z := r.value.world;
                 && r.value.receipt == Amount(n)
                 && z == w.(sy := z.sy, net := w.net.(sac := z.net.sac))
                 && z.sy == w.sy.(balance := z.sy.balance, totalShares := w.sy.totalShares - n,
                                  totalUnderlying := w.sy.totalUnderlying - n)
                 && Changed(w.sy.balance, z.sy.balance, me, -n)
                 && Shifted(w.net.sac, z.net.sac, c.sy, to, n))
  {
    SYWrapper.OneToOneRate(w.sy);
    SYWrapper.WithdrawKeeps(w.sy, w.net, c.sy, me, me, n, to);
    AtMostTotal(w.sy.balance, me);
    if 0 <= n <= At(w.net.sac, c.sy) {
      MovedShifts(w.net.sac, c.sy, to, n);
    }
  }

  lemma ShareTransferCall(c: Config, w: World, me: Address, to: Address, n: int)
    ensures var r := Step(c, w, Tx(me, OnSy(Transfer(to, n))));
            && (r.Ok? <==>
                 && me !in c.Contracts() && !w.sy.paused
                 && {me, to} <= w.net.authorized && {me, to} <= w.net.allowed
                 && 0 < n <= At(w.sy.balance, me))
            && (r.Ok? ==>
                 var z := r.value.world;
                 && r.value.receipt == Amount(n)
                 && z == w.(sy := w.sy.(balance := z.sy.balance))
                 && Shifted(w.sy.balance, z.sy.balance, me, to, n))
  {
    if 0 <= n <= At(w.sy.balance, me) {
      MovedShifts(w.sy.balance, me, to, n);
    }
  }

  // ---- the principal token ----

  /** Both compliance layers on both sides, for one instrument. */
  predicate Eligible(w: World, asset: Address, from: Address, to: Address) {
    {from, to} <= w.net.authorized && {from, to} <= w.net.allowed && {(from, asset), (to, asset)} <= w.net.eligible
  }

  lemma GatePasses(w: World, asset: Address, from: Address, to: Address)
    ensures TransferGate(w.net, asset, from, to).Pass? <==> Eligible(w, asset, from, to)
  {
  }

  lemma PtTransferCall(c: Config, w: World, me: Address, to: Address, n: int)
    ensures var r := Step(c, w, Tx(me, OnPt(TokenCall.Move(to, n))));
            && (r.Ok? <==> me !in c.Contracts() && Eligible(w, c.pt, me, to) && 0 < n <= At(w.pt.balance, me))
            && (r.Ok? ==>
                 var z := r.value.world;
                 && z == w.(pt := w.pt.(balance := z.pt.balance))
                 && Shifted(w.pt.balance, z.pt.balance, me, to, n))
  {
    GatePasses(w, c.pt, me, to);
    if 0 <= n <= At(w.pt.balance, me) {
      MovedShifts(w.pt.balance, me, to, n);
    }
  }

  /** The allowance lets the spender move this much at this ledger. */
  predicate Allowed(m: Allowances, owner: Address, spender: Address, n: int, sequence: nat) {
    (owner, spender) in m && n <= m[(owner, spender)].amount && sequence <= m[(owner, spender)].expiration
  }

  /** `n` of an allowance is spent; every other allowance and its own expiration stay. */
  ghost predicate Spent(m: Allowances, m': Allowances, owner: Address, spender: Address, n: int) {
    forall o: Address, s: Address ::
      AllowanceOf(m', o, s) == if o == owner && s == spender
                               then Allowance(AllowanceOf(m, o, s).amount - n, AllowanceOf(m, o, s).expiration)
                               else AllowanceOf(m, o, s)
  }

  lemma PtTransferFromCall(c: Config, w: World, me: Address, from: Address, to: Address, n: int)
    ensures var r := Step(c, w, Tx(me, OnPt(MoveFrom(from, to, n))));
            && (r.Ok? <==>
                 && me !in c.Contracts() && Eligible(w, c.pt, from, to)
                 && Allowed(w.pt.allowances, from, me, n, w.net.sequence) && 0 < n <= At(w.pt.balance, from))
            && (r.Ok? ==>
                 var z := r.value.world;
                 && z == w.(pt := w.pt.(balance := z.pt.balance, allowances := z.pt.allowances))
                 && Shifted(w.pt.balance, z.pt.balance, from, to, n)
                 && Spent(w.pt.allowances, z.pt.allowances, from, me, n))
  {
    GatePasses(w, c.pt, from, to);
    if 0 <= n <= At(w.pt.balance, from) {
      MovedShifts(w.pt.balance, from, to, n);
    }
  }

  /** One allowance is replaced, every other stays. */
  ghost predicate Granted(m: Allowances, m': Allowances, owner: Address, spender: Address, grant: Allowance) {
    forall o: Address, s: Address ::
      AllowanceOf(m', o, s) == if o == owner && s == spender then grant else AllowanceOf(m, o, s)
  }

  lemma PtApproveCall(c: Config, w: World, me: Address, spender: Address, n: int, expiration: nat)
    ensures var r := Step(c, w, Tx(me, OnPt(Approve(spender, n, expiration))));
            && (r.Ok? <==> me !in c.Contracts() && n >= 0)
            && (r.Ok? ==>
                 var z := r.value.world;
                 && z == w.(pt := w.pt.(allowances := z.pt.allowances))
                 && Granted(w.pt.allowances, z.pt.allowances, me, spender, Allowance(n, expiration)))
  {
  }

  // ---- the yield token ----

  /** Units move, and both sides are settled at their old holdings; nobody else is. */
  ghost predicate SettledShift(l: Ledger, l': Ledger, from: Address, to: Address, n: int) {
    && l' == l.(balance := l'.balance, snapshot := l'.snapshot, pending := l'.pending)
    && Shifted(l.balance, l'.balance, from, to, n)
    && (forall a ::
          && At(l'.pending, a) == At(l.pending, a) + (if a == from || a == to then OwedTo(l, a) else 0)
          && SnapshotOf(l', a) == if a == from || a == to then l.index else SnapshotOf(l, a))
  }

  lemma MoveShifts(l: Ledger, from: Address, to: Address, n: nat)
    requires n <= At(l.balance, from)
    ensures SettledShift(l, Apply(l, YL.Move(from, to, n)), from, to, n)
  {
    MovedShifts(l.balance, from, to, n);
    forall a {
      MoveProjects(l, from, to, n, a);
    }
  }

  lemma YtTransferCall(c: Config, w: World, me: Address, to: Address, n: int)
    ensures var r := Step(c, w, Tx(me, OnYt(TokenCall.Move(to, n))));
            && (r.Ok? <==> me !in c.Contracts() && Eligible(w, c.yt, me, to) && 0 < n <= At(w.yt.ledger.balance, me))
            && (r.Ok? ==>
                 var z := r.value.world;
                 && z == w.(yt := w.yt.(ledger := z.yt.ledger))
                 && SettledShift(w.yt.ledger, z.yt.ledger, me, to, n))
  {
    GatePasses(w, c.yt, me, to);
    if 0 <= n <= At(w.yt.ledger.balance, me) {
      MoveShifts(w.yt.ledger, me, to, n);
    }
  }

  lemma YtTransferFromCall(c: Config, w: World, me: Address, from: Address, to: Address, n: int)
    ensures var r := Step(c, w, Tx(me, OnYt(MoveFrom(from, to, n))));
            && (r.Ok? <==>
                 && me !in c.Contracts() && Eligible(w, c.yt, from, to)
                 && Allowed(w.yt.allowances, from, me, n, w.net.sequence) && 0 < n <= At(w.yt.ledger.balance, from))
            && (r.Ok? ==>
                 var z := r.value.world;
                 && z == w.(yt := z.yt)
                 && SettledShift(w.yt.ledger, z.yt.ledger, from, to, n)
                 && Spent(w.yt.allowances, z.yt.allowances, from, me, n))
  {
    GatePasses(w, c.yt, from, to);
    if 0 <= n <= At(w.yt.ledger.balance, from) {
      MoveShifts(w.yt.ledger, from, to, n);
    }
  }

  lemma YtApproveCall(c: Config, w: World, me: Address, spender: Address, n: int, expiration: nat)
    ensures var r := Step(c, w, Tx(me, OnYt(Approve(spender, n, expiration))));
            && (r.Ok? <==> me !in c.Contracts() && n >= 0)
            && (r.Ok? ==>
                 var z := r.value.world;
                 && z == w.(yt := w.yt.(allowances := z.yt.allowances))
                 && Granted(w.yt.allowances, z.yt.allowances, me, spender, Allowance(n, expiration)))
  {
  }

  /** Anyone may bring the index to a live price: it is scaled by recorded rate over price and floored when
      the price is higher, and nothing changes when it is not. */
  lemma UpdateIndexCall(c: Config, w: World, me: Address)
    requires Inv(c, w)
    ensures var r := Step(c, w, Tx(me, YtUpdateIndex));
            && (r.Ok? <==> me !in c.Contracts() && Timely(w))
            && (r.Ok? ==>
                 var l, z := w.yt.ledger, r.value.world;
                 var f := z.yt.ledger.index;
                 && z == w.(yt := w.yt.(ledger := l.(index := f, rate := PriceOf(w))))
                 && (PriceOf(w) > l.rate ==> f * PriceOf(w) <= l.index * l.rate < (f + 1) * PriceOf(w))
                 && (PriceOf(w) == l.rate ==> f == l.index))
  {
    UpdateEffect(w);
    DivBounds(w.yt.ledger.index * w.yt.ledger.rate, PriceOf(w));
  }

  // ---- the escrow ----

  /** The signer is the live issuer and no contract of the market. */
  predicate ByIssuer(c: Config, w: World, me: Address) {
    me !in c.Contracts() && me == w.net.admin
  }

  lemma RecoverSyCall(c: Config, w: World, me: Address, account: Address, n: int)
    requires c.Valid() && Inv(c, w)
    ensures var r := Step(c, w, Tx(me, OnEscrow(RecoverSy(account, n))));
            && (r.Ok? <==>
                 && ByIssuer(c, w, me) && account !in w.net.authorized && 0 < n <= At(w.sy.balance, account)
                 && !w.sy.paused && {c.escrow, c.sy} <= w.net.authorized && c.escrow in w.net.allowed)
            && (r.Ok? ==>
                 var z := r.value.world;
                 && r.value.receipt == Amount(n)
                 && z == w.(sy := z.sy, net := w.net.(sac := z.net.sac))
                 && z.sy == w.sy.(balance := z.sy.balance, totalShares := w.sy.totalShares - n,
                                  totalUnderlying := w.sy.totalUnderlying - n)
                 && Changed(w.sy.balance, z.sy.balance, account, -n)
                 && Shifted(w.net.sac, z.net.sac, c.sy, c.escrow, n))
  {
    var s := SYWrapper.Seize(w.sy, c.escrow, c.escrow, c.escrow, account, n);
    if s.Ok? {
      SYWrapper.SeizeKeeps(w.sy, c.escrow, c.escrow, c.escrow, account, n);
      SYWrapper.OneToOneRate(s.value);
      SYWrapper.WithdrawKeeps(s.value, w.net, c.sy, c.escrow, c.escrow, n, c.escrow);
      AtMostTotal(w.sy.balance, account);
      MovedShifts(w.net.sac, c.sy, c.escrow, n);
    }
  }

  lemma RecoverPtCall(c: Config, w: World, me: Address, account: Address, n: int)
    ensures var r := Step(c, w, Tx(me, OnEscrow(RecoverPt(account, n))));
            && (r.Ok? <==>
                 ByIssuer(c, w, me) && account !in w.net.authorized && 0 < n <= At(w.pt.balance, account))
            && (r.Ok? ==>
                 var z := r.value.world;
                 && r.value.receipt == Amount(n)
                 && z == w.(pt := w.pt.(balance := z.pt.balance))
                 && Shifted(w.pt.balance, z.pt.balance, account, c.escrow, n))
  {
    if 0 <= n <= At(w.pt.balance, account) {
      MovedShifts(w.pt.balance, account, c.escrow, n);
    }
  }

  lemma RecoverYtCall(c: Config, w: World, me: Address, account: Address, n: int)
    ensures var r := Step(c, w, Tx(me, OnEscrow(RecoverYt(account, n))));
            && (r.Ok? <==>
                 ByIssuer(c, w, me) && account !in w.net.authorized && 0 < n <= At(w.yt.ledger.balance, account))
            && (r.Ok? ==>
                 var z := r.value.world;
                 && r.value.receipt == Amount(n)
                 && z == w.(yt := w.yt.(ledger := z.yt.ledger))
                 && SettledShift(w.yt.ledger, z.yt.ledger, account, c.escrow, n))
  {
    if 0 <= n <= At(w.yt.ledger.balance, account) {
      MoveShifts(w.yt.ledger, account, c.escrow, n);
    }
  }

  /** The escrow redeems on the issuer's word alone, under the manager's own conditions. */
  lemma FinalizeCalls(c: Config, w: World, me: Address, n: int)
    requires c.Valid() && Inv(c, w)
    ensures Step(c, w, Tx(me, OnEscrow(FinalizePt(n)))).Ok? <==>
            ByIssuer(c, w, me) && n > 0 && CanRedeem(c, w, c.escrow, n, 0)
    ensures Step(c, w, Tx(me, OnEscrow(FinalizeYt(n)))).Ok? <==>
            ByIssuer(c, w, me) && n > 0 && CanRedeem(c, w, c.escrow, 0, n)
  {
    RedeemIff(c, w, c.escrow, n, 0);
    RedeemIff(c, w, c.escrow, 0, n);
  }

  /** A stale price, or one ahead of the clock, stops every call that is priced by it. */
  lemma StalePriceStops(c: Config, w: World, tx: Tx)
    requires c.Valid() && Inv(c, w) && !Timely(w)
    requires match tx.op
             case YtUpdateIndex => true
             case OnManager(call) => !call.PauseManager?
             case OnEscrow(call) => call.FinalizePt? || call.FinalizeYt?
             case _ => false
    ensures Step(c, w, tx).Err? && Next(c, w, tx) == w
  {
    FreshIsTimely(w);
    UpdateEffect(w);
  }
}
