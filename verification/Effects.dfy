/** What the manager's and the escrow's calls do to the whole market once they succeed. */
module Effects {
  import opened Base
  import opened Arith
  import opened Network
  import opened World
  import OracleAdapter
  import SYWrapper
  import PTToken
  import YTToken
  import PM = PrincipalManager
  import RecoveryEscrow
  import opened YieldLedger

  function Custody(c: Config, w: World): nat {
    At(w.sy.balance, c.pm)
  }

  function PriceOf(w: World): OracleAdapter.Price
    requires w.oracle.reading.Some?
  {
    w.oracle.reading.value.price
  }

  /** The wrapper is one-to-one and holds at least the underlying it accounts for. */
  ghost predicate Funded(c: Config, w: World) {
    SYWrapper.OneToOne(w.sy) && w.sy.totalUnderlying <= At(w.net.sac, c.sy)
  }

  /** The wrapper after the manager drew `u` underlying out of its custody. */
  function Drawn(c: Config, s: SYWrapper.Sy, u: nat): SYWrapper.Sy
    requires u <= At(s.balance, c.pm)
  {
    if u == 0 then s else SYWrapper.Debited(s, c.pm, u, u)
  }

  /** Only the balances of the underlying asset differ. */
  predicate SameSurroundings(net: Net, net': Net) {
    net' == net.(sac := net'.sac)
  }

  /** The index event of this world's price. */
  function IndexNow(w: World): Event
    requires w.oracle.reading.Some?
  {
    Index(PriceOf(w))
  }

  function Indexed(w: World): Ledger
    requires w.oracle.reading.Some?
  {
    Apply(w.yt.ledger, IndexNow(w))
  }

  /** The oracle has a reading, not ahead of the clock and at most an hour old. */
  predicate Timely(w: World) {
    && w.oracle.reading.Some?
    && w.oracle.reading.value.timestamp <= w.net.now <= w.oracle.reading.value.timestamp + 3_600
  }

  lemma FreshIsTimely(w: World)
    requires w.oracle.reading.Some?
    ensures PM.OracleFresh(w) <==> Timely(w)
  {
    OracleAdapter.FreshIff(w.oracle, w.net.now, MAX_ORACLE_STALENESS_SECS);
  }

  lemma UpdateEffect(w: World)
    requires w.oracle.reading.Some?
    ensures var r := YTToken.UpdateYieldIndex(w.yt, w.oracle, w.net.now);
            r.Ok? ==> r.value == w.yt.(ledger := Indexed(w))
    ensures YTToken.UpdateYieldIndex(w.yt, w.oracle, w.net.now).Ok? <==> Timely(w)
  {
    FreshIsTimely(w);
    assert w.yt.ledger.(index := w.yt.ledger.index, rate := w.yt.ledger.rate) == w.yt.ledger;
  }

  /** Every payout of the manager pays exactly what is asked, out of custody, or fails. */
  lemma PayOutEffect(c: Config, w: World, to: Address, u: int)
    requires c.Valid() && Funded(c, w)
    ensures var r := PM.PayOut(c, w, to, u);
            r.Ok? ==> && r.value.amount == u
                      && 0 < u <= Custody(c, w)
                      && {c.pm, to} <= w.net.authorized && {c.pm, to} <= w.net.allowed
                      && r.value.world == w.(sy := Drawn(c, w.sy, u), net := r.value.world.net)
                      && SameSurroundings(w.net, r.value.world.net)
                      && Funded(c, r.value.world)
  {
    SYWrapper.OneToOneRate(w.sy);
    DivExact(u, SCALE);
    assert PM.SharesFor(SYWrapper.ExchangeRate(w.sy), u) == Ok(u);
    SYWrapper.WithdrawKeeps(w.sy, w.net, c.sy, c.pm, c.pm, u, to);
  }

  /** The exact condition under which a payout goes through: the wrapper's gates, and custody. */
  lemma PayOutSucceedsIff(c: Config, w: World, to: Address, u: int)
    requires c.Valid() && Funded(c, w)
    ensures PM.PayOut(c, w, to, u).Ok? <==>
            && !w.sy.paused
            && {c.pm, c.sy, to} <= w.net.authorized
            && {c.pm, to} <= w.net.allowed
            && 0 < u <= Custody(c, w)
  {
    SYWrapper.OneToOneRate(w.sy);
    DivExact(u, SCALE);
    AtMostTotal(w.sy.balance, c.pm);
    assert PM.SharesFor(SYWrapper.ExchangeRate(w.sy), u) == Ok(u);
    assert SYWrapper.SharesToUnderlying(w.sy, u) == u;
  }

  lemma MintEffect(c: Config, w: World, auth: Address, from: Address, n: int)
    requires w.oracle.reading.Some?
    ensures var r := PM.Mint(c, w, auth, from, n);
            r.Ok? ==> && 0 < n <= At(w.sy.balance, from) && auth == from
                      && {from, c.pm} <= w.net.authorized
                      && {from, c.pm} <= w.net.allowed && w.net.now < c.maturity
                      && (from, c.pt) in w.net.eligible && (from, c.yt) in w.net.eligible
                      && r.value.notional == PM.Notional(n, PriceOf(w)) > 0
                      && r.value.world == w.(
                           sy := w.sy.(balance := Moved(w.sy.balance, from, c.pm, n)),
                           pt := w.pt.(balance := w.pt.balance[from := At(w.pt.balance, from) + r.value.notional],
                                       totalSupply := w.pt.totalSupply + r.value.notional),
                           yt := w.yt.(ledger := Apply(Indexed(w), Issue(from, r.value.notional))))
  {
    UpdateEffect(w);
  }

  lemma RedeemPtEffect(c: Config, w: World, from: Address, amount: int, rate: OracleAdapter.Price)
    requires c.Valid() && Funded(c, w)
    ensures var r := PM.RedeemPt(c, w, from, amount, rate);
            && (amount <= 0 ==> r == Ok(PM.Paid(w, 0)))
            && (amount > 0 && r.Ok? ==>
                 && amount <= At(w.pt.balance, from)
                 && c.pm in w.net.authorized && c.pm in w.net.allowed
                 && r.value.amount == PM.Principal(amount, rate)
                 && 0 < r.value.amount <= Custody(c, w)
                 && r.value.world == w.(
                      sy := Drawn(c, w.sy, r.value.amount),
                      net := r.value.world.net,
                      pt := w.pt.(balance := w.pt.balance[from := At(w.pt.balance, from) - amount],
                                  totalSupply := w.pt.totalSupply - amount))
                 && SameSurroundings(w.net, r.value.world.net)
                 && Funded(c, r.value.world))
  {
    if amount > 0 {
      var burnt := PTToken.Burn(w.pt, c.PtWiring(), c.pm, from, amount);
      if burnt.Ok? {
        PayOutEffect(c, w.(pt := burnt.value), from, PM.Principal(amount, rate));
      }
    }
  }

  /** A claim is paid in full; nothing is withdrawn when nothing is due. */
  lemma PayClaimEffect(c: Config, w: World, from: Address)
    requires c.Valid() && Funded(c, w)
    ensures var r := PM.PayClaim(c, w, from);
            r.Ok? ==> && r.value.amount == Claimable(w.yt.ledger, from) <= Custody(c, w)
                      && (r.value.amount > 0 ==> c.pm in w.net.authorized && c.pm in w.net.allowed)
                      && r.value.world == w.(
                           sy := Drawn(c, w.sy, r.value.amount),
                           net := r.value.world.net,
                           yt := w.yt.(ledger := Apply(w.yt.ledger, Claim(from))))
                      && SameSurroundings(w.net, r.value.world.net)
                      && Funded(c, r.value.world)
                      && At(r.value.world.sy.balance, c.pm) == Custody(c, w) - r.value.amount
  {
    var claim := YTToken.ClaimYield(w.yt, c.YtWiring(), c.pm, c.pm, from);
    if claim.value.amount > 0 {
      PayOutEffect(c, w.(yt := claim.value.yt), from, claim.value.amount);
    }
  }

  /** Both legs of a redemption, in exact amounts. */
  lemma RedeemEffect(c: Config, w: World, auth: Address, from: Address, p: int, y: int)
    requires c.Valid() && Funded(c, w) && w.oracle.reading.Some?
    ensures var r := PM.Redeem(c, w, auth, from, p, y);
            r.Ok? ==> && auth == from && from in w.net.authorized && from in w.net.allowed && w.net.now >= c.maturity
                      && Timely(w)
                      && (p > 0 ==> p <= At(w.pt.balance, from))
                      && (y > 0 ==> y <= At(w.yt.ledger.balance, from))
                      && (r.value.fromPt + r.value.fromYt > 0 ==> c.pm in w.net.authorized && c.pm in w.net.allowed)
                      && r.value.fromPt == (if p > 0 then PM.Principal(p, PriceOf(w)) else 0)
                      && r.value.fromYt == (if y > 0 then Claimable(Apply(Indexed(w), Destroy(from, y)), from) else 0)
                      && 0 <= r.value.fromPt && 0 <= r.value.fromYt
                      && r.value.fromPt + r.value.fromYt <= Custody(c, w)
                      && r.value.world == w.(
                           sy := Drawn(c, Drawn(c, w.sy, r.value.fromPt), r.value.fromYt),
                           net := r.value.world.net,
                           pt := if p > 0 then w.pt.(balance := w.pt.balance[from := At(w.pt.balance, from) - p],
                                                     totalSupply := w.pt.totalSupply - p) else w.pt,
                           yt := if y > 0 then
                                   w.yt.(ledger := Apply(Apply(Indexed(w), Destroy(from, y)), Claim(from)))
                                 else w.yt)
                      && SameSurroundings(w.net, r.value.world.net)
                      && Funded(c, r.value.world)
                      && Custody(c, r.value.world) == Custody(c, w) - r.value.fromPt - r.value.fromYt
  {
    var r := PM.Redeem(c, w, auth, from, p, y);
    if r.Ok? {
      RedeemPtEffect(c, w, from, p, PriceOf(w));
      var w1 := PM.RedeemPt(c, w, from, p, PriceOf(w)).value.world;
      assert w1.yt == w.yt && w1.oracle == w.oracle && w1.net.now == w.net.now;
      if y > 0 {
        UpdateEffect(w1);
        var burnt := PM.RedeemYt(c, w1, from, y);
        assert burnt.Ok?;
        PayClaimEffect(c, w1.(yt := w.yt.(ledger := Apply(Indexed(w), Destroy(from, y)))), from);
      }
    }
  }

  lemma ClaimEffect(c: Config, w: World, auth: Address, from: Address)
    requires c.Valid() && Funded(c, w) && w.oracle.reading.Some?
    ensures var r := PM.ClaimYield(c, w, auth, from);
            r.Ok? ==> && auth == from && from in w.net.authorized && from in w.net.allowed
                      && r.value.amount == Claimable(Indexed(w), from) <= Custody(c, w)
                      && (r.value.amount > 0 ==> c.pm in w.net.authorized && c.pm in w.net.allowed)
                      && r.value.world == w.(
                           sy := Drawn(c, w.sy, r.value.amount),
                           net := r.value.world.net,
                           yt := w.yt.(ledger := Apply(Indexed(w), Claim(from))))
                      && SameSurroundings(w.net, r.value.world.net)
                      && Funded(c, r.value.world)
                      && Custody(c, r.value.world) == Custody(c, w) - r.value.amount
  {
    UpdateEffect(w);
    if PM.ClaimYield(c, w, auth, from).Ok? {
      PayClaimEffect(c, w.(yt := w.yt.(ledger := Indexed(w))), from);
    }
  }

  /** Seized shares leave the account and are unwrapped at once, one to one, for the escrow. */
  lemma SeizeSyEffect(c: Config, w: World, auth: Address, caller: Address, account: Address, n: int)
    requires c.Valid() && Funded(c, w)
    ensures var r := RecoveryEscrow.SeizeSy(c, w, auth, caller, account, n);
            r.Ok? ==> && caller == w.net.admin && account !in w.net.authorized
                      && 0 < n <= At(w.sy.balance, account)
                      && c.escrow in w.net.authorized && c.escrow in w.net.allowed
                      && r.value.amount == n
                      && r.value.world == w.(sy := r.value.world.sy, net := r.value.world.net)
                      && r.value.world.sy ==
                         SYWrapper.Debited(w.sy.(balance := Moved(w.sy.balance, account, c.escrow, n)), c.escrow, n, n)
                      && SameSurroundings(w.net, r.value.world.net)
                      && Funded(c, r.value.world)
  {
    var s := SYWrapper.Seize(w.sy, c.escrow, c.escrow, c.escrow, account, n);
    if s.Ok? {
      SYWrapper.SeizeKeeps(w.sy, c.escrow, c.escrow, c.escrow, account, n);
      SYWrapper.WithdrawKeeps(s.value, w.net, c.sy, c.escrow, c.escrow, n, c.escrow);
    }
  }
}
