/** The engine that splits SY shares into PT and YT, redeems them after maturity and pays out
    accrued yield. It moves value across the wrapper, both tokens and the oracle. */
module PrincipalManager {
  import opened Base
  import opened Network
  import opened World
  import OracleAdapter
  import SYWrapper
  import PTToken
  import YTToken

  datatype Minted = Minted(world: World, notional: int)

  datatype Paid = Paid(world: World, amount: int)

  datatype Redeemed = Redeemed(world: World, fromPt: int, fromYt: int)

  predicate OracleFresh(w: World) {
    OracleAdapter.Fresh(w.oracle, w.net.now, MAX_ORACLE_STALENESS_SECS)
  }

  /** Notional value of SY shares at an oracle rate. */
  function Notional(shares: int, rate: int): int {
    shares * rate / SCALE
  }

  /** Underlying that PT of a given notional is redeemed for at a final rate. */
  function Principal(ptAmount: int, rate: OracleAdapter.Price): int {
    ptAmount * SCALE / rate
  }

  function SetPaused(m: Manager, auth: Address, paused: bool): Result<Manager> {
    if auth != m.admin then Err(Unauthorized) else
    Ok(m.(paused := paused))
  }

  /** Split shares: custody first, then the index is brought current, then PT and YT are minted. */
  function Mint(c: Config, w: World, auth: Address, from: Address, shares: int): Result<Minted> {
    if auth != from then Err(Unauthorized) else
    :- Need(!w.manager.paused, Paused);
    :- Need(w.net.now < c.maturity, AlreadyMature);
    :- Need(OracleFresh(w), OracleStale);
    :- Need(shares > 0, ZeroAmount);
    :- SacAuthorized(w.net, from);
    :- Permitted(w.net, from);
    var rate :- OracleAdapter.ReferenceValue(w.oracle);
    var notional := Notional(shares, rate);
    var sy :- SYWrapper.Transfer(w.sy, w.net, from, from, c.pm, shares);
    var current :- YTToken.UpdateYieldIndex(w.yt, w.oracle, w.net.now);
    var pt :- PTToken.Mint(w.pt, c.PtWiring(), w.net, c.pm, from, notional);
    var yt :- YTToken.Mint(current, c.YtWiring(), w.net, c.pm, from, notional);
    Ok(Minted(w.(sy := sy, pt := pt, yt := yt), notional))
  }

  function SharesFor(exchangeRate: int, underlying: int): Result<int> {
    if exchangeRate == 0 then Err(DivisionByZero) else Ok(underlying * SCALE / exchangeRate)
  }

  /** Pays underlying out of the manager's own SY custody. */
  function PayOut(c: Config, w: World, to: Address, underlying: int): Result<Paid> {
    var shares :- SharesFor(SYWrapper.ExchangeRate(w.sy), underlying);
    var o :- SYWrapper.Withdraw(w.sy, w.net, c.sy, c.pm, c.pm, shares, to);
    Ok(Paid(w.(sy := o.sy, net := o.net), o.amount))
  }

  /** A leg with a non-positive amount is skipped, not refused. */
  function RedeemPt(c: Config, w: World, from: Address, amount: int, finalRate: OracleAdapter.Price): Result<Paid> {
    if amount <= 0 then Ok(Paid(w, 0)) else
      var pt :- PTToken.Burn(w.pt, c.PtWiring(), c.pm, from, amount);
      PayOut(c, w.(pt := pt), from, Principal(amount, finalRate))
  }

  function RedeemYt(c: Config, w: World, from: Address, amount: int): Result<Paid> {
    if amount <= 0 then Ok(Paid(w, 0)) else
      var current :- YTToken.UpdateYieldIndex(w.yt, w.oracle, w.net.now);
      var burnt :- YTToken.Burn(current, c.YtWiring(), c.pm, from, amount);
      PayClaim(c, w.(yt := burnt), from)
  }

  function PayClaim(c: Config, w: World, from: Address): Result<Paid> {
    var claim :- YTToken.ClaimYield(w.yt, c.YtWiring(), c.pm, c.pm, from);
    if claim.amount > 0 then PayOut(c, w.(yt := claim.yt), from, claim.amount)
    else Ok(Paid(w.(yt := claim.yt), 0))
  }

  function Redeem(c: Config, w: World, auth: Address, from: Address, ptAmount: int, ytAmount: int): Result<Redeemed> {
    if auth != from then Err(Unauthorized) else
    :- Need(!w.manager.paused, Paused);
    :- Need(w.net.now >= c.maturity, NotMature);
    :- Need(OracleFresh(w), OracleStale);
    :- SacAuthorized(w.net, from);
    :- Permitted(w.net, from);
    :- Need(ptAmount != 0 || ytAmount != 0, ZeroAmount);
    var finalRate :- OracleAdapter.ReferenceValue(w.oracle);
    var p :- RedeemPt(c, w, from, ptAmount, finalRate);
    var y :- RedeemYt(c, p.world, from, ytAmount);
    Ok(Redeemed(y.world, p.amount, y.amount))
  }

  function ClaimYield(c: Config, w: World, auth: Address, from: Address): Result<Paid> {
    if auth != from then Err(Unauthorized) else
    :- Need(!w.manager.paused, Paused);
    :- Need(OracleFresh(w), OracleStale);
    :- SacAuthorized(w.net, from);
    :- Permitted(w.net, from);
    var current :- YTToken.UpdateYieldIndex(w.yt, w.oracle, w.net.now);
    PayClaim(c, w.(yt := current), from)
  }

  // ---- the contract ----

  class Contract {
    const config: Config
    const chain: Chain
    const oracle: OracleAdapter.Adapter
    const sy: SYWrapper.Contract
    const pt: PTToken.Contract
    const yt: YTToken.Contract
    var admin: Address
    var paused: bool

    constructor (config: Config, chain: Chain, oracle: OracleAdapter.Adapter, sy: SYWrapper.Contract,
        pt: PTToken.Contract, yt: YTToken.Contract, admin: Address)
      ensures this.config == config && this.chain == chain && this.oracle == oracle
      ensures this.sy == sy && this.pt == pt && this.yt == yt
      ensures ManagerState() == Manager(admin, false)
    {
      this.config, this.chain, this.oracle := config, chain, oracle;
      this.sy, this.pt, this.yt, this.admin, this.paused := sy, pt, yt, admin, false;
    }

    /** What the topology check established about the wired contracts. */
    ghost predicate Wired()
      reads this, oracle
    {
      && oracle.Valid()
      && sy.self == config.sy && sy.escrow == config.escrow
      && pt.wiring == config.PtWiring()
      && yt.wiring == config.YtWiring()
    }

    function ManagerState(): Manager
      reads this
    {
      Manager(admin, paused)
    }

    function WorldState(): World
      reads this, chain, oracle, sy, pt, yt
    {
      World(chain.State(), oracle.State(), sy.State(), pt.State(), yt.State(), ManagerState())
    }

    method Restore(m: Manager)
      modifies this
      ensures ManagerState() == m
    {
      admin, paused := m.admin, m.paused;
    }

    method SetPause(auth: Address, value: bool) returns (r: Result<()>)
      modifies this
      ensures match SetPaused(old(ManagerState()), auth, value)
              case Ok(m) => r == Ok(()) && ManagerState() == m
              case Err(e) => r == Err(e) && ManagerState() == old(ManagerState())
    {
      if auth != admin {
        return Err(Unauthorized);
      }
      paused := value;
      r := Ok(());
    }

    method SplitShares(auth: Address, from: Address, shares: int) returns (r: Result<int>)
      requires Wired()
      modifies sy, pt, yt
      ensures match Mint(config, old(WorldState()), auth, from, shares)
              case Ok(m) => r == Ok(m.notional) && WorldState() == m.world
              case Err(e) => r == Err(e)
    {
      if auth != from {
        return Err(Unauthorized);
      }
      :- Need(!paused, Paused);
      :- Need(chain.now < config.maturity, AlreadyMature);
      var ok := oracle.IsFresh(chain.now, MAX_ORACLE_STALENESS_SECS);
      :- Need(ok, OracleStale);
      :- Need(shares > 0, ZeroAmount);
      :- SacAuthorized(chain.State(), from);
      :- Permitted(chain.State(), from);
      var rate :- oracle.GetReferenceValue();
      var notional := shares * rate / SCALE;
      var _ :- sy.MoveShares(chain, from, from, config.pm, shares);
      var _ :- yt.UpdateIndex(chain, oracle);
      var _ :- pt.MintTokens(chain, config.pm, from, notional);
      var _ :- yt.MintTokens(chain, config.pm, from, notional);
      r := Ok(notional);
    }

    method Pay(to: Address, underlying: int) returns (r: Result<int>)
      requires Wired()
      modifies sy, chain
      ensures match PayOut(config, old(WorldState()), to, underlying)
              case Ok(p) => r == Ok(p.amount) && WorldState() == p.world
              case Err(e) => r == Err(e)
    {
      var rate := sy.GetExchangeRate();
      :- Need(rate != 0, DivisionByZero);
      var shares := underlying * SCALE / rate;
      r := sy.WithdrawUnderlying(chain, config.pm, config.pm, shares, to);
    }

    /** Claims as the registered minter and pays what the claim returns, if anything. */
    method ClaimAndPay(from: Address) returns (r: Result<int>)
      requires Wired()
      modifies sy, yt, chain
      ensures match PayClaim(config, old(WorldState()), from)
              case Ok(p) => r == Ok(p.amount) && WorldState() == p.world
              case Err(e) => r == Err(e)
    {
      var claimed := yt.Claim(config.pm, config.pm, from);
      var desired := claimed.value;
      var paid := 0;
      if desired > 0 {
        paid :- Pay(from, desired);
      }
      r := Ok(paid);
    }

    method RedeemBoth(auth: Address, from: Address, ptAmount: int, ytAmount: int) returns (r: Result<(int, int)>)
      requires Wired()
      modifies sy, pt, yt, chain
      ensures match Redeem(config, old(WorldState()), auth, from, ptAmount, ytAmount)
              case Ok(o) => r == Ok((o.fromPt, o.fromYt)) && WorldState() == o.world
              case Err(e) => r == Err(e)
    {
      if auth != from {
        return Err(Unauthorized);
      }
      :- Need(!paused, Paused);
      :- Need(chain.now >= config.maturity, NotMature);
      var ok := oracle.IsFresh(chain.now, MAX_ORACLE_STALENESS_SECS);
      :- Need(ok, OracleStale);
      :- SacAuthorized(chain.State(), from);
      :- Permitted(chain.State(), from);
      :- Need(ptAmount != 0 || ytAmount != 0, ZeroAmount);
      var finalRate :- oracle.GetReferenceValue();
      var fromPt, fromYt := 0, 0;
      if ptAmount > 0 {
        var _ :- pt.BurnTokens(config.pm, from, ptAmount);
        fromPt :- Pay(from, ptAmount * SCALE / finalRate);
      }
      if ytAmount > 0 {
        var _ :- yt.UpdateIndex(chain, oracle);
        var _ :- yt.BurnTokens(config.pm, from, ytAmount);
        fromYt :- ClaimAndPay(from);
      }
      r := Ok((fromPt, fromYt));
    }

    method ClaimAccrued(auth: Address, from: Address) returns (r: Result<int>)
      requires Wired()
      modifies sy, yt, chain
      ensures match ClaimYield(config, old(WorldState()), auth, from)
              case Ok(p) => r == Ok(p.amount) && WorldState() == p.world
              case Err(e) => r == Err(e)
    {
      if auth != from {
        return Err(Unauthorized);
      }
      :- Need(!paused, Paused);
      var ok := oracle.IsFresh(chain.now, MAX_ORACLE_STALENESS_SECS);
      :- Need(ok, OracleStale);
      :- SacAuthorized(chain.State(), from);
      :- Permitted(chain.State(), from);
      var _ :- yt.UpdateIndex(chain, oracle);
      r := ClaimAndPay(from);
    }
  }
}
