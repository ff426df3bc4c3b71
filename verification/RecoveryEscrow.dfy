/** Issuer-driven recovery: seize a deauthorized holder's position, then unwind it to underlying. */
module RecoveryEscrow {
  import opened Base
  import opened Network
  import opened World
  import SYWrapper
  import PTToken
  import YTToken
  import PrincipalManager

  datatype Recovered = Recovered(world: World, amount: int)

  /** The caller is the asset's live admin. */
  predicate IssuerAdmin(net: Net, auth: Address, caller: Address) {
    auth == caller == net.admin
  }

  function Deauthorized(net: Net, account: Address): Check {
    Need(account !in net.authorized, TargetStillAuthorized)
  }

  function SeizeSy(c: Config, w: World, auth: Address, caller: Address, account: Address,
      shares: int): Result<Recovered>
  {
    if !IssuerAdmin(w.net, auth, caller) then Err(Unauthorized) else
    :- Deauthorized(w.net, account);
    :- Need(shares > 0, ZeroAmount);
    var sy :- SYWrapper.Seize(w.sy, c.escrow, c.escrow, c.escrow, account, shares);
    var o :- SYWrapper.Withdraw(sy, w.net, c.sy, c.escrow, c.escrow, shares, c.escrow);
    Ok(Recovered(w.(sy := o.sy, net := o.net), o.amount))
  }

  function SeizePt(c: Config, w: World, auth: Address, caller: Address, account: Address,
      amount: int): Result<Recovered>
  {
    if !IssuerAdmin(w.net, auth, caller) then Err(Unauthorized) else
    :- Deauthorized(w.net, account);
    :- Need(amount > 0, ZeroAmount);
    var pt :- PTToken.Seize(w.pt, c.PtWiring(), c.escrow, c.escrow, account, amount);
    Ok(Recovered(w.(pt := pt), amount))
  }

  function SeizeYt(c: Config, w: World, auth: Address, caller: Address, account: Address,
      amount: int): Result<Recovered>
  {
    if !IssuerAdmin(w.net, auth, caller) then Err(Unauthorized) else
    :- Deauthorized(w.net, account);
    :- Need(amount > 0, ZeroAmount);
    var yt :- YTToken.Seize(w.yt, c.YtWiring(), c.escrow, c.escrow, account, amount);
    Ok(Recovered(w.(yt := yt), amount))
  }

  /** Redeems the escrow's own PT through the manager; maturity is checked there. */
  function FinalizePt(c: Config, w: World, auth: Address, caller: Address, amount: int): Result<Recovered> {
    if !IssuerAdmin(w.net, auth, caller) then Err(Unauthorized) else
    :- Need(amount > 0, ZeroAmount);
    var o :- PrincipalManager.Redeem(c, w, c.escrow, c.escrow, amount, 0);
    Ok(Recovered(o.world, o.fromPt))
  }

  function FinalizeYt(c: Config, w: World, auth: Address, caller: Address, amount: int): Result<Recovered> {
    if !IssuerAdmin(w.net, auth, caller) then Err(Unauthorized) else
    :- Need(amount > 0, ZeroAmount);
    var o :- PrincipalManager.Redeem(c, w, c.escrow, c.escrow, 0, amount);
    Ok(Recovered(o.world, o.fromYt))
  }

  // ---- the contract ----

  class Contract {
    const manager: PrincipalManager.Contract

    constructor (manager: PrincipalManager.Contract)
      ensures this.manager == manager
    {
      this.manager := manager;
    }

    method SeizeShares(auth: Address, caller: Address, account: Address, shares: int) returns (r: Result<int>)
      requires manager.Wired()
      modifies manager.sy, manager.chain
      ensures match SeizeSy(manager.config, old(manager.WorldState()), auth, caller, account, shares)
              case Ok(o) => r == Ok(o.amount) && manager.WorldState() == o.world
              case Err(e) => r == Err(e)
    {
      if !IssuerAdmin(manager.chain.State(), auth, caller) {
        return Err(Unauthorized);
      }
      :- Deauthorized(manager.chain.State(), account);
      :- Need(shares > 0, ZeroAmount);
      var self := manager.config.escrow;
      var _ :- manager.sy.SeizeShares(self, self, account, shares);
      r := manager.sy.WithdrawUnderlying(manager.chain, self, self, shares, self);
    }

    method SeizePrincipal(auth: Address, caller: Address, account: Address, amount: int) returns (r: Result<int>)
      requires manager.Wired()
      modifies manager.pt
      ensures match SeizePt(manager.config, old(manager.WorldState()), auth, caller, account, amount)
              case Ok(o) => r == Ok(o.amount) && manager.WorldState() == o.world
              case Err(e) => r == Err(e)
    {
      if !IssuerAdmin(manager.chain.State(), auth, caller) {
        return Err(Unauthorized);
      }
      :- Deauthorized(manager.chain.State(), account);
      :- Need(amount > 0, ZeroAmount);
      var self := manager.config.escrow;
      r := manager.pt.SeizeTokens(self, self, account, amount);
    }

    method SeizeYield(auth: Address, caller: Address, account: Address, amount: int) returns (r: Result<int>)
      requires manager.Wired()
      modifies manager.yt
      ensures match SeizeYt(manager.config, old(manager.WorldState()), auth, caller, account, amount)
              case Ok(o) => r == Ok(o.amount) && manager.WorldState() == o.world
              case Err(e) => r == Err(e)
    {
      if !IssuerAdmin(manager.chain.State(), auth, caller) {
        return Err(Unauthorized);
      }
      :- Deauthorized(manager.chain.State(), account);
      :- Need(amount > 0, ZeroAmount);
      var self := manager.config.escrow;
      r := manager.yt.SeizeTokens(self, self, account, amount);
    }

    method FinalizePrincipal(auth: Address, caller: Address, amount: int) returns (r: Result<int>)
      requires manager.Wired()
      modifies manager.sy, manager.pt, manager.yt, manager.chain
      ensures match FinalizePt(manager.config, old(manager.WorldState()), auth, caller, amount)
              case Ok(o) => r == Ok(o.amount) && manager.WorldState() == o.world
              case Err(e) => r == Err(e)
    {
      if !IssuerAdmin(manager.chain.State(), auth, caller) {
        return Err(Unauthorized);
      }
      :- Need(amount > 0, ZeroAmount);
      var self := manager.config.escrow;
      var o :- manager.RedeemBoth(self, self, amount, 0);
      r := Ok(o.0);
    }

    method FinalizeYield(auth: Address, caller: Address, amount: int) returns (r: Result<int>)
      requires manager.Wired()
      modifies manager.sy, manager.pt, manager.yt, manager.chain
      ensures match FinalizeYt(manager.config, old(manager.WorldState()), auth, caller, amount)
              case Ok(o) => r == Ok(o.amount) && manager.WorldState() == o.world
              case Err(e) => r == Err(e)
    {
      if !IssuerAdmin(manager.chain.State(), auth, caller) {
        return Err(Unauthorized);
      }
      :- Need(amount > 0, ZeroAmount);
      var self := manager.config.escrow;
      var o :- manager.RedeemBoth(self, self, 0, amount);
      r := Ok(o.1);
    }
  }
}
