/** The principal token: a SEP-0041 ledger (Stellar token interface, "Interface" section of its
    Specification) with a single minter, two-layer transfer gates and seizure by the escrow. */
module PTToken {
  import opened Base
  import opened Network
  import opened Sep41

  datatype Pt = Pt(balance: Balances, allowances: Allowances, totalSupply: int)

  function Fresh(): Pt {
    Pt(map[], map[], 0)
  }

  function Transfer(p: Pt, k: Wiring, net: Net, auth: Address, from: Address, to: Address, amount: int): Result<Pt> {
    if auth != from then Err(Unauthorized) else
    :- Need(amount > 0, ZeroAmount);
    :- TransferGate(net, k.self, from, to);
    :- Need(At(p.balance, from) >= amount, InsufficientBalance);
    Ok(p.(balance := Moved(p.balance, from, to, amount)))
  }

  function TransferFrom(p: Pt, k: Wiring, net: Net, auth: Address, spender: Address, from: Address, to: Address,
      amount: int): Result<Pt>
  {
    if auth != spender then Err(Unauthorized) else
    :- Need(amount > 0, ZeroAmount);
    :- TransferGate(net, k.self, from, to);
    var allowance := AllowanceOf(p.allowances, from, spender);
    :- Need(allowance.amount >= amount, InsufficientAllowance);
    :- Need(allowance.expiration >= net.sequence, InsufficientAllowance);
    :- Need(At(p.balance, from) >= amount, InsufficientBalance);
    Ok(p.(balance := Moved(p.balance, from, to, amount),
          allowances := p.allowances[(from, spender) := Allowance(allowance.amount - amount, allowance.expiration)]))
  }

  function Approve(p: Pt, auth: Address, from: Address, spender: Address, amount: int, expiration: nat): Result<Pt> {
    if auth != from then Err(Unauthorized) else
    :- Need(amount >= 0, ZeroAmount);
    Ok(p.(allowances := p.allowances[(from, spender) := Allowance(amount, expiration)]))
  }

  function Mint(p: Pt, k: Wiring, net: Net, auth: Address, to: Address, amount: int): Result<Pt> {
    if auth != k.minter then Err(Unauthorized) else
    :- Need(amount > 0, ZeroAmount);
    :- SacAuthorized(net, to);
    :- PermittedFor(net, to, k.self);
    Ok(p.(balance := p.balance[to := At(p.balance, to) + amount], totalSupply := p.totalSupply + amount))
  }

  function Burn(p: Pt, k: Wiring, auth: Address, from: Address, amount: int): Result<Pt> {
    if auth != k.minter then Err(Unauthorized) else
    :- Need(amount > 0, ZeroAmount);
    :- Need(At(p.balance, from) >= amount, InsufficientBalance);
    Ok(p.(balance := p.balance[from := At(p.balance, from) - amount], totalSupply := p.totalSupply - amount))
  }

  function Seize(p: Pt, k: Wiring, auth: Address, caller: Address, account: Address, amount: int): Result<Pt> {
    if auth != caller then Err(Unauthorized) else
    :- Need(caller == k.escrow, NotRecoveryEscrow);
    :- Need(amount > 0, ZeroAmount);
    :- Need(At(p.balance, account) >= amount, InsufficientBalance);
    Ok(p.(balance := Moved(p.balance, account, caller, amount)))
  }

  // ---- the supply ledger ----

  ghost predicate Balanced(p: Pt) {
    p.totalSupply == Total(p.balance)
  }

  /** No transfer or seizure, to oneself or to another, changes the supply or unbalances it. */
  lemma MovesKeepSupply(p: Pt, k: Wiring, net: Net, auth: Address, spender: Address, from: Address, to: Address,
      amount: int)
    requires Balanced(p)
    ensures forall r | r == Transfer(p, k, net, auth, from, to, amount)
                       || r == TransferFrom(p, k, net, auth, spender, from, to, amount)
                       || r == Seize(p, k, auth, to, from, amount) ::
              r.Ok? ==> Balanced(r.value) && r.value.totalSupply == p.totalSupply
  {
    if 0 <= amount <= At(p.balance, from) {
      TotalMoved(p.balance, from, to, amount);
    }
  }

  lemma MintKeepsBalance(p: Pt, k: Wiring, net: Net, auth: Address, to: Address, amount: int)
    requires Balanced(p)
    ensures var r := Mint(p, k, net, auth, to, amount);
            r.Ok? ==> Balanced(r.value) && r.value.totalSupply == p.totalSupply + amount
  {
    if amount > 0 {
      TotalUpdate(p.balance, to, At(p.balance, to) + amount);
    }
  }

  lemma BurnKeepsBalance(p: Pt, k: Wiring, auth: Address, from: Address, amount: int)
    requires Balanced(p)
    ensures var r := Burn(p, k, auth, from, amount);
            r.Ok? ==> Balanced(r.value) && r.value.totalSupply == p.totalSupply - amount >= 0
  {
    if 0 < amount <= At(p.balance, from) {
      TotalUpdate(p.balance, from, At(p.balance, from) - amount);
      AtMostTotal(p.balance, from);
    }
  }

  // ---- the contract ----

  class Contract {
    const wiring: Wiring
    var balance: Balances
    var allowances: Allowances
    var totalSupply: int

    constructor (wiring: Wiring)
      ensures State() == Fresh() && this.wiring == wiring
    {
      this.wiring := wiring;
      balance, allowances, totalSupply := map[], map[], 0;
    }

    /** Market creation: only the issuer of the underlying asset may stand up a principal token. */
    static method Create(chain: Chain, wiring: Wiring, auth: Address, admin: Address) returns (r: Result<Contract>)
      ensures r.Ok? <==> auth == admin == chain.admin
      ensures r.Err? ==> r.error == if auth != admin then Unauthorized else IssuerMismatch
      ensures r.Ok? ==> fresh(r.value) && r.value.wiring == wiring
      ensures r.Ok? ==> r.value.State() == Pt(map[], map[], 0)
    {
      if auth != admin {
        return Err(Unauthorized);
      }
      :- Need(admin == chain.admin, IssuerMismatch);
      var token := new Contract(wiring);
      r := Ok(token);
    }

    function State(): Pt
      reads this
    {
      Pt(balance, allowances, totalSupply)
    }

    method Restore(p: Pt)
      modifies this
      ensures State() == p
    {
      balance, allowances, totalSupply := p.balance, p.allowances, p.totalSupply;
    }

    method TransferTokens(chain: Chain, auth: Address, from: Address, to: Address, amount: int) returns (r: Result<()>)
      modifies this
      ensures match Transfer(old(State()), wiring, chain.State(), auth, from, to, amount)
              case Ok(p) => r == Ok(()) && State() == p
              case Err(e) => r == Err(e) && State() == old(State())
    {
      if auth != from {
        return Err(Unauthorized);
      }
      :- Need(amount > 0, ZeroAmount);
      :- TransferGate(chain.State(), wiring.self, from, to);
      var fromBalance := At(balance, from);
      :- Need(fromBalance >= amount, InsufficientBalance);
      balance := balance[from := fromBalance - amount];
      var toBalance := At(balance, to);
      balance := balance[to := toBalance + amount];
      r := Ok(());
    }

    method TransferTokensFrom(chain: Chain, auth: Address, spender: Address, from: Address, to: Address, amount: int)
        returns (r: Result<()>)
      modifies this
      ensures match TransferFrom(old(State()), wiring, chain.State(), auth, spender, from, to, amount)
              case Ok(p) => r == Ok(()) && State() == p
              case Err(e) => r == Err(e) && State() == old(State())
    {
      if auth != spender {
        return Err(Unauthorized);
      }
      :- Need(amount > 0, ZeroAmount);
      :- TransferGate(chain.State(), wiring.self, from, to);
      var allowance := AllowanceOf(allowances, from, spender);
      :- Need(allowance.amount >= amount, InsufficientAllowance);
      :- Need(allowance.expiration >= chain.sequence, InsufficientAllowance);
      var fromBalance := At(balance, from);
      :- Need(fromBalance >= amount, InsufficientBalance);
      balance := balance[from := fromBalance - amount];
      var toBalance := At(balance, to);
      balance := balance[to := toBalance + amount];
      allowances := allowances[(from, spender) := Allowance(allowance.amount - amount, allowance.expiration)];
      r := Ok(());
    }

    method ApproveSpender(auth: Address, from: Address, spender: Address, amount: int, expiration: nat)
        returns (r: Result<()>)
      modifies this
      ensures match Approve(old(State()), auth, from, spender, amount, expiration)
              case Ok(p) => r == Ok(()) && State() == p
              case Err(e) => r == Err(e) && State() == old(State())
    {
      if auth != from {
        return Err(Unauthorized);
      }
      :- Need(amount >= 0, ZeroAmount);
      allowances := allowances[(from, spender) := Allowance(amount, expiration)];
      r := Ok(());
    }

    method MintTokens(chain: Chain, auth: Address, to: Address, amount: int) returns (r: Result<()>)
      modifies this
      ensures match Mint(old(State()), wiring, chain.State(), auth, to, amount)
              case Ok(p) => r == Ok(()) && State() == p
              case Err(e) => r == Err(e) && State() == old(State())
    {
      if auth != wiring.minter {
        return Err(Unauthorized);
      }
      :- Need(amount > 0, ZeroAmount);
      :- SacAuthorized(chain.State(), to);
      :- PermittedFor(chain.State(), to, wiring.self);
      balance := balance[to := At(balance, to) + amount];
      totalSupply := totalSupply + amount;
      r := Ok(());
    }

    method BurnTokens(auth: Address, from: Address, amount: int) returns (r: Result<()>)
      modifies this
      ensures match Burn(old(State()), wiring, auth, from, amount)
              case Ok(p) => r == Ok(()) && State() == p
              case Err(e) => r == Err(e) && State() == old(State())
    {
      if auth != wiring.minter {
        return Err(Unauthorized);
      }
      :- Need(amount > 0, ZeroAmount);
      :- Need(At(balance, from) >= amount, InsufficientBalance);
      balance := balance[from := At(balance, from) - amount];
      totalSupply := totalSupply - amount;
      r := Ok(());
    }

    method SeizeTokens(auth: Address, caller: Address, account: Address, amount: int) returns (r: Result<int>)
      modifies this
      ensures match Seize(old(State()), wiring, auth, caller, account, amount)
              case Ok(p) => r == Ok(amount) && State() == p
              case Err(e) => r == Err(e) && State() == old(State())
    {
      if auth != caller {
        return Err(Unauthorized);
      }
      :- Need(caller == wiring.escrow, NotRecoveryEscrow);
      :- Need(amount > 0, ZeroAmount);
      :- Need(At(balance, account) >= amount, InsufficientBalance);
      balance := balance[account := At(balance, account) - amount];
      balance := balance[caller := At(balance, caller) + amount];
      r := Ok(amount);
    }
  }
}
