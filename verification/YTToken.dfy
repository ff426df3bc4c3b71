/** The yield token: the accrual engine behind the gates of a SEP-0041 token, with minter-only
    mint, burn and claim, permissionless index updates and seizure by the escrow. */
module YTToken {
  import opened Base
  import opened Network
  import opened Sep41
  import opened OracleAdapter
  import opened YieldLedger

  datatype Yt = Yt(ledger: Ledger, allowances: Allowances)

  datatype Claimed = Claimed(yt: Yt, amount: nat)

  function Transfer(y: Yt, k: Wiring, net: Net, auth: Address, from: Address, to: Address, amount: int): Result<Yt> {
    if auth != from then Err(Unauthorized) else
    :- Need(amount > 0, ZeroAmount);
    :- TransferGate(net, k.self, from, to);
    :- Need(At(y.ledger.balance, from) >= amount, InsufficientBalance);
    Ok(y.(ledger := Apply(y.ledger, Move(from, to, amount))))
  }

  function TransferFrom(y: Yt, k: Wiring, net: Net, auth: Address, spender: Address, from: Address, to: Address,
      amount: int): Result<Yt>
  {
    if auth != spender then Err(Unauthorized) else
    :- Need(amount > 0, ZeroAmount);
    :- TransferGate(net, k.self, from, to);
    var allowance := AllowanceOf(y.allowances, from, spender);
    :- Need(allowance.amount >= amount && allowance.expiration >= net.sequence, InsufficientAllowance);
    :- Need(At(y.ledger.balance, from) >= amount, InsufficientBalance);
    Ok(Yt(Apply(y.ledger, Move(from, to, amount)),
          y.allowances[(from, spender) := Allowance(allowance.amount - amount, allowance.expiration)]))
  }

  function Approve(y: Yt, auth: Address, from: Address, spender: Address, amount: int, expiration: nat): Result<Yt> {
    if auth != from then Err(Unauthorized) else
    :- Need(amount >= 0, ZeroAmount);
    Ok(y.(allowances := y.allowances[(from, spender) := Allowance(amount, expiration)]))
  }

  function Mint(y: Yt, k: Wiring, net: Net, auth: Address, to: Address, amount: int): Result<Yt> {
    if auth != k.minter then Err(Unauthorized) else
    :- Need(amount > 0, ZeroAmount);
    :- SacAuthorized(net, to);
    :- PermittedFor(net, to, k.self);
    Ok(y.(ledger := Apply(y.ledger, Issue(to, amount))))
  }

  function Burn(y: Yt, k: Wiring, auth: Address, from: Address, amount: int): Result<Yt> {
    if auth != k.minter then Err(Unauthorized) else
    :- Need(amount > 0, ZeroAmount);
    :- Need(At(y.ledger.balance, from) >= amount, InsufficientBalance);
    Ok(y.(ledger := Apply(y.ledger, Destroy(from, amount))))
  }

  function Seize(y: Yt, k: Wiring, auth: Address, caller: Address, account: Address, amount: int): Result<Yt> {
    if auth != caller then Err(Unauthorized) else
    :- Need(caller == k.escrow, NotRecoveryEscrow);
    :- Need(amount > 0, ZeroAmount);
    :- Need(At(y.ledger.balance, account) >= amount, InsufficientBalance);
    Ok(y.(ledger := Apply(y.ledger, Move(account, caller, amount))))
  }

  /** Permissionless; a rate that is not above the recorded one changes nothing. */
  function UpdateYieldIndex(y: Yt, oracle: Oracle, now: nat): Result<Yt> {
    if !OracleAdapter.Fresh(oracle, now, MAX_ORACLE_STALENESS_SECS) then Err(OracleStale) else
    var price :- ReferenceValue(oracle);
    if price > y.ledger.rate then Ok(y.(ledger := Apply(y.ledger, Index(price))))
    else Ok(y)
  }

  function ClaimYield(y: Yt, k: Wiring, auth: Address, caller: Address, from: Address): Result<Claimed> {
    if auth != caller then Err(Unauthorized) else
    :- Need(caller == k.minter, Unauthorized);
    Ok(Claimed(y.(ledger := Apply(y.ledger, Claim(from))), Claimable(y.ledger, from)))
  }

  /** Genesis: the index starts at SCALE and is measured against the live, fresh oracle rate. */
  function Initialize(net: Net, oracle: Oracle, auth: Address, admin: Address): Result<Yt> {
    if auth != admin then Err(Unauthorized) else
    :- Need(admin == net.admin, IssuerMismatch);
    :- Need(OracleAdapter.Fresh(oracle, net.now, MAX_ORACLE_STALENESS_SECS), OracleStale);
    var price :- ReferenceValue(oracle);
    Ok(Yt(Genesis(price), map[]))
  }

  /** Genesis: a token is created if and only if the issuer signs and the price is live, at most an hour old
      and not ahead of the clock; its index is SCALE and measured against that price, and nobody holds any. */
  lemma InitializeExactly(net: Net, oracle: Oracle, auth: Address, admin: Address)
    ensures var r := Initialize(net, oracle, auth, admin);
            && (r.Ok? <==>
                 && auth == admin == net.admin
                 && oracle.reading.Some?
                 && oracle.reading.value.timestamp <= net.now <= oracle.reading.value.timestamp + 3_600)
            && (r.Ok? ==>
                 && r.value.ledger.index == SCALE && r.value.ledger.rate == oracle.reading.value.price
                 && r.value.ledger.supply == 0 && r.value.ledger.balance == map[]
                 && r.value.ledger.snapshot == map[] && r.value.ledger.pending == map[] && r.value.allowances == map[])
  {
    FreshIff(oracle, net.now, MAX_ORACLE_STALENESS_SECS);
  }

  // ---- the contract ----

  class Contract {
    const wiring: Wiring
    var yieldIndex: nat
    var lastOracleRate: nat
    var balance: Balances
    var lastClaimedIndex: Balances
    var pendingClaim: Balances
    var totalSupply: int
    var allowances: Allowances

    constructor (wiring: Wiring, genesisRate: nat)
      ensures State() == Yt(Genesis(genesisRate), map[]) && this.wiring == wiring
    {
      this.wiring := wiring;
      yieldIndex, lastOracleRate := SCALE, genesisRate;
      balance, lastClaimedIndex, pendingClaim, allowances := map[], map[], map[], map[];
      totalSupply := 0;
    }

    static method Create(chain: Chain, oracle: Adapter, wiring: Wiring, auth: Address, admin: Address)
      returns (r: Result<Contract>)
      requires oracle.Valid()
      ensures match Initialize(chain.State(), oracle.State(), auth, admin)
              case Ok(y) => r.Ok? && fresh(r.value) && r.value.State() == y && r.value.wiring == wiring
              case Err(e) => r == Err(e)
    {
      if auth != admin {
        return Err(Unauthorized);
      }
      :- Need(admin == chain.admin, IssuerMismatch);
      var ok := oracle.IsFresh(chain.now, MAX_ORACLE_STALENESS_SECS);
      :- Need(ok, OracleStale);
      var genesisRate :- oracle.GetReferenceValue();
      var token := new Contract(wiring, genesisRate);
      r := Ok(token);
    }

    function LedgerState(): Ledger
      reads this
    {
      Ledger(yieldIndex, lastOracleRate, balance, lastClaimedIndex, pendingClaim, totalSupply)
    }

    function State(): Yt
      reads this
    {
      Yt(LedgerState(), allowances)
    }

    method Restore(y: Yt)
      modifies this
      ensures State() == y
    {
      yieldIndex, lastOracleRate, balance := y.ledger.index, y.ledger.rate, y.ledger.balance;
      lastClaimedIndex, pendingClaim := y.ledger.snapshot, y.ledger.pending;
      totalSupply, allowances := y.ledger.supply, y.allowances;
    }

    /** Credits the yield accrued on the balance as it is now and moves the snapshot to the index. */
    method SettleAccount(account: Address)
      modifies this`pendingClaim, this`lastClaimedIndex
      ensures LedgerState() == Settle(old(LedgerState()), account)
    {
      var last := if account in lastClaimedIndex then lastClaimedIndex[account] else SCALE;
      if yieldIndex < last {
        var bal := At(balance, account);
        if bal > 0 {
          var owed := bal * (last - yieldIndex) / last;
          if owed > 0 {
            pendingClaim := pendingClaim[account := At(pendingClaim, account) + owed];
          }
        }
      }
      lastClaimedIndex := lastClaimedIndex[account := yieldIndex];
    }

    /** Settles both sides at their old balances, then moves the amount. */
    method MoveSettled(from: Address, to: Address, amount: nat)
      requires amount <= At(balance, from)
      modifies this`pendingClaim, this`lastClaimedIndex, this`balance
      ensures LedgerState() == Apply(old(LedgerState()), Move(from, to, amount))
    {
      var fromBalance := At(balance, from);
      SettleAccount(from);
      SettleAccount(to);
      balance := balance[from := fromBalance - amount];
      var toBalance := At(balance, to);
      balance := balance[to := toBalance + amount];
    }

    method TransferTokens(chain: Chain, auth: Address, from: Address, to: Address, amount: int) returns (r: Result<()>)
      modifies this
      ensures match Transfer(old(State()), wiring, chain.State(), auth, from, to, amount)
              case Ok(y) => r == Ok(()) && State() == y
              case Err(e) => r == Err(e) && State() == old(State())
    {
      if auth != from {
        return Err(Unauthorized);
      }
      :- Need(amount > 0, ZeroAmount);
      :- TransferGate(chain.State(), wiring.self, from, to);
      :- Need(At(balance, from) >= amount, InsufficientBalance);
      MoveSettled(from, to, amount);
      r := Ok(());
    }

    method TransferTokensFrom(chain: Chain, auth: Address, spender: Address, from: Address, to: Address, amount: int)
        returns (r: Result<()>)
      modifies this
      ensures match TransferFrom(old(State()), wiring, chain.State(), auth, spender, from, to, amount)
              case Ok(y) => r == Ok(()) && State() == y
              case Err(e) => r == Err(e) && State() == old(State())
    {
      if auth != spender {
        return Err(Unauthorized);
      }
      :- Need(amount > 0, ZeroAmount);
      :- TransferGate(chain.State(), wiring.self, from, to);
      var allowance := AllowanceOf(allowances, from, spender);
      if allowance.amount < amount || allowance.expiration < chain.sequence {
        return Err(InsufficientAllowance);
      }
      :- Need(At(balance, from) >= amount, InsufficientBalance);
      MoveSettled(from, to, amount);
      allowances := allowances[(from, spender) := Allowance(allowance.amount - amount, allowance.expiration)];
      r := Ok(());
    }

    method ApproveSpender(auth: Address, from: Address, spender: Address, amount: int, expiration: nat)
        returns (r: Result<()>)
      modifies this
      ensures match Approve(old(State()), auth, from, spender, amount, expiration)
              case Ok(y) => r == Ok(()) && State() == y
              case Err(e) => r == Err(e) && State() == old(State())
    {
      if auth != from {
        return Err(Unauthorized);
      }
      :- Need(amount >= 0, ZeroAmount);
      allowances := allowances[(from, spender) := Allowance(amount, expiration)];
      r := Ok(());
    }

    method MintTokens(chain: Chain, auth: Address, to: Address, amount: int) returns (r: Result<()>)
      modifies this
      ensures match Mint(old(State()), wiring, chain.State(), auth, to, amount)
              case Ok(y) => r == Ok(()) && State() == y
              case Err(e) => r == Err(e) && State() == old(State())
    {
      if auth != wiring.minter {
        return Err(Unauthorized);
      }
      :- Need(amount > 0, ZeroAmount);
      :- SacAuthorized(chain.State(), to);
      :- PermittedFor(chain.State(), to, wiring.self);
      SettleAccount(to);
      balance := balance[to := At(balance, to) + amount];
      totalSupply := totalSupply + amount;
      r := Ok(());
    }

    method BurnTokens(auth: Address, from: Address, amount: int) returns (r: Result<()>)
      modifies this
      ensures match Burn(old(State()), wiring, auth, from, amount)
              case Ok(y) => r == Ok(()) && State() == y
              case Err(e) => r == Err(e) && State() == old(State())
    {
      if auth != wiring.minter {
        return Err(Unauthorized);
      }
      :- Need(amount > 0, ZeroAmount);
      var bal := At(balance, from);
      :- Need(bal >= amount, InsufficientBalance);
      SettleAccount(from);
      balance := balance[from := bal - amount];
      totalSupply := totalSupply - amount;
      r := Ok(());
    }

    method SeizeTokens(auth: Address, caller: Address, account: Address, amount: int) returns (r: Result<int>)
      modifies this
      ensures match Seize(old(State()), wiring, auth, caller, account, amount)
              case Ok(y) => r == Ok(amount) && State() == y
              case Err(e) => r == Err(e) && State() == old(State())
    {
      if auth != caller {
        return Err(Unauthorized);
      }
      :- Need(caller == wiring.escrow, NotRecoveryEscrow);
      :- Need(amount > 0, ZeroAmount);
      :- Need(At(balance, account) >= amount, InsufficientBalance);
      MoveSettled(account, caller, amount);
      r := Ok(amount);
    }

    method UpdateIndex(chain: Chain, oracle: Adapter) returns (r: Result<()>)
      requires oracle.Valid()
      modifies this
      ensures match UpdateYieldIndex(old(State()), oracle.State(), chain.now)
              case Ok(y) => r == Ok(()) && State() == y
              case Err(e) => r == Err(e) && State() == old(State())
    {
      var ok := oracle.IsFresh(chain.now, MAX_ORACLE_STALENESS_SECS);
      :- Need(ok, OracleStale);
      var nowRate :- oracle.GetReferenceValue();
      var lastRate := lastOracleRate;
      if nowRate > lastRate {
        yieldIndex := yieldIndex * lastRate / nowRate;
        lastOracleRate := nowRate;
      }
      r := Ok(());
    }

    method Claim(auth: Address, caller: Address, from: Address) returns (r: Result<int>)
      modifies this
      ensures match ClaimYield(old(State()), wiring, auth, caller, from)
              case Ok(c) => r == Ok(c.amount) && State() == c.yt
              case Err(e) => r == Err(e) && State() == old(State())
    {
      if auth != caller {
        return Err(Unauthorized);
      }
      :- Need(caller == wiring.minter, Unauthorized);
      SettleAccount(from);
      var amount := At(pendingClaim, from);
      pendingClaim := pendingClaim[from := 0];
      r := Ok(amount);
    }
  }
}
