/** The share wrapper around the underlying asset: share/underlying conversion with two nested
    floors, share transfers, and seizure by the recovery escrow. */
module SYWrapper {
  import opened Base
  import opened Arith
  import opened Network

  datatype Sy = Sy(
    admin: Address,
    totalUnderlying: int,
    totalShares: int,
    balance: Balances,
    paused: bool)

  /** Result of a call that also moves the underlying asset; `amount` is its return value. */
  datatype SyOut = SyOut(sy: Sy, net: Net, amount: int)

  function Fresh(admin: Address): Sy {
    Sy(admin, 0, 0, map[], false)
  }

  /** Underlying per share, scaled; 1:1 while no shares exist. */
  function ExchangeRate(s: Sy): int {
    if s.totalShares == 0 then SCALE else s.totalUnderlying * SCALE / s.totalShares
  }

  function UnderlyingToShares(s: Sy, amount: int): Result<int> {
    if s.totalShares == 0 then Ok(amount)
    else if ExchangeRate(s) == 0 then Err(DivisionByZero)
    else Ok(amount * SCALE / ExchangeRate(s))
  }

  function SharesToUnderlying(s: Sy, shares: int): int {
    shares * ExchangeRate(s) / SCALE
  }

  function SetPaused(s: Sy, auth: Address, paused: bool): Result<Sy> {
    if auth != s.admin then Err(Unauthorized) else
    Ok(s.(paused := paused))
  }

  function Transfer(s: Sy, net: Net, auth: Address, from: Address, to: Address, amount: int): Result<Sy> {
    if auth != from then Err(Unauthorized) else
    :- Need(!s.paused, Paused);
    :- SacAuthorized(net, from);
    :- SacAuthorized(net, to);
    :- Permitted(net, from);
    :- Permitted(net, to);
    :- Need(amount > 0, ZeroAmount);
    :- Need(At(s.balance, from) >= amount, InsufficientShares);
    Ok(s.(balance := Moved(s.balance, from, to, amount)))
  }

  /** The bookkeeping of a deposit, before the asset itself moves. */
  function Credited(s: Sy, from: Address, amount: int, shares: nat): Sy {
    s.(totalUnderlying := s.totalUnderlying + amount,
       totalShares := s.totalShares + shares,
       balance := s.balance[from := At(s.balance, from) + shares])
  }

  function Debited(s: Sy, from: Address, amount: int, shares: nat): Sy
    requires shares <= At(s.balance, from)
  {
    s.(totalUnderlying := s.totalUnderlying - amount,
       totalShares := s.totalShares - shares,
       balance := s.balance[from := At(s.balance, from) - shares])
  }

  function Deposit(s: Sy, net: Net, self: Address, auth: Address, from: Address, amount: int): Result<SyOut> {
    if auth != from then Err(Unauthorized) else
    :- Need(!s.paused, Paused);
    :- SacAuthorized(net, from);
    :- Permitted(net, from);
    :- Need(amount > 0, ZeroAmount);
    var shares :- UnderlyingToShares(s, amount);
    :- Need(shares > 0, ZeroAmount);
    var net' :- SacTransfer(net, from, self, amount);
    Ok(SyOut(Credited(s, from, amount, shares), net', shares))
  }

  function Withdraw(s: Sy, net: Net, self: Address, auth: Address, from: Address, shares: int,
      to: Address): Result<SyOut>
  {
    if auth != from then Err(Unauthorized) else
    :- Need(!s.paused, Paused);
    :- SacAuthorized(net, from);
    :- SacAuthorized(net, to);
    :- Permitted(net, from);
    :- Permitted(net, to);
    :- Need(shares > 0, ZeroAmount);
    :- Need(At(s.balance, from) >= shares, InsufficientShares);
    var out := SharesToUnderlying(s, shares);
    :- Need(out > 0, ZeroAmount);
    var net' :- SacTransfer(net, self, to, out);
    Ok(SyOut(Debited(s, from, out, shares), net', out))
  }

  /** Forced transfer to the escrow, callable while paused. */
  function Seize(s: Sy, escrow: Address, auth: Address, caller: Address, account: Address, shares: int): Result<Sy> {
    if auth != caller then Err(Unauthorized) else
    :- Need(caller == escrow, NotRecoveryEscrow);
    :- Need(shares > 0, ZeroAmount);
    :- Need(At(s.balance, account) >= shares, InsufficientShares);
    Ok(s.(balance := Moved(s.balance, account, caller, shares)))
  }

  // ---- wrapper arithmetic, from any state with shares outstanding and a positive rate ----

  /** The two floors of a deposit: the shares it mints, priced at the old rate, are worth no more
      than was paid for them. */
  lemma SharesWorthAtMost(amount: int, rate: int)
    requires amount >= 0 && rate > 0
    ensures 0 <= (amount * SCALE / rate) * rate <= amount * SCALE
  {
    DivBounds(amount * SCALE, rate);
  }

  /** A deposit never lowers the exchange rate of those already in. */
  lemma DepositKeepsRate(s: Sy, net: Net, self: Address, auth: Address, from: Address, amount: int)
    requires s.totalShares > 0 && ExchangeRate(s) > 0
    ensures var r := Deposit(s, net, self, auth, from, amount);
            r.Ok? ==> ExchangeRate(r.value.sy) >= ExchangeRate(s)
  {
    var r := Deposit(s, net, self, auth, from, amount);
    if r.Ok? {
      var rate, minted := ExchangeRate(s), r.value.amount;
      DivBounds(s.totalUnderlying * SCALE, s.totalShares);
      SharesWorthAtMost(amount, rate);
      assert rate * (s.totalShares + minted) == rate * s.totalShares + minted * rate;
      QuotientAtLeast(rate, (s.totalUnderlying + amount) * SCALE, s.totalShares + minted);
    }
  }

  /** A withdrawal never lowers the exchange rate of those who stay. */
  lemma WithdrawKeepsRate(s: Sy, net: Net, self: Address, auth: Address, from: Address, shares: int, to: Address)
    requires s.totalShares > shares && ExchangeRate(s) > 0
    ensures var r := Withdraw(s, net, self, auth, from, shares, to);
            r.Ok? ==> ExchangeRate(r.value.sy) >= ExchangeRate(s)
  {
    var r := Withdraw(s, net, self, auth, from, shares, to);
    if r.Ok? {
      var rate, out := ExchangeRate(s), r.value.amount;
      DivBounds(s.totalUnderlying * SCALE, s.totalShares);
      DivBounds(shares * rate, SCALE);
      assert rate * (s.totalShares - shares) == rate * s.totalShares - shares * rate;
      QuotientAtLeast(rate, (s.totalUnderlying - out) * SCALE, s.totalShares - shares);
    }
  }

  /** Depositing and at once withdrawing the minted shares never pays out more than came in, even
      when the deposit itself raised the exchange rate. */
  lemma RoundTripNeverGains(s: Sy, net: Net, self: Address, from: Address, amount: int, net': Net, to: Address)
    requires s.totalShares > 0 && ExchangeRate(s) > 0
    requires Deposit(s, net, self, from, from, amount).Ok?
    ensures var d := Deposit(s, net, self, from, from, amount).value;
            var w := Withdraw(d.sy, net', self, from, from, d.amount, to);
            w.Ok? ==> 0 < w.value.amount <= amount
  {
    var d := Deposit(s, net, self, from, from, amount).value;
    var rate, rate', x := ExchangeRate(s), ExchangeRate(d.sy), d.amount;
    DepositKeepsRate(s, net, self, from, from, amount);
    SharesWorthAtMost(amount, rate);
    assert x * rate' <= amount * SCALE by {
      if rate' > rate {
        ShareGainBound(s.totalUnderlying * SCALE, s.totalShares, amount * SCALE, x, rate, rate');
      } else {
        assert rate' == rate;
      }
    }
    var w := Withdraw(d.sy, net', self, from, from, x, to);
    if w.Ok? {
      QuotientBelow(amount + 1, x * rate', SCALE);
    }
  }

  /** If the floored rate rises from `rate` to `rate'`, the old shares `n` already absorb the rise. */
  lemma ShareGainBound(u: int, n: int, a: int, x: int, rate: int, rate': int)
    requires n > 0 && x > 0 && rate == u / n && rate' == (u + a) / (n + x) && rate' > rate
    ensures x * rate' <= a
  {
    DivBounds(u, n);
    DivBounds(u + a, n + x);
    MulMonotone(rate + 1, rate', n);
    assert rate' * (n + x) == rate' * n + x * rate';
    assert (rate + 1) * n == rate * n + n;
  }

  /** The exchange rate and both conversions are the floors they should be, from any state: 1:1 without
      shares, and no conversion at a rate of zero. */
  lemma PricesAreFloors(s: Sy, amount: nat, shares: nat)
    requires s.totalShares >= 0
    ensures var rate, minted, paid := ExchangeRate(s), UnderlyingToShares(s, amount), SharesToUnderlying(s, shares);
            && (s.totalShares == 0 ==> rate == SCALE && minted == Ok(amount))
            && (s.totalShares > 0 ==>
                 rate * s.totalShares <= s.totalUnderlying * SCALE < (rate + 1) * s.totalShares)
            && (s.totalShares > 0 && rate == 0 ==> minted == Err(DivisionByZero))
            && (s.totalShares > 0 && rate > 0 ==>
                 minted.Ok? && minted.value * rate <= amount * SCALE < (minted.value + 1) * rate)
            && paid * SCALE <= shares * rate < (paid + 1) * SCALE
  {
    var rate := ExchangeRate(s);
    if s.totalShares > 0 {
      DivBounds(s.totalUnderlying * SCALE, s.totalShares);
      FloorAbove(s.totalUnderlying * SCALE, s.totalShares);
      if rate > 0 {
        FloorAbove(amount * SCALE, rate);
      }
    }
    FloorAbove(shares * rate, SCALE);
  }

  lemma FloorAbove(n: int, d: int)
    requires d > 0
    ensures (n / d) * d <= n < (n / d + 1) * d
  {
    DivBounds(n, d);
  }

  // ---- wrapper state every call keeps ----

  /** Shares and underlying are equal, and shares are exactly what holders own. */
  ghost predicate OneToOne(s: Sy) {
    s.totalUnderlying == s.totalShares == Total(s.balance)
  }

  lemma OneToOneRate(s: Sy)
    requires OneToOne(s)
    ensures ExchangeRate(s) == SCALE
    ensures forall amount: int :: amount >= 0 ==> UnderlyingToShares(s, amount) == Ok(amount)
    ensures forall shares: int :: SharesToUnderlying(s, shares) == shares
  {
    if s.totalShares != 0 {
      var n := s.totalShares;
      assert (n * SCALE) / n == SCALE by { DivExact(SCALE, n); }
    }
    forall shares: int ensures SharesToUnderlying(s, shares) == shares {
      DivExact(shares, SCALE);
    }
    forall amount: int | amount >= 0 ensures UnderlyingToShares(s, amount) == Ok(amount) {
      DivExact(amount, SCALE);
    }
  }

  lemma TransferKeeps(s: Sy, net: Net, auth: Address, from: Address, to: Address, amount: int)
    requires OneToOne(s)
    ensures var r := Transfer(s, net, auth, from, to, amount);
            r.Ok? ==> OneToOne(r.value)
  {
    if Transfer(s, net, auth, from, to, amount).Ok? {
      TotalMoved(s.balance, from, to, amount);
    }
  }

  lemma SeizeKeeps(s: Sy, escrow: Address, auth: Address, caller: Address, account: Address, shares: int)
    requires OneToOne(s)
    ensures var r := Seize(s, escrow, auth, caller, account, shares);
            r.Ok? ==> OneToOne(r.value)
  {
    if Seize(s, escrow, auth, caller, account, shares).Ok? {
      TotalMoved(s.balance, account, caller, shares);
    }
  }

  /** In a one-to-one wrapper a deposit mints as many shares as it takes underlying. */
  lemma DepositKeeps(s: Sy, net: Net, self: Address, auth: Address, from: Address, amount: int)
    requires OneToOne(s)
    ensures var r := Deposit(s, net, self, auth, from, amount);
            r.Ok? ==> OneToOne(r.value.sy) && r.value.amount == amount
                      && r.value.sy == Credited(s, from, amount, amount)
                      && SacTransfer(net, from, self, amount) == Ok(r.value.net)
  {
    OneToOneRate(s);
    if Deposit(s, net, self, auth, from, amount).Ok? {
      TotalUpdate(s.balance, from, At(s.balance, from) + amount);
    }
  }

  /** In a one-to-one wrapper a withdrawal pays exactly the shares it burns. */
  lemma WithdrawKeeps(s: Sy, net: Net, self: Address, auth: Address, from: Address, shares: int, to: Address)
    requires OneToOne(s)
    ensures var r := Withdraw(s, net, self, auth, from, shares, to);
            r.Ok? ==> OneToOne(r.value.sy) && r.value.amount == shares && 0 < shares <= At(s.balance, from)
                      && r.value.sy == Debited(s, from, shares, shares)
                      && SacTransfer(net, self, to, shares) == Ok(r.value.net)
  {
    OneToOneRate(s);
    if Withdraw(s, net, self, auth, from, shares, to).Ok? {
      TotalUpdate(s.balance, from, At(s.balance, from) - shares);
    }
  }

  // ---- the contract ----

  class Contract {
    const self: Address
    const escrow: Address
    var admin: Address
    var totalUnderlying: int
    var totalShares: int
    var balance: Balances
    var paused: bool

    constructor (self: Address, escrow: Address, admin: Address)
      ensures State() == Fresh(admin) && this.self == self && this.escrow == escrow
    {
      this.self, this.escrow, this.admin := self, escrow, admin;
      totalUnderlying, totalShares, balance, paused := 0, 0, map[], false;
    }

    /** Market creation: only the issuer of the underlying asset may stand up a wrapper. */
    static method Initialize(chain: Chain, auth: Address, self: Address, escrow: Address, admin: Address)
      returns (r: Result<Contract>)
      ensures r.Ok? <==> auth == admin == chain.admin
      ensures r.Err? ==> r.error == if auth != admin then Unauthorized else IssuerMismatch
      ensures r.Ok? ==> fresh(r.value) && r.value.State() == Fresh(admin)
                        && r.value.self == self && r.value.escrow == escrow
    {
      if auth != admin {
        return Err(Unauthorized);
      }
      :- Need(admin == chain.admin, IssuerMismatch);
      var wrapper := new Contract(self, escrow, admin);
      r := Ok(wrapper);
    }

    function State(): Sy
      reads this
    {
      Sy(admin, totalUnderlying, totalShares, balance, paused)
    }

    method Restore(s: Sy)
      modifies this
      ensures State() == s
    {
      admin, totalUnderlying, totalShares := s.admin, s.totalUnderlying, s.totalShares;
      balance, paused := s.balance, s.paused;
    }

    method SetPause(auth: Address, value: bool) returns (r: Result<()>)
      modifies this
      ensures match SetPaused(old(State()), auth, value)
              case Ok(s) => r == Ok(()) && State() == s
              case Err(e) => r == Err(e) && State() == old(State())
    {
      if auth != admin {
        return Err(Unauthorized);
      }
      paused := value;
      r := Ok(());
    }

    method GetExchangeRate() returns (rate: int)
      ensures rate == ExchangeRate(State())
    {
      if totalShares == 0 {
        return SCALE;
      }
      rate := totalUnderlying * SCALE / totalShares;
    }

    method MoveShares(chain: Chain, auth: Address, from: Address, to: Address, amount: int) returns (r: Result<int>)
      modifies this
      ensures match Transfer(old(State()), chain.State(), auth, from, to, amount)
              case Ok(s) => r == Ok(amount) && State() == s
              case Err(e) => r == Err(e) && State() == old(State())
    {
      if auth != from {
        return Err(Unauthorized);
      }
      :- Need(!paused, Paused);
      :- SacAuthorized(chain.State(), from);
      :- SacAuthorized(chain.State(), to);
      :- Permitted(chain.State(), from);
      :- Permitted(chain.State(), to);
      :- Need(amount > 0, ZeroAmount);
      :- Need(At(balance, from) >= amount, InsufficientShares);
      balance := balance[from := At(balance, from) - amount];
      balance := balance[to := At(balance, to) + amount];
      r := Ok(amount);
    }

    /** Effects come before the asset transfer, so a panic of the transfer leaves them to the
        host's rollback. */
    method DepositUnderlying(chain: Chain, auth: Address, from: Address, amount: int) returns (r: Result<int>)
      modifies this, chain
      ensures match Deposit(old(State()), old(chain.State()), self, auth, from, amount)
              case Ok(o) => r == Ok(o.amount) && State() == o.sy && chain.State() == o.net
              case Err(e) => r == Err(e)
    {
      if auth != from {
        return Err(Unauthorized);
      }
      :- Need(!paused, Paused);
      :- SacAuthorized(chain.State(), from);
      :- Permitted(chain.State(), from);
      :- Need(amount > 0, ZeroAmount);
      var shares := amount;
      if totalShares != 0 {
        var rate := GetExchangeRate();
        :- Need(rate != 0, DivisionByZero);
        shares := amount * SCALE / rate;
      }
      :- Need(shares > 0, ZeroAmount);
      totalUnderlying := totalUnderlying + amount;
      totalShares := totalShares + shares;
      balance := balance[from := At(balance, from) + shares];
      var _ :- chain.TransferUnderlying(from, self, amount);
      r := Ok(shares);
    }

    method WithdrawUnderlying(chain: Chain, auth: Address, from: Address, shares: int, to: Address)
        returns (r: Result<int>)
      modifies this, chain
      ensures match Withdraw(old(State()), old(chain.State()), self, auth, from, shares, to)
              case Ok(o) => r == Ok(o.amount) && State() == o.sy && chain.State() == o.net
              case Err(e) => r == Err(e)
    {
      if auth != from {
        return Err(Unauthorized);
      }
      :- Need(!paused, Paused);
      :- SacAuthorized(chain.State(), from);
      :- SacAuthorized(chain.State(), to);
      :- Permitted(chain.State(), from);
      :- Permitted(chain.State(), to);
      :- Need(shares > 0, ZeroAmount);
      :- Need(At(balance, from) >= shares, InsufficientShares);
      var rate := GetExchangeRate();
      var out := shares * rate / SCALE;
      :- Need(out > 0, ZeroAmount);
      totalUnderlying := totalUnderlying - out;
      totalShares := totalShares - shares;
      balance := balance[from := At(balance, from) - shares];
      var _ :- chain.TransferUnderlying(self, to, out);
      r := Ok(out);
    }

    method SeizeShares(auth: Address, caller: Address, account: Address, shares: int) returns (r: Result<int>)
      modifies this
      ensures match Seize(old(State()), escrow, auth, caller, account, shares)
              case Ok(s) => r == Ok(shares) && State() == s
              case Err(e) => r == Err(e) && State() == old(State())
    {
      if auth != caller {
        return Err(Unauthorized);
      }
      :- Need(caller == escrow, NotRecoveryEscrow);
      :- Need(shares > 0, ZeroAmount);
      :- Need(At(balance, account) >= shares, InsufficientShares);
      balance := balance[account := At(balance, account) - shares];
      balance := balance[caller := At(balance, caller) + shares];
      r := Ok(shares);
    }
  }
}
