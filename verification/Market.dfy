/** Transactions against one market. A panic reverts everything the transaction did. */
module Market {
  import opened Base
  import opened Network
  import opened World
  import opened Sep41
  import OracleAdapter
  import SYWrapper
  import PTToken
  import YTToken
  import PrincipalManager
  import RecoveryEscrow
  import YieldLedger

  /** Changes of the surroundings. */
  datatype Surroundings =
    | PassTime(now: nat, sequence: nat)
    | Authorize(account: Address, authorized: bool)
    | SetAssetAdmin(account: Address)
    | Allow(account: Address, allowed: bool)
    | AllowFor(account: Address, asset: Address, allowed: bool)
    | IssueUnderlying(to: Address, units: nat)
    | MoveUnderlying(to: Address, amount: int)

  datatype SyCall =
    | Pause(paused: bool)
    | Deposit(amount: int)
    | Withdraw(shares: int, to: Address)
    | Transfer(to: Address, amount: int)
    | Seize(account: Address, shares: int)

  datatype TokenCall =
    | Move(to: Address, amount: int)
    | MoveFrom(from: Address, to: Address, amount: int)
    | Approve(spender: Address, amount: int, expiration: nat)
    | Mint(to: Address, amount: int)
    | Burn(from: Address, amount: int)
    | SeizeToken(account: Address, amount: int)

  datatype ManagerCall =
    | PauseManager(paused: bool)
    | Split(shares: int)
    | Redeem(ptAmount: int, ytAmount: int)
    | ClaimAccrued

  datatype EscrowCall =
    | RecoverSy(account: Address, shares: int)
    | RecoverPt(account: Address, amount: int)
    | RecoverYt(account: Address, amount: int)
    | FinalizePt(amount: int)
    | FinalizeYt(amount: int)

  /** The entry points that change state once a market is wired, but for the transfer of administration.
      The calls reserved for the manager or the escrow are among them: outsiders may try them. */
  datatype Op =
    | Around(change: Surroundings)
    | SetPrice(value: int, timestamp: nat)
    | OnSy(sy: SyCall)
    | OnPt(pt: TokenCall)
    | OnYt(yt: TokenCall)
    | YtUpdateIndex
    | YtClaim(from: Address)
    | OnManager(pm: ManagerCall)
    | OnEscrow(recovery: EscrowCall)

  /** `signer` is the one address whose authorization the transaction carries. */
  datatype Tx = Tx(signer: Address, op: Op)

  datatype Receipt = Nothing | Amount(amount: int) | Pair(fromPt: int, fromYt: int)

  datatype Outcome = Outcome(world: World, receipt: Receipt)

  function Toggle<T(==)>(s: set<T>, x: T, member: bool): set<T> {
    if member then s + {x} else s - {x}
  }

  /** The ledger clock never goes back, and an account's underlying moves only by its own hand. */
  function StepNet(net: Net, me: Address, change: Surroundings): Result<Net> {
    match change
    case PassTime(now, sequence) =>
      :- Need(now >= net.now && sequence >= net.sequence, InvalidValue);
      Ok(net.(now := now, sequence := sequence))
    case Authorize(a, authorized) => Ok(net.(authorized := Toggle(net.authorized, a, authorized)))
    case SetAssetAdmin(a) => Ok(net.(admin := a))
    case Allow(a, allowed) => Ok(net.(allowed := Toggle(net.allowed, a, allowed)))
    case AllowFor(a, asset, allowed) => Ok(net.(eligible := Toggle(net.eligible, (a, asset), allowed)))
    case IssueUnderlying(to, units) => Ok(net.(sac := net.sac[to := At(net.sac, to) + units]))
    case MoveUnderlying(to, amount) => SacTransfer(net, me, to, amount)
  }

  function StepSy(c: Config, w: World, me: Address, call: SyCall): Result<Outcome> {
    match call
    case Pause(paused) =>
      var s :- SYWrapper.SetPaused(w.sy, me, paused);
      Ok(Outcome(w.(sy := s), Nothing))
    case Deposit(amount) =>
      var o :- SYWrapper.Deposit(w.sy, w.net, c.sy, me, me, amount);
      Ok(Outcome(w.(sy := o.sy, net := o.net), Amount(o.amount)))
    case Withdraw(shares, to) =>
      var o :- SYWrapper.Withdraw(w.sy, w.net, c.sy, me, me, shares, to);
      Ok(Outcome(w.(sy := o.sy, net := o.net), Amount(o.amount)))
    case Transfer(to, amount) =>
      var s :- SYWrapper.Transfer(w.sy, w.net, me, me, to, amount);
      Ok(Outcome(w.(sy := s), Amount(amount)))
    case Seize(account, shares) =>
      var s :- SYWrapper.Seize(w.sy, c.escrow, me, me, account, shares);
      Ok(Outcome(w.(sy := s), Amount(shares)))
  }

  function StepPt(p: PTToken.Pt, k: Wiring, net: Net, me: Address, call: TokenCall): Result<PTToken.Pt> {
    match call
    case Move(to, amount) => PTToken.Transfer(p, k, net, me, me, to, amount)
    case MoveFrom(from, to, amount) => PTToken.TransferFrom(p, k, net, me, me, from, to, amount)
    case Approve(spender, amount, expiration) => PTToken.Approve(p, me, me, spender, amount, expiration)
    case Mint(to, amount) => PTToken.Mint(p, k, net, me, to, amount)
    case Burn(from, amount) => PTToken.Burn(p, k, me, from, amount)
    case SeizeToken(account, amount) => PTToken.Seize(p, k, me, me, account, amount)
  }

  function StepYt(y: YTToken.Yt, k: Wiring, net: Net, me: Address, call: TokenCall): Result<YTToken.Yt> {
    match call
    case Move(to, amount) => YTToken.Transfer(y, k, net, me, me, to, amount)
    case MoveFrom(from, to, amount) => YTToken.TransferFrom(y, k, net, me, me, from, to, amount)
    case Approve(spender, amount, expiration) => YTToken.Approve(y, me, me, spender, amount, expiration)
    case Mint(to, amount) => YTToken.Mint(y, k, net, me, to, amount)
    case Burn(from, amount) => YTToken.Burn(y, k, me, from, amount)
    case SeizeToken(account, amount) => YTToken.Seize(y, k, me, me, account, amount)
  }

  /** Only a seizure returns a value. */
  function TokenReceipt(call: TokenCall): Receipt {
    if call.SeizeToken? then Amount(call.amount) else Nothing
  }

  function StepManager(c: Config, w: World, me: Address, call: ManagerCall): Result<Outcome> {
    match call
    case PauseManager(paused) =>
      var m :- PrincipalManager.SetPaused(w.manager, me, paused);
      Ok(Outcome(w.(manager := m), Nothing))
    case Split(shares) =>
      var o :- PrincipalManager.Mint(c, w, me, me, shares);
      Ok(Outcome(o.world, Amount(o.notional)))
    case Redeem(ptAmount, ytAmount) =>
      var o :- PrincipalManager.Redeem(c, w, me, me, ptAmount, ytAmount);
      Ok(Outcome(o.world, Pair(o.fromPt, o.fromYt)))
    case ClaimAccrued =>
      var o :- PrincipalManager.ClaimYield(c, w, me, me);
      Ok(Outcome(o.world, Amount(o.amount)))
  }

  function StepEscrow(c: Config, w: World, me: Address, call: EscrowCall): Result<RecoveryEscrow.Recovered> {
    match call
    case RecoverSy(account, shares) => RecoveryEscrow.SeizeSy(c, w, me, me, account, shares)
    case RecoverPt(account, amount) => RecoveryEscrow.SeizePt(c, w, me, me, account, amount)
    case RecoverYt(account, amount) => RecoveryEscrow.SeizeYt(c, w, me, me, account, amount)
    case FinalizePt(amount) => RecoveryEscrow.FinalizePt(c, w, me, me, amount)
    case FinalizeYt(amount) => RecoveryEscrow.FinalizeYt(c, w, me, me, amount)
  }

  /** One transaction. A contract's own address can never sign one. */
  function Step(c: Config, w: World, tx: Tx): Result<Outcome> {
    var me := tx.signer;
    :- Need(me !in c.Contracts(), Unauthorized);
    match tx.op
    case Around(change) =>
      var net :- StepNet(w.net, me, change);
      Ok(Outcome(w.(net := net), Nothing))
    case SetPrice(value, timestamp) =>
      var o :- OracleAdapter.SetReferenceValue(w.oracle, me, me, value, timestamp);
      Ok(Outcome(w.(oracle := o), Nothing))
    case OnSy(call) => StepSy(c, w, me, call)
    case OnPt(call) =>
      var p :- StepPt(w.pt, c.PtWiring(), w.net, me, call);
      Ok(Outcome(w.(pt := p), TokenReceipt(call)))
    case OnYt(call) =>
      var y :- StepYt(w.yt, c.YtWiring(), w.net, me, call);
      Ok(Outcome(w.(yt := y), TokenReceipt(call)))
    case YtUpdateIndex =>
      var y :- YTToken.UpdateYieldIndex(w.yt, w.oracle, w.net.now);
      Ok(Outcome(w.(yt := y), Nothing))
    case YtClaim(from) =>
      var o :- YTToken.ClaimYield(w.yt, c.YtWiring(), me, me, from);
      Ok(Outcome(w.(yt := o.yt), Amount(o.amount)))
    case OnManager(call) => StepManager(c, w, me, call)
    case OnEscrow(call) =>
      var o :- StepEscrow(c, w, me, call);
      Ok(Outcome(o.world, Amount(o.amount)))
  }

  /** The world after one transaction, whether it went through or panicked. */
  function Next(c: Config, w: World, tx: Tx): World {
    var r := Step(c, w, tx);
    if r.Ok? then r.value.world else w
  }

  function Run(c: Config, w: World, txs: seq<Tx>): World {
    if txs == [] then w else Next(c, Run(c, w, txs[..|txs| - 1]), txs[|txs| - 1])
  }

  /** A freshly deployed market: nothing deposited or minted, and the index measured against an
      oracle rate that was live at deployment. */
  ghost predicate Deployed(w: World) {
    && w.oracle.reading.Some?
    && w.sy == SYWrapper.Fresh(w.sy.admin)
    && w.pt == PTToken.Fresh()
    && w.yt == YTToken.Yt(YieldLedger.Genesis(w.oracle.reading.value.price), map[])
    && !w.manager.paused
  }

  // ---- the host ----

  /** One deployed market as the host sees it. */
  class Host {
    const manager: PrincipalManager.Contract
    const escrow: RecoveryEscrow.Contract

    constructor (manager: PrincipalManager.Contract, escrow: RecoveryEscrow.Contract)
      requires escrow.manager == manager
      ensures this.manager == manager && this.escrow == escrow
    {
      this.manager, this.escrow := manager, escrow;
    }

    ghost predicate Valid()
      reads manager, manager.oracle
    {
      escrow.manager == manager && manager.Wired()
    }

    function State(): World
      reads manager, manager.chain, manager.oracle, manager.sy, manager.pt, manager.yt
    {
      manager.WorldState()
    }

    /** Puts every contract's storage back to a saved state. */
    method Rollback(w: World)
      requires Valid()
      modifies manager, manager.chain, manager.oracle, manager.sy, manager.pt, manager.yt
      ensures Valid() && State() == w
    {
      manager.chain.Restore(w.net);
      manager.oracle.Restore(w.oracle);
      manager.sy.Restore(w.sy);
      manager.pt.Restore(w.pt);
      manager.yt.Restore(w.yt);
      manager.Restore(w.manager);
    }

    /** Runs one transaction atomically: all of its effects, or none. */
    method Execute(tx: Tx) returns (r: Result<Receipt>)
      requires Valid()
      modifies manager, manager.chain, manager.oracle, manager.sy, manager.pt, manager.yt
      ensures Valid()
      ensures State() == Next(manager.config, old(State()), tx)
      ensures match Step(manager.config, old(State()), tx)
              case Ok(o) => r == Ok(o.receipt)
              case Err(e) => r == Err(e)
    {
      var saved := State();
      if tx.signer in manager.config.Contracts() {
        return Err(Unauthorized);
      }
      r := Dispatch(tx);
      if r.Err? {
        Rollback(saved);
      }
    }

    /** Calls the entry point; a panic may leave storage half written. */
    method Dispatch(tx: Tx) returns (r: Result<Receipt>)
      requires Valid() && tx.signer !in manager.config.Contracts()
      modifies manager, manager.chain, manager.oracle, manager.sy, manager.pt, manager.yt
      ensures Valid()
      ensures match Step(manager.config, old(State()), tx)
              case Ok(o) => r == Ok(o.receipt) && State() == o.world
              case Err(e) => r == Err(e)
    {
      var me, c := tx.signer, manager.config;
      match tx.op {
        case Around(change) =>
          var net :- StepNet(manager.chain.State(), me, change);
          manager.chain.Restore(net);
          r := Ok(Nothing);
        case SetPrice(value, timestamp) =>
          var o := manager.oracle.SetReference(me, me, value, timestamp);
          r := Reply(o, Nothing);
        case OnSy(call) => r := DispatchSy(me, call);
        case OnPt(call) =>
          var o := DispatchPt(me, call);
          r := Reply(o, TokenReceipt(call));
        case OnYt(call) =>
          var o := DispatchYt(me, call);
          r := Reply(o, TokenReceipt(call));
        case YtUpdateIndex =>
          var o := manager.yt.UpdateIndex(manager.chain, manager.oracle);
          r := Reply(o, Nothing);
        case YtClaim(from) =>
          var o := manager.yt.Claim(me, me, from);
          r := ReplyAmount(o);
        case OnManager(call) => r := DispatchManager(me, call);
        case OnEscrow(call) =>
          var o := DispatchEscrow(me, call);
          r := ReplyAmount(o);
      }
    }

    static function Reply(o: Result<()>, receipt: Receipt): Result<Receipt> {
      if o.Ok? then Ok(receipt) else Err(o.error)
    }

    static function ReplyAmount(o: Result<int>): Result<Receipt> {
      if o.Ok? then Ok(Amount(o.value)) else Err(o.error)
    }

    method DispatchSy(me: Address, call: SyCall) returns (r: Result<Receipt>)
      requires Valid()
      modifies manager.chain, manager.sy
      ensures match StepSy(manager.config, old(State()), me, call)
              case Ok(o) => r == Ok(o.receipt) && State() == o.world
              case Err(e) => r == Err(e)
    {
      var sy, chain := manager.sy, manager.chain;
      match call {
        case Pause(paused) =>
          var o := sy.SetPause(me, paused);
          r := Reply(o, Nothing);
        case Deposit(amount) =>
          var o := sy.DepositUnderlying(chain, me, me, amount);
          r := ReplyAmount(o);
        case Withdraw(shares, to) =>
          var o := sy.WithdrawUnderlying(chain, me, me, shares, to);
          r := ReplyAmount(o);
        case Transfer(to, amount) =>
          var o := sy.MoveShares(chain, me, me, to, amount);
          r := ReplyAmount(o);
        case Seize(account, shares) =>
          var o := sy.SeizeShares(me, me, account, shares);
          r := ReplyAmount(o);
      }
    }

    method DispatchPt(me: Address, call: TokenCall) returns (r: Result<()>)
      requires Valid()
      modifies manager.pt
      ensures match StepPt(old(manager.pt.State()), manager.config.PtWiring(), manager.chain.State(), me, call)
              case Ok(p) => r == Ok(()) && manager.pt.State() == p
              case Err(e) => r == Err(e)
    {
      var pt, chain := manager.pt, manager.chain;
      match call {
        case Move(to, amount) => r := pt.TransferTokens(chain, me, me, to, amount);
        case MoveFrom(from, to, amount) => r := pt.TransferTokensFrom(chain, me, me, from, to, amount);
        case Approve(spender, amount, expiration) => r := pt.ApproveSpender(me, me, spender, amount, expiration);
        case Mint(to, amount) => r := pt.MintTokens(chain, me, to, amount);
        case Burn(from, amount) => r := pt.BurnTokens(me, from, amount);
        case SeizeToken(account, amount) =>
          var o := pt.SeizeTokens(me, me, account, amount);
          r := if o.Ok? then Ok(()) else Err(o.error);
      }
    }

    method DispatchYt(me: Address, call: TokenCall) returns (r: Result<()>)
      requires Valid()
      modifies manager.yt
      ensures match StepYt(old(manager.yt.State()), manager.config.YtWiring(), manager.chain.State(), me, call)
              case Ok(y) => r == Ok(()) && manager.yt.State() == y
              case Err(e) => r == Err(e)
    {
      var yt, chain := manager.yt, manager.chain;
      match call {
        case Move(to, amount) => r := yt.TransferTokens(chain, me, me, to, amount);
        case MoveFrom(from, to, amount) => r := yt.TransferTokensFrom(chain, me, me, from, to, amount);
        case Approve(spender, amount, expiration) => r := yt.ApproveSpender(me, me, spender, amount, expiration);
        case Mint(to, amount) => r := yt.MintTokens(chain, me, to, amount);
        case Burn(from, amount) => r := yt.BurnTokens(me, from, amount);
        case SeizeToken(account, amount) =>
          var o := yt.SeizeTokens(me, me, account, amount);
          r := if o.Ok? then Ok(()) else Err(o.error);
      }
    }

    method DispatchManager(me: Address, call: ManagerCall) returns (r: Result<Receipt>)
      requires Valid()
      modifies manager, manager.chain, manager.sy, manager.pt, manager.yt
      ensures Valid()
      ensures match StepManager(manager.config, old(State()), me, call)
              case Ok(o) => r == Ok(o.receipt) && State() == o.world
              case Err(e) => r == Err(e)
    {
      match call {
        case PauseManager(paused) =>
          var o := manager.SetPause(me, paused);
          r := Reply(o, Nothing);
        case Split(shares) =>
          var o := manager.SplitShares(me, me, shares);
          r := ReplyAmount(o);
        case Redeem(ptAmount, ytAmount) =>
          var o := manager.RedeemBoth(me, me, ptAmount, ytAmount);
          r := if o.Ok? then Ok(Pair(o.value.0, o.value.1)) else Err(o.error);
        case ClaimAccrued =>
          var o := manager.ClaimAccrued(me, me);
          r := ReplyAmount(o);
      }
    }

    method DispatchEscrow(me: Address, call: EscrowCall) returns (r: Result<int>)
      requires Valid()
      modifies manager.chain, manager.sy, manager.pt, manager.yt
      ensures match StepEscrow(manager.config, old(State()), me, call)
              case Ok(o) => r == Ok(o.amount) && State() == o.world
              case Err(e) => r == Err(e)
    {
      match call {
        case RecoverSy(account, shares) => r := escrow.SeizeShares(me, me, account, shares);
        case RecoverPt(account, amount) => r := escrow.SeizePrincipal(me, me, account, amount);
        case RecoverYt(account, amount) => r := escrow.SeizeYield(me, me, account, amount);
        case FinalizePt(amount) => r := escrow.FinalizePrincipal(me, me, amount);
        case FinalizeYt(amount) => r := escrow.FinalizeYield(me, me, amount);
      }
    }
  }
}
