/** Vocabulary shared by every contract: addresses, the panic codes, the fixed-point
    scale and the balance maps that contract storage holds. */
module Base {

  type Address = nat

  /** Storage of one `Balance(Address)`-like key family; an absent key reads as 0. */
  type Balances = map<Address, nat>

  /** Fixed-point denominator, 1e7, of every rate, of the yield index and of the SY exchange rate. */
  const SCALE: nat := 10_000_000

  /** Oldest oracle reading, in seconds, that any contract accepts. */
  const MAX_ORACLE_STALENESS_SECS: nat := 3_600

  /** Largest value of the contracts' 128-bit signed integers. */
  const I128_MAX: int := 170141183460469231731687303715884105727

  datatype Option<+T> = None | Some(value: T)

  /** Why a call panicked. One name stands for the same condition in every contract. */
  datatype Error =
    | Unauthorized
    | NotInitialized
    | ZeroAmount
    | InsufficientShares
    | InsufficientBalance
    | InsufficientAllowance
    | PermissionDenied
    | NotAuthorizedOnSac
    | IssuerMismatch
    | NotRecoveryEscrow
    | TargetStillAuthorized
    | Paused
    | NotMature
    | AlreadyMature
    | OracleStale
    | InvalidValue
    | ValueDecreased
    | TimestampTooOld
    | DivisionByZero
    | AssetTransferFailed
    | NotPauser
    | AlreadyPauser
    | NotConsumer
    | AlreadyConsumer
    | CircuitBreakerTripped
    | ArithmeticOverflow

  /** The value a call returns, or the panic that aborts it. */
  datatype Result<+T> = Ok(value: T) | Err(error: Error) {
    predicate IsFailure() {
      Err?
    }

    function PropagateFailure<U>(): Result<U>
      requires Err?
    {
      Err(error)
    }

    function Extract(): T
      requires Ok?
    {
      value
    }
  }

  /** A guard at the top of an entry point. */
  datatype Check = Pass | Fail(error: Error) {
    predicate IsFailure() {
      Fail?
    }

    function PropagateFailure<U>(): Result<U>
      requires Fail?
    {
      Err(error)
    }
  }

  function Need(condition: bool, error: Error): Check {
    if condition then Pass else Fail(error)
  }

  function At(m: Balances, a: Address): nat {
    if a in m then m[a] else 0
  }

  /** `set_balance(from, -amount)` and then `set_balance(to, +amount)`, reading `to` after the
      first write, so a self-transfer changes nothing. */
  function Moved(m: Balances, from: Address, to: Address, amount: nat): Balances
    requires amount <= At(m, from)
  {
    var taken := m[from := At(m, from) - amount];
    taken[to := At(taken, to) + amount]
  }

  /** `m'` is `m` with `amount` gone from one account and come to another; the same balances if they are one. */
  ghost predicate Shifted(m: Balances, m': Balances, from: Address, to: Address, amount: int) {
    forall a :: At(m', a) == At(m, a) + (if a == to then amount else 0) - (if a == from then amount else 0)
  }

  /** `m'` is `m` with one account changed by `delta`. */
  ghost predicate Changed(m: Balances, m': Balances, who: Address, delta: int) {
    forall a :: At(m', a) == At(m, a) + (if a == who then delta else 0)
  }

  /** Sum of all entries. */
  ghost function Total(m: Balances): nat {
    if m == map[] then 0 else
      var a := Pick(m.Keys);
      m[a] + Total(m - {a})
  }

  /** The element that every sum over a set takes off first. */
  ghost function Pick(s: set<Address>): (a: Address)
    requires s != {}
    ensures a in s
  {
    var a :| a in s;
    a
  }

  lemma {:induction false} TotalRemove(m: Balances, a: Address)
    requires a in m
    ensures Total(m) == m[a] + Total(m - {a})
    decreases |m|
  {
    var p := Pick(m.Keys);
    if p != a {
      TotalRemove(m - {p}, a);
      assert m - {p} - {a} == m - {a} - {p};
      TotalRemove(m - {a}, p);
    }
  }

  lemma TotalUpdate(m: Balances, a: Address, v: nat)
    ensures Total(m[a := v]) == Total(m) - At(m, a) + v
  {
    TotalRemove(m[a := v], a);
    if a in m {
      TotalRemove(m, a);
      assert m[a := v] - {a} == m - {a};
    } else {
      assert m[a := v] - {a} == m;
    }
  }

  /** Moving value between two accounts, or from an account to itself, keeps the sum. */
  lemma TotalMoved(m: Balances, from: Address, to: Address, amount: nat)
    requires amount <= At(m, from)
    ensures Total(Moved(m, from, to, amount)) == Total(m)
  {
    var taken := m[from := At(m, from) - amount];
    TotalUpdate(m, from, At(m, from) - amount);
    TotalUpdate(taken, to, At(taken, to) + amount);
  }

  lemma AtMostTotal(m: Balances, a: Address)
    ensures At(m, a) <= Total(m)
  {
    if a in m {
      TotalRemove(m, a);
    }
  }
}
