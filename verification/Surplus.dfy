/** Market-wide solvency: how far the manager's custody covers all PT and all yield together, and
    which transactions change that. */
module Surplus {
  import opened Base
  import opened Arith
  import opened World
  import OracleAdapter
  import PM = PrincipalManager
  import opened Effects
  import opened YL = YieldLedger
  import opened YieldRow
  import opened LazyEager
  import opened Market
  import opened History
  import opened Backing

  // ---- what the yield ledger owes, in exact arithmetic ----

  /** Pending and not-yet-settled yield of one account. */
  ghost function Due(r: Row): real {
    r.pending as real + Unsettled(r)
  }

  ghost function TotalDue(l: Ledger, accounts: set<Address>): real {
    if accounts == {} then 0.0 else
      var a := Pick(accounts);
      Due(RowOf(l, a)) + TotalDue(l, accounts - {a})
  }

  /** Yield that one unit of index adds to an account. */
  ghost function PerIndex(r: Row): real {
    if r.snapshot == 0 then 0.0 else r.balance as real / r.snapshot as real
  }

  ghost function Weight(l: Ledger, accounts: set<Address>): real {
    if accounts == {} then 0.0 else
      var a := Pick(accounts);
      PerIndex(RowOf(l, a)) + Weight(l, accounts - {a})
  }

  lemma UnsettledPerIndex(r: Row)
    requires Ordered(r)
    ensures Unsettled(r) == PerIndex(r) * (r.snapshot - r.index) as real
    ensures Unsettled(r) >= 0.0 && PerIndex(r) >= 0.0
  {
    if r.snapshot > 0 {
      CastProduct(r.balance, r.snapshot - r.index);
      ScaledRatio(r.balance as real, (r.snapshot - r.index) as real, r.snapshot as real);
    }
  }

  lemma ScaledRatio(b: real, d: real, s: real)
    requires b >= 0.0 && d >= 0.0 && s > 0.0
    ensures (b * d) / s == (b / s) * d >= 0.0 && b / s >= 0.0
  {
    var q := b / s;
    assert q * s == b;
    assert (q * d) * s == b * d;
  }

  /** `more` is `before` and `weight` times the `drop` of the index. */
  ghost predicate Gains(before: real, more: real, weight: real, drop: int) {
    weight >= 0.0 && more == before + weight * drop as real
  }

  lemma TickDue(r: Row, now: nat)
    requires Ordered(r)
    ensures var z := Do(r, Tick(now));
            Gains(Due(r), Due(z), PerIndex(r), r.index - z.index)
  {
    var z := Do(r, Tick(now));
    IndexFalls(r.index, r.rate, now);
    UnsettledPerIndex(r);
    UnsettledPerIndex(z);
    var x, y := (r.snapshot - r.index) as real, (r.index - z.index) as real;
    assert (z.snapshot - z.index) as real == x + y;
    assert PerIndex(r) * (x + y) == PerIndex(r) * x + PerIndex(r) * y;
  }

  /** `x` is `top`, or falls short of it by at most `slack`. */
  ghost predicate Near(x: real, top: real, slack: real) {
    top - slack <= x <= top
  }

  lemma NearAdds(x: real, top: real, slack: real, x': real, top': real, slack': real)
    requires Near(x, top, slack) && Near(x', top', slack')
    ensures Near(x + x', top + top', slack + slack')
  {
  }

  lemma AtMostQuotient(x: int, n: int, d: nat)
    requires d > 0 && x <= n * d
    ensures x as real / d as real <= n as real
  {
    assert x as real <= n as real * d as real by {
      assert (n * d) as real == n as real * d as real;
    }
    var q := x as real / d as real;
    assert q * d as real == x as real;
    if q > n as real {
      assert q * d as real > n as real * d as real;
    }
  }

  /** A settlement credits what is unsettled less a fraction of a unit, and nothing is lost by an account
      that already stands at the index. */
  lemma SettleRounds(r: Row)
    requires Ordered(r)
    ensures Near(OwedOn(r) as real, Unsettled(r), if r.snapshot == r.index then 0.0 else 1.0)
  {
    SettleBelowUnsettled(r);
    if r.index < r.snapshot {
      OwedBounded(r.balance, r.snapshot, r.index);
      AtMostQuotient(r.balance * (r.snapshot - r.index), OwedOn(r) + 1, r.snapshot);
    }
  }

  /** A settlement, for whatever reason, keeps what is due but for a fraction of a unit; a claim takes it all. */
  lemma ActDue(r: Row, act: Act)
    requires Ordered(r) && Possible(r, act) && !act.Tick?
    ensures Near(Due(Do(r, act)) + (if act.Collect? then SettleRow(r).pending else 0) as real, Due(r),
                 if r.snapshot == r.index then 0.0 else 1.0)
  {
    SettleBelowUnsettled(r);
    SettleRounds(r);
    assert SettleRow(r).pending as real == r.pending as real + OwedOn(r) as real;
  }

  lemma RowIndexDue(l: Ledger, z: Ledger, now: nat, a: Address)
    requires Sound(l) && z == Apply(l, Index(now))
    ensures Gains(Due(RowOf(l, a)), Due(RowOf(z, a)), PerIndex(RowOf(l, a)), l.index - z.index)
  {
    TickDue(RowOf(l, a), now);
    UnsettledPerIndex(RowOf(l, a));
    TickedRow(l, z, now, a);
  }

  lemma {:induction false} IndexDue(l: Ledger, z: Ledger, now: nat, accounts: set<Address>)
    requires Sound(l) && z == Apply(l, Index(now))
    ensures Gains(TotalDue(l, accounts), TotalDue(z, accounts), Weight(l, accounts), l.index - z.index)
  {
    if accounts == {} {
    } else {
      var a := Pick(accounts);
      var rest := accounts - {a};
      IndexDue(l, z, now, rest);
      RowIndexDue(l, z, now, a);
      GainsAdd(Due(RowOf(l, a)), Due(RowOf(z, a)), PerIndex(RowOf(l, a)),
               TotalDue(l, rest), TotalDue(z, rest), Weight(l, rest), l.index - z.index);
    }
  }

  lemma GainsAdd(x: real, x': real, v: real, y: real, y': real, w: real, drop: int)
    requires Gains(x, x', v, drop) && Gains(y, y', w, drop)
    ensures Gains(x + y, x' + y', v + w, drop)
  {
  }

  /** Units that settling an account can lose to rounding. */
  function Rounded(l: Ledger, a: Address): nat {
    if SnapshotOf(l, a) == l.index then 0 else 1
  }

  /** The same for all accounts that an event settles. */
  function RoundedBy(l: Ledger, e: Event, accounts: set<Address>): nat {
    match e
    case Index(_) => 0
    case Move(from, to, _) =>
      (if from in accounts then Rounded(l, from) else 0) + (if to != from && to in accounts then Rounded(l, to) else 0)
    case Issue(to, _) => if to in accounts then Rounded(l, to) else 0
    case Destroy(from, _) => if from in accounts then Rounded(l, from) else 0
    case Claim(who) => if who in accounts then Rounded(l, who) else 0
  }

  lemma EventDue(l: Ledger, e: Event, a: Address)
    requires Sound(l) && Enabled(l, e) && !e.Index?
    ensures Near(Due(RowOf(Apply(l, e), a)) + ClaimedBy(l, e, a) as real, Due(RowOf(l, a)),
                 (if Settles(e, a) then Rounded(l, a) else 0) as real)
  {
    ApplyProjects(l, e, a);
    if ActsIn(e, a) != [] {
      ActDue(RowOf(l, a), ActsIn(e, a)[0]);
    }
  }

  function ClaimIn(l: Ledger, e: Event, accounts: set<Address>): nat {
    if e.Claim? && e.who in accounts then Claimable(l, e.who) else 0
  }

  /** No event but an index move adds to what is due or, beyond the rounding of the accounts it settles,
      takes from it; and a claim takes off what it returns. */
  lemma {:induction false} EventTotalDue(l: Ledger, e: Event, accounts: set<Address>)
    requires Sound(l) && Enabled(l, e) && !e.Index?
    ensures Near(TotalDue(Apply(l, e), accounts) + ClaimIn(l, e, accounts) as real, TotalDue(l, accounts),
                 RoundedBy(l, e, accounts) as real)
  {
    if accounts == {} {
    } else {
      var a := Pick(accounts);
      var rest := accounts - {a};
      EventTotalDue(l, e, rest);
      EventDue(l, e, a);
      RoundedSplits(l, e, accounts, a);
      NearAdds(Due(RowOf(Apply(l, e), a)) + ClaimedBy(l, e, a) as real, Due(RowOf(l, a)),
               (if Settles(e, a) then Rounded(l, a) else 0) as real,
               TotalDue(Apply(l, e), rest) + ClaimIn(l, e, rest) as real, TotalDue(l, rest),
               RoundedBy(l, e, rest) as real);
    }
  }

  lemma RoundedSplits(l: Ledger, e: Event, accounts: set<Address>, a: Address)
    requires a in accounts
    ensures RoundedBy(l, e, accounts) == (if Settles(e, a) then Rounded(l, a) else 0) + RoundedBy(l, e, accounts - {a})
    ensures ClaimIn(l, e, accounts) == ClaimedBy(l, e, a) + ClaimIn(l, e, accounts - {a})
  {
  }

  lemma {:induction false} TotalDueNonNegative(l: Ledger, accounts: set<Address>)
    requires Sound(l)
    ensures TotalDue(l, accounts) >= 0.0
  {
    if accounts == {} {
    } else {
      var a := Pick(accounts);
      TotalDueNonNegative(l, accounts - {a});
      UnsettledPerIndex(RowOf(l, a));
    }
  }

  // ---- what the market owes, and the surplus of custody over it ----

  /** Underlying that all PT is worth at a rate. */
  ghost function PtDue(supply: int, rate: nat): real
    requires rate > 0
  {
    (supply * SCALE) as real / rate as real
  }

  ghost function Owing(supply: int, l: Ledger, accounts: set<Address>): real
    requires l.rate > 0
  {
    PtDue(supply, l.rate) + TotalDue(l, accounts)
  }

  ghost function SurplusOf(c: Config, w: World, accounts: set<Address>): real
    requires w.yt.ledger.rate > 0
  {
    Custody(c, w) as real - Owing(w.pt.totalSupply, w.yt.ledger, accounts)
  }

  /** What bringing the index to the current price adds to the surplus; negative if it takes away. */
  ghost function IndexEffect(w: World, accounts: set<Address>): real
    requires w.oracle.reading.Some? && w.yt.ledger.rate > 0
  {
    Owing(w.pt.totalSupply, w.yt.ledger, accounts) - Owing(w.pt.totalSupply, Indexed(w), accounts)
  }

  /** Transactions that bring the index up to date when they go through. */
  predicate Updates(tx: Tx) {
    match tx.op
    case YtUpdateIndex => true
    case OnManager(Split(_)) => true
    case OnManager(Redeem(_, y)) => y > 0
    case OnManager(ClaimAccrued) => true
    case OnEscrow(FinalizeYt(_)) => true
    case _ => false
  }

  ghost function EffectOf(c: Config, w: World, tx: Tx, accounts: set<Address>): real
    requires w.oracle.reading.Some? && w.yt.ledger.rate > 0
  {
    if Updates(tx) && Step(c, w, tx).Ok? then IndexEffect(w, accounts) else 0.0
  }

  /** Shares cover the PT they are split into, and what the notional loses is worth less than one unit of
      it. */
  lemma MintCovers(supply: int, n: int, rate: nat)
    requires rate > 0 && n >= 0
    ensures Near(PtDue(supply + PM.Notional(n, rate), rate), PtDue(supply, rate) + n as real, PtDue(1, rate))
  {
    var m := PM.Notional(n, rate);
    DivBounds(n * rate, SCALE);
    FractionSum(supply * SCALE, m * SCALE, rate);
    FractionSum(m * SCALE, SCALE, rate);
    assert (supply + m) * SCALE == supply * SCALE + m * SCALE;
    AtMostQuotient(m * SCALE, n, rate);
    FloorBelow(n, m * SCALE + SCALE, rate);
  }

  /** What the others gain when PT is paid at a price above the recorded rate, without an index update. */
  ghost function LateGain(p: int, rate: nat, price: nat): real
    requires rate > 0 && price > 0
  {
    if p > 0 then PtDue(p, rate) - PtDue(p, price) else 0.0
  }

  lemma LateNonNegative(p: int, rate: nat, price: nat)
    requires 0 < rate <= price
    ensures LateGain(p, rate, price) >= 0.0
  {
    if p > 0 {
      FractionShrinks(p * SCALE, price, rate);
    }
  }

  /** Redeemed PT is paid its worth at the price less a fraction of a unit. */
  lemma RedeemCovers(supply: int, p: nat, rate: nat, price: OracleAdapter.Price)
    requires 0 < rate <= price && p > 0
    ensures Near(PtDue(supply - p, rate) + PM.Principal(p, price) as real,
                 PtDue(supply, rate) - LateGain(p, rate, price), 1.0)
  {
    var paid := PM.Principal(p, price);
    DivBounds(p * SCALE, price);
    assert (paid + 1) * price == paid * price + price;
    FloorBelow(paid, p * SCALE, price);
    AtMostQuotient(p * SCALE, paid + 1, price);
    FractionSum((supply - p) * SCALE, p * SCALE, rate);
    assert (supply - p) * SCALE + p * SCALE == supply * SCALE;
  }

  // ---- one transaction ----

  function Sides(from: Address, to: Address): nat {
    if from == to then 1 else 2
  }

  function Legs(p: int, y: int): nat {
    (if p > 0 then 1 else 0) + (if y > 0 then 1 else 0)
  }

  /** What a transaction's roundings can leave to custody: a unit for each account it settles and for each PT
      leg, and the worth of a unit of PT for a split. */
  ghost function RoundingOf(c: Config, w: World, tx: Tx): real
    requires w.oracle.reading.Some?
  {
    if Step(c, w, tx).Err? then 0.0 else
      match tx.op
      case OnYt(Move(to, _)) => Sides(tx.signer, to) as real
      case OnYt(MoveFrom(from, to, _)) => Sides(from, to) as real
      case OnManager(Split(_)) => 1.0 + PtDue(1, PriceOf(w))
      case OnManager(Redeem(p, y)) => Legs(p, y) as real
      case OnManager(ClaimAccrued) => 1.0
      case OnEscrow(RecoverYt(account, _)) => Sides(account, c.escrow) as real
      case OnEscrow(FinalizePt(p)) => Legs(p, 0) as real
      case OnEscrow(FinalizeYt(y)) => Legs(0, y) as real
      case _ => 0.0
  }

  /** PT redeemed alone is paid at the price although the index stays where it was. */
  ghost function LateOf(c: Config, w: World, tx: Tx): real
    requires w.oracle.reading.Some? && w.yt.ledger.rate > 0
  {
    if Step(c, w, tx).Err? then 0.0 else
      match tx.op
      case OnManager(Redeem(p, y)) => if y > 0 then 0.0 else LateGain(p, w.yt.ledger.rate, PriceOf(w))
      case OnEscrow(FinalizePt(p)) => LateGain(p, w.yt.ledger.rate, PriceOf(w))
      case _ => 0.0
  }

  /** What is owed after a call, with what the call paid out, is what was owed and what it took in, but for
      what it gained on purpose and for roundings. */
  ghost predicate Balances(w: World, w': World, e: Books, gain: real, rounding: real, accounts: set<Address>)
    requires w.yt.ledger.rate > 0
  {
    && w'.yt.ledger.rate > 0
    && Near(Owing(w'.pt.totalSupply, w'.yt.ledger, accounts) + (e.ptPaid + e.ytPaid) as real,
            Owing(w.pt.totalSupply, w.yt.ledger, accounts) - gain + e.sharesIn as real, rounding)
  }

  ghost predicate Accounted(c: Config, w: World, tx: Tx, accounts: set<Address>)
    requires w.oracle.reading.Some? && w.yt.ledger.rate > 0
  {
    Balances(w, Next(c, w, tx), Entry(c, w, tx), EffectOf(c, w, tx, accounts) + LateOf(c, w, tx), RoundingOf(c, w, tx),
             accounts)
  }

  lemma EventOwing(supply: int, l: Ledger, e: Event, accounts: set<Address>)
    requires Sound(l) && Enabled(l, e) && !e.Index?
    ensures Sound(Apply(l, e)) && Apply(l, e).rate == l.rate
    ensures Near(Owing(supply, Apply(l, e), accounts) + ClaimIn(l, e, accounts) as real, Owing(supply, l, accounts),
                 RoundedBy(l, e, accounts) as real)
  {
    ApplyKeepsSound(l, e);
    EventTotalDue(l, e, accounts);
  }

  /** Books that record neither shares taken in nor anything paid. */
  predicate Blank(e: Books) {
    e.sharesIn == 0 && e.ptPaid == 0 && e.ytPaid == 0
  }

  lemma MoveBalances(w: World, w': World, e: Books, from: Address, to: Address, amount: nat, accounts: set<Address>)
    requires Sound(w.yt.ledger) && amount <= At(w.yt.ledger.balance, from) && Blank(e)
    requires w'.pt.totalSupply == w.pt.totalSupply && w'.yt.ledger == Apply(w.yt.ledger, YL.Move(from, to, amount))
    ensures Balances(w, w', e, 0.0, Sides(from, to) as real, accounts)
  {
    EventOwing(w.pt.totalSupply, w.yt.ledger, YL.Move(from, to, amount), accounts);
  }

  lemma SplitBalances(w: World, w': World, e: Books, me: Address, n: int, accounts: set<Address>)
    requires w.oracle.reading.Some? && Sound(w.yt.ledger) && w.yt.ledger.rate <= PriceOf(w) && n > 0
    requires e.sharesIn == n && e.ptPaid == 0 && e.ytPaid == 0
    requires var notional := PM.Notional(n, PriceOf(w));
             && notional > 0
             && w'.pt.totalSupply == w.pt.totalSupply + notional
             && w'.yt.ledger == Apply(Indexed(w), Issue(me, notional))
    ensures Balances(w, w', e, IndexEffect(w, accounts), 1.0 + PtDue(1, PriceOf(w)), accounts)
  {
    var notional := PM.Notional(n, PriceOf(w));
    ApplyKeepsSound(w.yt.ledger, IndexNow(w));
    EventOwing(w.pt.totalSupply + notional, Indexed(w), Issue(me, notional), accounts);
    MintCovers(w.pt.totalSupply, n, PriceOf(w));
  }

  lemma ClaimBalances(w: World, w': World, e: Books, me: Address, accounts: set<Address>)
    requires w.oracle.reading.Some? && Sound(w.yt.ledger) && me in accounts
    requires w'.pt.totalSupply == w.pt.totalSupply && w'.yt.ledger == Apply(Indexed(w), Claim(me))
    requires e.sharesIn == 0 && e.ptPaid == 0 && e.ytPaid == Claimable(Indexed(w), me)
    ensures Balances(w, w', e, IndexEffect(w, accounts), 1.0, accounts)
  {
    ApplyKeepsSound(w.yt.ledger, IndexNow(w));
    EventOwing(w.pt.totalSupply, Indexed(w), Claim(me), accounts);
  }

  lemma SplitAccounted(c: Config, w: World, me: Address, n: int, accounts: set<Address>)
    requires c.Valid() && Inv(c, w) && Step(c, w, Tx(me, OnManager(Split(n)))).Ok?
    ensures Accounted(c, w, Tx(me, OnManager(Split(n))), accounts)
  {
    var tx := Tx(me, OnManager(Split(n)));
    MintEffect(c, w, me, me, n);
    SplitBalances(w, Next(c, w, tx), Entry(c, w, tx), me, n, accounts);
  }

  lemma ClaimAccounted(c: Config, w: World, me: Address, accounts: set<Address>)
    requires c.Valid() && Inv(c, w) && Step(c, w, Tx(me, OnManager(ClaimAccrued))).Ok?
    requires Next(c, w, Tx(me, OnManager(ClaimAccrued))).yt.ledger.snapshot.Keys <= accounts
    ensures Accounted(c, w, Tx(me, OnManager(ClaimAccrued)), accounts)
  {
    var tx := Tx(me, OnManager(ClaimAccrued));
    ClaimEffect(c, w, me, me);
    ClaimantKnown(Indexed(w), me);
    ClaimBalances(w, Next(c, w, tx), Entry(c, w, tx), me, accounts);
  }

  /** What a redemption does to the PT supply and the yield ledger. */
  ghost predicate RedeemedBy(w: World, w': World, from: Address, p: int, y: int, fromPt: int, fromYt: int)
    requires w.oracle.reading.Some?
  {
    && w'.pt.totalSupply == w.pt.totalSupply - Nat(p)
    && fromPt == (if p > 0 then PM.Principal(p, PriceOf(w)) else 0)
    && (y > 0 ==> && y <= At(w.yt.ledger.balance, from)
                  && w'.yt.ledger == Apply(Apply(Indexed(w), Destroy(from, y)), Claim(from))
                  && fromYt == Claimable(Apply(Indexed(w), Destroy(from, y)), from))
    && (y <= 0 ==> w'.yt.ledger == w.yt.ledger && fromYt == 0)
  }

  lemma RedeemLedgers(c: Config, w: World, from: Address, p: int, y: int)
    requires c.Valid() && Inv(c, w) && PM.Redeem(c, w, from, from, p, y).Ok?
    ensures var r := PM.Redeem(c, w, from, from, p, y).value;
            RedeemedBy(w, r.world, from, p, y, r.fromPt, r.fromYt)
  {
    RedeemEffect(c, w, from, from, p, y);
  }

  /** Both legs of a redemption by `from`, for the caller itself or for the escrow. */
  lemma RedeemOwing(c: Config, w: World, w': World, from: Address, p: int, y: int, fromPt: int, fromYt: int,
      accounts: set<Address>)
    requires Inv(c, w) && RedeemedBy(w, w', from, p, y, fromPt, fromYt) && (y > 0 ==> from in accounts)
    ensures w'.yt.ledger.rate > 0
    ensures Near(Owing(w'.pt.totalSupply, w'.yt.ledger, accounts) + (fromPt + fromYt) as real,
                 Owing(w.pt.totalSupply, w.yt.ledger, accounts)
                   - if y > 0 then IndexEffect(w, accounts) else LateGain(p, w.yt.ledger.rate, PriceOf(w)),
                 Legs(p, y) as real)
  {
    if y > 0 {
      ApplyKeepsSound(w.yt.ledger, IndexNow(w));
      BothLegsOwing(w.pt.totalSupply, p, Indexed(w), from, y, PriceOf(w), accounts);
    } else {
      PtLegOwing(w.pt.totalSupply, p, w.yt.ledger, PriceOf(w), accounts);
    }
  }

  lemma BothLegsOwing(supply: int, p: int, l: Ledger, a: Address, y: nat, price: OracleAdapter.Price,
      accounts: set<Address>)
    requires Sound(l) && l.rate == price && y <= At(l.balance, a) && a in accounts
    ensures var burnt := Apply(l, Destroy(a, y));
            && Apply(burnt, Claim(a)).rate == l.rate
            && Near(Owing(supply - Nat(p), Apply(burnt, Claim(a)), accounts)
                      + ((if p > 0 then PM.Principal(p, price) else 0) + Claimable(burnt, a)) as real,
                    Owing(supply, l, accounts), (Legs(p, 0) + 1) as real)
  {
    BurnAndClaimOwing(supply - Nat(p), l, a, y, accounts);
    PtLegOwing(supply, p, l, price, accounts);
  }

  lemma PtLegOwing(supply: int, p: int, l: Ledger, price: OracleAdapter.Price, accounts: set<Address>)
    requires 0 < l.rate <= price
    ensures Near(Owing(supply - Nat(p), l, accounts) + (if p > 0 then PM.Principal(p, price) else 0) as real,
                 Owing(supply, l, accounts) - LateGain(p, l.rate, price), Legs(p, 0) as real)
  {
    if p > 0 {
      RedeemCovers(supply, p, l.rate, price);
    }
  }

  lemma BurnAndClaimOwing(supply: int, l: Ledger, a: Address, y: nat, accounts: set<Address>)
    requires Sound(l) && y <= At(l.balance, a) && a in accounts
    ensures var burnt := Apply(l, Destroy(a, y));
            && Apply(burnt, Claim(a)).rate == l.rate
            && Near(Owing(supply, Apply(burnt, Claim(a)), accounts) + Claimable(burnt, a) as real,
                    Owing(supply, l, accounts), 1.0)
  {
    var burnt := Apply(l, Destroy(a, y));
    EventOwing(supply, l, Destroy(a, y), accounts);
    EventOwing(supply, burnt, Claim(a), accounts);
    assert Rounded(burnt, a) == 0;
  }

  lemma RedeemAccounted(c: Config, w: World, tx: Tx, accounts: set<Address>)
    requires c.Valid() && Inv(c, w) && Step(c, w, tx).Ok? && tx.op.OnManager? && tx.op.pm.Redeem?
    requires Next(c, w, tx).yt.ledger.snapshot.Keys <= accounts
    ensures Accounted(c, w, tx, accounts)
  {
    var from, p, y := tx.signer, tx.op.pm.ptAmount, tx.op.pm.ytAmount;
    var r := PM.Redeem(c, w, from, from, p, y).value;
    RedeemLedgers(c, w, from, p, y);
    RedeemBalances(c, w, r.world, Entry(c, w, tx), from, p, y, r.fromPt, r.fromYt, accounts);
  }

  lemma RedeemBalances(c: Config, w: World, w': World, e: Books, from: Address, p: int, y: int, fromPt: int,
      fromYt: int, accounts: set<Address>)
    requires Inv(c, w) && RedeemedBy(w, w', from, p, y, fromPt, fromYt) && w'.yt.ledger.snapshot.Keys <= accounts
    requires e.sharesIn == 0 && e.ptPaid == fromPt && e.ytPaid == fromYt
    ensures Balances(w, w', e, if y > 0 then IndexEffect(w, accounts) else LateGain(p, w.yt.ledger.rate, PriceOf(w)),
                     Legs(p, y) as real, accounts)
  {
    RedeemerKnown(w, w', from, p, y, fromPt, fromYt);
    RedeemOwing(c, w, w', from, p, y, fromPt, fromYt, accounts);
  }

  lemma FinalizeAccounted(c: Config, w: World, tx: Tx, accounts: set<Address>)
    requires c.Valid() && Inv(c, w) && Step(c, w, tx).Ok? && tx.op.OnEscrow?
    requires tx.op.recovery.FinalizePt? || tx.op.recovery.FinalizeYt?
    requires Next(c, w, tx).yt.ledger.snapshot.Keys <= accounts
    ensures Accounted(c, w, tx, accounts)
  {
    var amount := tx.op.recovery.amount;
    var p, y := if tx.op.recovery.FinalizePt? then amount else 0, if tx.op.recovery.FinalizePt? then 0 else amount;
    var r := PM.Redeem(c, w, c.escrow, c.escrow, p, y).value;
    RedeemLedgers(c, w, c.escrow, p, y);
    RedeemEffect(c, w, c.escrow, c.escrow, p, y);
    RedeemBalances(c, w, r.world, Entry(c, w, tx), c.escrow, p, y, r.fromPt, r.fromYt, accounts);
  }

  lemma RedeemerKnown(w: World, w': World, from: Address, p: int, y: int, fromPt: int, fromYt: int)
    requires w.oracle.reading.Some? && RedeemedBy(w, w', from, p, y, fromPt, fromYt)
    ensures y > 0 ==> from in w'.yt.ledger.snapshot.Keys
  {
    if y > 0 {
      ClaimantKnown(Apply(Indexed(w), Destroy(from, y)), from);
    }
  }

  /** A claim leaves its account with a snapshot. */
  lemma ClaimantKnown(l: Ledger, a: Address)
    ensures a in Apply(l, Claim(a)).snapshot.Keys
  {
  }

  lemma RecoverAccounted(c: Config, w: World, tx: Tx, accounts: set<Address>)
    requires c.Valid() && Inv(c, w) && Step(c, w, tx).Ok? && tx.op.OnEscrow?
    requires !tx.op.recovery.FinalizePt? && !tx.op.recovery.FinalizeYt?
    ensures Accounted(c, w, tx, accounts)
  {
    match tx.op.recovery
    case RecoverSy(account, n) => SeizeSyEffect(c, w, tx.signer, tx.signer, account, n);
    case RecoverPt(_, _) =>
    case RecoverYt(account, amount) =>
      MoveBalances(w, Next(c, w, tx), Entry(c, w, tx), account, c.escrow, amount, accounts);
  }

  lemma YtCallAccounted(c: Config, w: World, tx: Tx, accounts: set<Address>)
    requires c.Valid() && Inv(c, w) && Step(c, w, tx).Ok? && (tx.op.OnYt? || tx.op.YtUpdateIndex? || tx.op.YtClaim?)
    ensures Accounted(c, w, tx, accounts)
  {
    match tx.op
    case OnYt(call) =>
      if call.Move? {
        MoveBalances(w, Next(c, w, tx), Entry(c, w, tx), tx.signer, call.to, call.amount, accounts);
      } else if call.MoveFrom? {
        MoveBalances(w, Next(c, w, tx), Entry(c, w, tx), call.from, call.to, call.amount, accounts);
      }
    case YtUpdateIndex => UpdateEffect(w);
    case YtClaim(_) =>
  }

  lemma ManagerAccounted(c: Config, w: World, tx: Tx, accounts: set<Address>)
    requires c.Valid() && Inv(c, w) && Step(c, w, tx).Ok? && tx.op.OnManager?
    requires Next(c, w, tx).yt.ledger.snapshot.Keys <= accounts
    ensures Accounted(c, w, tx, accounts)
  {
    if tx.op.pm.Split? {
      SplitAccounted(c, w, tx.signer, tx.op.pm.shares, accounts);
    } else if tx.op.pm.Redeem? {
      RedeemAccounted(c, w, tx, accounts);
    } else if tx.op.pm.ClaimAccrued? {
      ClaimAccounted(c, w, tx.signer, accounts);
    }
  }

  lemma EscrowAccounted(c: Config, w: World, tx: Tx, accounts: set<Address>)
    requires c.Valid() && Inv(c, w) && Step(c, w, tx).Ok? && tx.op.OnEscrow?
    requires Next(c, w, tx).yt.ledger.snapshot.Keys <= accounts
    ensures Accounted(c, w, tx, accounts)
  {
    if tx.op.recovery.FinalizePt? || tx.op.recovery.FinalizeYt? {
      FinalizeAccounted(c, w, tx, accounts);
    } else {
      RecoverAccounted(c, w, tx, accounts);
    }
  }

  /** Calls that reach neither PT supply nor the yield ledger. */
  lemma QuietAccounted(c: Config, w: World, tx: Tx, accounts: set<Address>)
    requires c.Valid() && Inv(c, w) && (tx.op.Around? || tx.op.SetPrice? || tx.op.OnSy? || tx.op.OnPt?)
    ensures Accounted(c, w, tx, accounts)
  {
    if tx.op.OnPt? {
      PtCallKeepsSupply(c, w, tx);
    }
  }

  lemma StepAccounted(c: Config, w: World, tx: Tx, accounts: set<Address>)
    requires c.Valid() && Inv(c, w) && Step(c, w, tx).Ok? && Next(c, w, tx).yt.ledger.snapshot.Keys <= accounts
    ensures Accounted(c, w, tx, accounts)
  {
    if tx.op.OnManager? {
      ManagerAccounted(c, w, tx, accounts);
    } else if tx.op.OnEscrow? {
      EscrowAccounted(c, w, tx, accounts);
    } else if tx.op.OnYt? || tx.op.YtUpdateIndex? || tx.op.YtClaim? {
      YtCallAccounted(c, w, tx, accounts);
    } else {
      QuietAccounted(c, w, tx, accounts);
    }
  }

  /** `x` is `base`, or exceeds it by at most `slack`. */
  ghost predicate Above(x: real, base: real, slack: real) {
    base <= x <= base + slack
  }

  /** What a transaction does to the surplus on purpose: the index update it makes, PT it pays late, shares
      given to the manager and shares seized from it. */
  ghost function DriftOf(c: Config, w: World, tx: Tx, accounts: set<Address>): real
    requires w.oracle.reading.Some? && w.yt.ledger.rate > 0
  {
    EffectOf(c, w, tx, accounts) + LateOf(c, w, tx) + (Entry(c, w, tx).gifts - Entry(c, w, tx).seized) as real
  }

  /** The law of motion of the surplus: every transaction, by anyone, changes it by its drift and, in favour of
      custody, by no more than its roundings. */
  lemma StepSurplus(c: Config, w: World, tx: Tx, accounts: set<Address>)
    requires c.Valid() && Inv(c, w) && Next(c, w, tx).yt.ledger.snapshot.Keys <= accounts
    ensures Next(c, w, tx).yt.ledger.rate > 0
    ensures Above(SurplusOf(c, Next(c, w, tx), accounts), SurplusOf(c, w, accounts) + DriftOf(c, w, tx, accounts),
                  RoundingOf(c, w, tx))
  {
    StepKeeps(c, w, tx);
    if Step(c, w, tx).Ok? {
      StepAccounted(c, w, tx, accounts);
      CustodyStep(c, w, tx);
    }
  }

  // ---- whole runs ----

  lemma {:induction false} KeysGrow(l: Ledger, es: seq<Event>)
    requires Legal(l, es)
    ensures l.snapshot.Keys <= After(l, es).snapshot.Keys
  {
    if es == [] {
    } else {
      KeysGrow(l, es[..|es| - 1]);
    }
  }

  lemma StepKeys(c: Config, w: World, tx: Tx)
    requires c.Valid() && Inv(c, w)
    ensures w.yt.ledger.snapshot.Keys <= Next(c, w, tx).yt.ledger.snapshot.Keys
  {
    StepTraced(c, w, tx);
    KeysGrow(w.yt.ledger, EventsOf(c, w, tx));
  }

  /** What the transactions of a run do to the surplus on purpose. */
  ghost function Drift(c: Config, w: World, txs: seq<Tx>, accounts: set<Address>): real
    requires c.Valid() && Inv(c, w)
  {
    if txs == [] then 0.0 else
      RunKeeps(c, w, txs[..|txs| - 1]);
      Drift(c, w, txs[..|txs| - 1], accounts) + DriftOf(c, Run(c, w, txs[..|txs| - 1]), txs[|txs| - 1], accounts)
  }

  /** What the roundings of a run can leave to custody. */
  ghost function Roundings(c: Config, w: World, txs: seq<Tx>): real
    requires c.Valid() && Inv(c, w)
  {
    if txs == [] then 0.0 else
      RunKeeps(c, w, txs[..|txs| - 1]);
      Roundings(c, w, txs[..|txs| - 1]) + RoundingOf(c, Run(c, w, txs[..|txs| - 1]), txs[|txs| - 1])
  }

  lemma {:induction false} RunSurplus(c: Config, w: World, txs: seq<Tx>, accounts: set<Address>)
    requires c.Valid() && Inv(c, w) && Run(c, w, txs).yt.ledger.snapshot.Keys <= accounts
    ensures Inv(c, Run(c, w, txs))
    ensures Above(SurplusOf(c, Run(c, w, txs), accounts), SurplusOf(c, w, accounts) + Drift(c, w, txs, accounts),
                  Roundings(c, w, txs))
  {
    RunKeeps(c, w, txs);
    if txs == [] {
    } else {
      var init, tx := txs[..|txs| - 1], txs[|txs| - 1];
      RunKeeps(c, w, init);
      StepKeys(c, Run(c, w, init), tx);
      RunSurplus(c, w, init, accounts);
      StepSurplus(c, Run(c, w, init), tx, accounts);
    }
  }

  lemma {:induction false} NothingDue(rate: nat, accounts: set<Address>)
    ensures TotalDue(Genesis(rate), accounts) == 0.0
  {
    if accounts == {} {
    } else {
      NothingDue(rate, accounts - {Pick(accounts)});
    }
  }

  lemma DeployedSurplus(c: Config, w: World, accounts: set<Address>)
    requires Deployed(w)
    ensures SurplusOf(c, w, accounts) == 0.0
  {
    NothingDue(w.yt.ledger.rate, accounts);
  }

  /** The documented equation, custody against all PT and all yield together: from deployment the difference
      is the drift, up to the accumulated roundings. So the equation holds up to a tolerance and the roundings
      if the drift stays within the tolerance, and only if it stays within the tolerance and the roundings. */
  lemma CustodyMeetsClaims(c: Config, w: World, txs: seq<Tx>, accounts: set<Address>, tolerance: real)
    requires c.Valid() && Deployed(w) && Run(c, w, txs).yt.ledger.snapshot.Keys <= accounts && tolerance >= 0.0
    ensures Inv(c, w) && Inv(c, Run(c, w, txs))
    ensures Above(SurplusOf(c, Run(c, w, txs), accounts), Drift(c, w, txs, accounts), Roundings(c, w, txs))
    ensures var difference, drift := SurplusOf(c, Run(c, w, txs), accounts), Drift(c, w, txs, accounts);
            var rounding := Roundings(c, w, txs);
            && (-tolerance <= drift <= tolerance ==> -tolerance <= difference <= tolerance + rounding)
            && (-tolerance <= difference <= tolerance ==> -tolerance - rounding <= drift <= tolerance)
  {
    DeployedInv(c, w);
    RunSurplus(c, w, txs, accounts);
    DeployedSurplus(c, w, accounts);
  }

  /** What a shortfall means: whatever run follows, claims worth the shortfall remain but for its drift and
      roundings. So they are never all paid unless one of these makes up for it. */
  lemma ShortfallRemains(c: Config, w: World, txs: seq<Tx>, accounts: set<Address>)
    requires c.Valid() && Inv(c, w) && Run(c, w, txs).yt.ledger.snapshot.Keys <= accounts
    ensures Inv(c, Run(c, w, txs))
    ensures var z := Run(c, w, txs);
            Owing(z.pt.totalSupply, z.yt.ledger, accounts)
            >= -SurplusOf(c, w, accounts) - Drift(c, w, txs, accounts) - Roundings(c, w, txs)
  {
    RunSurplus(c, w, txs, accounts);
  }
}
