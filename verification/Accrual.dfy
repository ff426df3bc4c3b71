/** Yield accrual over whole runs of a deployed market. */
module Accrual {
  import opened Base
  import opened Arith
  import opened World
  import PM = PrincipalManager
  import opened Effects
  import opened YL = YieldLedger
  import opened YieldRow
  import LazyEager
  import opened Market
  import opened History

  function LedgerOf(c: Config, w: World, txs: seq<Tx>): Ledger {
    Run(c, w, txs).yt.ledger
  }

  /** Accepted index moves of a run. */
  ghost function MovesIn(c: Config, w: World, txs: seq<Tx>): nat
    requires c.Valid() && Inv(c, w)
  {
    RunTraced(c, w, txs);
    IndexMoves(w.yt.ledger, Trace(c, w, txs))
  }

  /** Index moves from a world through a run and into the update that a final call makes itself. */
  ghost function MovesThrough(c: Config, w: World, txs: seq<Tx>): nat
    requires c.Valid() && Inv(c, w)
  {
    RunKeeps(c, w, txs);
    var z := Run(c, w, txs);
    MovesIn(c, w, txs) + if PriceOf(z) > z.yt.ledger.rate then 1 else 0
  }

  /** What concerns `a` in a run: index updates and the calls that change or claim its position. */
  ghost function ActsOf(c: Config, w: World, txs: seq<Tx>, a: Address): seq<Act>
    requires c.Valid() && Inv(c, w)
  {
    Project(Trace(c, w, txs), a)
  }

  lemma RunProjects(c: Config, w: World, txs: seq<Tx>, a: Address)
    requires c.Valid() && Inv(c, w)
    ensures Feasible(RowOf(w.yt.ledger, a), ActsOf(c, w, txs, a))
    ensures RowOf(LedgerOf(c, w, txs), a) == DoAll(RowOf(w.yt.ledger, a), ActsOf(c, w, txs, a))
    ensures MovesIn(c, w, txs) == RowMoves(RowOf(w.yt.ledger, a), ActsOf(c, w, txs, a))
    ensures YieldPaidTo(c, w, txs, a) == RowCollected(RowOf(w.yt.ledger, a), ActsOf(c, w, txs, a))
    ensures Sound(w.yt.ledger) ==> Ordered(RowOf(w.yt.ledger, a))
  {
    RunTraced(c, w, txs);
    Projection(w.yt.ledger, Trace(c, w, txs), a);
    ProjectionTotals(w.yt.ledger, Trace(c, w, txs), a);
  }

  /** Accrual non-interference: two runs, even of two markets, in which the same acts concern `a`
      leave it the same YT balance, snapshot and pending claim, and pay it the same yield. */
  lemma AccountsAreIndependent(c: Config, w: World, txs: seq<Tx>, c': Config, w': World, txs': seq<Tx>, a: Address)
    requires c.Valid() && Inv(c, w) && c'.Valid() && Inv(c', w')
    requires RowOf(w.yt.ledger, a) == RowOf(w'.yt.ledger, a)
    requires ActsOf(c, w, txs, a) == ActsOf(c', w', txs', a)
    ensures RowOf(LedgerOf(c, w, txs), a) == RowOf(LedgerOf(c', w', txs'), a)
    ensures YieldPaidTo(c, w, txs, a) == YieldPaidTo(c', w', txs', a)
  {
    RunProjects(c, w, txs, a);
    RunProjects(c', w', txs', a);
  }

  /** Index path independence: wherever the rate went in between, after `k` accepted moves the index
      is within `k` of floor(SCALE * r0 / r), from below. */
  lemma IndexPathIndependent(c: Config, w: World, txs: seq<Tx>)
    requires c.Valid() && Deployed(w)
    ensures Inv(c, w)
    ensures var r0, r := PriceOf(w), LedgerOf(c, w, txs).rate;
            var f, k := LedgerOf(c, w, txs).index, MovesIn(c, w, txs);
            r >= r0 && WithinPath(SCALE * r0, f, k, r)
  {
    DeployedInv(c, w);
    RunProjects(c, w, txs, 0);
    IndexRateProduct(RowOf(w.yt.ledger, 0), ActsOf(c, w, txs, 0));
    var l := LedgerOf(c, w, txs);
    assert l.rate >= PriceOf(w);
    FloorWithin(SCALE * PriceOf(w), l.index, MovesIn(c, w, txs), l.rate);
  }

  /** n - k*(r-1) <= f*r <= n, so f is floor(n/r) up to k. */
  predicate WithinPath(n: nat, f: nat, k: nat, r: nat) {
    && r > 0
    && n - k * (r - 1) <= f * r <= n
    && f <= n / r <= f + k
  }

  lemma FloorWithin(n: nat, f: nat, k: nat, r: nat)
    requires r > 0 && f * r <= n <= f * r + k * (r - 1)
    ensures WithinPath(n, f, k, r)
  {
    QuotientAtLeast(f, n, r);
    assert (f + k + 1) * r == f * r + k * (r - 1) + k + r;
    QuotientBelow(f + k + 1, n, r);
  }

  /** When path independence is exact: in any reachable state a higher price brings the index to
      floor(SCALE*r0/R) if and only if the shortfall so far and the remainder now dropped stay below R. */
  lemma IndexExactIff(c: Config, w: World, txs: seq<Tx>, R: nat)
    requires c.Valid() && Deployed(w) && R > LedgerOf(c, w, txs).rate
    ensures var n, l := SCALE * PriceOf(w), LedgerOf(c, w, txs);
            var product := l.index * l.rate;
            NextIndex(l.index, l.rate, R) == n / R <==> product % R + (n - product) < R
  {
    IndexPathIndependent(c, w, txs);
    var l := LedgerOf(c, w, txs);
    UpdateExactIff(SCALE * PriceOf(w), l.index, l.rate, R);
  }

  /** Lazy refines eager, market-wide: paid, pending and not-yet-settled yield of any set of holders
      is at most what crediting the whole supply at each index move would have granted. */
  lemma LazyRefinesEagerInMarket(c: Config, w: World, txs: seq<Tx>, holders: set<Address>)
    requires c.Valid() && Deployed(w)
    ensures Inv(c, w) && Legal(w.yt.ledger, Trace(c, w, txs))
    ensures forall a :: LazyEager.LazyOf(w.yt.ledger, Trace(c, w, txs), a) ==
              YieldPaidTo(c, w, txs, a) + At(LedgerOf(c, w, txs).pending, a) + OwedTo(LedgerOf(c, w, txs), a)
    ensures LazyEager.LazyTotal(w.yt.ledger, Trace(c, w, txs), holders) as real <= Eager(w.yt.ledger, Trace(c, w, txs))
  {
    DeployedInv(c, w);
    RunTraced(c, w, txs);
    LazyEager.LazyRefinesEager(PriceOf(w), Trace(c, w, txs), holders);
  }

  /** Exactly-once payment: whatever `settle` credited to an account was paid to it by `claim_yield`
      or the yield leg of a redemption, or is still pending; never both and never twice. */
  lemma PaidExactlyOnce(c: Config, w: World, txs: seq<Tx>, a: Address)
    requires c.Valid() && Deployed(w)
    ensures Inv(c, w) && Legal(w.yt.ledger, Trace(c, w, txs))
    ensures Credited(w.yt.ledger, Trace(c, w, txs), a) == YieldPaidTo(c, w, txs, a) + At(LedgerOf(c, w, txs).pending, a)
  {
    DeployedInv(c, w);
    RunTraced(c, w, txs);
    RunProjects(c, w, txs, a);
    ProjectionTotals(w.yt.ledger, Trace(c, w, txs), a);
    CreditedOnce(RowOf(w.yt.ledger, a), ActsOf(c, w, txs, a));
  }

  /** Nothing pending, and the snapshot at the index: everything accrued has been taken. */
  predicate Taken(r: Row) {
    r.snapshot == r.index && r.pending == 0
  }

  /** While the index stands still nothing is credited, whatever else happens to the account. */
  lemma {:induction false} TakenStays(r: Row, acts: seq<Act>)
    requires Taken(r) && Feasible(r, acts) && RowMoves(r, acts) == 0
    ensures Taken(DoAll(r, acts)) && DoAll(r, acts).index == r.index && RowCollected(r, acts) == 0
  {
    if acts == [] {
    } else {
      TakenStays(r, acts[..|acts| - 1]);
    }
  }

  /** Neither a run nor a claim or a redemption of any amounts after it pays `a` yield. */
  ghost predicate PaysNoYield(c: Config, w: World, txs: seq<Tx>, a: Address) {
    && YieldPaidTo(c, w, txs, a) == 0
    && YieldPaid(c, Run(c, w, txs), Tx(a, OnManager(ClaimAccrued)), a) == 0
    && (forall p: int, y: int :: YieldPaid(c, Run(c, w, txs), Tx(a, OnManager(Market.Redeem(p, y))), a) == 0)
  }

  /** An account from which everything has been taken is paid no yield in any run without an index move,
      nor by a claim or a redemption after it. */
  lemma TakenIsPaidNothing(c: Config, w: World, txs: seq<Tx>, a: Address)
    requires c.Valid() && Inv(c, w) && Taken(RowOf(w.yt.ledger, a)) && MovesThrough(c, w, txs) == 0
    ensures PaysNoYield(c, w, txs, a)
  {
    RunKeeps(c, w, txs);
    RunProjects(c, w, txs, a);
    TakenStays(RowOf(w.yt.ledger, a), ActsOf(c, w, txs, a));
    TakenNow(c, Run(c, w, txs), a);
  }

  lemma TakenNow(c: Config, z: World, a: Address)
    requires c.Valid() && Inv(c, z) && Taken(RowOf(z.yt.ledger, a)) && PriceOf(z) <= z.yt.ledger.rate
    ensures YieldPaid(c, z, Tx(a, OnManager(ClaimAccrued)), a) == 0
    ensures forall p: int, y: int :: YieldPaid(c, z, Tx(a, OnManager(Market.Redeem(p, y))), a) == 0
  {
    assert Indexed(z) == z.yt.ledger;
    TakenClaims(z.yt.ledger, a);
    ClaimEffect(c, z, a, a);
    forall p: int, y: int ensures YieldPaid(c, z, Tx(a, OnManager(Market.Redeem(p, y))), a) == 0 {
      RedeemEffect(c, z, a, a, p, y);
    }
  }

  lemma TakenClaims(l: Ledger, a: Address)
    requires Taken(RowOf(l, a))
    ensures Claimable(l, a) == 0
    ensures forall y: nat | y <= At(l.balance, a) :: Claimable(Apply(l, Destroy(a, y)), a) == 0
  {
    assert OwedTo(l, a) == 0;
  }

  /** After a claim, however much later, as long as no higher price is met: neither the run in between
      nor a further claim or redemption of any amounts pays the account yield. */
  lemma NothingLeftAfterClaim(c: Config, w: World, a: Address, txs: seq<Tx>)
    requires c.Valid() && Inv(c, w) && Step(c, w, Tx(a, OnManager(ClaimAccrued))).Ok?
    ensures var h := Next(c, w, Tx(a, OnManager(ClaimAccrued)));
            Inv(c, h) && (MovesThrough(c, h, txs) == 0 ==> PaysNoYield(c, h, txs, a))
  {
    var h := Next(c, w, Tx(a, OnManager(ClaimAccrued)));
    StepKeeps(c, w, Tx(a, OnManager(ClaimAccrued)));
    ClaimTakesAll(c, w, a);
    if MovesThrough(c, h, txs) == 0 {
      TakenIsPaidNothing(c, h, txs, a);
    }
  }

  lemma ClaimTakesAll(c: Config, w: World, a: Address)
    requires c.Valid() && Inv(c, w) && Step(c, w, Tx(a, OnManager(ClaimAccrued))).Ok?
    ensures Taken(RowOf(Next(c, w, Tx(a, OnManager(ClaimAccrued))).yt.ledger, a))
  {
    ClaimEffect(c, w, a, a);
    ApplyProjects(Indexed(w), Claim(a), a);
  }

  /** Settling before a balance moves is what protects both sides: no transfer, seizure, mint or burn,
      of one's own units or another's, changes what anyone could claim at the current index. */
  lemma BalanceChangesKeepClaims(l: Ledger, e: Event, a: Address)
    requires Sound(l) && Enabled(l, e) && !e.Index? && e != Claim(a)
    ensures Claimable(Apply(l, e), a) == Claimable(l, a)
  {
    var r := RowOf(l, a);
    ApplyProjects(l, e, a);
    SettleProjects(l, a, a);
    SettleProjects(Apply(l, e), a, a);
    SettledRowKeeps(r, if ActsIn(e, a) == [] then 0 else ActsIn(e, a)[0].delta);
  }

  /** A lower index never lowers what an account could claim. */
  lemma IndexKeepsClaims(l: Ledger, now: nat, a: Address)
    requires Sound(l)
    ensures Claimable(Apply(l, Index(now)), a) >= Claimable(l, a)
  {
    var z := Apply(l, Index(now));
    IndexFalls(l.index, l.rate, now);
    OwedRises(At(l.balance, a), SnapshotOf(l, a), l.index, z.index);
  }

  lemma OwedRises(b: nat, s: nat, f: nat, f': nat)
    requires f' <= f <= s
    ensures Owed(b, s, f) <= Owed(b, s, f')
  {
    if f < s && b > 0 {
      DivBounds(b * (s - f), s);
      MulMonotone(s - f, s - f', b);
      QuotientAtLeast(Owed(b, s, f), b * (s - f'), s);
    }
  }

  /** Over any history, only a claim of its own lowers what an account could claim. */
  lemma {:induction false} OnlyClaimsTake(l: Ledger, es: seq<Event>, a: Address)
    requires Sound(l) && Legal(l, es) && Claim(a) !in es
    ensures Claimable(After(l, es), a) >= Claimable(l, a)
  {
    if es == [] {
    } else {
      var init, e := es[..|es| - 1], es[|es| - 1];
      OnlyClaimsTake(l, init, a);
      AfterSound(l, init);
      if e.Index? {
        IndexKeepsClaims(After(l, init), e.now, a);
      } else {
        BalanceChangesKeepClaims(After(l, init), e, a);
      }
    }
  }

  lemma SettledRowKeeps(r: Row, delta: int)
    requires Ordered(r) && r.balance + delta >= 0
    ensures SettleRow(Do(r, Change(delta))).pending == SettleRow(r).pending
  {
  }

  /** A mint brings the index to the price that valued it before crediting the new units: the old
      holding is settled, and the position owns nothing of any earlier move. */
  lemma MintEarnsNothingPast(c: Config, w: World, a: Address, n: int)
    requires c.Valid() && Inv(c, w) && Step(c, w, Tx(a, OnManager(Split(n)))).Ok?
    ensures var l, l' := w.yt.ledger, Next(c, w, Tx(a, OnManager(Split(n)))).yt.ledger;
            && l'.rate == PriceOf(w)
            && SnapshotOf(l', a) == l'.index
            && OwedTo(l', a) == 0
            && At(l'.pending, a) == At(l.pending, a) + Owed(At(l.balance, a), SnapshotOf(l, a), l'.index)
            && At(l'.balance, a) == At(l.balance, a) + PM.Notional(n, PriceOf(w))
  {
    MintEffect(c, w, a, a, n);
    SettleProjects(Indexed(w), a, a);
  }

  /** Settlement-schedule bound in the market: a holder whose balance stays the same through a run and
      whose snapshot stands at the index is credited T with b*(f0-f)/f0 - m < T <= b*(f0-f)/f. */
  lemma ScheduleBoundInMarket(c: Config, w: World, txs: seq<Tx>, a: Address)
    requires c.Valid() && Inv(c, w) && Steady(ActsOf(c, w, txs, a))
    ensures Legal(w.yt.ledger, Trace(c, w, txs))
    ensures var l := w.yt.ledger;
            var b, f0, f := At(l.balance, a), SnapshotOf(l, a), SnapshotOf(LedgerOf(c, w, txs), a);
            var t, m := Credited(l, Trace(c, w, txs), a), Settlements(ActsOf(c, w, txs, a));
            At(LedgerOf(c, w, txs).balance, a) == b && WithinSchedule(b, f0, f, t, m)
  {
    RunTraced(c, w, txs);
    RunProjects(c, w, txs, a);
    ProjectionTotals(w.yt.ledger, Trace(c, w, txs), a);
    ScheduleBound(RowOf(w.yt.ledger, a), ActsOf(c, w, txs, a));
  }

  /** Single-settle accuracy in the market: an account left alone from a snapshot at recorded rate r to
      recorded rate R is owed at least floor(b*(R-r)/R) and at most b*(R-r)/R + b*k/f0. */
  lemma SettleAccuracyInMarket(c: Config, w: World, txs: seq<Tx>, a: Address)
    requires c.Valid() && Inv(c, w) && Idle(ActsOf(c, w, txs, a))
    requires SnapshotOf(w.yt.ledger, a) == w.yt.ledger.index > 0
    ensures var l, z := w.yt.ledger, LedgerOf(c, w, txs);
            var b, f0, k := At(l.balance, a), SnapshotOf(l, a), MovesIn(c, w, txs);
            WithinAccuracy(b, f0, l.rate, z.rate, k, OwedTo(z, a))
  {
    RunProjects(c, w, txs, a);
    SettleAccuracy(RowOf(w.yt.ledger, a), ActsOf(c, w, txs, a));
  }

  /** Bounded arithmetic forever: the index stays between 0 and every snapshot, a holder always has a
      snapshot, and if SCALE * genesis rate and SCALE * supply fit the integer width then so does every
      product a later index update or settlement forms, however high the oracle goes. */
  lemma ArithmeticBounded(c: Config, w: World, txs: seq<Tx>, a: Address)
    requires c.Valid() && Deployed(w)
    ensures var l := LedgerOf(c, w, txs);
            && 0 <= l.index <= SnapshotOf(l, a) <= SCALE
            && (At(l.balance, a) > 0 ==> a in l.snapshot)
            && OwedTo(l, a) <= At(l.balance, a) <= l.supply
            && (SCALE * PriceOf(w) <= I128_MAX ==> l.index * l.rate <= I128_MAX)
            && (SCALE * l.supply <= I128_MAX ==> At(l.balance, a) * (SnapshotOf(l, a) - l.index) <= I128_MAX)
  {
    IndexPathIndependent(c, w, txs);
    RunKeeps(c, w, txs);
    var l := LedgerOf(c, w, txs);
    AtMostTotal(l.balance, a);
    OwedBounded(At(l.balance, a), SnapshotOf(l, a), l.index);
    var d := SnapshotOf(l, a) - l.index;
    MulMonotone(At(l.balance, a), l.supply, d);
    MulMonotone(d, SCALE, l.supply);
  }

  /** A positive index strictly falls whenever an index update finds a higher price, and otherwise
      nothing about the ledger changes. */
  lemma UpdateMovesIndexDown(c: Config, w: World, me: Address)
    requires c.Valid() && Inv(c, w) && Step(c, w, Tx(me, YtUpdateIndex)).Ok?
    ensures var l, l' := w.yt.ledger, Next(c, w, Tx(me, YtUpdateIndex)).yt.ledger;
            && (PriceOf(w) > l.rate && l.index > 0 ==> l'.index < l.index)
            && (PriceOf(w) == l.rate ==> l' == l)
            && l'.rate == PriceOf(w)
  {
    UpdateEffect(w);
    IndexFalls(w.yt.ledger.index, w.yt.ledger.rate, PriceOf(w));
  }
}
