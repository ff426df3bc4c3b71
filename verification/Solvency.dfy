/** When payouts stay within deposits, and when they do not. Each settlement interval from rate r to
    R pays b*(R-r)/R; together with the principal b*SCALE/R this exceeds the b*SCALE/r that was
    deposited as soon as an interval starts above SCALE. */
module Solvency {
  import opened Base
  import opened Arith
  import opened World
  import PM = PrincipalManager
  import opened Effects
  import opened YL = YieldLedger
  import opened YieldRow
  import LazyEager
  import opened Schedule
  import opened Market
  import opened History
  import opened Accrual
  import opened Backing

  /** The exact condition for payouts within the deposit: on the rates at which a position opened at or
      above par is settled, principal and yield are worth no more than was deposited for it if and only if
      no settlement interval starts above par. */
  lemma PaidWithinDepositIff(b: real, ps: seq<Point>)
    requires b > 0.0 && ps != [] && ps[0].rate >= SCALE && Rising(ps)
    ensures Worth(b, ps[|ps| - 1].rate) + YieldOver(b, ps) <= Worth(b, ps[0].rate) <==> SettledFromPar(ps)
  {
    PayoutIdentity(b, ps);
    ExcessSign(b, ps);
  }

  // ---- a position's schedule in a run ----

  /** The acts of a run that concern `a`, followed by the index update and the settlement of a redemption. */
  function FinalActs(acts: seq<Act>, price: Price): seq<Act> {
    acts + [Tick(price)] + [Change(0)]
  }

  /** All yield ever credited to a position that is redeemed at last was collected on the way, pending
      before or owed at the end. */
  lemma FinalCredit(r: Row, acts: seq<Act>, price: Price, y: Row)
    requires Ordered(r) && Taken(r) && Feasible(r, acts) && y == DoAll(r, acts)
    ensures Feasible(r, FinalActs(acts, price))
    ensures RowCredited(r, FinalActs(acts, price)) == RowCollected(r, acts) + y.pending + OwedOn(Do(y, Tick(price)))
    ensures Steady(acts) ==> Steady(FinalActs(acts, price))
    ensures var ps := Points(r, FinalActs(acts, price));
            |ps| > 1 && ps[|ps| - 1].rate == Do(y, Tick(price)).rate
  {
    CreditedOnce(r, acts);
    DoSnoc(r, acts, Tick(price));
    DoSnoc(r, acts + [Tick(price)], Change(0));
    DoAllOrdered(r, acts + [Tick(price)]);
    assert FinalActs(acts, price)[..|acts| + 1] == acts + [Tick(price)];
  }

  /** The settlements of a position through a run and a redemption after it. */
  ghost function ScheduleOf(c: Config, w: World, txs: seq<Tx>, a: Address): (ps: seq<Point>)
    requires c.Valid() && Inv(c, w) && Taken(RowOf(w.yt.ledger, a))
    ensures ps != []
  {
    RunKeeps(c, w, txs);
    RunProjects(c, w, txs, a);
    var r, price := RowOf(w.yt.ledger, a), PriceOf(Run(c, w, txs));
    FinalCredit(r, ActsOf(c, w, txs, a), price, RowOf(LedgerOf(c, w, txs), a));
    Points(r, FinalActs(ActsOf(c, w, txs, a), price))
  }

  /** At most the deposit, the excess of the schedule and the carry; and while the index is live, less than
      one unit short of deposit and excess for each settlement and one for the principal. */
  ghost predicate WithinPayout(n: nat, ps: seq<Point>, paid: int)
    requires ps != []
  {
    var exact := Worth(n as real, ps[0].rate) + Excess(n as real, ps);
    && paid as real <= exact + n as real * Carry(ps)
    && (Live(ps) ==> exact - |ps| as real < paid as real)
  }

  lemma PrincipalWorth(n: nat, price: Price)
    ensures Worth(n as real, price) - 1.0 < PM.Principal(n, price) as real <= Worth(n as real, price)
  {
    var p, R := PM.Principal(n, price), price as real;
    DivBounds(n * SCALE, price);
    CastProduct(n, SCALE);
    CastProduct(p + 1, price);
    LowerQuotient((p + 1) as real, n as real * PAR, R);
    LazyEager.FloorBelow(p, n * SCALE, price);
  }

  lemma PayoutFromYield(n: nat, ps: seq<Point>, t: nat, price: Price, paid: int)
    requires |ps| > 1 && ps[|ps| - 1].rate == price && Follows(n, ps, t)
    requires paid == t + PM.Principal(n, price)
    ensures WithinPayout(n, ps, paid)
  {
    PayoutIdentity(n as real, ps);
    PrincipalWorth(n, price);
  }

  /** What a position is paid in all, in the code's integers: whatever run it goes through, claiming as
      often as it likes while its balance stays the same, yield and redemption together come to its deposit
      plus the excess of its settlement schedule, up to the roundings. */
  lemma ScheduledPayouts(c: Config, w: World, txs: seq<Tx>, a: Address, n: nat) returns (paid: int)
    requires c.Valid() && Inv(c, w) && Taken(RowOf(w.yt.ledger, a)) && At(w.yt.ledger.balance, a) == n > 0
    requires Steady(ActsOf(c, w, txs, a))
    ensures Inv(c, Run(c, w, txs))
    ensures PaysAll(c, Run(c, w, txs), a, n, paid - YieldPaidTo(c, w, txs, a))
    ensures WithinPayout(n, ScheduleOf(c, w, txs, a), paid)
    ensures Rising(ScheduleOf(c, w, txs, a)) && ScheduleOf(c, w, txs, a)[0].rate == w.yt.ledger.rate
  {
    RunKeeps(c, w, txs);
    RunProjects(c, w, txs, a);
    var z, r, acts := Run(c, w, txs), RowOf(w.yt.ledger, a), ActsOf(c, w, txs, a);
    var y, price := RowOf(z.yt.ledger, a), PriceOf(z);
    FinalCredit(r, acts, price, y);
    CreditFollowsSchedule(r, FinalActs(acts, price));
    PointsTrack(r, FinalActs(acts, price));
    PointsTrack(r, acts);
    TickedRow(z.yt.ledger, Indexed(z), price, a);
    RedeemAll(c, z, a, n);
    var t := RowCredited(r, FinalActs(acts, price));
    paid := t + PM.Principal(n, price);
    PayoutFromYield(n, ScheduleOf(c, w, txs, a), t, price, paid);
  }

  /** Within the deposit up to the carry, if no interval starts above par; otherwise, while the index is
      live, beyond it by the positive excess, up to one unit for each settlement and one for the principal. */
  ghost predicate ComparedToDeposit(n: nat, ps: seq<Point>, paid: int)
    requires ps != []
  {
    var deposit, excess := Worth(n as real, ps[0].rate), Excess(n as real, ps);
    if SettledFromPar(ps) then paid as real <= deposit + n as real * Carry(ps)
    else excess > 0.0 && (Live(ps) ==> paid as real > deposit + excess - |ps| as real)
  }

  lemma CompareToDeposit(n: nat, ps: seq<Point>, paid: int)
    requires n > 0 && ps != [] && ps[0].rate >= SCALE && Rising(ps) && WithinPayout(n, ps, paid)
    ensures ComparedToDeposit(n, ps, paid)
  {
    ExcessSign(n as real, ps);
  }

  /** The deposit comparison in the code's integers, for a position opened at or above par. */
  lemma PaidAgainstDeposit(c: Config, w: World, txs: seq<Tx>, a: Address, n: nat) returns (paid: int)
    requires c.Valid() && Inv(c, w) && Taken(RowOf(w.yt.ledger, a)) && At(w.yt.ledger.balance, a) == n > 0
    requires Steady(ActsOf(c, w, txs, a)) && w.yt.ledger.rate >= SCALE
    ensures PaysAll(c, Run(c, w, txs), a, n, paid - YieldPaidTo(c, w, txs, a))
    ensures ComparedToDeposit(n, ScheduleOf(c, w, txs, a), paid)
  {
    paid := ScheduledPayouts(c, w, txs, a, n);
    CompareToDeposit(n, ScheduleOf(c, w, txs, a), paid);
  }

  /** So a lone holder cannot leave in one call: if custody, with what it was already paid, is no more than
      its own deposit, and the excess is worth one unit for each settlement and one for the principal, the
      redemption of its whole position fails. */
  lemma LoneHolderCannotLeave(c: Config, w: World, txs: seq<Tx>, a: Address, n: nat)
    requires c.Valid() && Inv(c, w) && Taken(RowOf(w.yt.ledger, a)) && At(w.yt.ledger.balance, a) == n > 0
    requires Steady(ActsOf(c, w, txs, a)) && Live(ScheduleOf(c, w, txs, a))
    requires (Custody(c, Run(c, w, txs)) + YieldPaidTo(c, w, txs, a)) as real
             <= Worth(n as real, ScheduleOf(c, w, txs, a)[0].rate)
    requires Excess(n as real, ScheduleOf(c, w, txs, a)) >= |ScheduleOf(c, w, txs, a)| as real
    ensures Step(c, Run(c, w, txs), Tx(a, OnManager(Redeem(n, n)))).Err?
  {
    var paid := ScheduledPayouts(c, w, txs, a, n);
    PaidFromCustody(c, Run(c, w, txs), a, n);
  }

  lemma PaidFromCustody(c: Config, z: World, a: Address, n: int)
    requires c.Valid() && Inv(c, z)
    ensures var last := Step(c, z, Tx(a, OnManager(Redeem(n, n))));
            last.Ok? ==>
              last.value.receipt.Pair? && last.value.receipt.fromPt + last.value.receipt.fromYt <= Custody(c, z)
  {
    RedeemEffect(c, z, a, a, n, n);
  }

  // ---- runs in which a position stays the same ----

  lemma {:induction false} SteadyProjection(es: seq<Event>, a: Address)
    requires forall i :: 0 <= i < |es| ==> !Settles(es[i], a) || es[i] == Claim(a)
    ensures Steady(Project(es, a))
  {
    if es == [] {
    } else {
      SteadyProjection(es[..|es| - 1], a);
      assert !Settles(es[|es| - 1], a) || es[|es| - 1] == Claim(a);
    }
  }

  lemma SteadyEvents(c: Config, w: World, tx: Tx, a: Address)
    requires w.oracle.reading.Some? && (!Touches(c, tx, a) || tx == Tx(a, OnManager(ClaimAccrued)))
    ensures var es := EventsOf(c, w, tx);
            forall i :: 0 <= i < |es| ==> !Settles(es[i], a) || es[i] == Claim(a)
  {
  }

  /** Leaving a position alone but for its own claims keeps it steady. */
  lemma {:induction false} SteadyRun(c: Config, w: World, txs: seq<Tx>, a: Address)
    requires c.Valid() && Inv(c, w)
    requires forall i :: 0 <= i < |txs| ==> !Touches(c, txs[i], a) || txs[i] == Tx(a, OnManager(ClaimAccrued))
    ensures Steady(ActsOf(c, w, txs, a))
  {
    if txs == [] {
    } else {
      var init, tx := txs[..|txs| - 1], txs[|txs| - 1];
      SteadyRun(c, w, init, a);
      RunKeeps(c, w, init);
      var es := EventsOf(c, Run(c, w, init), tx);
      SteadyEvents(c, Run(c, w, init), tx, a);
      SteadyProjection(es, a);
      ProjectAppend(Trace(c, w, init), es, a);
    }
  }

  // ---- the recorded run ----

  /** The recorded run: 500 units of asset split at par, claimed at 1.08 and redeemed at 1.10. The claim in
      between pays more than settling once would, and in all more is paid than was deposited. */
  lemma RecordedRunOverpays()
    ensures var n, r, R := 5_000_000_000, 10_800_000, 11_000_000;
            var f1 := NextIndex(SCALE, SCALE, r);
            var f2 := NextIndex(f1, r, R);
            && Owed(n, SCALE, f1) == 370_370_500
            && Owed(n, f1, f2) == 90_909_542
            && PM.Principal(n, R) == 4_545_454_545
            && Owed(n, SCALE, f1) + Owed(n, f1, f2) > Owed(n, SCALE, f2)
            && Owed(n, SCALE, f1) + Owed(n, f1, f2) + PM.Principal(n, R) > n
            && n * ((r - SCALE) * (R - r)) >= 3 * (r * R)
  {
    RecordedIndexes();
  }

  lemma RecordedIndexes()
    ensures NextIndex(SCALE, SCALE, 10_800_000) == 9_259_259
    ensures NextIndex(9_259_259, 10_800_000, 11_000_000) == 9_090_908
    ensures Owed(5_000_000_000, SCALE, 9_259_259) == 370_370_500
    ensures Owed(5_000_000_000, 9_259_259, 9_090_908) == 90_909_542
  {
  }
}
