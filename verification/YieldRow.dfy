/** One account's view of the accrual engine: the index and the account's own balance,
    snapshot and pending claim. The bounds on what an account earns are proved here. */
module YieldRow {
  import opened Base
  import opened Arith
  import opened YieldLedger

  datatype Row = Row(index: nat, rate: nat, balance: nat, snapshot: nat, pending: nat)

  /** Index updates, and the account's own balance changes and claims. */
  datatype Act = Tick(now: nat) | Change(delta: int) | Collect

  function RowOf(l: Ledger, a: Address): Row {
    Row(l.index, l.rate, At(l.balance, a), SnapshotOf(l, a), At(l.pending, a))
  }

  function OwedOn(r: Row): nat {
    Owed(r.balance, r.snapshot, r.index)
  }

  function SettleRow(r: Row): Row {
    r.(pending := r.pending + OwedOn(r), snapshot := r.index)
  }

  predicate Possible(r: Row, act: Act) {
    act.Change? ==> r.balance + act.delta >= 0
  }

  function Do(r: Row, act: Act): Row
    requires Possible(r, act)
  {
    match act
    case Tick(now) => r.(index := NextIndex(r.index, r.rate, now), rate := NextRate(r.rate, now))
    case Change(delta) => SettleRow(r).(balance := r.balance + delta)
    case Collect => SettleRow(r).(pending := 0)
  }

  predicate Feasible(r: Row, acts: seq<Act>)
    decreases |acts|, 0
  {
    acts == [] || (Feasible(r, acts[..|acts| - 1]) && Possible(DoAll(r, acts[..|acts| - 1]), acts[|acts| - 1]))
  }

  function DoAll(r: Row, acts: seq<Act>): Row
    requires Feasible(r, acts)
    decreases |acts|, 1
  {
    if acts == [] then r else Do(DoAll(r, acts[..|acts| - 1]), acts[|acts| - 1])
  }

  lemma DoSnoc(r: Row, acts: seq<Act>, act: Act)
    requires Feasible(r, acts) && Possible(DoAll(r, acts), act)
    ensures Feasible(r, acts + [act]) && DoAll(r, acts + [act]) == Do(DoAll(r, acts), act)
    ensures RowCredited(r, acts + [act]) == RowCredited(r, acts) + if act.Tick? then 0 else OwedOn(DoAll(r, acts))
    ensures RowCollected(r, acts + [act]) == RowCollected(r, acts) +
        if act.Collect? then SettleRow(DoAll(r, acts)).pending else 0
    ensures RowMoves(r, acts + [act]) == RowMoves(r, acts) + if act.Tick? && act.now > DoAll(r, acts).rate then 1 else 0
  {
    assert (acts + [act])[..|acts|] == acts;
  }

  // ---- totals along the account's acts ----

  function RowCredited(r: Row, acts: seq<Act>): nat
    requires Feasible(r, acts)
  {
    if acts == [] then 0 else
      RowCredited(r, acts[..|acts| - 1]) +
      if acts[|acts| - 1].Tick? then 0 else OwedOn(DoAll(r, acts[..|acts| - 1]))
  }

  function RowCollected(r: Row, acts: seq<Act>): nat
    requires Feasible(r, acts)
  {
    if acts == [] then 0 else
      RowCollected(r, acts[..|acts| - 1]) +
      if acts[|acts| - 1].Collect? then SettleRow(DoAll(r, acts[..|acts| - 1])).pending else 0
  }

  function RowMoves(r: Row, acts: seq<Act>): nat
    requires Feasible(r, acts)
  {
    if acts == [] then 0 else
      var act, before := acts[|acts| - 1], DoAll(r, acts[..|acts| - 1]);
      RowMoves(r, acts[..|acts| - 1]) + if act.Tick? && act.now > before.rate then 1 else 0
  }

  function Settlements(acts: seq<Act>): nat {
    if acts == [] then 0 else
      Settlements(acts[..|acts| - 1]) + if acts[|acts| - 1].Tick? then 0 else 1
  }

  // ---- projection: what an account has depends on nobody else ----

  function ActsIn(e: Event, a: Address): seq<Act> {
    match e
    case Index(now) => [Tick(now)]
    case Move(from, to, amount) =>
      if a == from && a == to then [Change(0)]
      else if a == from then [Change(-(amount as int))]
      else if a == to then [Change(amount)]
      else []
    case Issue(to, amount) => if a == to then [Change(amount)] else []
    case Destroy(from, amount) => if a == from then [Change(-(amount as int))] else []
    case Claim(who) => if a == who then [Collect] else []
  }

  /** The operations naming `a` and the index updates, in order. */
  function Project(es: seq<Event>, a: Address): seq<Act> {
    if es == [] then [] else Project(es[..|es| - 1], a) + ActsIn(es[|es| - 1], a)
  }

  lemma SettleProjects(l: Ledger, b: Address, a: Address)
    ensures RowOf(Settle(l, b), a) == if a == b then SettleRow(RowOf(l, a)) else RowOf(l, a)
    ensures SettleRow(SettleRow(RowOf(l, a))) == SettleRow(RowOf(l, a))
    ensures Settle(l, b).balance == l.balance && Settle(l, b).supply == l.supply
  {
  }

  lemma TickedRow(l: Ledger, z: Ledger, now: nat, a: Address)
    requires z == Apply(l, Index(now))
    ensures RowOf(z, a) == Do(RowOf(l, a), Tick(now))
  {
  }

  lemma ApplyProjects(l: Ledger, e: Event, a: Address)
    requires Enabled(l, e)
    ensures ActsIn(e, a) == [] ==> RowOf(Apply(l, e), a) == RowOf(l, a)
    ensures ActsIn(e, a) != [] ==> |ActsIn(e, a)| == 1 && Possible(RowOf(l, a), ActsIn(e, a)[0])
                                   && RowOf(Apply(l, e), a) == Do(RowOf(l, a), ActsIn(e, a)[0])
    ensures Settles(e, a) <==> ActsIn(e, a) != [] && !ActsIn(e, a)[0].Tick?
    ensures (e == Claim(a)) <==> ActsIn(e, a) == [Collect]
    ensures Claimable(l, a) == SettleRow(RowOf(l, a)).pending
  {
    SettleProjects(l, a, a);
    match e
    case Index(now) =>
    case Move(from, to, amount) =>
      MoveProjects(l, from, to, amount, a);
    case Issue(to, amount) =>
      SettleProjects(l, to, a);
    case Destroy(from, amount) =>
      SettleProjects(l, from, a);
    case Claim(who) =>
      SettleProjects(l, who, a);
  }

  lemma MoveProjects(l: Ledger, from: Address, to: Address, amount: nat, a: Address)
    requires amount <= At(l.balance, from)
    ensures var r, z := RowOf(l, a), RowOf(Apply(l, Move(from, to, amount)), a);
            z == if a == from && a == to then SettleRow(r)
                 else if a == from then SettleRow(r).(balance := r.balance - amount)
                 else if a == to then SettleRow(r).(balance := r.balance + amount)
                 else r
  {
    SettleProjects(l, from, a);
    SettleProjects(Settle(l, from), to, a);
  }

  /** Accrual non-interference: a row after any run is the row of its own projection. */
  lemma {:induction false} Projection(l: Ledger, es: seq<Event>, a: Address)
    requires Legal(l, es)
    ensures Feasible(RowOf(l, a), Project(es, a))
    ensures RowOf(After(l, es), a) == DoAll(RowOf(l, a), Project(es, a))
  {
    if es == [] {
    } else {
      var init, e := es[..|es| - 1], es[|es| - 1];
      Projection(l, init, a);
      ApplyProjects(After(l, init), e, a);
      AppendActs(RowOf(l, a), Project(init, a), ActsIn(e, a));
    }
  }

  lemma AppendActs(r: Row, acts: seq<Act>, more: seq<Act>)
    requires Feasible(r, acts) && |more| <= 1
    requires more == [] || Possible(DoAll(r, acts), more[0])
    ensures Feasible(r, acts + more)
    ensures DoAll(r, acts + more) == if more == [] then DoAll(r, acts) else Do(DoAll(r, acts), more[0])
    ensures RowCredited(r, acts + more) == RowCredited(r, acts) +
        if more == [] || more[0].Tick? then 0 else OwedOn(DoAll(r, acts))
    ensures RowCollected(r, acts + more) == RowCollected(r, acts) +
        if more == [Collect] then SettleRow(DoAll(r, acts)).pending else 0
    ensures RowMoves(r, acts + more) == RowMoves(r, acts) +
        if more != [] && more[0].Tick? && more[0].now > DoAll(r, acts).rate then 1 else 0
  {
    if more == [] {
      assert acts + more == acts;
    } else {
      assert more == [more[0]];
      DoSnoc(r, acts, more[0]);
    }
  }

  /** What an event adds to the totals of `a`, read off its act on the row. */
  lemma EventTotals(l: Ledger, e: Event, a: Address)
    requires Enabled(l, e)
    ensures |ActsIn(e, a)| <= 1 && (ActsIn(e, a) == [] || Possible(RowOf(l, a), ActsIn(e, a)[0]))
    ensures (if Settles(e, a) then OwedTo(l, a) else 0) ==
            if ActsIn(e, a) == [] || ActsIn(e, a)[0].Tick? then 0 else OwedOn(RowOf(l, a))
    ensures ClaimedBy(l, e, a) == if ActsIn(e, a) == [Collect] then SettleRow(RowOf(l, a)).pending else 0
    ensures (e.Index? && e.now > l.rate) <==>
            ActsIn(e, a) != [] && ActsIn(e, a)[0].Tick? && ActsIn(e, a)[0].now > RowOf(l, a).rate
  {
    ApplyProjects(l, e, a);
  }

  lemma TotalsStep(r: Row, acts: seq<Act>, y: Ledger, e: Event, a: Address)
    requires Feasible(r, acts) && RowOf(y, a) == DoAll(r, acts) && Enabled(y, e)
    ensures Feasible(r, acts + ActsIn(e, a))
    ensures RowCredited(r, acts + ActsIn(e, a)) == RowCredited(r, acts) + if Settles(e, a) then OwedTo(y, a) else 0
    ensures RowCollected(r, acts + ActsIn(e, a)) == RowCollected(r, acts) + ClaimedBy(y, e, a)
    ensures RowMoves(r, acts + ActsIn(e, a)) == RowMoves(r, acts) + if e.Index? && e.now > y.rate then 1 else 0
  {
    EventTotals(y, e, a);
    AppendActs(r, acts, ActsIn(e, a));
  }

  /** The totals of an account are those of its projection too. */
  lemma {:induction false} ProjectionTotals(l: Ledger, es: seq<Event>, a: Address)
    requires Legal(l, es)
    ensures Feasible(RowOf(l, a), Project(es, a))
    ensures Credited(l, es, a) == RowCredited(RowOf(l, a), Project(es, a))
    ensures Claimed(l, es, a) == RowCollected(RowOf(l, a), Project(es, a))
    ensures IndexMoves(l, es) == RowMoves(RowOf(l, a), Project(es, a))
  {
    Projection(l, es, a);
    if es == [] {
    } else {
      var init, e := es[..|es| - 1], es[|es| - 1];
      Projection(l, init, a);
      ProjectionTotals(l, init, a);
      TotalsStep(RowOf(l, a), Project(init, a), After(l, init), e, a);
    }
  }

  /** Two markets whose other holders do entirely different things treat `a` alike. */
  lemma NonInterference(l: Ledger, es: seq<Event>, l': Ledger, es': seq<Event>, a: Address)
    requires Legal(l, es) && Legal(l', es')
    requires RowOf(l, a) == RowOf(l', a) && Project(es, a) == Project(es', a)
    ensures RowOf(After(l, es), a) == RowOf(After(l', es'), a)
    ensures Claimed(l, es, a) == Claimed(l', es', a)
  {
    Projection(l, es, a);
    ProjectionTotals(l, es, a);
    Projection(l', es', a);
    ProjectionTotals(l', es', a);
  }

  // ---- bounds on the index ----

  ghost predicate Ordered(r: Row) {
    r.index <= r.snapshot <= SCALE && r.rate > 0
  }

  lemma {:induction false} DoAllOrdered(r: Row, acts: seq<Act>)
    requires Ordered(r) && Feasible(r, acts)
    ensures Ordered(DoAll(r, acts)) && DoAll(r, acts).index <= r.index
  {
    if acts == [] {
    } else {
      var init := acts[..|acts| - 1];
      DoAllOrdered(r, init);
      var z := DoAll(r, init);
      if acts[|acts| - 1].Tick? {
        IndexFalls(z.index, z.rate, acts[|acts| - 1].now);
      }
    }
  }

  /** f * r is kept by every move, up to one remainder per move. */
  predicate WithinProduct(f0: nat, r0: nat, f: nat, r: nat, k: nat) {
    r >= r0 && f * r <= f0 * r0 <= f * r + k * (r - 1)
  }

  lemma {:induction false} IndexRateProduct(r: Row, acts: seq<Act>)
    requires r.rate > 0 && Feasible(r, acts)
    ensures var z := DoAll(r, acts);
            WithinProduct(r.index, r.rate, z.index, z.rate, RowMoves(r, acts))
  {
    if acts == [] {
    } else {
      var init, act := acts[..|acts| - 1], acts[|acts| - 1];
      IndexRateProduct(r, init);
      var y := DoAll(r, init);
      if act.Tick? && act.now > y.rate {
        ProductStep(y.index, y.rate, act.now, RowMoves(r, init));
      }
    }
  }

  lemma ProductStep(f: nat, rate: nat, now: nat, k: nat)
    requires 0 < rate < now
    ensures var f' := NextIndex(f, rate, now);
            f' * now <= f * rate && f * rate + k * (rate - 1) <= f' * now + (k + 1) * (now - 1)
  {
    DivBounds(f * rate, now);
    MulMonotone(rate - 1, now - 1, k);
    assert (k + 1) * (now - 1) == k * (now - 1) + (now - 1);
  }

  // ---- bounds on what an account is credited ----

  /** Everything credited is either collected or still pending. */
  lemma {:induction false} CreditedOnce(r: Row, acts: seq<Act>)
    requires Feasible(r, acts)
    ensures r.pending + RowCredited(r, acts) == RowCollected(r, acts) + DoAll(r, acts).pending
  {
    if acts == [] {
    } else {
      CreditedOnce(r, acts[..|acts| - 1]);
    }
  }

  /** The account holds the same balance throughout. */
  predicate Steady(acts: seq<Act>) {
    forall i :: 0 <= i < |acts| && acts[i].Change? ==> acts[i].delta == 0
  }

  /** b*(f0-f)/f0 - m < t <= b*(f0-f)/f, in integers; the strict side needs a settlement. */
  predicate WithinSchedule(b: nat, f0: nat, f: nat, t: nat, m: nat) {
    && f <= f0
    && t * f <= b * (f0 - f) <= (t + m) * f0
    && (m > 0 && f0 > 0 ==> b * (f0 - f) < (t + m) * f0)
  }

  /** Settlement-schedule bound: a steady balance `b` settled m times while its snapshot goes from
      `f0` to `f` is credited a total T with b*(f0-f)/f0 - m < T <= b*(f0-f)/f. */
  lemma {:induction false} ScheduleBound(r: Row, acts: seq<Act>)
    requires Ordered(r) && Feasible(r, acts) && Steady(acts)
    ensures var z, t, m := DoAll(r, acts), RowCredited(r, acts), Settlements(acts);
            z.balance == r.balance && WithinSchedule(r.balance, r.snapshot, z.snapshot, t, m)
  {
    if acts == [] {
    } else {
      var init, act := acts[..|acts| - 1], acts[|acts| - 1];
      ScheduleBound(r, init);
      DoAllOrdered(r, init);
      var y := DoAll(r, init);
      if !act.Tick? {
        ScheduleStep(r.balance, r.snapshot, y.snapshot, y.index, RowCredited(r, init), Settlements(init));
      }
    }
  }

  lemma ScheduleStep(b: nat, f0: nat, s: nat, f: nat, t: nat, m: nat)
    requires f <= s <= f0
    requires t * s <= b * (f0 - s) <= (t + m) * f0
    ensures var t' := t + Owed(b, s, f);
            && t' * f <= b * (f0 - f) <= (t' + m + 1) * f0
            && (f0 > 0 ==> b * (f0 - f) < (t' + m + 1) * f0)
  {
    var o := Owed(b, s, f);
    Distribute(b, f0 - s, s - f);
    ScheduleHigh(b, s, f, t, o);
    ScheduleLow(b, f0, s, f, o);
    Distribute(f0, t + m, o + 1);
    assert (t + m) + (o + 1) == t + o + m + 1;
  }

  lemma ScheduleHigh(b: nat, s: nat, f: nat, t: nat, o: nat)
    requires f <= s && o == Owed(b, s, f)
    ensures (t + o) * f <= t * s + b * (s - f)
  {
    OwedBounded(b, s, f);
    MulMonotone(f, s, t + o);
    Distribute(s, t, o);
  }

  lemma ScheduleLow(b: nat, f0: nat, s: nat, f: nat, o: nat)
    requires f <= s <= f0 && o == Owed(b, s, f)
    ensures b * (s - f) <= (o + 1) * f0
    ensures f0 > 0 ==> b * (s - f) < (o + 1) * f0
  {
    if f == s {
      assert b * (s - f) == 0;
      if f0 > 0 {
        MulLess(0, o + 1, f0);
      }
    } else {
      OwedBounded(b, s, f);
      MulMonotone(s, f0, o + 1);
    }
  }

  lemma Distribute(k: int, x: int, y: int)
    ensures k * (x + y) == k * x + k * y == (x + y) * k == x * k + y * k
  {
  }

  /** The account is not touched: only the index moves. */
  predicate Idle(acts: seq<Act>) {
    forall i :: 0 <= i < |acts| ==> acts[i].Tick?
  }

  lemma {:induction false} IdleKeeps(r: Row, acts: seq<Act>)
    requires Feasible(r, acts) && Idle(acts)
    ensures var z := DoAll(r, acts); z.balance == r.balance && z.snapshot == r.snapshot && z.pending == r.pending
  {
    if acts == [] {
    } else {
      IdleKeeps(r, acts[..|acts| - 1]);
    }
  }

  /** floor(b*(R-rate)/R) <= owed <= b*(R-rate)/R + b*k/s, in integers. */
  predicate WithinAccuracy(b: nat, s: nat, rate: nat, R: nat, k: nat, owed: nat) {
    && 0 < rate <= R
    && b * (R - rate) / R <= owed
    && owed * (s * R) <= b * (s * (R - rate) + k * R)
  }

  /** Single-settle accuracy: what a settlement credits after `k` moves from a snapshot taken at
      rate `r.rate` to rate `R` is at least floor(b*(R-r)/R) and at most b*(R-r)/R + b*k/snapshot. */
  lemma SettleAccuracy(r: Row, acts: seq<Act>)
    requires Ordered(r) && r.snapshot == r.index > 0 && Feasible(r, acts) && Idle(acts)
    ensures var z, k := DoAll(r, acts), RowMoves(r, acts);
            WithinAccuracy(r.balance, r.snapshot, r.rate, z.rate, k, OwedOn(z))
  {
    IdleKeeps(r, acts);
    IndexRateProduct(r, acts);
    DoAllOrdered(r, acts);
    AccuracyOf(r.balance, r.snapshot, DoAll(r, acts).index, r.rate, DoAll(r, acts).rate, RowMoves(r, acts));
  }

  lemma AccuracyOf(b: nat, s: nat, f: nat, rate: nat, R: nat, k: nat)
    requires 0 < rate && f <= s && 0 < s && WithinProduct(s, rate, f, R, k)
    ensures WithinAccuracy(b, s, rate, R, k, Owed(b, s, f))
  {
    OwedBounded(b, s, f);
    AccuracyLow(b, s, f, rate, R, Owed(b, s, f));
    AccuracyHigh(b, s, f, rate, R, k, Owed(b, s, f));
  }

  /** `now` is `before` after nothing but index updates, `k` of them accepted moves. */
  predicate HeldTo(before: Row, now: Row, k: nat) {
    && now == Row(now.index, now.rate, before.balance, before.index, before.pending)
    && now.index <= before.index
    && WithinProduct(before.index, before.rate, now.index, now.rate, k)
    && WithinAccuracy(before.balance, before.index, before.rate, now.rate, k, OwedOn(now))
  }

  /** A row left alone until one last index update. */
  lemma IdleThenTick(r: Row, acts: seq<Act>, y: Row, now: nat, k: nat)
    requires Ordered(r) && r.snapshot == r.index > 0 && Feasible(r, acts) && Idle(acts)
    requires y == DoAll(r, acts) && k == RowMoves(r, acts) + if now > y.rate then 1 else 0
    ensures HeldTo(r, Do(y, Tick(now)), k)
  {
    var tick := Tick(now);
    IdleKeeps(r, acts);
    DoSnoc(r, acts, tick);
    IndexRateProduct(r, acts + [tick]);
    SettleAccuracy(r, acts + [tick]);
    DoAllOrdered(r, acts + [tick]);
  }

  lemma AccuracyLow(b: nat, s: nat, f: nat, rate: nat, R: nat, o: nat)
    requires 0 < rate <= R && f <= s && 0 < s
    requires f * R <= s * rate
    requires f < s ==> b * (s - f) < (o + 1) * s
    ensures b * (R - rate) / R <= o
  {
    if f == s {
      assert R == rate by {
        if rate < R {
          MulLess(rate, R, s);
          assert false;
        }
      }
      assert b * (R - rate) == 0;
      QuotientBelow(o + 1, b * (R - rate), R);
    } else {
      assert s * (R - rate) <= (s - f) * R by {
        assert s * (R - rate) == s * R - s * rate;
        assert (s - f) * R == s * R - f * R;
      }
      assert s * (b * (R - rate)) < s * ((o + 1) * R) by {
        MulMonotone(s * (R - rate), (s - f) * R, b);
        assert s * (b * (R - rate)) == s * (R - rate) * b by { Shuffle(s, b, R - rate); }
        assert (s - f) * R * b == (b * (s - f)) * R by { Shuffle(s - f, R, b); }
        MulLess(b * (s - f), (o + 1) * s, R);
        assert ((o + 1) * s) * R == s * ((o + 1) * R) by { Shuffle(o + 1, s, R); }
      }
      if b * (R - rate) >= (o + 1) * R {
        MulMonotone((o + 1) * R, b * (R - rate), s);
        assert false;
      }
      QuotientBelow(o + 1, b * (R - rate), R);
    }
  }

  lemma AccuracyHigh(b: nat, s: nat, f: nat, rate: nat, R: nat, k: nat, o: nat)
    requires 0 < rate <= R && f <= s
    requires s * rate <= f * R + k * (R - 1)
    requires o * s <= b * (s - f)
    ensures o * (s * R) <= b * (s * (R - rate) + k * R)
  {
    assert (s - f) * R <= s * (R - rate) + k * R by {
      assert (s - f) * R == s * R - f * R;
      assert s * (R - rate) == s * R - s * rate;
      assert k * (R - 1) == k * R - k;
    }
    MulMonotone(o * s, b * (s - f), R);
    assert (o * s) * R == o * (s * R);
    assert (b * (s - f)) * R == b * ((s - f) * R);
    MulMonotone((s - f) * R, s * (R - rate) + k * R, b);
  }

  lemma MulLess(x: int, y: int, k: int)
    requires x < y && k > 0
    ensures x * k < y * k
  {
  }

  lemma Shuffle(x: int, y: int, z: int)
    ensures x * (y * z) == (x * z) * y == (x * y) * z == (y * x) * z == y * (x * z) == (z * x) * y
  {
    assert y * z == z * y;
    assert x * (y * z) == (x * y) * z;
    assert x * (z * y) == (x * z) * y;
    assert x * y == y * x;
    assert (y * x) * z == y * (x * z);
    assert x * z == z * x;
  }
}
