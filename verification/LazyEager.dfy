/** The lazy accumulator against the eager ledger that credits the whole supply at each index
    move: crediting late, per account and with floors never pays more. */
module LazyEager {
  import opened Base
  import opened Arith
  import opened YieldLedger
  import opened YieldRow

  /** The eager credits of one account along its acts. */
  ghost function RowEager(r: Row, acts: seq<Act>): real
    requires Feasible(r, acts)
  {
    if acts == [] then 0.0 else
      var before := DoAll(r, acts[..|acts| - 1]);
      RowEager(r, acts[..|acts| - 1]) + EagerStep(before.balance, before.index, Do(before, acts[|acts| - 1]).index)
  }

  /** The yield not yet settled on a row, in exact arithmetic. */
  ghost function Unsettled(r: Row): real {
    Lag(r.balance, r.snapshot, r.index)
  }

  ghost function Lag(b: nat, s: nat, f: nat): real {
    if s == 0 || f >= s then 0.0 else (b * (s - f)) as real / s as real
  }

  lemma FractionSum(x: int, y: int, s: nat)
    requires s > 0
    ensures (x + y) as real / s as real == x as real / s as real + y as real / s as real
  {
    assert (x + y) as real == x as real + y as real;
  }

  lemma FractionShrinks(x: int, s: nat, f: nat)
    requires x >= 0 && 0 < f <= s
    ensures x as real / s as real <= x as real / f as real
  {
    QuotientShrinks(x as real, s as real, f as real);
  }

  lemma QuotientShrinks(x: real, s: real, f: real)
    requires x >= 0.0 && 0.0 < f <= s
    ensures x / s <= x / f
  {
    var q, p := x / s, x / f;
    assert q * s == x && p * f == x;
    assert q >= 0.0;
    assert q * f <= q * s;
    if q > p {
      ProductLess(p, q, f);
    }
  }

  lemma ProductLess(x: real, y: real, k: real)
    requires x < y && k > 0.0
    ensures x * k < y * k
  {
  }

  lemma FloorBelow(o: nat, x: int, s: nat)
    requires s > 0 && o * s <= x
    ensures o as real <= x as real / s as real
  {
    assert (o * s) as real == o as real * s as real;
    assert (o as real * s as real) / s as real == o as real;
  }

  lemma EagerStepNone(units: int, index: nat)
    ensures EagerStep(units, index, index) == 0.0
  {
    assert units * (index - index) == 0;
  }

  lemma LagBelowEager(b: nat, s: nat, f: nat, f': nat)
    requires f' <= f <= s
    ensures Lag(b, s, f') <= Lag(b, s, f) + EagerStep(b, f, f')
  {
    if f' == f {
      EagerStepNone(b, f);
    } else {
      assert b * (s - f') == b * (s - f) + b * (f - f');
      FractionSum(b * (s - f), b * (f - f'), s);
      FractionShrinks(b * (f - f'), s, f);
      if f == s {
        assert b * (s - f) == 0;
      }
    }
  }

  /** One index move adds to a row's unsettled yield no more than the eager credit of that move. */
  lemma TickBelowEager(r: Row, now: nat)
    requires Ordered(r)
    ensures var z := Do(r, Tick(now));
            Unsettled(z) <= Unsettled(r) + EagerStep(r.balance, r.index, z.index)
  {
    IndexFalls(r.index, r.rate, now);
    LagBelowEager(r.balance, r.snapshot, r.index, NextIndex(r.index, r.rate, now));
  }

  /** A settlement credits no more than was unsettled, and leaves nothing unsettled. */
  lemma SettleBelowUnsettled(r: Row)
    requires Ordered(r)
    ensures OwedOn(r) as real <= Unsettled(r)
    ensures Unsettled(SettleRow(r)) == 0.0
  {
    OwedBounded(r.balance, r.snapshot, r.index);
    if r.index < r.snapshot {
      FloorBelow(OwedOn(r), r.balance * (r.snapshot - r.index), r.snapshot);
    }
  }

  lemma {:induction false} RowBelowEager(r: Row, acts: seq<Act>)
    requires Ordered(r) && Feasible(r, acts)
    ensures RowCredited(r, acts) as real + Unsettled(DoAll(r, acts)) <= RowEager(r, acts) + Unsettled(r)
  {
    if acts == [] {
    } else {
      var init, act := acts[..|acts| - 1], acts[|acts| - 1];
      RowBelowEager(r, init);
      DoAllOrdered(r, init);
      var y := DoAll(r, init);
      ActBelowEager(y, act);
      var more := if act.Tick? then 0 else OwedOn(y);
      assert RowCredited(r, acts) == RowCredited(r, init) + more;
      assert RowCredited(r, acts) as real == RowCredited(r, init) as real + more as real;
    }
  }

  lemma ActBelowEager(y: Row, act: Act)
    requires Ordered(y) && Possible(y, act)
    ensures (if act.Tick? then 0 else OwedOn(y)) as real + Unsettled(Do(y, act))
            <= Unsettled(y) + EagerStep(y.balance, y.index, Do(y, act).index)
  {
    if act.Tick? {
      TickBelowEager(y, act.now);
    } else {
      SettleBelowUnsettled(y);
      EagerStepNone(y.balance, y.index);
    }
  }

  // ---- summing over the holders ----

  /** Claimed, pending and not-yet-settled yield of one account. */
  function LazyOf(l: Ledger, es: seq<Event>, a: Address): nat
    requires Legal(l, es)
  {
    Claimed(l, es, a) + At(After(l, es).pending, a) + OwedTo(After(l, es), a)
  }

  ghost function LazyTotal(l: Ledger, es: seq<Event>, holders: set<Address>): nat
    requires Legal(l, es)
  {
    if holders == {} then 0 else
      var a := Pick(holders);
      LazyOf(l, es, a) + LazyTotal(l, es, holders - {a})
  }

  ghost function EagerOf(l: Ledger, es: seq<Event>, a: Address): real
    requires Legal(l, es)
  {
    Projection(l, es, a);
    RowEager(RowOf(l, a), Project(es, a))
  }

  ghost function EagerTotal(l: Ledger, es: seq<Event>, holders: set<Address>): real
    requires Legal(l, es)
  {
    if holders == {} then 0.0 else
      var a := Pick(holders);
      EagerOf(l, es, a) + EagerTotal(l, es, holders - {a})
  }

  ghost function Held(m: Balances, holders: set<Address>): nat {
    if holders == {} then 0 else
      var a := Pick(holders);
      At(m, a) + Held(m, holders - {a})
  }

  lemma {:induction false} HeldAtMostTotal(m: Balances, holders: set<Address>)
    ensures Held(m, holders) <= Total(m)
  {
    if holders == {} {
    } else {
      var a := Pick(holders);
      var m' := m - {a};
      HeldAtMostTotal(m', holders - {a});
      HeldSame(m, m', holders - {a}, a);
      if a in m {
        TotalRemove(m, a);
      } else {
        assert m' == m;
      }
    }
  }

  lemma {:induction false} HeldSame(m: Balances, m': Balances, holders: set<Address>, a: Address)
    requires a !in holders && m' == m - {a}
    ensures Held(m, holders) == Held(m', holders)
  {
    if holders == {} {
    } else {
      HeldSame(m, m', holders - {Pick(holders)}, a);
    }
  }

  lemma LazyOfBelow(l: Ledger, es: seq<Event>, a: Address)
    requires Sound(l) && Legal(l, es) && At(l.pending, a) == 0 && OwedTo(l, a) == 0 && Unsettled(RowOf(l, a)) == 0.0
    ensures LazyOf(l, es, a) as real <= EagerOf(l, es, a)
  {
    Projection(l, es, a);
    ProjectionTotals(l, es, a);
    var r, acts := RowOf(l, a), Project(es, a);
    RowBelowEager(r, acts);
    CreditedOnce(r, acts);
    DoAllOrdered(r, acts);
    SettleBelowUnsettled(DoAll(r, acts));
    assert LazyOf(l, es, a) == RowCredited(r, acts) + OwedOn(DoAll(r, acts));
  }

  lemma {:induction false} LazyTotalBelow(l: Ledger, es: seq<Event>, holders: set<Address>)
    requires Sound(l) && Legal(l, es)
    requires forall a :: a in holders ==> At(l.pending, a) == 0 && OwedTo(l, a) == 0 && Unsettled(RowOf(l, a)) == 0.0
    ensures LazyTotal(l, es, holders) as real <= EagerTotal(l, es, holders)
  {
    if holders == {} {
    } else {
      var a := Pick(holders);
      LazyOfBelow(l, es, a);
      LazyTotalBelow(l, es, holders - {a});
    }
  }

  /** Eager credit of one event over a set of holders. */
  ghost function StepTotal(l: Ledger, index': nat, holders: set<Address>): real {
    if holders == {} then 0.0 else
      var a := Pick(holders);
      EagerStep(At(l.balance, a), l.index, index') + StepTotal(l, index', holders - {a})
  }

  lemma EagerSnoc(r: Row, acts: seq<Act>, act: Act)
    requires Feasible(r, acts) && Possible(DoAll(r, acts), act)
    ensures Feasible(r, acts + [act])
    ensures RowEager(r, acts + [act]) == RowEager(r, acts)
        + EagerStep(DoAll(r, acts).balance, DoAll(r, acts).index, Do(DoAll(r, acts), act).index)
  {
    DoSnoc(r, acts, act);
    assert (acts + [act])[..|acts|] == acts;
  }

  lemma EagerEvent(r: Row, acts: seq<Act>, y: Ledger, e: Event, a: Address)
    requires Feasible(r, acts) && RowOf(y, a) == DoAll(r, acts) && Enabled(y, e)
    ensures Feasible(r, acts + ActsIn(e, a))
    ensures RowEager(r, acts + ActsIn(e, a)) == RowEager(r, acts)
        + EagerStep(At(y.balance, a), y.index, Apply(y, e).index)
  {
    ApplyProjects(y, e, a);
    assert RowOf(Apply(y, e), a).index == Apply(y, e).index;
    if ActsIn(e, a) == [] {
      assert acts + ActsIn(e, a) == acts;
      EagerStepNone(At(y.balance, a), y.index);
    } else {
      assert ActsIn(e, a) == [ActsIn(e, a)[0]];
      EagerSnoc(r, acts, ActsIn(e, a)[0]);
    }
  }

  lemma EagerOfSnoc(l: Ledger, es: seq<Event>, a: Address)
    requires es != [] && Legal(l, es)
    ensures var init := es[..|es| - 1];
            EagerOf(l, es, a) == EagerOf(l, init, a) +
              EagerStep(At(After(l, init).balance, a), After(l, init).index, After(l, es).index)
  {
    var init, e := es[..|es| - 1], es[|es| - 1];
    var y, z := After(l, init), After(l, es);
    Projection(l, init, a);
    Projection(l, es, a);
    assert Project(es, a) == Project(init, a) + ActsIn(e, a);
    EagerEvent(RowOf(l, a), Project(init, a), y, e, a);
  }

  lemma {:induction false} EagerTotalSnoc(l: Ledger, es: seq<Event>, holders: set<Address>)
    requires es != [] && Legal(l, es)
    ensures EagerTotal(l, es, holders) ==
            EagerTotal(l, es[..|es| - 1], holders) + StepTotal(After(l, es[..|es| - 1]), After(l, es).index, holders)
  {
    if holders == {} {
    } else {
      EagerOfSnoc(l, es, Pick(holders));
      EagerTotalSnoc(l, es, holders - {Pick(holders)});
    }
  }

  lemma {:induction false} StepTotalIsHeld(l: Ledger, index': nat, holders: set<Address>)
    ensures StepTotal(l, index', holders) == EagerStep(Held(l.balance, holders), l.index, index')
  {
    if holders == {} {
      assert 0 * (l.index - index') == 0;
    } else {
      var a := Pick(holders);
      StepTotalIsHeld(l, index', holders - {a});
      EagerStepAdds(At(l.balance, a), Held(l.balance, holders - {a}), l.index, index');
    }
  }

  lemma EagerStepAdds(x: int, y: int, index: nat, index': nat)
    ensures EagerStep(x + y, index, index') == EagerStep(x, index, index') + EagerStep(y, index, index')
  {
    if index != 0 {
      var d := index - index';
      assert (x + y) * d == x * d + y * d;
      FractionSum(x * d, y * d, index);
    }
  }

  lemma EagerStepMonotone(x: int, y: int, index: nat, index': nat)
    requires x <= y && index' <= index
    ensures EagerStep(x, index, index') <= EagerStep(y, index, index')
  {
    if index > 0 {
      var d := index - index';
      MulMonotone(x, y, d);
      assert y * d == x * d + (y * d - x * d);
      FractionSum(x * d, y * d - x * d, index);
    }
  }

  lemma {:induction false} EagerTotalBelow(l: Ledger, es: seq<Event>, holders: set<Address>)
    requires Sound(l) && Legal(l, es)
    ensures EagerTotal(l, es, holders) <= Eager(l, es)
  {
    if es == [] {
      EagerTotalEmpty(l, holders);
    } else {
      var init := es[..|es| - 1];
      EagerTotalBelow(l, init, holders);
      EagerTotalSnoc(l, es, holders);
      AfterSound(l, init);
      var y := After(l, init);
      ApplyKeepsSound(y, es[|es| - 1]);
      StepTotalIsHeld(y, After(l, es).index, holders);
      HeldAtMostTotal(y.balance, holders);
      EagerStepMonotone(Held(y.balance, holders), y.supply, y.index, After(l, es).index);
    }
  }

  lemma {:induction false} EagerTotalEmpty(l: Ledger, holders: set<Address>)
    ensures EagerTotal(l, [], holders) == 0.0
  {
    if holders == {} {
    } else {
      EagerTotalEmpty(l, holders - {Pick(holders)});
    }
  }

  /** Lazy refines eager: for every market history since genesis and every set of holders, what
      they claimed, have pending and have not yet settled is at most the eager ledger. */
  lemma LazyRefinesEager(rate: nat, es: seq<Event>, holders: set<Address>)
    requires rate > 0 && Legal(Genesis(rate), es)
    ensures LazyTotal(Genesis(rate), es, holders) as real <= Eager(Genesis(rate), es)
  {
    GenesisSound(rate);
    LazyTotalBelow(Genesis(rate), es, holders);
    EagerTotalBelow(Genesis(rate), es, holders);
  }
}
