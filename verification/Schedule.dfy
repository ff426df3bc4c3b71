/** What a settlement schedule pays: the points at which an account was settled, the exact formulas over
    them, and the code's floored credits against those formulas. */
module Schedule {
  import opened Base
  import opened Arith
  import OracleAdapter
  import opened YL = YieldLedger
  import opened YieldRow

  type Price = OracleAdapter.Price

  /** A settlement at a recorded rate and index, `moves` accepted index moves after the one before it. */
  datatype Point = Point(rate: Price, index: nat, moves: nat)

  /** Accepted index moves since the last settlement. */
  function MovesSince(r: Row, acts: seq<Act>): nat
    requires Feasible(r, acts)
  {
    if acts == [] || !acts[|acts| - 1].Tick? then 0 else
      MovesSince(r, acts[..|acts| - 1]) +
      if acts[|acts| - 1].now > DoAll(r, acts[..|acts| - 1]).rate then 1 else 0
  }

  /** The settlements of a row along its acts, from the state it starts in. */
  function Points(r: Row, acts: seq<Act>): (ps: seq<Point>)
    requires Ordered(r) && Feasible(r, acts)
    ensures ps != []
  {
    if acts == [] then [Point(r.rate, r.index, 0)] else
      var init := acts[..|acts| - 1];
      DoAllOrdered(r, init);
      if acts[|acts| - 1].Tick? then Points(r, init)
      else Points(r, init) + [Point(DoAll(r, init).rate, DoAll(r, init).index, MovesSince(r, init))]
  }

  // ---- the settlement formulas in exact arithmetic ----

  const PAR: real := SCALE as real

  /** Yield on `b` units over one settlement interval. */
  ghost function IntervalYield(b: real, r: Price, R: Price): real {
    b * (R as real - r as real) / R as real
  }

  /** What an interval pays beyond the value the principal loses over it. */
  ghost function IntervalExcess(b: real, r: Price, R: Price): real {
    b * (r as real - PAR) * (R as real - r as real) / (r as real * R as real)
  }

  ghost function YieldOver(b: real, ps: seq<Point>): real {
    if |ps| <= 1 then 0.0 else
      var n := |ps| - 1;
      YieldOver(b, ps[..n]) + IntervalYield(b, ps[n - 1].rate, ps[n].rate)
  }

  ghost function Excess(b: real, ps: seq<Point>): real {
    if |ps| <= 1 then 0.0 else
      var n := |ps| - 1;
      Excess(b, ps[..n]) + IntervalExcess(b, ps[n - 1].rate, ps[n].rate)
  }

  /** What the roundings of the index can carry into one unit over an interval: k/f. */
  ghost function CarryOf(from: Point, to: Point): real {
    if from.index == 0 then 0.0 else to.moves as real / from.index as real
  }

  /** The same over all intervals of a schedule. */
  ghost function Carry(ps: seq<Point>): real {
    if |ps| <= 1 then 0.0 else
      var n := |ps| - 1;
      Carry(ps[..n]) + CarryOf(ps[n - 1], ps[n])
  }

  /** Value of `b` units of PT in underlying at a rate. */
  ghost function Worth(b: real, r: Price): real {
    b * PAR / r as real
  }

  lemma Cancel(x: real, y: real, k: real)
    requires k > 0.0 && x * k == y * k
    ensures x == y
  {
    assert (x - y) * k == 0.0;
  }

  lemma IntervalIdentity(b: real, r: Price, R: Price)
    ensures Worth(b, R) + IntervalYield(b, r, R) == Worth(b, r) + IntervalExcess(b, r, R)
  {
    ScaledIdentity(b, r as real, R as real);
  }

  lemma ScaledIdentity(b: real, r: real, R: real)
    requires r > 0.0 && R > 0.0
    ensures b * PAR / R + b * (R - r) / R == b * PAR / r + b * (r - PAR) * (R - r) / (r * R)
  {
    var lhs, rhs := b * PAR / R + b * (R - r) / R, b * PAR / r + b * (r - PAR) * (R - r) / (r * R);
    assert lhs * (r * R) == b * PAR * r + b * (R - r) * r;
    assert rhs * (r * R) == b * PAR * R + b * (r - PAR) * (R - r);
    assert b * PAR * r + b * (R - r) * r == b * PAR * R + b * (r - PAR) * (R - r);
    assert r * R > 0.0;
    Cancel(lhs, rhs, r * R);
  }

  /** Principal plus yield is the deposit plus the excess, whatever the settlement schedule. */
  lemma {:induction false} PayoutIdentity(b: real, ps: seq<Point>)
    requires ps != []
    ensures Worth(b, ps[|ps| - 1].rate) + YieldOver(b, ps) == Worth(b, ps[0].rate) + Excess(b, ps)
  {
    if |ps| == 1 {
    } else {
      var n := |ps| - 1;
      PayoutIdentity(b, ps[..n]);
      IntervalIdentity(b, ps[n - 1].rate, ps[n].rate);
    }
  }

  /** In exact arithmetic settling in between pays more than settling once, unless the rate stands still on
      one side; on the code's floors `SettlingBetweenIff` decides. */
  lemma SettlingBetween(b: real, r: Price, m: Price, R: Price)
    requires b > 0.0 && r <= m <= R
    ensures IntervalYield(b, r, m) + IntervalYield(b, m, R) >= IntervalYield(b, r, R)
    ensures IntervalYield(b, r, m) + IntervalYield(b, m, R) == IntervalYield(b, r, R) <==> r == m || m == R
  {
    BetweenInReals(b, r as real, m as real, R as real);
  }

  lemma BetweenInReals(b: real, r: real, m: real, R: real)
    requires b > 0.0 && 0.0 < r <= m <= R
    ensures var gain := b * (m - r) / m + b * (R - m) / R - b * (R - r) / R;
            gain >= 0.0 && (gain == 0.0 <==> r == m || m == R)
  {
    var gain := b * (m - r) / m + b * (R - m) / R - b * (R - r) / R;
    var x := b * ((m - r) * (R - m));
    assert gain * (m * R) == x by {
      assert (b * (m - r) / m) * (m * R) == b * (m - r) * R;
      assert (b * (R - m) / R) * (m * R) == b * (R - m) * m;
      assert (b * (R - r) / R) * (m * R) == b * (R - r) * m;
    }
    assert m * R > 0.0;
    if r == m || m == R {
      assert x == 0.0;
      Cancel(gain, 0.0, m * R);
    } else {
      assert (m - r) * (R - m) > 0.0;
      assert x > 0.0;
    }
  }

  predicate Rising(ps: seq<Point>) {
    forall i :: 0 < i < |ps| ==> ps[i - 1].rate <= ps[i].rate
  }

  /** No settlement interval starts above par, unless the rate stands still over it. */
  predicate SettledFromPar(ps: seq<Point>) {
    forall i :: 0 < i < |ps| ==> ps[i - 1].rate == SCALE || ps[i].rate == ps[i - 1].rate
  }

  lemma IntervalExcessSign(b: real, r: Price, R: Price)
    requires b > 0.0 && SCALE <= r <= R
    ensures IntervalExcess(b, r, R) >= 0.0
    ensures IntervalExcess(b, r, R) == 0.0 <==> r == SCALE || R == r
  {
    var r', R' := r as real, R as real;
    var x := b * (r' - PAR) * (R' - r');
    assert r' * R' > 0.0;
    if r == SCALE || R == r {
      assert x == 0.0;
    } else {
      assert b * (r' - PAR) > 0.0;
      assert x > 0.0;
    }
    assert IntervalExcess(b, r, R) == x / (r' * R');
    assert IntervalExcess(b, r, R) * (r' * R') == x;
  }

  lemma {:induction false} ExcessSign(b: real, ps: seq<Point>)
    requires b > 0.0 && ps != [] && ps[0].rate >= SCALE && Rising(ps)
    ensures ps[|ps| - 1].rate >= SCALE
    ensures Excess(b, ps) >= 0.0
    ensures Excess(b, ps) == 0.0 <==> SettledFromPar(ps)
  {
    if |ps| == 1 {
    } else {
      var n := |ps| - 1;
      ExcessSign(b, ps[..n]);
      IntervalExcessSign(b, ps[n - 1].rate, ps[n].rate);
      if SettledFromPar(ps) {
        assert ps[n - 1].rate == SCALE || ps[n].rate == ps[n - 1].rate;
      }
    }
  }

  // ---- the code's credits against the formulas ----

  /** Every interval starts at an index that has not been rounded down to zero. */
  predicate Live(ps: seq<Point>) {
    forall i :: 0 <= i < |ps| - 1 ==> ps[i].index > 0
  }

  /** What the last settlement point says about the row now. */
  predicate Tracks(ps: seq<Point>, b: nat, y: Row, k: nat) {
    && ps != []
    && var last := ps[|ps| - 1];
       y.balance == b && y.snapshot == last.index && WithinProduct(last.index, last.rate, y.index, y.rate, k)
  }

  /** Along the acts of a row whose snapshot stands at the index, the schedule follows the row. */
  lemma {:induction false} PointsTrack(r: Row, acts: seq<Act>)
    requires Ordered(r) && r.snapshot == r.index && Feasible(r, acts) && Steady(acts)
    ensures Tracks(Points(r, acts), r.balance, DoAll(r, acts), MovesSince(r, acts))
    ensures Rising(Points(r, acts)) && Points(r, acts)[0] == Point(r.rate, r.index, 0)
    ensures |Points(r, acts)| == Settlements(acts) + 1
  {
    if acts == [] {
    } else {
      var init, act := acts[..|acts| - 1], acts[|acts| - 1];
      PointsTrack(r, init);
      DoAllOrdered(r, init);
      var y := DoAll(r, init);
      if act.Tick? && act.now > y.rate {
        ProductStep(y.index, y.rate, act.now, MovesSince(r, init));
      }
    }
  }

  /** The credits are at most the exact yield and the carry. */
  ghost predicate NotOver(b: nat, ps: seq<Point>, t: nat) {
    t as real <= YieldOver(b as real, ps) + b as real * Carry(ps)
  }

  /** The credits fall short of the exact yield by less than one unit for each settlement. */
  ghost predicate NotShort(b: nat, ps: seq<Point>, t: nat) {
    && YieldOver(b as real, ps) - (|ps| - 1) as real <= t as real
    && (|ps| > 1 ==> YieldOver(b as real, ps) - (|ps| - 1) as real < t as real)
  }

  ghost predicate Follows(b: nat, ps: seq<Point>, t: nat) {
    NotOver(b, ps, t) && (Live(ps) ==> NotShort(b, ps, t))
  }

  /** What an interval credits: at most its exact yield and carry, and from a live index at least its exact
      yield less one unit. */
  ghost predicate Credits(b: nat, from: Point, to: Point, owed: nat) {
    && owed as real <= IntervalYield(b as real, from.rate, to.rate) + b as real * CarryOf(from, to)
    && (from.index > 0 ==> IntervalYield(b as real, from.rate, to.rate) - 1.0 < owed as real)
  }

  lemma IntervalCredited(b: nat, from: Point, to: Point)
    requires to.index <= from.index && WithinProduct(from.index, from.rate, to.index, to.rate, to.moves)
    ensures Credits(b, from, to, Owed(b, from.index, to.index))
  {
    var s, r, R, owed := from.index, from.rate, to.rate, Owed(b, from.index, to.index);
    if s == 0 {
      YieldNonNegative(b as real, r as real, R as real);
    } else {
      AccuracyOf(b, s, to.index, r, R, to.moves);
      CreditLow(b, r, R, owed);
      CreditHigh(b, s, r, R, to.moves, owed);
    }
  }

  lemma YieldNonNegative(b: real, r: real, R: real)
    requires b >= 0.0 && 0.0 < r <= R
    ensures b * (R - r) / R >= 0.0
  {
    assert b * (R - r) >= 0.0;
  }

  lemma CreditLow(b: nat, r: Price, R: Price, owed: nat)
    requires r <= R && b * (R - r) / R <= owed
    ensures IntervalYield(b as real, r, R) - 1.0 < owed as real
  {
    DivBounds(b * (R - r), R);
    MulMonotone(b * (R - r) / R, owed, R);
    assert b * (R - r) < (owed + 1) * R;
    CastProduct(b, R - r);
    CastProduct(owed + 1, R);
    LowerQuotient((owed + 1) as real, b as real * (R as real - r as real), R as real);
  }

  lemma CreditHigh(b: nat, s: nat, r: Price, R: Price, k: nat, owed: nat)
    requires 0 < s && r <= R && owed * (s * R) <= b * (s * (R - r) + k * R)
    ensures owed as real <= IntervalYield(b as real, r, R) + b as real * (k as real / s as real)
  {
    var x, y, z := owed as real, b as real * (R as real - r as real), b as real * k as real;
    var s', R' := s as real, R as real;
    CastProduct(owed, s * R);
    CastProduct(s, R);
    CastProduct(b, s * (R - r) + k * R);
    CastProduct(s, R - r);
    CastProduct(k, R);
    assert b as real * (s' * (R' - r as real) + k as real * R') == y * s' + z * R';
    UpperQuotient(x, y, z, s', R');
    Regroup(b as real, k as real, s');
  }

  lemma Regroup(b: real, k: real, s: real)
    requires s > 0.0
    ensures b * k / s == b * (k / s)
  {
    assert (k / s) * s == k;
  }

  lemma LowerQuotient(x: real, y: real, R: real)
    requires R > 0.0 && y < x * R
    ensures y / R < x
  {
    assert (y / R) * R == y;
  }

  lemma UpperQuotient(x: real, y: real, z: real, s: real, R: real)
    requires s > 0.0 && R > 0.0 && x * (s * R) <= y * s + z * R
    ensures x <= y / R + z / s
  {
    var u := y / R + z / s;
    assert u * (s * R) == y * s + z * R by {
      assert (y / R) * (s * R) == y * s;
      assert (z / s) * (s * R) == z * R;
    }
    assert s * R > 0.0;
    if x > u {
      assert x * (s * R) > u * (s * R);
    }
  }

  /** The schedule theorem on the code: a steady holder settled m times at recorded rates r0..rm is credited
      the exact yield over those intervals and no more beyond it than the carry; and while the index is
      live, it falls short by less than one unit for each settlement. */
  lemma {:induction false} CreditFollowsSchedule(r: Row, acts: seq<Act>)
    requires Ordered(r) && r.snapshot == r.index && Feasible(r, acts) && Steady(acts)
    ensures Follows(r.balance, Points(r, acts), RowCredited(r, acts))
  {
    if acts == [] {
    } else if acts[|acts| - 1].Tick? {
      CreditFollowsSchedule(r, acts[..|acts| - 1]);
    } else {
      var init := acts[..|acts| - 1];
      CreditFollowsSchedule(r, init);
      PointsTrack(r, init);
      DoAllOrdered(r, init);
      NextSettlement(Points(r, init), r.balance, DoAll(r, init), MovesSince(r, init), RowCredited(r, init),
                     Points(r, acts), RowCredited(r, acts));
    }
  }

  lemma NextSettlement(ps: seq<Point>, b: nat, y: Row, k: nat, t: nat, qs: seq<Point>, t': nat)
    requires Ordered(y) && Tracks(ps, b, y, k) && Follows(b, ps, t)
    requires qs == ps + [Point(y.rate, y.index, k)] && t' == t + OwedOn(y)
    ensures Follows(b, qs, t')
  {
    var next := Point(y.rate, y.index, k);
    IntervalCredited(b, ps[|ps| - 1], next);
    AddInterval(b, ps, next, t, OwedOn(y));
    LivePrefix(ps, next);
  }

  lemma LivePrefix(ps: seq<Point>, next: Point)
    requires ps != []
    ensures Live(ps + [next]) ==> Live(ps) && ps[|ps| - 1].index > 0
  {
    var qs := ps + [next];
    assert forall i :: 0 <= i < |ps| ==> ps[i] == qs[i];
    assert qs[|qs| - 2] == ps[|ps| - 1];
  }

  lemma AddInterval(b: nat, ps: seq<Point>, next: Point, t: nat, owed: nat)
    requires ps != [] && NotOver(b, ps, t) && Credits(b, ps[|ps| - 1], next, owed)
    ensures NotOver(b, ps + [next], t + owed)
    ensures NotShort(b, ps, t) && ps[|ps| - 1].index > 0 ==> NotShort(b, ps + [next], t + owed)
  {
    var qs, n := ps + [next], |ps|;
    assert qs[..n] == ps && qs[n - 1] == ps[n - 1];
    var k := CarryOf(ps[n - 1], next);
    assert Carry(qs) == Carry(ps) + k;
    assert b as real * (Carry(ps) + k) == b as real * Carry(ps) + b as real * k;
  }
}
