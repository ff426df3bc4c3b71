/** Which way a rising price moves the surplus: PT against YT weighted by the level at which it was last
    settled, and what that means for solvency. */
module Tilt {
  import opened Base
  import opened Arith
  import opened World
  import PM = PrincipalManager
  import opened Effects
  import opened YL = YieldLedger
  import opened YieldRow
  import opened LazyEager
  import opened Market
  import opened History
  import opened Accrual
  import opened Backing
  import opened Surplus

  // ---- what an index update does to the surplus ----

  /** PT against YT, each account's YT weighted by how far its snapshot lies above par: the sign of
      S*SCALE - f*r*(sum of b/s) is the direction in which a rising price moves the surplus. */
  ghost function Tilt(w: World, accounts: set<Address>): real {
    TiltOf(w.pt.totalSupply, w.yt.ledger.index, w.yt.ledger.rate, Weight(w.yt.ledger, accounts))
  }

  ghost function TiltOf(supply: int, f: nat, r: nat, weight: real): real {
    (supply * SCALE) as real - weight * (f * r) as real
  }

  /** tilt*(R-r)/(r*R) - weight <= effect <= tilt*(R-r)/(r*R), with the fraction multiplied out. */
  ghost predicate WithinTilt(effect: real, tilt: real, weight: real, r: real, R: real) {
    && weight >= 0.0
    && effect * (r * R) <= tilt * (R - r) <= (effect + weight) * (r * R)
  }

  /** An index update from recorded rate r to price R changes the surplus by tilt*(R-r)/(r*R), less at
      most what one unit of index is worth. */
  lemma IndexUpdateEffect(c: Config, w: World, accounts: set<Address>)
    requires Inv(c, w)
    ensures WithinTilt(IndexEffect(w, accounts), Tilt(w, accounts), Weight(w.yt.ledger, accounts),
                       w.yt.ledger.rate as real, PriceOf(w) as real)
  {
    var l, z, R := w.yt.ledger, Indexed(w), PriceOf(w);
    IndexDue(l, z, R, accounts);
    EffectFromGains(w.pt.totalSupply, l.index, z.index, l.rate, R, TotalDue(l, accounts), TotalDue(z, accounts),
                    Weight(l, accounts), IndexEffect(w, accounts), Tilt(w, accounts));
  }

  /** The effect is what the PT loses in value less what the YT gains. */
  lemma EffectFromGains(supply: int, f: nat, f': nat, r: nat, R: nat, due: real, due': real, weight: real,
      effect: real, tilt: real)
    requires 0 < r <= R && f' == NextIndex(f, r, R) && Gains(due, due', weight, f - f')
    requires effect == PtDue(supply, r) + due - (PtDue(supply, R) + due')
    requires tilt == TiltOf(supply, f, r, weight)
    ensures WithinTilt(effect, tilt, weight, r as real, R as real)
  {
    IndexDrop(f, r, R);
    CastProduct(f, r);
    EffectWithin((supply * SCALE) as real, weight, f as real, r as real, R as real, (f - f') as real, effect, tilt);
  }

  /** An update drops the index by f*(R-r)/R, rounded up. */
  lemma IndexDrop(f: nat, r: nat, R: nat)
    requires 0 < r <= R
    ensures var d := f - NextIndex(f, r, R);
            f as real * (R as real - r as real) <= d as real * R as real
              <= f as real * (R as real - r as real) + R as real
  {
    var z := NextIndex(f, r, R);
    DivBounds(f * r, R);
    CastProduct(z, R);
    CastProduct(f, r);
    assert z as real * R as real <= f as real * r as real <= z as real * R as real + R as real;
    DropInReals(f as real, z as real, r as real, R as real);
  }

  lemma DropInReals(f: real, z: real, r: real, R: real)
    requires z * R <= f * r <= z * R + R
    ensures f * (R - r) <= (f - z) * R <= f * (R - r) + R
  {
  }

  lemma EffectWithin(pt: real, weight: real, f: real, r: real, R: real, d: real, effect: real, tilt: real)
    requires 0.0 < r <= R && weight >= 0.0
    requires f * (R - r) <= d * R <= f * (R - r) + R
    requires effect == pt / r - pt / R - weight * d && tilt == pt - weight * (f * r)
    ensures WithinTilt(effect, tilt, weight, r, R)
  {
    Scaled(weight * r, f * (R - r), d * R, R);
    assert (pt / r - pt / R) * (r * R) == pt * (R - r) by { Fractions(pt, r, R); }
    assert effect * (r * R) == pt * (R - r) - (weight * r) * (d * R);
    assert tilt * (R - r) == pt * (R - r) - (weight * r) * (f * (R - r));
    assert (effect + weight) * (r * R) == effect * (r * R) + (weight * r) * R;
  }

  lemma Fractions(pt: real, r: real, R: real)
    requires r > 0.0 && R > 0.0
    ensures (pt / r - pt / R) * (r * R) == pt * (R - r)
  {
    var x, y := pt / r, pt / R;
    assert x * r == pt && y * R == pt;
    assert x * (r * R) == pt * R;
    assert y * (r * R) == pt * r;
  }

  lemma Scaled(k: real, low: real, x: real, R: real)
    requires k >= 0.0 && low <= x <= low + R
    ensures k * low <= k * x <= k * low + k * R
  {
  }

  /** A price rise met by the index takes surplus away if YT outweighs PT; otherwise it takes at most
      what one unit of index is worth. */
  lemma TiltDecides(c: Config, w: World, accounts: set<Address>)
    requires Inv(c, w)
    ensures Tilt(w, accounts) < 0.0 && PriceOf(w) > w.yt.ledger.rate ==> IndexEffect(w, accounts) < 0.0
    ensures Tilt(w, accounts) >= 0.0 ==> IndexEffect(w, accounts) >= -Weight(w.yt.ledger, accounts)
  {
    IndexUpdateEffect(c, w, accounts);
    var effect, tilt, weight := IndexEffect(w, accounts), Tilt(w, accounts), Weight(w.yt.ledger, accounts);
    var r, R := w.yt.ledger.rate, PriceOf(w);
    SignOfEffect(effect, tilt, weight, r as real, R as real);
  }

  lemma SignOfEffect(effect: real, tilt: real, weight: real, r: real, R: real)
    requires 0.0 < r <= R && WithinTilt(effect, tilt, weight, r, R)
    ensures tilt < 0.0 && R > r ==> effect < 0.0
    ensures tilt >= 0.0 ==> effect >= -weight
  {
    var q, d := r * R, R - r;
    assert q > 0.0;
    if tilt < 0.0 && R > r && effect >= 0.0 {
      NegativeProduct(tilt, d);
      assert false;
    }
    if tilt >= 0.0 && effect + weight < 0.0 {
      NegativeProduct(effect + weight, q);
      assert false;
    }
  }

  lemma NegativeProduct(x: real, y: real)
    requires x < 0.0 && y > 0.0
    ensures x * y < 0.0
  {
  }

  /** What all PT loses in value from rate r to R, times r*R. */
  ghost function PtLoss(supply: int, r: nat, R: nat): real {
    (supply * SCALE) as real * (R as real - r as real)
  }

  /** What all YT gains by the index falling from f to f', times r*R. */
  ghost function YtGain(weight: real, f: nat, f': nat, r: nat, R: nat): real {
    weight * (f - f') as real * (r as real * R as real)
  }

  /** The exact condition on the code's own integers: an update takes surplus away if and only if the YT
      gains more by the floored drop of the index than the PT loses by the price. */
  lemma IndexUpdateLosesIff(c: Config, w: World, accounts: set<Address>)
    requires Inv(c, w)
    ensures var l, R := w.yt.ledger, PriceOf(w);
            IndexEffect(w, accounts) < 0.0 <==>
            PtLoss(w.pt.totalSupply, l.rate, R)
            < YtGain(Weight(l, accounts), l.index, NextIndex(l.index, l.rate, R), l.rate, R)
  {
    var l, z, R := w.yt.ledger, Indexed(w), PriceOf(w);
    IndexDue(l, z, R, accounts);
    LossFromGains(w.pt.totalSupply, l.rate, R, TotalDue(l, accounts), TotalDue(z, accounts), Weight(l, accounts),
                  l.index, z.index, IndexEffect(w, accounts));
  }

  lemma LossFromGains(supply: int, r: nat, R: nat, due: real, due': real, weight: real, f: nat, f': nat, effect: real)
    requires 0 < r <= R && Gains(due, due', weight, f - f')
    requires effect == PtDue(supply, r) + due - (PtDue(supply, R) + due')
    ensures effect < 0.0 <==> PtLoss(supply, r, R) < YtGain(weight, f, f', r, R)
  {
    var pt, x, q := (supply * SCALE) as real, weight * (f - f') as real, r as real * R as real;
    Fractions(pt, r as real, R as real);
    assert effect == pt / r as real - pt / R as real - x;
    assert effect * q == PtLoss(supply, r, R) - x * q;
    SignOfProduct(effect, q);
  }

  lemma SignOfProduct(x: real, q: real)
    requires q > 0.0
    ensures x < 0.0 <==> x * q < 0.0
  {
  }

  /** The transaction that only updates the index: it changes the surplus by exactly that effect. */
  lemma IndexUpdateMovesSurplus(c: Config, w: World, me: Address, accounts: set<Address>)
    requires c.Valid() && Inv(c, w) && Step(c, w, Tx(me, YtUpdateIndex)).Ok?
    ensures Next(c, w, Tx(me, YtUpdateIndex)).yt.ledger.rate > 0
    ensures var before, after := SurplusOf(c, w, accounts), SurplusOf(c, Next(c, w, Tx(me, YtUpdateIndex)), accounts);
            && after == before + IndexEffect(w, accounts)
            && (Tilt(w, accounts) < 0.0 && PriceOf(w) > w.yt.ledger.rate ==> after < before)
            && (Tilt(w, accounts) >= 0.0 ==> after >= before - Weight(w.yt.ledger, accounts))
  {
    UpdateEffect(w);
    TiltDecides(c, w, accounts);
  }

  /** Transactions that go through and find a higher price for the index. */
  predicate MovesIndex(c: Config, w: World, tx: Tx) {
    Updates(tx) && Step(c, w, tx).Ok? && w.oracle.reading.Some? && PriceOf(w) > w.yt.ledger.rate
  }

  /** No move of the index in the run meets YT that outweighs PT. */
  ghost predicate Level(c: Config, w: World, txs: seq<Tx>, accounts: set<Address>) {
    txs == [] ||
    (&& Level(c, w, txs[..|txs| - 1], accounts)
     && (MovesIndex(c, Run(c, w, txs[..|txs| - 1]), txs[|txs| - 1]) ==>
       Tilt(Run(c, w, txs[..|txs| - 1]), accounts) >= 0.0))
  }

  /** One unit of index on everything held, if a transaction moves the index. */
  ghost function DustOf(c: Config, w: World, tx: Tx, accounts: set<Address>): real {
    if MovesIndex(c, w, tx) then Weight(w.yt.ledger, accounts) else 0.0
  }

  /** One unit of index, on everything held, for each move of the index in a run. */
  ghost function Dust(c: Config, w: World, txs: seq<Tx>, accounts: set<Address>): real {
    if txs == [] then 0.0 else
      Dust(c, w, txs[..|txs| - 1], accounts) + DustOf(c, Run(c, w, txs[..|txs| - 1]), txs[|txs| - 1], accounts)
  }

  lemma UnmovedEffect(w: World, accounts: set<Address>)
    requires w.oracle.reading.Some? && w.yt.ledger.rate > 0 && PriceOf(w) <= w.yt.ledger.rate
    ensures IndexEffect(w, accounts) == 0.0
  {
    IndexUnmoved(w.yt.ledger, PriceOf(w));
  }

  /** A transaction that does not move the index has no effect through it. */
  lemma NoMoveNoEffect(c: Config, w: World, tx: Tx, accounts: set<Address>)
    requires Inv(c, w) && !MovesIndex(c, w, tx)
    ensures EffectOf(c, w, tx, accounts) == 0.0
  {
    if PriceOf(w) <= w.yt.ledger.rate {
      UnmovedEffect(w, accounts);
    }
  }

  lemma LateOfNonNegative(c: Config, w: World, tx: Tx)
    requires Inv(c, w)
    ensures LateOf(c, w, tx) >= 0.0
  {
    match tx.op
    case OnManager(Redeem(p, _)) => LateNonNegative(p, w.yt.ledger.rate, PriceOf(w));
    case OnEscrow(FinalizePt(p)) => LateNonNegative(p, w.yt.ledger.rate, PriceOf(w));
    case _ =>
  }

  lemma {:induction false} LevelDrift(c: Config, w: World, txs: seq<Tx>, accounts: set<Address>)
    requires c.Valid() && Inv(c, w) && Level(c, w, txs, accounts)
    ensures Drift(c, w, txs, accounts)
            >= -Dust(c, w, txs, accounts) + (BooksOf(c, w, txs).gifts - BooksOf(c, w, txs).seized) as real
  {
    if txs == [] {
    } else {
      var init, tx := txs[..|txs| - 1], txs[|txs| - 1];
      LevelDrift(c, w, init, accounts);
      RunKeeps(c, w, init);
      var y := Run(c, w, init);
      LateOfNonNegative(c, y, tx);
      if MovesIndex(c, y, tx) {
        TiltDecides(c, y, accounts);
      } else {
        NoMoveNoEffect(c, y, tx, accounts);
      }
    }
  }

  /** Custody covers all PT and all yield, up to an allowance. */
  ghost predicate CoveredBut(c: Config, w: World, accounts: set<Address>, allowance: real)
    requires w.yt.ledger.rate > 0
  {
    SurplusOf(c, w, accounts) >= -allowance
  }

  /** Market-wide solvency from deployment: as long as no move of the index meets YT that outweighs PT, custody
      covers all PT and all yield together, up to the dust of the moves and what was seized from the
      manager itself. */
  lemma StaysCovered(c: Config, w: World, txs: seq<Tx>, accounts: set<Address>)
    requires c.Valid() && Deployed(w) && Run(c, w, txs).yt.ledger.snapshot.Keys <= accounts
    requires Level(c, w, txs, accounts)
    ensures Inv(c, w) && Inv(c, Run(c, w, txs))
    ensures CoveredBut(c, Run(c, w, txs), accounts,
                       Dust(c, w, txs, accounts) + (BooksOf(c, w, txs).seized - BooksOf(c, w, txs).gifts) as real)
  {
    CustodyMeetsClaims(c, w, txs, accounts, 0.0);
    LevelDrift(c, w, txs, accounts);
    SurplusAbove(SurplusOf(c, Run(c, w, txs), accounts), Drift(c, w, txs, accounts), Dust(c, w, txs, accounts),
                 BooksOf(c, w, txs).gifts, BooksOf(c, w, txs).seized);
  }

  lemma SurplusAbove(surplus: real, drift: real, dust: real, gifts: int, seized: int)
    requires surplus >= drift >= -dust + (gifts - seized) as real
    ensures surplus >= -(dust + (seized - gifts) as real)
  {
  }

  // ---- which holdings tilt the market ----

  /** Last settled at a rate no higher than par, as f*r <= snapshot*SCALE measures it. */
  predicate FromPar(l: Ledger, a: Address) {
    At(l.balance, a) > 0 ==> l.index * l.rate <= SnapshotOf(l, a) * SCALE
  }

  predicate FromParOrAbove(l: Ledger, a: Address) {
    At(l.balance, a) > 0 ==> l.index * l.rate >= SnapshotOf(l, a) * SCALE
  }

  predicate FromAbovePar(l: Ledger, a: Address) {
    At(l.balance, a) > 0 && l.index * l.rate > SnapshotOf(l, a) * SCALE
  }

  /** What a weight comes to at f*r, against the units that carry it. */
  ghost function Carried(weight: real, fr: int): real {
    weight * fr as real
  }

  ghost function Par(units: int): real {
    (units * SCALE) as real
  }

  lemma CarriedAdds(v: real, w: real, fr: int, x: int, y: int)
    ensures Carried(v + w, fr) == Carried(v, fr) + Carried(w, fr)
    ensures Par(x + y) == Par(x) + Par(y)
  {
  }

  lemma CarriedByRow(l: Ledger, a: Address)
    requires Sound(l)
    ensures var carried, par := Carried(PerIndex(RowOf(l, a)), l.index * l.rate), Par(At(l.balance, a));
            && (FromPar(l, a) ==> carried <= par)
            && (FromParOrAbove(l, a) && l.index > 0 ==> carried >= par)
            && (FromAbovePar(l, a) && l.index > 0 ==> carried > par)
  {
    if SnapshotOf(l, a) > 0 {
      RatioAgainst(At(l.balance, a), SnapshotOf(l, a), l.index * l.rate);
    } else {
      assert l.index == 0;
    }
  }

  lemma RatioAgainst(b: nat, s: nat, x: int)
    requires s > 0
    ensures var carried, par := Carried(b as real / s as real, x), Par(b);
            && (x <= s * SCALE || b == 0 ==> carried <= par)
            && (x >= s * SCALE || b == 0 ==> carried >= par)
            && (x > s * SCALE && b > 0 ==> carried > par)
  {
    var q, y := b as real / s as real, (s * SCALE) as real;
    assert q * s as real == b as real;
    assert y == s as real * SCALE as real;
    assert Par(b) == q * y;
    assert q * x as real - q * y == q * (x as real - y);
  }

  lemma {:induction false} WeightFromPar(l: Ledger, accounts: set<Address>)
    requires Sound(l) && forall a :: a in accounts ==> FromPar(l, a)
    ensures Carried(Weight(l, accounts), l.index * l.rate) <= Par(Held(l.balance, accounts))
  {
    if accounts == {} {
    } else {
      var a := Pick(accounts);
      WeightFromPar(l, accounts - {a});
      CarriedByRow(l, a);
      CarriedAdds(PerIndex(RowOf(l, a)), Weight(l, accounts - {a}), l.index * l.rate, At(l.balance, a),
        Held(l.balance, accounts - {a}));
    }
  }

  lemma {:induction false} WeightFromAbove(l: Ledger, accounts: set<Address>)
    requires Sound(l) && l.index > 0 && forall a :: a in accounts ==> FromParOrAbove(l, a)
    ensures Carried(Weight(l, accounts), l.index * l.rate) >= Par(Held(l.balance, accounts))
    ensures (exists a :: a in accounts && FromAbovePar(l, a)) ==>
              Carried(Weight(l, accounts), l.index * l.rate) > Par(Held(l.balance, accounts))
  {
    if accounts == {} {
    } else {
      var a := Pick(accounts);
      WeightFromAbove(l, accounts - {a});
      CarriedByRow(l, a);
      CarriedAdds(PerIndex(RowOf(l, a)), Weight(l, accounts - {a}), l.index * l.rate, At(l.balance, a),
        Held(l.balance, accounts - {a}));
    }
  }

  lemma {:induction false} HeldIsTotal(m: Balances, holders: set<Address>)
    requires forall a :: At(m, a) > 0 ==> a in holders
    ensures Held(m, holders) == Total(m)
  {
    if holders == {} {
      NoUnits(m);
    } else {
      var a := Pick(holders);
      var m' := m - {a};
      HeldIsTotal(m', holders - {a});
      HeldSame(m, m', holders - {a}, a);
      if a in m {
        TotalRemove(m, a);
      } else {
        assert m' == m;
      }
    }
  }

  lemma {:induction false} NoUnits(m: Balances)
    requires forall a :: At(m, a) == 0
    ensures Total(m) == 0
    decreases |m|
  {
    if m == map[] {
    } else {
      var a := Pick(m.Keys);
      assert At(m, a) == 0;
      assert forall b :: At(m - {a}, b) == 0 by {
        assert forall b :: At(m - {a}, b) == if b == a then 0 else At(m, b);
      }
      NoUnits(m - {a});
    }
  }

  lemma TiltIs(w: World, accounts: set<Address>)
    ensures var l := w.yt.ledger;
            Tilt(w, accounts) == Par(w.pt.totalSupply) - Carried(Weight(l, accounts), l.index * l.rate)
  {
  }

  /** While YT does not exceed PT, YT last settled at par or below never outweighs it. */
  lemma ParHoldingsLevel(c: Config, w: World, accounts: set<Address>)
    requires Inv(c, w) && w.yt.ledger.supply <= w.pt.totalSupply
    requires forall a :: a in accounts ==> FromPar(w.yt.ledger, a)
    ensures Tilt(w, accounts) >= 0.0
  {
    var l := w.yt.ledger;
    WeightFromPar(l, accounts);
    HeldAtMostTotal(l.balance, accounts);
    ParMonotone(Held(l.balance, accounts), w.pt.totalSupply);
    TiltIs(w, accounts);
  }

  /** With YT and PT in step, YT settled at par or above outweighs PT as soon as one holding was settled
      above par: the next price rise takes surplus away. */
  lemma HoldingAboveParTilts(c: Config, w: World, accounts: set<Address>, a: Address)
    requires Inv(c, w) && w.yt.ledger.supply == w.pt.totalSupply && w.yt.ledger.index > 0
    requires forall b :: At(w.yt.ledger.balance, b) > 0 ==> b in accounts
    requires forall b :: b in accounts ==> FromParOrAbove(w.yt.ledger, b)
    requires a in accounts && FromAbovePar(w.yt.ledger, a)
    ensures Tilt(w, accounts) < 0.0
  {
    var l := w.yt.ledger;
    HeldIsTotal(l.balance, accounts);
    WeightFromAbove(l, accounts);
    TiltIs(w, accounts);
  }

  lemma ParMonotone(x: int, y: int)
    ensures x <= y ==> Par(x) <= Par(y)
  {
  }

  // ---- a market that keeps the documented equation ----

  /** All YT was last settled at par and is matched by PT. */
  ghost predicate AtPar(w: World, accounts: set<Address>) {
    && w.yt.ledger.supply == w.pt.totalSupply
    && (forall a :: At(w.yt.ledger.balance, a) > 0 ==> a in accounts && SnapshotOf(w.yt.ledger, a) == SCALE)
  }

  lemma {:induction false} WeightAtPar(l: Ledger, accounts: set<Address>)
    requires forall a :: a in accounts && At(l.balance, a) > 0 ==> SnapshotOf(l, a) == SCALE
    ensures Carried(Weight(l, accounts), SCALE * SCALE) == Par(Held(l.balance, accounts))
  {
    if accounts == {} {
    } else {
      var a := Pick(accounts);
      WeightAtPar(l, accounts - {a});
      if SnapshotOf(l, a) > 0 {
        RatioAgainst(At(l.balance, a), SnapshotOf(l, a), SCALE * SCALE);
      }
      CarriedAdds(PerIndex(RowOf(l, a)), Weight(l, accounts - {a}), SCALE * SCALE, At(l.balance, a),
        Held(l.balance, accounts - {a}));
    }
  }

  /** f*r is SCALE*SCALE but for at most one remainder for each of `k` moves. */
  predicate NearPar(f: nat, r: nat, k: nat) {
    r > 0 && f * r <= SCALE * SCALE <= f * r + k * (r - 1)
  }

  /** At most one unit of index lost, and at most one for each of `k` moves won. */
  ghost predicate MoveWithin(effect: real, weight: real, k: nat) {
    weight >= 0.0 && -weight <= effect <= weight * k as real
  }

  lemma TiltAtPar(c: Config, w: World, accounts: set<Address>)
    requires Inv(c, w) && AtPar(w, accounts)
    ensures Tilt(w, accounts) == Carried(Weight(w.yt.ledger, accounts), SCALE * SCALE)
              - Carried(Weight(w.yt.ledger, accounts), w.yt.ledger.index * w.yt.ledger.rate)
  {
    WeightAtPar(w.yt.ledger, accounts);
    HeldIsTotal(w.yt.ledger.balance, accounts);
    TiltIs(w, accounts);
  }

  /** In a market at par an index move costs at most one unit of index and brings at most one for each move
      so far. */
  lemma ParEffect(c: Config, w: World, accounts: set<Address>, k: nat)
    requires Inv(c, w) && AtPar(w, accounts) && NearPar(w.yt.ledger.index, w.yt.ledger.rate, k)
    ensures MoveWithin(IndexEffect(w, accounts), Weight(w.yt.ledger, accounts), k)
  {
    TiltAtPar(c, w, accounts);
    IndexUpdateEffect(c, w, accounts);
    ParMove(IndexEffect(w, accounts), Tilt(w, accounts), Weight(w.yt.ledger, accounts), w.yt.ledger.index,
            w.yt.ledger.rate, PriceOf(w), k);
  }

  lemma ParMove(effect: real, tilt: real, weight: real, f: nat, r: nat, R: nat, k: nat)
    requires 0 < r <= R && NearPar(f, r, k) && WithinTilt(effect, tilt, weight, r as real, R as real)
    requires tilt == Carried(weight, SCALE * SCALE) - Carried(weight, f * r)
    ensures MoveWithin(effect, weight, k)
  {
    ParTilt(weight, f * r, r, k, tilt);
    ParEffectWithin(effect, tilt, weight, r as real, R as real, k as real);
  }

  lemma ParTilt(weight: real, fr: int, r: nat, k: nat, tilt: real)
    requires weight >= 0.0 && fr <= SCALE * SCALE <= fr + k * (r - 1)
    requires tilt == Carried(weight, SCALE * SCALE) - Carried(weight, fr)
    ensures 0.0 <= tilt <= weight * k as real * r as real
  {
    var d := SCALE * SCALE - fr;
    assert tilt == weight * d as real;
    assert d <= k * r by {
      assert k * (r - 1) == k * r - k;
    }
    CastProduct(k, r);
    ScaledBound(weight, d as real, k as real * r as real);
    assert weight * (k as real * r as real) == weight * k as real * r as real;
  }

  lemma ScaledBound(weight: real, x: real, y: real)
    requires weight >= 0.0 && 0.0 <= x <= y
    ensures 0.0 <= weight * x <= weight * y
  {
  }

  lemma ParEffectWithin(effect: real, tilt: real, weight: real, r: real, R: real, k: real)
    requires 0.0 < r <= R && k >= 0.0 && WithinTilt(effect, tilt, weight, r, R)
    requires 0.0 <= tilt <= weight * k * r
    ensures -weight <= effect <= weight * k
  {
    SignOfEffect(effect, tilt, weight, r, R);
    var q, most := r * R, weight * k;
    assert tilt * (R - r) <= most * q by {
      ScaledBound(tilt, R - r, R);
      ScaledBound(R, tilt, most * r);
      assert R * (most * r) == most * q;
    }
    if effect > most {
      NegativeProduct(most - effect, q);
      assert false;
    }
  }

  /** No move of the index meets anything but a market at par, PT is not paid late, and nothing is given to
      the manager or seized from it. */
  ghost predicate ParThroughout(c: Config, w: World, txs: seq<Tx>, accounts: set<Address>)
    requires c.Valid() && Inv(c, w)
  {
    txs == [] ||
    (var init, tx := txs[..|txs| - 1], txs[|txs| - 1];
     RunKeeps(c, w, init);
     var y := Run(c, w, init);
     && ParThroughout(c, w, init, accounts)
     && (MovesIndex(c, y, tx) ==> AtPar(y, accounts))
     && LateOf(c, y, tx) == 0.0
     && Entry(c, y, tx).gifts == 0 && Entry(c, y, tx).seized == 0)
  }

  lemma {:induction false} IndexMovesGrow(l: Ledger, es: seq<Event>, fs: seq<Event>)
    requires Legal(l, es) && Legal(After(l, es), fs)
    ensures Legal(l, es + fs) && IndexMoves(l, es + fs) >= IndexMoves(l, es)
  {
    AfterAppend(l, es, fs);
    if fs == [] {
      assert es + fs == es;
    } else {
      var init, f := fs[..|fs| - 1], fs[|fs| - 1];
      IndexMovesGrow(l, es, init);
      assert (es + fs)[..|es + fs| - 1] == es + init;
    }
  }

  lemma MovesGrow(c: Config, w: World, txs: seq<Tx>)
    requires c.Valid() && Inv(c, w) && txs != []
    ensures MovesIn(c, w, txs) >= MovesIn(c, w, txs[..|txs| - 1])
  {
    var init, tx := txs[..|txs| - 1], txs[|txs| - 1];
    RunTraced(c, w, init);
    RunKeeps(c, w, init);
    StepTraced(c, Run(c, w, init), tx);
    IndexMovesGrow(w.yt.ledger, Trace(c, w, init), EventsOf(c, Run(c, w, init), tx));
  }

  /** -dust <= drift <= moves * dust. */
  ghost predicate WithinMoves(drift: real, dust: real, moves: nat) {
    dust >= 0.0 && -dust <= drift <= moves as real * dust
  }

  lemma AddMove(drift: real, dust: real, moves: nat, effect: real, weight: real, moves': nat, drift': real, dust': real)
    requires WithinMoves(drift, dust, moves) && MoveWithin(effect, weight, moves)
    requires moves <= moves' && drift' == drift + effect && dust' == dust + weight
    ensures WithinMoves(drift', dust', moves')
  {
    var sum := dust + weight;
    assert moves as real * sum == moves as real * dust + weight * moves as real;
    ScaledBound(sum, moves as real, moves' as real);
  }

  lemma {:induction false} ParDrift(c: Config, w: World, txs: seq<Tx>, accounts: set<Address>, drift: real, dust: real)
    requires c.Valid() && Deployed(w) && PriceOf(w) == SCALE && Inv(c, w) && ParThroughout(c, w, txs, accounts)
    requires drift == Drift(c, w, txs, accounts) && dust == Dust(c, w, txs, accounts)
    ensures WithinMoves(drift, dust, MovesIn(c, w, txs))
  {
    if txs == [] {
    } else {
      var init, tx := txs[..|txs| - 1], txs[|txs| - 1];
      var drift0, dust0 := Drift(c, w, init, accounts), Dust(c, w, init, accounts);
      RunKeeps(c, w, init);
      ParDrift(c, w, init, accounts, drift0, dust0);
      MovesGrow(c, w, txs);
      var y := Run(c, w, init);
      ParStep(c, w, init, y, tx, accounts);
      AddMove(drift0, dust0, MovesIn(c, w, init), DriftOf(c, y, tx, accounts), DustOf(c, y, tx, accounts),
              MovesIn(c, w, txs), drift, dust);
    }
  }

  lemma ParStep(c: Config, w: World, init: seq<Tx>, y: World, tx: Tx, accounts: set<Address>)
    requires c.Valid() && Deployed(w) && PriceOf(w) == SCALE && Inv(c, w) && y == Run(c, w, init) && Inv(c, y)
    requires MovesIndex(c, y, tx) ==> AtPar(y, accounts)
    requires LateOf(c, y, tx) == 0.0 && Entry(c, y, tx).gifts == 0 && Entry(c, y, tx).seized == 0
    ensures MoveWithin(DriftOf(c, y, tx, accounts), DustOf(c, y, tx, accounts), MovesIn(c, w, init))
  {
    if MovesIndex(c, y, tx) {
      PathNearPar(c, w, init);
      ParEffect(c, y, accounts, MovesIn(c, w, init));
    } else {
      NoMoveNoEffect(c, y, tx, accounts);
    }
    OnlyEffect(DriftOf(c, y, tx, accounts), EffectOf(c, y, tx, accounts), LateOf(c, y, tx), Entry(c, y, tx));
    if !MovesIndex(c, y, tx) {
      NothingWithin(DriftOf(c, y, tx, accounts), MovesIn(c, w, init));
    }
  }

  lemma OnlyEffect(drift: real, effect: real, late: real, e: Books)
    requires drift == effect + late + (e.gifts - e.seized) as real && late == 0.0 && e.gifts == 0 && e.seized == 0
    ensures drift == effect
  {
  }

  lemma NothingWithin(effect: real, k: nat)
    requires effect == 0.0
    ensures MoveWithin(effect, 0.0, k)
  {
  }

  lemma PathNearPar(c: Config, w: World, txs: seq<Tx>)
    requires c.Valid() && Deployed(w) && PriceOf(w) == SCALE
    ensures Inv(c, w)
    ensures NearPar(LedgerOf(c, w, txs).index, LedgerOf(c, w, txs).rate, MovesIn(c, w, txs))
  {
    IndexPathIndependent(c, w, txs);
  }

  /** A market that keeps the documented equation: deployed at par, with the index moving only while all YT
      was settled at par and is matched by PT, no PT paid late and no shares given to the manager or seized
      from it, custody equals all claims up to the dust of k moves, k-fold above, and the roundings. */
  lemma ParMarketMeetsClaims(c: Config, w: World, txs: seq<Tx>, accounts: set<Address>)
    requires c.Valid() && Deployed(w) && PriceOf(w) == SCALE && Inv(c, w) && ParThroughout(c, w, txs, accounts)
    requires Run(c, w, txs).yt.ledger.snapshot.Keys <= accounts
    ensures Inv(c, Run(c, w, txs))
    ensures MeetsClaims(SurplusOf(c, Run(c, w, txs), accounts), Dust(c, w, txs, accounts), MovesIn(c, w, txs),
                        Roundings(c, w, txs))
  {
    CustodyMeetsClaims(c, w, txs, accounts, 0.0);
    ParDrift(c, w, txs, accounts, Drift(c, w, txs, accounts), Dust(c, w, txs, accounts));
    DriftMeetsClaims(SurplusOf(c, Run(c, w, txs), accounts), Drift(c, w, txs, accounts), Dust(c, w, txs, accounts),
                     MovesIn(c, w, txs), Roundings(c, w, txs));
  }

  /** -dust <= surplus <= k*dust + rounding. */
  ghost predicate MeetsClaims(surplus: real, dust: real, k: nat, rounding: real) {
    -dust <= surplus <= k as real * dust + rounding
  }

  lemma DriftMeetsClaims(surplus: real, drift: real, dust: real, k: nat, rounding: real)
    requires WithinMoves(drift, dust, k) && Above(surplus, drift, rounding)
    ensures MeetsClaims(surplus, dust, k, rounding)
  {
  }

  // ---- what solvency is worth ----

  /** A covered market can pay any redemption in full. */
  lemma CoveredPaysRedemption(c: Config, w: World, a: Address, p: int, y: int, accounts: set<Address>)
    requires c.Valid() && Inv(c, w) && a in accounts && p <= w.pt.totalSupply && y <= At(w.yt.ledger.balance, a)
    requires Owing(w.pt.totalSupply, Indexed(w), accounts) <= Custody(c, w) as real
    ensures PrincipalDue(w, p) + YieldDue(w, a, y) <= Custody(c, w)
  {
    var l, n := Indexed(w), Nat(p);
    ApplyKeepsSound(w.yt.ledger, IndexNow(w));
    if p > 0 {
      RedeemCovers(w.pt.totalSupply, n, PriceOf(w), PriceOf(w));
    }
    assert PtDue(w.pt.totalSupply - n, PriceOf(w)) >= 0.0;
    TotalDueNonNegative(l, accounts);
    if y > 0 {
      EventTotalDue(l, Destroy(a, y), accounts);
      ApplyKeepsSound(l, Destroy(a, y));
      DueCoversClaim(Apply(l, Destroy(a, y)), a, accounts);
    }
  }

  lemma DueCoversClaim(l: Ledger, a: Address, accounts: set<Address>)
    requires Sound(l) && a in accounts
    ensures Claimable(l, a) as real <= TotalDue(l, accounts)
  {
    EventTotalDue(l, Claim(a), accounts);
    ApplyKeepsSound(l, Claim(a));
    TotalDueNonNegative(Apply(l, Claim(a)), accounts);
  }

  /** So in a covered market custody is never the reason for a refusal. */
  lemma CoveredMarketSettles(c: Config, w: World, a: Address, p: int, y: int, accounts: set<Address>)
    requires c.Valid() && Inv(c, w) && a in accounts && a !in c.Contracts()
    requires Owing(w.pt.totalSupply, Indexed(w), accounts) <= Custody(c, w) as real
    requires (p > 0 || y > 0) && (p > 0 ==> p <= At(w.pt.balance, a)) && (y > 0 ==> y <= At(w.yt.ledger.balance, a))
    requires !w.manager.paused && w.net.now >= c.maturity && Timely(w) && PayoutGates(c, w, a)
    ensures Step(c, w, Tx(a, OnManager(Redeem(p, y)))).Ok? <==> (p > 0 ==> PrincipalDue(w, p) > 0)
  {
    AtMostTotal(w.pt.balance, a);
    CoveredPaysRedemption(c, w, a, p, if y > 0 then y else 0, accounts);
    RedeemSucceedsIff(c, w, a, p, y);
  }
}
