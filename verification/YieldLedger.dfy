/** The accrual engine of the yield token without its access gates: a global multiplicative
    index, one snapshot of it per account, and lazy settlement before every balance change. */
module YieldLedger {
  import opened Base
  import opened Arith

  /** `rate` is the high-water oracle rate the index was last moved to. */
  datatype Ledger = Ledger(
    index: nat,
    rate: nat,
    balance: Balances,
    snapshot: Balances,
    pending: Balances,
    supply: int)

  function Genesis(rate: nat): Ledger {
    Ledger(SCALE, rate, map[], map[], map[], 0)
  }

  function SnapshotOf(l: Ledger, a: Address): nat {
    if a in l.snapshot then l.snapshot[a] else SCALE
  }

  /** Yield on a balance whose snapshot lies above the index. */
  function Owed(balance: nat, snapshot: nat, index: nat): nat {
    if index < snapshot && balance > 0 then
      DivBounds(balance * (snapshot - index), snapshot);
      balance * (snapshot - index) / snapshot
    else 0
  }

  function OwedTo(l: Ledger, a: Address): nat {
    Owed(At(l.balance, a), SnapshotOf(l, a), l.index)
  }

  function Settle(l: Ledger, a: Address): Ledger {
    var owed := OwedTo(l, a);
    l.(pending := if owed > 0 then l.pending[a := At(l.pending, a) + owed] else l.pending,
       snapshot := l.snapshot[a := l.index])
  }

  /** Only a rate above the high-water mark moves the index. */
  function NextIndex(index: nat, rate: nat, now: nat): nat {
    if now > rate then
      DivBounds(index * rate, now);
      index * rate / now
    else index
  }

  function NextRate(rate: nat, now: nat): nat {
    if now > rate then now else rate
  }

  /** What happens to the ledger once an entry point has passed its gates. */
  datatype Event =
    | Index(now: nat)
    | Move(from: Address, to: Address, amount: nat)
    | Issue(to: Address, amount: nat)
    | Destroy(from: Address, amount: nat)
    | Claim(who: Address)

  predicate Enabled(l: Ledger, e: Event) {
    match e
    case Move(from, _, amount) => amount <= At(l.balance, from)
    case Destroy(from, amount) => amount <= At(l.balance, from)
    case _ => true
  }

  function Apply(l: Ledger, e: Event): Ledger
    requires Enabled(l, e)
  {
    match e
    case Index(now) =>
      l.(index := NextIndex(l.index, l.rate, now), rate := NextRate(l.rate, now))
    case Move(from, to, amount) =>
      Settle(Settle(l, from), to).(balance := Moved(l.balance, from, to, amount))
    case Issue(to, amount) =>
      Settle(l, to).(balance := l.balance[to := At(l.balance, to) + amount], supply := l.supply + amount)
    case Destroy(from, amount) =>
      Settle(l, from).(balance := l.balance[from := At(l.balance, from) - amount], supply := l.supply - amount)
    case Claim(who) =>
      var s := Settle(l, who);
      s.(pending := s.pending[who := 0])
  }

  /** What a claim returns. */
  function Claimable(l: Ledger, a: Address): nat {
    At(Settle(l, a).pending, a)
  }

  predicate Legal(l: Ledger, es: seq<Event>)
    decreases |es|, 0
  {
    es == [] || (Legal(l, es[..|es| - 1]) && Enabled(After(l, es[..|es| - 1]), es[|es| - 1]))
  }

  function After(l: Ledger, es: seq<Event>): Ledger
    requires Legal(l, es)
    decreases |es|, 1
  {
    if es == [] then l else Apply(After(l, es[..|es| - 1]), es[|es| - 1])
  }

  lemma AfterSnoc(l: Ledger, es: seq<Event>, e: Event)
    requires Legal(l, es) && Enabled(After(l, es), e)
    ensures Legal(l, es + [e]) && After(l, es + [e]) == Apply(After(l, es), e)
    ensures forall a :: Claimed(l, es + [e], a) == Claimed(l, es, a) + ClaimedBy(After(l, es), e, a)
  {
    assert (es + [e])[..|es|] == es;
  }

  // ---- totals along a run of events ----

  function ClaimedBy(l: Ledger, e: Event, a: Address): nat {
    if e == Claim(a) then Claimable(l, a) else 0
  }

  /** Everything `claim_yield` returned for `a`. */
  function Claimed(l: Ledger, es: seq<Event>, a: Address): nat
    requires Legal(l, es)
  {
    if es == [] then 0 else
      Claimed(l, es[..|es| - 1], a) + ClaimedBy(After(l, es[..|es| - 1]), es[|es| - 1], a)
  }

  predicate Settles(e: Event, a: Address) {
    match e
    case Index(_) => false
    case Move(from, to, _) => a == from || a == to
    case Issue(to, _) => a == to
    case Destroy(from, _) => a == from
    case Claim(who) => a == who
  }

  /** Everything `settle` credited to `a`, read off the settlement formula alone. */
  function Credited(l: Ledger, es: seq<Event>, a: Address): nat
    requires Legal(l, es)
  {
    if es == [] then 0 else
      var before := After(l, es[..|es| - 1]);
      Credited(l, es[..|es| - 1], a) + if Settles(es[|es| - 1], a) then OwedTo(before, a) else 0
  }

  /** Number of index updates that found a higher rate. */
  function IndexMoves(l: Ledger, es: seq<Event>): nat
    requires Legal(l, es)
  {
    if es == [] then 0 else
      var e, before := es[|es| - 1], After(l, es[..|es| - 1]);
      IndexMoves(l, es[..|es| - 1]) + if e.Index? && e.now > before.rate then 1 else 0
  }

  /** Credit of one index move on `units` held, in exact arithmetic. */
  ghost function EagerStep(units: int, index: nat, index': nat): real {
    if index == 0 then 0.0 else (units * (index - index')) as real / index as real
  }

  /** The eager ledger: every index move at once credits the whole supply. */
  ghost function Eager(l: Ledger, es: seq<Event>): real
    requires Legal(l, es)
  {
    if es == [] then 0.0 else
      var before := After(l, es[..|es| - 1]);
      Eager(l, es[..|es| - 1]) + EagerStep(before.supply, before.index, Apply(before, es[|es| - 1]).index)
  }

  // ---- what every event keeps ----

  /** The index only ever lies below every snapshot, a holder always has a snapshot, and the
      supply is what the holders hold. */
  ghost predicate Sound(l: Ledger) {
    && l.index <= SCALE
    && l.rate > 0
    && (forall a :: a in l.snapshot ==> l.index <= l.snapshot[a] <= SCALE)
    && (forall a :: At(l.balance, a) > 0 ==> a in l.snapshot)
    && l.supply == Total(l.balance)
  }

  lemma GenesisSound(rate: nat)
    requires rate > 0
    ensures Sound(Genesis(rate))
  {
  }

  /** An accepted move lowers the index, strictly while it is positive. */
  lemma IndexFalls(index: nat, rate: nat, now: nat)
    requires rate > 0
    ensures NextIndex(index, rate, now) <= index
    ensures now > rate && index > 0 ==> NextIndex(index, rate, now) < index
  {
    if now > rate {
      MulMonotone(rate + 1, now, index);
      if index > 0 {
        QuotientBelow(index, index * rate, now);
      } else {
        DivExact(0, now);
      }
    }
  }

  /** When an update is exact: `n` is what index times rate was before any rounding, and the new index is
      the floor of n/R exactly if the remainder the floor drops and the shortfall so far stay below R. */
  lemma UpdateExactIff(n: nat, f: nat, r: nat, R: nat)
    requires 0 < r < R && f * r <= n
    ensures NextIndex(f, r, R) == n / R <==> (f * r) % R + (n - f * r) < R
  {
    var q := NextIndex(f, r, R);
    assert f * r == q * R + (f * r) % R;
    DivBounds(f * r, R);
    QuotientAtLeast(q, n, R);
    if n < (q + 1) * R {
      QuotientBelow(q + 1, n, R);
    } else {
      QuotientAtLeast(q + 1, n, R);
    }
    assert (q + 1) * R == q * R + R;
  }

  /** From par over 1.08 to 1.10 the index is one unit below SCALE*SCALE/1.10. */
  lemma UpdateInexact()
    ensures NextIndex(SCALE, SCALE, 10_800_000) == 9_259_259
    ensures NextIndex(9_259_259, 10_800_000, 11_000_000) == 9_090_908
    ensures SCALE * SCALE / 11_000_000 == 9_090_909
  {
  }

  lemma SettleKeepsSound(l: Ledger, a: Address)
    requires Sound(l)
    ensures Sound(Settle(l, a)) && a in Settle(l, a).snapshot
    ensures forall b :: b in l.snapshot ==> b in Settle(l, a).snapshot
  {
  }

  lemma ApplyKeepsSound(l: Ledger, e: Event)
    requires Sound(l) && Enabled(l, e)
    ensures Sound(Apply(l, e))
    ensures Apply(l, e).rate >= l.rate && Apply(l, e).index <= l.index
    ensures e.Issue? || e.Destroy? || Apply(l, e).supply == l.supply
  {
    match e
    case Index(now) => IndexFalls(l.index, l.rate, now);
    case Move(from, to, amount) => MoveKeepsSound(l, from, to, amount);
    case Issue(to, amount) => IssueKeepsSound(l, to, amount);
    case Destroy(from, amount) => DestroyKeepsSound(l, from, amount);
    case Claim(who) => SettleKeepsSound(l, who);
  }

  lemma IssueKeepsSound(l: Ledger, to: Address, amount: nat)
    requires Sound(l)
    ensures Sound(Apply(l, Issue(to, amount)))
  {
    SettleKeepsSound(l, to);
    TotalUpdate(l.balance, to, At(l.balance, to) + amount);
  }

  lemma DestroyKeepsSound(l: Ledger, from: Address, amount: nat)
    requires Sound(l) && amount <= At(l.balance, from)
    ensures Sound(Apply(l, Destroy(from, amount)))
  {
    SettleKeepsSound(l, from);
    TotalUpdate(l.balance, from, At(l.balance, from) - amount);
  }

  lemma MoveKeepsSound(l: Ledger, from: Address, to: Address, amount: nat)
    requires Sound(l) && amount <= At(l.balance, from)
    ensures Sound(Apply(l, Move(from, to, amount)))
  {
    SettleKeepsSound(l, from);
    SettleKeepsSound(Settle(l, from), to);
    TotalMoved(l.balance, from, to, amount);
  }

  lemma {:induction false} AfterSound(l: Ledger, es: seq<Event>)
    requires Sound(l) && Legal(l, es)
    ensures Sound(After(l, es)) && After(l, es).rate >= l.rate && After(l, es).index <= l.index
  {
    if es == [] {
    } else {
      AfterSound(l, es[..|es| - 1]);
      ApplyKeepsSound(After(l, es[..|es| - 1]), es[|es| - 1]);
    }
  }

  /** A settlement never divides by zero and credits at most the balance itself. */
  lemma OwedBounded(balance: nat, snapshot: nat, index: nat)
    requires index <= snapshot
    ensures Owed(balance, snapshot, index) * snapshot <= balance * (snapshot - index)
    ensures index < snapshot ==> balance * (snapshot - index) < (Owed(balance, snapshot, index) + 1) * snapshot
    ensures Owed(balance, snapshot, index) <= balance
  {
    if index < snapshot && balance > 0 {
      var owed := Owed(balance, snapshot, index);
      DivBounds(balance * (snapshot - index), snapshot);
      assert (owed + 1) * snapshot == owed * snapshot + snapshot;
      assert balance * (snapshot - index) <= balance * snapshot by { MulMonotone(snapshot - index, snapshot, balance); }
      assert (balance + 1) * snapshot == balance * snapshot + snapshot;
      if owed > balance {
        MulMonotone(balance + 1, owed, snapshot);
        assert false;
      }
    }
  }

  /** On floors, settling at index `f` between `s` and `z` against settling once at `z`: it pays at least as
      much, or the same, exactly as the second credit compares with what the remainder of the first would
      have come to; and it never pays more than one unit less. */
  lemma SettlingBetweenIff(b: nat, s: nat, f: nat, z: nat)
    requires z <= f <= s && f > 0
    ensures var twice, once := Owed(b, s, f) + Owed(b, f, z), Owed(b, s, z);
            var carried := ((b * (s - f)) % s + b * (f - z)) / s;
            && (twice >= once <==> b * (f - z) / f >= carried)
            && (twice == once <==> b * (f - z) / f == carried)
            && twice + 1 >= once
  {
    var x, y := b * (s - f), b * (f - z);
    OwedIsQuotient(b, s, f);
    OwedIsQuotient(b, f, z);
    OwedIsQuotient(b, s, z);
    assert b * (s - z) == x + y;
    QuotientOfSum(x, y, s);
    CarryBelow(x % s, y, f, s);
  }

  lemma OwedIsQuotient(b: nat, s: nat, f: nat)
    requires f <= s && s > 0
    ensures Owed(b, s, f) == b * (s - f) / s
  {
    if f == s || b == 0 {
      assert b * (s - f) == 0;
      DivExact(0, s);
    }
  }

  lemma QuotientOfSum(x: nat, y: nat, s: nat)
    requires s > 0
    ensures (x + y) / s == x / s + (x % s + y) / s
  {
    var q, c := x / s, (x % s + y) / s;
    assert x == q * s + x % s;
    DivBounds(x % s + y, s);
    assert (q + c) * s == q * s + c * s;
    assert (q + c + 1) * s == q * s + c * s + s;
    QuotientAtLeast(q + c, x + y, s);
    QuotientBelow(q + c + 1, x + y, s);
  }

  lemma CarryBelow(rest: nat, y: nat, f: nat, s: nat)
    requires rest < s && 0 < f <= s
    ensures (rest + y) / s <= y / f + 1
  {
    DivBounds(y, f);
    MulMonotone(f, s, y / f + 1);
    assert (y / f + 1) * f == (y / f) * f + f;
    assert (y / f + 2) * s == (y / f + 1) * s + s;
    QuotientBelow(y / f + 2, rest + y, s);
  }

  /** Both ways it can go: on a small balance settling in between loses a unit, and on a large one it can
      come to the same although the index fell on both sides. */
  lemma SettlingBetweenWitness()
    ensures Owed(3, 10_000_000, 8_000_000) + Owed(3, 8_000_000, 6_400_000) == 0
    ensures Owed(3, 10_000_000, 6_400_000) == 1
    ensures Owed(5_000_000_000, 10_000_000, 9_999_997) + Owed(5_000_000_000, 9_999_997, 9_999_994)
            == Owed(5_000_000_000, 10_000_000, 9_999_994)
  {
  }
}
