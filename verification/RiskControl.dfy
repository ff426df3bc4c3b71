/** The deposit circuit breaker: a windowed volume limit shared by registered consumers. */
module RiskControl {
  import opened Base

  const CB_WINDOW_SECS: nat := 86_400

  /** `limit` 0 disables the breaker. */
  datatype Breaker = Breaker(
    admin: Address,
    paused: bool,
    pausers: set<Address>,
    consumers: set<Address>,
    limit: int,
    volume: int,
    windowStart: nat)

  function Initial(admin: Address, limit: int, now: nat): Breaker {
    Breaker(admin, false, {}, {}, limit, 0, now)
  }

  /** The window a deposit at `now` falls into: the running one, or a new one once it has lapsed. */
  function VolumeAt(b: Breaker, now: nat): int {
    if now - b.windowStart >= CB_WINDOW_SECS then 0 else b.volume
  }

  function StartAt(b: Breaker, now: nat): nat {
    if now - b.windowStart >= CB_WINDOW_SECS then now else b.windowStart
  }

  function CheckDeposit(b: Breaker, auth: Address, caller: Address, amount: int, now: nat): Result<Breaker> {
    if auth != caller then Err(Unauthorized) else
    :- Need(caller in b.consumers, NotConsumer);
    :- Need(!b.paused, Paused);
    :- Need(amount > 0, ZeroAmount);
    if b.limit == 0 then Ok(b) else
      :- Need(now >= b.windowStart, ArithmeticOverflow);
      :- Need(VolumeAt(b, now) + amount <= b.limit, CircuitBreakerTripped);
      Ok(b.(volume := VolumeAt(b, now) + amount, windowStart := StartAt(b, now)))
  }

  function SetLimit(b: Breaker, auth: Address, limit: int): Result<Breaker> {
    if auth != b.admin then Err(Unauthorized) else
    Ok(b.(limit := limit))
  }

  /** Any pauser can pause; only the admin can unpause. */
  function SetPaused(b: Breaker, auth: Address, paused: bool): Result<Breaker> {
    if auth != b.admin && !(paused && auth in b.pausers) then Err(if paused then NotPauser else Unauthorized) else
    Ok(b.(paused := paused))
  }

  function SetConsumer(b: Breaker, auth: Address, consumer: Address, member: bool): Result<Breaker> {
    if auth != b.admin then Err(Unauthorized) else
    :- Need(!member || consumer !in b.consumers, AlreadyConsumer);
    Ok(b.(consumers := if member then b.consumers + {consumer} else b.consumers - {consumer}))
  }

  function SetPauser(b: Breaker, auth: Address, pauser: Address, member: bool): Result<Breaker> {
    if auth != b.admin then Err(Unauthorized) else
    :- Need(!member || pauser !in b.pausers, AlreadyPauser);
    Ok(b.(pausers := if member then b.pausers + {pauser} else b.pausers - {pauser}))
  }

  /** A deposit is let through if and only if a registered consumer asks, the breaker is not paused, the
      amount is positive, and the breaker is disabled or the window at that time has room for it. It counts
      in the running window, or opens one 24 hours after the last was opened. */
  lemma CheckExactly(b: Breaker, auth: Address, caller: Address, n: int, now: nat)
    ensures var r := CheckDeposit(b, auth, caller, n, now);
            var lapsed := now >= b.windowStart + 86_400;
            var volume := if lapsed then 0 else b.volume;
            && (r.Ok? <==>
                 && auth == caller && caller in b.consumers && !b.paused && n > 0
                 && (b.limit == 0 || (now >= b.windowStart && volume + n <= b.limit)))
            && (r.Ok? ==>
                 r.value == if b.limit == 0 then b
                            else b.(volume := volume + n, windowStart := if lapsed then now else b.windowStart))
  {
  }

  /** The roles: the administrator alone sets the limit, lifts a pause and keeps the lists; a pauser may
      pause. */
  lemma RolesExactly(b: Breaker, auth: Address, who: Address, limit: int)
    ensures var r := SetLimit(b, auth, limit);
            (r.Ok? <==> auth == b.admin) && (r.Ok? ==> r.value == b.(limit := limit))
    ensures var r := SetPaused(b, auth, true);
            (r.Ok? <==> auth == b.admin || auth in b.pausers) && (r.Ok? ==> r.value == b.(paused := true))
    ensures var r := SetPaused(b, auth, false);
            (r.Ok? <==> auth == b.admin) && (r.Ok? ==> r.value == b.(paused := false))
    ensures var r := SetConsumer(b, auth, who, true);
            && (r.Ok? <==> auth == b.admin && who !in b.consumers)
            && (r.Ok? ==> r.value == b.(consumers := b.consumers + {who}))
    ensures var r := SetConsumer(b, auth, who, false);
            (r.Ok? <==> auth == b.admin) && (r.Ok? ==> r.value == b.(consumers := b.consumers - {who}))
    ensures var r := SetPauser(b, auth, who, true);
            && (r.Ok? <==> auth == b.admin && who !in b.pausers)
            && (r.Ok? ==> r.value == b.(pausers := b.pausers + {who}))
    ensures var r := SetPauser(b, auth, who, false);
            (r.Ok? <==> auth == b.admin) && (r.Ok? ==> r.value == b.(pausers := b.pausers - {who}))
  {
  }

  // ---- runs ----

  datatype Op =
    | Deposit(amount: int)
    | Limit(limit: int)
    | PauseOp(paused: bool)
    | Consumer(consumer: Address, member: bool)
    | Pauser(pauser: Address, member: bool)

  datatype Call = Call(signer: Address, now: nat, op: Op)

  function Step(b: Breaker, call: Call): Result<Breaker> {
    match call.op
    case Deposit(amount) => CheckDeposit(b, call.signer, call.signer, amount, call.now)
    case Limit(limit) => SetLimit(b, call.signer, limit)
    case PauseOp(paused) => SetPaused(b, call.signer, paused)
    case Consumer(consumer, member) => SetConsumer(b, call.signer, consumer, member)
    case Pauser(pauser, member) => SetPauser(b, call.signer, pauser, member)
  }

  function Run(b: Breaker, calls: seq<Call>): Breaker {
    if calls == [] then b else
      var before := Run(b, calls[..|calls| - 1]);
      var r := Step(before, calls[|calls| - 1]);
      if r.Ok? then r.value else before
  }

  /** Total of the deposits accepted at times in [from, to). */
  function AcceptedIn(b: Breaker, calls: seq<Call>, from: nat, to: int): int {
    if calls == [] then 0 else
      var init, call := calls[..|calls| - 1], calls[|calls| - 1];
      AcceptedIn(b, init, from, to) +
      if call.op.Deposit? && Step(Run(b, init), call).Ok? && from <= call.now < to then call.op.amount else 0
  }

  /** The ledger clock never goes back, starting from `start`. */
  predicate Chronological(calls: seq<Call>, start: nat) {
    forall i :: 0 <= i < |calls| ==> start <= calls[i].now && (i > 0 ==> calls[i - 1].now <= calls[i].now)
  }

  /** The breaker is enabled and its limit never exceeds `most`. */
  predicate Limited(b: Breaker, calls: seq<Call>, most: int) {
    if calls == [] then 0 < b.limit <= most else
      Limited(b, calls[..|calls| - 1], most) && 0 < Run(b, calls).limit <= most
  }

  function Last(calls: seq<Call>, start: nat): nat {
    if calls == [] then start else calls[|calls| - 1].now
  }

  lemma ChronologicalPrefix(calls: seq<Call>, start: nat)
    requires calls != [] && Chronological(calls, start)
    ensures Chronological(calls[..|calls| - 1], start)
    ensures Last(calls[..|calls| - 1], start) <= calls[|calls| - 1].now
  {
    var init := calls[..|calls| - 1];
    assert forall i :: 0 <= i < |init| ==> init[i] == calls[i];
    if init != [] {
      assert calls[|calls| - 2].now <= calls[|calls| - 1].now;
    }
  }

  /** Nothing is accepted after the last call, nor past the end of the current window. */
  lemma {:induction false} NothingBeyond(b: Breaker, calls: seq<Call>, most: int, from: nat, to: int)
    requires Chronological(calls, b.windowStart) && Limited(b, calls, most)
    requires from > Last(calls, b.windowStart) || from >= Run(b, calls).windowStart + CB_WINDOW_SECS
    ensures AcceptedIn(b, calls, from, to) == 0
  {
    if calls == [] {
    } else {
      ChronologicalPrefix(calls, b.windowStart);
      NothingBeyond(b, calls[..|calls| - 1], most, from, to);
    }
  }

  /** A span that reaches past the last call holds what a span up to that call holds. */
  lemma {:induction false} SpanEnds(b: Breaker, calls: seq<Call>, from: nat, to: int, to': int)
    requires Chronological(calls, b.windowStart)
    requires to > Last(calls, b.windowStart) && to' > Last(calls, b.windowStart)
    ensures AcceptedIn(b, calls, from, to) == AcceptedIn(b, calls, from, to')
  {
    if calls == [] {
    } else {
      ChronologicalPrefix(calls, b.windowStart);
      SpanEnds(b, calls[..|calls| - 1], from, to, to');
    }
  }

  /** The recorded volume is what was accepted since the window start, and at most the limit. */
  lemma {:induction false} VolumeIsWindow(b: Breaker, calls: seq<Call>, most: int)
    requires b.volume == 0 && Chronological(calls, b.windowStart) && Limited(b, calls, most)
    ensures var z := Run(b, calls);
            && b.windowStart <= z.windowStart <= Last(calls, b.windowStart)
            && 0 <= z.volume <= most
            && z.volume == AcceptedIn(b, calls, z.windowStart, Last(calls, b.windowStart) + 1)
  {
    if calls == [] {
    } else {
      var init, call, start := calls[..|calls| - 1], calls[|calls| - 1], b.windowStart;
      ChronologicalPrefix(calls, start);
      VolumeIsWindow(b, init, most);
      var y, z := Run(b, init), Run(b, calls);
      SpanEnds(b, init, y.windowStart, call.now + 1, Last(init, start) + 1);
      if z.windowStart != y.windowStart {
        NothingBeyond(b, init, most, z.windowStart, call.now + 1);
      }
    }
  }

  /** How much of the span [from, from + window) can already be used up, given the current window. */
  function SpanCap(b: Breaker, from: nat, most: int): int {
    if b.windowStart < from then b.volume
    else if b.windowStart < from + CB_WINDOW_SECS then most + b.volume
    else most + most
  }

  lemma {:induction false} SpanBelowCap(b: Breaker, calls: seq<Call>, most: int, from: nat)
    requires b.volume == 0 && Chronological(calls, b.windowStart) && Limited(b, calls, most)
    ensures AcceptedIn(b, calls, from, from + CB_WINDOW_SECS) <= SpanCap(Run(b, calls), from, most)
  {
    if calls == [] {
    } else {
      ChronologicalPrefix(calls, b.windowStart);
      SpanBelowCap(b, calls[..|calls| - 1], most, from);
      VolumeIsWindow(b, calls[..|calls| - 1], most);
      VolumeIsWindow(b, calls, most);
      if from > Last(calls, b.windowStart) {
        NothingBeyond(b, calls, most, from, from + CB_WINDOW_SECS);
      }
    }
  }

  /** Span bound: while the limits stay in (0, most], the deposits accepted in any 24-hour span total
      at most twice `most`. */
  lemma SpanBound(b: Breaker, calls: seq<Call>, most: int, from: nat)
    requires b.volume == 0 && Chronological(calls, b.windowStart) && Limited(b, calls, most)
    ensures AcceptedIn(b, calls, from, from + CB_WINDOW_SECS) <= 2 * most
  {
    SpanBelowCap(b, calls, most, from);
    VolumeIsWindow(b, calls, most);
  }

  /** A span in which no window starts after its first second keeps to the limit itself. */
  lemma SpanWithoutRollover(b: Breaker, calls: seq<Call>, most: int, from: nat)
    requires b.volume == 0 && Chronological(calls, b.windowStart) && Limited(b, calls, most)
    requires Run(b, calls).windowStart <= from
    ensures AcceptedIn(b, calls, from, from + CB_WINDOW_SECS) <= most
  {
    var z := Run(b, calls);
    SpanBelowCap(b, calls, most, from);
    VolumeIsWindow(b, calls, most);
    if z.windowStart == from {
      SpanWithin(b, calls, from, from + CB_WINDOW_SECS, Last(calls, b.windowStart) + 1);
    }
  }

  lemma {:induction false} SpanSplits(b: Breaker, calls: seq<Call>, from: nat, mid: nat, to: int)
    requires from <= mid <= to
    ensures AcceptedIn(b, calls, from, to) == AcceptedIn(b, calls, from, mid) + AcceptedIn(b, calls, mid, to)
  {
    if calls == [] {
    } else {
      SpanSplits(b, calls[..|calls| - 1], from, mid, to);
    }
  }

  lemma {:induction false} AcceptedNonNegative(b: Breaker, calls: seq<Call>, from: nat, to: int)
    ensures AcceptedIn(b, calls, from, to) >= 0
  {
    if calls == [] {
    } else {
      AcceptedNonNegative(b, calls[..|calls| - 1], from, to);
    }
  }

  /** First second of the 24 hours that end with second `t`. */
  function TrailingFrom(t: nat): nat {
    if t + 1 >= CB_WINDOW_SECS then t + 1 - CB_WINDOW_SECS else 0
  }

  /** Every deposit the breaker lets through at `t` keeps the trailing 24 hours within `most`. */
  ghost predicate RollingKept(b: Breaker, calls: seq<Call>, consumer: Address, t: nat, most: int) {
    forall x: int ::
      var call := Call(consumer, t, Deposit(x));
      Step(Run(b, calls), call).Ok? ==> AcceptedIn(b, calls + [call], TrailingFrom(t), t + 1) <= most
  }

  /** When the limit does hold over a rolling day, as the state and the clock before the call decide: the
      window is used up, or nothing accepted in the trailing 24 hours predates the window that a deposit
      would now fall into. */
  lemma RollingLimitIff(b: Breaker, calls: seq<Call>, consumer: Address, t: nat, most: int)
    requires b.volume == 0 && Chronological(calls, b.windowStart) && Limited(b, calls, most)
    requires Run(b, calls).limit == most && consumer in Run(b, calls).consumers && !Run(b, calls).paused
    requires t >= Last(calls, b.windowStart)
    ensures var y := Run(b, calls);
            RollingKept(b, calls, consumer, t, most) <==>
            || VolumeAt(y, t) >= most
            || TrailingFrom(t) >= StartAt(y, t)
            || AcceptedIn(b, calls, TrailingFrom(t), StartAt(y, t)) == 0
  {
    var y, from := Run(b, calls), TrailingFrom(t);
    TrailingTotal(b, calls, t, most);
    forall x: int {
      AcceptedSnoc(b, calls, Call(consumer, t, Deposit(x)), from, t + 1);
    }
    if from < StartAt(y, t) && VolumeAt(y, t) < most {
      var fill := Call(consumer, t, Deposit(most - VolumeAt(y, t)));
      assert Step(y, fill).Ok?;
      AcceptedSnoc(b, calls, fill, from, t + 1);
    }
  }

  lemma AcceptedSnoc(b: Breaker, calls: seq<Call>, call: Call, from: nat, to: int)
    ensures AcceptedIn(b, calls + [call], from, to) == AcceptedIn(b, calls, from, to) +
      if call.op.Deposit? && Step(Run(b, calls), call).Ok? && from <= call.now < to then call.op.amount else 0
  {
    assert (calls + [call])[..|calls|] == calls;
  }

  /** The trailing day at `t` holds the volume of the window `t` falls into and what predates that window;
      and no more than the volume if nothing in the day predates it. */
  lemma TrailingTotal(b: Breaker, calls: seq<Call>, t: nat, most: int)
    requires b.volume == 0 && Chronological(calls, b.windowStart) && Limited(b, calls, most)
    requires t >= Last(calls, b.windowStart)
    ensures var y, from := Run(b, calls), TrailingFrom(t);
            var total, start := AcceptedIn(b, calls, from, t + 1), StartAt(y, t);
            && y.windowStart <= t
            && (from < start ==> total == AcceptedIn(b, calls, from, start) + VolumeAt(y, t))
            && (from < start ==> AcceptedIn(b, calls, from, start) >= 0)
            && (from >= start ==> total <= VolumeAt(y, t))
  {
    var y, from, start := Run(b, calls), TrailingFrom(t), StartAt(Run(b, calls), t);
    VolumeIsWindow(b, calls, most);
    if start == y.windowStart && t - y.windowStart < CB_WINDOW_SECS {
      SpanEnds(b, calls, start, Last(calls, b.windowStart) + 1, t + 1);
    } else {
      NothingBeyond(b, calls, most, start, t + 1);
    }
    if from < start {
      SpanSplits(b, calls, from, start, t + 1);
      AcceptedNonNegative(b, calls, from, start);
    } else {
      SpanSplits(b, calls, start, from, t + 1);
      AcceptedNonNegative(b, calls, start, from);
    }
  }

  lemma {:induction false} SpanWithin(b: Breaker, calls: seq<Call>, from: nat, to: int, to': int)
    requires Chronological(calls, b.windowStart) && to' > Last(calls, b.windowStart)
    ensures AcceptedIn(b, calls, from, to) <= AcceptedIn(b, calls, from, to')
  {
    if calls == [] {
    } else {
      ChronologicalPrefix(calls, b.windowStart);
      SpanWithin(b, calls[..|calls| - 1], from, to, to');
    }
  }

  /** The window is not a rolling one: for every limit there is a run that accepts twice the limit
      within two seconds, once just before the window lapses and once just after. */
  lemma RollingLimitFails(admin: Address, consumer: Address, limit: int, now: nat)
    requires limit > 0
    ensures var b := Initial(admin, limit, now);
            var last, next := now + CB_WINDOW_SECS - 1, now + CB_WINDOW_SECS;
            var calls := [Call(admin, now, Consumer(consumer, true)),
                          Call(consumer, last, Deposit(limit)), Call(consumer, next, Deposit(limit))];
            && Chronological(calls, b.windowStart)
            && Limited(b, calls, limit)
            && AcceptedIn(b, calls, last, last + 2) == 2 * limit
  {
    var b := Initial(admin, limit, now);
    var last, next := now + CB_WINDOW_SECS - 1, now + CB_WINDOW_SECS;
    var c1 := Call(admin, now, Consumer(consumer, true));
    var c2, c3 := Call(consumer, last, Deposit(limit)), Call(consumer, next, Deposit(limit));
    var calls := [c1, c2, c3];
    assert calls[..2] == [c1, c2] && calls[..2][..1] == [c1] && calls[..2][..1][..0] == [];
    var none: seq<Call> := [];
    assert Run(b, none) == b && Limited(b, none, limit) && AcceptedIn(b, none, last, last + 2) == 0;
    assert [c1][..0] == none && [c1, c2][..1] == [c1];
    assert Run(b, [c1]) == b.(consumers := {consumer});
    assert Limited(b, [c1], limit) && AcceptedIn(b, [c1], last, last + 2) == 0;
    assert Run(b, [c1, c2]) == b.(consumers := {consumer}, volume := limit);
    assert Limited(b, [c1, c2], limit) && AcceptedIn(b, [c1, c2], last, last + 2) == limit;
    assert Run(b, calls) == b.(consumers := {consumer}, volume := limit, windowStart := next);
  }

  // ---- the contract ----

  class Contract {
    var admin: Address
    var paused: bool
    var pausers: set<Address>
    var consumers: set<Address>
    var cbLimit: int
    var cbVolume: int
    var cbWindowStart: nat

    constructor (admin: Address, cbLimit: int, now: nat)
      ensures State() == Initial(admin, cbLimit, now)
    {
      this.admin, this.cbLimit := admin, cbLimit;
      paused, pausers, consumers, cbVolume, cbWindowStart := false, {}, {}, 0, now;
    }

    function State(): Breaker
      reads this
    {
      Breaker(admin, paused, pausers, consumers, cbLimit, cbVolume, cbWindowStart)
    }

    method Check(auth: Address, caller: Address, amount: int, now: nat) returns (r: Result<()>)
      modifies this
      ensures match CheckDeposit(old(State()), auth, caller, amount, now)
              case Ok(b) => r == Ok(()) && State() == b
              case Err(e) => r == Err(e) && State() == old(State())
    {
      if auth != caller {
        return Err(Unauthorized);
      }
      :- Need(caller in consumers, NotConsumer);
      :- Need(!paused, Paused);
      :- Need(amount > 0, ZeroAmount);
      if cbLimit == 0 {
        return Ok(());
      }
      :- Need(now >= cbWindowStart, ArithmeticOverflow);
      var volume, start := cbVolume, cbWindowStart;
      if now - cbWindowStart >= CB_WINDOW_SECS {
        volume, start := 0, now;
      }
      :- Need(volume + amount <= cbLimit, CircuitBreakerTripped);
      cbVolume := volume + amount;
      cbWindowStart := start;
      r := Ok(());
    }

    method SetCbLimit(auth: Address, newLimit: int) returns (r: Result<()>)
      modifies this
      ensures match SetLimit(old(State()), auth, newLimit)
              case Ok(b) => r == Ok(()) && State() == b
              case Err(e) => r == Err(e) && State() == old(State())
    {
      if auth != admin {
        return Err(Unauthorized);
      }
      cbLimit := newLimit;
      r := Ok(());
    }

    method SetPause(auth: Address, value: bool) returns (r: Result<()>)
      modifies this
      ensures match SetPaused(old(State()), auth, value)
              case Ok(b) => r == Ok(()) && State() == b
              case Err(e) => r == Err(e) && State() == old(State())
    {
      if value {
        if auth != admin && auth !in pausers {
          return Err(NotPauser);
        }
      } else {
        if auth != admin {
          return Err(Unauthorized);
        }
      }
      paused := value;
      r := Ok(());
    }

    method RegisterConsumer(auth: Address, consumer: Address, member: bool) returns (r: Result<()>)
      modifies this
      ensures match SetConsumer(old(State()), auth, consumer, member)
              case Ok(b) => r == Ok(()) && State() == b
              case Err(e) => r == Err(e) && State() == old(State())
    {
      if auth != admin {
        return Err(Unauthorized);
      }
      :- Need(!member || consumer !in consumers, AlreadyConsumer);
      consumers := if member then consumers + {consumer} else consumers - {consumer};
      r := Ok(());
    }

    method RegisterPauser(auth: Address, pauser: Address, member: bool) returns (r: Result<()>)
      modifies this
      ensures match SetPauser(old(State()), auth, pauser, member)
              case Ok(b) => r == Ok(()) && State() == b
              case Err(e) => r == Err(e) && State() == old(State())
    {
      if auth != admin {
        return Err(Unauthorized);
      }
      :- Need(!member || pauser !in pausers, AlreadyPauser);
      pausers := if member then pausers + {pauser} else pausers - {pauser};
      r := Ok(());
    }
  }
}
