/** The admin-fed reference price. It never falls and its timestamp always advances. */
module OracleAdapter {
  import opened Base

  /** No price at or below 0 is ever stored. */
  type Price = p: int | p > 0 witness 1

  datatype Reading = Reading(price: Price, timestamp: nat)

  /** `reading` is absent until the first accepted submission. */
  datatype Oracle = Oracle(admin: Address, reading: Option<Reading>)

  function PriceOr0(o: Oracle): nat {
    if o.reading.Some? then o.reading.value.price else 0
  }

  function TimestampOr0(o: Oracle): nat {
    if o.reading.Some? then o.reading.value.timestamp else 0
  }

  function SetReferenceValue(o: Oracle, auth: Address, caller: Address, value: int, timestamp: nat): Result<Oracle> {
    if auth != caller then Err(Unauthorized) else
    :- Need(caller == o.admin, Unauthorized);
    :- Need(value > 0, InvalidValue);
    :- Need(value >= PriceOr0(o), ValueDecreased);
    :- Need(timestamp > TimestampOr0(o), TimestampTooOld);
    Ok(o.(reading := Some(Reading(value, timestamp))))
  }

  /** A reading stamped ahead of the ledger clock is not fresh either. */
  predicate Fresh(o: Oracle, now: nat, maxStale: nat) {
    TimestampOr0(o) <= now && now - TimestampOr0(o) <= maxStale
  }

  /** Fresh is a reading no older than the bound and not ahead of the clock; without one the clock itself is
      the age. */
  lemma FreshIff(o: Oracle, now: nat, maxStale: nat)
    ensures Fresh(o, now, maxStale) <==>
            match o.reading
            case Some(r) => r.timestamp <= now <= r.timestamp + maxStale
            case None => now <= maxStale
  {
  }

  function ReferenceValue(o: Oracle): Result<Price> {
    if o.reading.Some? then Ok(o.reading.value.price) else Err(NotInitialized)
  }

  class Adapter {
    var admin: Address
    var price: Option<Price>
    var timestamp: nat

    constructor (admin: Address)
      ensures Valid() && State() == Oracle(admin, None)
    {
      this.admin := admin;
      price := None;
      timestamp := 0;
    }

    ghost predicate Valid()
      reads this
    {
      (price == None ==> timestamp == 0)
    }

    function State(): Oracle
      reads this
    {
      Oracle(admin, if price.Some? then Some(Reading(price.value, timestamp)) else None)
    }

    method Restore(o: Oracle)
      modifies this
      ensures Valid() && State() == o
    {
      admin := o.admin;
      match o.reading {
        case Some(reading) => price, timestamp := Some(reading.price), reading.timestamp;
        case None => price, timestamp := None, 0;
      }
    }

    method SetReference(auth: Address, caller: Address, value: int, newTimestamp: nat) returns (r: Result<()>)
      requires Valid()
      modifies this
      ensures Valid()
      ensures match SetReferenceValue(old(State()), auth, caller, value, newTimestamp)
              case Ok(o) => r == Ok(()) && State() == o
              case Err(e) => r == Err(e) && State() == old(State())
    {
      if auth != caller {
        return Err(Unauthorized);
      }
      :- Need(caller == admin, Unauthorized);
      :- Need(value > 0, InvalidValue);
      var current := if price.Some? then price.value else 0;
      :- Need(value >= current, ValueDecreased);
      :- Need(newTimestamp > timestamp, TimestampTooOld);
      price := Some(value);
      timestamp := newTimestamp;
      r := Ok(());
    }

    method IsFresh(now: nat, maxStale: nat) returns (ok: bool)
      requires Valid()
      ensures ok == Fresh(State(), now, maxStale)
    {
      if now < timestamp {
        return false;
      }
      ok := now - timestamp <= maxStale;
    }

    method GetReferenceValue() returns (r: Result<Price>)
      ensures r == ReferenceValue(State())
    {
      r := if price.Some? then Ok(price.value) else Err(NotInitialized);
    }
  }
}
