/** What the contracts see of the chain around them: the ledger clock, the underlying Stellar
    Asset Contract and the Permissioning registry. */
module Network {
  import opened Base

  /** `allowed` and `eligible` are the answers of `is_allowed` and `is_allowed_for_asset`. */
  datatype Net = Net(
    now: nat,
    sequence: nat,
    authorized: set<Address>,
    admin: Address,
    sac: Balances,
    allowed: set<Address>,
    eligible: set<(Address, Address)>)

  function SacAuthorized(net: Net, a: Address): Check {
    Need(a in net.authorized, NotAuthorizedOnSac)
  }

  function Permitted(net: Net, a: Address): Check {
    Need(a in net.allowed, PermissionDenied)
  }

  /** The account-level gate and, within it, the gate of one PT or YT instrument. */
  function PermittedFor(net: Net, a: Address, asset: Address): Check {
    Need(a in net.allowed && (a, asset) in net.eligible, PermissionDenied)
  }

  /** Transfer of the underlying asset: both sides must be authorized by the issuer. */
  function SacTransfer(net: Net, from: Address, to: Address, amount: int): Result<Net> {
    if amount < 0 then Err(AssetTransferFailed) else
    :- Need(from in net.authorized && to in net.authorized, AssetTransferFailed);
    :- Need(At(net.sac, from) >= amount, AssetTransferFailed);
    Ok(net.(sac := Moved(net.sac, from, to, amount)))
  }

  class Chain {
    var now: nat
    var sequence: nat
    var authorized: set<Address>
    var admin: Address
    var sac: Balances
    var allowed: set<Address>
    var eligible: set<(Address, Address)>

    constructor (net: Net)
      ensures State() == net
    {
      now, sequence, authorized, admin := net.now, net.sequence, net.authorized, net.admin;
      sac, allowed, eligible := net.sac, net.allowed, net.eligible;
    }

    function State(): Net
      reads this
    {
      Net(now, sequence, authorized, admin, sac, allowed, eligible)
    }

    /** The host's rollback of a transaction that panicked; also a change of the surroundings. */
    method Restore(net: Net)
      modifies this
      ensures State() == net
    {
      now, sequence, authorized, admin := net.now, net.sequence, net.authorized, net.admin;
      sac, allowed, eligible := net.sac, net.allowed, net.eligible;
    }

    method TransferUnderlying(from: Address, to: Address, amount: int) returns (r: Result<()>)
      modifies this
      ensures match SacTransfer(old(State()), from, to, amount)
              case Ok(net) => r == Ok(()) && State() == net
              case Err(e) => r == Err(e) && State() == old(State())
    {
      if amount < 0 {
        return Err(AssetTransferFailed);
      }
      :- Need(from in authorized && to in authorized, AssetTransferFailed);
      :- Need(At(sac, from) >= amount, AssetTransferFailed);
      sac := sac[from := At(sac, from) - amount];
      sac := sac[to := At(sac, to) + amount];
      r := Ok(());
    }
  }
}
