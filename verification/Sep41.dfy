/** What the two SEP-0041 tokens of a market share: allowances, wiring and the transfer gate. */
module Sep41 {
  import opened Base
  import opened Network

  datatype Allowance = Allowance(amount: int, expiration: nat)

  type Allowances = map<(Address, Address), Allowance>

  /** Addresses fixed when the market is wired: the token itself, its minter and its escrow. */
  datatype Wiring = Wiring(self: Address, minter: Address, escrow: Address)

  function AllowanceOf(m: Allowances, owner: Address, spender: Address): Allowance {
    if (owner, spender) in m then m[(owner, spender)] else Allowance(0, 0)
  }

  /** Both sides of a transfer pass both compliance layers. */
  function TransferGate(net: Net, asset: Address, from: Address, to: Address): Check {
    if SacAuthorized(net, from).Fail? then SacAuthorized(net, from)
    else if SacAuthorized(net, to).Fail? then SacAuthorized(net, to)
    else if PermittedFor(net, from, asset).Fail? then PermittedFor(net, from, asset)
    else PermittedFor(net, to, asset)
  }
}
