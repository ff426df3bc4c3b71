/** The state of one market: its surroundings and the storage of every contract. */
module World {
  import opened Base
  import opened Network
  import opened Sep41
  import OracleAdapter
  import SYWrapper
  import PTToken
  import YTToken

  /** Deployment facts fixed once the topology check of `initialize` has passed. */
  datatype Config = Config(
    sy: Address,
    pt: Address,
    yt: Address,
    pm: Address,
    escrow: Address,
    maturity: nat)
  {
    function PtWiring(): Wiring {
      Wiring(pt, pm, escrow)
    }

    function YtWiring(): Wiring {
      Wiring(yt, pm, escrow)
    }

    function Contracts(): set<Address> {
      {sy, pt, yt, pm, escrow}
    }

    predicate Valid() {
      sy != pm && sy != escrow && pm != escrow
    }
  }

  datatype Manager = Manager(admin: Address, paused: bool)

  datatype World = World(
    net: Net,
    oracle: OracleAdapter.Oracle,
    sy: SYWrapper.Sy,
    pt: PTToken.Pt,
    yt: YTToken.Yt,
    manager: Manager)
}
