/** Messages of the priority bus.  A node is named by its place in the chain: the arbiter
    is -1, the devices are 0, 1, ... away from it. */
module Signals {
  const ARBITER: int := -1

  datatype Signal = BR | BG | NPR | NPG | SACK | BBSY

  /** `from` is the neighbour that wrote the message last. */
  datatype Msg = Msg(from: int, sig: Signal, asserted: bool)

  datatype Direction = Left | Right | Nowhere

  /** A message written to one of the two neighbours. */
  datatype Sent = Sent(to: Direction, msg: Msg)
}
