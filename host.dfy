/**
 * The parts of a simulated host that the scenario builder touches: the
 * address it receives at creation, the group it belongs to, its device-class
 * (operating system) label, the location its movement model places it at,
 * and whether it carries the infection.
 */
module Hosts {

  /** A position in the simulated world; produced by the movement model. */
  datatype Coord = Coord(x: real, y: real)

  /**
   * `group` is the 1-based number of the host group that created the host and
   * `groupId` that group's identifier setting; `address` is the host's index
   * in creation order.
   */
  datatype Host = Host(
    address: nat,
    group: nat,
    groupId: string,
    os: string,
    location: Coord,
    infected: bool)
}
