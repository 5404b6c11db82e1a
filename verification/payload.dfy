/**
 * The collaborator objects the scorer is handed by the simulation, reduced to
 * the attributes the scorer reads. How a host decides whether it is an exposed
 * endpoint, or how a vulnerability computes its RoA, is not modelled: those
 * answers are plain fields here.
 */
module Payload {

  /** A simulation time stamp, as passed by the simulation engine. */
  type Time = real

  /** The identifier a host carries (`host_id`). */
  type HostId = int

  /**
   * A vulnerability. The scores are opaque numbers: the scorer only stores
   * them, it never computes with them (apart from the float average left out
   * of this model).
   */
  datatype Vuln = Vuln(
    roa: real,               // current return on attack, `roa()`
    initialRoa: real,        // return on attack in the initial network, `initial_roa()`
    impact: real,
    complexity: real,
    hasOsDependency: bool,
    hasDependentVulns: bool)

  /** A host: `exposed` is the answer of `is_exposed_endpoint()`. */
  datatype Host = Host(
    hostId: HostId,
    exposed: bool,
    osType: string,
    osVersion: string,
    vulns: seq<Vuln>)        // `get_all_vulns()`

  /** An MTD strategy is known to the scorer only by its display name, `str(strategy)`. */
  datatype MtdStrategy = MtdStrategy(name: string)

  /** The network: its hosts in the order `get_hosts()` iterates them. */
  datatype Network = Network(hosts: seq<Host>)
}
