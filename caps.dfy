/**
 * Capability references (`struct capref`): a CNode and a slot within it.
 * The kernel objects they name are outside the model; only the addressing
 * the modelled code manipulates is kept.
 */
module Caps {
  /** A CNode reference (`struct cnoderef`): root CNode, CNode address and level. */
  datatype CNodeRef = CNodeRef(croot: nat, cnode: nat, level: nat)

  /** A capability slot address (`struct capref`). */
  datatype CapRef = CapRef(cnode: CNodeRef, slot: nat)

  /** What `cap_direct_identify` reports about a capability, as read by `get_address` and `get_size`. */
  datatype Capability = Capability(address: nat, size: nat)
}
