/** Handles into the node pool. Only the NONE sentinel matters to a node's
    own record; allocation and generation checks belong to the pool. */
module Pool {

  datatype Handle = NONE | Handle(index: nat, generation: nat)
}
