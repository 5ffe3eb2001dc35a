/**
 * The contract's entire state: one map from owner address to that owner's
 * capsule, under the storage namespace "capsules". There are no counters,
 * no history and no secondary index.
 */
module State {
  import opened CosmWasmStd

  /** A stored time capsule: who stored it, the text, and the second from which it may be read. */
  datatype Capsule = Capsule(owner: Addr, message: string, unlock_time: u64)

  const CAPSULES_NAMESPACE: string := "capsules"

  /** The `CAPSULES` map: at most one capsule per address, since an address is a key. */
  type Capsules = map<Addr, Capsule>

  /** Every capsule is filed under the address of its owner. */
  predicate OwnersMatchKeys(capsules: Capsules)
  {
    forall a :: a in capsules ==> capsules[a].owner == a
  }
}
