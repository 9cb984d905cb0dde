/** The laws of histories, for the registry itself. */
module RegistrySafety {
  import opened RegistryKeeps
  import opened RegistryHistory
  import opened RegistryEvents
  import opened ControlRegistry

  /** Whatever calls were made on a registry, its tables satisfy every invariant. */
  lemma TablesAreGood(r: Registry)
    requires r.Valid()
    ensures Good(r.State()) && TokensApart(r.State())
  {
    ReachableGood(r.log);
    ReachableTokensApart(r.log);
  }
}
