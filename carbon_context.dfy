/**
 * The thread-local tenant binding the registry reader brackets its work
 * with.  Starting a tenant flow saves the current binding; ending it restores
 * the saved one.  `depth` counts the flows started and not yet ended, and
 * `registryReads` records, for every registry handed out, the depth and the
 * binding it was handed out under.
 */
module CarbonContext {

  datatype TenantBinding = TenantBinding(tenantId: int, tenantDomain: string)

  class PrivilegedCarbonContext {
    var tenantId: int
    var tenantDomain: string
    var enclosing: seq<TenantBinding>
    ghost var depth: nat
    ghost var registryReads: seq<(nat, TenantBinding)>

    ghost predicate Valid()
      reads this
    {
      depth == |enclosing|
    }

    function Binding(): TenantBinding
      reads this
    {
      TenantBinding(tenantId, tenantDomain)
    }

    constructor (tenantId: int, tenantDomain: string)
      ensures Valid() && depth == 0
      ensures Binding() == TenantBinding(tenantId, tenantDomain)
    {
      this.tenantId := tenantId;
      this.tenantDomain := tenantDomain;
      enclosing := [];
      depth := 0;
      registryReads := [];
    }

    method StartTenantFlow()
      requires Valid()
      modifies this
      ensures Valid() && depth == old(depth) + 1
      ensures enclosing == old(enclosing) + [old(Binding())]
      ensures Binding() == old(Binding())
      ensures registryReads == old(registryReads)
    {
      enclosing := enclosing + [Binding()];
      depth := depth + 1;
    }

    method EndTenantFlow()
      requires Valid() && depth > 0
      modifies this
      ensures Valid() && depth == old(depth) - 1
      ensures enclosing == old(enclosing)[..|old(enclosing)| - 1]
      ensures Binding() == old(enclosing)[|old(enclosing)| - 1]
      ensures registryReads == old(registryReads)
    {
      var saved := enclosing[|enclosing| - 1];
      tenantId, tenantDomain := saved.tenantId, saved.tenantDomain;
      enclosing := enclosing[..|enclosing| - 1];
      depth := depth - 1;
    }

    /** `getRegistry`: the registry of the tenant bound to the current flow. */
    method GetRegistry<R>(registryOf: int -> R) returns (registry: R)
      modifies this`registryReads
      ensures registry == registryOf(tenantId)
      ensures registryReads == old(registryReads) + [(depth, Binding())]
    {
      registry := registryOf(tenantId);
      registryReads := registryReads + [(depth, Binding())];
    }

    method SetTenantId(id: int)
      modifies this`tenantId
      ensures tenantId == id
    {
      tenantId := id;
    }

    method SetTenantDomain(domain: string)
      modifies this`tenantDomain
      ensures tenantDomain == domain
    {
      tenantDomain := domain;
    }
  }
}
