/** The persistent tables of tenants/models.py as one mutable object: the
    property, tenant and lease tables, and the counters that hand out fresh
    primary keys. `Save` is `Lease.save`; the `Delete` methods carry out the
    cascades declared on the foreign keys. */
module TenantLedger {
  import opened TenantModels
  import LeaseRules

  class Ledger {
    var properties: map<PropertyId, Property>
    var tenants: map<TenantId, Tenant>
    var leases: map<LeaseId, Lease>
    var nextPropertyId: nat
    var nextTenantId: nat
    var nextLeaseId: nat

    /** Referential integrity, and keys below the next fresh key of each
        table. The one-unpaid-lease rule is not part of it: a save with
        `update_fields` can break it (LeaseRules.UpdateFieldsCanBreakInvariant),
        so each method says when it keeps the rule. */
    ghost predicate Valid()
      reads this
    {
      && Consistent(properties, tenants, leases)
      && (forall id | id in properties :: id < nextPropertyId)
      && (forall id | id in tenants :: id < nextTenantId)
      && (forall id | id in leases :: id < nextLeaseId)
    }

    constructor ()
      ensures Valid()
      ensures properties == map[] && tenants == map[] && leases == map[]
    {
      properties, tenants, leases := map[], map[], map[];
      nextPropertyId, nextTenantId, nextLeaseId := 0, 0, 0;
    }

    /** Inserts a property under a fresh key. */
    method AddProperty(p: Property) returns (id: PropertyId)
      requires Valid()
      modifies this
      ensures Valid()
      ensures id !in old(properties) && properties == old(properties)[id := p]
      ensures tenants == old(tenants) && leases == old(leases)
    {
      id := nextPropertyId;
      properties := properties[id := p];
      nextPropertyId := nextPropertyId + 1;
    }

    /** Inserts a tenant under a fresh key; the database refuses a tenant whose
        property is not stored. */
    method AddTenant(t: Tenant) returns (r: Result<TenantId, SaveError>)
      requires Valid()
      modifies this
      ensures Valid()
      ensures r.Ok? <==> t.property in old(properties)
      ensures r.Err? ==> r.error == IntegrityError && tenants == old(tenants)
      ensures r.Ok? ==> r.value !in old(tenants) && tenants == old(tenants)[r.value := t]
      ensures properties == old(properties) && leases == old(leases)
    {
      if t.property !in properties {
        return Err(IntegrityError);
      }
      var id := nextTenantId;
      tenants := tenants[id := t];
      nextTenantId := nextTenantId + 1;
      r := Ok(id);
    }

    /** `Lease.save`: reads the instance's tenant and refuses the save while
        that tenant has any unpaid stored lease (re-saving a stored row
        included), then hands over to the framework's save with the keyword
        arguments. A save without a key inserts under the next fresh key.
        Nothing is written when the save fails. */
    method Save(pk: Option<LeaseId>, options: SaveOptions, lease: Lease)
      returns (r: Result<Saved, SaveError>)
      requires Valid()
      modifies this
      ensures Valid()
      ensures properties == old(properties) && tenants == old(tenants)
      ensures (r, leases) == SaveLease(old(properties), old(tenants), old(leases),
                                       SaveRequest(pk, options, lease, old(nextLeaseId)))
      ensures leases == LeaseRules.ApplySaves(old(properties), old(tenants), old(leases),
                                              [SaveRequest(pk, options, lease, old(nextLeaseId))])
      ensures r.Ok? && r.value.Written? && pk.None? ==> r.value.id !in old(leases)
      ensures AtMostOneUnpaid(old(leases)) &&
              GuardCoversWrite(old(leases), SaveRequest(pk, options, lease, old(nextLeaseId)))
              ==> AtMostOneUnpaid(leases)
      ensures r.Ok? && !GuardCoversWrite(old(leases), SaveRequest(pk, options, lease, old(nextLeaseId)))
              ==> !AtMostOneUnpaid(leases)
    {
      if lease.tenant !in tenants {
        return Err(TenantMissing);
      }
      if HasUnpaidLease(leases, lease.tenant) {
        return Err(LeaseBlocked(BlockedMessage(tenants[lease.tenant].name)));
      }
      var req := SaveRequest(pk, options, lease, nextLeaseId);
      LeaseRules.SaveKeepsConsistent(properties, tenants, leases, req);
      if AtMostOneUnpaid(leases) && GuardCoversWrite(leases, req) {
        LeaseRules.SavePreservesAtMostOneUnpaid(properties, tenants, leases, req);
      }
      if SaveLease(properties, tenants, leases, req).0.Ok? && !GuardCoversWrite(leases, req) {
        LeaseRules.UncoveredSaveBreaksInvariant(properties, tenants, leases, req);
      }
      var outcome := FrameworkSave(properties, leases, req);
      r, leases := outcome.0, outcome.1;
      if r.Ok? && r.value.Written? && r.value.id >= nextLeaseId {
        nextLeaseId := r.value.id + 1;
      }
    }

    /** Deletes tenant `t` and, by cascade, its leases. */
    method DeleteTenant(t: TenantId)
      requires Valid()
      modifies this
      ensures Valid()
      ensures properties == old(properties)
      ensures tenants == old(tenants) - {t}
      ensures leases == LeasesWithoutTenant(old(leases), t)
      ensures AtMostOneUnpaid(old(leases)) ==> AtMostOneUnpaid(leases)
    {
      LeaseRules.DeleteTenantKeepsInvariants(properties, tenants, leases, t);
      leases := LeasesWithoutTenant(leases, t);
      tenants := tenants - {t};
    }

    /** Deletes property `p` and, by cascade, the leases on it, the tenants
        living there, and those tenants' leases. */
    method DeleteProperty(p: PropertyId)
      requires Valid()
      modifies this
      ensures Valid()
      ensures properties == old(properties) - {p}
      ensures tenants == TenantsWithoutProperty(old(tenants), p)
      ensures leases == LeasesWithoutProperty(old(tenants), old(leases), p)
      ensures AtMostOneUnpaid(old(leases)) ==> AtMostOneUnpaid(leases)
    {
      LeaseRules.DeletePropertyKeepsInvariants(properties, tenants, leases, p);
      leases := LeasesWithoutProperty(tenants, leases, p);
      tenants := TenantsWithoutProperty(tenants, p);
      properties := properties - {p};
    }
  }

  /** A client of the ledger: a new lease is admitted, a second one for the same
      tenant is refused, re-saving the first as paid is refused too, and deleting
      the tenant's property removes the lease. */
  method AdmissionScenario(home: Property, start: Date, end: Date)
  {
    var ledger := new Ledger();
    var p := ledger.AddProperty(home);
    var added := ledger.AddTenant(Tenant("Ani", "ani@example.com", "0812", p, "secret", true, "3171"));
    var t := added.value;

    var first := NewLease(t, p, 0, start, end, None, 900);
    var saved := ledger.Save(None, PlainSave, first);
    assert saved.Ok? && saved.value.Written?;
    var id := saved.value.id;

    var second := ledger.Save(None, PlainSave, NewLease(t, p, 1, start, end, None, 1300));
    assert second == Err(LeaseBlocked(BlockedMessage("Ani")));

    var paid := ledger.Save(Some(id), SaveOptions(false, false, Some({IsPayedField})), first.(isPayed := true));
    assert paid == Err(LeaseBlocked(BlockedMessage("Ani")));
    assert ledger.leases == map[id := first];

    ledger.DeleteProperty(p);
    assert ledger.leases == map[];
  }
}
