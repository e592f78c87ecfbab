/** What the admission guard of `Lease.save` and the cascade deletes guarantee
    about the lease table (tenants/models.py). */
module LeaseRules {
  import opened TenantModels

  /** Writing `row` under `id` keeps at most one unpaid lease per tenant when
      the row is paid, when it belongs to a tenant whose stored leases are all
      paid, or when it keeps the owner and payment flag of the row it
      replaces. */
  lemma WriteKeepsAtMostOneUnpaid(leases: map<LeaseId, Lease>, id: LeaseId, row: Lease)
    requires AtMostOneUnpaid(leases)
    requires || row.isPayed
             || (forall k | k in leases && leases[k].tenant == row.tenant :: leases[k].isPayed)
             || (id in leases && leases[id].tenant == row.tenant && leases[id].isPayed == row.isPayed)
    ensures AtMostOneUnpaid(leases[id := row])
  {
    var after := leases[id := row];
    forall i, j | i in after && j in after &&
                  after[i].tenant == after[j].tenant && !after[i].isPayed && !after[j].isPayed
      ensures i == j
    {
      if i != id && j != id {
        assert after[i] == leases[i] && after[j] == leases[j];
      } else if id in leases && leases[id].tenant == row.tenant && leases[id].isPayed == row.isPayed {
        assert leases[i].tenant == leases[j].tenant && !leases[i].isPayed && !leases[j].isPayed;
      }
    }
  }

  /** A save keeps referential integrity: the row it writes names a stored
      tenant (the guard read it, or the stored row already named it) and a
      stored property (the database checks it). */
  lemma SaveKeepsConsistent(properties: map<PropertyId, Property>,
                            tenants: map<TenantId, Tenant>,
                            leases: map<LeaseId, Lease>, req: SaveRequest)
    requires Consistent(properties, tenants, leases)
    ensures Consistent(properties, tenants, SaveLease(properties, tenants, leases, req).1)
  {
  }

  /** A save the guard covers leaves every tenant with at most one unpaid
      lease; a refused or skipped save leaves the table as it was. */
  lemma SavePreservesAtMostOneUnpaid(properties: map<PropertyId, Property>,
                                     tenants: map<TenantId, Tenant>,
                                     leases: map<LeaseId, Lease>, req: SaveRequest)
    requires AtMostOneUnpaid(leases)
    requires GuardCoversWrite(leases, req)
    ensures AtMostOneUnpaid(SaveLease(properties, tenants, leases, req).1)
  {
    var (res, after) := SaveLease(properties, tenants, leases, req);
    if res.Ok? && res.value.Written? {
      var id := res.value.id;
      var row := after[id];
      var c := req.candidate;
      if row.tenant != c.tenant {
        assert req.pk.Some? && req.pk.value in leases;
        assert row == UpdatedRow(leases[id], c, req.options.updateFields);
      }
      WriteKeepsAtMostOneUnpaid(leases, id, row);
    }
  }

  /** The converse: a save the guard does not cover and that succeeds always
      leaves the stored owner of the updated row with two unpaid leases, the
      row it turned unpaid and the one that already was. */
  lemma UncoveredSaveBreaksInvariant(properties: map<PropertyId, Property>,
                                     tenants: map<TenantId, Tenant>,
                                     leases: map<LeaseId, Lease>, req: SaveRequest)
    requires !GuardCoversWrite(leases, req)
    requires SaveLease(properties, tenants, leases, req).0.Ok?
    ensures !AtMostOneUnpaid(SaveLease(properties, tenants, leases, req).1)
  {
  }

  /** The everyday payment update: a lease whose tenant owes nothing, loaded
      and saved with `update_fields=['is_payed']` and either flag, is updated
      in place and the rule still holds. */
  lemma PaymentFlagUpdateKeepsInvariant(properties: map<PropertyId, Property>,
                                        tenants: map<TenantId, Tenant>,
                                        leases: map<LeaseId, Lease>,
                                        id: LeaseId, flag: bool, freshKey: LeaseId)
    requires AtMostOneUnpaid(leases)
    requires id in leases && leases[id].tenant in tenants && leases[id].property in properties
    requires !HasUnpaidLease(leases, leases[id].tenant)
    ensures
      var req := SaveRequest(Some(id), SaveOptions(false, false, Some({IsPayedField})),
                             leases[id].(isPayed := flag), freshKey);
      && GuardCoversWrite(leases, req)
      && SaveLease(properties, tenants, leases, req)
         == (Ok(Written(id)), leases[id := leases[id].(isPayed := flag)])
      && AtMostOneUnpaid(SaveLease(properties, tenants, leases, req).1)
  {
  }

  /** With `update_fields` naming `is_payed` but not `tenant`, the guard checks
      the tenant held by the instance while the update keeps the stored one.
      Tenant 0 has a paid lease 1 and an unpaid lease 2; lease 1 is loaded, its
      tenant set to 1 (who owes nothing) and its flag to unpaid, then saved with
      `update_fields=['is_payed']`: the save succeeds and tenant 0 ends up with
      two unpaid leases. */
  lemma UpdateFieldsCanBreakInvariant(home: Property, first: Tenant, second: Tenant, day: Date)
    ensures
      var properties := map[0 := home];
      var tenants := map[0 := first.(property := 0), 1 := second.(property := 0)];
      var paid := Lease(0, 0, 0, day, day, true, None, 0);
      var leases := map[1 := paid, 2 := paid.(isPayed := false)];
      var req := SaveRequest(Some(1), SaveOptions(false, false, Some({IsPayedField})),
                             paid.(tenant := 1, isPayed := false), 3);
      && Consistent(properties, tenants, leases)
      && AtMostOneUnpaid(leases)
      && !GuardCoversWrite(leases, req)
      && SaveLease(properties, tenants, leases, req).0 == Ok(Written(1))
      && !AtMostOneUnpaid(SaveLease(properties, tenants, leases, req).1)
  {
    var properties := map[0 := home];
    var tenants := map[0 := first.(property := 0), 1 := second.(property := 0)];
    var paid := Lease(0, 0, 0, day, day, true, None, 0);
    var leases := map[1 := paid, 2 := paid.(isPayed := false)];
    var req := SaveRequest(Some(1), SaveOptions(false, false, Some({IsPayedField})),
                           paid.(tenant := 1, isPayed := false), 3);
    assert !HasUnpaidLease(leases, 1);
    var after := SaveLease(properties, tenants, leases, req).1;
    assert after == leases[1 := paid.(isPayed := false)];
    assert after[1].tenant == after[2].tenant && !after[1].isPayed && !after[2].isPayed;
  }

  /** The pairwise invariant says exactly that each tenant's set of unpaid
      leases has at most one element. */
  lemma {:induction false} AtMostOneUnpaidIffSingleton(leases: map<LeaseId, Lease>)
    ensures AtMostOneUnpaid(leases) <==> forall t :: |UnpaidLeasesOf(leases, t)| <= 1
  {
    if AtMostOneUnpaid(leases) {
      forall t ensures |UnpaidLeasesOf(leases, t)| <= 1 {
        var s := UnpaidLeasesOf(leases, t);
        if s != {} {
          var x :| x in s;
          assert s == {x};
        }
      }
    } else {
      var i, j :| i in leases && j in leases && leases[i].tenant == leases[j].tenant
                  && !leases[i].isPayed && !leases[j].isPayed && i != j;
      var s := UnpaidLeasesOf(leases, leases[i].tenant);
      assert {i, j} <= s;
      assert |{i, j}| == 2;
      SubsetCardinality({i, j}, s);
    }
  }

  /** A subset is no larger than its superset. */
  lemma SubsetCardinality(a: set<LeaseId>, b: set<LeaseId>)
    requires a <= b
    ensures |a| <= |b|
  {
    assert b == a + (b - a);
  }

  /** While the tenant has an unpaid stored lease, every save for that tenant
      is refused with the same error and writes nothing, whatever the
      candidate's property, payment flag, key or keyword arguments. */
  lemma GuardIgnoresCandidateFields(properties: map<PropertyId, Property>,
                                    tenants: map<TenantId, Tenant>,
                                    leases: map<LeaseId, Lease>,
                                    req: SaveRequest, other: SaveRequest)
    requires Guard(tenants, leases, req.candidate).Some?
    requires Guard(tenants, leases, req.candidate).value.LeaseBlocked?
    requires other.candidate.tenant == req.candidate.tenant
    ensures SaveLease(properties, tenants, leases, other) == SaveLease(properties, tenants, leases, req)
    ensures SaveLease(properties, tenants, leases, req)
         == (Err(LeaseBlocked(BlockedMessage(tenants[req.candidate.tenant].name))), leases)
  {
  }

  /** The guard also runs when a stored row is saved again: while a lease is
      stored unpaid, no save that keeps its tenant goes through, so `save`
      cannot mark it paid for that tenant. */
  lemma UnpaidLeaseCannotBeMarkedPaid(properties: map<PropertyId, Property>,
                                      tenants: map<TenantId, Tenant>,
                                      leases: map<LeaseId, Lease>,
                                      id: LeaseId, req: SaveRequest)
    requires id in leases && !leases[id].isPayed
    requires req.candidate.tenant == leases[id].tenant
    ensures SaveLease(properties, tenants, leases, req).0.Err?
    ensures SaveLease(properties, tenants, leases, req).1 == leases
    ensures leases[id].tenant in tenants ==>
      SaveLease(properties, tenants, leases, req).0
        == Err(LeaseBlocked(BlockedMessage(tenants[leases[id].tenant].name)))
  {
    assert HasUnpaidLease(leases, req.candidate.tenant) by {
      assert leases[id].tenant == req.candidate.tenant && !leases[id].isPayed;
    }
  }

  /** The guard checks the tenant the instance names, not the stored owner: an
      unpaid lease re-saved under its own key with another tenant, one who owes
      nothing, and the paid flag is stored paid, and its former tenant is no
      longer blocked. */
  lemma ReassigningUnpaidLeaseMarksItPaid(properties: map<PropertyId, Property>,
                                          tenants: map<TenantId, Tenant>,
                                          leases: map<LeaseId, Lease>,
                                          id: LeaseId, newTenant: TenantId, freshKey: LeaseId)
    requires AtMostOneUnpaid(leases)
    requires id in leases && !leases[id].isPayed && leases[id].property in properties
    requires newTenant in tenants && !HasUnpaidLease(leases, newTenant)
    ensures
      var req := SaveRequest(Some(id), PlainSave, leases[id].(tenant := newTenant, isPayed := true), freshKey);
      && SaveLease(properties, tenants, leases, req).0 == Ok(Written(id))
      && SaveLease(properties, tenants, leases, req).1[id].isPayed
      && !HasUnpaidLease(SaveLease(properties, tenants, leases, req).1, leases[id].tenant)
  {
  }

  /** A tenant with no stored leases, or with paid ones only, can save a new
      lease; once that lease (unpaid by default) is stored, every further save
      for the tenant is refused. */
  lemma TenantWithoutUnpaidLeaseCanSave(properties: map<PropertyId, Property>,
                                        tenants: map<TenantId, Tenant>,
                                        leases: map<LeaseId, Lease>,
                                        candidate: Lease, freshKey: LeaseId)
    requires candidate.tenant in tenants && candidate.property in properties
    requires forall k | k in LeasesOf(leases, candidate.tenant) :: leases[k].isPayed
    ensures SaveLease(properties, tenants, leases, SaveRequest(None, PlainSave, candidate, freshKey))
         == (Ok(Written(freshKey)), leases[freshKey := candidate])
    ensures !candidate.isPayed ==>
      forall next: SaveRequest | next.candidate.tenant == candidate.tenant ::
        SaveLease(properties, tenants, leases[freshKey := candidate], next)
          == (Err(LeaseBlocked(BlockedMessage(tenants[candidate.tenant].name))), leases[freshKey := candidate])
  {
    forall k | k in leases && leases[k].tenant == candidate.tenant ensures leases[k].isPayed {
      assert k in LeasesOf(leases, candidate.tenant);
    }
    if !candidate.isPayed {
      forall next: SaveRequest | next.candidate.tenant == candidate.tenant
        ensures SaveLease(properties, tenants, leases[freshKey := candidate], next)
             == (Err(LeaseBlocked(BlockedMessage(tenants[candidate.tenant].name))), leases[freshKey := candidate])
      {
        UnpaidLeaseCannotBeMarkedPaid(properties, tenants, leases[freshKey := candidate], freshKey, next);
      }
    }
  }

  /** Storing a row under a new key adds exactly one lease to its tenant and
      leaves every other tenant's leases as they were. */
  lemma InsertAddsOneLease(leases: map<LeaseId, Lease>, id: LeaseId, candidate: Lease)
    requires id !in leases
    ensures LeasesOf(leases[id := candidate], candidate.tenant) == LeasesOf(leases, candidate.tenant) + {id}
    ensures |LeasesOf(leases[id := candidate], candidate.tenant)| == |LeasesOf(leases, candidate.tenant)| + 1
    ensures forall u | u != candidate.tenant ::
      LeasesOf(leases[id := candidate], u) == LeasesOf(leases, u)
  {
  }

  /** In any table, a save for a tenant whose only lease is unpaid is refused,
      and the table it leaves still holds exactly that one lease of the tenant. */
  lemma SecondLeaseWhileFirstUnpaid(properties: map<PropertyId, Property>,
                                    tenants: map<TenantId, Tenant>,
                                    leases: map<LeaseId, Lease>,
                                    firstId: LeaseId, req: SaveRequest)
    requires firstId in leases && !leases[firstId].isPayed && leases[firstId].tenant in tenants
    requires LeasesOf(leases, leases[firstId].tenant) == {firstId}
    requires req.candidate.tenant == leases[firstId].tenant
    ensures SaveLease(properties, tenants, leases, req).0
         == Err(LeaseBlocked(BlockedMessage(tenants[leases[firstId].tenant].name)))
    ensures LeasesOf(SaveLease(properties, tenants, leases, req).1, leases[firstId].tenant) == {firstId}
  {
    UnpaidLeaseCannotBeMarkedPaid(properties, tenants, leases, firstId, req);
  }

  /** In any table, a new lease for a tenant whose only lease is paid is
      stored, and the tenant then has two leases. */
  lemma SecondLeaseAfterFirstPaid(properties: map<PropertyId, Property>,
                                  tenants: map<TenantId, Tenant>,
                                  leases: map<LeaseId, Lease>,
                                  firstId: LeaseId, second: Lease, freshKey: LeaseId)
    requires firstId in leases && leases[firstId].isPayed
    requires LeasesOf(leases, leases[firstId].tenant) == {firstId}
    requires second.tenant == leases[firstId].tenant
    requires second.tenant in tenants && second.property in properties
    requires freshKey !in leases
    ensures SaveLease(properties, tenants, leases, SaveRequest(None, PlainSave, second, freshKey))
         == (Ok(Written(freshKey)), leases[freshKey := second])
    ensures |LeasesOf(leases[freshKey := second], second.tenant)| == 2
  {
    TenantWithoutUnpaidLeaseCanSave(properties, tenants, leases, second, freshKey);
    InsertAddsOneLease(leases, freshKey, second);
    assert freshKey != firstId;
  }

  /** The lease table after a sequence of `save` calls run one after the other. */
  ghost function ApplySaves(properties: map<PropertyId, Property>, tenants: map<TenantId, Tenant>,
                            leases: map<LeaseId, Lease>, requests: seq<SaveRequest>)
    : map<LeaseId, Lease>
    decreases |requests|
  {
    if requests == [] then leases
    else ApplySaves(properties, tenants, SaveLease(properties, tenants, leases, requests[0]).1, requests[1..])
  }

  /** Once a tenant has an unpaid lease, no sequence of saves whose instances
      all name that tenant changes the table. A save naming another tenant can
      still take over the unpaid row (ReassigningUnpaidLeaseMarksItPaid). */
  lemma {:induction false} BlockedTenantStaysBlocked(properties: map<PropertyId, Property>,
                                                     tenants: map<TenantId, Tenant>,
                                                     leases: map<LeaseId, Lease>,
                                                     t: TenantId, requests: seq<SaveRequest>)
    requires HasUnpaidLease(leases, t)
    requires forall k | 0 <= k < |requests| :: requests[k].candidate.tenant == t
    ensures ApplySaves(properties, tenants, leases, requests) == leases
    decreases |requests|
  {
    if requests != [] {
      assert SaveLease(properties, tenants, leases, requests[0]).1 == leases;
      BlockedTenantStaysBlocked(properties, tenants, leases, t, requests[1..]);
    }
  }

  /** Every save of the sequence that succeeds is covered by the guard, each
      judged against the table left by the saves before it. */
  ghost predicate SavesCovered(properties: map<PropertyId, Property>, tenants: map<TenantId, Tenant>,
                               leases: map<LeaseId, Lease>, requests: seq<SaveRequest>)
    decreases |requests|
  {
    requests == [] ||
    (&& (SaveLease(properties, tenants, leases, requests[0]).0.Ok? ==> GuardCoversWrite(leases, requests[0]))
     && SavesCovered(properties, tenants, SaveLease(properties, tenants, leases, requests[0]).1, requests[1..]))
  }

  /** Every sequence of saves whose successful ones are covered by the guard,
      admitted or refused, keeps at most one unpaid lease per tenant. */
  lemma {:induction false} SavesPreserveAtMostOneUnpaid(properties: map<PropertyId, Property>,
                                                        tenants: map<TenantId, Tenant>,
                                                        leases: map<LeaseId, Lease>,
                                                        requests: seq<SaveRequest>)
    requires AtMostOneUnpaid(leases)
    requires SavesCovered(properties, tenants, leases, requests)
    ensures AtMostOneUnpaid(ApplySaves(properties, tenants, leases, requests))
    decreases |requests|
  {
    if requests != [] {
      if SaveLease(properties, tenants, leases, requests[0]).0.Ok? {
        SavePreservesAtMostOneUnpaid(properties, tenants, leases, requests[0]);
      }
      SavesPreserveAtMostOneUnpaid(properties, tenants, SaveLease(properties, tenants, leases, requests[0]).1,
                                   requests[1..]);
    }
  }

  /** Deleting a tenant keeps the tables consistent and the invariant intact. */
  lemma DeleteTenantKeepsInvariants(properties: map<PropertyId, Property>,
                                    tenants: map<TenantId, Tenant>,
                                    leases: map<LeaseId, Lease>, t: TenantId)
    requires Consistent(properties, tenants, leases)
    ensures Consistent(properties, tenants - {t}, LeasesWithoutTenant(leases, t))
    ensures AtMostOneUnpaid(leases) ==> AtMostOneUnpaid(LeasesWithoutTenant(leases, t))
  {
  }

  /** Deleting a property removes every lease of every tenant who lived there,
      leaves the other tenants' leases off that property untouched, and keeps
      the tables consistent and the invariant intact. */
  lemma DeletePropertyKeepsInvariants(properties: map<PropertyId, Property>,
                                      tenants: map<TenantId, Tenant>,
                                      leases: map<LeaseId, Lease>, p: PropertyId)
    requires Consistent(properties, tenants, leases)
    ensures forall t | LivesAt(tenants, t, p) :: LeasesOf(LeasesWithoutProperty(tenants, leases, p), t) == {}
    ensures forall t | t in tenants && !LivesAt(tenants, t, p) ::
      LeasesOf(LeasesWithoutProperty(tenants, leases, p), t)
        == LeasesOf(leases, t) - (set id | id in leases && leases[id].property == p)
    ensures Consistent(properties - {p}, TenantsWithoutProperty(tenants, p),
                       LeasesWithoutProperty(tenants, leases, p))
    ensures AtMostOneUnpaid(leases) ==> AtMostOneUnpaid(LeasesWithoutProperty(tenants, leases, p))
  {
  }
}
