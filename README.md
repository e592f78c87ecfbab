# Tenancy ledger: the lease admission guard

A model of the one piece of behaviour in the tenancy application's data model
(tenants/models.py). It covers the rule in `Lease.save` that a tenant may not
save a lease while any stored lease of theirs is unpaid. It also covers the
lease, tenant and property tables that this rule reads and writes, and the
cascade deletes declared on their foreign keys.

- `models.dfy`, module `TenantModels`: the `Property`, `Tenant` and `Lease`
  records, and the save path as pure functions. `Guard` is the check on lines
  77-79. `FrameworkSave` is the framework save called on line 81, with the
  keyword arguments `force_insert`, `force_update` and `update_fields`.
  `SaveLease` is the two in sequence. The module also holds the business rule
  (`AtMostOneUnpaid`), referential integrity (`Consistent`) and the tables left
  after each cascade delete.
- `lease_rules.dfy`, module `LeaseRules`: lemmas about the save path and the
  cascades. Some cover a whole sequence of saves (`ApplySaves`).
- `ledger.dfy`, module `TenantLedger`: class `Ledger`, which owns the three
  tables as `map` fields. `Save` is `Lease.save`, and its result and new lease
  table are exactly `SaveLease` of the old state. `DeleteTenant` and
  `DeleteProperty` carry out the cascades. `AddProperty` and `AddTenant` are
  the plain inserts the other operations need.

Behaviour kept from the code:

- The guard first reads the instance's tenant. If that tenant has no stored
  row, the save fails there (`TenantMissing`), before any query or write.
- The guard runs on every save, updates included. While a lease is stored
  unpaid, no save for the same tenant goes through, so `save` cannot mark that
  lease paid for that tenant. Once a tenant has an unpaid lease, no sequence
  of saves naming that tenant changes the table.
- The guard checks the tenant the instance names, not the stored row's owner.
  Re-saving an unpaid row under its key with another tenant, one who owes
  nothing, and with `is_payed` set stores it as paid and unblocks its former
  tenant. Without `is_payed` set the row moves to the new tenant still unpaid.
- The guard ignores the instance's own `is_payed`, property, key and keyword
  arguments.
- After the guard, the framework's save decides what is written. Without a
  key it inserts under a fresh key. With a key it updates the stored row, or
  inserts under that key when no row has it. `update_fields` writes only the
  named columns, and an empty list writes nothing. `force_insert` on a stored
  key is a duplicate-key `IntegrityError`. `force_update` or `update_fields`
  on a key with no row is a `DatabaseError` (`NoRowUpdated`), and without a
  key it is a `ValueError` (`UpdateWithoutKey`). `force_insert` together with
  an update is a `ValueError` (`ConflictingOptions`). A row whose property is
  not stored is refused by the database (`IntegrityError`).
- The guard does not cover exactly one kind of save (`GuardCoversWrite`). It
  is a partial update whose `update_fields` names `is_payed` but not `tenant`,
  of a stored paid row, whose instance names another tenant and is unpaid,
  while the row's stored owner already has an unpaid lease. Such a save keeps
  the stored owner and stores the unpaid flag, so the owner then has two
  unpaid leases. Every other save keeps the one-unpaid-lease rule on a table
  that obeys it, and a save
  of that kind that succeeds always breaks it. `UpdateFieldsCanBreakInvariant`
  shows such an input.

The argument handling of the framework's `Model.save` is not part of this
repository. `FrameworkSave` follows the framework's documented behaviour for
these arguments.

## Model

| member | source | states |
|---|---|---|
| `TenantModels.NewLease` | tenants/models.py:61-70 | a lease built without an explicit payment flag is unpaid, and every other field is as given |
| `TenantModels.BlockedMessage` | tenants/models.py:79 | the guard's error text starts with "Tenant " followed by the tenant's name |
| `TenantModels.Guard` | tenants/models.py:75-79 | a missing tenant fails first; otherwise the guard blocks exactly when some stored lease of the tenant is unpaid, with the message naming that tenant, and passes exactly when all of the tenant's stored leases are paid |
| `TenantModels.FrameworkSave` | tenants/models.py:81 | a failed or skipped save leaves the table unchanged; the save is skipped exactly for an empty `update_fields` unless both force flags are set; a written row goes under the given key or the fresh key, has a stored property, changes no other row, and is the stored row updated in the named columns when the key was stored; a plain save writes the whole instance whenever its property is stored |
| `TenantModels.SaveLease` | tenants/models.py:75-81 | a refused save writes nothing; a successful save comes only for a stored tenant whose stored leases are all paid; an unpaid stored lease of the tenant forces the guard's refusal; every row but the written one is unchanged and no other key appears |
| `TenantModels.LeasesWithoutTenant` | tenants/models.py:63 | after deleting a tenant it has no leases left, every other tenant's set of leases is unchanged, and every remaining row is as it was |
| `TenantModels.TenantsWithoutProperty` | tenants/models.py:33 | deleting a property removes exactly the tenants living there; the remaining rows are unchanged |
| `TenantModels.LeasesWithoutProperty` | tenants/models.py:33-64 | deleting a property removes exactly the leases on it and the leases of the tenants living there; the remaining rows are unchanged |
| `LeaseRules.SaveKeepsConsistent` | tenants/models.py:75-81 | every save, with any arguments, keeps referential integrity of the three tables |
| `LeaseRules.SavePreservesAtMostOneUnpaid` | tenants/models.py:75-81 | every save except a partial update of `is_payed` that hands a stored paid row's unpaid flag to an owner other than the checked tenant, an owner who already has an unpaid lease, leaves every tenant with at most one unpaid lease |
| `LeaseRules.UncoveredSaveBreaksInvariant` | tenants/models.py:77-81 | conversely, every such partial update that succeeds leaves the row's stored owner with two unpaid leases |
| `LeaseRules.PaymentFlagUpdateKeepsInvariant` | tenants/models.py:77-81 | a lease whose tenant owes nothing, re-saved with `update_fields=['is_payed']` and either flag, is updated in place under its key, and the rule still holds |
| `LeaseRules.UpdateFieldsCanBreakInvariant` | tenants/models.py:77-81 | from a consistent table obeying the rule, a save with `update_fields=['is_payed']` and the instance's tenant changed is not covered by the guard, succeeds, and leaves a tenant with two unpaid leases |
| `LeaseRules.AtMostOneUnpaidIffSingleton` | tenants/models.py:76-79 | the pairwise rule holds exactly when every tenant's set of unpaid leases has at most one element |
| `LeaseRules.GuardIgnoresCandidateFields` | tenants/models.py:77 | while the tenant is blocked, every save for that tenant (any property, payment flag, key or arguments) gets the same refusal and writes nothing |
| `LeaseRules.UnpaidLeaseCannotBeMarkedPaid` | tenants/models.py:75-79 | while a lease is stored unpaid, every save for the same tenant fails and writes nothing, with the guard's message when the tenant is stored |
| `LeaseRules.ReassigningUnpaidLeaseMarksItPaid` | tenants/models.py:77-81 | re-saving an unpaid row under its key for another tenant who owes nothing, with `is_payed` set, succeeds, stores it paid, and leaves its former tenant with no unpaid lease |
| `LeaseRules.TenantWithoutUnpaidLeaseCanSave` | tenants/models.py:68-81 | a tenant with no leases or only paid ones saves a new lease under the fresh key; once an unpaid lease is stored, every further save for that tenant is refused and writes nothing |
| `LeaseRules.InsertAddsOneLease` | tenants/models.py:81 | storing a row under a new key adds exactly that key to its tenant's leases, so the count grows by one; other tenants' leases are unchanged |
| `LeaseRules.SecondLeaseWhileFirstUnpaid` | tenants/models.py:77-79 | in any table where the tenant's only lease is unpaid, every save for the tenant is refused, and the table afterwards still holds exactly that one lease of the tenant |
| `LeaseRules.SecondLeaseAfterFirstPaid` | tenants/models.py:77-81 | in any table where the tenant's only lease is paid, a new lease is stored under the fresh key and the tenant then has two leases |
| `LeaseRules.BlockedTenantStaysBlocked` | tenants/models.py:75-81 | once a tenant has an unpaid lease, any sequence of saves whose instances all name that tenant leaves the lease table unchanged |
| `LeaseRules.SavesPreserveAtMostOneUnpaid` | tenants/models.py:75-81 | any sequence of saves, admitted or refused, keeps at most one unpaid lease per tenant when each successful save is covered by the guard against the table the earlier saves left |
| `LeaseRules.DeleteTenantKeepsInvariants` | tenants/models.py:63 | deleting a tenant with its leases keeps referential integrity and the one-unpaid-lease rule |
| `LeaseRules.DeletePropertyKeepsInvariants` | tenants/models.py:33-64 | deleting a property leaves no lease for a tenant who lived there; other tenants lose only their leases on that property; integrity and the one-unpaid-lease rule are kept |
| `TenantLedger.Ledger.Save` | tenants/models.py:75-81 | the result and the new lease table are `SaveLease` of the old state with the next fresh key (so a refused save changes nothing), the same as `ApplySaves` of that one call; a key handed out is new; tenants and properties are unchanged; integrity is kept; the one-unpaid-lease rule is kept by every save the guard covers, and broken by every successful save it does not cover |
| `TenantLedger.Ledger.DeleteTenant` | tenants/models.py:63 | the tenant and exactly its leases are removed; properties are unchanged; integrity and the one-unpaid-lease rule are kept |
| `TenantLedger.Ledger.DeleteProperty` | tenants/models.py:33-64 | the property, its tenants, its leases and those tenants' leases are removed; integrity and the one-unpaid-lease rule are kept |
| `TenantLedger.Ledger.AddProperty` | tenants/models.py:14-22 | a property is stored under a fresh key and nothing else changes |
| `TenantLedger.Ledger.AddTenant` | tenants/models.py:28-38 | a tenant is stored under a fresh key exactly when its property is stored; otherwise nothing changes |

## Left out

- The lookup tables (PropertyType, ElectricityType, LeaseType, PayedType, Tax) are not modelled as tables. Leases and properties keep their keys as plain numbers, and the cascades from those tables are not modelled.
- Troubleshoot, TroubleshootImage, the five bill tables and Transaction are declarative records with no behaviour. Their cascades from Tenant and Property are not modelled.
- Decimal prices and the Transaction totals are stored values on which the code does no arithmetic. They are left out of the records.
- Creation timestamps, the `created_by` user reference and the auto-incrementing keys are supplied by the framework. Keys are modelled as fresh naturals from a counter. A save under an explicit key moves the counter past that key.
- Field validation (lengths, email format, unique email) is enforced by the framework and the database, not by this code. Field names in `update_fields` are drawn from the lease's columns, so the framework's `ValueError` for an unknown name is not modelled.
- The `using` argument of save (the database alias) is not modelled: there is one database.
- An instance loaded with deferred fields saves only its loaded fields. The model covers that case only through an explicit `update_fields`.
- The framework's refusal of an instance whose related objects are unsaved is not modelled: related objects are keys.
- The `__str__` methods only format text.
- The admin registrations configure the admin site only.
- The race between the guard's query and the write is not modelled: `Save` is one atomic step.
- Writes that bypass `save` (bulk inserts, queryset updates) are not in the code.
- Updating a stored tenant or property, and deleting a single lease, are plain framework operations. Only the inserts and the cascading deletes are modelled.
- The guard takes the tenant's name from the tenant table. An instance holding a cached tenant object whose row has been deleted is not modelled: for it the guard would pass on the cached object and the write would fail instead.
