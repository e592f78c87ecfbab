/** The records of the tenancy ledger (tenants/models.py) and the pure rules that
    the lease table obeys: the admission guard of `Lease.save` and the cascade
    deletes declared on the foreign keys. Tables are maps from primary key to row. */
module TenantModels {

  type PropertyId = nat
  type PropertyTypeId = nat
  type TenantId = nat
  type LeaseTypeId = nat
  type ElectricityTypeId = nat
  type LeaseId = nat

  datatype Option<T> = None | Some(value: T)

  datatype Result<T, E> = Ok(value: T) | Err(error: E)

  /** A calendar date as stored in a date column; the source never compares or
      validates dates, so neither does the model. */
  datatype Date = Date(year: int, month: int, day: int)

  datatype Property = Property(
    name: string,
    floor: int,
    number: string,
    propertyType: PropertyTypeId,
    createdBy: string)

  /** A tenant occupies exactly one property (a cascading foreign key). */
  datatype Tenant = Tenant(
    name: string,
    email: string,
    phoneNumber: string,
    property: PropertyId,
    password: string,
    isActive: bool,
    noKtp: string)

  datatype Lease = Lease(
    tenant: TenantId,
    property: PropertyId,
    leaseType: LeaseTypeId,
    startDate: Date,
    endDate: Date,
    isPayed: bool,
    electricityType: Option<ElectricityTypeId>,
    watt: int)

  /** The columns of the lease table other than its primary key. */
  datatype LeaseField =
    | TenantField | PropertyField | LeaseTypeField | StartDateField
    | EndDateField | IsPayedField | ElectricityTypeField | WattField

  /** The keyword arguments that `Lease.save` hands on to the framework's save:
      `force_insert`, `force_update` and `update_fields` (None when absent). */
  datatype SaveOptions = SaveOptions(forceInsert: bool, forceUpdate: bool,
                                     updateFields: Option<set<LeaseField>>)

  /** `save()` called without keyword arguments. */
  const PlainSave := SaveOptions(false, false, None)

  /** One call of `save`: the instance's primary key (None for an instance not
      yet stored), the keyword arguments, the instance's fields, and the key the
      database hands out if the call inserts a row without a key. */
  datatype SaveRequest = SaveRequest(pk: Option<LeaseId>, options: SaveOptions,
                                     candidate: Lease, freshKey: LeaseId)

  /** A save that returned normally either wrote a row under a key or, for an
      empty `update_fields`, did nothing. */
  datatype Saved = Written(id: LeaseId) | Skipped

  /** Why a save is refused, in the order the code meets them. */
  datatype SaveError =
    | TenantMissing                // reading the candidate's tenant finds no row
    | LeaseBlocked(message: string) // the guard's ValueError
    | ConflictingOptions           // a forced insert combined with an update
    | UpdateWithoutKey             // an update asked for on an instance without a key
    | NoRowUpdated                 // an update asked for matched no stored row
    | IntegrityError               // a missing property, or a forced insert on a stored key

  /** A lease built without an explicit `is_payed` starts unpaid. */
  function NewLease(tenant: TenantId, property: PropertyId, leaseType: LeaseTypeId,
                    startDate: Date, endDate: Date,
                    electricityType: Option<ElectricityTypeId>, watt: int): (l: Lease)
    ensures !l.isPayed
    ensures l.tenant == tenant && l.property == property && l.leaseType == leaseType
    ensures l.startDate == startDate && l.endDate == endDate
    ensures l.electricityType == electricityType && l.watt == watt
  {
    Lease(tenant, property, leaseType, startDate, endDate, false, electricityType, watt)
  }

  /** The text of the ValueError raised by the guard. */
  function BlockedMessage(tenantName: string): (m: string)
    ensures |m| > 7 + |tenantName|
    ensures m[..7] == "Tenant " && m[7..7 + |tenantName|] == tenantName
  {
    "Tenant " + tenantName + " cannot add more leases until the previous one is paid."
  }

  /** The guard's query: some stored lease of tenant `t` is not paid. */
  predicate HasUnpaidLease(leases: map<LeaseId, Lease>, t: TenantId)
  {
    exists id | id in leases :: leases[id].tenant == t && !leases[id].isPayed
  }

  /** The keys of the stored leases of tenant `t`. */
  function LeasesOf(leases: map<LeaseId, Lease>, t: TenantId): set<LeaseId>
  {
    set id | id in leases && leases[id].tenant == t
  }

  /** The keys of the stored unpaid leases of tenant `t`. */
  function UnpaidLeasesOf(leases: map<LeaseId, Lease>, t: TenantId): set<LeaseId>
  {
    set id | id in leases && leases[id].tenant == t && !leases[id].isPayed
  }

  /** The business invariant: no tenant has two unpaid leases. */
  ghost predicate AtMostOneUnpaid(leases: map<LeaseId, Lease>)
  {
    forall i, j | i in leases && j in leases ::
      leases[i].tenant == leases[j].tenant && !leases[i].isPayed && !leases[j].isPayed ==> i == j
  }

  /** Every lease refers to a stored tenant. */
  ghost predicate LeasesReferToTenants(tenants: map<TenantId, Tenant>, leases: map<LeaseId, Lease>)
  {
    forall id | id in leases :: leases[id].tenant in tenants
  }

  /** Referential integrity of the three tables: the foreign keys
      Tenant.property, Lease.tenant and Lease.property point at stored rows. */
  ghost predicate Consistent(properties: map<PropertyId, Property>,
                             tenants: map<TenantId, Tenant>,
                             leases: map<LeaseId, Lease>)
  {
    && (forall t | t in tenants :: tenants[t].property in properties)
    && LeasesReferToTenants(tenants, leases)
    && (forall id | id in leases :: leases[id].property in properties)
  }

  /** The guard of `Lease.save`: it reads the candidate's tenant, then refuses
      the save while any stored lease of that tenant is unpaid. It looks at
      nothing else of the candidate: not its `isPayed`, its property or its key. */
  function Guard(tenants: map<TenantId, Tenant>, leases: map<LeaseId, Lease>,
                 candidate: Lease): (r: Option<SaveError>)
    ensures r == Some(TenantMissing) <==> candidate.tenant !in tenants
    ensures r.Some? && r.value.LeaseBlocked? <==>
      candidate.tenant in tenants &&
      exists id | id in leases :: leases[id].tenant == candidate.tenant && !leases[id].isPayed
    ensures r.Some? && r.value.LeaseBlocked? ==>
      r.value.message == BlockedMessage(tenants[candidate.tenant].name)
    ensures r.None? <==>
      candidate.tenant in tenants &&
      forall id | id in leases && leases[id].tenant == candidate.tenant :: leases[id].isPayed
  {
    if candidate.tenant !in tenants then Some(TenantMissing)
    else if HasUnpaidLease(leases, candidate.tenant) then
      Some(LeaseBlocked(BlockedMessage(tenants[candidate.tenant].name)))
    else None
  }

  /** The row an update leaves behind: the candidate's value in every column
      named in `fields`, the stored value in the others; the whole candidate
      when no field list is given. */
  function UpdatedRow(stored: Lease, candidate: Lease, fields: Option<set<LeaseField>>): Lease
  {
    match fields
    case None => candidate
    case Some(f) =>
      Lease(
        if TenantField in f then candidate.tenant else stored.tenant,
        if PropertyField in f then candidate.property else stored.property,
        if LeaseTypeField in f then candidate.leaseType else stored.leaseType,
        if StartDateField in f then candidate.startDate else stored.startDate,
        if EndDateField in f then candidate.endDate else stored.endDate,
        if IsPayedField in f then candidate.isPayed else stored.isPayed,
        if ElectricityTypeField in f then candidate.electricityType else stored.electricityType,
        if WattField in f then candidate.watt else stored.watt)
  }

  /** Writing `row` under `id`; the database refuses a row whose property is
      not stored. */
  function WriteRow(properties: map<PropertyId, Property>, leases: map<LeaseId, Lease>,
                    id: LeaseId, row: Lease): (Result<Saved, SaveError>, map<LeaseId, Lease>)
  {
    if row.property in properties then (Ok(Written(id)), leases[id := row])
    else (Err(IntegrityError), leases)
  }

  /** The framework's save, which `Lease.save` calls once the guard has passed.
      With a key it updates the stored row (only the named columns when
      `update_fields` is given) or inserts a row under that key; without one it
      inserts under a fresh key. The keyword arguments can refuse the call. */
  function FrameworkSave(properties: map<PropertyId, Property>, leases: map<LeaseId, Lease>,
                         req: SaveRequest): (r: (Result<Saved, SaveError>, map<LeaseId, Lease>))
    ensures !r.0.Ok? || r.0.value.Skipped? ==> r.1 == leases
    ensures r.0 == Ok(Skipped) <==> req.options.updateFields == Some({}) && !(req.options.forceInsert && req.options.forceUpdate)
    ensures r.0.Ok? && r.0.value.Written? ==>
      && r.0.value.id == (if req.pk.Some? then req.pk.value else req.freshKey)
      && r.0.value.id in r.1
      && r.1 == leases[r.0.value.id := r.1[r.0.value.id]]
      && r.1[r.0.value.id].property in properties
      && r.1[r.0.value.id] == (if req.pk.Some? && req.pk.value in leases
                               then UpdatedRow(leases[req.pk.value], req.candidate, req.options.updateFields)
                               else req.candidate)
    ensures req.options == PlainSave ==>
      r == if req.candidate.property in properties
           then (Ok(Written(if req.pk.Some? then req.pk.value else req.freshKey)),
                 leases[(if req.pk.Some? then req.pk.value else req.freshKey) := req.candidate])
           else (Err(IntegrityError), leases)
  {
    var options := req.options;
    var fields := options.updateFields;
    if options.forceInsert && (options.forceUpdate || (fields.Some? && fields.value != {})) then
      (Err(ConflictingOptions), leases)
    else if fields == Some({}) then
      (Ok(Skipped), leases)
    else if req.pk.None? then
      if options.forceUpdate || fields.Some? then (Err(UpdateWithoutKey), leases)
      else WriteRow(properties, leases, req.freshKey, req.candidate)
    else
      var id := req.pk.value;
      if id in leases then
        if options.forceInsert then (Err(IntegrityError), leases)
        else WriteRow(properties, leases, id, UpdatedRow(leases[id], req.candidate, fields))
      else if options.forceUpdate || fields.Some? then
        (Err(NoRowUpdated), leases)
      else
        WriteRow(properties, leases, id, req.candidate)
  }

  /** `Lease.save`: the guard, then the framework's save. The result and the
      lease table afterwards. */
  function SaveLease(properties: map<PropertyId, Property>, tenants: map<TenantId, Tenant>,
                     leases: map<LeaseId, Lease>, req: SaveRequest)
    : (r: (Result<Saved, SaveError>, map<LeaseId, Lease>))
    ensures r.0.Err? ==> r.1 == leases
    ensures r.0.Ok? ==>
      && req.candidate.tenant in tenants
      && forall id | id in leases && leases[id].tenant == req.candidate.tenant :: leases[id].isPayed
    ensures HasUnpaidLease(leases, req.candidate.tenant) && req.candidate.tenant in tenants ==>
      r == (Err(LeaseBlocked(BlockedMessage(tenants[req.candidate.tenant].name))), leases)
    ensures forall k | k in leases && !(r.0.Ok? && r.0.value.Written? && k == r.0.value.id) ::
      k in r.1 && r.1[k] == leases[k]
    ensures forall k | k in r.1 :: k in leases || (r.0.Ok? && r.0.value.Written? && k == r.0.value.id)
  {
    match Guard(tenants, leases, req.candidate)
    case Some(e) => (Err(e), leases)
    case None => FrameworkSave(properties, leases, req)
  }

  /** The save cannot give a tenant a second unpaid lease. The guard checks the
      tenant the instance names, so the only write it does not cover is a
      partial update that names `is_payed` but not `tenant`: it keeps the
      stored row's owner and stores the instance's flag. That write is harmless
      when the row it updates is missing or belongs to the checked tenant,
      when it is marked paid or was unpaid already, or when its owner has no
      unpaid lease. */
  predicate GuardCoversWrite(leases: map<LeaseId, Lease>, req: SaveRequest)
  {
    var fields := req.options.updateFields;
    || fields.None?
    || TenantField in fields.value
    || IsPayedField !in fields.value
    || req.pk.None?
    || req.pk.value !in leases
    || leases[req.pk.value].tenant == req.candidate.tenant
    || req.candidate.isPayed
    || !leases[req.pk.value].isPayed
    || !HasUnpaidLease(leases, leases[req.pk.value].tenant)
  }

  /** The lease table after deleting tenant `t`: its leases go with it. */
  function LeasesWithoutTenant(leases: map<LeaseId, Lease>, t: TenantId): (r: map<LeaseId, Lease>)
    ensures LeasesOf(r, t) == {}
    ensures forall u | u != t :: LeasesOf(r, u) == LeasesOf(leases, u)
    ensures forall id | id in r :: id in leases && r[id] == leases[id]
  {
    map id | id in leases && leases[id].tenant != t :: leases[id]
  }

  /** The tenant table after deleting property `p`: its tenants go with it. */
  function TenantsWithoutProperty(tenants: map<TenantId, Tenant>, p: PropertyId): (r: map<TenantId, Tenant>)
    ensures forall t | t in tenants :: t in r <==> tenants[t].property != p
    ensures forall t | t in r :: t in tenants && r[t] == tenants[t]
  {
    map t | t in tenants && tenants[t].property != p :: tenants[t]
  }

  /** A tenant removed together with property `p`. */
  predicate LivesAt(tenants: map<TenantId, Tenant>, t: TenantId, p: PropertyId)
  {
    t in tenants && tenants[t].property == p
  }

  /** The lease table after deleting property `p`: the leases on `p` go, and so
      do the leases of every tenant living at `p`, whatever property they are on. */
  function LeasesWithoutProperty(tenants: map<TenantId, Tenant>, leases: map<LeaseId, Lease>,
                                 p: PropertyId): (r: map<LeaseId, Lease>)
    ensures forall id | id in leases ::
      id !in r <==> leases[id].property == p || LivesAt(tenants, leases[id].tenant, p)
    ensures forall id | id in r :: id in leases && r[id] == leases[id]
  {
    map id | id in leases && leases[id].property != p && !LivesAt(tenants, leases[id].tenant, p)
      :: leases[id]
  }
}
