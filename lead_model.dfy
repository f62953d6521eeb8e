/** The `Lead` collection's schema: a customer's enquiry to a store. */
module LeadModel {
  import opened Wrappers
  import opened Mongo

  datatype LeadStatus = New | Contacted | Closed

  function LeadStatusName(s: LeadStatus): string {
    match s
    case New => "new"
    case Contacted => "contacted"
    case Closed => "closed"
  }

  /** `storeSnapshot`: the store's name, e-mail and phone at the time of the enquiry, and nothing else. */
  datatype Snapshot = Snapshot(name: Option<string>, email: Option<string>, phone: Option<string>)

  datatype Lead = Lead(
    id: Id,
    store: Id,
    storeSnapshot: Snapshot,
    clientName: Option<string>,
    clientEmail: Option<string>,
    clientPhone: Option<string>,
    message: Option<string>,
    source: Option<string>,
    createdAt: int,
    status: LeadStatus)

  datatype Draft = Draft(
    store: Option<Id>,
    storeSnapshot: Snapshot,
    clientName: Option<string>,
    clientEmail: Option<string>,
    clientPhone: Option<string>,
    message: Option<string>,
    source: Option<string>)

  /** `Lead.create`: `store` is required; `createdAt` is the current time and `status` "new". */
  function Create(d: Draft, id: Id, now: int): (r: Saved<Lead>)
    ensures r.Ok? <==> d.store.Some?
    ensures r.Ok? ==> && r.doc.store == d.store.value && r.doc.status == New && r.doc.createdAt == now
                      && r.doc.storeSnapshot == d.storeSnapshot && r.doc.clientEmail == d.clientEmail
                      && r.doc.id == id
  {
    if d.store.None? then Rejected("store")
    else Ok(Lead(id, d.store.value, d.storeSnapshot, d.clientName, d.clientEmail, d.clientPhone,
                 d.message, d.source, now, New))
  }
}
