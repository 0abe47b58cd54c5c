/**
 * An order as the dashboard holds it: a plain object of named fields, merged
 * with object spread, and the status lookups used to render it.
 */
module Orders {
  import opened Wrappers

  /** A field value as the backend delivers it (JSON-shaped). */
  datatype Value =
    | Null
    | Bool(b: bool)
    | Number(n: real)
    | Text(s: string)
    | List(elems: seq<Value>)
    | Object(fields: map<string, Value>)

  /** An order row (with its joined fields) as a plain object: field name to value. */
  type Order = map<string, Value>

  const IdField := "id"
  const StatusField := "order_status"

  /** Property access `o[key]`; None stands for `undefined`. */
  function Field(o: Order, key: string): (r: Option<Value>)
    ensures r.Some? <==> key in o
    ensures r.Some? ==> r.value == o[key]
  {
    if key in o then Some(o[key]) else None
  }

  /** `order.id === updated.id`: two objects without an `id` compare equal (undefined === undefined). */
  predicate SameId(a: Order, b: Order)
    ensures SameId(a, b) <==> (IdField in a <==> IdField in b) && (IdField in a ==> a[IdField] == b[IdField])
  {
    Field(a, IdField) == Field(b, IdField)
  }

  /** `{...order, ...updated}`: every field of `updated` wins, every other field of `order` stays. */
  function Merge(order: Order, updated: Order): (r: Order)
    ensures r.Keys == order.Keys + updated.Keys
    ensures forall k :: k in updated ==> r[k] == updated[k]
    ensures forall k :: k in order && k !in updated ==> r[k] == order[k]
  {
    order + updated
  }

  /** A merge with an object of the same id keeps that id. */
  lemma MergeKeepsId(order: Order, updated: Order)
    requires SameId(order, updated)
    ensures SameId(Merge(order, updated), order)
    ensures SameId(Merge(order, updated), updated)
  {
  }

  /** Spreading the same update a second time changes nothing. */
  lemma MergeIdempotent(order: Order, updated: Order)
    ensures Merge(Merge(order, updated), updated) == Merge(order, updated)
  {
  }

  /** Spreading two updates in turn is spreading their merge once. */
  lemma MergeAssociative(order: Order, u1: Order, u2: Order)
    ensures Merge(Merge(order, u1), u2) == Merge(order, Merge(u1, u2))
  {
  }

  // ---------------------------------------------------------------------------
  // Statuses

  /** The six values of `order_status`. */
  datatype Status = Pending | Accepted | Assigned | Picked | Delivered | Cancelled

  /** The string the backend stores for each status. */
  function Name(st: Status): (r: string) {
    match st
    case Pending => "PENDING"
    case Accepted => "ACCEPTED"
    case Assigned => "ASSIGNED"
    case Picked => "PICKED"
    case Delivered => "DELIVERED"
    case Cancelled => "CANCELLED"
  }

  /** The status a string names, if it names one. */
  function ParseStatus(s: string): (r: Option<Status>)
    ensures r.Some? ==> Name(r.value) == s
    ensures r.None? ==> forall st :: Name(st) != s
  {
    if s == "PENDING" then Some(Pending)
    else if s == "ACCEPTED" then Some(Accepted)
    else if s == "ASSIGNED" then Some(Assigned)
    else if s == "PICKED" then Some(Picked)
    else if s == "DELIVERED" then Some(Delivered)
    else if s == "CANCELLED" then Some(Cancelled)
    else None
  }

  /** Every status name parses back to its status. */
  lemma ParseName(st: Status)
    ensures ParseStatus(Name(st)) == Some(st)
  {
  }

  /** The active subset the order query filters on. */
  predicate IsActive(st: Status)
    ensures IsActive(st) <==> st != Delivered && st != Cancelled
  {
    match st
    case Pending | Accepted | Assigned | Picked => true
    case Delivered | Cancelled => false
  }

  /** The badge colour table. */
  const StatusColors: map<string, string> := map[
    "PENDING" := "#FF9800",
    "ACCEPTED" := "#4CAF50",
    "ASSIGNED" := "#2196F3",
    "PICKED" := "#9C27B0",
    "DELIVERED" := "#4CAF50",
    "CANCELLED" := "#F44336"
  ]

  /** The badge label table. */
  const StatusTexts: map<string, string> := map[
    "PENDING" := "Pendiente",
    "ACCEPTED" := "Aceptada",
    "ASSIGNED" := "Asignada",
    "PICKED" := "Recogida",
    "DELIVERED" := "Entregada",
    "CANCELLED" := "Cancelada"
  ]

  const FallbackColor := "#666"

  /** `colors[status] || '#666'`: a missing or empty table entry falls back to grey. */
  function StatusColor(status: string): (r: string)
    ensures r == FallbackColor <==> ParseStatus(status).None?
    ensures status in StatusColors ==> r == StatusColors[status]
  {
    if status in StatusColors && StatusColors[status] != "" then StatusColors[status] else FallbackColor
  }

  /** `texts[status] || status`: an unknown status is shown as it is. */
  function StatusText(status: string): (r: string)
    ensures r == status <==> ParseStatus(status).None?
    ensures status in StatusTexts ==> r == StatusTexts[status]
  {
    if status in StatusTexts && StatusTexts[status] != "" then StatusTexts[status] else status
  }

  /** Both tables are keyed by exactly the six status names. */
  lemma TablesCoverStatuses(s: string)
    ensures s in StatusColors <==> ParseStatus(s).Some?
    ensures s in StatusTexts <==> ParseStatus(s).Some?
  {
  }

  /** Labels tell every status apart. */
  lemma StatusTextDistinguishes(a: Status, b: Status)
    ensures StatusText(Name(a)) == StatusText(Name(b)) <==> a == b
  {
  }

  /** Colours tell every status apart except ACCEPTED and DELIVERED, which share green. */
  lemma StatusColorDistinguishes(a: Status, b: Status)
    ensures StatusColor(Name(a)) == StatusColor(Name(b)) <==>
              a == b || (a in {Accepted, Delivered} && b in {Accepted, Delivered})
  {
  }

  // ---------------------------------------------------------------------------
  // Rendering decisions on an order

  /** The status of an order, if its `order_status` field is a known status string. */
  function StatusOf(o: Order): (r: Option<Status>) {
    match Field(o, StatusField)
    case Some(Text(s)) => ParseStatus(s)
    case _ => None
  }

  /** `item.order_status === 'PENDING'`: the gate on the accept and reject controls. */
  predicate OffersActions(o: Order)
    ensures OffersActions(o) <==> StatusField in o && o[StatusField] == Text(Name(Pending))
  {
    Field(o, StatusField) == Some(Text("PENDING"))
  }

  /** The controls are offered exactly on PENDING orders, and so only on active ones. */
  lemma OffersActionsIffPending(o: Order)
    ensures OffersActions(o) <==> StatusOf(o) == Some(Pending)
    ensures OffersActions(o) ==> IsActive(StatusOf(o).value)
  {
  }
}
