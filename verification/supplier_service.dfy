/** The supplier service of the suppliers hook over the shared store. Seed
    suppliers carry contact person, email, phone, address, products,
    performance and last order; suppliers added through the form carry a
    contact record, location, lead time, reliability, payment terms and
    product categories instead. Every field but `id` and `name` is therefore
    optional. Reliability is in basis points (0.95 is 9500). */
module SupplierService {
  import opened Wrappers
  import Text
  import Store

  datatype Contact = Contact(name: string, email: string, phone: string)

  datatype Performance = Performance(qualityScore: int, onTimeDelivery: int, responseTime: int)

  datatype Supplier = Supplier(
    id: string, name: string,
    contact: Option<Contact>, location: Option<string>, leadTimeDays: Option<int>,
    reliabilityScore: Option<int>, paymentTerms: Option<string>, productCategories: Option<seq<string>>,
    contactPerson: Option<string>, email: Option<string>, phone: Option<string>, address: Option<string>,
    products: Option<seq<string>>, performance: Option<Performance>, lastOrder: Option<string>)

  /** The payload of `addSupplier`: a supplier without its id. */
  datatype SupplierDraft = SupplierDraft(
    name: string,
    contact: Option<Contact>, location: Option<string>, leadTimeDays: Option<int>,
    reliabilityScore: Option<int>, paymentTerms: Option<string>, productCategories: Option<seq<string>>,
    contactPerson: Option<string>, email: Option<string>, phone: Option<string>, address: Option<string>,
    products: Option<seq<string>>, performance: Option<Performance>, lastOrder: Option<string>)

  /** `Partial<Supplier>`. */
  datatype SupplierPatch = SupplierPatch(
    id: Option<string>, name: Option<string>,
    contact: Option<Contact>, location: Option<string>, leadTimeDays: Option<int>,
    reliabilityScore: Option<int>, paymentTerms: Option<string>, productCategories: Option<seq<string>>,
    contactPerson: Option<string>, email: Option<string>, phone: Option<string>, address: Option<string>,
    products: Option<seq<string>>, performance: Option<Performance>, lastOrder: Option<string>)

  const NoChanges := SupplierPatch(None, None, None, None, None, None, None, None, None, None, None, None, None, None, None)

  function IdOf(x: Supplier): string { x.id }

  function Seed(id: string, name: string, person: string, email: string, phone: string, address: string,
                products: seq<string>, perf: Performance, lastOrder: string): Supplier {
    Supplier(id, name, None, None, None, None, None, None,
      Some(person), Some(email), Some(phone), Some(address), Some(products), Some(perf), Some(lastOrder))
  }

  const Seeds: seq<Supplier> := [
    Seed("SUP001", "NanoChip Technologies", "David Chen", "david.chen@nanochip.com", "+1-415-555-0123",
      "123 Semiconductor Ave, San Jose, CA 95134", ["Microprocessors", "Circuit Boards", "Memory Modules"],
      Performance(95, 92, 98), "2023-10-20T00:00:00Z"),
    Seed("SUP002", "VisualTech Displays", "Sarah Kim", "sarah.kim@visualtech.com", "+82-2-555-0199",
      "45 Display Blvd, Seoul, South Korea", ["Display Modules", "Touch Sensors", "Glass Panels"],
      Performance(92, 88, 95), "2023-10-15T00:00:00Z"),
    Seed("SUP003", "PowerCell Industries", "Michael Wong", "m.wong@powercell.com", "+1-650-555-0177",
      "78 Energy Drive, Palo Alto, CA 94301", ["Battery Cells", "Charging Modules", "Power Management Units"],
      Performance(89, 94, 90), "2023-10-25T00:00:00Z"),
    Seed("SUP004", "MetalWorks Manufacturing", "Carlos Rodriguez", "c.rodriguez@metalworks.com", "+52-55-555-0144",
      "321 Industrial Parkway, Monterrey, Mexico", ["Aluminum Casings", "Metal Frames", "Cooling Elements"],
      Performance(91, 87, 86), "2023-10-10T00:00:00Z")
  ]

  /** `SUP-` followed by the three random digits. */
  function NewId(digits: Text.Digits3): (id: string)
    ensures |id| == 7 && id[..4] == "SUP-" && id[4..] == digits
  {
    "SUP-" + digits
  }

  function Create(d: SupplierDraft, id: string): Supplier {
    Supplier(id, d.name, d.contact, d.location, d.leadTimeDays, d.reliabilityScore, d.paymentTerms,
      d.productCategories, d.contactPerson, d.email, d.phone, d.address, d.products, d.performance, d.lastOrder)
  }

  function DraftOf(x: Supplier): SupplierDraft {
    SupplierDraft(x.name, x.contact, x.location, x.leadTimeDays, x.reliabilityScore, x.paymentTerms,
      x.productCategories, x.contactPerson, x.email, x.phone, x.address, x.products, x.performance, x.lastOrder)
  }

  /** Creating a supplier and dropping its id gives back the payload, and a
      supplier is rebuilt from its payload and its id. */
  lemma CreateDraftRoundTrip(d: SupplierDraft, x: Supplier, id: string)
    ensures DraftOf(Create(d, id)) == d && Create(d, id).id == id
    ensures Create(DraftOf(x), x.id) == x
  {
  }

  /** `{ ...x, ...p }`: each field the patch carries wins, every other field
      is kept. */
  function Merge(x: Supplier, p: SupplierPatch): (r: Supplier)
    ensures (p.id.Some? ==> r.id == p.id.value) && (p.id.None? ==> r.id == x.id)
    ensures (p.name.Some? ==> r.name == p.name.value) && (p.name.None? ==> r.name == x.name)
    ensures (p.contact.Some? ==> r.contact == p.contact) && (p.contact.None? ==> r.contact == x.contact)
    ensures (p.location.Some? ==> r.location == p.location) && (p.location.None? ==> r.location == x.location)
    ensures (p.leadTimeDays.Some? ==> r.leadTimeDays == p.leadTimeDays) && (p.leadTimeDays.None? ==> r.leadTimeDays == x.leadTimeDays)
    ensures (p.reliabilityScore.Some? ==> r.reliabilityScore == p.reliabilityScore) && (p.reliabilityScore.None? ==> r.reliabilityScore == x.reliabilityScore)
    ensures (p.paymentTerms.Some? ==> r.paymentTerms == p.paymentTerms) && (p.paymentTerms.None? ==> r.paymentTerms == x.paymentTerms)
    ensures (p.productCategories.Some? ==> r.productCategories == p.productCategories) && (p.productCategories.None? ==> r.productCategories == x.productCategories)
    ensures (p.contactPerson.Some? ==> r.contactPerson == p.contactPerson) && (p.contactPerson.None? ==> r.contactPerson == x.contactPerson)
    ensures (p.email.Some? ==> r.email == p.email) && (p.email.None? ==> r.email == x.email)
    ensures (p.phone.Some? ==> r.phone == p.phone) && (p.phone.None? ==> r.phone == x.phone)
    ensures (p.address.Some? ==> r.address == p.address) && (p.address.None? ==> r.address == x.address)
    ensures (p.products.Some? ==> r.products == p.products) && (p.products.None? ==> r.products == x.products)
    ensures (p.performance.Some? ==> r.performance == p.performance) && (p.performance.None? ==> r.performance == x.performance)
    ensures (p.lastOrder.Some? ==> r.lastOrder == p.lastOrder) && (p.lastOrder.None? ==> r.lastOrder == x.lastOrder)
  {
    Supplier(p.id.GetOr(x.id), p.name.GetOr(x.name),
      Over(p.contact, x.contact), Over(p.location, x.location), Over(p.leadTimeDays, x.leadTimeDays),
      Over(p.reliabilityScore, x.reliabilityScore), Over(p.paymentTerms, x.paymentTerms),
      Over(p.productCategories, x.productCategories), Over(p.contactPerson, x.contactPerson),
      Over(p.email, x.email), Over(p.phone, x.phone), Over(p.address, x.address),
      Over(p.products, x.products), Over(p.performance, x.performance), Over(p.lastOrder, x.lastOrder))
  }

  /** The patch that applies `p` and then `q`. */
  function Then(p: SupplierPatch, q: SupplierPatch): SupplierPatch {
    SupplierPatch(Over(q.id, p.id), Over(q.name, p.name),
      Over(q.contact, p.contact), Over(q.location, p.location), Over(q.leadTimeDays, p.leadTimeDays),
      Over(q.reliabilityScore, p.reliabilityScore), Over(q.paymentTerms, p.paymentTerms),
      Over(q.productCategories, p.productCategories), Over(q.contactPerson, p.contactPerson),
      Over(q.email, p.email), Over(q.phone, p.phone), Over(q.address, p.address),
      Over(q.products, p.products), Over(q.performance, p.performance), Over(q.lastOrder, p.lastOrder))
  }

  /** An empty patch keeps the supplier, merging is idempotent, and two
      merges compose into one. */
  lemma MergeLaws(x: Supplier, p: SupplierPatch, q: SupplierPatch)
    ensures Merge(x, NoChanges) == x
    ensures Merge(Merge(x, p), p) == Merge(x, p)
    ensures Merge(Merge(x, p), q) == Merge(x, Then(p, q))
  {
  }

  /** Setting only the location touches that field only: a seed supplier
      gains a location and keeps everything else. */
  lemma MergeLocationOnly(x: Supplier, loc: string)
    ensures Merge(x, NoChanges.(location := Some(loc))) == x.(location := Some(loc))
  {
  }

  /** `addSupplier`: appends the payload with a `SUP-ddd` id. */
  function AddSupplier(s: seq<Supplier>, d: SupplierDraft, digits: Text.Digits3): (r: Store.Step<Supplier, Supplier>)
    ensures Store.AddOutcome(s, r.value, r)
    ensures r.value.id == NewId(digits) && DraftOf(r.value) == d
  {
    Store.Add(s, Create(d, NewId(digits)))
  }

  /** `updateSupplier`. */
  function UpdateSupplier(s: seq<Supplier>, id: string, updates: SupplierPatch): (r: Store.Step<Supplier, Option<Supplier>>)
    ensures Store.UpdateOutcome(s, id, updates, IdOf, Merge, r)
  {
    Store.Update(s, id, updates, IdOf, Merge)
  }

  /** `deleteSupplier`. */
  function DeleteSupplier(s: seq<Supplier>, id: string): (r: Store.Step<Supplier, bool>)
    ensures Store.DeleteOutcome(s, id, IdOf, r)
  {
    Store.Delete(s, id, IdOf)
  }

  /** A generated `SUP-ddd` id never names a seed supplier (`SUPnnn`). */
  lemma GeneratedIdNotSeed(digits: Text.Digits3)
    ensures !Store.HasId(Seeds, NewId(digits), IdOf)
  {
    forall i | 0 <= i < |Seeds|
      ensures IdOf(Seeds[i]) != NewId(digits)
    {
      assert IdOf(Seeds[i])[3] == '0' != '-' == NewId(digits)[3];
    }
  }
}
