/** The customer service of the customers hook: the record shape, the three
    seed customers and the add/update/delete calls over the shared store. */
module CustomerService {
  import opened Wrappers
  import Text
  import Store

  datatype Contact = Contact(name: string, email: string, phone: string)

  /** A customer; `notes` is the one optional field. */
  datatype Customer = Customer(id: string, name: string, location: string, contact: Contact, notes: Option<string>)

  /** The payload of `addCustomer`: a customer without its id. */
  datatype CustomerDraft = CustomerDraft(name: string, location: string, contact: Contact, notes: Option<string>)

  /** `Partial<Customer>`: every field may be left out. The id is a field
      like any other, so an update can rename a customer. */
  datatype CustomerPatch = CustomerPatch(
    id: Option<string>, name: Option<string>, location: Option<string>,
    contact: Option<Contact>, notes: Option<string>)

  const NoChanges := CustomerPatch(None, None, None, None, None)

  function IdOf(c: Customer): string { c.id }

  const Seeds: seq<Customer> := [
    Customer("CUS-001", "TechCorp Solutions", "San Francisco, CA",
      Contact("John Smith", "john.smith@techcorp.com", "555-123-4567"), Some("Premium enterprise client")),
    Customer("CUS-002", "Global Industries", "Chicago, IL",
      Contact("Emma Johnson", "emma.johnson@globalind.com", "555-222-3333"), None),
    Customer("CUS-003", "Innovate Manufacturing", "Austin, TX",
      Contact("Michael Brown", "michael.brown@innovatemfg.com", "555-444-5555"), Some("Regular bulk orders"))
  ]

  /** `CUS-` followed by the three random digits. */
  function NewId(digits: Text.Digits3): (id: string)
    ensures |id| == 7 && id[..4] == "CUS-" && id[4..] == digits
  {
    "CUS-" + digits
  }

  /** The record `{ id, ...customer }`. */
  function Create(d: CustomerDraft, id: string): Customer {
    Customer(id, d.name, d.location, d.contact, d.notes)
  }

  /** The record without its id. */
  function DraftOf(c: Customer): CustomerDraft {
    CustomerDraft(c.name, c.location, c.contact, c.notes)
  }

  /** Creating a record and dropping its id gives back the payload; a record
      is rebuilt from its payload and its id. */
  lemma CreateDraftRoundTrip(d: CustomerDraft, c: Customer, id: string)
    ensures DraftOf(Create(d, id)) == d && Create(d, id).id == id
    ensures Create(DraftOf(c), c.id) == c
  {
  }

  /** `{ ...c, ...p }`: each field the patch carries wins, every other field is kept. */
  function Merge(c: Customer, p: CustomerPatch): (r: Customer)
    ensures p.id.Some? ==> r.id == p.id.value
    ensures p.id.None? ==> r.id == c.id
    ensures p.name.Some? ==> r.name == p.name.value
    ensures p.name.None? ==> r.name == c.name
    ensures p.location.Some? ==> r.location == p.location.value
    ensures p.location.None? ==> r.location == c.location
    ensures p.contact.Some? ==> r.contact == p.contact.value
    ensures p.contact.None? ==> r.contact == c.contact
    ensures p.notes.Some? ==> r.notes == p.notes
    ensures p.notes.None? ==> r.notes == c.notes
  {
    Customer(p.id.GetOr(c.id), p.name.GetOr(c.name), p.location.GetOr(c.location),
      p.contact.GetOr(c.contact), if p.notes.Some? then p.notes else c.notes)
  }

  /** The patch that applies `p` and then `q`: `q`'s fields win. */
  function Then(p: CustomerPatch, q: CustomerPatch): CustomerPatch {
    CustomerPatch(
      if q.id.Some? then q.id else p.id,
      if q.name.Some? then q.name else p.name,
      if q.location.Some? then q.location else p.location,
      if q.contact.Some? then q.contact else p.contact,
      if q.notes.Some? then q.notes else p.notes)
  }

  /** Merging is a no-op for an empty patch, idempotent, and two merges in a
      row are one merge of the combined patch. */
  lemma MergeLaws(c: Customer, p: CustomerPatch, q: CustomerPatch)
    ensures Merge(c, NoChanges) == c
    ensures Merge(Merge(c, p), p) == Merge(c, p)
    ensures Merge(Merge(c, p), q) == Merge(c, Then(p, q))
  {
  }

  /** `addCustomer`: appends the payload with a fresh `CUS-ddd` id. */
  function AddCustomer(s: seq<Customer>, d: CustomerDraft, digits: Text.Digits3): (r: Store.Step<Customer, Customer>)
    ensures Store.AddOutcome(s, r.value, r)
    ensures r.value.id == NewId(digits) && DraftOf(r.value) == d
  {
    Store.Add(s, Create(d, NewId(digits)))
  }

  /** `updateCustomer`: merges into the first customer with `id`, or resolves `null`. */
  function UpdateCustomer(s: seq<Customer>, id: string, updates: CustomerPatch): (r: Store.Step<Customer, Option<Customer>>)
    ensures Store.UpdateOutcome(s, id, updates, IdOf, Merge, r)
  {
    Store.Update(s, id, updates, IdOf, Merge)
  }

  /** `deleteCustomer`: removes the first customer with `id`. */
  function DeleteCustomer(s: seq<Customer>, id: string): (r: Store.Step<Customer, bool>)
    ensures Store.DeleteOutcome(s, id, IdOf, r)
  {
    Store.Delete(s, id, IdOf)
  }

  /** Nothing prevents a generated id from repeating a seed id: digits "001"
      give a second `CUS-001`, and updates and deletes by that id keep
      reaching the seed, not the new customer. */
  lemma GeneratedIdCanCollide(d: CustomerDraft)
    ensures AddCustomer(Seeds, d, "001").value.id == Seeds[0].id
    ensures Store.FindIndex(AddCustomer(Seeds, d, "001").items, "CUS-001", IdOf) == Some(0)
  {
    var c := AddCustomer(Seeds, d, "001").value;
    assert IdOf(Seeds[0]) == c.id;
    Store.AddShadowed(Seeds, c, IdOf);
  }

  /** The seed ids are distinct, so deleting a seed twice answers true and
      then false. */
  lemma SeedsDeleteTwice(id: string)
    requires Store.HasId(Seeds, id, IdOf)
    ensures DeleteCustomer(Seeds, id).value
    ensures DeleteCustomer(DeleteCustomer(Seeds, id).items, id) == Store.Step(DeleteCustomer(Seeds, id).items, false)
  {
    assert Store.UniqueIds(Seeds, IdOf);
    Store.DeleteTwice(Seeds, id, IdOf);
  }
}
