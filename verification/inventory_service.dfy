/** The inventory service of the inventory hook over the shared store.
    Seed items carry `sku`, `reorderLevel` and `lastUpdated`; items added
    through the form carry `description`, `reorderPoint`, `leadTimeDays` and
    `supplier` instead, so each of those fields is optional here. Money is in
    cents. */
module InventoryService {
  import opened Wrappers
  import Text
  import Store

  datatype InventoryItem = InventoryItem(
    id: string, name: string, category: string, quantity: int, unitCost: int, location: string,
    sku: Option<string>, reorderLevel: Option<int>, lastUpdated: Option<string>,
    description: Option<string>, reorderPoint: Option<int>, leadTimeDays: Option<int>, supplier: Option<string>)

  /** The payload of `addInventoryItem`: an item without its id. */
  datatype ItemDraft = ItemDraft(
    name: string, category: string, quantity: int, unitCost: int, location: string,
    sku: Option<string>, reorderLevel: Option<int>, lastUpdated: Option<string>,
    description: Option<string>, reorderPoint: Option<int>, leadTimeDays: Option<int>, supplier: Option<string>)

  /** `Partial<InventoryItem>`. */
  datatype ItemPatch = ItemPatch(
    id: Option<string>, name: Option<string>, category: Option<string>, quantity: Option<int>,
    unitCost: Option<int>, location: Option<string>,
    sku: Option<string>, reorderLevel: Option<int>, lastUpdated: Option<string>,
    description: Option<string>, reorderPoint: Option<int>, leadTimeDays: Option<int>, supplier: Option<string>)

  const NoChanges := ItemPatch(None, None, None, None, None, None, None, None, None, None, None, None, None)

  function IdOf(x: InventoryItem): string { x.id }

  function Seed(id: string, name: string, sku: string, category: string, quantity: int,
                reorderLevel: int, unitCost: int, location: string, lastUpdated: string): InventoryItem {
    InventoryItem(id, name, category, quantity, unitCost, location,
      Some(sku), Some(reorderLevel), Some(lastUpdated), None, None, None, None)
  }

  const Seeds: seq<InventoryItem> := [
    Seed("INV001", "Microprocessors A12", "MP-A12-001", "Electronics", 850, 200, 11500, "Warehouse A, Bay 12", "2023-10-30T14:30:00Z"),
    Seed("INV002", "Display Modules 5.5\"", "DM-55-002", "Components", 120, 150, 6500, "Warehouse B, Bay 05", "2023-10-29T10:15:00Z"),
    Seed("INV003", "Battery Cells 3000mAh", "BC-3K-003", "Power", 25, 100, 2200, "Warehouse A, Bay 18", "2023-10-30T16:45:00Z"),
    Seed("INV004", "Aluminum Casings Type C", "AC-C-004", "Materials", 450, 150, 1800, "Warehouse C, Bay 03", "2023-10-28T09:20:00Z"),
    Seed("INV005", "Circuit Boards V2", "CB-V2-005", "Electronics", 320, 100, 4200, "Warehouse A, Bay 14", "2023-10-27T11:10:00Z"),
    Seed("INV006", "Touch Sensors T10", "TS-T10-006", "Components", 210, 80, 1200, "Warehouse B, Bay 09", "2023-10-30T15:30:00Z"),
    Seed("INV007", "Charging Modules 20W", "CM-20W-007", "Power", 180, 60, 800, "Warehouse A, Bay 22", "2023-10-29T14:50:00Z"),
    Seed("INV008", "Glass Panels Premium", "GP-P-008", "Materials", 95, 50, 3500, "Warehouse C, Bay 07", "2023-10-28T12:40:00Z")
  ]

  /** `INV-` followed by the three random digits. */
  function NewId(digits: Text.Digits3): (id: string)
    ensures |id| == 7 && id[..4] == "INV-" && id[4..] == digits
  {
    "INV-" + digits
  }

  function Create(d: ItemDraft, id: string): InventoryItem {
    InventoryItem(id, d.name, d.category, d.quantity, d.unitCost, d.location,
      d.sku, d.reorderLevel, d.lastUpdated, d.description, d.reorderPoint, d.leadTimeDays, d.supplier)
  }

  function DraftOf(x: InventoryItem): ItemDraft {
    ItemDraft(x.name, x.category, x.quantity, x.unitCost, x.location,
      x.sku, x.reorderLevel, x.lastUpdated, x.description, x.reorderPoint, x.leadTimeDays, x.supplier)
  }

  /** Creating an item and dropping its id gives back the payload, and an
      item is rebuilt from its payload and its id. */
  lemma CreateDraftRoundTrip(d: ItemDraft, x: InventoryItem, id: string)
    ensures DraftOf(Create(d, id)) == d && Create(d, id).id == id
    ensures Create(DraftOf(x), x.id) == x
  {
  }

  /** `{ ...x, ...p }`: each field the patch carries wins, every other field
      is kept. */
  function Merge(x: InventoryItem, p: ItemPatch): (r: InventoryItem)
    ensures (p.id.Some? ==> r.id == p.id.value) && (p.id.None? ==> r.id == x.id)
    ensures (p.name.Some? ==> r.name == p.name.value) && (p.name.None? ==> r.name == x.name)
    ensures (p.category.Some? ==> r.category == p.category.value) && (p.category.None? ==> r.category == x.category)
    ensures (p.quantity.Some? ==> r.quantity == p.quantity.value) && (p.quantity.None? ==> r.quantity == x.quantity)
    ensures (p.unitCost.Some? ==> r.unitCost == p.unitCost.value) && (p.unitCost.None? ==> r.unitCost == x.unitCost)
    ensures (p.location.Some? ==> r.location == p.location.value) && (p.location.None? ==> r.location == x.location)
    ensures (p.sku.Some? ==> r.sku == p.sku) && (p.sku.None? ==> r.sku == x.sku)
    ensures (p.reorderLevel.Some? ==> r.reorderLevel == p.reorderLevel) && (p.reorderLevel.None? ==> r.reorderLevel == x.reorderLevel)
    ensures (p.lastUpdated.Some? ==> r.lastUpdated == p.lastUpdated) && (p.lastUpdated.None? ==> r.lastUpdated == x.lastUpdated)
    ensures (p.description.Some? ==> r.description == p.description) && (p.description.None? ==> r.description == x.description)
    ensures (p.reorderPoint.Some? ==> r.reorderPoint == p.reorderPoint) && (p.reorderPoint.None? ==> r.reorderPoint == x.reorderPoint)
    ensures (p.leadTimeDays.Some? ==> r.leadTimeDays == p.leadTimeDays) && (p.leadTimeDays.None? ==> r.leadTimeDays == x.leadTimeDays)
    ensures (p.supplier.Some? ==> r.supplier == p.supplier) && (p.supplier.None? ==> r.supplier == x.supplier)
  {
    InventoryItem(p.id.GetOr(x.id), p.name.GetOr(x.name), p.category.GetOr(x.category),
      p.quantity.GetOr(x.quantity), p.unitCost.GetOr(x.unitCost), p.location.GetOr(x.location),
      Over(p.sku, x.sku), Over(p.reorderLevel, x.reorderLevel), Over(p.lastUpdated, x.lastUpdated),
      Over(p.description, x.description), Over(p.reorderPoint, x.reorderPoint),
      Over(p.leadTimeDays, x.leadTimeDays), Over(p.supplier, x.supplier))
  }

  /** The patch that sets every field of `x`. */
  function PatchOf(x: InventoryItem): ItemPatch {
    ItemPatch(Some(x.id), Some(x.name), Some(x.category), Some(x.quantity), Some(x.unitCost),
      Some(x.location), x.sku, x.reorderLevel, x.lastUpdated, x.description, x.reorderPoint,
      x.leadTimeDays, x.supplier)
  }

  /** The patch that applies `p` and then `q`. */
  function Then(p: ItemPatch, q: ItemPatch): ItemPatch {
    ItemPatch(Over(q.id, p.id), Over(q.name, p.name), Over(q.category, p.category),
      Over(q.quantity, p.quantity), Over(q.unitCost, p.unitCost), Over(q.location, p.location),
      Over(q.sku, p.sku), Over(q.reorderLevel, p.reorderLevel), Over(q.lastUpdated, p.lastUpdated),
      Over(q.description, p.description), Over(q.reorderPoint, p.reorderPoint),
      Over(q.leadTimeDays, p.leadTimeDays), Over(q.supplier, p.supplier))
  }

  /** An empty patch keeps the item, merging is idempotent, and two merges
      compose into one. */
  lemma MergeLaws(x: InventoryItem, p: ItemPatch, q: ItemPatch)
    ensures Merge(x, NoChanges) == x
    ensures Merge(Merge(x, p), p) == Merge(x, p)
    ensures Merge(Merge(x, p), q) == Merge(x, Then(p, q))
  {
  }

  /** A patch spelling out a whole item, every optional field present,
      turns any item into that item. */
  lemma MergeFullPatch(x: InventoryItem, y: InventoryItem)
    requires y.sku.Some? && y.reorderLevel.Some? && y.lastUpdated.Some? && y.description.Some?
    requires y.reorderPoint.Some? && y.leadTimeDays.Some? && y.supplier.Some?
    ensures Merge(x, PatchOf(y)) == y
  {
  }

  /** Updating one field touches that field only. */
  lemma MergeQuantityOnly(x: InventoryItem, q: int)
    ensures Merge(x, NoChanges.(quantity := Some(q))) == x.(quantity := q)
  {
  }

  /** `addInventoryItem`: appends the payload with an `INV-ddd` id. */
  function AddItem(s: seq<InventoryItem>, d: ItemDraft, digits: Text.Digits3): (r: Store.Step<InventoryItem, InventoryItem>)
    ensures Store.AddOutcome(s, r.value, r)
    ensures r.value.id == NewId(digits) && DraftOf(r.value) == d
  {
    Store.Add(s, Create(d, NewId(digits)))
  }

  /** `updateInventoryItem`. */
  function UpdateItem(s: seq<InventoryItem>, id: string, updates: ItemPatch): (r: Store.Step<InventoryItem, Option<InventoryItem>>)
    ensures Store.UpdateOutcome(s, id, updates, IdOf, Merge, r)
  {
    Store.Update(s, id, updates, IdOf, Merge)
  }

  /** `deleteInventoryItem`. */
  function DeleteItem(s: seq<InventoryItem>, id: string): (r: Store.Step<InventoryItem, bool>)
    ensures Store.DeleteOutcome(s, id, IdOf, r)
  {
    Store.Delete(s, id, IdOf)
  }

  /** A generated id has a dash where every seed id has a digit, so it never
      names a seed item; two adds that draw the same digits do collide. */
  lemma GeneratedIds(s: seq<InventoryItem>, d1: ItemDraft, d2: ItemDraft, digits: Text.Digits3)
    ensures !Store.HasId(Seeds, NewId(digits), IdOf)
    ensures AddItem(AddItem(s, d1, digits).items, d2, digits).value.id == AddItem(s, d1, digits).value.id
  {
    forall i | 0 <= i < |Seeds|
      ensures IdOf(Seeds[i]) != NewId(digits)
    {
      assert IdOf(Seeds[i])[3] == '0' != '-' == NewId(digits)[3];
    }
  }
}
