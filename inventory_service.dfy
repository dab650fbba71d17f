/**
 * The mock inventory service. It keeps no state: every read works on the fixed list that
 * `getAll` returns (the `fixture` parameter), and `create`, `update` and `delete` only answer
 * with a record or a message; none of them yields a new fixture.
 */
module InventoryService {

  import opened Wrappers
  import opened Records
  import opened Seqs

  /** The predicate `item => item.id === id`. */
  function HasId(id: int): InventoryItem -> bool
  {
    (item: InventoryItem) => item.id == id
  }

  /** `getById`: the first item with that id, or a rejection naming the id. */
  function GetById(fixture: seq<InventoryItem>, id: int): (r: Result<InventoryItem, ServiceError>)
    ensures r.Ok? ==> r.value in fixture && r.value.id == id
    ensures r.Ok? ==> exists i :: 0 <= i < |fixture| && fixture[i] == r.value && forall j :: 0 <= j < i ==> fixture[j].id != id
    ensures r.Err? <==> forall i :: 0 <= i < |fixture| ==> fixture[i].id != id
    ensures r.Err? ==> r.error == NotFound(id)
  {
    match FindFirst(fixture, HasId(id))
    case Some(i) => Ok(fixture[i])
    case None => Err(NotFound(id))
  }

  /**
   * `create`: rejects when `vaccineId`, `lotNumber` or `quantityOnHand` is falsy (a quantity of
   * 0 included); otherwise the data's fields with the id `now` (an id in the data wins, since it
   * is spread after) and `lastUpdated` set to `today`.
   */
  function Create(data: Draft<InventoryItem>, now: int, today: Day): (r: Result<InventoryItem, ServiceError>)
    ensures r.Err? <==> data.fields.vaccineId == "" || data.fields.lotNumber == "" || data.fields.quantityOnHand == 0
    ensures r.Err? ==> r.error == MissingRequiredFields
    ensures r.Ok? ==> r.value.id == (if data.id.Some? then data.id.value else now)
    ensures r.Ok? ==> r.value.lastUpdated == Some(today)
    ensures r.Ok? ==> r.value.(id := data.fields.id, lastUpdated := data.fields.lastUpdated) == data.fields
  {
    var d := data.fields;
    if d.vaccineId == "" || d.lotNumber == "" || d.quantityOnHand == 0 then Err(MissingRequiredFields)
    else Ok(d.(id := data.id.GetOr(now), lastUpdated := Some(today)))
  }

  /**
   * `update`: rejects a falsy id; otherwise the data's fields under that id (an id in the data
   * overrides the argument) with `lastUpdated` overwritten.
   */
  function Update(id: int, data: Draft<InventoryItem>, today: Day): (r: Result<InventoryItem, ServiceError>)
    ensures r.Err? <==> id == 0
    ensures r.Err? ==> r.error == IdRequired
    ensures r.Ok? ==> r.value.id == (if data.id.Some? then data.id.value else id)
    ensures r.Ok? ==> r.value.lastUpdated == Some(today)
    ensures r.Ok? ==> r.value.(id := data.fields.id, lastUpdated := data.fields.lastUpdated) == data.fields
  {
    if id == 0 then Err(IdRequired)
    else Ok(data.fields.(id := data.id.GetOr(id), lastUpdated := Some(today)))
  }

  /** `delete`: rejects a falsy id, otherwise a confirmation. */
  function Delete(id: int): (r: Result<string, ServiceError>)
    ensures r.Err? <==> id == 0
    ensures r.Err? ==> r.error == IdRequired
  {
    if id == 0 then Err(IdRequired) else Ok("Item deleted successfully")
  }

  /** `getLowStock`: exactly the items at or under their minimum stock, in fixture order. */
  function GetLowStock(fixture: seq<InventoryItem>): (r: seq<InventoryItem>)
    ensures forall x :: x in r <==> x in fixture && x.quantityOnHand <= x.minimumStock
    ensures multiset(r) <= multiset(fixture)
  {
    Filter(fixture, (item: InventoryItem) => item.quantityOnHand <= item.minimumStock)
  }

  /** The window `getExpiring` looks ahead, 30 days when the argument is left out. */
  function ExpiringWindow(days: Option<int>): int
  {
    days.GetOr(30)
  }

  /**
   * `getExpiring(days = 30)`: exactly the items whose expiration date is on or before
   * today + days; an item without a date never qualifies.
   */
  function GetExpiring(fixture: seq<InventoryItem>, today: Day, days: Option<int>): (r: seq<InventoryItem>)
    ensures forall x :: x in r <==> x in fixture && OnOrBefore(x.expirationDate, today + ExpiringWindow(days))
    ensures multiset(r) <= multiset(fixture)
  {
    var cutoff := today + ExpiringWindow(days);
    Filter(fixture, (item: InventoryItem) => OnOrBefore(item.expirationDate, cutoff))
  }

  /** A wider look-ahead finds every item a narrower one finds. */
  lemma GetExpiringMonotone(fixture: seq<InventoryItem>, today: Day, d1: int, d2: int)
    requires d1 <= d2
    ensures forall x :: x in GetExpiring(fixture, today, Some(d1)) ==> x in GetExpiring(fixture, today, Some(d2))
  {
  }
}
