/**
 * Lot lookups shared by the administration and loss pages, and the stock write both pages issue
 * after recording doses: `inventoryService.update(item.id, { ...item, quantityOnHand: newQuantity })`.
 */
module Lots {

  import opened Wrappers
  import opened Records
  import opened Seqs
  import InventoryService

  /** The item holds that lot of that vaccine. */
  predicate IsLot(item: InventoryItem, vaccineId: string, lotNumber: string)
  {
    item.vaccineId == vaccineId && item.lotNumber == lotNumber
  }

  /** `inventory.find(item => item.vaccineId === vaccineId && item.lotNumber === lotNumber)`. */
  function FindLot(inventory: seq<InventoryItem>, vaccineId: string, lotNumber: string): (r: Option<InventoryItem>)
    ensures r.Some? ==> r.value in inventory && IsLot(r.value, vaccineId, lotNumber)
    ensures r.None? <==> forall i :: 0 <= i < |inventory| ==> !IsLot(inventory[i], vaccineId, lotNumber)
  {
    match FindFirst(inventory, (item: InventoryItem) => IsLot(item, vaccineId, lotNumber))
    case Some(i) => Some(inventory[i])
    case None => None
  }

  /** `getAvailableLots`: exactly the lots of the vaccine that still hold doses, in inventory order. */
  function AvailableLots(inventory: seq<InventoryItem>, vaccineId: string): (r: seq<InventoryItem>)
    ensures forall x :: x in r <==> x in inventory && x.vaccineId == vaccineId && x.quantityOnHand > 0
    ensures multiset(r) <= multiset(inventory)
  {
    Filter(inventory, (item: InventoryItem) => item.vaccineId == vaccineId && item.quantityOnHand > 0)
  }

  /**
   * The lot number filled in when a vaccine is chosen: only for a non-empty choice with exactly
   * one available lot, and then that lot's number.
   */
  function AutoFillLot(inventory: seq<InventoryItem>, vaccineId: string): (r: Option<string>)
    ensures r.Some? <==> vaccineId != "" && |AvailableLots(inventory, vaccineId)| == 1
    ensures r.Some? ==> forall x :: x in inventory && x.vaccineId == vaccineId && x.quantityOnHand > 0 ==> x.lotNumber == r.value
    ensures r.Some? ==> exists x :: x in inventory && x.vaccineId == vaccineId && x.quantityOnHand > 0 && x.lotNumber == r.value
  {
    var lots := AvailableLots(inventory, vaccineId);
    if vaccineId != "" && |lots| == 1 then
      assert lots[0] in lots;
      Some(lots[0].lotNumber)
    else None
  }

  /**
   * The stock write after `amount` doses left the lot: the item with its quantity lowered,
   * sent to the inventory service under the item's own id. The service rejects a falsy id and
   * otherwise echoes the item with `lastUpdated` stamped; no other field and no other lot changes.
   */
  function StockWrite(item: InventoryItem, amount: int, today: Day): (r: Result<InventoryItem, ServiceError>)
    ensures r.Err? <==> item.id == 0
    ensures r.Ok? ==> r.value.quantityOnHand == item.quantityOnHand - amount
    ensures r.Ok? ==> r.value.lastUpdated == Some(today)
    ensures r.Ok? ==> r.value.(quantityOnHand := item.quantityOnHand, lastUpdated := item.lastUpdated) == item
  {
    InventoryService.Update(item.id, Draft(Some(item.id), item.(quantityOnHand := item.quantityOnHand - amount)), today)
  }
}
