/**
 * The five-way stock alert of an inventory lot, decided from the days left until it expires and
 * from its quantity. The same ladder appears twice in the pages: as `getAlertLevel` on the
 * inventory page and as `getInventoryStatus` on the reports page.
 */
module Alerts {

  import opened Wrappers
  import opened Records
  import opened Forms

  datatype AlertLevel = Expired | Critical | Warning | LowStock | Good

  /**
   * Whole days from today until the expiration date. A date 'YYYY-MM-DD' denotes midnight UTC
   * and "now" lies strictly after today's midnight, so rounding the difference up gives the
   * difference of the day numbers. A missing date gives NaN.
   */
  function DaysUntilExpiration(expirationDate: Option<Day>, today: Day): (r: JsNum)
    ensures r.Int? <==> expirationDate.Some?
    ensures r.Int? ==> r.v == expirationDate.value - today
  {
    match expirationDate
    case Some(d) => Int(d - today)
    case None => NaN
  }

  /**
   * The alert ladder, checked in this order: expired (days < 0), critical (<= 7), warning
   * (<= 30), low stock (quantity < 10), good. A lot without an expiration date skips the first
   * three rungs, since every comparison with NaN is false.
   */
  function AlertLevelOf(item: InventoryItem, today: Day): (r: AlertLevel)
    ensures r == Expired <==> item.expirationDate.Some? && item.expirationDate.value < today
    ensures r == Critical <==> item.expirationDate.Some? && today <= item.expirationDate.value <= today + 7
    ensures r == Warning <==> item.expirationDate.Some? && today + 7 < item.expirationDate.value <= today + 30
    ensures r == LowStock <==> !OnOrBefore(item.expirationDate, today + 30) && item.quantityOnHand < 10
    ensures r == Good <==> !OnOrBefore(item.expirationDate, today + 30) && item.quantityOnHand >= 10
  {
    var days := DaysUntilExpiration(item.expirationDate, today);
    if LessThan(days, 0) then Expired
    else if AtMost(days, 7) then Critical
    else if AtMost(days, 30) then Warning
    else if item.quantityOnHand < 10 then LowStock
    else Good
  }

  /** How far along the ladder a level is; time only ever moves a lot up this scale. */
  function Severity(level: AlertLevel): nat
  {
    match level
    case Good => 0
    case LowStock => 0
    case Warning => 1
    case Critical => 2
    case Expired => 3
  }

  /**
   * As the days pass (and the quantity stays), a lot's alert never improves: it can only move
   * from good or low stock to warning, critical and expired.
   */
  lemma AlertLevelWorsensOverTime(item: InventoryItem, today: Day, later: Day)
    requires today <= later
    ensures Severity(AlertLevelOf(item, today)) <= Severity(AlertLevelOf(item, later))
    ensures Severity(AlertLevelOf(item, later)) == 0 ==> AlertLevelOf(item, later) == AlertLevelOf(item, today)
  {
  }
}
