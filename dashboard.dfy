/**
 * The dashboard: metric cards over the inventory and the administrations, the short lists under
 * them, and the expiration badge on each lot. Dates are day numbers and "now" lies strictly
 * inside `today`.
 */
module Dashboard {

  import opened Wrappers
  import opened Records
  import opened Forms
  import opened Seqs
  import opened Sorting
  import opened Alerts

  /** What `loadDashboardData` stores. */
  datatype DashboardData = DashboardData(
    totalVaccines: nat,
    totalDoses: int,
    expiringVaccines: nat,
    lowStockItems: nat,
    recentAdministrations: seq<AdministrationRecord>,
    expiringItems: seq<InventoryItem>,
    lowStockAlerts: seq<InventoryItem>)

  function QuantityOnHand(item: InventoryItem): int { item.quantityOnHand }

  /**
   * `new Date(item.expirationDate) <= addDays(new Date(), 30)`: a date at midnight lies on or
   * before a moment inside day `today + 30` exactly when it is at most that day.
   */
  predicate ExpiringSoon(item: InventoryItem, today: Day)
  {
    OnOrBefore(item.expirationDate, today + 30)
  }

  predicate LowOnStock(item: InventoryItem)
  {
    item.quantityOnHand < 10
  }

  /**
   * `new Date(admin.administeredDate) >= subDays(new Date(), 7)`: the moment seven days ago lies
   * strictly inside day `today - 7`, so only later days pass; a missing date never does.
   */
  predicate RecentlyGiven(record: AdministrationRecord, today: Day)
  {
    record.administeredDate.Some? && record.administeredDate.value > today - 7
  }

  /**
   * The comparator `new Date(b) - new Date(a)` read as "a may stay before b": a is at least as
   * new as b. A missing date makes the difference NaN, which sort takes as equal.
   */
  predicate NewerFirst(a: AdministrationRecord, b: AdministrationRecord)
  {
    a.administeredDate.Some? && b.administeredDate.Some? ==> a.administeredDate.value >= b.administeredDate.value
  }

  /** The administrations of the last seven days, newest first, at most five. */
  function RecentAdministrations(administrations: seq<AdministrationRecord>, today: Day): seq<AdministrationRecord>
  {
    Take(SortBy(Filter(administrations, (r: AdministrationRecord) => RecentlyGiven(r, today)), NewerFirst), 5)
  }

  /**
   * `loadDashboardData` over what the two services return. The expiring and low-stock lists
   * are the first five matching lots, in inventory order.
   */
  function LoadDashboard(inventory: seq<InventoryItem>, administrations: seq<AdministrationRecord>, today: Day): (r: DashboardData)
    ensures r.totalVaccines == |inventory|
    ensures r.totalDoses == Sum(inventory, QuantityOnHand)
    ensures r.expiringVaccines == |Filter(inventory, (item: InventoryItem) => ExpiringSoon(item, today))|
    ensures r.lowStockItems == |Filter(inventory, LowOnStock)|
    ensures |r.expiringItems| == if r.expiringVaccines <= 5 then r.expiringVaccines else 5
    ensures |r.lowStockAlerts| == if r.lowStockItems <= 5 then r.lowStockItems else 5
    ensures forall x :: x in r.expiringItems ==> x in inventory && ExpiringSoon(x, today)
    ensures forall x :: x in r.lowStockAlerts ==> x in inventory && LowOnStock(x)
    ensures r.expiringItems == Filter(inventory, (item: InventoryItem) => ExpiringSoon(item, today))[..|r.expiringItems|]
    ensures r.lowStockAlerts == Filter(inventory, LowOnStock)[..|r.lowStockAlerts|]
    ensures |r.recentAdministrations| <= 5
    ensures forall x :: x in r.recentAdministrations ==> x in administrations && RecentlyGiven(x, today)
  {
    var expiring := Filter(inventory, (item: InventoryItem) => ExpiringSoon(item, today));
    var low := Filter(inventory, LowOnStock);
    var recent := RecentAdministrations(administrations, today);
    forall x | x in recent
      ensures x in administrations && RecentlyGiven(x, today)
    {
      SortByMembers(Filter(administrations, (r: AdministrationRecord) => RecentlyGiven(r, today)), NewerFirst, x);
    }
    forall x | x in Take(expiring, 5)
      ensures x in inventory && ExpiringSoon(x, today)
    {
      assert x in expiring;
    }
    forall x | x in Take(low, 5)
      ensures x in inventory && LowOnStock(x)
    {
      assert x in low;
    }
    DashboardData(|inventory|, Sum(inventory, QuantityOnHand), |expiring|, |low|, recent, Take(expiring, 5), Take(low, 5))
  }

  /** The lots counted as expiring number at least the lots shown, and every lot of the list is counted. */
  lemma CountsCoverLists(inventory: seq<InventoryItem>, administrations: seq<AdministrationRecord>, today: Day)
    ensures var d := LoadDashboard(inventory, administrations, today);
      && |d.expiringItems| <= d.expiringVaccines <= d.totalVaccines
      && |d.lowStockAlerts| <= d.lowStockItems <= d.totalVaccines
      && d.expiringVaccines == Count(inventory, (item: InventoryItem) => ExpiringSoon(item, today))
      && d.lowStockItems == Count(inventory, LowOnStock)
  {
    CountIsFilterLength(inventory, (item: InventoryItem) => ExpiringSoon(item, today));
    CountIsFilterLength(inventory, LowOnStock);
  }

  /**
   * The recent list is newest first, and it holds the newest recent administrations: one of
   * the last seven days left out is no newer than the last one shown.
   */
  lemma RecentAreNewestFirst(administrations: seq<AdministrationRecord>, today: Day)
    ensures var recent := RecentAdministrations(administrations, today);
      forall i, j :: 0 <= i < j < |recent| ==> NewerFirst(recent[i], recent[j])
    ensures var recent := RecentAdministrations(administrations, today);
      forall x :: x in administrations && RecentlyGiven(x, today) && x !in recent ==>
        |recent| == 5 && NewerFirst(recent[4], x)
  {
    var given := Filter(administrations, (r: AdministrationRecord) => RecentlyGiven(r, today));
    var sorted := SortBy(given, NewerFirst);
    var recent := Take(sorted, 5);
    assert TotalPreorderOn(given, NewerFirst);
    SortBySorted(given, NewerFirst);
    forall x | x in administrations && RecentlyGiven(x, today) && x !in recent
      ensures |recent| == 5 && NewerFirst(recent[4], x)
    {
      assert x in given;
      SortByMembers(given, NewerFirst, x);
      var k :| 0 <= k < |sorted| && sorted[k] == x;
      assert k >= |recent|;
      assert recent[4] == sorted[4];
    }
  }

  /** The badge beside a lot's expiration date. */
  datatype ExpirationBadge =
    | ExpiredBadge
    | ExpiresWithinWeek(days: int)
    | ExpiresWithinMonth(days: int)
    | GoodBadge

  /**
   * `getExpirationBadge`: expired below zero days, an error badge up to 7, a warning badge up to
   * 30, good otherwise; a lot without a date has NaN days and is shown as good.
   */
  function ExpirationBadgeOf(expirationDate: Option<Day>, today: Day): (r: ExpirationBadge)
    ensures r == ExpiredBadge <==> expirationDate.Some? && expirationDate.value < today
    ensures r.ExpiresWithinWeek? <==> expirationDate.Some? && today <= expirationDate.value <= today + 7
    ensures r.ExpiresWithinMonth? <==> expirationDate.Some? && today + 7 < expirationDate.value <= today + 30
    ensures r.ExpiresWithinWeek? || r.ExpiresWithinMonth? ==> r.days == expirationDate.value - today
    ensures r == GoodBadge <==> !OnOrBefore(expirationDate, today + 30)
  {
    var days := DaysUntilExpiration(expirationDate, today);
    if LessThan(days, 0) then ExpiredBadge
    else if AtMost(days, 7) then ExpiresWithinWeek(days.v)
    else if AtMost(days, 30) then ExpiresWithinMonth(days.v)
    else GoodBadge
  }

  /**
   * The badge agrees with the inventory page's alert level on the same lot: expired, critical
   * and warning map to the three dated badges, and both low stock and good show as good.
   */
  lemma BadgeAgreesWithAlertLevel(item: InventoryItem, today: Day)
    ensures var badge := ExpirationBadgeOf(item.expirationDate, today);
      && (badge == ExpiredBadge <==> AlertLevelOf(item, today) == Expired)
      && (badge.ExpiresWithinWeek? <==> AlertLevelOf(item, today) == Critical)
      && (badge.ExpiresWithinMonth? <==> AlertLevelOf(item, today) == Warning)
      && (badge == GoodBadge <==> AlertLevelOf(item, today) in {LowStock, Good})
  {
  }

  /** A lot whose badge is not good is one the expiring count takes in. */
  lemma BadgedLotsAreExpiring(item: InventoryItem, today: Day)
    ensures ExpirationBadgeOf(item.expirationDate, today) != GoodBadge <==> ExpiringSoon(item, today)
  {
  }
}
