/**
 * The monthly reconciliation page: every lot's system count next to the count found on the
 * shelves, the reasons for the differences, a progress summary, and the finalisation that writes
 * the counted quantities back through the inventory service. The session walks three steps:
 * setup (the month), counting, and review.
 */
module Reconciliation {

  import opened Wrappers
  import opened Records
  import opened Forms
  import opened Seqs
  import opened Text
  import InventoryService

  /** One row of `reconciliationData`: the lot and what the count found. `None` is the blank count. */
  datatype Entry = Entry(
    item: InventoryItem,
    systemCount: int,
    physicalCount: Option<int>,
    difference: int,
    discrepancyReason: string,
    reconciled: bool)

  datatype Step = Setup | Counting | Review

  /** `loadData`'s row for a lot: system count from stock, not counted, no difference, no reason. */
  function NewEntry(item: InventoryItem): (e: Entry)
    ensures e.item == item && e.systemCount == item.quantityOnHand
    ensures e.physicalCount.None? && e.difference == 0 && e.discrepancyReason == "" && !e.reconciled
  {
    Entry(item, item.quantityOnHand, None, 0, "", false)
  }

  /**
   * What a row's fields say together: a counted row's difference is the count minus the system
   * count, a blank row has none, and a row is reconciled exactly when it is counted without a
   * difference.
   */
  predicate Consistent(e: Entry)
  {
    && (e.physicalCount.Some? ==> e.difference == e.physicalCount.value - e.systemCount)
    && (e.physicalCount.None? ==> e.difference == 0)
    && (e.reconciled <==> e.physicalCount.Some? && e.difference == 0)
  }

  /** The row after a count of `c`: the difference from the system count, reconciled iff none. */
  function WithCount(e: Entry, c: int): (r: Entry)
    ensures r.physicalCount == Some(c) && r.difference == c - e.systemCount
    ensures r.reconciled <==> c == e.systemCount
    ensures r.item == e.item && r.systemCount == e.systemCount && r.discrepancyReason == e.discrepancyReason
    ensures Consistent(r)
  {
    e.(physicalCount := Some(c), difference := c - e.systemCount, reconciled := c - e.systemCount == 0)
  }

  /** Entering the same count twice is entering it once. */
  lemma WithCountIdempotent(e: Entry, c: int)
    ensures WithCount(WithCount(e, c), c) == WithCount(e, c)
  {
  }

  predicate IsCounted(e: Entry) { e.physicalCount.Some? }
  predicate IsUncounted(e: Entry) { e.physicalCount.None? }
  predicate IsReconciled(e: Entry) { e.reconciled }
  /** `item.difference !== 0 && item.physicalCount !== ''`. */
  predicate HasDiscrepancy(e: Entry) { e.difference != 0 && e.physicalCount.Some? }
  /** `item.difference !== 0 && !item.discrepancyReason`. */
  predicate Unexplained(e: Entry) { e.difference != 0 && e.discrepancyReason == "" }
  /** `item.difference !== 0`: the rows finalisation writes. */
  predicate Differs(e: Entry) { e.difference != 0 }
  /** A row whose write the service refuses: it differs and its lot has the falsy id. */
  predicate Refused(e: Entry) { e.difference != 0 && e.item.id == 0 }

  /** `Math.round(counted / total * 100)`, rounding halves up as `Math.round` does. */
  function Progress(counted: nat, total: nat): (p: nat)
    requires counted <= total
    ensures p <= 100
    ensures total == 0 || counted == 0 ==> p == 0
    ensures 0 < total == counted ==> p == 100
    ensures total > 0 ==> 2 * total * p <= 200 * counted + total < 2 * total * (p + 1)
  {
    if total > 0 then
      var p := (200 * counted + total) / (2 * total);
      RoundedPercentBounds(counted, total, p);
      p
    else 0
  }

  /** Euclidean division by a positive divisor brackets the dividend. */
  lemma DivBrackets(x: int, d: int)
    requires d > 0
    ensures d * (x / d) <= x < d * (x / d) + d
  {
  }

  /** A positive factor can be cancelled from a strict inequality. */
  lemma CancelFactor(d: int, a: int, b: int)
    requires d > 0 && d * a < d * b
    ensures a < b
  {
    assert d * b - d * a == d * (b - a);
  }

  /** The bounds of the rounded percentage, one product at a time. */
  lemma RoundedPercentBounds(counted: nat, total: nat, p: int)
    requires 0 < total && counted <= total
    requires p == (200 * counted + total) / (2 * total)
    ensures 0 <= p <= 100
    ensures counted == 0 ==> p == 0
    ensures counted == total ==> p == 100
    ensures 2 * total * p <= 200 * counted + total < 2 * total * (p + 1)
  {
    var d := 2 * total;
    var x := 200 * counted + total;
    DivBrackets(x, d);
    assert d * p + d == d * (p + 1);
    CancelFactor(d, -1, p + 1);
    CancelFactor(d, p, 101);
    if counted == 0 {
      CancelFactor(d, p, 1);
    }
    if counted == total {
      CancelFactor(d, 100, p + 1);
    }
  }

  datatype Summary = Summary(totalItems: nat, itemsWithCounts: nat, itemsReconciled: nat,
                             itemsWithDiscrepancies: nat, progress: nat)

  /** `calculateSummary`. */
  function CalculateSummary(entries: seq<Entry>): (r: Summary)
    ensures r.totalItems == |entries|
    ensures r.itemsWithCounts == Count(entries, IsCounted) <= r.totalItems
    ensures r.itemsReconciled == Count(entries, IsReconciled)
    ensures r.itemsWithDiscrepancies == Count(entries, HasDiscrepancy)
    ensures r.progress == Progress(r.itemsWithCounts, r.totalItems) <= 100
  {
    var counted := Count(entries, IsCounted);
    Summary(|entries|, counted, Count(entries, IsReconciled), Count(entries, HasDiscrepancy), Progress(counted, |entries|))
  }

  /** Among consistent rows, each counted row is either reconciled or has a discrepancy. */
  lemma {:induction false} SummaryBalances(entries: seq<Entry>)
    requires forall i :: 0 <= i < |entries| ==> Consistent(entries[i])
    ensures var s := CalculateSummary(entries);
      s.itemsReconciled + s.itemsWithDiscrepancies == s.itemsWithCounts <= s.totalItems
  {
    if entries != [] {
      SummaryBalances(entries[1..]);
    }
  }

  const MonthMessage := "Please select a reconciliation month"

  function MissingCountsMessage(n: nat): string
  {
    NatToString(n) + " items are missing physical counts"
  }

  function UnexplainedMessage(n: nat): string
  {
    NatToString(n) + " items with discrepancies need explanations"
  }

  /**
   * `validateReconciliation`: a message for a missing month, then one giving how many rows are
   * not counted, then one giving how many differing rows lack a reason; each only when it applies.
   */
  function ValidateReconciliation(month: string, entries: seq<Entry>): (errors: seq<string>)
    ensures errors == [] <==>
      && month != ""
      && (forall i :: 0 <= i < |entries| ==> entries[i].physicalCount.Some?)
      && (forall i :: 0 <= i < |entries| ==> entries[i].difference != 0 ==> entries[i].discrepancyReason != "")
    ensures |errors| == (if month == "" then 1 else 0) + (if Count(entries, IsUncounted) > 0 then 1 else 0)
      + (if Count(entries, Unexplained) > 0 then 1 else 0)
    ensures month == "" ==> errors[0] == MonthMessage
    ensures Count(entries, IsUncounted) > 0 ==> MissingCountsMessage(Count(entries, IsUncounted)) in errors
    ensures Count(entries, Unexplained) > 0 ==> errors[|errors| - 1] == UnexplainedMessage(Count(entries, Unexplained))
  {
    var missing := Count(entries, IsUncounted);
    var unexplained := Count(entries, Unexplained);
    (if month == "" then [MonthMessage] else [])
      + (if missing > 0 then [MissingCountsMessage(missing)] else [])
      + (if unexplained > 0 then [UnexplainedMessage(unexplained)] else [])
  }

  /** The lot as written back: the counted quantity, stamped today. */
  function CountedLot(e: Entry, today: Day): InventoryItem
  {
    e.item.(quantityOnHand := e.physicalCount.GetOr(e.item.quantityOnHand), lastUpdated := Some(today))
  }

  function WrittenLot(today: Day): Entry -> InventoryItem
  {
    e => CountedLot(e, today)
  }

  /**
   * The `update` call for a row: `{...item, quantityOnHand: item.physicalCount, lastUpdated}`
   * under the row's own id, which the data also carries.
   */
  function UpdateFor(e: Entry, today: Day): (r: Result<InventoryItem, ServiceError>)
    ensures r.Err? <==> e.item.id == 0
    ensures r.Ok? ==> r.value == CountedLot(e, today)
  {
    var data := Draft(Some(e.item.id), e.item.(quantityOnHand := e.physicalCount.GetOr(e.item.quantityOnHand)));
    InventoryService.Update(e.item.id, data, today)
  }

  /** A row whose write the service accepts: it differs and its lot has a real id. */
  predicate Accepted(e: Entry) { e.difference != 0 && e.item.id != 0 }

  /** The lots written for the first `i + 1` rows: those for the first `i`, then row `i`'s if accepted. */
  lemma WrittenStep(rows: seq<Entry>, i: nat, today: Day)
    requires i < |rows|
    ensures Map(Filter(rows[..i + 1], Accepted), WrittenLot(today))
      == Map(Filter(rows[..i], Accepted), WrittenLot(today)) + (if Accepted(rows[i]) then [CountedLot(rows[i], today)] else [])
    ensures Count(rows[..i + 1], Refused) == Count(rows[..i], Refused) + (if Refused(rows[i]) then 1 else 0)
  {
    assert rows[..i + 1] == rows[..i] + [rows[i]];
    CountAppend(rows[..i], rows[i], Refused);
    FilterAppend(rows[..i], rows[i], Accepted);
    MapAppend(Filter(rows[..i], Accepted), rows[i], WrittenLot(today));
  }

  /** When no write is refused, the accepted rows are the differing rows. */
  lemma NoneRefused(rows: seq<Entry>, today: Day)
    requires forall j :: 0 <= j < |rows| ==> !Refused(rows[j])
    ensures Map(Filter(rows, Accepted), WrittenLot(today)) == Map(Filter(rows, Differs), WrittenLot(today))
  {
    FilterCongruent(rows, Accepted, Differs);
  }

  /**
   * The writes of a finalisation, in row order: an `update` for every differing row. The
   * result is refused when any write is; otherwise it is every written lot.
   */
  method WriteCounts(rows: seq<Entry>, today: Day) returns (failed: bool, updates: seq<InventoryItem>)
    ensures !failed <==> forall j :: 0 <= j < |rows| ==> !Refused(rows[j])
    ensures !failed ==> updates == Map(Filter(rows, Differs), WrittenLot(today))
  {
    updates := [];
    failed := false;
    for i := 0 to |rows|
      invariant failed <==> Count(rows[..i], Refused) > 0
      invariant updates == Map(Filter(rows[..i], Accepted), WrittenLot(today))
    {
      WrittenStep(rows, i, today);
      if Differs(rows[i]) {
        var written := UpdateFor(rows[i], today);
        if written.Err? {
          assert Refused(rows[i]);
          failed := true;
        } else {
          assert Accepted(rows[i]) && written.value == CountedLot(rows[i], today);
          updates := updates + [written.value];
        }
      } else {
        assert !Accepted(rows[i]) && !Refused(rows[i]);
      }
    }
    assert rows[..|rows|] == rows;
    if !failed {
      NoneRefused(rows, today);
    }
  }

  /** How `handleSubmitReconciliation` ends. */
  datatype Outcome =
    | Incomplete(message: string)
    | UpdateFailed(error: ServiceError)
    | Completed(updates: seq<InventoryItem>)

  /** One reconciliation session. `inventoryFixture` is what the inventory service's `getAll` returns. */
  class Session {
    const inventoryFixture: seq<InventoryItem>
    var entries: array<Entry>
    var physicalCounts: map<int, int>
    var selectedMonth: string
    var currentStep: Step

    /** Every row is consistent. */
    predicate Valid()
      reads this, entries
    {
      forall i :: 0 <= i < entries.Length ==> Consistent(entries[i])
    }

    /** `loadData` on mount: a row per lot and the current month (passed in, as 'YYYY-MM'). */
    constructor(inventoryFixture: seq<InventoryItem>, currentMonth: string)
      ensures this.inventoryFixture == inventoryFixture
      ensures entries[..] == Map(inventoryFixture, NewEntry)
      ensures physicalCounts == map[] && selectedMonth == currentMonth && currentStep == Setup
      ensures Valid()
    {
      this.inventoryFixture := inventoryFixture;
      entries := new Entry[|inventoryFixture|](i requires 0 <= i < |inventoryFixture| => NewEntry(inventoryFixture[i]));
      physicalCounts := map[];
      selectedMonth := currentMonth;
      currentStep := Setup;
    }

    /** `loadData`: the rows are rebuilt from the fixture and the month set to the current one. */
    method LoadData(currentMonth: string)
      modifies this
      ensures fresh(entries) && entries[..] == Map(inventoryFixture, NewEntry)
      ensures selectedMonth == currentMonth
      ensures physicalCounts == old(physicalCounts) && currentStep == old(currentStep)
      ensures Valid()
    {
      entries := new Entry[|inventoryFixture|](i requires 0 <= i < |inventoryFixture| => NewEntry(inventoryFixture[i]));
      selectedMonth := currentMonth;
    }

    /** `calculateSummary` over the current rows. */
    function CurrentSummary(): Summary
      reads this, entries
    {
      CalculateSummary(entries[..])
    }

    /**
     * `handlePhysicalCountChange`: the box's text through `parseInt(count) || 0` (so a blank or
     * non-numeric box counts 0 and a negative number stays negative) becomes the count of every
     * row of that lot; all other rows stay as they were.
     */
    method SetPhysicalCount(itemId: int, count: Input)
      requires Valid()
      modifies this, entries
      ensures entries == old(entries) && Valid()
      ensures forall i :: 0 <= i < entries.Length ==>
        entries[i] == if old(entries[i]).item.id == itemId then WithCount(old(entries[i]), ParseIntOr0(count)) else old(entries[i])
      ensures physicalCounts == old(physicalCounts)[itemId := ParseIntOr0(count)]
      ensures selectedMonth == old(selectedMonth) && currentStep == old(currentStep)
    {
      var n := ParseIntOr0(count);
      physicalCounts := physicalCounts[itemId := n];
      for i := 0 to entries.Length
        modifies entries
        invariant forall j :: 0 <= j < i ==>
          entries[j] == if old(entries[j]).item.id == itemId then WithCount(old(entries[j]), n) else old(entries[j])
        invariant forall j :: i <= j < entries.Length ==> entries[j] == old(entries[j])
      {
        if entries[i].item.id == itemId {
          entries[i] := WithCount(entries[i], n);
        }
      }
    }

    /** `handleDiscrepancyReasonChange`: only the reason of that lot's rows changes. */
    method SetDiscrepancyReason(itemId: int, reason: string)
      requires Valid()
      modifies this, entries
      ensures entries == old(entries) && Valid()
      ensures forall i :: 0 <= i < entries.Length ==>
        entries[i] == if old(entries[i]).item.id == itemId then old(entries[i]).(discrepancyReason := reason) else old(entries[i])
      ensures physicalCounts == old(physicalCounts)
      ensures selectedMonth == old(selectedMonth) && currentStep == old(currentStep)
    {
      for i := 0 to entries.Length
        modifies entries
        invariant forall j :: 0 <= j < i ==>
          entries[j] == if old(entries[j]).item.id == itemId then old(entries[j]).(discrepancyReason := reason) else old(entries[j])
        invariant forall j :: i <= j < entries.Length ==> entries[j] == old(entries[j])
      {
        if entries[i].item.id == itemId {
          entries[i] := entries[i].(discrepancyReason := reason);
        }
      }
    }

    /** The month box. */
    method SetMonth(month: string)
      modifies this
      ensures selectedMonth == month
      ensures entries == old(entries) && physicalCounts == old(physicalCounts) && currentStep == old(currentStep)
    {
      selectedMonth := month;
    }

    /** The three step buttons at the top, and the two Back buttons: they go anywhere, unguarded. */
    method GoToStep(step: Step)
      modifies this
      ensures currentStep == step
      ensures entries == old(entries) && physicalCounts == old(physicalCounts) && selectedMonth == old(selectedMonth)
    {
      currentStep := step;
    }

    /** "Start Counting", shown on the setup step only and disabled while no month is chosen. */
    method StartCounting()
      requires currentStep == Setup
      modifies this
      ensures currentStep == if old(selectedMonth) != "" then Counting else Setup
      ensures entries == old(entries) && physicalCounts == old(physicalCounts) && selectedMonth == old(selectedMonth)
    {
      if selectedMonth != "" {
        currentStep := Counting;
      }
    }

    /**
     * "Review & Finalize", shown on the counting step only and disabled while no row is counted.
     * The review then opens on a summary in which every counted row is either reconciled or
     * has a discrepancy.
     */
    method ReviewAndFinalize()
      requires currentStep == Counting && Valid()
      modifies this
      ensures currentStep == if CurrentSummary().itemsWithCounts > 0 then Review else Counting
      ensures entries == old(entries) && physicalCounts == old(physicalCounts) && selectedMonth == old(selectedMonth)
      ensures Valid()
      ensures currentStep == Review ==>
        0 < CurrentSummary().itemsWithCounts == CurrentSummary().itemsReconciled + CurrentSummary().itemsWithDiscrepancies
    {
      SummaryBalances(entries[..]);
      if CurrentSummary().itemsWithCounts > 0 {
        currentStep := Review;
      }
    }

    /**
     * `handleSubmitReconciliation`: with any validation message nothing is written and the
     * messages are shown joined. Otherwise every differing row is written with its counted
     * quantity; the writes all go out, and the finalisation fails when one is refused (a row
     * whose lot has the falsy id). When all succeed, the session returns to setup with no counts
     * and reloads, which shows the fixture again: the service stores none of the writes. The
     * "Finalize Reconciliation" button is shown on the review step only.
     */
    method HandleSubmit(today: Day, currentMonth: string) returns (outcome: Outcome)
      requires currentStep == Review && Valid()
      modifies this
      ensures Valid()
      ensures outcome.Incomplete? <==> ValidateReconciliation(old(selectedMonth), old(entries[..])) != []
      ensures outcome.Incomplete? ==> outcome.message == Join(ValidateReconciliation(old(selectedMonth), old(entries[..])), ", ")
      ensures outcome.UpdateFailed? <==>
        ValidateReconciliation(old(selectedMonth), old(entries[..])) == []
        && exists i :: 0 <= i < |old(entries[..])| && Refused(old(entries[..])[i])
      ensures outcome.UpdateFailed? ==> outcome.error == IdRequired
      ensures outcome.Completed? ==> outcome.updates == Map(Filter(old(entries[..]), Differs), WrittenLot(today))
      ensures outcome.Completed? ==>
        && fresh(entries) && entries[..] == Map(inventoryFixture, NewEntry)
        && currentStep == Setup && physicalCounts == map[] && selectedMonth == currentMonth
      ensures !outcome.Completed? ==>
        && entries == old(entries) && currentStep == old(currentStep)
        && physicalCounts == old(physicalCounts) && selectedMonth == old(selectedMonth)
    {
      var errors := ValidateReconciliation(selectedMonth, entries[..]);
      if errors != [] {
        return Incomplete(Join(errors, ", "));
      }
      var failed, updates := WriteCounts(entries[..], today);
      if failed {
        return UpdateFailed(IdRequired);
      }
      outcome := Completed(updates);
      currentStep := Setup;
      physicalCounts := map[];
      LoadData(currentMonth);
    }
  }
}
