/**
 * The mock receipt service: lookups over the fixed list `getAll` returns (the `fixture`
 * parameter), and writes that answer without storing anything.
 */
module ReceiptService {

  import opened Wrappers
  import opened Records
  import opened Seqs

  /** `getById`: the first receipt with that id, or a rejection naming the id. */
  function GetById(fixture: seq<Receipt>, id: int): (r: Result<Receipt, ServiceError>)
    ensures r.Ok? ==> r.value in fixture && r.value.id == id
    ensures r.Err? <==> forall i :: 0 <= i < |fixture| ==> fixture[i].id != id
    ensures r.Err? ==> r.error == NotFound(id)
  {
    match FindFirst(fixture, (receipt: Receipt) => receipt.id == id)
    case Some(i) => Ok(fixture[i])
    case None => Err(NotFound(id))
  }

  /**
   * `create`: rejects when `vaccineId`, `lotNumber` or `quantitySent` is falsy; otherwise copies
   * the data, with `receivedDate` defaulting to today and `status` to 'pending'.
   */
  function Create(data: Draft<Receipt>, now: int, today: Day): (r: Result<Receipt, ServiceError>)
    ensures r.Err? <==> data.fields.vaccineId == "" || data.fields.lotNumber == "" || data.fields.quantitySent == 0
    ensures r.Err? ==> r.error == MissingRequiredFields
    ensures r.Ok? ==> r.value.id == (if data.id.Some? then data.id.value else now)
    ensures r.Ok? ==> r.value.receivedDate == (if data.fields.receivedDate.Some? then data.fields.receivedDate else Some(today))
    ensures r.Ok? ==> r.value.status == (if data.fields.status == "" then "pending" else data.fields.status)
    ensures r.Ok? ==> r.value.(id := data.fields.id, receivedDate := data.fields.receivedDate, status := data.fields.status) == data.fields
  {
    var d := data.fields;
    if d.vaccineId == "" || d.lotNumber == "" || d.quantitySent == 0 then Err(MissingRequiredFields)
    else Ok(d.(id := data.id.GetOr(now),
               receivedDate := Some(d.receivedDate.GetOr(today)),
               status := if d.status == "" then "pending" else d.status))
  }

  /** `update`: rejects a falsy id; otherwise the data under that id (an id in the data wins). */
  function Update(id: int, data: Draft<Receipt>): (r: Result<Receipt, ServiceError>)
    ensures r.Err? <==> id == 0
    ensures r.Err? ==> r.error == IdRequired
    ensures r.Ok? ==> r.value.id == (if data.id.Some? then data.id.value else id)
    ensures r.Ok? ==> r.value.(id := data.fields.id) == data.fields
  {
    if id == 0 then Err(IdRequired) else Ok(data.fields.(id := data.id.GetOr(id)))
  }

  /** `delete`: rejects a falsy id, otherwise a confirmation. */
  function Delete(id: int): (r: Result<string, ServiceError>)
    ensures r.Err? <==> id == 0
    ensures r.Err? ==> r.error == IdRequired
  {
    if id == 0 then Err(IdRequired) else Ok("Receipt record deleted successfully")
  }

  /** `getByStatus`: exactly the receipts with that status, in fixture order. */
  function GetByStatus(fixture: seq<Receipt>, status: string): (r: seq<Receipt>)
    ensures forall x :: x in r <==> x in fixture && x.status == status
    ensures multiset(r) <= multiset(fixture)
  {
    Filter(fixture, (receipt: Receipt) => receipt.status == status)
  }

  function Sent(receipt: Receipt): int { receipt.quantitySent }
  function Received(receipt: Receipt): int { receipt.quantityReceived }
  function Passed(receipt: Receipt): int { receipt.dosesPassed }
  function Failed(receipt: Receipt): int { receipt.dosesFailed }

  /** The integer part of `getSummary` (the two rates are floats and are not modelled). */
  datatype ReceiptSummary = ReceiptSummary(totalSent: int, totalReceived: int, totalPassed: int, totalFailed: int)

  /** `getSummary`: the four column totals. */
  function GetSummary(fixture: seq<Receipt>): (r: ReceiptSummary)
    ensures r.totalSent == Sum(fixture, Sent) && r.totalReceived == Sum(fixture, Received)
    ensures r.totalPassed == Sum(fixture, Passed) && r.totalFailed == Sum(fixture, Failed)
  {
    ReceiptSummary(Sum(fixture, Sent), Sum(fixture, Received), Sum(fixture, Passed), Sum(fixture, Failed))
  }

  /** When every receipt's inspection accounts for all received doses, so do the totals. */
  lemma SummaryBalances(fixture: seq<Receipt>)
    requires forall i :: 0 <= i < |fixture| ==> fixture[i].dosesPassed + fixture[i].dosesFailed == fixture[i].quantityReceived
    ensures GetSummary(fixture).totalPassed + GetSummary(fixture).totalFailed == GetSummary(fixture).totalReceived
  {
    SumAdd(fixture, Passed, Failed, Received);
  }
}
