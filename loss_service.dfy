/**
 * The mock loss service: lookups and filters over the fixed list `getAll` returns (the
 * `fixture` parameter), and writes that answer without storing anything.
 */
module LossService {

  import opened Wrappers
  import opened Records
  import opened Seqs

  /** `getById`: the first loss record with that id, or a rejection naming the id. */
  function GetById(fixture: seq<LossRecord>, id: int): (r: Result<LossRecord, ServiceError>)
    ensures r.Ok? ==> r.value in fixture && r.value.id == id
    ensures r.Err? <==> forall i :: 0 <= i < |fixture| ==> fixture[i].id != id
    ensures r.Err? ==> r.error == NotFound(id)
  {
    match FindFirst(fixture, (loss: LossRecord) => loss.id == id)
    case Some(i) => Ok(fixture[i])
    case None => Err(NotFound(id))
  }

  /**
   * `create`: rejects when `vaccineId`, `lotNumber`, `quantity` or `reason` is falsy; otherwise
   * copies the data and fills the defaults `reportedDate` = today, `trainingCompleted` = false,
   * `wastageType` = 'Unknown' where the data has a falsy value.
   */
  function Create(data: Draft<LossRecord>, now: int, today: Day): (r: Result<LossRecord, ServiceError>)
    ensures r.Err? <==> data.fields.vaccineId == "" || data.fields.lotNumber == "" || data.fields.quantity == 0 || data.fields.reason == ""
    ensures r.Err? ==> r.error == MissingRequiredFields
    ensures r.Ok? ==> r.value.id == (if data.id.Some? then data.id.value else now)
    ensures r.Ok? ==> r.value.reportedDate == (if data.fields.reportedDate.Some? then data.fields.reportedDate else Some(today))
    ensures r.Ok? ==> r.value.trainingCompleted == data.fields.trainingCompleted
    ensures r.Ok? ==> r.value.wastageType == (if data.fields.wastageType == "" then "Unknown" else data.fields.wastageType)
    ensures r.Ok? ==> r.value.(id := data.fields.id, reportedDate := data.fields.reportedDate, wastageType := data.fields.wastageType) == data.fields
  {
    var d := data.fields;
    if d.vaccineId == "" || d.lotNumber == "" || d.quantity == 0 || d.reason == "" then Err(MissingRequiredFields)
    else Ok(d.(id := data.id.GetOr(now),
               reportedDate := Some(d.reportedDate.GetOr(today)),
               wastageType := if d.wastageType == "" then "Unknown" else d.wastageType))
  }

  /** `update`: rejects a falsy id; otherwise the data under that id (an id in the data wins). */
  function Update(id: int, data: Draft<LossRecord>): (r: Result<LossRecord, ServiceError>)
    ensures r.Err? <==> id == 0
    ensures r.Err? ==> r.error == IdRequired
    ensures r.Ok? ==> r.value.id == (if data.id.Some? then data.id.value else id)
    ensures r.Ok? ==> r.value.(id := data.fields.id) == data.fields
  {
    if id == 0 then Err(IdRequired) else Ok(data.fields.(id := data.id.GetOr(id)))
  }

  /** `delete`: rejects a falsy id, otherwise a confirmation. */
  function Delete(id: int): (r: Result<string, ServiceError>)
    ensures r.Err? <==> id == 0
    ensures r.Err? ==> r.error == IdRequired
  {
    if id == 0 then Err(IdRequired) else Ok("Loss record deleted successfully")
  }

  /** `getByReason`: exactly the records with that reason, in fixture order. */
  function GetByReason(fixture: seq<LossRecord>, reason: string): (r: seq<LossRecord>)
    ensures forall x :: x in r <==> x in fixture && x.reason == reason
    ensures multiset(r) <= multiset(fixture)
  {
    Filter(fixture, (loss: LossRecord) => loss.reason == reason)
  }

  /** `getByDateRange`: exactly the records reported within [start, end], both ends included. */
  function GetByDateRange(fixture: seq<LossRecord>, start: Day, end: Day): (r: seq<LossRecord>)
    ensures forall x :: x in r <==> x in fixture && InRange(x.reportedDate, start, end)
    ensures multiset(r) <= multiset(fixture)
  {
    Filter(fixture, (loss: LossRecord) => InRange(loss.reportedDate, start, end))
  }

  /** The integer part of `getSummary` (the dollar values are floats and are not modelled). */
  datatype LossSummary = LossSummary(
    totalQuantity: int,
    totalRecords: nat,
    preventableLosses: nat,
    nonPreventableLosses: nat)

  function Quantity(loss: LossRecord): int
  {
    loss.quantity
  }

  /**
   * `getSummary`: the total lost quantity, the record count, and how many records are marked
   * 'Preventable' and 'Non-preventable'; the two kinds never add up to more than the records.
   */
  function GetSummary(fixture: seq<LossRecord>): (r: LossSummary)
    ensures r.totalRecords == |fixture|
    ensures r.totalQuantity == Sum(fixture, Quantity)
    ensures r.preventableLosses + r.nonPreventableLosses <= r.totalRecords
    ensures r.preventableLosses == |GetByWastageType(fixture, "Preventable")|
    ensures r.nonPreventableLosses == |GetByWastageType(fixture, "Non-preventable")|
  {
    var preventable := (loss: LossRecord) => loss.wastageType == "Preventable";
    var nonPreventable := (loss: LossRecord) => loss.wastageType == "Non-preventable";
    CountDisjoint(fixture, preventable, nonPreventable);
    CountIsFilterLength(fixture, preventable);
    CountIsFilterLength(fixture, nonPreventable);
    LossSummary(Sum(fixture, Quantity), |fixture|, Count(fixture, preventable), Count(fixture, nonPreventable))
  }

  /** The records of one wastage type (the filters inside `getSummary`). */
  function GetByWastageType(fixture: seq<LossRecord>, wastageType: string): (r: seq<LossRecord>)
    ensures forall x :: x in r <==> x in fixture && x.wastageType == wastageType
  {
    Filter(fixture, (loss: LossRecord) => loss.wastageType == wastageType)
  }

  /** Quantities are doses, so when no record is negative neither is the total. */
  lemma TotalQuantityNonNegative(fixture: seq<LossRecord>)
    requires forall i :: 0 <= i < |fixture| ==> fixture[i].quantity >= 0
    ensures GetSummary(fixture).totalQuantity >= 0
  {
    SumNonNegative(fixture, Quantity);
  }
}
