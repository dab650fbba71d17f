/**
 * The mock administration service: filters over the fixed list `getAll` returns (the
 * `fixture` parameter), and writes that answer without storing anything.
 */
module AdministrationService {

  import opened Wrappers
  import opened Records
  import opened Seqs

  /** `getByDateRange`: exactly the records administered within [start, end], both ends included. */
  function GetByDateRange(fixture: seq<AdministrationRecord>, start: Day, end: Day): (r: seq<AdministrationRecord>)
    ensures forall x :: x in r <==> x in fixture && InRange(x.administeredDate, start, end)
    ensures multiset(r) <= multiset(fixture)
  {
    Filter(fixture, (record: AdministrationRecord) => InRange(record.administeredDate, start, end))
  }

  /**
   * `create`: rejects when `vaccineId`, `lotNumber` or `dosesUsed` is falsy; otherwise copies the
   * data, with `administeredDate` defaulting to today.
   */
  function Create(data: Draft<AdministrationRecord>, now: int, today: Day): (r: Result<AdministrationRecord, ServiceError>)
    ensures r.Err? <==> data.fields.vaccineId == "" || data.fields.lotNumber == "" || data.fields.dosesUsed == 0
    ensures r.Err? ==> r.error == MissingRequiredFields
    ensures r.Ok? ==> r.value.id == (if data.id.Some? then data.id.value else now)
    ensures r.Ok? ==> r.value.administeredDate == (if data.fields.administeredDate.Some? then data.fields.administeredDate else Some(today))
    ensures r.Ok? ==> r.value.(id := data.fields.id, administeredDate := data.fields.administeredDate) == data.fields
  {
    var d := data.fields;
    if d.vaccineId == "" || d.lotNumber == "" || d.dosesUsed == 0 then Err(MissingRequiredFields)
    else Ok(d.(id := data.id.GetOr(now), administeredDate := Some(d.administeredDate.GetOr(today))))
  }

  /** `update`: rejects a falsy id; otherwise the data under that id (an id in the data wins). */
  function Update(id: int, data: Draft<AdministrationRecord>): (r: Result<AdministrationRecord, ServiceError>)
    ensures r.Err? <==> id == 0
    ensures r.Err? ==> r.error == IdRequired
    ensures r.Ok? ==> r.value.id == (if data.id.Some? then data.id.value else id)
    ensures r.Ok? ==> r.value.(id := data.fields.id) == data.fields
  {
    if id == 0 then Err(IdRequired) else Ok(data.fields.(id := data.id.GetOr(id)))
  }

  /** `delete`: rejects a falsy id, otherwise a confirmation. */
  function Delete(id: int): (r: Result<string, ServiceError>)
    ensures r.Err? <==> id == 0
    ensures r.Err? ==> r.error == IdRequired
  {
    if id == 0 then Err(IdRequired) else Ok("Administration record deleted successfully")
  }

  function DosesUsed(record: AdministrationRecord): int { record.dosesUsed }
  function VaccineOf(record: AdministrationRecord): string { record.vaccineId }

  /** The integer part of `getSummary` (the average is a float and is not modelled). */
  datatype AdministrationSummary = AdministrationSummary(totalDoses: int, totalRecords: nat, uniqueVaccines: nat)

  /**
   * `getSummary`: the doses given, the record count, and the number of distinct vaccines, which
   * is never more than the records.
   */
  function GetSummary(fixture: seq<AdministrationRecord>): (r: AdministrationSummary)
    ensures r.totalDoses == Sum(fixture, DosesUsed)
    ensures r.totalRecords == |fixture|
    ensures r.uniqueVaccines == |set v | v in Map(fixture, VaccineOf)|
    ensures r.uniqueVaccines <= r.totalRecords
  {
    var ids := Map(fixture, VaccineOf);
    DedupeLength(ids);
    DistinctAtMostLength(ids);
    AdministrationSummary(Sum(fixture, DosesUsed), |fixture|, |Dedupe(ids)|)
  }
}
