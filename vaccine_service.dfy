/**
 * The mock vaccine service: lookups and lists over the fixed catalogue `getAll` returns (the
 * `fixture` parameter), and writes that answer without storing anything.
 */
module VaccineService {

  import opened Wrappers
  import opened Records
  import opened Seqs
  import opened Sorting
  import opened Text

  /** `getById`: the first vaccine with that id, or a rejection naming the id. */
  function GetById(fixture: seq<Vaccine>, id: int): (r: Result<Vaccine, ServiceError>)
    ensures r.Ok? ==> r.value in fixture && r.value.id == id
    ensures r.Err? <==> forall i :: 0 <= i < |fixture| ==> fixture[i].id != id
    ensures r.Err? ==> r.error == NotFound(id)
  {
    match FindFirst(fixture, (vaccine: Vaccine) => vaccine.id == id)
    case Some(i) => Ok(fixture[i])
    case None => Err(NotFound(id))
  }

  /** `getByFamily`: exactly the vaccines of that family, in catalogue order. */
  function GetByFamily(fixture: seq<Vaccine>, family: string): (r: seq<Vaccine>)
    ensures forall x :: x in r <==> x in fixture && x.vaccineFamily == family
    ensures multiset(r) <= multiset(fixture)
  {
    Filter(fixture, (vaccine: Vaccine) => vaccine.vaccineFamily == family)
  }

  /** `getActive`: exactly the vaccines whose `isActive` is true (a missing flag is falsy). */
  function GetActive(fixture: seq<Vaccine>): (r: seq<Vaccine>)
    ensures forall x :: x in r <==> x in fixture && x.isActive == Some(true)
    ensures multiset(r) <= multiset(fixture)
  {
    Filter(fixture, (vaccine: Vaccine) => vaccine.isActive == Some(true))
  }

  /**
   * `[...new Set(values)].sort()`: the distinct values, each once, in the default string
   * order, holding exactly the strings that occur in `values`.
   */
  function SortedDistinct(values: seq<string>): (r: seq<string>)
    ensures Sorted(r, LexLe)
    ensures NoDuplicates(r)
    ensures forall x :: x in r <==> x in values
  {
    var distinct := Dedupe(values);
    var r := SortBy(distinct, LexLe);
    LexLeTotalPreorder(distinct);
    SortBySorted(distinct, LexLe);
    PermutationNoDuplicates(distinct, r);
    assert forall x :: x in r <==> x in distinct by {
      forall x {
        SortByMembers(distinct, LexLe, x);
      }
    }
    r
  }

  function Family(vaccine: Vaccine): string { vaccine.vaccineFamily }
  function Manufacturer(vaccine: Vaccine): string { vaccine.manufacturer }

  /** `getFamilies`: every family of the catalogue once, sorted. */
  function GetFamilies(fixture: seq<Vaccine>): (r: seq<string>)
    ensures Sorted(r, LexLe) && NoDuplicates(r)
    ensures forall f :: f in r <==> exists i :: 0 <= i < |fixture| && fixture[i].vaccineFamily == f
  {
    var families := Map(fixture, Family);
    assert forall f :: f in families <==> exists i :: 0 <= i < |fixture| && fixture[i].vaccineFamily == f by {
      forall f | f in families
        ensures exists i :: 0 <= i < |fixture| && fixture[i].vaccineFamily == f
      {
        var k :| 0 <= k < |families| && families[k] == f;
        assert Family(fixture[k]) == f;
      }
    }
    SortedDistinct(families)
  }

  /** `getManufacturers`: every manufacturer of the catalogue once, sorted. */
  function GetManufacturers(fixture: seq<Vaccine>): (r: seq<string>)
    ensures Sorted(r, LexLe) && NoDuplicates(r)
    ensures forall m :: m in r <==> exists i :: 0 <= i < |fixture| && fixture[i].manufacturer == m
  {
    var manufacturers := Map(fixture, Manufacturer);
    assert forall m :: m in manufacturers <==> exists i :: 0 <= i < |fixture| && fixture[i].manufacturer == m by {
      forall m | m in manufacturers
        ensures exists i :: 0 <= i < |fixture| && fixture[i].manufacturer == m
      {
        var k :| 0 <= k < |manufacturers| && manufacturers[k] == m;
        assert Manufacturer(fixture[k]) == m;
      }
    }
    SortedDistinct(manufacturers)
  }

  /**
   * `create`: rejects when `name`, `manufacturer` or `vaccineFamily` is falsy; otherwise copies
   * the data, with `isActive` true unless the data sets it.
   */
  function Create(data: Draft<Vaccine>, now: int): (r: Result<Vaccine, ServiceError>)
    ensures r.Err? <==> data.fields.name == "" || data.fields.manufacturer == "" || data.fields.vaccineFamily == ""
    ensures r.Err? ==> r.error == MissingRequiredFields
    ensures r.Ok? ==> r.value.id == (if data.id.Some? then data.id.value else now)
    ensures r.Ok? ==> r.value.isActive == (if data.fields.isActive.Some? then data.fields.isActive else Some(true))
    ensures r.Ok? ==> r.value.(id := data.fields.id, isActive := data.fields.isActive) == data.fields
  {
    var d := data.fields;
    if d.name == "" || d.manufacturer == "" || d.vaccineFamily == "" then Err(MissingRequiredFields)
    else Ok(d.(id := data.id.GetOr(now), isActive := Some(d.isActive.GetOr(true))))
  }

  /** A vaccine created without an `isActive` flag is listed by `getActive`. */
  lemma CreatedIsActiveByDefault(data: Draft<Vaccine>, now: int)
    requires data.fields.isActive.None?
    requires Create(data, now).Ok?
    ensures GetActive([Create(data, now).value]) == [Create(data, now).value]
  {
    FilterTrue([Create(data, now).value], (vaccine: Vaccine) => vaccine.isActive == Some(true));
  }

  /** `update`: rejects a falsy id; otherwise the data under that id (an id in the data wins). */
  function Update(id: int, data: Draft<Vaccine>): (r: Result<Vaccine, ServiceError>)
    ensures r.Err? <==> id == 0
    ensures r.Err? ==> r.error == IdRequired
    ensures r.Ok? ==> r.value.id == (if data.id.Some? then data.id.value else id)
    ensures r.Ok? ==> r.value.(id := data.fields.id) == data.fields
  {
    if id == 0 then Err(IdRequired) else Ok(data.fields.(id := data.id.GetOr(id)))
  }

  /** `delete`: rejects a falsy id, otherwise a confirmation. */
  function Delete(id: int): (r: Result<string, ServiceError>)
    ensures r.Err? <==> id == 0
    ensures r.Err? ==> r.error == IdRequired
  {
    if id == 0 then Err(IdRequired) else Ok("Vaccine deleted successfully")
  }
}
