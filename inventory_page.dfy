/**
 * The inventory page: the search and filter effect over the lots, the alert counts shown above
 * the list, and the add/edit form with its validator and the writes it sends to the inventory
 * service.
 */
module InventoryPage {

  import opened Wrappers
  import opened Records
  import opened Seqs
  import opened Text
  import opened Forms
  import opened Alerts
  import InventoryService

  /** The three filter boxes; an empty box (`''`, or `None` for the level) filters nothing. */
  datatype Filters = Filters(vaccineFamily: string, alertLevel: Option<AlertLevel>, location: string)

  const NoFilters := Filters("", None, "")

  /** One change of a filter box: `handleFilterChange(field, value)`. */
  datatype FilterChange =
    | SetFamilyFilter(family: string)
    | SetAlertLevelFilter(level: Option<AlertLevel>)
    | SetLocationFilter(location: string)

  function ApplyFilterChange(filters: Filters, change: FilterChange): Filters
  {
    match change
    case SetFamilyFilter(f) => filters.(vaccineFamily := f)
    case SetAlertLevelFilter(l) => filters.(alertLevel := l)
    case SetLocationFilter(l) => filters.(location := l)
  }

  /**
   * The family shown for a lot: that of the first vaccine whose name is the lot's `vaccineId`,
   * or none when no vaccine has that name.
   */
  function FamilyOf(vaccines: seq<Vaccine>, item: InventoryItem): (r: Option<string>)
    ensures r.Some? <==> exists i :: 0 <= i < |vaccines| && vaccines[i].name == item.vaccineId
    ensures r.Some? ==> exists v :: v in vaccines && v.name == item.vaccineId && v.vaccineFamily == r.value
  {
    match FindFirst(vaccines, (v: Vaccine) => v.name == item.vaccineId)
    case Some(i) => Some(vaccines[i].vaccineFamily)
    case None => None
  }

  /** The search stage: kept when the term is empty or occurs in vaccine, lot or location. */
  function SearchStage(term: string): InventoryItem -> bool
  {
    (item: InventoryItem) =>
      term == "" || MatchesTerm(item.vaccineId, term) || MatchesTerm(item.lotNumber, term)
      || MatchesTerm(item.location, term)
  }

  /** The family stage: kept when no family is chosen or the lot's vaccine is of that family. */
  function FamilyStage(vaccines: seq<Vaccine>, family: string): InventoryItem -> bool
  {
    (item: InventoryItem) => family == "" || FamilyOf(vaccines, item) == Some(family)
  }

  /** The alert stage: kept when no level is chosen or the lot's alert level is that one. */
  function AlertStage(level: Option<AlertLevel>, today: Day): InventoryItem -> bool
  {
    (item: InventoryItem) => level.None? || AlertLevelOf(item, today) == level.value
  }

  /** The location stage: kept when no location is chosen or the lot is stored there. */
  function LocationStage(location: string): InventoryItem -> bool
  {
    (item: InventoryItem) => location == "" || item.location == location
  }

  /** The four stages at once: what the list shows is described by this single test. */
  function ShownBy(vaccines: seq<Vaccine>, term: string, filters: Filters, today: Day): InventoryItem -> bool
  {
    (item: InventoryItem) =>
      SearchStage(term)(item) && FamilyStage(vaccines, filters.vaccineFamily)(item)
      && AlertStage(filters.alertLevel, today)(item) && LocationStage(filters.location)(item)
  }

  /** Filtering stage after stage keeps the same lots, in the same order, as one combined filter. */
  lemma StagesCompose(inventory: seq<InventoryItem>, vaccines: seq<Vaccine>, term: string, filters: Filters, today: Day)
    ensures
      var s1, s2 := SearchStage(term), FamilyStage(vaccines, filters.vaccineFamily);
      var s3, s4 := AlertStage(filters.alertLevel, today), LocationStage(filters.location);
      Filter(Filter(Filter(Filter(inventory, s1), s2), s3), s4) == Filter(inventory, ShownBy(vaccines, term, filters, today))
  {
    var s1, s2 := SearchStage(term), FamilyStage(vaccines, filters.vaccineFamily);
    var s3, s4 := AlertStage(filters.alertLevel, today), LocationStage(filters.location);
    var s12 := (item: InventoryItem) => s1(item) && s2(item);
    var s123 := (item: InventoryItem) => s12(item) && s3(item);
    FilterFilter(inventory, s1, s2, s12);
    FilterFilter(Filter(inventory, s12), s3, s4, (item: InventoryItem) => s3(item) && s4(item));
    FilterFilter(inventory, s12, s3, s123);
    FilterFilter(inventory, s123, s4, ShownBy(vaccines, term, filters, today));
  }

  /**
   * The filter effect: a copy of the inventory narrowed by each stage whose box is filled. The
   * result is the inventory under the combined test, so a lot is shown iff it passes all four.
   */
  method FilterInventory(inventory: seq<InventoryItem>, vaccines: seq<Vaccine>, term: string, filters: Filters, today: Day)
    returns (filtered: seq<InventoryItem>)
    ensures filtered == Filter(inventory, ShownBy(vaccines, term, filters, today))
    ensures forall x :: x in filtered <==> x in inventory && ShownBy(vaccines, term, filters, today)(x)
  {
    filtered := inventory;
    if term != "" {
      filtered := Filter(filtered, SearchStage(term));
    } else {
      FilterTrue(filtered, SearchStage(term));
    }
    if filters.vaccineFamily != "" {
      filtered := Filter(filtered, FamilyStage(vaccines, filters.vaccineFamily));
    } else {
      FilterTrue(filtered, FamilyStage(vaccines, filters.vaccineFamily));
    }
    if filters.alertLevel.Some? {
      filtered := Filter(filtered, AlertStage(filters.alertLevel, today));
    } else {
      FilterTrue(filtered, AlertStage(filters.alertLevel, today));
    }
    if filters.location != "" {
      filtered := Filter(filtered, LocationStage(filters.location));
    } else {
      FilterTrue(filtered, LocationStage(filters.location));
    }
    StagesCompose(inventory, vaccines, term, filters, today);
  }

  /** With the search and every filter cleared, the whole inventory is shown, in order. */
  lemma ClearedFiltersShowAll(inventory: seq<InventoryItem>, vaccines: seq<Vaccine>, today: Day)
    ensures Filter(inventory, ShownBy(vaccines, "", NoFilters, today)) == inventory
  {
    forall i | 0 <= i < |inventory|
      ensures ShownBy(vaccines, "", NoFilters, today)(inventory[i])
    {
      assert SearchStage("")(inventory[i]);
    }
    FilterTrue(inventory, ShownBy(vaccines, "", NoFilters, today));
  }

  /** The test `getAlertLevel(item) === level`, as a predicate to count with. */
  function AtLevel(level: AlertLevel, today: Day): InventoryItem -> bool
  {
    (item: InventoryItem) => AlertLevelOf(item, today) == level
  }

  /** One more lot adds one to the count of its own level and nothing to the others. */
  lemma CountStep(inventory: seq<InventoryItem>, i: nat, level: AlertLevel, today: Day)
    requires i < |inventory|
    ensures Count(inventory[..i + 1], AtLevel(level, today))
      == Count(inventory[..i], AtLevel(level, today)) + (if AlertLevelOf(inventory[i], today) == level then 1 else 0)
  {
    assert inventory[..i + 1] == inventory[..i] + [inventory[i]];
    CountAppend(inventory[..i], inventory[i], AtLevel(level, today));
  }

  /** `counts` holds, for every level some lot of `s` is at, how many lots of `s` are at it. */
  predicate Tallies(counts: map<AlertLevel, nat>, s: seq<InventoryItem>, today: Day)
  {
    forall level :: (level in counts <==> Count(s, AtLevel(level, today)) > 0)
      && (level in counts ==> counts[level] == Count(s, AtLevel(level, today)))
  }

  /** Adding one to the entry of the next lot's level keeps the tally right for the longer prefix. */
  lemma TallyStep(inventory: seq<InventoryItem>, i: nat, today: Day, counts: map<AlertLevel, nat>)
    requires i < |inventory|
    requires Tallies(counts, inventory[..i], today)
    ensures
      var level := AlertLevelOf(inventory[i], today);
      Tallies(counts[level := (if level in counts then counts[level] else 0) + 1], inventory[..i + 1], today)
  {
    var level := AlertLevelOf(inventory[i], today);
    var next := counts[level := (if level in counts then counts[level] else 0) + 1];
    forall other
      ensures (other in next <==> Count(inventory[..i + 1], AtLevel(other, today)) > 0)
        && (other in next ==> next[other] == Count(inventory[..i + 1], AtLevel(other, today)))
    {
      CountStep(inventory, i, other, today);
      var before := Count(inventory[..i], AtLevel(other, today));
      assert other in counts <==> before > 0;
      assert other in counts ==> counts[other] == before;
      if other == level {
        assert next[other] == before + 1;
      } else {
        assert other in next <==> other in counts;
      }
    }
    assert Tallies(next, inventory[..i + 1], today);
  }

  /**
   * `alertCounts`: for each level, the number of lots at that level; a level no lot is at has
   * no key at all (the page reads it as `|| 0`).
   */
  method AlertCounts(inventory: seq<InventoryItem>, today: Day) returns (counts: map<AlertLevel, nat>)
    ensures forall level :: level in counts <==> Count(inventory, AtLevel(level, today)) > 0
    ensures forall level :: level in counts ==> counts[level] == Count(inventory, AtLevel(level, today))
  {
    counts := map[];
    var i := 0;
    while i < |inventory|
      invariant 0 <= i <= |inventory|
      invariant Tallies(counts, inventory[..i], today)
    {
      var level := AlertLevelOf(inventory[i], today);
      TallyStep(inventory, i, today, counts);
      counts := counts[level := (if level in counts then counts[level] else 0) + 1];
      i := i + 1;
    }
    assert inventory[..i] == inventory;
  }

  /** Every lot is at exactly one level, so the five counts add up to the number of lots. */
  lemma {:induction false} AlertCountsCoverInventory(inventory: seq<InventoryItem>, today: Day)
    ensures Count(inventory, AtLevel(Expired, today)) + Count(inventory, AtLevel(Critical, today))
      + Count(inventory, AtLevel(Warning, today)) + Count(inventory, AtLevel(LowStock, today))
      + Count(inventory, AtLevel(Good, today)) == |inventory|
  {
    if inventory != [] {
      AlertCountsCoverInventory(inventory[1..], today);
    }
  }

  /** The add/edit form; an empty date box is `None`. */
  datatype InventoryForm = InventoryForm(
    vaccineId: string,
    lotNumber: string,
    quantityOnHand: Input,
    expirationDate: Option<Day>,
    location: string)

  datatype InventoryField = VaccineIdField | LotNumberField | QuantityField | ExpirationDateField | LocationField

  /** One keystroke or selection: `handleInputChange(field, value)`. */
  datatype InventoryEdit =
    | SetVaccineId(s: string)
    | SetLotNumber(s: string)
    | SetQuantity(x: Input)
    | SetExpirationDate(d: Option<Day>)
    | SetLocation(s: string)

  function FieldOf(edit: InventoryEdit): InventoryField
  {
    match edit
    case SetVaccineId(_) => VaccineIdField
    case SetLotNumber(_) => LotNumberField
    case SetQuantity(_) => QuantityField
    case SetExpirationDate(_) => ExpirationDateField
    case SetLocation(_) => LocationField
  }

  /** The edited box takes the value and nothing else changes. */
  function AfterInput(form: InventoryForm, edit: InventoryEdit): InventoryForm
  {
    match edit
    case SetVaccineId(s) => form.(vaccineId := s)
    case SetLotNumber(s) => form.(lotNumber := s)
    case SetQuantity(x) => form.(quantityOnHand := x)
    case SetExpirationDate(d) => form.(expirationDate := d)
    case SetLocation(s) => form.(location := s)
  }

  /** The blank form: every box empty except the location, 'Main Storage'. */
  function EmptyForm(): InventoryForm
  {
    InventoryForm("", "", Blank, None, "Main Storage")
  }

  /** The form filled from a lot by `handleEdit`. */
  function FormOf(item: InventoryItem): InventoryForm
  {
    InventoryForm(item.vaccineId, item.lotNumber, Numeric(item.quantityOnHand), item.expirationDate, item.location)
  }

  /**
   * What a valid form is: every box filled, a whole quantity that is not negative (0 passes),
   * and an expiration date after today. A date is midnight at the start of its day and "now"
   * lies later in today, so a lot expiring today already counts as in the past.
   */
  predicate InventoryValid(form: InventoryForm, today: Day)
  {
    && form.vaccineId != "" && form.lotNumber != "" && form.location != ""
    && form.quantityOnHand.Numeric? && form.quantityOnHand.n >= 0
    && form.expirationDate.Some? && form.expirationDate.value > today
  }

  /** The "required" message of each box. */
  function RequiredMessage(field: InventoryField): string
  {
    match field
    case VaccineIdField => "Vaccine is required"
    case LotNumberField => "Lot number is required"
    case QuantityField => "Quantity is required"
    case ExpirationDateField => "Expiration date is required"
    case LocationField => "Location is required"
  }

  const PositiveMessage := "Must be a valid positive number"
  const PastDateMessage := "Expiration date cannot be in the past"

  /** The box `field` of the form is empty (`!formData[field]`). */
  predicate IsEmptyBox(form: InventoryForm, field: InventoryField)
  {
    match field
    case VaccineIdField => form.vaccineId == ""
    case LotNumberField => form.lotNumber == ""
    case QuantityField => form.quantityOnHand.Blank?
    case ExpirationDateField => form.expirationDate.None?
    case LocationField => form.location == ""
  }

  /** The first part of `validateForm`: a "required" message for every empty box. */
  method RequiredErrors(form: InventoryForm) returns (errors: map<InventoryField, string>)
    ensures VaccineIdField in errors <==> form.vaccineId == ""
    ensures LotNumberField in errors <==> form.lotNumber == ""
    ensures QuantityField in errors <==> form.quantityOnHand.Blank?
    ensures ExpirationDateField in errors <==> form.expirationDate.None?
    ensures LocationField in errors <==> form.location == ""
    ensures forall f :: f in errors ==> errors[f] == RequiredMessage(f)
  {
    var fields := {VaccineIdField, LotNumberField, QuantityField, ExpirationDateField, LocationField};
    errors := map f | f in fields && IsEmptyBox(form, f) :: RequiredMessage(f);
  }

  /** The rest of `validateForm`: the quantity must read as a number that is not negative, the date not be past. */
  method FormatErrors(form: InventoryForm, today: Day, before: map<InventoryField, string>)
    returns (errors: map<InventoryField, string>)
    ensures SameEntry(errors, before, VaccineIdField)
      && SameEntry(errors, before, LotNumberField)
      && SameEntry(errors, before, LocationField)
    ensures QuantityField in errors <==>
      QuantityField in before || form.quantityOnHand.NonNumeric? || (form.quantityOnHand.Numeric? && form.quantityOnHand.n < 0)
    ensures form.quantityOnHand.NonNumeric? || (form.quantityOnHand.Numeric? && form.quantityOnHand.n < 0) ==>
      errors[QuantityField] == PositiveMessage
    ensures !(form.quantityOnHand.NonNumeric? || (form.quantityOnHand.Numeric? && form.quantityOnHand.n < 0)) ==>
      SameEntry(errors, before, QuantityField)
    ensures ExpirationDateField in errors <==>
      ExpirationDateField in before || (form.expirationDate.Some? && form.expirationDate.value <= today)
    ensures form.expirationDate.Some? && form.expirationDate.value <= today ==>
      errors[ExpirationDateField] == PastDateMessage
    ensures !(form.expirationDate.Some? && form.expirationDate.value <= today) ==>
      SameEntry(errors, before, ExpirationDateField)
  {
    errors := before;
    if !form.quantityOnHand.Blank? && (form.quantityOnHand.NonNumeric? || LessThan(ParseInt(form.quantityOnHand), 0)) {
      errors := errors[QuantityField := PositiveMessage];
    }
    if form.expirationDate.Some? && form.expirationDate.value <= today {
      errors := errors[ExpirationDateField := PastDateMessage];
    }
  }

  /** A map of messages is empty exactly when none of the five boxes has one. */
  lemma NoErrorsIffEmpty(errors: map<InventoryField, string>)
    ensures errors == map[] <==>
      (VaccineIdField !in errors && LotNumberField !in errors && QuantityField !in errors
       && ExpirationDateField !in errors && LocationField !in errors)
  {
    if VaccineIdField !in errors && LotNumberField !in errors && QuantityField !in errors
       && ExpirationDateField !in errors && LocationField !in errors {
      forall f | f in errors
        ensures false
      {
        match f
        case VaccineIdField =>
        case LotNumberField =>
        case QuantityField =>
        case ExpirationDateField =>
        case LocationField =>
      }
      assert errors.Keys == {};
    }
  }

  /**
   * The errors `validateForm` reports for a lot form: a box is flagged exactly when one of its
   * checks fails, and it shows the message of the last check that failed.
   */
  predicate InventoryErrorsReported(form: InventoryForm, today: Day, errors: map<InventoryField, string>)
  {
    && Flagged(errors, VaccineIdField, form.vaccineId == "", RequiredMessage(VaccineIdField))
    && Flagged(errors, LotNumberField, form.lotNumber == "", RequiredMessage(LotNumberField))
    && Flagged(errors, LocationField, form.location == "", RequiredMessage(LocationField))
    && Flagged(errors, QuantityField, !(form.quantityOnHand.Numeric? && form.quantityOnHand.n >= 0),
               (if form.quantityOnHand.Blank? then RequiredMessage(QuantityField) else PositiveMessage))
    && Flagged(errors, ExpirationDateField, !(form.expirationDate.Some? && form.expirationDate.value > today),
               (if form.expirationDate.None? then RequiredMessage(ExpirationDateField) else PastDateMessage))
  }

  /** `validateForm`: one message per offending box; the form is accepted iff there is none. */
  method ValidateInventory(form: InventoryForm, today: Day) returns (errors: map<InventoryField, string>)
    ensures InventoryErrorsReported(form, today, errors)
    ensures errors == map[] <==> InventoryValid(form, today)
  {
    var required := RequiredErrors(form);
    errors := FormatErrors(form, today, required);
    NoErrorsIffEmpty(errors);
  }

  /**
   * `{ ...formData, quantityOnHand: parseInt(...), lastUpdated }`: only the five form fields and
   * the timestamp; the minimum stock and family a lot may have had are not sent (0 and '').
   */
  function SubmissionData(form: InventoryForm, today: Day): (r: Draft<InventoryItem>)
    requires form.quantityOnHand.Numeric?
    ensures r.id.None? && r.fields.quantityOnHand == form.quantityOnHand.n
    ensures FormOf(r.fields) == form
    ensures r.fields.minimumStock == 0 && r.fields.vaccineFamily == ""
  {
    Draft(None, InventoryItem(0, form.vaccineId, form.lotNumber, form.quantityOnHand.n, form.expirationDate,
                              form.location, Some(today), 0, ""))
  }

  /**
   * The validator lets a quantity of 0 through, but the service treats 0 as a missing field:
   * a valid new lot is created exactly when its quantity is not 0.
   */
  lemma ValidNewLotCreatedUnlessZero(form: InventoryForm, now: int, today: Day)
    requires InventoryValid(form, today)
    ensures InventoryService.Create(SubmissionData(form, today), now, today).Ok? <==> form.quantityOnHand.n > 0
    ensures var r := InventoryService.Create(SubmissionData(form, today), now, today);
      r.Ok? ==> r.value.id == now && FormOf(r.value) == form && r.value.lastUpdated == Some(today)
  {
  }

  /** Editing a lot and submitting its own values unchanged sends back the lot's own fields. */
  lemma EditRoundTrip(item: InventoryItem, today: Day)
    requires item.quantityOnHand >= 0
    ensures FormOf(SubmissionData(FormOf(item), today).fields) == FormOf(item)
    ensures InventoryService.Update(item.id, SubmissionData(FormOf(item), today), today).Ok? <==> item.id != 0
    ensures var r := InventoryService.Update(item.id, SubmissionData(FormOf(item), today), today);
      r.Ok? ==> r.value.id == item.id && FormOf(r.value) == FormOf(item)
  {
  }

  /** What became of a submission. */
  datatype Outcome = Invalid | Rejected(error: ServiceError) | Saved(item: InventoryItem)

  /**
   * The page state. `inventoryFixture` and `vaccineFixture` are what the two services' `getAll`
   * return; since the services store nothing, every reload reads them again.
   */
  class Page {
    const inventoryFixture: seq<InventoryItem>
    const vaccineFixture: seq<Vaccine>
    var inventory: seq<InventoryItem>
    var vaccines: seq<Vaccine>
    var filtered: seq<InventoryItem>
    var searchTerm: string
    var filters: Filters
    var form: InventoryForm
    var errors: map<InventoryField, string>
    var editing: Option<InventoryItem>
    var showForm: bool

    /** The list after loading, before any search or filter. */
    constructor(inventoryFixture: seq<InventoryItem>, vaccineFixture: seq<Vaccine>)
      ensures this.inventoryFixture == inventoryFixture && this.vaccineFixture == vaccineFixture
      ensures inventory == inventoryFixture && vaccines == vaccineFixture && filtered == inventoryFixture
      ensures searchTerm == "" && filters == NoFilters
      ensures form == EmptyForm() && errors == map[] && editing.None? && !showForm
    {
      this.inventoryFixture := inventoryFixture;
      this.vaccineFixture := vaccineFixture;
      inventory := inventoryFixture;
      vaccines := vaccineFixture;
      filtered := inventoryFixture;
      searchTerm := "";
      filters := NoFilters;
      form := EmptyForm();
      errors := map[];
      editing := None;
      showForm := false;
    }

    /** The filter effect, rerun whenever the lots, the search or a filter changes. */
    method Refilter(today: Day)
      modifies this
      ensures filtered == Filter(inventory, ShownBy(vaccines, searchTerm, filters, today))
      ensures unchanged(`inventory, `vaccines, `searchTerm, `filters, `form, `errors, `editing, `showForm)
    {
      filtered := FilterInventory(inventory, vaccines, searchTerm, filters, today);
    }

    /** `handleSearch`, then the effect. */
    method HandleSearch(term: string, today: Day)
      modifies this
      ensures searchTerm == term
      ensures filtered == Filter(inventory, ShownBy(vaccines, term, filters, today))
      ensures unchanged(`inventory, `vaccines, `filters, `form, `errors, `editing, `showForm)
    {
      searchTerm := term;
      Refilter(today);
    }

    /** `handleFilterChange`, then the effect. */
    method HandleFilterChange(change: FilterChange, today: Day)
      modifies this
      ensures filters == ApplyFilterChange(old(filters), change)
      ensures filtered == Filter(inventory, ShownBy(vaccines, searchTerm, filters, today))
      ensures unchanged(`inventory, `vaccines, `searchTerm, `form, `errors, `editing, `showForm)
    {
      filters := ApplyFilterChange(filters, change);
      Refilter(today);
    }

    /** `clearFilters`, then the effect: the whole inventory is shown again. */
    method ClearFilters(today: Day)
      modifies this
      ensures filters == NoFilters && searchTerm == ""
      ensures filtered == inventory
      ensures unchanged(`inventory, `vaccines, `form, `errors, `editing, `showForm)
    {
      filters := NoFilters;
      searchTerm := "";
      Refilter(today);
      ClearedFiltersShowAll(inventory, vaccines, today);
    }

    /** `handleInputChange`: the edit, and the edited box's error cleared. */
    method HandleInputChange(edit: InventoryEdit)
      modifies this
      ensures form == AfterInput(old(form), edit)
      ensures errors == ClearError(old(errors), FieldOf(edit))
      ensures unchanged(`inventory, `vaccines, `filtered, `searchTerm, `filters, `editing, `showForm)
    {
      form := AfterInput(form, edit);
      errors := ClearError(errors, FieldOf(edit));
    }

    /** `handleEdit`: the form takes the lot's values and further submits update it. */
    method HandleEdit(item: InventoryItem)
      modifies this
      ensures editing == Some(item) && form == FormOf(item) && showForm
      ensures unchanged(`inventory, `vaccines, `filtered, `searchTerm, `filters, `errors)
    {
      editing := Some(item);
      form := FormOf(item);
      showForm := true;
    }

    /** Reload after a write: the fixture again, then the filter effect. */
    method Reload(today: Day)
      modifies this
      ensures inventory == inventoryFixture && vaccines == vaccineFixture
      ensures filtered == Filter(inventory, ShownBy(vaccines, searchTerm, filters, today))
      ensures unchanged(`searchTerm, `filters, `form, `errors, `editing, `showForm)
    {
      inventory := inventoryFixture;
      vaccines := vaccineFixture;
      Refilter(today);
    }

    /**
     * `handleSubmit`: an invalid form only shows its errors. Otherwise the lot being edited is
     * updated under its id, or a new lot is created; on success the form is reset and the page
     * reloads.
     */
    method HandleSubmit(now: int, today: Day) returns (outcome: Outcome)
      modifies this
      ensures outcome.Invalid? <==> !InventoryValid(old(form), today)
      ensures outcome.Invalid? ==> errors != map[] && InventoryErrorsReported(old(form), today, errors)
      ensures !outcome.Invalid? ==> errors == map[]
      ensures !outcome.Saved? ==>
        form == old(form) && editing == old(editing) && inventory == old(inventory) && filtered == old(filtered)
      ensures !outcome.Saved? ==> showForm == old(showForm) && vaccines == old(vaccines)
      ensures searchTerm == old(searchTerm) && filters == old(filters)
      ensures outcome.Rejected? && old(editing).Some? ==> old(editing).value.id == 0
      ensures outcome.Rejected? && old(editing).None? ==> old(form).quantityOnHand.n == 0
      ensures outcome.Saved? ==> FormOf(outcome.item) == old(form)
      ensures outcome.Saved? && old(editing).Some? ==> outcome.item.id == old(editing).value.id
      ensures outcome.Saved? && old(editing).None? ==> outcome.item.id == now
      ensures outcome.Saved? ==>
        && form == EmptyForm() && errors == map[] && editing.None? && !showForm
        && inventory == inventoryFixture && vaccines == vaccineFixture
        && filtered == Filter(inventory, ShownBy(vaccines, searchTerm, filters, today))
    {
      var found := ValidateInventory(form, today);
      errors := found;
      if found != map[] {
        return Invalid;
      }
      var data := SubmissionData(form, today);
      var saved: Result<InventoryItem, ServiceError>;
      if editing.Some? {
        saved := InventoryService.Update(editing.value.id, data, today);
      } else {
        ValidNewLotCreatedUnlessZero(form, now, today);
        saved := InventoryService.Create(data, now, today);
      }
      if saved.Err? {
        return Rejected(saved.error);
      }
      outcome := Saved(saved.value);
      showForm := false;
      editing := None;
      form := EmptyForm();
      errors := map[];
      Reload(today);
    }

    /**
     * `handleDelete`: nothing unless the user confirms; then the service is asked to delete the
     * lot and, when it agrees, the page reloads (the fixture still holds the lot).
     */
    method HandleDelete(item: InventoryItem, confirmed: bool, today: Day) returns (result: Option<Result<string, ServiceError>>)
      modifies this
      ensures result.None? <==> !confirmed
      ensures result.Some? ==> result.value == InventoryService.Delete(item.id)
      ensures result.Some? && result.value.Ok? ==>
        inventory == inventoryFixture && filtered == Filter(inventory, ShownBy(vaccines, searchTerm, filters, today))
      ensures !(result.Some? && result.value.Ok?) ==> inventory == old(inventory) && filtered == old(filtered)
      ensures unchanged(`searchTerm, `filters, `form, `errors, `editing, `showForm)
    {
      if !confirmed {
        return None;
      }
      var deleted := InventoryService.Delete(item.id);
      if deleted.Ok? {
        Reload(today);
      }
      result := Some(deleted);
    }
  }
}
