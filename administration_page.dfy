/**
 * The dose administration page: the record form and its validator, lot auto-fill, the search
 * filter, and the submission that records the doses and lowers the lot's stock.
 */
module AdministrationPage {

  import opened Wrappers
  import opened Records
  import opened Seqs
  import opened Text
  import opened Forms
  import opened Lots
  import AdministrationService

  /** The form's text boxes; an empty date box is `None`. */
  datatype AdministrationForm = AdministrationForm(
    vaccineId: string,
    lotNumber: string,
    patientAgeGroup: string,
    administeredDate: Option<Day>,
    dosesUsed: Input,
    providerId: string)

  datatype AdministrationField =
    | VaccineIdField | LotNumberField | PatientAgeGroupField
    | AdministeredDateField | DosesUsedField | ProviderIdField

  /** One keystroke or selection: `handleInputChange(field, value)`. */
  datatype AdministrationEdit =
    | SetVaccineId(s: string)
    | SetLotNumber(s: string)
    | SetPatientAgeGroup(s: string)
    | SetAdministeredDate(d: Option<Day>)
    | SetDosesUsed(x: Input)
    | SetProviderId(s: string)

  function FieldOf(edit: AdministrationEdit): AdministrationField
  {
    match edit
    case SetVaccineId(_) => VaccineIdField
    case SetLotNumber(_) => LotNumberField
    case SetPatientAgeGroup(_) => PatientAgeGroupField
    case SetAdministeredDate(_) => AdministeredDateField
    case SetDosesUsed(_) => DosesUsedField
    case SetProviderId(_) => ProviderIdField
  }

  /** The blank form: today's date, one dose, provider 'Provider-001'. */
  function EmptyForm(today: Day): AdministrationForm
  {
    AdministrationForm("", "", "", Some(today), Numeric(1), "Provider-001")
  }

  /**
   * The form after an edit: the edited box takes the value, and choosing a non-empty vaccine
   * that has exactly one available lot also fills in that lot.
   */
  function AfterInput(form: AdministrationForm, inventory: seq<InventoryItem>, edit: AdministrationEdit): (r: AdministrationForm)
    ensures edit.SetVaccineId? ==> r.vaccineId == edit.s
    ensures edit.SetVaccineId? && AutoFillLot(inventory, edit.s).Some? ==> r.lotNumber == AutoFillLot(inventory, edit.s).value
    ensures edit.SetVaccineId? && AutoFillLot(inventory, edit.s).None? ==> r == form.(vaccineId := edit.s)
    ensures edit.SetLotNumber? ==> r == form.(lotNumber := edit.s)
    ensures edit.SetPatientAgeGroup? ==> r == form.(patientAgeGroup := edit.s)
    ensures edit.SetAdministeredDate? ==> r == form.(administeredDate := edit.d)
    ensures edit.SetDosesUsed? ==> r == form.(dosesUsed := edit.x)
    ensures edit.SetProviderId? ==> r == form.(providerId := edit.s)
    ensures r.patientAgeGroup == (if edit.SetPatientAgeGroup? then edit.s else form.patientAgeGroup)
  {
    match edit
    case SetVaccineId(v) =>
      var lot := AutoFillLot(inventory, v);
      if lot.Some? then form.(vaccineId := v, lotNumber := lot.value) else form.(vaccineId := v)
    case SetLotNumber(s) => form.(lotNumber := s)
    case SetPatientAgeGroup(s) => form.(patientAgeGroup := s)
    case SetAdministeredDate(d) => form.(administeredDate := d)
    case SetDosesUsed(x) => form.(dosesUsed := x)
    case SetProviderId(s) => form.(providerId := s)
  }

  /** The search term keeps a record iff it occurs, ignoring case, in one of four fields. */
  predicate MatchesSearch(record: AdministrationRecord, term: string)
  {
    MatchesTerm(record.vaccineId, term) || MatchesTerm(record.lotNumber, term)
    || MatchesTerm(record.patientAgeGroup, term) || MatchesTerm(record.providerId, term)
  }

  /** The search effect: all records for an empty term, otherwise the matching ones in order. */
  function SearchAdministrations(records: seq<AdministrationRecord>, term: string): (r: seq<AdministrationRecord>)
    ensures forall x :: x in r <==> x in records && MatchesSearch(x, term)
    ensures multiset(r) <= multiset(records)
  {
    if term == "" then
      EmptyTermKeepsAll(records);
      records
    else Filter(records, (record: AdministrationRecord) => MatchesSearch(record, term))
  }

  /** The `if (searchTerm)` guard changes nothing: the empty term already matches every record. */
  lemma EmptyTermKeepsAll(records: seq<AdministrationRecord>)
    ensures Filter(records, (record: AdministrationRecord) => MatchesSearch(record, "")) == records
  {
    forall i | 0 <= i < |records|
      ensures MatchesSearch(records[i], "")
    {
      MatchesTermIgnoresCase(records[i].vaccineId, "");
    }
    FilterTrue(records, (record: AdministrationRecord) => MatchesSearch(record, ""));
  }

  /**
   * What a valid form is: every box filled, the date not after today, a positive whole number
   * of doses, and a lot of that vaccine in inventory that holds at least that many doses.
   */
  predicate AdministrationValid(form: AdministrationForm, inventory: seq<InventoryItem>, today: Day)
  {
    && form.vaccineId != "" && form.lotNumber != "" && form.patientAgeGroup != "" && form.providerId != ""
    && form.administeredDate.Some? && form.administeredDate.value <= today
    && form.dosesUsed.Numeric? && form.dosesUsed.n > 0
    && FindLot(inventory, form.vaccineId, form.lotNumber).Some?
    && form.dosesUsed.n <= FindLot(inventory, form.vaccineId, form.lotNumber).value.quantityOnHand
  }

  /** `Only ${quantityOnHand} doses available in inventory`. */
  function InsufficientMessage(quantityOnHand: int): (m: string)
    ensures m != ""
  {
    "Only " + IntToString(quantityOnHand) + " doses available in inventory"
  }

  /** The "required" message of each box. */
  function RequiredMessage(field: AdministrationField): string
  {
    match field
    case VaccineIdField => "Vaccine is required"
    case LotNumberField => "Lot number is required"
    case PatientAgeGroupField => "Patient age group is required"
    case AdministeredDateField => "Administration date is required"
    case DosesUsedField => "Doses used is required"
    case ProviderIdField => "Provider ID is required"
  }

  const PositiveMessage := "Must be a valid positive number"
  const FutureDateMessage := "Administration date cannot be in the future"
  const LotMissingMessage := "Lot number not found in inventory for selected vaccine"

  /** The box `field` of the form is empty (`!formData[field]`). */
  predicate IsEmptyBox(form: AdministrationForm, field: AdministrationField)
  {
    match field
    case VaccineIdField => form.vaccineId == ""
    case LotNumberField => form.lotNumber == ""
    case PatientAgeGroupField => form.patientAgeGroup == ""
    case AdministeredDateField => form.administeredDate.None?
    case DosesUsedField => form.dosesUsed.Blank?
    case ProviderIdField => form.providerId == ""
  }

  /** The first part of `validateForm`: a "required" message for every empty box. */
  method RequiredErrors(form: AdministrationForm) returns (errors: map<AdministrationField, string>)
    ensures VaccineIdField in errors <==> form.vaccineId == ""
    ensures LotNumberField in errors <==> form.lotNumber == ""
    ensures PatientAgeGroupField in errors <==> form.patientAgeGroup == ""
    ensures AdministeredDateField in errors <==> form.administeredDate.None?
    ensures DosesUsedField in errors <==> form.dosesUsed.Blank?
    ensures ProviderIdField in errors <==> form.providerId == ""
    ensures forall f :: f in errors ==> errors[f] == RequiredMessage(f)
  {
    var fields := {VaccineIdField, LotNumberField, PatientAgeGroupField, AdministeredDateField, DosesUsedField, ProviderIdField};
    errors := map f | f in fields && IsEmptyBox(form, f) :: RequiredMessage(f);
  }

  /** A map of messages is empty exactly when none of the six boxes has one. */
  lemma NoErrorsIffEmpty(errors: map<AdministrationField, string>)
    ensures errors == map[] <==>
      (VaccineIdField !in errors && LotNumberField !in errors && PatientAgeGroupField !in errors
       && AdministeredDateField !in errors && DosesUsedField !in errors && ProviderIdField !in errors)
  {
    if VaccineIdField !in errors && LotNumberField !in errors && PatientAgeGroupField !in errors
       && AdministeredDateField !in errors && DosesUsedField !in errors && ProviderIdField !in errors {
      forall f | f in errors
        ensures false
      {
        match f
        case VaccineIdField =>
        case LotNumberField =>
        case PatientAgeGroupField =>
        case AdministeredDateField =>
        case DosesUsedField =>
        case ProviderIdField =>
      }
      assert errors.Keys == {};
    }
  }

  /** The middle part of `validateForm`: the dose count and the date. */
  method FormatErrors(form: AdministrationForm, today: Day, before: map<AdministrationField, string>)
    returns (errors: map<AdministrationField, string>)
    ensures SameEntry(errors, before, VaccineIdField)
      && SameEntry(errors, before, LotNumberField)
      && SameEntry(errors, before, PatientAgeGroupField)
      && SameEntry(errors, before, ProviderIdField)
    ensures DosesUsedField in errors <==>
      DosesUsedField in before || (!form.dosesUsed.Blank? && !(form.dosesUsed.Numeric? && form.dosesUsed.n > 0))
    ensures !form.dosesUsed.Blank? && !(form.dosesUsed.Numeric? && form.dosesUsed.n > 0) ==>
      errors[DosesUsedField] == PositiveMessage
    ensures !(!form.dosesUsed.Blank? && !(form.dosesUsed.Numeric? && form.dosesUsed.n > 0)) ==>
      SameEntry(errors, before, DosesUsedField)
    ensures AdministeredDateField in errors <==>
      AdministeredDateField in before || (form.administeredDate.Some? && form.administeredDate.value > today)
    ensures form.administeredDate.Some? && form.administeredDate.value > today ==>
      errors[AdministeredDateField] == FutureDateMessage
    ensures !(form.administeredDate.Some? && form.administeredDate.value > today) ==>
      SameEntry(errors, before, AdministeredDateField)
  {
    errors := before;
    if !form.dosesUsed.Blank? && (form.dosesUsed.NonNumeric? || form.dosesUsed.n <= 0) {
      errors := errors[DosesUsedField := PositiveMessage];
    }
    if form.administeredDate.Some? && form.administeredDate.value > today {
      errors := errors[AdministeredDateField := FutureDateMessage];
    }
  }

  /** The last part of `validateForm`: the lot must exist and hold enough doses. */
  method LotErrors(form: AdministrationForm, inventory: seq<InventoryItem>, before: map<AdministrationField, string>)
    returns (errors: map<AdministrationField, string>)
    ensures SameEntry(errors, before, VaccineIdField)
      && SameEntry(errors, before, PatientAgeGroupField)
      && SameEntry(errors, before, AdministeredDateField)
      && SameEntry(errors, before, ProviderIdField)
    ensures LotNumberField in errors <==>
      LotNumberField in before || (form.vaccineId != "" && form.lotNumber != "" && FindLot(inventory, form.vaccineId, form.lotNumber).None?)
    ensures form.vaccineId != "" && form.lotNumber != "" && FindLot(inventory, form.vaccineId, form.lotNumber).None? ==>
      errors[LotNumberField] == LotMissingMessage
    ensures !(form.vaccineId != "" && form.lotNumber != "" && FindLot(inventory, form.vaccineId, form.lotNumber).None?) ==>
      SameEntry(errors, before, LotNumberField)
    ensures DosesUsedField in errors <==>
      DosesUsedField in before
      || (FindLot(inventory, form.vaccineId, form.lotNumber).Some? && form.dosesUsed.Numeric?
          && form.dosesUsed.n > FindLot(inventory, form.vaccineId, form.lotNumber).value.quantityOnHand)
    ensures form.dosesUsed.NonNumeric? ==> SameEntry(errors, before, DosesUsedField)
    ensures var lot := FindLot(inventory, form.vaccineId, form.lotNumber);
      lot.Some? && form.dosesUsed.Numeric? && form.dosesUsed.n > lot.value.quantityOnHand ==>
        errors[DosesUsedField] == InsufficientMessage(lot.value.quantityOnHand)
    ensures var lot := FindLot(inventory, form.vaccineId, form.lotNumber);
      !(lot.Some? && form.dosesUsed.Numeric? && form.dosesUsed.n > lot.value.quantityOnHand) ==>
        SameEntry(errors, before, DosesUsedField)
  {
    errors := before;
    var lot := FindLot(inventory, form.vaccineId, form.lotNumber);
    if form.vaccineId != "" && form.lotNumber != "" && lot.None? {
      errors := errors[LotNumberField := LotMissingMessage];
    }
    if lot.Some? && GreaterThan(ParseInt(form.dosesUsed), lot.value.quantityOnHand) {
      errors := errors[DosesUsedField := InsufficientMessage(lot.value.quantityOnHand)];
    }
  }

  /**
   * The errors `validateForm` reports for an administration form: a box is flagged exactly when
   * one of its checks fails, and it shows the message of the last check that failed.
   */
  predicate AdministrationErrorsReported(form: AdministrationForm, inventory: seq<InventoryItem>, today: Day, errors: map<AdministrationField, string>)
  {
    var lot := FindLot(inventory, form.vaccineId, form.lotNumber);
    && Flagged(errors, VaccineIdField, form.vaccineId == "", RequiredMessage(VaccineIdField))
    && Flagged(errors, PatientAgeGroupField, form.patientAgeGroup == "", RequiredMessage(PatientAgeGroupField))
    && Flagged(errors, ProviderIdField, form.providerId == "", RequiredMessage(ProviderIdField))
    && Flagged(errors, AdministeredDateField, form.administeredDate.None? || form.administeredDate.value > today,
               (if form.administeredDate.None? then RequiredMessage(AdministeredDateField) else FutureDateMessage))
    && Flagged(errors, LotNumberField, form.lotNumber == "" || (form.vaccineId != "" && lot.None?),
               (if form.lotNumber == "" then RequiredMessage(LotNumberField) else LotMissingMessage))
    && Flagged(errors, DosesUsedField,
               !(form.dosesUsed.Numeric? && form.dosesUsed.n > 0) || (lot.Some? && form.dosesUsed.n > lot.value.quantityOnHand),
               if lot.Some? && form.dosesUsed.Numeric? && form.dosesUsed.n > lot.value.quantityOnHand
               then InsufficientMessage(lot.value.quantityOnHand)
               else if form.dosesUsed.Blank? then RequiredMessage(DosesUsedField)
               else PositiveMessage)
  }

  /**
   * `validateForm`: one message per offending box, later checks overwriting earlier ones for
   * the same box. A date counts as in the future when it is after today.
   */
  method ValidateAdministration(form: AdministrationForm, inventory: seq<InventoryItem>, today: Day)
    returns (errors: map<AdministrationField, string>)
    ensures AdministrationErrorsReported(form, inventory, today, errors)
    ensures errors == map[] <==> AdministrationValid(form, inventory, today)
  {
    var required := RequiredErrors(form);
    var formatted := FormatErrors(form, today, required);
    errors := LotErrors(form, inventory, formatted);
    NoErrorsIffEmpty(errors);
  }

  /** `{ ...formData, dosesUsed: parseInt(formData.dosesUsed) }`, sent without an id of its own. */
  function SubmissionData(form: AdministrationForm): (r: Draft<AdministrationRecord>)
    requires form.dosesUsed.Numeric?
    ensures r.id.None? && r.fields.dosesUsed == form.dosesUsed.n
    ensures r.fields.vaccineId == form.vaccineId && r.fields.lotNumber == form.lotNumber
  {
    Draft(None, AdministrationRecord(0, form.administeredDate, form.vaccineId, form.lotNumber,
                                     form.dosesUsed.n, form.patientAgeGroup, form.providerId))
  }

  /**
   * A valid form is always accepted by the administration service, and the stock write that
   * follows leaves the lot with a quantity that is not negative.
   */
  lemma ValidSubmissionKeepsStock(form: AdministrationForm, inventory: seq<InventoryItem>, now: int, today: Day)
    requires AdministrationValid(form, inventory, today)
    ensures AdministrationService.Create(SubmissionData(form), now, today).Ok?
    ensures AdministrationService.Create(SubmissionData(form), now, today).value.administeredDate == form.administeredDate
    ensures var lot := FindLot(inventory, form.vaccineId, form.lotNumber).value;
      StockWrite(lot, form.dosesUsed.n, today).Ok? ==> StockWrite(lot, form.dosesUsed.n, today).value.quantityOnHand >= 0
  {
  }

  /** What became of a submission. */
  datatype Outcome =
    | Invalid
    | Rejected(error: ServiceError)
    | Recorded(record: AdministrationRecord, stock: Option<InventoryItem>)

  /**
   * The page state. `administrationFixture` and `inventoryFixture` are what the two services'
   * `getAll` return; since the services store nothing, every reload reads them again.
   */
  class Page {
    const administrationFixture: seq<AdministrationRecord>
    const inventoryFixture: seq<InventoryItem>
    var administrations: seq<AdministrationRecord>
    var inventory: seq<InventoryItem>
    var searchTerm: string
    var form: AdministrationForm
    var errors: map<AdministrationField, string>
    var editing: Option<AdministrationRecord>
    var showForm: bool

    constructor(administrationFixture: seq<AdministrationRecord>, inventoryFixture: seq<InventoryItem>, today: Day)
      ensures this.administrationFixture == administrationFixture && this.inventoryFixture == inventoryFixture
      ensures administrations == administrationFixture && inventory == inventoryFixture
      ensures searchTerm == "" && form == EmptyForm(today) && errors == map[] && editing.None? && !showForm
    {
      this.administrationFixture := administrationFixture;
      this.inventoryFixture := inventoryFixture;
      administrations := administrationFixture;
      inventory := inventoryFixture;
      searchTerm := "";
      form := EmptyForm(today);
      errors := map[];
      editing := None;
      showForm := false;
    }

    /** The list shown under the search box. */
    function Shown(): seq<AdministrationRecord>
      reads this
    {
      SearchAdministrations(administrations, searchTerm)
    }

    /** `handleInputChange`: the edit (with lot auto-fill) and the edited box's error cleared. */
    method HandleInputChange(edit: AdministrationEdit)
      modifies this
      ensures form == AfterInput(old(form), inventory, edit)
      ensures errors == ClearError(old(errors), FieldOf(edit))
      ensures unchanged(`administrations, `inventory, `searchTerm, `editing, `showForm)
    {
      form := AfterInput(form, inventory, edit);
      errors := ClearError(errors, FieldOf(edit));
    }

    /** `handleEdit`: the form takes the record's values and further submits update it. */
    method HandleEdit(record: AdministrationRecord)
      modifies this
      ensures editing == Some(record) && showForm
      ensures form == AdministrationForm(record.vaccineId, record.lotNumber, record.patientAgeGroup,
                                         record.administeredDate, Numeric(record.dosesUsed), record.providerId)
      ensures unchanged(`administrations, `inventory, `searchTerm, `errors)
    {
      editing := Some(record);
      form := AdministrationForm(record.vaccineId, record.lotNumber, record.patientAgeGroup,
                                 record.administeredDate, Numeric(record.dosesUsed), record.providerId);
      showForm := true;
    }

    /**
     * `handleSubmit`: an invalid form only shows its errors. Editing updates the record and
     * touches no stock. A new record is created and its lot's stock is lowered by the doses,
     * through one write for that lot. On success the form is reset and the page reloads, which
     * shows the fixture again: the lowered stock is not kept anywhere.
     */
    method HandleSubmit(now: int, today: Day) returns (outcome: Outcome)
      modifies this
      ensures outcome.Invalid? <==> !AdministrationValid(old(form), old(inventory), today)
      ensures outcome.Invalid? ==> errors != map[] && form == old(form) && editing == old(editing)
      ensures outcome.Invalid? ==> AdministrationErrorsReported(old(form), old(inventory), today, errors)
      ensures !outcome.Invalid? ==> errors == map[]
      ensures !outcome.Recorded? ==> form == old(form) && inventory == old(inventory) && administrations == old(administrations)
      ensures !outcome.Recorded? ==> showForm == old(showForm) && editing == old(editing)
      ensures outcome.Rejected? && old(editing).Some? ==> old(editing).value.id == 0
      ensures outcome.Rejected? && old(editing).None? ==>
        FindLot(old(inventory), old(form).vaccineId, old(form).lotNumber).value.id == 0
      ensures outcome.Recorded? && old(editing).Some? ==>
        outcome.stock.None? && outcome.record.id == old(editing).value.id
      ensures outcome.Recorded? && old(editing).None? ==>
        var lot := FindLot(old(inventory), old(form).vaccineId, old(form).lotNumber).value;
        && outcome.stock.Some?
        && outcome.stock.value.id == lot.id
        && outcome.stock.value.quantityOnHand == lot.quantityOnHand - old(form).dosesUsed.n
        && outcome.stock.value.quantityOnHand >= 0
      ensures outcome.Recorded? ==> outcome.record.dosesUsed == old(form).dosesUsed.n
      ensures outcome.Recorded? ==>
        && form == EmptyForm(today) && errors == map[] && editing.None? && !showForm
        && administrations == administrationFixture && inventory == inventoryFixture
      ensures searchTerm == old(searchTerm)
    {
      var found := ValidateAdministration(form, inventory, today);
      errors := found;
      if found != map[] {
        return Invalid;
      }
      var data := SubmissionData(form);
      if editing.Some? {
        var updated := AdministrationService.Update(editing.value.id, data);
        if updated.Err? {
          return Rejected(updated.error);
        }
        outcome := Recorded(updated.value, None);
      } else {
        ValidSubmissionKeepsStock(form, inventory, now, today);
        var created := AdministrationService.Create(data, now, today);
        var lot := FindLot(inventory, form.vaccineId, form.lotNumber).value;
        var written := StockWrite(lot, form.dosesUsed.n, today);
        if written.Err? {
          return Rejected(written.error);
        }
        outcome := Recorded(created.value, Some(written.value));
      }
      showForm := false;
      editing := None;
      form := EmptyForm(today);
      errors := map[];
      administrations := administrationFixture;
      inventory := inventoryFixture;
    }
  }
}
