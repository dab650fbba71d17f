/**
 * The loss report page: the loss form and its validator, lot auto-fill, the search filter, the
 * loss totals, and the submission that records the loss and lowers the lot's stock.
 */
module LossPage {

  import opened Wrappers
  import opened Records
  import opened Seqs
  import opened Text
  import opened Forms
  import opened Lots
  import LossService

  /** The form's boxes; an empty date box is `None`. */
  datatype LossForm = LossForm(
    vaccineId: string,
    lotNumber: string,
    quantity: Input,
    reason: string,
    details: string,
    reportedDate: Option<Day>)

  /** The keys of the error map; `TrainingField` is the `training` key, which has no box. */
  datatype LossField =
    | VaccineIdField | LotNumberField | QuantityField | ReasonField
    | ReportedDateField | DetailsField | TrainingField

  /** One keystroke or selection: `handleInputChange(field, value)`. */
  datatype LossEdit =
    | SetVaccineId(s: string)
    | SetLotNumber(s: string)
    | SetQuantity(x: Input)
    | SetReason(s: string)
    | SetDetails(s: string)
    | SetReportedDate(d: Option<Day>)

  function FieldOf(edit: LossEdit): LossField
  {
    match edit
    case SetVaccineId(_) => VaccineIdField
    case SetLotNumber(_) => LotNumberField
    case SetQuantity(_) => QuantityField
    case SetReason(_) => ReasonField
    case SetDetails(_) => DetailsField
    case SetReportedDate(_) => ReportedDateField
  }

  /** The blank form, dated today. */
  function EmptyForm(today: Day): LossForm
  {
    LossForm("", "", Blank, "", "", Some(today))
  }

  /**
   * The form after an edit: the edited box takes the value, and choosing a non-empty vaccine
   * that has exactly one available lot also fills in that lot.
   */
  function AfterInput(form: LossForm, inventory: seq<InventoryItem>, edit: LossEdit): (r: LossForm)
    ensures edit.SetVaccineId? ==> r.vaccineId == edit.s
    ensures edit.SetVaccineId? && AutoFillLot(inventory, edit.s).Some? ==> r == form.(vaccineId := edit.s, lotNumber := AutoFillLot(inventory, edit.s).value)
    ensures edit.SetVaccineId? && AutoFillLot(inventory, edit.s).None? ==> r == form.(vaccineId := edit.s)
    ensures edit.SetLotNumber? ==> r == form.(lotNumber := edit.s)
    ensures edit.SetQuantity? ==> r == form.(quantity := edit.x)
    ensures edit.SetReason? ==> r == form.(reason := edit.s)
    ensures edit.SetDetails? ==> r == form.(details := edit.s)
    ensures edit.SetReportedDate? ==> r == form.(reportedDate := edit.d)
  {
    match edit
    case SetVaccineId(v) =>
      var lot := AutoFillLot(inventory, v);
      if lot.Some? then form.(vaccineId := v, lotNumber := lot.value) else form.(vaccineId := v)
    case SetLotNumber(s) => form.(lotNumber := s)
    case SetQuantity(x) => form.(quantity := x)
    case SetReason(s) => form.(reason := s)
    case SetDetails(s) => form.(details := s)
    case SetReportedDate(d) => form.(reportedDate := d)
  }

  /** The search term keeps a record iff it occurs, ignoring case, in the vaccine, lot or reason. */
  predicate MatchesSearch(loss: LossRecord, term: string)
  {
    MatchesTerm(loss.vaccineId, term) || MatchesTerm(loss.lotNumber, term) || MatchesTerm(loss.reason, term)
  }

  /** The search effect: all records for an empty term, otherwise the matching ones in order. */
  function SearchLosses(losses: seq<LossRecord>, term: string): (r: seq<LossRecord>)
    ensures forall x :: x in r <==> x in losses && MatchesSearch(x, term)
    ensures multiset(r) <= multiset(losses)
  {
    if term == "" then
      EmptyTermKeepsAll(losses);
      losses
    else Filter(losses, (loss: LossRecord) => MatchesSearch(loss, term))
  }

  /** The `if (searchTerm)` guard changes nothing: the empty term already matches every record. */
  lemma EmptyTermKeepsAll(losses: seq<LossRecord>)
    ensures Filter(losses, (loss: LossRecord) => MatchesSearch(loss, "")) == losses
  {
    forall i | 0 <= i < |losses|
      ensures MatchesSearch(losses[i], "")
    {
      MatchesTermIgnoresCase(losses[i].vaccineId, "");
    }
    FilterTrue(losses, (loss: LossRecord) => MatchesSearch(loss, ""));
  }

  function Quantity(loss: LossRecord): int { loss.quantity }

  /** `totalLosses`: the doses lost over all records. */
  function TotalLosses(losses: seq<LossRecord>): int
  {
    Sum(losses, Quantity)
  }

  /** `totalValue`: every lost dose priced at 50. */
  function TotalValue(losses: seq<LossRecord>): int
  {
    Sum(losses, (loss: LossRecord) => loss.quantity * 50)
  }

  /** The estimated value is always 50 per lost dose. */
  lemma TotalValueIsFiftyPerDose(losses: seq<LossRecord>)
    ensures TotalValue(losses) == 50 * TotalLosses(losses)
  {
    SumScale(losses, Quantity, (loss: LossRecord) => loss.quantity * 50, 50);
  }

  /**
   * What a valid report is: every required box filled, the date not after today, a positive
   * whole quantity no larger than the stock of a lot of that vaccine in inventory, details when
   * the reason is 'Other', and the training completed.
   */
  predicate LossValid(form: LossForm, trainingCompleted: bool, inventory: seq<InventoryItem>, today: Day)
  {
    && form.vaccineId != "" && form.lotNumber != "" && form.reason != ""
    && form.reportedDate.Some? && form.reportedDate.value <= today
    && form.quantity.Numeric? && form.quantity.n > 0
    && FindLot(inventory, form.vaccineId, form.lotNumber).Some?
    && form.quantity.n <= FindLot(inventory, form.vaccineId, form.lotNumber).value.quantityOnHand
    && (form.reason == "Other" ==> form.details != "")
    && trainingCompleted
  }

  /** A report is valid exactly when none of the per-key checks of `validateForm` fails. */
  lemma ValidIffChecksPass(form: LossForm, trainingCompleted: bool, inventory: seq<InventoryItem>, today: Day)
    ensures LossValid(form, trainingCompleted, inventory, today) <==>
      && form.vaccineId != "" && form.reason != ""
      && !(form.reportedDate.None? || form.reportedDate.value > today)
      && !(form.lotNumber == "" || (form.vaccineId != "" && FindLot(inventory, form.vaccineId, form.lotNumber).None?))
      && !(!(form.quantity.Numeric? && form.quantity.n > 0)
           || (FindLot(inventory, form.vaccineId, form.lotNumber).Some?
               && form.quantity.n > FindLot(inventory, form.vaccineId, form.lotNumber).value.quantityOnHand))
      && !(form.reason == "Other" && form.details == "")
      && trainingCompleted
  {
  }

  /** `Only ${quantityOnHand} doses available in inventory`. */
  function InsufficientMessage(quantityOnHand: int): (m: string)
    ensures m != ""
  {
    "Only " + IntToString(quantityOnHand) + " doses available in inventory"
  }

  /**
   * The "required" message of each key: the five boxes every report needs, the details a
   * reason of 'Other' needs, and the training that must come first.
   */
  function RequiredMessage(field: LossField): string
  {
    match field
    case VaccineIdField => "Vaccine is required"
    case LotNumberField => "Lot number is required"
    case QuantityField => "Quantity is required"
    case ReasonField => "Loss reason is required"
    case ReportedDateField => "Reported date is required"
    case DetailsField => "Details are required when selecting \"Other\" as reason"
    case TrainingField => "Training completion is required before reporting losses"
  }

  const PositiveMessage := "Must be a valid positive number"
  const FutureDateMessage := "Reported date cannot be in the future"
  const LotMissingMessage := "Lot number not found in inventory for selected vaccine"

  /** The box `field` of the form is one of the five every report needs, and it is empty. */
  predicate IsEmptyBox(form: LossForm, field: LossField)
  {
    match field
    case VaccineIdField => form.vaccineId == ""
    case LotNumberField => form.lotNumber == ""
    case QuantityField => form.quantity.Blank?
    case ReasonField => form.reason == ""
    case ReportedDateField => form.reportedDate.None?
    case _ => false
  }

  /** The first part of `validateForm`: a "required" message for every empty box. */
  method RequiredErrors(form: LossForm) returns (errors: map<LossField, string>)
    ensures VaccineIdField in errors <==> form.vaccineId == ""
    ensures LotNumberField in errors <==> form.lotNumber == ""
    ensures QuantityField in errors <==> form.quantity.Blank?
    ensures ReasonField in errors <==> form.reason == ""
    ensures ReportedDateField in errors <==> form.reportedDate.None?
    ensures DetailsField !in errors && TrainingField !in errors
    ensures forall f :: f in errors ==> errors[f] == RequiredMessage(f)
  {
    var fields := {VaccineIdField, LotNumberField, QuantityField, ReasonField, ReportedDateField};
    errors := map f | f in fields && IsEmptyBox(form, f) :: RequiredMessage(f);
  }

  /** The quantity and date checks of `validateForm`. */
  method FormatErrors(form: LossForm, today: Day, before: map<LossField, string>)
    returns (errors: map<LossField, string>)
    ensures SameEntry(errors, before, VaccineIdField)
      && SameEntry(errors, before, LotNumberField)
      && SameEntry(errors, before, ReasonField)
      && SameEntry(errors, before, DetailsField)
      && SameEntry(errors, before, TrainingField)
    ensures QuantityField in errors <==>
      QuantityField in before || (!form.quantity.Blank? && !(form.quantity.Numeric? && form.quantity.n > 0))
    ensures !form.quantity.Blank? && !(form.quantity.Numeric? && form.quantity.n > 0) ==>
      errors[QuantityField] == PositiveMessage
    ensures !(!form.quantity.Blank? && !(form.quantity.Numeric? && form.quantity.n > 0)) ==>
      SameEntry(errors, before, QuantityField)
    ensures ReportedDateField in errors <==>
      ReportedDateField in before || (form.reportedDate.Some? && form.reportedDate.value > today)
    ensures form.reportedDate.Some? && form.reportedDate.value > today ==>
      errors[ReportedDateField] == FutureDateMessage
    ensures !(form.reportedDate.Some? && form.reportedDate.value > today) ==>
      SameEntry(errors, before, ReportedDateField)
  {
    errors := before;
    if !form.quantity.Blank? && (form.quantity.NonNumeric? || form.quantity.n <= 0) {
      errors := errors[QuantityField := PositiveMessage];
    }
    if form.reportedDate.Some? && form.reportedDate.value > today {
      errors := errors[ReportedDateField := FutureDateMessage];
    }
  }

  /** The inventory checks of `validateForm`: the lot must exist and hold enough doses. */
  method LotErrors(form: LossForm, inventory: seq<InventoryItem>, before: map<LossField, string>)
    returns (errors: map<LossField, string>)
    ensures SameEntry(errors, before, VaccineIdField)
      && SameEntry(errors, before, ReasonField)
      && SameEntry(errors, before, ReportedDateField)
      && SameEntry(errors, before, DetailsField)
      && SameEntry(errors, before, TrainingField)
    ensures LotNumberField in errors <==>
      LotNumberField in before || (form.vaccineId != "" && form.lotNumber != "" && FindLot(inventory, form.vaccineId, form.lotNumber).None?)
    ensures form.vaccineId != "" && form.lotNumber != "" && FindLot(inventory, form.vaccineId, form.lotNumber).None? ==>
      errors[LotNumberField] == LotMissingMessage
    ensures !(form.vaccineId != "" && form.lotNumber != "" && FindLot(inventory, form.vaccineId, form.lotNumber).None?) ==>
      SameEntry(errors, before, LotNumberField)
    ensures QuantityField in errors <==>
      QuantityField in before
      || (FindLot(inventory, form.vaccineId, form.lotNumber).Some? && form.quantity.Numeric?
          && form.quantity.n > FindLot(inventory, form.vaccineId, form.lotNumber).value.quantityOnHand)
    ensures form.quantity.NonNumeric? ==> SameEntry(errors, before, QuantityField)
    ensures var lot := FindLot(inventory, form.vaccineId, form.lotNumber);
      lot.Some? && form.quantity.Numeric? && form.quantity.n > lot.value.quantityOnHand ==>
        errors[QuantityField] == InsufficientMessage(lot.value.quantityOnHand)
    ensures var lot := FindLot(inventory, form.vaccineId, form.lotNumber);
      !(lot.Some? && form.quantity.Numeric? && form.quantity.n > lot.value.quantityOnHand) ==>
        SameEntry(errors, before, QuantityField)
  {
    errors := before;
    var lot := FindLot(inventory, form.vaccineId, form.lotNumber);
    if form.vaccineId != "" && form.lotNumber != "" && lot.None? {
      errors := errors[LotNumberField := LotMissingMessage];
    }
    if lot.Some? && GreaterThan(ParseInt(form.quantity), lot.value.quantityOnHand) {
      errors := errors[QuantityField := InsufficientMessage(lot.value.quantityOnHand)];
    }
  }

  /** The policy checks of `validateForm`: details for reason 'Other', and completed training. */
  method PolicyErrors(form: LossForm, trainingCompleted: bool, before: map<LossField, string>)
    returns (errors: map<LossField, string>)
    ensures SameEntry(errors, before, VaccineIdField)
      && SameEntry(errors, before, LotNumberField)
      && SameEntry(errors, before, QuantityField)
      && SameEntry(errors, before, ReasonField)
      && SameEntry(errors, before, ReportedDateField)
    ensures DetailsField in errors <==> DetailsField in before || (form.reason == "Other" && form.details == "")
    ensures TrainingField in errors <==> TrainingField in before || !trainingCompleted
    ensures form.reason == "Other" && form.details == "" ==> errors[DetailsField] == RequiredMessage(DetailsField)
    ensures !(form.reason == "Other" && form.details == "") ==> SameEntry(errors, before, DetailsField)
    ensures !trainingCompleted ==> errors[TrainingField] == RequiredMessage(TrainingField)
    ensures trainingCompleted ==> SameEntry(errors, before, TrainingField)
  {
    errors := before;
    if form.reason == "Other" && form.details == "" {
      errors := errors[DetailsField := RequiredMessage(DetailsField)];
    }
    if !trainingCompleted {
      errors := errors[TrainingField := RequiredMessage(TrainingField)];
    }
  }

  /** A map of messages is empty exactly when none of the seven keys has one. */
  lemma NoErrorsIffEmpty(errors: map<LossField, string>)
    ensures errors == map[] <==>
      (VaccineIdField !in errors && LotNumberField !in errors && QuantityField !in errors && ReasonField !in errors
       && ReportedDateField !in errors && DetailsField !in errors && TrainingField !in errors)
  {
    if VaccineIdField !in errors && LotNumberField !in errors && QuantityField !in errors && ReasonField !in errors
       && ReportedDateField !in errors && DetailsField !in errors && TrainingField !in errors {
      forall f | f in errors
        ensures false
      {
        match f
        case VaccineIdField =>
        case LotNumberField =>
        case QuantityField =>
        case ReasonField =>
        case ReportedDateField =>
        case DetailsField =>
        case TrainingField =>
      }
      assert errors.Keys == {};
    }
  }

  /**
   * The errors `validateForm` reports for a loss form: a key is flagged exactly when one of its
   * checks fails, and it shows the message of the last check that failed.
   */
  predicate LossErrorsReported(form: LossForm, trainingCompleted: bool, inventory: seq<InventoryItem>, today: Day, errors: map<LossField, string>)
  {
    var lot := FindLot(inventory, form.vaccineId, form.lotNumber);
    && Flagged(errors, VaccineIdField, form.vaccineId == "", RequiredMessage(VaccineIdField))
    && Flagged(errors, ReasonField, form.reason == "", RequiredMessage(ReasonField))
    && Flagged(errors, ReportedDateField, form.reportedDate.None? || form.reportedDate.value > today,
               (if form.reportedDate.None? then RequiredMessage(ReportedDateField) else FutureDateMessage))
    && Flagged(errors, LotNumberField, form.lotNumber == "" || (form.vaccineId != "" && lot.None?),
               (if form.lotNumber == "" then RequiredMessage(LotNumberField) else LotMissingMessage))
    && Flagged(errors, QuantityField,
               !(form.quantity.Numeric? && form.quantity.n > 0) || (lot.Some? && form.quantity.n > lot.value.quantityOnHand),
               if lot.Some? && form.quantity.Numeric? && form.quantity.n > lot.value.quantityOnHand
               then InsufficientMessage(lot.value.quantityOnHand)
               else if form.quantity.Blank? then RequiredMessage(QuantityField)
               else PositiveMessage)
    && Flagged(errors, DetailsField, form.reason == "Other" && form.details == "", RequiredMessage(DetailsField))
    && Flagged(errors, TrainingField, !trainingCompleted, RequiredMessage(TrainingField))
  }

  /**
   * `validateForm`: one message per offending key, later checks overwriting earlier ones for
   * the same key. A date counts as in the future when it is after today.
   */
  method ValidateLoss(form: LossForm, trainingCompleted: bool, inventory: seq<InventoryItem>, today: Day)
    returns (errors: map<LossField, string>)
    ensures LossErrorsReported(form, trainingCompleted, inventory, today, errors)
    ensures errors == map[] <==> LossValid(form, trainingCompleted, inventory, today)
  {
    var required := RequiredErrors(form);
    var formatted := FormatErrors(form, today, required);
    var checked := LotErrors(form, inventory, formatted);
    errors := PolicyErrors(form, trainingCompleted, checked);
    NoErrorsIffEmpty(errors);
    ValidIffChecksPass(form, trainingCompleted, inventory, today);
  }

  /**
   * `{ ...formData, quantity: parseInt(formData.quantity), trainingCompleted }`, sent without an
   * id of its own and without a wastage type.
   */
  function SubmissionData(form: LossForm, trainingCompleted: bool): (r: Draft<LossRecord>)
    requires form.quantity.Numeric?
    ensures r.id.None? && r.fields.quantity == form.quantity.n && r.fields.trainingCompleted == trainingCompleted
    ensures r.fields.vaccineId == form.vaccineId && r.fields.lotNumber == form.lotNumber && r.fields.reason == form.reason
  {
    Draft(None, LossRecord(0, form.reportedDate, form.vaccineId, form.lotNumber, form.quantity.n,
                           form.reason, form.details, trainingCompleted, ""))
  }

  /**
   * A valid report is always accepted by the loss service, filed as wastage type 'Unknown', and
   * the stock write that follows leaves the lot with a quantity that is not negative.
   */
  lemma ValidSubmissionKeepsStock(form: LossForm, inventory: seq<InventoryItem>, now: int, today: Day)
    requires LossValid(form, true, inventory, today)
    ensures LossService.Create(SubmissionData(form, true), now, today).Ok?
    ensures LossService.Create(SubmissionData(form, true), now, today).value.wastageType == "Unknown"
    ensures LossService.Create(SubmissionData(form, true), now, today).value.trainingCompleted
    ensures var lot := FindLot(inventory, form.vaccineId, form.lotNumber).value;
      StockWrite(lot, form.quantity.n, today).Ok? ==> StockWrite(lot, form.quantity.n, today).value.quantityOnHand >= 0
  {
  }

  /** What became of a submission. */
  datatype Outcome =
    | Invalid
    | Rejected(error: ServiceError)
    | Recorded(loss: LossRecord, stock: InventoryItem)

  /**
   * The page state. `lossFixture` and `inventoryFixture` are what the two services' `getAll`
   * return; since the services store nothing, every reload reads them again.
   */
  class Page {
    const lossFixture: seq<LossRecord>
    const inventoryFixture: seq<InventoryItem>
    var losses: seq<LossRecord>
    var inventory: seq<InventoryItem>
    var searchTerm: string
    var form: LossForm
    var errors: map<LossField, string>
    var showForm: bool
    var trainingCompleted: bool

    constructor(lossFixture: seq<LossRecord>, inventoryFixture: seq<InventoryItem>, today: Day)
      ensures this.lossFixture == lossFixture && this.inventoryFixture == inventoryFixture
      ensures losses == lossFixture && inventory == inventoryFixture
      ensures searchTerm == "" && form == EmptyForm(today) && errors == map[] && !showForm && !trainingCompleted
    {
      this.lossFixture := lossFixture;
      this.inventoryFixture := inventoryFixture;
      losses := lossFixture;
      inventory := inventoryFixture;
      searchTerm := "";
      form := EmptyForm(today);
      errors := map[];
      showForm := false;
      trainingCompleted := false;
    }

    /** The list shown under the search box. */
    function Shown(): seq<LossRecord>
      reads this
    {
      SearchLosses(losses, searchTerm)
    }

    /** `handleInputChange`: the edit (with lot auto-fill) and the edited box's error cleared. */
    method HandleInputChange(edit: LossEdit)
      modifies this
      ensures form == AfterInput(old(form), inventory, edit)
      ensures errors == ClearError(old(errors), FieldOf(edit))
      ensures unchanged(`losses, `inventory, `searchTerm, `showForm, `trainingCompleted)
    {
      form := AfterInput(form, inventory, edit);
      errors := ClearError(errors, FieldOf(edit));
    }

    /** `handleTrainingComplete`: the training requirement is met from now on. */
    method HandleTrainingComplete()
      modifies this
      ensures trainingCompleted
      ensures unchanged(`losses, `inventory, `searchTerm, `form, `errors, `showForm)
    {
      trainingCompleted := true;
    }

    /**
     * `handleSubmit`: an invalid report only shows its errors. A valid one is recorded and its
     * lot's stock is lowered by the lost quantity, through one write for that lot and none for
     * any other. On success the form is reset and the page reloads, which shows the fixture
     * again: the lowered stock is not kept anywhere.
     */
    method HandleSubmit(now: int, today: Day) returns (outcome: Outcome)
      modifies this
      ensures outcome.Invalid? <==> !LossValid(old(form), old(trainingCompleted), old(inventory), today)
      ensures outcome.Invalid? ==> errors != map[] && form == old(form)
      ensures outcome.Invalid? ==> LossErrorsReported(old(form), old(trainingCompleted), old(inventory), today, errors)
      ensures !outcome.Invalid? ==> errors == map[]
      ensures !outcome.Recorded? ==> form == old(form) && inventory == old(inventory) && losses == old(losses)
      ensures !outcome.Recorded? ==> showForm == old(showForm)
      ensures outcome.Rejected? ==> FindLot(old(inventory), old(form).vaccineId, old(form).lotNumber).value.id == 0
      ensures outcome.Recorded? ==>
        var lot := FindLot(old(inventory), old(form).vaccineId, old(form).lotNumber).value;
        && outcome.stock.id == lot.id
        && outcome.stock.vaccineId == old(form).vaccineId && outcome.stock.lotNumber == old(form).lotNumber
        && outcome.stock.quantityOnHand == lot.quantityOnHand - old(form).quantity.n
        && outcome.stock.quantityOnHand >= 0
        && outcome.loss.quantity == old(form).quantity.n
        && outcome.loss.wastageType == "Unknown"
      ensures outcome.Recorded? ==>
        && form == EmptyForm(today) && errors == map[] && !showForm
        && losses == lossFixture && inventory == inventoryFixture
      ensures searchTerm == old(searchTerm) && trainingCompleted == old(trainingCompleted)
    {
      var found := ValidateLoss(form, trainingCompleted, inventory, today);
      errors := found;
      if found != map[] {
        return Invalid;
      }
      ValidSubmissionKeepsStock(form, inventory, now, today);
      var created := LossService.Create(SubmissionData(form, trainingCompleted), now, today);
      var lot := FindLot(inventory, form.vaccineId, form.lotNumber).value;
      var written := StockWrite(lot, form.quantity.n, today);
      if written.Err? {
        return Rejected(written.error);
      }
      outcome := Recorded(created.value, written.value);
      showForm := false;
      form := EmptyForm(today);
      errors := map[];
      losses := lossFixture;
      inventory := inventoryFixture;
    }
  }
}
