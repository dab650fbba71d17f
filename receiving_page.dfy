/**
 * The receiving page: the shipment form with its inspection counts, the automatic
 * calculation of failed doses, the validator, the status badge of a recorded receipt, and
 * the submission to the receipt service.
 */
module ReceivingPage {

  import opened Wrappers
  import opened Records
  import opened Forms
  import ReceiptService

  /** The form's boxes; the four counts are number boxes, an empty date box is `None`. */
  datatype ReceiptForm = ReceiptForm(
    vaccineId: string,
    lotNumber: string,
    quantitySent: Input,
    quantityReceived: Input,
    dosesPassed: Input,
    dosesFailed: Input,
    discrepancyReason: string,
    receivedDate: Option<Day>)

  datatype ReceiptField =
    | VaccineIdField | LotNumberField | QuantitySentField | QuantityReceivedField
    | DosesPassedField | DosesFailedField | DiscrepancyReasonField | ReceivedDateField

  /** One keystroke or selection: `handleInputChange(field, value)`. */
  datatype ReceiptEdit =
    | SetVaccineId(s: string)
    | SetLotNumber(s: string)
    | SetQuantitySent(x: Input)
    | SetQuantityReceived(x: Input)
    | SetDosesPassed(x: Input)
    | SetDosesFailed(x: Input)
    | SetDiscrepancyReason(s: string)
    | SetReceivedDate(d: Option<Day>)

  function FieldOf(edit: ReceiptEdit): ReceiptField
  {
    match edit
    case SetVaccineId(_) => VaccineIdField
    case SetLotNumber(_) => LotNumberField
    case SetQuantitySent(_) => QuantitySentField
    case SetQuantityReceived(_) => QuantityReceivedField
    case SetDosesPassed(_) => DosesPassedField
    case SetDosesFailed(_) => DosesFailedField
    case SetDiscrepancyReason(_) => DiscrepancyReasonField
    case SetReceivedDate(_) => ReceivedDateField
  }

  /** The blank form: every box empty except the date, which is today. */
  function EmptyForm(today: Day): ReceiptForm
  {
    ReceiptForm("", "", Blank, Blank, Blank, Blank, "", Some(today))
  }

  /** The edited box takes the value and nothing else changes. */
  function Apply(form: ReceiptForm, edit: ReceiptEdit): ReceiptForm
  {
    match edit
    case SetVaccineId(s) => form.(vaccineId := s)
    case SetLotNumber(s) => form.(lotNumber := s)
    case SetQuantitySent(x) => form.(quantitySent := x)
    case SetQuantityReceived(x) => form.(quantityReceived := x)
    case SetDosesPassed(x) => form.(dosesPassed := x)
    case SetDosesFailed(x) => form.(dosesFailed := x)
    case SetDiscrepancyReason(s) => form.(discrepancyReason := s)
    case SetReceivedDate(d) => form.(receivedDate := d)
  }

  /**
   * The received quantity and the passed doses the automatic calculation reads: the edited
   * box's new value as typed (an empty one is NaN), the other box's old value with an empty
   * box read as 0.
   */
  function AutoCalcInputs(form: ReceiptForm, edit: ReceiptEdit): (JsNum, JsNum)
  {
    var received := if edit.SetQuantityReceived? then ParseInt(edit.x) else ParseIntOrZeroBox(form.quantityReceived);
    var passed := if edit.SetDosesPassed? then ParseInt(edit.x) else ParseIntOrZeroBox(form.dosesPassed);
    (received, passed)
  }

  /**
   * The form after an edit. Editing the received quantity or the passed doses also fills the
   * failed doses with `max(0, received - passed)`, but only when the received quantity is
   * positive and the passed doses are a number that is not negative.
   */
  function AfterInput(form: ReceiptForm, edit: ReceiptEdit): (r: ReceiptForm)
    ensures r.(dosesFailed := form.dosesFailed) == Apply(form, edit).(dosesFailed := form.dosesFailed)
    ensures var (received, passed) := AutoCalcInputs(form, edit);
      (edit.SetQuantityReceived? || edit.SetDosesPassed?) && GreaterThan(received, 0) && AtLeast(passed, 0) ==>
        r.dosesFailed == Numeric(if received.v - passed.v > 0 then received.v - passed.v else 0)
    ensures var (received, passed) := AutoCalcInputs(form, edit);
      !((edit.SetQuantityReceived? || edit.SetDosesPassed?) && GreaterThan(received, 0) && AtLeast(passed, 0)) ==>
        r == Apply(form, edit)
  {
    var next := Apply(form, edit);
    if edit.SetQuantityReceived? || edit.SetDosesPassed? then
      var (received, passed) := AutoCalcInputs(form, edit);
      if GreaterThan(received, 0) && AtLeast(passed, 0) then
        next.(dosesFailed := Numeric(if received.v - passed.v > 0 then received.v - passed.v else 0))
      else next
    else next
  }

  /**
   * The point of the calculation: once the received quantity is a positive number and the
   * passed doses a number between 0 and it, either edit leaves the three counts balanced, so
   * the dose check of the validator passes.
   */
  lemma AutoCalcBalances(form: ReceiptForm, edit: ReceiptEdit)
    requires edit.SetQuantityReceived? || edit.SetDosesPassed?
    requires Apply(form, edit).quantityReceived.Numeric? && Apply(form, edit).dosesPassed.Numeric?
    requires 0 <= Apply(form, edit).dosesPassed.n <= Apply(form, edit).quantityReceived.n
    requires Apply(form, edit).quantityReceived.n > 0
    ensures var r := AfterInput(form, edit);
      r.dosesFailed.Numeric? && r.dosesPassed.n + r.dosesFailed.n == r.quantityReceived.n
    ensures DosesBalance(AfterInput(form, edit))
  {
  }

  /** The dose check of the validator: `parseInt(passed || 0) + parseInt(failed || 0) === parseInt(received || 0)`. */
  predicate DosesBalance(form: ReceiptForm)
  {
    !StrictlyDifferent(Plus(ParseIntOrZeroBox(form.dosesPassed), ParseIntOrZeroBox(form.dosesFailed)),
                       ParseIntOrZeroBox(form.quantityReceived))
  }

  /** The reason check of the validator: `parseInt(failed || 0) > 0`. */
  predicate NeedsReason(form: ReceiptForm)
  {
    GreaterThan(ParseIntOrZeroBox(form.dosesFailed), 0)
  }

  /**
   * What a valid form is: vaccine, lot and date given, the four counts whole numbers, the
   * passed and failed doses adding up to the received quantity, and a reason whenever some
   * doses failed.
   */
  predicate ReceiptValid(form: ReceiptForm)
  {
    && form.vaccineId != "" && form.lotNumber != "" && form.receivedDate.Some?
    && form.quantitySent.Numeric? && form.quantityReceived.Numeric?
    && form.dosesPassed.Numeric? && form.dosesFailed.Numeric?
    && form.dosesPassed.n + form.dosesFailed.n == form.quantityReceived.n
    && (form.dosesFailed.n > 0 ==> form.discrepancyReason != "")
  }

  /** Validity read off the validator's own checks: no box empty or unreadable, balanced, explained. */
  lemma ValidIffChecksPass(form: ReceiptForm)
    ensures ReceiptValid(form) <==>
      && form.vaccineId != "" && form.lotNumber != "" && form.receivedDate.Some?
      && form.quantitySent.Numeric? && form.quantityReceived.Numeric?
      && form.dosesPassed.Numeric? && form.dosesFailed.Numeric?
      && DosesBalance(form) && !(NeedsReason(form) && form.discrepancyReason == "")
  {
  }

  /** The "required" message of each box; the reason is required only when doses fail. */
  function RequiredMessage(field: ReceiptField): string
  {
    match field
    case VaccineIdField => "Vaccine is required"
    case LotNumberField => "Lot number is required"
    case QuantitySentField => "Quantity sent is required"
    case QuantityReceivedField => "Quantity received is required"
    case DosesPassedField => "Doses passed inspection is required"
    case DosesFailedField => "Doses failed inspection is required"
    case DiscrepancyReasonField => "Discrepancy reason required when doses fail inspection"
    case ReceivedDateField => "Received date is required"
  }

  const NumberMessage := "Must be a valid number"
  const SumMessage := "Doses passed + failed must equal quantity received"

  /** The box `field` is one `validateForm` requires, and it is empty (`!formData[field]`). */
  predicate IsEmptyBox(form: ReceiptForm, field: ReceiptField)
  {
    match field
    case VaccineIdField => form.vaccineId == ""
    case LotNumberField => form.lotNumber == ""
    case QuantitySentField => form.quantitySent.Blank?
    case QuantityReceivedField => form.quantityReceived.Blank?
    case DosesPassedField => form.dosesPassed.Blank?
    case DosesFailedField => form.dosesFailed.Blank?
    case DiscrepancyReasonField => false
    case ReceivedDateField => form.receivedDate.None?
  }

  /** The first part of `validateForm`: a "required" message for every empty box. */
  method RequiredErrors(form: ReceiptForm) returns (errors: map<ReceiptField, string>)
    ensures VaccineIdField in errors <==> form.vaccineId == ""
    ensures LotNumberField in errors <==> form.lotNumber == ""
    ensures ReceivedDateField in errors <==> form.receivedDate.None?
    ensures QuantitySentField in errors <==> form.quantitySent.Blank?
    ensures QuantityReceivedField in errors <==> form.quantityReceived.Blank?
    ensures DosesPassedField in errors <==> form.dosesPassed.Blank?
    ensures DosesFailedField in errors <==> form.dosesFailed.Blank?
    ensures DiscrepancyReasonField !in errors
    ensures forall f :: f in errors ==> errors[f] == RequiredMessage(f)
  {
    var fields := {VaccineIdField, LotNumberField, QuantitySentField, QuantityReceivedField,
                   DosesPassedField, DosesFailedField, ReceivedDateField};
    errors := map f | f in fields && IsEmptyBox(form, f) :: RequiredMessage(f);
  }

  /** The second part of `validateForm`: "Must be a valid number" for every unreadable count. */
  method NumberErrors(form: ReceiptForm, before: map<ReceiptField, string>) returns (errors: map<ReceiptField, string>)
    ensures SameEntry(errors, before, VaccineIdField)
      && SameEntry(errors, before, LotNumberField)
      && SameEntry(errors, before, ReceivedDateField)
      && SameEntry(errors, before, DiscrepancyReasonField)
    ensures QuantitySentField in errors <==> QuantitySentField in before || form.quantitySent.NonNumeric?
    ensures QuantityReceivedField in errors <==> QuantityReceivedField in before || form.quantityReceived.NonNumeric?
    ensures DosesPassedField in errors <==> DosesPassedField in before || form.dosesPassed.NonNumeric?
    ensures DosesFailedField in errors <==> DosesFailedField in before || form.dosesFailed.NonNumeric?
    ensures form.quantitySent.NonNumeric? ==> errors[QuantitySentField] == NumberMessage
    ensures form.quantityReceived.NonNumeric? ==> errors[QuantityReceivedField] == NumberMessage
    ensures form.dosesPassed.NonNumeric? ==> errors[DosesPassedField] == NumberMessage
    ensures form.dosesFailed.NonNumeric? ==> errors[DosesFailedField] == NumberMessage
    ensures !form.quantitySent.NonNumeric? ==> SameEntry(errors, before, QuantitySentField)
    ensures !form.quantityReceived.NonNumeric? ==> SameEntry(errors, before, QuantityReceivedField)
    ensures !form.dosesPassed.NonNumeric? ==> SameEntry(errors, before, DosesPassedField)
    ensures !form.dosesFailed.NonNumeric? ==> SameEntry(errors, before, DosesFailedField)
  {
    errors := before;
    if form.quantitySent.NonNumeric? { errors := errors[QuantitySentField := NumberMessage]; }
    if form.quantityReceived.NonNumeric? { errors := errors[QuantityReceivedField := NumberMessage]; }
    if form.dosesPassed.NonNumeric? { errors := errors[DosesPassedField := NumberMessage]; }
    if form.dosesFailed.NonNumeric? { errors := errors[DosesFailedField := NumberMessage]; }
  }

  /** The last two parts of `validateForm`: the dose balance and the reason for failed doses. */
  method DoseErrors(form: ReceiptForm, before: map<ReceiptField, string>) returns (errors: map<ReceiptField, string>)
    requires DiscrepancyReasonField !in before
    ensures SameEntry(errors, before, VaccineIdField)
      && SameEntry(errors, before, LotNumberField)
      && SameEntry(errors, before, ReceivedDateField)
      && SameEntry(errors, before, QuantitySentField)
      && SameEntry(errors, before, QuantityReceivedField)
    ensures !DosesBalance(form) ==>
      DosesPassedField in errors && errors[DosesPassedField] == SumMessage
      && DosesFailedField in errors && errors[DosesFailedField] == SumMessage
    ensures DosesBalance(form) ==> SameEntry(errors, before, DosesPassedField) && SameEntry(errors, before, DosesFailedField)
    ensures DiscrepancyReasonField in errors <==> NeedsReason(form) && form.discrepancyReason == ""
    ensures DiscrepancyReasonField in errors ==> errors[DiscrepancyReasonField] == RequiredMessage(DiscrepancyReasonField)
  {
    errors := before;
    if !DosesBalance(form) {
      errors := errors[DosesPassedField := SumMessage][DosesFailedField := SumMessage];
    }
    if NeedsReason(form) && form.discrepancyReason == "" {
      errors := errors[DiscrepancyReasonField := RequiredMessage(DiscrepancyReasonField)];
    }
  }

  /** A map of messages is empty exactly when none of the eight boxes has one. */
  lemma NoErrorsIffEmpty(errors: map<ReceiptField, string>)
    ensures errors == map[] <==>
      (VaccineIdField !in errors && LotNumberField !in errors && QuantitySentField !in errors
       && QuantityReceivedField !in errors && DosesPassedField !in errors && DosesFailedField !in errors
       && DiscrepancyReasonField !in errors && ReceivedDateField !in errors)
  {
    if VaccineIdField !in errors && LotNumberField !in errors && QuantitySentField !in errors
       && QuantityReceivedField !in errors && DosesPassedField !in errors && DosesFailedField !in errors
       && DiscrepancyReasonField !in errors && ReceivedDateField !in errors {
      forall f | f in errors
        ensures false
      {
        match f
        case VaccineIdField =>
        case LotNumberField =>
        case QuantitySentField =>
        case QuantityReceivedField =>
        case DosesPassedField =>
        case DosesFailedField =>
        case DiscrepancyReasonField =>
        case ReceivedDateField =>
      }
      assert errors.Keys == {};
    }
  }

  /**
   * The errors `validateForm` reports for a receipt form: a box is flagged exactly when one of its
   * checks fails, and it shows the message of the last check that failed.
   */
  predicate ReceiptErrorsReported(form: ReceiptForm, errors: map<ReceiptField, string>)
  {
    && Flagged(errors, VaccineIdField, form.vaccineId == "", RequiredMessage(VaccineIdField))
    && Flagged(errors, LotNumberField, form.lotNumber == "", RequiredMessage(LotNumberField))
    && Flagged(errors, ReceivedDateField, form.receivedDate.None?, RequiredMessage(ReceivedDateField))
    && Flagged(errors, QuantitySentField, !form.quantitySent.Numeric?,
               CountMessage(form.quantitySent, QuantitySentField))
    && Flagged(errors, QuantityReceivedField, !form.quantityReceived.Numeric?,
               CountMessage(form.quantityReceived, QuantityReceivedField))
    && Flagged(errors, DosesPassedField, !form.dosesPassed.Numeric? || !DosesBalance(form),
               if !DosesBalance(form) then SumMessage else CountMessage(form.dosesPassed, DosesPassedField))
    && Flagged(errors, DosesFailedField, !form.dosesFailed.Numeric? || !DosesBalance(form),
               if !DosesBalance(form) then SumMessage else CountMessage(form.dosesFailed, DosesFailedField))
    && Flagged(errors, DiscrepancyReasonField, NeedsReason(form) && form.discrepancyReason == "",
               RequiredMessage(DiscrepancyReasonField))
  }

  /** The message of an empty or unreadable count box before the dose check. */
  function CountMessage(x: Input, field: ReceiptField): string
  {
    if x.Blank? then RequiredMessage(field) else NumberMessage
  }

  /**
   * `validateForm`: one message per offending box, later checks overwriting earlier ones. An
   * unbalanced count marks both dose boxes with the same message; an unreadable dose box is
   * always unbalanced (NaN equals nothing), so its "Must be a valid number" never shows.
   */
  method ValidateReceipt(form: ReceiptForm) returns (errors: map<ReceiptField, string>)
    ensures ReceiptErrorsReported(form, errors)
    ensures errors == map[] <==> ReceiptValid(form)
  {
    var required := RequiredErrors(form);
    var numbers := NumberErrors(form, required);
    errors := DoseErrors(form, numbers);
    TextBoxReported(VaccineIdField, form.vaccineId == "", required, numbers, errors);
    TextBoxReported(LotNumberField, form.lotNumber == "", required, numbers, errors);
    TextBoxReported(ReceivedDateField, form.receivedDate.None?, required, numbers, errors);
    CountBoxReported(form.quantitySent, QuantitySentField, required, numbers, errors);
    CountBoxReported(form.quantityReceived, QuantityReceivedField, required, numbers, errors);
    DoseBoxReported(form, form.dosesPassed, DosesPassedField, required, numbers, errors);
    DoseBoxReported(form, form.dosesFailed, DosesFailedField, required, numbers, errors);
    ReportedEmptyIffValid(form, errors);
  }

  /** A text or date box keeps its "required" message through the count and dose checks. */
  lemma TextBoxReported(f: ReceiptField, empty: bool, required: map<ReceiptField, string>,
                        numbers: map<ReceiptField, string>, errors: map<ReceiptField, string>)
    requires f in required <==> empty
    requires f in required ==> required[f] == RequiredMessage(f)
    requires SameEntry(numbers, required, f) && SameEntry(errors, numbers, f)
    ensures Flagged(errors, f, empty, RequiredMessage(f))
  {
  }

  /** A quantity box: "required" when empty, then "Must be a valid number" when unreadable. */
  lemma CountBoxReported(x: Input, f: ReceiptField, required: map<ReceiptField, string>,
                         numbers: map<ReceiptField, string>, errors: map<ReceiptField, string>)
    requires f in required <==> x.Blank?
    requires f in required ==> required[f] == RequiredMessage(f)
    requires f in numbers <==> f in required || x.NonNumeric?
    requires x.NonNumeric? ==> numbers[f] == NumberMessage
    requires !x.NonNumeric? ==> SameEntry(numbers, required, f)
    requires SameEntry(errors, numbers, f)
    ensures Flagged(errors, f, !x.Numeric?, CountMessage(x, f))
  {
  }

  /** A dose box: as a quantity box, except that an unbalanced form overwrites it with the sum message. */
  lemma DoseBoxReported(form: ReceiptForm, x: Input, f: ReceiptField, required: map<ReceiptField, string>,
                        numbers: map<ReceiptField, string>, errors: map<ReceiptField, string>)
    requires f in required <==> x.Blank?
    requires f in required ==> required[f] == RequiredMessage(f)
    requires f in numbers <==> f in required || x.NonNumeric?
    requires x.NonNumeric? ==> numbers[f] == NumberMessage
    requires !x.NonNumeric? ==> SameEntry(numbers, required, f)
    requires !DosesBalance(form) ==> f in errors && errors[f] == SumMessage
    requires DosesBalance(form) ==> SameEntry(errors, numbers, f)
    ensures Flagged(errors, f, !x.Numeric? || !DosesBalance(form),
                    if !DosesBalance(form) then SumMessage else CountMessage(x, f))
  {
  }

  /**
   * Counts that read as numbers but do not add up (5 passed and 3 failed of 10 received) show
   * the sum message on both dose boxes.
   */
  lemma UnbalancedCountsShowSumMessage(errors: map<ReceiptField, string>, today: Day)
    requires ReceiptErrorsReported(ReceiptForm("v", "l", Numeric(10), Numeric(10), Numeric(5), Numeric(3), "r", Some(today)), errors)
    ensures errors[DosesPassedField] == SumMessage && errors[DosesFailedField] == SumMessage
  {
  }

  /** Whatever map reports a form's errors is empty exactly when the form is valid. */
  lemma ReportedEmptyIffValid(form: ReceiptForm, errors: map<ReceiptField, string>)
    requires ReceiptErrorsReported(form, errors)
    ensures errors == map[] <==> ReceiptValid(form)
  {
    NoErrorsIffEmpty(errors);
    ValidIffChecksPass(form);
  }

  /** The receipt sent to `create`: the counts parsed, no id and no status of its own. */
  function SubmissionData(form: ReceiptForm): (r: Draft<Receipt>)
    requires form.quantitySent.Numeric? && form.quantityReceived.Numeric?
    requires form.dosesPassed.Numeric? && form.dosesFailed.Numeric?
    ensures r.id.None? && r.fields.status == ""
    ensures r.fields.quantitySent == form.quantitySent.n && r.fields.quantityReceived == form.quantityReceived.n
    ensures r.fields.dosesPassed == form.dosesPassed.n && r.fields.dosesFailed == form.dosesFailed.n
  {
    Draft(None, Receipt(0, form.receivedDate, form.vaccineId, form.lotNumber,
                        form.quantitySent.n, form.quantityReceived.n, form.dosesPassed.n, form.dosesFailed.n,
                        form.discrepancyReason, ""))
  }

  /**
   * A valid form is accepted by the receipt service unless the quantity sent is 0 (a falsy
   * number there), and the stored receipt is 'pending' with its counts balanced.
   */
  lemma ValidSubmissionIsPending(form: ReceiptForm, now: int, today: Day)
    requires ReceiptValid(form)
    ensures ReceiptService.Create(SubmissionData(form), now, today).Ok? <==> form.quantitySent.n != 0
    ensures var r := ReceiptService.Create(SubmissionData(form), now, today);
      r.Ok? ==> && r.value.status == "pending" && r.value.id == now
                && r.value.dosesPassed + r.value.dosesFailed == r.value.quantityReceived
                && r.value.receivedDate == form.receivedDate
                && (r.value.dosesFailed > 0 ==> r.value.discrepancyReason != "")
  {
  }

  /** The badge a recorded receipt shows. */
  datatype ReceiptBadge = MultipleIssues | QuantityDiscrepancy | FailedInspection | Complete

  /** `getStatusBadge`: a quantity discrepancy, failed doses, both, or neither. */
  function StatusBadge(receipt: Receipt): (r: ReceiptBadge)
    ensures r == MultipleIssues <==> receipt.quantitySent != receipt.quantityReceived && receipt.dosesFailed > 0
    ensures r == QuantityDiscrepancy <==> receipt.quantitySent != receipt.quantityReceived && receipt.dosesFailed <= 0
    ensures r == FailedInspection <==> receipt.quantitySent == receipt.quantityReceived && receipt.dosesFailed > 0
    ensures r == Complete <==> receipt.quantitySent == receipt.quantityReceived && receipt.dosesFailed <= 0
  {
    var discrepancy := receipt.quantitySent != receipt.quantityReceived;
    var hasFailed := receipt.dosesFailed > 0;
    if discrepancy && hasFailed then MultipleIssues
    else if discrepancy then QuantityDiscrepancy
    else if hasFailed then FailedInspection
    else Complete
  }

  /** What became of a submission. */
  datatype Outcome = Invalid | Rejected(error: ServiceError) | Recorded(receipt: Receipt)

  /** The page state; `receiptFixture` is what the receipt service's `getAll` returns. */
  class Page {
    const receiptFixture: seq<Receipt>
    var receipts: seq<Receipt>
    var form: ReceiptForm
    var errors: map<ReceiptField, string>
    var showForm: bool

    constructor(receiptFixture: seq<Receipt>, today: Day)
      ensures this.receiptFixture == receiptFixture && receipts == receiptFixture
      ensures form == EmptyForm(today) && errors == map[] && !showForm
    {
      this.receiptFixture := receiptFixture;
      receipts := receiptFixture;
      form := EmptyForm(today);
      errors := map[];
      showForm := false;
    }

    /** `handleInputChange`: the edit with its automatic calculation, and the box's error cleared. */
    method HandleInputChange(edit: ReceiptEdit)
      modifies this
      ensures form == AfterInput(old(form), edit)
      ensures errors == ClearError(old(errors), FieldOf(edit))
      ensures unchanged(`receipts, `showForm)
    {
      form := AfterInput(form, edit);
      errors := ClearError(errors, FieldOf(edit));
    }

    /**
     * `handleSubmit`: an invalid form only shows its errors; a valid one is sent to the receipt
     * service, and on success the form is reset and the list reloaded from the fixture.
     */
    method HandleSubmit(now: int, today: Day) returns (outcome: Outcome)
      modifies this
      ensures outcome.Invalid? <==> !ReceiptValid(old(form))
      ensures outcome.Invalid? ==> errors != map[] && ReceiptErrorsReported(old(form), errors)
      ensures !outcome.Invalid? ==> errors == map[]
      ensures outcome.Rejected? <==> ReceiptValid(old(form)) && old(form).quantitySent.n == 0
      ensures !outcome.Recorded? ==> form == old(form) && receipts == old(receipts) && showForm == old(showForm)
      ensures outcome.Recorded? ==>
        && outcome.receipt.status == "pending"
        && outcome.receipt.dosesPassed + outcome.receipt.dosesFailed == outcome.receipt.quantityReceived
        && outcome.receipt.quantitySent == old(form).quantitySent.n
      ensures outcome.Recorded? ==>
        form == EmptyForm(today) && errors == map[] && !showForm && receipts == receiptFixture
    {
      var found := ValidateReceipt(form);
      errors := found;
      if found != map[] {
        return Invalid;
      }
      ValidSubmissionIsPending(form, now, today);
      var created := ReceiptService.Create(SubmissionData(form), now, today);
      if created.Err? {
        return Rejected(created.error);
      }
      outcome := Recorded(created.value);
      showForm := false;
      form := EmptyForm(today);
      errors := map[];
      receipts := receiptFixture;
    }
  }
}
