/**
 * The reports page: which records a report covers, the rows and summary it shows, the CSV it
 * downloads, and the lists of vaccines and locations offered by its filters.
 */
module Reports {

  import opened Wrappers
  import opened Records
  import opened Seqs
  import opened Text
  import opened Alerts
  import opened Csv
  import AdministrationService
  import LossPage

  datatype ReportKind = InventoryReport | AdministrationReport | LossReport | MonthlySummary

  /** The three filter boxes; an empty box (`''`, or `None` for the status) filters nothing. */
  datatype ReportFilters = ReportFilters(vaccineType: string, location: string, status: Option<AlertLevel>)

  /** The date range boxes; an empty box makes `new Date('')` invalid, so no date lies in the range. */
  datatype DateRange = DateRange(start: Option<Day>, end: Option<Day>)

  /** What the three services' `getAll` return. */
  datatype ReportData = ReportData(
    inventory: seq<InventoryItem>,
    administrations: seq<AdministrationRecord>,
    losses: seq<LossRecord>)

  /** The records a report covers: one list of the report's own kind, or none for the summary. */
  datatype Covered =
    | Lots(items: seq<InventoryItem>)
    | Administrations(records: seq<AdministrationRecord>)
    | Losses(losses: seq<LossRecord>)
    | Nothing

  /** `getInventoryStatus`: the alert level's name as the page spells it. */
  function StatusName(level: AlertLevel): string
  {
    match level
    case Expired => "expired"
    case Critical => "critical"
    case Warning => "warning"
    case LowStock => "low-stock"
    case Good => "good"
  }

  /** The status a name stands for, the inverse of `StatusName`. */
  function LevelNamed(name: string): Option<AlertLevel>
  {
    if name == "expired" then Some(Expired)
    else if name == "critical" then Some(Critical)
    else if name == "warning" then Some(Warning)
    else if name == "low-stock" then Some(LowStock)
    else if name == "good" then Some(Good)
    else None
  }

  /** Each status name reads back as its level, so filtering on the name is filtering on the level. */
  lemma StatusNameReadsBack(level: AlertLevel)
    ensures LevelNamed(StatusName(level)) == Some(level)
  {
    match level
    case Expired =>
    case Critical => assert "critical"[0] != "expired"[0];
    case Warning => assert "warning"[0] != "expired"[0] && "warning"[0] != "critical"[0];
    case LowStock =>
      assert |"low-stock"| == 9;
    case Good =>
      assert |"good"| == 4;
  }

  /** A status name holds no comma, double quote or line break. */
  lemma StatusNameIsPlain(level: AlertLevel)
    ensures ',' !in StatusName(level) && '"' !in StatusName(level) && '\n' !in StatusName(level)
  {
  }

  /** `itemDate >= startDate && itemDate <= endDate`: false for a missing date or an empty box. */
  predicate InReportRange(date: Option<Day>, range: DateRange)
  {
    date.Some? && range.start.Some? && range.end.Some? && range.start.value <= date.value <= range.end.value
  }

  /** The inventory report's test: vaccine, location and status, each only when its box is filled. */
  predicate LotMatches(item: InventoryItem, filters: ReportFilters, today: Day)
  {
    && (filters.vaccineType == "" || item.vaccineId == filters.vaccineType)
    && (filters.location == "" || item.location == filters.location)
    && (filters.status.None? || AlertLevelOf(item, today) == filters.status.value)
  }

  /**
   * `getFilteredData`: the lots passing the inventory test; the administrations or losses
   * dated within the range and of the chosen vaccine; nothing for the monthly summary. The
   * location and status boxes play no part in the two dated reports.
   */
  function CoveredBy(kind: ReportKind, data: ReportData, range: DateRange, filters: ReportFilters, today: Day): (r: Covered)
    ensures kind == InventoryReport ==> (r.Lots? &&
      forall x :: x in r.items <==> x in data.inventory && LotMatches(x, filters, today))
    ensures kind == AdministrationReport ==> (r.Administrations? &&
      forall x :: x in r.records <==> (x in data.administrations && InReportRange(x.administeredDate, range)
        && (filters.vaccineType == "" || x.vaccineId == filters.vaccineType)))
    ensures kind == LossReport ==> (r.Losses? &&
      forall x :: x in r.losses <==> (x in data.losses && InReportRange(x.reportedDate, range)
        && (filters.vaccineType == "" || x.vaccineId == filters.vaccineType)))
    ensures kind == MonthlySummary <==> r == Nothing
  {
    match kind
    case InventoryReport =>
      Lots(Filter(data.inventory, (item: InventoryItem) => LotMatches(item, filters, today)))
    case AdministrationReport =>
      Administrations(Filter(data.administrations, (item: AdministrationRecord) =>
        InReportRange(item.administeredDate, range) && (filters.vaccineType == "" || item.vaccineId == filters.vaccineType)))
    case LossReport =>
      Losses(Filter(data.losses, (item: LossRecord) =>
        InReportRange(item.reportedDate, range) && (filters.vaccineType == "" || item.vaccineId == filters.vaccineType)))
    case MonthlySummary => Nothing
  }

  /** Widening the date range never drops a record from a dated report. */
  lemma WiderRangeCoversMore(kind: ReportKind, data: ReportData, narrow: DateRange, wide: DateRange, filters: ReportFilters, today: Day)
    requires narrow.start.Some? && narrow.end.Some? && wide.start.Some? && wide.end.Some?
    requires wide.start.value <= narrow.start.value && narrow.end.value <= wide.end.value
    ensures kind == AdministrationReport ==>
      forall x :: x in CoveredBy(kind, data, narrow, filters, today).records ==> x in CoveredBy(kind, data, wide, filters, today).records
    ensures kind == LossReport ==>
      forall x :: x in CoveredBy(kind, data, narrow, filters, today).losses ==> x in CoveredBy(kind, data, wide, filters, today).losses
  {
  }

  const InventoryHeaders := ["Vaccine", "Lot Number", "Quantity", "Expiration Date", "Location", "Status"]
  const AdministrationHeaders := ["Date", "Vaccine", "Lot Number", "Age Group", "Doses Used", "Provider"]
  const LossHeaders := ["Date", "Vaccine", "Lot Number", "Quantity Lost", "Reason", "Details"]

  /** One lot's row, its date written by `format` (a parameter: 'MM/dd/yyyy' is not modelled). */
  function LotRow(item: InventoryItem, today: Day, format: Day -> string): seq<Cell>
    requires item.expirationDate.Some?
  {
    [Str(item.vaccineId), Str(item.lotNumber), Num(item.quantityOnHand), Str(format(item.expirationDate.value)),
     Str(item.location), Str(StatusName(AlertLevelOf(item, today)))]
  }

  function AdministrationRow(record: AdministrationRecord, format: Day -> string): seq<Cell>
    requires record.administeredDate.Some?
  {
    [Str(format(record.administeredDate.value)), Str(record.vaccineId), Str(record.lotNumber),
     Str(record.patientAgeGroup), Num(record.dosesUsed), Str(record.providerId)]
  }

  /** A loss's row; `details || ''` is the details themselves, since an absent text is ''. */
  function LossRow(loss: LossRecord, format: Day -> string): seq<Cell>
    requires loss.reportedDate.Some?
  {
    [Str(format(loss.reportedDate.value)), Str(loss.vaccineId), Str(loss.lotNumber),
     Num(loss.quantity), Str(loss.reason), Str(loss.details)]
  }

  /**
   * `generateReportContent`: one row per covered record under the report's headers. Formatting
   * a missing date throws, so a report covering an undated record has no content (`None`).
   */
  function ReportContent(covered: Covered, today: Day, format: Day -> string): (r: Option<Report>)
    ensures covered.Lots? ==>
      (r.Some? <==> forall i :: 0 <= i < |covered.items| ==> covered.items[i].expirationDate.Some?)
    ensures covered.Administrations? ==>
      (r.Some? <==> forall i :: 0 <= i < |covered.records| ==> covered.records[i].administeredDate.Some?)
    ensures covered.Losses? ==>
      (r.Some? <==> forall i :: 0 <= i < |covered.losses| ==> covered.losses[i].reportedDate.Some?)
    ensures covered.Nothing? ==> r == Some(Report([], []))
    ensures r.Some? && covered.Lots? ==> r.value.headers == InventoryHeaders && |r.value.rows| == |covered.items|
    ensures r.Some? && covered.Administrations? ==> r.value.headers == AdministrationHeaders && |r.value.rows| == |covered.records|
    ensures r.Some? && covered.Losses? ==> r.value.headers == LossHeaders && |r.value.rows| == |covered.losses|
    ensures r.Some? ==> forall k :: 0 <= k < |r.value.rows| ==> |r.value.rows[k]| == |r.value.headers|
    ensures r.Some? && covered.Lots? ==>
      forall i :: 0 <= i < |covered.items| ==> r.value.rows[i] == LotRow(covered.items[i], today, format)
    ensures r.Some? && covered.Administrations? ==>
      forall i :: 0 <= i < |covered.records| ==> r.value.rows[i] == AdministrationRow(covered.records[i], format)
    ensures r.Some? && covered.Losses? ==>
      forall i :: 0 <= i < |covered.losses| ==> r.value.rows[i] == LossRow(covered.losses[i], format)
  {
    match covered
    case Lots(items) =>
      if forall i :: 0 <= i < |items| ==> items[i].expirationDate.Some? then
        Some(Report(InventoryHeaders, seq(|items|, i requires 0 <= i < |items| => LotRow(items[i], today, format))))
      else None
    case Administrations(records) =>
      if forall i :: 0 <= i < |records| ==> records[i].administeredDate.Some? then
        Some(Report(AdministrationHeaders, seq(|records|, i requires 0 <= i < |records| => AdministrationRow(records[i], format))))
      else None
    case Losses(losses) =>
      if forall i :: 0 <= i < |losses| ==> losses[i].reportedDate.Some? then
        Some(Report(LossHeaders, seq(|losses|, i requires 0 <= i < |losses| => LossRow(losses[i], format))))
      else None
    case Nothing => Some(Report([], []))
  }

  /** What `generateReport` ends with: the CSV text, or the failure toast. */
  datatype Generated = Downloaded(csv: string) | Failed(message: string)

  /** `generateReport`: the CSV of the covered records, or 'Failed to generate report' when content throws. */
  function GenerateReport(kind: ReportKind, data: ReportData, range: DateRange, filters: ReportFilters, today: Day,
                          format: Day -> string): (r: Generated)
    ensures r.Failed? <==> ReportContent(CoveredBy(kind, data, range, filters, today), today, format).None?
    ensures r.Failed? ==> r.message == "Failed to generate report"
    ensures kind == MonthlySummary ==> r == Downloaded(NoDataMessage)
    ensures r.Downloaded? ==> r.csv == CreateCsv(ReportContent(CoveredBy(kind, data, range, filters, today), today, format).value)
  {
    match ReportContent(CoveredBy(kind, data, range, filters, today), today, format)
    case None => Failed("Failed to generate report")
    case Some(report) => Downloaded(CreateCsv(report))
  }

  /** No text a lot puts into its row holds a double quote or a line break. */
  predicate PlainLot(item: InventoryItem, format: Day -> string)
    requires item.expirationDate.Some?
  {
    var texts := [item.vaccineId, item.lotNumber, format(item.expirationDate.value), item.location];
    forall i :: 0 <= i < |texts| ==> '"' !in texts[i] && '\n' !in texts[i]
  }

  /** The texts of a lot's row as a CSV reader sees them. */
  function LotTexts(item: InventoryItem, today: Day, format: Day -> string): seq<string>
    requires item.expirationDate.Some?
  {
    [item.vaccineId, item.lotNumber, IntToString(item.quantityOnHand), format(item.expirationDate.value),
     item.location, StatusName(AlertLevelOf(item, today))]
  }

  /** No inventory header holds a comma, a double quote or a line break. */
  lemma InventoryHeadersArePlain()
    ensures forall i :: 0 <= i < |InventoryHeaders| ==>
      ',' !in InventoryHeaders[i] && '"' !in InventoryHeaders[i] && '\n' !in InventoryHeaders[i]
  {
  }

  /** No administration header holds a comma, a double quote or a line break. */
  lemma AdministrationHeadersArePlain()
    ensures forall i :: 0 <= i < |AdministrationHeaders| ==>
      ',' !in AdministrationHeaders[i] && '"' !in AdministrationHeaders[i] && '\n' !in AdministrationHeaders[i]
  {
  }

  /** No loss header holds a comma, a double quote or a line break. */
  lemma LossHeadersArePlain()
    ensures forall i :: 0 <= i < |LossHeaders| ==>
      ',' !in LossHeaders[i] && '"' !in LossHeaders[i] && '\n' !in LossHeaders[i]
  {
  }

  /** A plain lot's row holds no double quote or line break, and its texts are the lot's texts. */
  lemma LotRowIsPlain(item: InventoryItem, today: Day, format: Day -> string)
    requires item.expirationDate.Some? && PlainLot(item, format)
    ensures var row := LotRow(item, today, format);
      forall j :: 0 <= j < |row| ==> '"' !in Raw(row[j]) && '\n' !in Raw(row[j])
    ensures RawRow(LotRow(item, today, format)) == LotTexts(item, today, format)
  {
    var texts := [item.vaccineId, item.lotNumber, format(item.expirationDate.value), item.location];
    assert texts[0] == item.vaccineId && texts[1] == item.lotNumber;
    assert texts[2] == format(item.expirationDate.value) && texts[3] == item.location;
    NumberTextIsPlain(item.quantityOnHand);
    StatusNameIsPlain(AlertLevelOf(item, today));
  }

  /** The inventory report of dated, plain lots is plain, and its rows' texts are the lots' texts. */
  lemma LotReportIsPlain(items: seq<InventoryItem>, today: Day, format: Day -> string)
    requires forall i :: 0 <= i < |items| ==> items[i].expirationDate.Some? && PlainLot(items[i], format)
    ensures ReportContent(Lots(items), today, format).Some?
    ensures Plain(ReportContent(Lots(items), today, format).value)
    ensures Map(ReportContent(Lots(items), today, format).value.rows, RawRow)
      == seq(|items|, i requires 0 <= i < |items| => LotTexts(items[i], today, format))
  {
    var rows := seq(|items|, i requires 0 <= i < |items| => LotRow(items[i], today, format));
    assert ReportContent(Lots(items), today, format) == Some(Report(InventoryHeaders, rows));
    forall r | 0 <= r < |rows|
      ensures forall j :: 0 <= j < |rows[r]| ==> '"' !in Raw(rows[r][j]) && '\n' !in Raw(rows[r][j])
      ensures RawRow(rows[r]) == LotTexts(items[r], today, format)
    {
      LotRowIsPlain(items[r], today, format);
    }
    InventoryHeadersArePlain();
    assert Plain(Report(InventoryHeaders, rows));
  }

  /**
   * The downloaded inventory CSV means what the page shows: read back, it is the header line
   * and then, for each covered lot in order, its vaccine, lot, quantity, date, location and status.
   */
  lemma InventoryCsvReadsBack(data: ReportData, filters: ReportFilters, today: Day, format: Day -> string)
    requires var items := CoveredBy(InventoryReport, data, DateRange(None, None), filters, today).items;
      && items != []
      && (forall i :: 0 <= i < |items| ==> items[i].expirationDate.Some? && PlainLot(items[i], format))
    ensures var items := CoveredBy(InventoryReport, data, DateRange(None, None), filters, today).items;
      && GenerateReport(InventoryReport, data, DateRange(None, None), filters, today, format).Downloaded?
      && ReadCsv(GenerateReport(InventoryReport, data, DateRange(None, None), filters, today, format).csv)
         == [InventoryHeaders] + seq(|items|, i requires 0 <= i < |items| => LotTexts(items[i], today, format))
  {
    var items := CoveredBy(InventoryReport, data, DateRange(None, None), filters, today).items;
    LotReportIsPlain(items, today, format);
    var report := ReportContent(Lots(items), today, format).value;
    CsvReadsBack(report);
  }

  /**
   * A report whose headers and cells are plain and whose rows' texts are `texts` reads back as
   * the headers and then `texts`.
   */
  lemma PlainRowsReadBack(headers: seq<string>, rows: seq<seq<Cell>>, texts: seq<seq<string>>)
    requires |headers| >= 1 && rows != [] && |texts| == |rows|
    requires forall i :: 0 <= i < |headers| ==> ',' !in headers[i] && '"' !in headers[i] && '\n' !in headers[i]
    requires forall r :: 0 <= r < |rows| ==> |rows[r]| >= 1 && RawRow(rows[r]) == texts[r]
    requires forall r, j :: 0 <= r < |rows| && 0 <= j < |rows[r]| ==> '"' !in Raw(rows[r][j]) && '\n' !in Raw(rows[r][j])
    ensures ReadCsv(CreateCsv(Report(headers, rows))) == [headers] + texts
  {
    CsvReadsBack(Report(headers, rows));
    assert Map(rows, RawRow) == texts;
  }

  /** No text an administration puts into its row holds a double quote or a line break. */
  predicate PlainAdministration(record: AdministrationRecord, format: Day -> string)
    requires record.administeredDate.Some?
  {
    var texts := [format(record.administeredDate.value), record.vaccineId, record.lotNumber,
                  record.patientAgeGroup, record.providerId];
    forall i :: 0 <= i < |texts| ==> '"' !in texts[i] && '\n' !in texts[i]
  }

  /** The texts of an administration's row as a CSV reader sees them. */
  function AdministrationTexts(record: AdministrationRecord, format: Day -> string): seq<string>
    requires record.administeredDate.Some?
  {
    [format(record.administeredDate.value), record.vaccineId, record.lotNumber, record.patientAgeGroup,
     IntToString(record.dosesUsed), record.providerId]
  }

  /** A plain administration's row holds no double quote or line break, and its texts are the record's. */
  lemma AdministrationRowIsPlain(record: AdministrationRecord, format: Day -> string)
    requires record.administeredDate.Some? && PlainAdministration(record, format)
    ensures var row := AdministrationRow(record, format);
      forall j :: 0 <= j < |row| ==> '"' !in Raw(row[j]) && '\n' !in Raw(row[j])
    ensures RawRow(AdministrationRow(record, format)) == AdministrationTexts(record, format)
  {
    var texts := [format(record.administeredDate.value), record.vaccineId, record.lotNumber,
                  record.patientAgeGroup, record.providerId];
    assert texts[0] == format(record.administeredDate.value) && texts[1] == record.vaccineId;
    assert texts[2] == record.lotNumber && texts[3] == record.patientAgeGroup && texts[4] == record.providerId;
    NumberTextIsPlain(record.dosesUsed);
  }

  /** The administration report of dated, plain records reads back as its headers and the records' texts. */
  lemma AdministrationReportReadsBack(records: seq<AdministrationRecord>, today: Day, format: Day -> string)
    requires records != []
    requires forall i :: 0 <= i < |records| ==> records[i].administeredDate.Some? && PlainAdministration(records[i], format)
    ensures ReportContent(Administrations(records), today, format).Some?
    ensures ReadCsv(CreateCsv(ReportContent(Administrations(records), today, format).value))
      == [AdministrationHeaders] + seq(|records|, i requires 0 <= i < |records| => AdministrationTexts(records[i], format))
  {
    var rows := seq(|records|, i requires 0 <= i < |records| => AdministrationRow(records[i], format));
    var texts := seq(|records|, i requires 0 <= i < |records| => AdministrationTexts(records[i], format));
    assert ReportContent(Administrations(records), today, format) == Some(Report(AdministrationHeaders, rows));
    forall r | 0 <= r < |rows|
      ensures |rows[r]| >= 1 && RawRow(rows[r]) == texts[r]
      ensures forall j :: 0 <= j < |rows[r]| ==> '"' !in Raw(rows[r][j]) && '\n' !in Raw(rows[r][j])
    {
      AdministrationRowIsPlain(records[r], format);
    }
    AdministrationHeadersArePlain();
    PlainRowsReadBack(AdministrationHeaders, rows, texts);
  }

  /**
   * The downloaded administration CSV means what the page shows: read back, it is the header
   * line and then, for each covered record in order, its date, vaccine, lot, age group, doses
   * and provider.
   */
  lemma AdministrationCsvReadsBack(data: ReportData, range: DateRange, filters: ReportFilters, today: Day, format: Day -> string)
    requires var records := CoveredBy(AdministrationReport, data, range, filters, today).records;
      && records != []
      && (forall i :: 0 <= i < |records| ==> records[i].administeredDate.Some? && PlainAdministration(records[i], format))
    ensures var records := CoveredBy(AdministrationReport, data, range, filters, today).records;
      && GenerateReport(AdministrationReport, data, range, filters, today, format).Downloaded?
      && ReadCsv(GenerateReport(AdministrationReport, data, range, filters, today, format).csv)
         == [AdministrationHeaders] + seq(|records|, i requires 0 <= i < |records| => AdministrationTexts(records[i], format))
  {
    var records := CoveredBy(AdministrationReport, data, range, filters, today).records;
    AdministrationReportReadsBack(records, today, format);
  }

  /** No text a loss puts into its row holds a double quote or a line break. */
  predicate PlainLoss(loss: LossRecord, format: Day -> string)
    requires loss.reportedDate.Some?
  {
    var texts := [format(loss.reportedDate.value), loss.vaccineId, loss.lotNumber, loss.reason, loss.details];
    forall i :: 0 <= i < |texts| ==> '"' !in texts[i] && '\n' !in texts[i]
  }

  /** The texts of a loss's row as a CSV reader sees them. */
  function LossTexts(loss: LossRecord, format: Day -> string): seq<string>
    requires loss.reportedDate.Some?
  {
    [format(loss.reportedDate.value), loss.vaccineId, loss.lotNumber, IntToString(loss.quantity),
     loss.reason, loss.details]
  }

  /** A plain loss's row holds no double quote or line break, and its texts are the loss's. */
  lemma LossRowIsPlain(loss: LossRecord, format: Day -> string)
    requires loss.reportedDate.Some? && PlainLoss(loss, format)
    ensures var row := LossRow(loss, format);
      forall j :: 0 <= j < |row| ==> '"' !in Raw(row[j]) && '\n' !in Raw(row[j])
    ensures RawRow(LossRow(loss, format)) == LossTexts(loss, format)
  {
    var texts := [format(loss.reportedDate.value), loss.vaccineId, loss.lotNumber, loss.reason, loss.details];
    assert texts[0] == format(loss.reportedDate.value) && texts[1] == loss.vaccineId;
    assert texts[2] == loss.lotNumber && texts[3] == loss.reason && texts[4] == loss.details;
    NumberTextIsPlain(loss.quantity);
  }

  /** The loss report of dated, plain records reads back as its headers and the records' texts. */
  lemma LossReportReadsBack(losses: seq<LossRecord>, today: Day, format: Day -> string)
    requires losses != []
    requires forall i :: 0 <= i < |losses| ==> losses[i].reportedDate.Some? && PlainLoss(losses[i], format)
    ensures ReportContent(Losses(losses), today, format).Some?
    ensures ReadCsv(CreateCsv(ReportContent(Losses(losses), today, format).value))
      == [LossHeaders] + seq(|losses|, i requires 0 <= i < |losses| => LossTexts(losses[i], format))
  {
    var rows := seq(|losses|, i requires 0 <= i < |losses| => LossRow(losses[i], format));
    var texts := seq(|losses|, i requires 0 <= i < |losses| => LossTexts(losses[i], format));
    assert ReportContent(Losses(losses), today, format) == Some(Report(LossHeaders, rows));
    forall r | 0 <= r < |rows|
      ensures |rows[r]| >= 1 && RawRow(rows[r]) == texts[r]
      ensures forall j :: 0 <= j < |rows[r]| ==> '"' !in Raw(rows[r][j]) && '\n' !in Raw(rows[r][j])
    {
      LossRowIsPlain(losses[r], format);
    }
    LossHeadersArePlain();
    PlainRowsReadBack(LossHeaders, rows, texts);
  }

  /**
   * The downloaded loss CSV means what the page shows: read back, it is the header line and
   * then, for each covered loss in order, its date, vaccine, lot, quantity, reason and details.
   */
  lemma LossCsvReadsBack(data: ReportData, range: DateRange, filters: ReportFilters, today: Day, format: Day -> string)
    requires var losses := CoveredBy(LossReport, data, range, filters, today).losses;
      && losses != []
      && (forall i :: 0 <= i < |losses| ==> losses[i].reportedDate.Some? && PlainLoss(losses[i], format))
    ensures var losses := CoveredBy(LossReport, data, range, filters, today).losses;
      && GenerateReport(LossReport, data, range, filters, today, format).Downloaded?
      && ReadCsv(GenerateReport(LossReport, data, range, filters, today, format).csv)
         == [LossHeaders] + seq(|losses|, i requires 0 <= i < |losses| => LossTexts(losses[i], format))
  {
    var losses := CoveredBy(LossReport, data, range, filters, today).losses;
    LossReportReadsBack(losses, today, format);
  }

  /** The cards above a report. */
  datatype ReportSummary =
    | InventorySummary(total: nat, expired: nat, critical: nat, totalDoses: int)
    | AdministrationSummary(total: nat, totalDoses: int, uniqueVaccines: nat)
    | LossSummary(total: nat, totalDoses: int, estimatedValue: int)
    | NoSummary

  function QuantityOnHand(item: InventoryItem): int { item.quantityOnHand }

  /**
   * `getReportSummary` over the covered records: counts of expired and critical lots and the
   * doses on hand; doses given and distinct vaccines; doses lost and their value at 50 each.
   * The date-range label is text formatting and is not modelled.
   */
  function Summarize(covered: Covered, today: Day): (r: ReportSummary)
    ensures covered.Lots? ==> (r.InventorySummary? && r.total == |covered.items|
      && r.expired == |Filter(covered.items, AtLevel(Expired, today))|
      && r.critical == |Filter(covered.items, AtLevel(Critical, today))|
      && r.expired + r.critical <= r.total
      && r.totalDoses == Sum(covered.items, QuantityOnHand))
    ensures covered.Administrations? ==> (r.AdministrationSummary? && r.total == |covered.records|
      && r.totalDoses == Sum(covered.records, AdministrationService.DosesUsed)
      && r.uniqueVaccines == |set v | v in Map(covered.records, AdministrationService.VaccineOf)|
      && r.uniqueVaccines <= r.total)
    ensures covered.Losses? ==> (r.LossSummary? && r.total == |covered.losses|
      && r.totalDoses == LossPage.TotalLosses(covered.losses)
      && r.estimatedValue == 50 * r.totalDoses)
    ensures covered.Nothing? <==> r == NoSummary
  {
    match covered
    case Lots(items) =>
      CountDisjoint(items, AtLevel(Expired, today), AtLevel(Critical, today));
      CountIsFilterLength(items, AtLevel(Expired, today));
      CountIsFilterLength(items, AtLevel(Critical, today));
      InventorySummary(|items|, Count(items, AtLevel(Expired, today)), Count(items, AtLevel(Critical, today)),
                       Sum(items, QuantityOnHand))
    case Administrations(records) =>
      var s := AdministrationService.GetSummary(records);
      AdministrationSummary(|records|, s.totalDoses, s.uniqueVaccines)
    case Losses(losses) =>
      LossPage.TotalValueIsFiftyPerDose(losses);
      LossSummary(|losses|, LossPage.TotalLosses(losses), LossPage.TotalValue(losses))
    case Nothing => NoSummary
  }

  /** The test `getInventoryStatus(item) === level`. */
  function AtLevel(level: AlertLevel, today: Day): InventoryItem -> bool
  {
    (item: InventoryItem) => AlertLevelOf(item, today) == level
  }

  function LotVaccine(item: InventoryItem): string { item.vaccineId }
  function LossVaccine(loss: LossRecord): string { loss.vaccineId }
  function LotLocation(item: InventoryItem): string { item.location }

  /** The vaccine of every lot, then of every administration, then of every loss. */
  function VaccineMentions(data: ReportData): seq<string>
  {
    Map(data.inventory, LotVaccine) + Map(data.administrations, AdministrationService.VaccineOf)
      + Map(data.losses, LossVaccine)
  }

  /** The vaccines mentioned are exactly those a lot, an administration or a loss names. */
  lemma VaccineMentionsNamed(data: ReportData)
    ensures forall v :: v in VaccineMentions(data) <==>
      (exists x :: x in data.inventory && x.vaccineId == v)
      || (exists x :: x in data.administrations && x.vaccineId == v)
      || (exists x :: x in data.losses && x.vaccineId == v)
  {
    var all := VaccineMentions(data);
    assert forall v :: v in all <==>
      v in Map(data.inventory, LotVaccine) || v in Map(data.administrations, AdministrationService.VaccineOf)
      || v in Map(data.losses, LossVaccine);
    forall v | v in all
      ensures (exists x :: x in data.inventory && x.vaccineId == v)
        || (exists x :: x in data.administrations && x.vaccineId == v)
        || (exists x :: x in data.losses && x.vaccineId == v)
    {
      if v in Map(data.inventory, LotVaccine) {
        var i :| 0 <= i < |data.inventory| && Map(data.inventory, LotVaccine)[i] == v;
        assert data.inventory[i] in data.inventory;
      } else if v in Map(data.administrations, AdministrationService.VaccineOf) {
        var i :| 0 <= i < |data.administrations| && Map(data.administrations, AdministrationService.VaccineOf)[i] == v;
        assert data.administrations[i] in data.administrations;
      } else {
        var i :| 0 <= i < |data.losses| && Map(data.losses, LossVaccine)[i] == v;
        assert data.losses[i] in data.losses;
      }
    }
    forall v | (exists x :: x in data.inventory && x.vaccineId == v)
        || (exists x :: x in data.administrations && x.vaccineId == v)
        || (exists x :: x in data.losses && x.vaccineId == v)
      ensures v in all
    {
      if x :| x in data.inventory && x.vaccineId == v {
        var i :| 0 <= i < |data.inventory| && data.inventory[i] == x;
        assert Map(data.inventory, LotVaccine)[i] == v;
      } else if x :| x in data.administrations && x.vaccineId == v {
        var i :| 0 <= i < |data.administrations| && data.administrations[i] == x;
        assert Map(data.administrations, AdministrationService.VaccineOf)[i] == v;
      } else {
        var x :| x in data.losses && x.vaccineId == v;
        var i :| 0 <= i < |data.losses| && data.losses[i] == x;
        assert Map(data.losses, LossVaccine)[i] == v;
      }
    }
  }

  /**
   * `uniqueVaccines`: every vaccine named by a lot, an administration or a loss, once each, in
   * order of first appearance.
   */
  function UniqueVaccines(data: ReportData): (r: seq<string>)
    ensures NoDuplicates(r)
    ensures forall v :: v in r <==>
      (exists x :: x in data.inventory && x.vaccineId == v)
      || (exists x :: x in data.administrations && x.vaccineId == v)
      || (exists x :: x in data.losses && x.vaccineId == v)
    ensures forall i, j :: 0 <= i < j < |r| ==>
      r[i] in VaccineMentions(data) && r[j] in VaccineMentions(data)
      && FirstIndex(VaccineMentions(data), r[i]) < FirstIndex(VaccineMentions(data), r[j])
  {
    VaccineMentionsNamed(data);
    Dedupe(VaccineMentions(data))
  }

  /** `uniqueLocations`: every storage location of a lot, once each, in order of first appearance. */
  function UniqueLocations(inventory: seq<InventoryItem>): (r: seq<string>)
    ensures NoDuplicates(r)
    ensures forall l :: l in r <==> exists x :: x in inventory && x.location == l
    ensures |r| <= |inventory|
    ensures forall i, j :: 0 <= i < j < |r| ==>
      r[i] in Map(inventory, LotLocation) && r[j] in Map(inventory, LotLocation)
      && FirstIndex(Map(inventory, LotLocation), r[i]) < FirstIndex(Map(inventory, LotLocation), r[j])
  {
    var all := Map(inventory, LotLocation);
    forall l | l in all
      ensures exists x :: x in inventory && x.location == l
    {
      var i :| 0 <= i < |all| && all[i] == l;
      assert inventory[i] in inventory;
    }
    forall l | exists x :: x in inventory && x.location == l
      ensures l in all
    {
      var x :| x in inventory && x.location == l;
      var i :| 0 <= i < |inventory| && inventory[i] == x;
      assert all[i] == l;
    }
    DedupeLength(all);
    DistinctAtMostLength(all);
    Dedupe(all)
  }
}
