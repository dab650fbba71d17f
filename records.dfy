/**
 * The records the services hand out and the pages work on. Dates are day numbers; a date
 * that a record may lack is an `Option<Day>` (a missing date compares false with everything,
 * as `new Date(undefined)` does). Every record has one numeric `id`, and 0 is the falsy id.
 */
module Records {

  import opened Wrappers

  type Day = int

  /** One lot of one vaccine in storage. */
  datatype InventoryItem = InventoryItem(
    id: int,
    vaccineId: string,
    lotNumber: string,
    quantityOnHand: int,
    expirationDate: Option<Day>,
    location: string,
    lastUpdated: Option<Day>,
    minimumStock: int,
    vaccineFamily: string)

  /** Doses given to one patient. */
  datatype AdministrationRecord = AdministrationRecord(
    id: int,
    administeredDate: Option<Day>,
    vaccineId: string,
    lotNumber: string,
    dosesUsed: int,
    patientAgeGroup: string,
    providerId: string)

  /** Doses lost or wasted. */
  datatype LossRecord = LossRecord(
    id: int,
    reportedDate: Option<Day>,
    vaccineId: string,
    lotNumber: string,
    quantity: int,
    reason: string,
    details: string,
    trainingCompleted: bool,
    wastageType: string)

  /** One incoming shipment and its inspection. */
  datatype Receipt = Receipt(
    id: int,
    receivedDate: Option<Day>,
    vaccineId: string,
    lotNumber: string,
    quantitySent: int,
    quantityReceived: int,
    dosesPassed: int,
    dosesFailed: int,
    discrepancyReason: string,
    status: string)

  /**
   * A vaccine product; `isActive` may be absent, which reads as false. Its `name` is what the
   * inventory page matches a lot's `vaccineId` against.
   */
  datatype Vaccine = Vaccine(
    id: int,
    name: string,
    manufacturer: string,
    vaccineFamily: string,
    isActive: Option<bool>)

  /**
   * The `data` object passed to a service's `create` or `update`: the record's fields, and
   * separately whether the object carries an `id` of its own (the `id` inside `fields` is not read).
   */
  datatype Draft<R> = Draft(id: Option<int>, fields: R)

  /** Why a service call rejects. */
  datatype ServiceError = NotFound(id: int) | MissingRequiredFields | IdRequired

  /** `date >= start && date <= end`, false for a missing date. */
  predicate InRange(date: Option<Day>, start: Day, end: Day)
  {
    date.Some? && start <= date.value <= end
  }

  /** `date <= cutoff`, false for a missing date. */
  predicate OnOrBefore(date: Option<Day>, cutoff: Day)
  {
    date.Some? && date.value <= cutoff
  }
}
