/** When a form is valid: what validateWorkloadForm checks (apps/web/src/workload.ts). */
module Validity {
  import opened Wrappers
  import opened Fields
  import opened Workload

  predicate Applies(form: Form, condition: Condition) {
    match condition
    case Always => true
    case StorageOn => form.storageEnabled
    case DatabaseOn => form.databaseEnabled
    case Autoscaling => form.scalingType == Autoscaled
    case Scheduled => form.usagePattern == ScheduledUse
    case Bursty => form.usagePattern == BurstyUse
  }

  predicate NumberIsValid(form: Form, field: Field) {
    Applies(form, RowOf(field).checked) ==> Passes(RowOf(field).rule, form.numbers(field))
  }

  /** The scale limits are not both well-formed and in the wrong order. */
  predicate ScaleOrderIsValid(form: Form) {
    var min, max := Parse(form.numbers(Compute(AutoscaleMin))), Parse(form.numbers(Compute(AutoscaleMax)));
    !(&& form.scalingType == Autoscaled
      && min.Some? && max.Some?
      && min.value > 0.0 && max.value > 0.0
      && IsInteger(min.value) && IsInteger(max.value)
      && max.value < min.value)
  }

  predicate BulkRowIsValid(row: BulkServiceRow) {
    var quantity := Parse(row.quantity);
    row.serviceFamilyId.Known? && quantity.Some? && quantity.value > 0.0 && IsInteger(quantity.value)
  }

  predicate BulkRowsAreValid(form: Form) {
    forall i :: 0 <= i < |form.bulkServiceRows| ==> BulkRowIsValid(form.bulkServiceRows[i])
  }

  ghost predicate IsValid(form: Form) {
    && (forall field: Field :: NumberIsValid(form, field))
    && ScaleOrderIsValid(form)
    && BulkRowsAreValid(form)
  }
}
