/** Admission of operations and classification of job results (operations/scheduler.go). */
module Scheduler {
  import opened OperationTypes
  import opened Wrappers

  /** getResourceLastOperation: the newest of the first n rows on a resource. */
  function LastOperationUpTo(t: Table, resource: Resource, n: nat): (last: Option<Row>)
    requires n <= |t|
    ensures last.None? ==> forall i | 0 <= i < n :: t[i].resource != resource
    ensures last.Some? ==> last.value < n && t[last.value].resource == resource
    ensures last.Some? ==> forall i | last.value < i < n :: t[i].resource != resource
  {
    if n == 0 then None
    else if t[n - 1].resource == resource then Some(n - 1)
    else LastOperationUpTo(t, resource, n - 1)
  }

  function LastOperation(t: Table, resource: Resource): Option<Row> {
    LastOperationUpTo(t, resource, |t|)
  }

  /** checkForConcurrentOperations: whether the newest operation of the resource keeps op out. */
  predicate Conflicts(op: Operation, last: Operation) {
    var running := last.state.InProgress?;
    var isReschedule := last.reschedule && op.reschedule;
    match (last.category, op.category)
    case (Create, Create) => running && !last.InMitigation() && !isReschedule
    case (Create, Update) => running
    case (Create, Delete) => false
    case (Update, Create) => running
    case (Update, Update) => running && !last.InMitigation() && !isReschedule
    case (Update, Delete) => false
    case (Delete, Create) => running || last.InMitigation()
    case (Delete, Update) => running || last.InMitigation()
    case (Delete, Delete) => running && !last.InMitigation() && !isReschedule
  }

  /** An instance or binding whose creation failed is not updated. */
  predicate UpdateBlocked(op: Operation, last: Operation) {
    && op.category.Update? && last.category.Create? && last.state.Failed?
    && (op.resource.typ.ServiceInstance? || op.resource.typ.ServiceBinding?)
  }

  /** Operation.Validate, for an operation with the given row as id. */
  predicate Valid(row: Row, op: Operation) {
    && op.resource.id != ""
    && (op.state.Pending? ==> op.root.Some?)
    && (op.root.Some? && op.parent.None? ==> op.root.value == row)
  }

  /** validateOperationDoesNotExceedTimeouts. */
  predicate ExceedsTimeouts(cfg: Settings, now: int, op: Operation) {
    || (op.root.Some? && op.InMitigation() && now > op.createdAt + cfg.cascadeMitigationTimeout)
    || now > op.createdAt + cfg.reconciliationTimeout
  }

  datatype Verdict = Refused | TimedOut | Admitted

  /** executeOperationPreconditions, up to the write it leads to. */
  function Preconditions(cfg: Settings, now: int, t: Table, row: Row, op: Operation): Verdict {
    if op.state.Succeeded? || op.GaveUp() then Refused
    else if ExceedsTimeouts(cfg, now, op) then TimedOut
    else if !Valid(row, op) then Refused
    else match LastOperation(t, op.resource)
      case None => Admitted
      case Some(last) =>
        if Conflicts(op, t[last]) || UpdateBlocked(op, t[last]) then Refused else Admitted
  }

  function RecordError(errors: Errors, message: string): Errors {
    if errors.NoErrors? then Plain(message) else errors
  }

  const TIMEOUT_MESSAGE := "ManualActionRequired"

  /** The row written for an operation that is too old to be scheduled again. */
  function Expired(op: Operation, now: int): Operation {
    op.(state := Failed, deletionScheduled := None, errors := RecordError(op.errors, TIMEOUT_MESSAGE), updatedAt := now)
  }

  /** handleActionResponseSuccess. */
  function AfterSuccess(op: Operation, now: int): Operation {
    var written := op.(deletionScheduled := None, updatedAt := now);
    if !op.category.Delete? && op.InMitigation() then written.(state := Failed)
    else if op.root.None? || !op.state.Pending? then written.(state := Succeeded, errors := NoErrors)
    else written.(errors := NoErrors)
  }

  /** The row written by handleActionResponseFailure; forceDeleted tells whether the direct deletion worked. */
  function AfterFailure(op: Operation, now: int, message: string, forceDeleted: bool): Operation {
    var state := if op.IsForceCascadeDelete() && !op.InMitigation() && forceDeleted then Succeeded else Failed;
    op.(state := state, errors := RecordError(op.errors, message), updatedAt := now)
  }

  /** Whether a failed operation schedules its own deletion once more. */
  predicate RetryRequired(cfg: Settings, now: int, op: Operation) {
    op.InMitigation() && now < op.deletionScheduled.value + cfg.reconciliationTimeout && !op.state.Succeeded?
  }

  function RetryDelay(cfg: Settings, now: int, scheduledAt: int): int {
    if now > scheduledAt + 2 * cfg.actionTimeout then cfg.longDelay else cfg.shortDelay
  }
}
