/** Operations as the service manager stores them (pkg/types/operation.go). */
module OperationTypes {
  import opened Wrappers

  datatype Category = Create | Update | Delete

  datatype OpState = Pending | InProgress | Succeeded | Failed

  datatype ResourceType =
    | Tenant
    | Platform
    | ServiceBroker
    | ServiceInstance
    | ServiceBinding
    | OtherType(name: string)

  datatype Resource = Resource(id: string, typ: ResourceType)

  /** A row of the operations table. Rows are listed by paging_sequence and never reused, so the position of a
      row stands for its paging_sequence and for its id. */
  type Row = nat

  /** One entry of an aggregated error: the failed resource, and the parent under which it failed. */
  datatype CascadeError = CascadeError(parent: Resource, resource: Resource, message: string)

  /** The "errors" column: empty, the error of one job, or the "cascade_errors" array. */
  datatype Errors = NoErrors | Plain(message: string) | Aggregated(list: seq<CascadeError>)

  datatype Operation = Operation(
    category: Category,
    state: OpState,
    resource: Resource,
    parent: Option<Row>,
    root: Option<Row>,
    force: bool,
    createdAt: int,
    updatedAt: int,
    deletionScheduled: Option<int>,
    reschedule: bool,
    errors: Errors)
  {
    /** The operation waits for, or is in, orphan mitigation. */
    predicate InMitigation() {
      deletionScheduled.Some?
    }

    predicate IsForceCascadeDelete() {
      category.Delete? && root.Some? && force
    }

    /** SUCCEEDED and out of orphan mitigation. */
    predicate Done() {
      state.Succeeded? && !InMitigation()
    }

    /** FAILED and out of orphan mitigation. */
    predicate GaveUp() {
      state.Failed? && !InMitigation()
    }

    predicate Terminal() {
      Done() || GaveUp()
    }

    /** A job was admitted for the operation and its outcome is still open. */
    predicate Started() {
      InMitigation() || state.InProgress?
    }

    predicate Virtual() {
      resource.typ.Tenant?
    }
  }

  type Table = seq<Operation>

  datatype Settings = Settings(
    actionTimeout: int,
    reconciliationTimeout: int,
    cascadeMitigationTimeout: int,
    shortDelay: int,
    longDelay: int)
  {
    /** Every period is positive, as Settings.Validate demands of most of them. */
    predicate Positive() {
      0 < actionTimeout && 0 < reconciliationTimeout && 0 < shortDelay && 0 < longDelay
    }

    /** A waiting retry always fires before the orphan-mitigation sweep considers its row abandoned. The long delay is
        never chosen where the reconciliation timeout is too short for it. */
    predicate RetriesBeforeSweep() {
      shortDelay <= actionTimeout && (longDelay <= actionTimeout || reconciliationTimeout <= 2 * actionTimeout + 1)
    }
  }
}
