/** The scheduler's goroutines and the maintainer's functors as one state machine over the operations table. */
module Protocol {
  import opened OperationTypes
  import opened Wrappers
  import opened Scheduler
  import opened CascadeUtils

  /** A goroutine of the scheduler: it runs a job until its action timeout at the latest, or it sleeps before a retry.
      Either way it holds a copy of the operation: the one it was started with, or read when its job failed. */
  datatype Worker =
    | Running(row: Row, due: int, op: Operation)
    | Waiting(row: Row, due: int, op: Operation)

  /** The table, the goroutines and the clock; then what has happened so far: the rows ever admitted, the rows whose
      deletion was carried out, the rows ever in orphan mitigation, and the times of the failures that led to a retry. */
  datatype State = State(
    ops: Table,
    heights: seq<nat>,
    workers: map<nat, Worker>,
    now: int,
    scheduled: set<Row>,
    executed: set<Row>,
    mitigated: set<Row>,
    retries: map<Row, seq<int>>)

  datatype Outcome =
    | ActionDone
    | ActionFailed(message: string, forceDeleted: bool)
    | Panicked(message: string)

  datatype Event =
    | Submit(op: Operation, free: bool, w: nat)
    | SubmitTree(tree: Table, heights: seq<nat>)
    | Poll(row: Row, same: Row, free: bool, w: nat)
    | Mark(w: nat, deletion: bool, reschedule: bool)
    | Finish(w: nat, outcome: Outcome)
    | Wake(w: nat, free: bool, next: nat)
    | Continue(row: Row, free: bool, w: nat)
    | SweepUnfinished(row: Row, free: bool, w: nat)
    | SweepMitigation(row: Row, free: bool, w: nat)
    | SweepStuck(row: Row, free: bool, w: nat)
    | Crash(lost: set<nat>)
    | Tick(to: int)

  predicate Init(s: State) {
    && s.ops == [] && s.heights == [] && s.workers == map[]
    && s.scheduled == {} && s.executed == {} && s.mitigated == {} && s.retries == map[]
  }

  // ----- what the events do -----

  /** ScheduleAsyncStorageAction and ScheduleSyncStorageAction: nothing without a free worker, else preconditions,
      and on admission the row is stored or rewritten and a job starts. */
  function Schedule(cfg: Settings, s: State, row: Row, op: Operation, free: bool, w: nat): State
    requires row <= |s.ops|
  {
    if !free then s
    else match Preconditions(cfg, s.now, s.ops, row, op)
      case Refused => s
      case TimedOut => if row < |s.ops| then s.(ops := s.ops[row := Expired(op, s.now)]) else s
      case Admitted =>
        var stored := op.(updatedAt := s.now);
        var started := s.(workers := s.workers[w := Running(row, s.now + cfg.actionTimeout, stored)],
                          scheduled := s.scheduled + {row});
        if row < |s.ops| then started.(ops := s.ops[row := stored])
        else started.(ops := s.ops + [stored], heights := s.heights + [0])
  }

  function Write(s: State, row: Row, op: Operation): State
    requires row < |s.ops|
  {
    s.(ops := s.ops[row := op.(updatedAt := s.now)])
  }

  /** The errors an operation takes over from its failed children. */
  function ErrorsFromChildren(t: Table, row: Row): Errors
    requires row < |t|
  {
    var op := t[row];
    if !op.IsForceCascadeDelete() then
      FailedAreRows(t, row);
      Aggregated(AggregatedErrors(t, SubOperationsOf(t, row).failed, op.resource))
    else if op.root == Some(row) then Plain("failed to force cascade delete")
    else op.errors
  }

  /** What polling one pending operation leads to: nothing yet, a terminal state, or its deletion job. */
  datatype Decision = Leave | Settle(state: OpState, errors: Errors) | Launch

  function Decide(t: Table, row: Row, same: Row): Decision
    requires row < |t| && same < |t|
  {
    var op := t[row];
    var subs := SubOperationsOf(t, row);
    if subs.AllSucceeded() then
      if op.Virtual() then Settle(Succeeded, op.errors)
      else match HandleDuplicates(t[same])
        case Skip => Leave
        case Copy(state) => Settle(state, op.errors)
        case Proceed => Launch
    else if subs.SomeFailedRestSucceeded() then Settle(Failed, ErrorsFromChildren(t, row))
    else Leave
  }

  /** The body of pollPendingCascadeOperations for one pending operation. */
  function PollOne(cfg: Settings, s: State, row: Row, same: Row, free: bool, w: nat): State
    requires row < |s.ops| && same < |s.ops|
  {
    match Decide(s.ops, row, same)
    case Leave => s
    case Settle(state, errors) => Write(s, row, s.ops[row].(state := state, errors := errors))
    case Launch => Schedule(cfg, s, row, s.ops[row].(state := InProgress), free, w)
  }

  /** The decision in terms of the children and of the newest operation on the same target. */
  lemma DecisionMeaning(t: Table, row: Row, same: Row)
    requires row < |t| && same < |t|
    ensures match Decide(t, row, same)
      case Leave =>
        && (ChildrenDone(t, row) ==> !t[row].Virtual() && t[same].Started())
        && !(HasFailedChild(t, row) && ChildrenTerminal(t, row))
      case Settle(Succeeded, errors) =>
        ChildrenDone(t, row) && errors == t[row].errors && (t[row].Virtual() || t[same].Done())
      case Settle(Failed, errors) =>
        || (ChildrenDone(t, row) && errors == t[row].errors && !t[row].Virtual() && t[same].GaveUp())
        || (HasFailedChild(t, row) && ChildrenTerminal(t, row) && errors == ErrorsFromChildren(t, row))
      case Settle(_, _) => false
      case Launch => ChildrenDone(t, row) && !t[row].Virtual() && t[same].state.Pending? && !t[same].InMitigation()
  {
    CountsDecide(t, row);
  }

  /** A job's action marks its copy of the operation for deletion, at most once, and sets or clears the reschedule flag;
      then it writes the whole copy to the row. */
  function Marked(op: Operation, now: int, deletion: bool, reschedule: bool): Operation {
    op.(deletionScheduled := if deletion && op.deletionScheduled.None? then Some(now) else op.deletionScheduled,
        reschedule := reschedule, updatedAt := now)
  }

  function RetriesOf(s: State, row: Row): seq<int> {
    if row in s.retries then s.retries[row] else []
  }

  /** What the panic handler of the goroutine writes. */
  function Interrupted(op: Operation, now: int, message: string): Operation {
    op.(state := Failed, errors := RecordError(op.errors, message), updatedAt := now)
  }

  /** A create about to succeed marks the object its action returned as ready. A job that was started to undo the
      create returns none, and its goroutine panics there. */
  predicate LacksObject(job: Operation, op: Operation) {
    op.category.Create? && !op.InMitigation() && job.InMitigation()
  }

  /** handleActionResponse, or the panic handler of the goroutine. */
  function FinishJob(cfg: Settings, s: State, w: nat, outcome: Outcome): State
    requires w in s.workers && s.workers[w].Running? && s.workers[w].row < |s.ops|
  {
    var row := s.workers[w].row;
    var op := s.ops[row];
    var ended := s.(workers := s.workers - {w});
    match outcome
    case ActionDone =>
      if op.reschedule then ended
      else if LacksObject(s.workers[w].op, op) then ended.(ops := s.ops[row := Interrupted(op, s.now, "job interrupted")])
      else ended.(ops := s.ops[row := AfterSuccess(op, s.now)], executed := s.executed + {row})
    case Panicked(message) =>
      ended.(ops := s.ops[row := Interrupted(op, s.now, message)])
    case ActionFailed(message, forceDeleted) =>
      var failed := AfterFailure(op, s.now, message, forceDeleted);
      var written := s.(ops := s.ops[row := failed],
                        executed := if failed.state.Succeeded? then s.executed + {row} else s.executed);
      if RetryRequired(cfg, s.now, failed) then
        var wake := s.now + RetryDelay(cfg, s.now, failed.deletionScheduled.value);
        written.(workers := s.workers[w := Waiting(row, wake, failed)],
                 retries := s.retries[row := RetriesOf(s, row) + [s.now]])
      else written.(workers := s.workers - {w})
  }

  /** markStuckOperationsFailed for one operation. */
  function MarkStuck(cfg: Settings, s: State, row: Row, free: bool, w: nat): State
    requires row < |s.ops|
  {
    var op := s.ops[row].(state := Failed, updatedAt := s.now);
    if op.category.Update? then s.(ops := s.ops[row := op])
    else
      var marked := op.(deletionScheduled := Some(s.now));
      var written := s.(ops := s.ops[row := marked], mitigated := s.mitigated + {row});
      Schedule(cfg, written, row, marked, free, w)
  }

  predicate Fresh(s: State, w: nat) {
    w !in s.workers
  }

  predicate Unattended(s: State, row: Row) {
    forall w | w in s.workers :: s.workers[w].row != row
  }

  /** The row has not been written for longer than the action timeout. */
  predicate Stale(cfg: Settings, s: State, row: Row) {
    row < |s.ops| && s.ops[row].updatedAt < s.now - cfg.actionTimeout
  }

  /** A new operation as the API builds it. */
  predicate NewOperation(s: State, op: Operation) {
    && op.state.InProgress? && op.parent.None? && op.root.None? && op.deletionScheduled.None?
    && !op.reschedule && op.errors.NoErrors? && op.createdAt == s.now && op.updatedAt == s.now
  }

  /** A cascade tree as the create interceptor stores it after the rows of the table: the root comes last, every
      other row points to its parent, all wait, and rows on one resource have children on the same resources. */
  predicate NewTree(t: Table, now: int, tree: Table, heights: seq<nat>) {
    var base, all := |t|, t + tree;
    && |tree| == |heights| > 0
    && (forall i | base <= i < |all| ::
          && all[i].category.Delete? && all[i].resource.id != "" && all[i].deletionScheduled.None?
          && all[i].root == Some(|all| - 1) && !all[i].reschedule && all[i].errors.NoErrors?
          && all[i].createdAt == now && all[i].updatedAt == now && all[i].force == all[|all| - 1].force
          && (all[i].state.Pending? || (all[i].state.Succeeded? && all[i].Virtual() && |tree| == 1)))
    && all[|all| - 1].parent.None?
    && (forall i | base <= i < |all| - 1 ::
          all[i].parent.Some? && base <= all[i].parent.value < |all|
          && heights[i - base] < heights[all[i].parent.value - base])
    && (forall i, j, k | base <= i < |all| && base <= j < |all| && base <= k < |all|
                         && SameTarget(all, i, j) && ChildOf(all, k, i) ::
          HasChildRow(all, base, j, all[k].resource))
  }

  predicate HasChildRow(all: Table, base: Row, i: Row, c: Resource) {
    exists m :: base <= m < |all| && ChildOf(all, m, i) && all[m].resource == c
  }

  predicate Enabled(cfg: Settings, s: State, e: Event) {
    match e
    case Submit(op, _, w) => Fresh(s, w) && NewOperation(s, op)
    case SubmitTree(tree, heights) => |s.heights| == |s.ops| && NewTree(s.ops, s.now, tree, heights)
    case Poll(row, same, _, w) =>
      && Fresh(s, w) && row < |s.ops| && s.ops[row].state.Pending? && s.ops[row].root.Some?
      && s.ops[row].category.Delete? && s.ops[row].updatedAt < s.now && IsLatest(s.ops, row, same)
    case Mark(w, _, _) => w in s.workers && s.workers[w].Running? && s.workers[w].row < |s.ops|
    case Finish(w, _) => w in s.workers && s.workers[w].Running? && s.workers[w].row < |s.ops|
    case Wake(w, _, next) =>
      && w in s.workers && s.workers[w].Waiting? && s.workers[w].row < |s.ops|
      && s.workers[w].due == s.now && Fresh(s, next)
    case Continue(row, _, w) =>
      && Fresh(s, w) && row < |s.ops| && Unattended(s, row)
      && s.ops[row].state.InProgress? && s.ops[row].reschedule && !s.ops[row].InMitigation()
    case SweepUnfinished(row, _, w) =>
      && Fresh(s, w) && Stale(cfg, s, row)
      && s.ops[row].state.InProgress? && s.ops[row].reschedule && !s.ops[row].InMitigation()
    case SweepMitigation(row, _, w) =>
      && Fresh(s, w) && Stale(cfg, s, row)
      && s.ops[row].InMitigation() && !s.ops[row].category.Update?
    case SweepStuck(row, _, w) =>
      && Fresh(s, w) && Stale(cfg, s, row)
      && s.ops[row].state.InProgress? && !s.ops[row].reschedule && !s.ops[row].InMitigation()
    case Crash(_) => true
    case Tick(to) => s.now <= to && forall w | w in s.workers :: to <= s.workers[w].due
  }

  function Next(cfg: Settings, s: State, e: Event): State
    requires Enabled(cfg, s, e)
  {
    match e
    case Submit(op, free, w) => Schedule(cfg, s, |s.ops|, op, free, w)
    case SubmitTree(tree, heights) => s.(ops := s.ops + tree, heights := s.heights + heights)
    case Poll(row, same, free, w) => PollOne(cfg, s, row, same, free, w)
    case Mark(w, deletion, reschedule) =>
      var row, marked := s.workers[w].row, Marked(s.workers[w].op, s.now, deletion, reschedule);
      s.(ops := s.ops[row := marked], workers := s.workers[w := s.workers[w].(op := marked)],
         mitigated := if deletion then s.mitigated + {row} else s.mitigated)
    case Finish(w, outcome) => FinishJob(cfg, s, w, outcome)
    case Wake(w, free, next) =>
      Schedule(cfg, s.(workers := s.workers - {w}), s.workers[w].row, s.workers[w].op, free, next)
    case Continue(row, free, w) => Schedule(cfg, s, row, s.ops[row], free, w)
    case SweepUnfinished(row, free, w) => Schedule(cfg, s, row, s.ops[row], free, w)
    case SweepMitigation(row, free, w) => Schedule(cfg, s, row, s.ops[row], free, w)
    case SweepStuck(row, free, w) => MarkStuck(cfg, s, row, free, w)
    case Crash(lost) => s.(workers := s.workers - lost)
    case Tick(to) => s.(now := to)
  }

  /** The states of a run: it starts empty and every step is an enabled event. */
  ghost predicate IsRun(cfg: Settings, states: seq<State>, events: seq<Event>) {
    && |states| == |events| + 1
    && Init(states[0])
    && forall i | 0 <= i < |events| ::
         Enabled(cfg, states[i], events[i]) && states[i + 1] == Next(cfg, states[i], events[i])
  }
}
