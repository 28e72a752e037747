/** Ordinary operations on one resource: what a deletion in progress keeps out. */
module DeleteExclusion {
  import opened OperationTypes
  import opened Wrappers
  import opened Scheduler
  import opened Protocol
  import opened Lifecycle
  import RetryRace

  /** IN_PROGRESS and not in orphan mitigation. */
  predicate Ongoing(op: Operation) {
    op.state.InProgress? && !op.InMitigation()
  }

  /** A deletion that is IN_PROGRESS and not in orphan mitigation. */
  predicate Deleting(op: Operation) {
    op.category.Delete? && Ongoing(op)
  }

  predicate Alone(s: State, w: nat)
    requires w in s.workers
  {
    forall v | v in s.workers && v != w :: s.workers[v].row != s.workers[w].row
  }

  /** What holds of a goroutine for every setting of the timeouts: its copy is of its row; a copy out of mitigation is the
      row itself, and no other goroutine works on it; a copy in mitigation is of a row that is no longer so. */
  predicate CopyOk(cfg: Settings, s: State, w: nat)
    requires w in s.workers
  {
    var worker := s.workers[w];
    && worker.row < |s.ops|
    && var op := s.ops[worker.row];
    && SameIdentity(worker.op, op) && (worker.op.state.InProgress? || worker.op.state.Failed?) && worker.op.Started()
    && (worker.Waiting? ==> worker.op.InMitigation())
    && (worker.Running? ==> s.now <= worker.due <= op.updatedAt + cfg.actionTimeout)
    && (if worker.op.InMitigation() then !Ongoing(op) else worker.op == op && Alone(s, w))
  }

  ghost predicate Exclusive(cfg: Settings, s: State) {
    && (forall i | 0 <= i < |s.ops| :: s.ops[i].root.None? && !s.ops[i].state.Pending? && s.ops[i].updatedAt <= s.now)
    && (forall w | w in s.workers :: CopyOk(cfg, s, w))
    && (forall d, j | 0 <= d < j < |s.ops| && Deleting(s.ops[d]) :: s.ops[j].resource != s.ops[d].resource)
  }

  /** The row is still the same operation, not older, and was not put in progress again. */
  predicate NotRestarted(s: State, s': State, i: Row)
    requires i < |s.ops|
  {
    && |s'.ops| >= |s.ops|
    && SameIdentity(s.ops[i], s'.ops[i]) && !s'.ops[i].state.Pending? && s.ops[i].updatedAt <= s'.ops[i].updatedAt <= s'.now
    && (Ongoing(s'.ops[i]) ==> Ongoing(s.ops[i]))
  }

  lemma ScheduledNotRestarted(cfg: Settings, s: State, row: Row, op: Operation, free: bool, w: nat, i: Row)
    requires row < |s.ops| && i < |s.ops| && !s.ops[i].state.Pending? && SameIdentity(s.ops[row], op) && !op.state.Pending?
    requires (Ongoing(op) ==> Ongoing(s.ops[row])) && s.ops[i].updatedAt <= s.now && s.ops[row].updatedAt <= s.now
    ensures NotRestarted(s, Schedule(cfg, s, row, op, free, w), i)
    ensures |Schedule(cfg, s, row, op, free, w).ops| == |s.ops|
  {
  }

  lemma FinishedNotRestarted(cfg: Settings, s: State, w: nat, outcome: Outcome, i: Row)
    requires w in s.workers && s.workers[w].Running? && s.workers[w].row < |s.ops| && i < |s.ops| && !s.ops[i].state.Pending?
    requires !s.ops[s.workers[w].row].state.Pending? && s.ops[i].updatedAt <= s.now
    ensures NotRestarted(s, FinishJob(cfg, s, w, outcome), i) && |FinishJob(cfg, s, w, outcome).ops| == |s.ops|
  {
  }

  lemma StuckNotRestarted(cfg: Settings, s: State, row: Row, free: bool, w: nat, i: Row)
    requires row < |s.ops| && i < |s.ops| && !s.ops[i].state.Pending? && s.ops[i].updatedAt <= s.now
    ensures NotRestarted(s, MarkStuck(cfg, s, row, free, w), i) && |MarkStuck(cfg, s, row, free, w).ops| == |s.ops|
  {
  }

  /** No event but an admission adds rows, and none puts an old row in progress again. */
  lemma NothingReturnsToProgress(cfg: Settings, s: State, e: Event, i: Row)
    requires Exclusive(cfg, s) && Enabled(cfg, s, e) && !e.SubmitTree? && i < |s.ops|
    ensures NotRestarted(s, Next(cfg, s, e), i) && (!e.Submit? ==> |Next(cfg, s, e).ops| == |s.ops|)
  {
    match e {
      case Wake(w, free, next) =>
        assert CopyOk(cfg, s, w);
        ScheduledNotRestarted(cfg, s.(workers := s.workers - {w}), s.workers[w].row, s.workers[w].op, free, next, i);
      case Mark(w, _, _) => assert CopyOk(cfg, s, w);
      case Finish(w, outcome) => FinishedNotRestarted(cfg, s, w, outcome, i);
      case SweepStuck(row, free, w) => StuckNotRestarted(cfg, s, row, free, w, i);
      case Continue(row, free, w) => ScheduledNotRestarted(cfg, s, row, s.ops[row], free, w, i);
      case SweepUnfinished(row, free, w) => ScheduledNotRestarted(cfg, s, row, s.ops[row], free, w, i);
      case SweepMitigation(row, free, w) => ScheduledNotRestarted(cfg, s, row, s.ops[row], free, w, i);
      case _ =>
    }
  }

  // ----- the goroutines -----

  /** A row that looks abandoned has no running goroutine. */
  lemma StaleNotRunning(cfg: Settings, s: State, row: Row, w: nat)
    requires Exclusive(cfg, s) && Stale(cfg, s, row) && w in s.workers && s.workers[w].row == row
    ensures s.workers[w].Waiting?
  {
    assert CopyOk(cfg, s, w);
  }

  /** Nobody works on a fresh row that looks abandoned. */
  lemma StaleFreshUnattended(cfg: Settings, s: State, row: Row)
    requires Exclusive(cfg, s) && Stale(cfg, s, row) && Ongoing(s.ops[row])
    ensures Unattended(s, row)
  {
    forall w | w in s.workers ensures s.workers[w].row != row {
      assert CopyOk(cfg, s, w);
    }
  }

  /** The row that an event other than a job's own writes, and where it may start a goroutine. */
  function Touched(s: State, e: Event): Option<Row>
    requires e.Wake? ==> e.w in s.workers
  {
    match e
    case Submit(_, _, _) => Some(|s.ops|)
    case Poll(row, _, _, _) => Some(row)
    case Wake(w, _, _) => Some(s.workers[w].row)
    case Continue(row, _, _) => Some(row)
    case SweepUnfinished(row, _, _) => Some(row)
    case SweepMitigation(row, _, _) => Some(row)
    case SweepStuck(row, _, _) => Some(row)
    case _ => None
  }

  /** None of these has a goroutine whose copy is out of mitigation. */
  lemma TouchedNotFresh(cfg: Settings, s: State, e: Event, w: nat)
    requires Exclusive(cfg, s) && Enabled(cfg, s, e) && w in s.workers && Touched(s, e) == Some(s.workers[w].row)
    requires e.Wake? ==> e.w != w
    ensures s.workers[w].op.InMitigation()
  {
    assert CopyOk(cfg, s, w);
    match e {
      case SweepUnfinished(row, _, _) => StaleNotRunning(cfg, s, row, w);
      case SweepMitigation(row, _, _) => StaleNotRunning(cfg, s, row, w);
      case SweepStuck(row, _, _) => StaleNotRunning(cfg, s, row, w);
      case _ =>
    }
  }

  /** Events other than a job's own write and start goroutines only there. */
  lemma TouchesOnly(cfg: Settings, s: State, e: Event)
    requires Enabled(cfg, s, e) && !e.SubmitTree? && !e.Mark? && !e.Finish?
    ensures var s' := Next(cfg, s, e);
            && (forall i | 0 <= i < |s.ops| && i < |s'.ops| && Touched(s, e) != Some(i) :: s'.ops[i] == s.ops[i])
            && (forall v | v in s'.workers :: (v in s.workers && s'.workers[v] == s.workers[v] && !(e.Wake? && v == e.w))
                                               || Touched(s, e) == Some(s'.workers[v].row))
  {
  }

  lemma OldCopyKept(cfg: Settings, s: State, e: Event, w: nat)
    requires Exclusive(cfg, s) && Enabled(cfg, s, e) && !e.SubmitTree? && !e.Mark? && !e.Finish?
    requires w in s.workers && w in Next(cfg, s, e).workers && Next(cfg, s, e).workers[w] == s.workers[w] && !(e.Wake? && e.w == w)
    ensures CopyOk(cfg, Next(cfg, s, e), w)
  {
    var s', row := Next(cfg, s, e), s.workers[w].row;
    assert CopyOk(cfg, s, w);
    NothingReturnsToProgress(cfg, s, e, row);
    TouchesOnly(cfg, s, e);
    if Touched(s, e) == Some(row) {
      TouchedNotFresh(cfg, s, e, w);
    }
  }

  /** A goroutine started on a row of the table: its copy is what was written, and if that is out of mitigation nobody else
      works on the row. */
  lemma StartedCopyOk(cfg: Settings, s: State, row: Row, op: Operation, free: bool, w: nat, v: nat)
    requires cfg.Positive() && row < |s.ops| && SameIdentity(op, s.ops[row]) && op.Started() && (op.state.InProgress? || op.state.Failed?)
    requires !op.InMitigation() ==> Unattended(s, row)
    requires v in Schedule(cfg, s, row, op, free, w).workers && !(v in s.workers && Schedule(cfg, s, row, op, free, w).workers[v] == s.workers[v])
    ensures CopyOk(cfg, Schedule(cfg, s, row, op, free, w), v)
  {
  }

  lemma SubmittedCopyOk(cfg: Settings, s: State, op: Operation, free: bool, w: nat)
    requires cfg.Positive() && Exclusive(cfg, s) && Enabled(cfg, s, Submit(op, free, w))
    requires w in Next(cfg, s, Submit(op, free, w)).workers
    ensures CopyOk(cfg, Next(cfg, s, Submit(op, free, w)), w)
  {
    forall v | v in s.workers ensures s.workers[v].row < |s.ops| {
      assert CopyOk(cfg, s, v);
    }
  }

  lemma StuckCopyOk(cfg: Settings, s: State, row: Row, free: bool, w: nat, v: nat)
    requires cfg.Positive() && row < |s.ops| && v in MarkStuck(cfg, s, row, free, w).workers
    requires !(v in s.workers && MarkStuck(cfg, s, row, free, w).workers[v] == s.workers[v])
    ensures CopyOk(cfg, MarkStuck(cfg, s, row, free, w), v)
  {
    var marked := s.ops[row].(state := Failed, updatedAt := s.now, deletionScheduled := Some(s.now));
    StartedCopyOk(cfg, s.(ops := s.ops[row := marked], mitigated := s.mitigated + {row}), row, marked, free, w, v);
  }

  /** A goroutine that an event other than the end of a job starts. */
  lemma NewCopyOk(cfg: Settings, s: State, e: Event, w: nat)
    requires cfg.Positive() && Exclusive(cfg, s) && Enabled(cfg, s, e) && !e.SubmitTree? && !e.Mark? && !e.Finish?
    requires w in Next(cfg, s, e).workers && !(w in s.workers && Next(cfg, s, e).workers[w] == s.workers[w] && !(e.Wake? && e.w == w))
    ensures CopyOk(cfg, Next(cfg, s, e), w)
  {
    match e {
      case Wake(v, free, next) =>
        assert CopyOk(cfg, s, v);
        StartedCopyOk(cfg, s.(workers := s.workers - {v}), s.workers[v].row, s.workers[v].op, free, next, w);
      case Submit(op, free, next) => SubmittedCopyOk(cfg, s, op, free, next);
      case Continue(row, free, next) => StartedCopyOk(cfg, s, row, s.ops[row], free, next, w);
      case SweepUnfinished(row, free, next) =>
        StaleFreshUnattended(cfg, s, row);
        StartedCopyOk(cfg, s, row, s.ops[row], free, next, w);
      case SweepMitigation(row, free, next) => StartedCopyOk(cfg, s, row, s.ops[row], free, next, w);
      case SweepStuck(row, free, next) => StuckCopyOk(cfg, s, row, free, next, w);
      case _ =>
    }
  }

  /** Two goroutines on one row both hold copies in mitigation. */
  lemma SharedInMitigation(cfg: Settings, s: State, v: nat, w: nat)
    requires Exclusive(cfg, s) && v in s.workers && w in s.workers && v != w && s.workers[v].row == s.workers[w].row
    ensures s.workers[v].op.InMitigation() && s.workers[w].op.InMitigation()
  {
    assert CopyOk(cfg, s, v) && CopyOk(cfg, s, w);
  }

  /** A goroutine that goes on keeps its copy fit, if its row was not restarted, and not written where the copy is the row. */
  lemma CopyGoesOn(cfg: Settings, s: State, s': State, v: nat)
    requires v in s.workers && v in s'.workers && s'.workers[v] == s.workers[v] && CopyOk(cfg, s, v) && s'.now == s.now
    requires NotRestarted(s, s', s.workers[v].row)
    requires !s.workers[v].op.InMitigation() ==> s'.ops[s.workers[v].row] == s.ops[s.workers[v].row] && Alone(s', v)
    ensures CopyOk(cfg, s', v)
  {
  }

  lemma MarkCopies(cfg: Settings, s: State, w: nat, deletion: bool, reschedule: bool, v: nat)
    requires Exclusive(cfg, s) && Enabled(cfg, s, Mark(w, deletion, reschedule)) && v in s.workers
    ensures CopyOk(cfg, Next(cfg, s, Mark(w, deletion, reschedule)), v)
  {
    var s' := Next(cfg, s, Mark(w, deletion, reschedule));
    assert CopyOk(cfg, s, v) && CopyOk(cfg, s, w);
    if v != w {
      if s.workers[v].row == s.workers[w].row {
        SharedInMitigation(cfg, s, v, w);
      }
      NothingReturnsToProgress(cfg, s, Mark(w, deletion, reschedule), s.workers[v].row);
      CopyGoesOn(cfg, s, s', v);
    }
  }

  lemma FinishTouches(cfg: Settings, s: State, w: nat, outcome: Outcome)
    requires Enabled(cfg, s, Finish(w, outcome))
    ensures var s', row := FinishJob(cfg, s, w, outcome), s.workers[w].row;
            && s'.now == s.now && |s'.ops| == |s.ops| && (forall i | 0 <= i < |s.ops| && i != row :: s'.ops[i] == s.ops[i])
            && (forall v | v != w && v in s.workers :: v in s'.workers && s'.workers[v] == s.workers[v])
            && (forall v | v in s'.workers :: v in s.workers && s'.workers[v].row == s.workers[v].row)
  {
  }

  lemma OtherCopyFinished(cfg: Settings, s: State, w: nat, outcome: Outcome, v: nat)
    requires Exclusive(cfg, s) && Enabled(cfg, s, Finish(w, outcome)) && v in s.workers && v != w
    ensures CopyOk(cfg, FinishJob(cfg, s, w, outcome), v)
  {
    assert CopyOk(cfg, s, v) && CopyOk(cfg, s, w);
    FinishedNotRestarted(cfg, s, w, outcome, s.workers[v].row);
    FinishTouches(cfg, s, w, outcome);
    if s.workers[v].row == s.workers[w].row {
      SharedInMitigation(cfg, s, v, w);
    }
    CopyGoesOn(cfg, s, FinishJob(cfg, s, w, outcome), v);
  }

  lemma FinishCopies(cfg: Settings, s: State, w: nat, outcome: Outcome, v: nat)
    requires Exclusive(cfg, s) && Enabled(cfg, s, Finish(w, outcome)) && v in FinishJob(cfg, s, w, outcome).workers
    ensures CopyOk(cfg, FinishJob(cfg, s, w, outcome), v)
  {
    if v == w {
      assert CopyOk(cfg, s, w);
      FinishedNotRestarted(cfg, s, w, outcome, s.workers[w].row);
    } else {
      OtherCopyFinished(cfg, s, w, outcome, v);
    }
  }

  lemma CopiesKept(cfg: Settings, s: State, e: Event, w: nat)
    requires cfg.Positive() && Exclusive(cfg, s) && Enabled(cfg, s, e) && !e.SubmitTree? && w in Next(cfg, s, e).workers
    ensures CopyOk(cfg, Next(cfg, s, e), w)
  {
    if e.Mark? {
      MarkCopies(cfg, s, e.w, e.deletion, e.reschedule, w);
    } else if e.Finish? {
      FinishCopies(cfg, s, e.w, e.outcome, w);
    } else if w in s.workers && Next(cfg, s, e).workers[w] == s.workers[w] && !(e.Wake? && e.w == w) {
      OldCopyKept(cfg, s, e, w);
    } else {
      NewCopyOk(cfg, s, e, w);
    }
  }

  // ----- the theorem -----

  /** While a resource is being deleted, no new operation is admitted on it: not even another deletion. */
  lemma DeletionKeepsOut(cfg: Settings, s: State, op: Operation, free: bool, w: nat, d: Row)
    requires Exclusive(cfg, s) && Enabled(cfg, s, Submit(op, free, w))
    requires d < |s.ops| && Deleting(s.ops[d]) && op.resource == s.ops[d].resource
    ensures Next(cfg, s, Submit(op, free, w)) == s
  {
    assert LastOperation(s.ops, op.resource) == Some(d);
  }

  /** What is admitted is stored at the end of the table. */
  lemma SubmitStores(cfg: Settings, s: State, op: Operation, free: bool, w: nat)
    requires Enabled(cfg, s, Submit(op, free, w))
    ensures var s' := Next(cfg, s, Submit(op, free, w)); s'.now == s.now && (s'.ops == s.ops || s'.ops == s.ops + [op])
  {
  }

  lemma RowsKept(cfg: Settings, s: State, e: Event, i: Row)
    requires Exclusive(cfg, s) && Enabled(cfg, s, e) && !e.SubmitTree? && i < |Next(cfg, s, e).ops|
    ensures var op := Next(cfg, s, e).ops[i]; op.root.None? && !op.state.Pending? && op.updatedAt <= Next(cfg, s, e).now
  {
    if i < |s.ops| {
      NothingReturnsToProgress(cfg, s, e, i);
    } else {
      NothingAdded(cfg, s, e);
      SubmitStores(cfg, s, e.op, e.free, e.w);
    }
  }

  lemma NothingAdded(cfg: Settings, s: State, e: Event)
    requires Exclusive(cfg, s) && Enabled(cfg, s, e) && !e.SubmitTree?
    ensures !e.Submit? ==> |Next(cfg, s, e).ops| == |s.ops|
  {
    if s.ops != [] {
      NothingReturnsToProgress(cfg, s, e, 0);
    }
  }

  lemma PairKept(cfg: Settings, s: State, e: Event, d: Row, j: Row)
    requires Exclusive(cfg, s) && Enabled(cfg, s, e) && !e.SubmitTree?
    requires d < j < |Next(cfg, s, e).ops| && Deleting(Next(cfg, s, e).ops[d])
    ensures Next(cfg, s, e).ops[j].resource != Next(cfg, s, e).ops[d].resource
  {
    NothingAdded(cfg, s, e);
    if e.Submit? {
      SubmitStores(cfg, s, e.op, e.free, e.w);
    }
    NothingReturnsToProgress(cfg, s, e, d);
    if j < |s.ops| {
      NothingReturnsToProgress(cfg, s, e, j);
    } else if e.op.resource == s.ops[d].resource {
      DeletionKeepsOut(cfg, s, e.op, e.free, e.w, d);
    }
  }

  lemma ExclusiveNext(cfg: Settings, s: State, e: Event)
    requires cfg.Positive() && Exclusive(cfg, s) && Enabled(cfg, s, e) && !e.SubmitTree?
    ensures Exclusive(cfg, Next(cfg, s, e))
  {
    var s' := Next(cfg, s, e);
    forall w | w in s'.workers ensures CopyOk(cfg, s', w) {
      CopiesKept(cfg, s, e, w);
    }
    forall i | 0 <= i < |s'.ops| ensures s'.ops[i].root.None? && !s'.ops[i].state.Pending? && s'.ops[i].updatedAt <= s'.now {
      RowsKept(cfg, s, e, i);
    }
    forall d, j | 0 <= d < j < |s'.ops| && Deleting(s'.ops[d]) ensures s'.ops[j].resource != s'.ops[d].resource {
      PairKept(cfg, s, e, d, j);
    }
  }

  lemma {:induction false} RunIsExclusive(cfg: Settings, states: seq<State>, events: seq<Event>, i: nat)
    requires cfg.Positive() && IsRun(cfg, states, events) && i < |states|
    requires forall k | 0 <= k < |events| :: !events[k].SubmitTree?
    ensures Exclusive(cfg, states[i])
  {
    if i > 0 {
      RunIsExclusive(cfg, states, events, i - 1);
      ExclusiveNext(cfg, states[i - 1], events[i - 1]);
    }
  }

  // ----- operations that were admitted before, and ask again -----

  /** What an event asks to have admitted once more: a row and the copy of it to be stored. */
  function Asked(s: State, e: Event): Option<(Row, Operation)>
    requires e.Wake? ==> e.w in s.workers
    requires e.Continue? || e.SweepUnfinished? || e.SweepMitigation? || e.SweepStuck? ==> e.row < |s.ops|
  {
    match e
    case Wake(w, _, _) => Some((s.workers[w].row, s.workers[w].op))
    case Continue(row, _, _) => Some((row, s.ops[row]))
    case SweepUnfinished(row, _, _) => Some((row, s.ops[row]))
    case SweepMitigation(row, _, _) => Some((row, s.ops[row]))
    case SweepStuck(row, _, _) =>
      if s.ops[row].category.Update? then None
      else Some((row, s.ops[row].(state := Failed, updatedAt := s.now, deletionScheduled := Some(s.now))))
    case _ => None
  }

  /** A goroutine that was not there before works on the row. */
  ghost predicate Starts(s: State, s': State, row: Row) {
    exists w :: w in s'.workers && w !in s.workers && s'.workers[w].row == row
  }

  /** The one way past a deletion in progress: an older deletion in mitigation, where both are to be rescheduled. */
  predicate PassesBeside(op: Operation, deletion: Operation) {
    op.category.Delete? && op.InMitigation() && op.reschedule && deletion.reschedule
  }

  /** When an operation other than the deletion in progress is admitted beside it. */
  predicate MayPass(cfg: Settings, now: int, op: Operation, deletion: Operation) {
    PassesBeside(op, deletion) && !ExceedsTimeouts(cfg, now, op) && op.resource.id != "" && !op.state.Succeeded?
  }

  lemma VerdictBeside(cfg: Settings, now: int, t: Table, d: Row, row: Row, op: Operation)
    requires d < |t| && Deleting(t[d]) && op.resource == t[d].resource && LastOperation(t, op.resource) == Some(d)
    requires op.Started() && !op.state.Pending? && op.root.None? && !Deleting(op)
    ensures Preconditions(cfg, now, t, row, op).Admitted? <==> MayPass(cfg, now, op, t[d])
  {
  }

  lemma ScheduleStarts(cfg: Settings, s: State, row: Row, op: Operation, free: bool, w: nat)
    requires row < |s.ops| && w !in s.workers
    ensures Starts(s, Schedule(cfg, s, row, op, free, w), row) <==>
              free && Preconditions(cfg, s.now, s.ops, row, op).Admitted?
    ensures var s' := Schedule(cfg, s, row, op, free, w);
            forall v | v in s'.workers && v !in s.workers :: s'.workers[v].row == row && s'.workers[v].op.(updatedAt := op.updatedAt) == op
  {
    var s' := Schedule(cfg, s, row, op, free, w);
    if free && Preconditions(cfg, s.now, s.ops, row, op).Admitted? {
      assert w in s'.workers && w !in s.workers;
    }
  }

  lemma RowReadmittedIff(cfg: Settings, s: State, d: Row, row: Row, free: bool, w: nat)
    requires Exclusive(cfg, s) && d < |s.ops| && Deleting(s.ops[d]) && w !in s.workers
    requires row < |s.ops| && row != d && s.ops[row].resource == s.ops[d].resource && s.ops[row].Started()
    ensures Starts(s, Schedule(cfg, s, row, s.ops[row], free, w), row) <==>
              free && MayPass(cfg, s.now, s.ops[row], s.ops[d])
  {
    assert LastOperation(s.ops, s.ops[d].resource) == Some(d);
    VerdictBeside(cfg, s.now, s.ops, d, row, s.ops[row]);
    ScheduleStarts(cfg, s, row, s.ops[row], free, w);
  }

  /** Exactly when an operation is admitted once more on a resource that is being deleted by another one. */
  lemma ReadmittedIff(cfg: Settings, s: State, e: Event, d: Row)
    requires Exclusive(cfg, s) && Enabled(cfg, s, e) && d < |s.ops| && Deleting(s.ops[d]) && Asked(s, e).Some?
    requires Asked(s, e).value.0 != d && Asked(s, e).value.1.resource == s.ops[d].resource
    ensures Starts(s, Next(cfg, s, e), Asked(s, e).value.0) <==>
              e.free && MayPass(cfg, s.now, Asked(s, e).value.1, s.ops[d])
  {
    var (row, op) := Asked(s, e).value;
    match e {
      case Wake(w, free, next) =>
        assert CopyOk(cfg, s, w);
        var woken := s.(workers := s.workers - {w});
        assert LastOperation(woken.ops, op.resource) == Some(d);
        VerdictBeside(cfg, s.now, s.ops, d, row, op);
        ScheduleStarts(cfg, woken, row, op, free, next);
        WokenStarts(s, woken, Next(cfg, s, e), w, row);
      case SweepStuck(r, free, w) =>
        var written := s.(ops := s.ops[row := op], mitigated := s.mitigated + {row});
        assert forall j | d < j < |s.ops| :: written.ops[j].resource == s.ops[j].resource;
        assert LastOperation(written.ops, written.ops[d].resource) == Some(d);
        VerdictBeside(cfg, s.now, written.ops, d, row, op);
        ScheduleStarts(cfg, written, row, op, free, w);
      case Continue(r, free, w) => RowReadmittedIff(cfg, s, d, row, free, w);
      case SweepUnfinished(r, free, w) => RowReadmittedIff(cfg, s, d, row, free, w);
      case SweepMitigation(r, free, w) => RowReadmittedIff(cfg, s, d, row, free, w);
      case _ =>
    }
  }

  /** A goroutine that wakes is not a new one, unless it is started under another name. */
  lemma WokenStarts(s: State, woken: State, s': State, w: nat, row: Row)
    requires w in s.workers && woken == s.(workers := s.workers - {w}) && w !in s'.workers
    ensures Starts(s, s', row) <==> Starts(woken, s', row)
  {
    if Starts(woken, s', row) {
      var v :| v in s'.workers && v !in woken.workers && s'.workers[v].row == row;
      assert v !in s.workers;
    }
  }

  // ----- the theorems -----

  /** A goroutine that starts otherwise than on a new operation or a poll works for what was asked. */
  lemma NewJob(cfg: Settings, s: State, e: Event, w: nat)
    requires Enabled(cfg, s, e) && !e.Submit? && !e.Poll? && w in Next(cfg, s, e).workers && w !in s.workers
    ensures Asked(s, e).Some?
    ensures var (row, op), job := Asked(s, e).value, Next(cfg, s, e).workers[w];
            job.row == row && job.op.(updatedAt := op.updatedAt) == op
  {
    match e {
      case Wake(v, free, next) =>
        var woken := s.(workers := s.workers - {v});
        ScheduleStarts(cfg, woken, s.workers[v].row, s.workers[v].op, free, next);
      case SweepStuck(row, free, v) =>
        var op := s.ops[row].(state := Failed, updatedAt := s.now, deletionScheduled := Some(s.now));
        ScheduleStarts(cfg, s.(ops := s.ops[row := op], mitigated := s.mitigated + {row}), row, op, free, v);
      case Continue(row, free, v) => ScheduleStarts(cfg, s, row, s.ops[row], free, v);
      case SweepUnfinished(row, free, v) => ScheduleStarts(cfg, s, row, s.ops[row], free, v);
      case SweepMitigation(row, free, v) => ScheduleStarts(cfg, s, row, s.ops[row], free, v);
      case _ =>
    }
  }

  ghost predicate OnResource(s: State, job: Worker, resource: Resource) {
    job.row < |s.ops| && s.ops[job.row].resource == resource
  }

  /** Every goroutine that starts on a resource being deleted works on the deletion itself, or passes beside it. */
  lemma StartedBeside(cfg: Settings, s: State, e: Event, d: Row, w: nat)
    requires Exclusive(cfg, s) && Enabled(cfg, s, e) && !e.SubmitTree? && d < |s.ops| && Deleting(s.ops[d])
    requires w in Next(cfg, s, e).workers && w !in s.workers
    requires OnResource(Next(cfg, s, e), Next(cfg, s, e).workers[w], s.ops[d].resource)
    ensures var job := Next(cfg, s, e).workers[w]; job.row == d || PassesBeside(job.op, s.ops[d])
  {
    if e.Submit? {
      SubmitStartsElsewhere(cfg, s, e.op, e.free, e.w, d, w);
    } else if !e.Poll? {
      NewJob(cfg, s, e, w);
      AskedIsRow(cfg, s, e);
      var (row, op) := Asked(s, e).value;
      NothingReturnsToProgress(cfg, s, e, row);
      if row != d {
        assert Starts(s, Next(cfg, s, e), row);
        ReadmittedIff(cfg, s, e, d);
      }
    }
  }

  lemma AskedIsRow(cfg: Settings, s: State, e: Event)
    requires Exclusive(cfg, s) && Enabled(cfg, s, e) && Asked(s, e).Some?
    ensures var (row, op) := Asked(s, e).value; row < |s.ops| && op.resource == s.ops[row].resource
  {
    if e.Wake? {
      assert CopyOk(cfg, s, e.w);
    }
  }

  lemma SubmitStartsElsewhere(cfg: Settings, s: State, op: Operation, free: bool, v: nat, d: Row, w: nat)
    requires Exclusive(cfg, s) && Enabled(cfg, s, Submit(op, free, v)) && d < |s.ops| && Deleting(s.ops[d])
    requires var s' := Next(cfg, s, Submit(op, free, v)); w in s'.workers && w !in s.workers
    ensures var s' := Next(cfg, s, Submit(op, free, v)); !OnResource(s', s'.workers[w], s.ops[d].resource)
  {
    if op.resource == s.ops[d].resource {
      DeletionKeepsOut(cfg, s, op, free, v, d);
    }
  }

  /** In every run of ordinary operations, and for every setting of the timeouts: a deletion in progress is the newest
      operation of its resource, no second one exists, no new operation is admitted on the resource, and a goroutine that
      starts on it works on that deletion, or on an older deletion in mitigation while both are to be rescheduled. So no
      create or update is admitted or admitted again. */
  lemma DeletionIsNewest(cfg: Settings, states: seq<State>, events: seq<Event>, i: nat, d: Row)
    requires cfg.Positive() && IsRun(cfg, states, events) && i < |states|
    requires forall k | 0 <= k < |events| :: !events[k].SubmitTree?
    requires d < |states[i].ops| && Deleting(states[i].ops[d])
    ensures LastOperation(states[i].ops, states[i].ops[d].resource) == Some(d)
    ensures forall e | 0 <= e < |states[i].ops| && Deleting(states[i].ops[e])
                       && states[i].ops[e].resource == states[i].ops[d].resource :: e == d
    ensures i < |events| && events[i].Submit? && events[i].op.resource == states[i].ops[d].resource ==>
              states[i + 1] == states[i]
    ensures i < |events| ==>
              forall w | w in states[i + 1].workers && w !in states[i].workers
                         && OnResource(states[i + 1], states[i + 1].workers[w], states[i].ops[d].resource) ::
                var job := states[i + 1].workers[w]; job.row == d || PassesBeside(job.op, states[i].ops[d])
  {
    RunIsExclusive(cfg, states, events, i);
    if i < |events| {
      var e := events[i];
      if e.Submit? && e.op.resource == states[i].ops[d].resource {
        DeletionKeepsOut(cfg, states[i], e.op, e.free, e.w, d);
      }
      forall w | w in states[i + 1].workers && w !in states[i].workers
                 && OnResource(states[i + 1], states[i + 1].workers[w], states[i].ops[d].resource)
        ensures var job := states[i + 1].workers[w]; job.row == d || PassesBeside(job.op, states[i].ops[d])
      {
        StartedBeside(cfg, states[i], e, d, w);
      }
    }
  }

  /** It does happen: two deletions to be rescheduled, the older one in mitigation, which the sweep starts again. */
  lemma RescheduledBeside(cfg: Settings) returns (states: seq<State>, events: seq<Event>)
    requires cfg.Positive() && cfg.actionTimeout < cfg.reconciliationTimeout
    ensures IsRun(cfg, states, events) && |states[|events|].ops| == 2
    ensures var s := states[|events|];
            && Deleting(s.ops[1]) && s.ops[0].resource == s.ops[1].resource
            && exists w :: w in s.workers && s.workers[w].Running? && s.workers[w].row == 0
  {
    var op := RetryRace.DELETION;
    states, events := [RetryRace.START], [];
    states, events := RetryRace.Extend(cfg, states, events, Submit(op, true, 0));
    states, events := RetryRace.Extend(cfg, states, events, Mark(0, true, true));
    states, events := RetryRace.Extend(cfg, states, events, Submit(op, true, 1));
    states, events := RetryRace.Extend(cfg, states, events, Mark(1, false, true));
    states, events := RescheduledEnd(cfg, states, events);
  }

  lemma RescheduledEnd(cfg: Settings, states0: seq<State>, events0: seq<Event>)
    returns (states: seq<State>, events: seq<Event>)
    requires cfg.Positive() && cfg.actionTimeout < cfg.reconciliationTimeout && IsRun(cfg, states0, events0)
    requires var s, op := states0[|events0|], RetryRace.DELETION;
             && s.ops == [op.(deletionScheduled := Some(0), reschedule := true), op.(reschedule := true)] && s.now == 0
             && s.workers == map[0 := Running(0, cfg.actionTimeout, s.ops[0]), 1 := Running(1, cfg.actionTimeout, s.ops[1])]
    ensures IsRun(cfg, states, events) && |states[|events|].ops| == 2
    ensures var s := states[|events|];
            && Deleting(s.ops[1]) && s.ops[0].resource == s.ops[1].resource
            && exists w :: w in s.workers && s.workers[w].Running? && s.workers[w].row == 0
  {
    states, events := RetryRace.Extend(cfg, states0, events0, Finish(0, ActionDone));
    states, events := RetryRace.Extend(cfg, states, events, Finish(1, ActionDone));
    states, events := RetryRace.Extend(cfg, states, events, Tick(cfg.actionTimeout + 1));
    states, events := RetryRace.Extend(cfg, states, events, SweepMitigation(0, true, 2));
    assert 2 in states[|events|].workers;
  }
}
