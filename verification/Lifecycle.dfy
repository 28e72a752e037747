/** What every event keeps about single operations and the goroutines that work on them. */
module Lifecycle {
  import opened OperationTypes
  import opened Wrappers
  import opened Protocol

  /** A goroutine works on a started operation, and it is due before the row could look abandoned. */
  predicate WorkerOk(cfg: Settings, s: State, worker: Worker) {
    && worker.row < |s.ops|
    && var op := s.ops[worker.row];
    && op.Started() && (op.state.InProgress? || op.state.Failed?)
    && s.now <= worker.due <= op.updatedAt + cfg.actionTimeout
    && worker.op == op && (worker.Waiting? ==> op.state.Failed? && op.InMitigation())
  }

  predicate RowOk(s: State, i: Row)
    requires i < |s.ops|
  {
    var op := s.ops[i];
    && op.createdAt <= op.updatedAt <= s.now
    && (op.state.Succeeded? ==> !op.InMitigation())
    && (op.state.Pending? ==> !op.InMitigation() && op.root.Some? && op.category.Delete?)
    && (op.Started() ==> i in s.scheduled)
    && (i in s.scheduled ==> !op.state.Pending?)
    && (i in s.executed ==> i in s.scheduled && (op.category.Delete? ==> op.Done()))
  }

  ghost predicate Sound(cfg: Settings, s: State) {
    && |s.heights| == |s.ops|
    && (forall i | 0 <= i < |s.ops| :: RowOk(s, i))
    && (forall i | i in s.scheduled :: i < |s.ops|)
    && (forall i | i in s.executed :: i < |s.ops|)
    && (forall w | w in s.workers :: WorkerOk(cfg, s, s.workers[w]))
    && (forall v, w | v in s.workers && w in s.workers && v != w :: s.workers[v].row != s.workers[w].row)
  }

  predicate SameIdentity(a: Operation, b: Operation) {
    && a.category == b.category && a.resource == b.resource && a.parent == b.parent
    && a.root == b.root && a.force == b.force && a.createdAt == b.createdAt
  }

  /** A started operation stays started: mitigation, once begun, keeps its time, and nothing returns to IN_PROGRESS. */
  predicate Continues(a: Operation, b: Operation) {
    && a.Started() && b.Started() && (b.state.InProgress? || b.state.Failed?)
    && (a.InMitigation() ==> b.deletionScheduled == a.deletionScheduled)
    && (b.state.InProgress? ==> a.state.InProgress?)
    && !b.errors.Aggregated? == !a.errors.Aggregated?
  }

  /** A started operation reaches a terminal state. */
  predicate Ends(a: Operation, b: Operation) {
    a.Started() && b.Terminal() && (b.errors.Aggregated? ==> a.errors.Aggregated?)
  }

  /** A pending operation leaves PENDING. */
  predicate Leaves(a: Operation, b: Operation) {
    a.state.Pending? && (b.Terminal() || (b.state.InProgress? && !b.InMitigation()))
  }

  predicate Changes(a: Operation, b: Operation) {
    a == b || Continues(a, b) || Ends(a, b) || Leaves(a, b)
  }

  /** A row that looks abandoned has no goroutine. */
  lemma StaleIsUnattended(cfg: Settings, s: State, row: Row)
    requires Sound(cfg, s) && Stale(cfg, s, row)
    ensures Unattended(s, row)
  {
    forall w | w in s.workers ensures s.workers[w].row != row {
      assert WorkerOk(cfg, s, s.workers[w]);
    }
  }

  predicate ForwardAt(s: State, s': State, i: Row)
    requires i < |s.ops| && i < |s'.ops|
  {
    && SameIdentity(s.ops[i], s'.ops[i])
    && Changes(s.ops[i], s'.ops[i])
    && (s'.ops[i] != s.ops[i] ==> s'.ops[i].updatedAt == s.now)
    && (s'.ops[i].InMitigation() && !s.ops[i].InMitigation() ==> s'.ops[i].deletionScheduled == Some(s.now))
  }

  /** Rows change only forward; the row left free may also leave PENDING. */
  ghost predicate Forward(s: State, s': State, polled: Option<Row>) {
    && |s.ops| <= |s'.ops|
    && s.now <= s'.now
    && (forall i | 0 <= i < |s.ops| :: ForwardAt(s, s', i))
    && (forall i | 0 <= i < |s.ops| && s.ops[i].state.Pending? && Some(i) != polled :: s'.ops[i] == s.ops[i])
  }

  lemma ForwardOneRow(s: State, s': State, row: Row, polled: Option<Row>)
    requires row < |s.ops| && |s'.ops| == |s.ops| && s.now == s'.now
    requires forall i | 0 <= i < |s.ops| && i != row :: s'.ops[i] == s.ops[i]
    requires ForwardAt(s, s', row) && (s.ops[row].state.Pending? ==> polled == Some(row) || s'.ops[row] == s.ops[row])
    ensures Forward(s, s', polled)
  {
  }

  /** Rescheduling a started operation. */
  lemma ForwardSchedule(cfg: Settings, s: State, row: Row, free: bool, w: nat)
    requires row < |s.ops| && s.ops[row].Started() && (s.ops[row].state.InProgress? || s.ops[row].state.Failed?)
    ensures var s' := Schedule(cfg, s, row, s.ops[row], free, w);
            s'.now == s.now && |s'.ops| == |s.ops| && ForwardAt(s, s', row)
            && forall i | 0 <= i < |s.ops| && i != row :: s'.ops[i] == s.ops[i]
  {
  }

  lemma ForwardFinish(cfg: Settings, s: State, w: nat, outcome: Outcome)
    requires Sound(cfg, s) && w in s.workers && s.workers[w].Running?
    ensures s.workers[w].row < |s.ops| && Forward(s, FinishJob(cfg, s, w, outcome), None)
  {
    assert WorkerOk(cfg, s, s.workers[w]) && RowOk(s, s.workers[w].row);
    ForwardOneRow(s, FinishJob(cfg, s, w, outcome), s.workers[w].row, None);
  }

  lemma ForwardPoll(cfg: Settings, s: State, row: Row, same: Row, free: bool, w: nat)
    requires Sound(cfg, s) && Enabled(cfg, s, Poll(row, same, free, w))
    ensures Forward(s, PollOne(cfg, s, row, same, free, w), Some(row))
  {
    assert RowOk(s, row);
    DecisionMeaning(s.ops, row, same);
    ForwardOneRow(s, PollOne(cfg, s, row, same, free, w), row, Some(row));
  }

  lemma ForwardStuck(cfg: Settings, s: State, row: Row, free: bool, w: nat)
    requires Sound(cfg, s) && Enabled(cfg, s, SweepStuck(row, free, w))
    ensures Forward(s, MarkStuck(cfg, s, row, free, w), None)
  {
    assert RowOk(s, row);
    ForwardOneRow(s, MarkStuck(cfg, s, row, free, w), row, None);
  }

  lemma ForwardMark(cfg: Settings, s: State, w: nat, deletion: bool, reschedule: bool)
    requires Sound(cfg, s) && Enabled(cfg, s, Mark(w, deletion, reschedule))
    ensures Forward(s, Next(cfg, s, Mark(w, deletion, reschedule)), None)
  {
    assert WorkerOk(cfg, s, s.workers[w]) && RowOk(s, s.workers[w].row);
    ForwardOneRow(s, Next(cfg, s, Mark(w, deletion, reschedule)), s.workers[w].row, None);
  }

  lemma ForwardWake(cfg: Settings, s: State, w: nat, free: bool, next: nat)
    requires Sound(cfg, s) && Enabled(cfg, s, Wake(w, free, next))
    ensures Forward(s, Next(cfg, s, Wake(w, free, next)), None)
  {
    assert WorkerOk(cfg, s, s.workers[w]) && RowOk(s, s.workers[w].row);
    ForwardSchedule(cfg, s.(workers := s.workers - {w}), s.workers[w].row, free, next);
    ForwardOneRow(s, Next(cfg, s, Wake(w, free, next)), s.workers[w].row, None);
  }

  lemma ForwardAgain(cfg: Settings, s: State, row: Row, free: bool, w: nat)
    requires row < |s.ops| && s.ops[row].Started() && (s.ops[row].state.InProgress? || s.ops[row].state.Failed?)
    ensures Forward(s, Schedule(cfg, s, row, s.ops[row], free, w), None)
  {
    ForwardSchedule(cfg, s, row, free, w);
    ForwardOneRow(s, Schedule(cfg, s, row, s.ops[row], free, w), row, None);
  }

  lemma ForwardOther(cfg: Settings, s: State, e: Event)
    requires Enabled(cfg, s, e) && (e.Submit? || e.SubmitTree? || e.Crash? || e.Tick?)
    ensures Forward(s, Next(cfg, s, e), None)
  {
  }

  /** Every event changes each row only forward, and only a poll of the row takes it out of PENDING. */
  lemma EventForward(cfg: Settings, s: State, e: Event)
    requires Sound(cfg, s) && Enabled(cfg, s, e)
    ensures Forward(s, Next(cfg, s, e), if e.Poll? then Some(e.row) else None)
  {
    match e {
      case Mark(w, deletion, reschedule) => ForwardMark(cfg, s, w, deletion, reschedule);
      case Finish(w, outcome) => ForwardFinish(cfg, s, w, outcome);
      case Wake(w, free, next) => ForwardWake(cfg, s, w, free, next);
      case Poll(row, same, free, w) => ForwardPoll(cfg, s, row, same, free, w);
      case Continue(row, free, w) => ForwardAgain(cfg, s, row, free, w);
      case SweepUnfinished(row, free, w) => ForwardAgain(cfg, s, row, free, w);
      case SweepMitigation(row, free, w) =>
        assert RowOk(s, row);
        ForwardAgain(cfg, s, row, free, w);
      case SweepStuck(row, free, w) => ForwardStuck(cfg, s, row, free, w);
      case _ => ForwardOther(cfg, s, e);
    }
  }

  // ----- Sound is kept -----

  /** Scheduling, of a row that nobody works on, seen row by row and worker by worker. */
  lemma ScheduledRow(cfg: Settings, s: State, row: Row, op: Operation, free: bool, w: nat, i: Row)
    requires Sound(cfg, s) && row < |s.ops| && i < |s.ops| && op.Started() && (op.state.InProgress? || op.state.Failed?)
    requires op == s.ops[row] || (s.ops[row].state.Pending? && op == s.ops[row].(state := InProgress))
    ensures RowOk(Schedule(cfg, s, row, op, free, w), i)
  {
    assert RowOk(s, row) && RowOk(s, i);
  }

  lemma ScheduledWorker(cfg: Settings, s: State, row: Row, op: Operation, free: bool, w: nat, v: nat)
    requires cfg.Positive() && Sound(cfg, s) && row < |s.ops| && op.Started() && (op.state.InProgress? || op.state.Failed?)
    requires Unattended(s, row) && v in Schedule(cfg, s, row, op, free, w).workers
    ensures var s' := Schedule(cfg, s, row, op, free, w); WorkerOk(cfg, s', s'.workers[v])
  {
    assert v in s.workers ==> WorkerOk(cfg, s, s.workers[v]);
  }

  lemma ScheduledSound(cfg: Settings, s: State, row: Row, op: Operation, free: bool, w: nat)
    requires cfg.Positive() && Sound(cfg, s) && row < |s.ops| && op.Started() && (op.state.InProgress? || op.state.Failed?)
    requires op == s.ops[row] || (s.ops[row].state.Pending? && op == s.ops[row].(state := InProgress))
    requires Unattended(s, row) && Fresh(s, w)
    ensures Sound(cfg, Schedule(cfg, s, row, op, free, w))
  {
    var s' := Schedule(cfg, s, row, op, free, w);
    forall i | 0 <= i < |s'.ops| ensures RowOk(s', i) {
      ScheduledRow(cfg, s, row, op, free, w, i);
    }
    forall v | v in s'.workers ensures WorkerOk(cfg, s', s'.workers[v]) {
      ScheduledWorker(cfg, s, row, op, free, w, v);
    }
  }

  lemma SoundSchedule(cfg: Settings, s: State, row: Row, free: bool, w: nat)
    requires cfg.Positive() && Sound(cfg, s) && row < |s.ops| && Unattended(s, row) && Fresh(s, w)
    requires s.ops[row].Started()
    ensures Sound(cfg, Schedule(cfg, s, row, s.ops[row], free, w))
  {
    assert RowOk(s, row);
    ScheduledSound(cfg, s, row, s.ops[row], free, w);
  }

  lemma SoundWithout(cfg: Settings, s: State, lost: set<nat>)
    requires Sound(cfg, s)
    ensures Sound(cfg, s.(workers := s.workers - lost))
  {
    var s' := s.(workers := s.workers - lost);
    forall i | 0 <= i < |s'.ops| ensures RowOk(s', i) {
      assert RowOk(s, i);
    }
    forall v | v in s'.workers ensures WorkerOk(cfg, s', s'.workers[v]) {
      assert WorkerOk(cfg, s, s.workers[v]);
    }
  }

  lemma SoundSubmit(cfg: Settings, s: State, op: Operation, free: bool, w: nat)
    requires cfg.Positive() && Sound(cfg, s) && Enabled(cfg, s, Submit(op, free, w))
    ensures Sound(cfg, Next(cfg, s, Submit(op, free, w)))
  {
    var s' := Next(cfg, s, Submit(op, free, w));
    forall i | 0 <= i < |s'.ops| ensures RowOk(s', i) {
      assert i < |s.ops| ==> RowOk(s, i);
    }
    forall v | v in s'.workers ensures WorkerOk(cfg, s', s'.workers[v]) {
      assert v in s.workers ==> WorkerOk(cfg, s, s.workers[v]);
    }
  }

  lemma SoundSubmitTree(cfg: Settings, s: State, tree: Table, heights: seq<nat>)
    requires Sound(cfg, s) && Enabled(cfg, s, SubmitTree(tree, heights))
    ensures Sound(cfg, Next(cfg, s, SubmitTree(tree, heights)))
  {
    var s' := Next(cfg, s, SubmitTree(tree, heights));
    forall i | 0 <= i < |s'.ops| ensures RowOk(s', i) {
      assert i < |s.ops| ==> RowOk(s, i);
    }
    forall v | v in s'.workers ensures WorkerOk(cfg, s', s'.workers[v]) {
      assert WorkerOk(cfg, s, s.workers[v]);
    }
  }

  /** A pending row, which no goroutine works on, may take a terminal state. */
  lemma SoundSettle(cfg: Settings, s: State, row: Row, state: OpState, errors: Errors)
    requires Sound(cfg, s) && row < |s.ops| && s.ops[row].state.Pending? && (state.Succeeded? || state.Failed?)
    ensures Sound(cfg, Write(s, row, s.ops[row].(state := state, errors := errors)))
  {
    var s' := Write(s, row, s.ops[row].(state := state, errors := errors));
    forall i | 0 <= i < |s'.ops| ensures RowOk(s', i) {
      assert RowOk(s, i);
    }
    forall v | v in s'.workers ensures WorkerOk(cfg, s', s'.workers[v]) {
      assert WorkerOk(cfg, s, s.workers[v]) && RowOk(s, row);
    }
  }

  lemma SoundLaunch(cfg: Settings, s: State, row: Row, free: bool, w: nat)
    requires cfg.Positive() && Sound(cfg, s) && row < |s.ops| && s.ops[row].state.Pending? && Fresh(s, w)
    ensures Sound(cfg, Schedule(cfg, s, row, s.ops[row].(state := InProgress), free, w))
  {
    assert RowOk(s, row);
    forall v | v in s.workers ensures s.workers[v].row != row {
      assert WorkerOk(cfg, s, s.workers[v]);
    }
    ScheduledSound(cfg, s, row, s.ops[row].(state := InProgress), free, w);
  }

  lemma SoundPoll(cfg: Settings, s: State, row: Row, same: Row, free: bool, w: nat)
    requires cfg.Positive() && Sound(cfg, s) && Enabled(cfg, s, Poll(row, same, free, w))
    ensures Sound(cfg, PollOne(cfg, s, row, same, free, w))
  {
    DecisionMeaning(s.ops, row, same);
    match Decide(s.ops, row, same) {
      case Leave =>
      case Settle(state, errors) => SoundSettle(cfg, s, row, state, errors);
      case Launch => SoundLaunch(cfg, s, row, free, w);
    }
  }

  lemma SoundMark(cfg: Settings, s: State, w: nat, deletion: bool, reschedule: bool)
    requires Sound(cfg, s) && Enabled(cfg, s, Mark(w, deletion, reschedule))
    ensures Sound(cfg, Next(cfg, s, Mark(w, deletion, reschedule)))
  {
    var s' := Next(cfg, s, Mark(w, deletion, reschedule));
    assert WorkerOk(cfg, s, s.workers[w]) && RowOk(s, s.workers[w].row);
    forall i | 0 <= i < |s'.ops| ensures RowOk(s', i) {
      assert RowOk(s, i);
    }
    forall v | v in s'.workers ensures WorkerOk(cfg, s', s'.workers[v]) {
      assert WorkerOk(cfg, s, s.workers[v]);
    }
  }

  lemma FinishRow(cfg: Settings, s: State, w: nat, outcome: Outcome, i: Row)
    requires cfg.Positive() && Sound(cfg, s) && Enabled(cfg, s, Finish(w, outcome)) && i < |s.ops|
    ensures s.workers[w].row < |s.ops| && RowOk(FinishJob(cfg, s, w, outcome), i)
  {
    assert WorkerOk(cfg, s, s.workers[w]) && RowOk(s, s.workers[w].row) && RowOk(s, i);
  }

  lemma FinishWorker(cfg: Settings, s: State, w: nat, outcome: Outcome, v: nat)
    requires cfg.Positive() && cfg.RetriesBeforeSweep() && Sound(cfg, s) && Enabled(cfg, s, Finish(w, outcome))
    requires s.workers[w].row < |s.ops| && v in FinishJob(cfg, s, w, outcome).workers
    ensures v in s.workers && FinishJob(cfg, s, w, outcome).workers[v].row == s.workers[v].row
    ensures WorkerOk(cfg, FinishJob(cfg, s, w, outcome), FinishJob(cfg, s, w, outcome).workers[v])
  {
    assert WorkerOk(cfg, s, s.workers[w]) && RowOk(s, s.workers[w].row) && WorkerOk(cfg, s, s.workers[v]);
  }

  lemma SoundFinish(cfg: Settings, s: State, w: nat, outcome: Outcome)
    requires cfg.Positive() && cfg.RetriesBeforeSweep() && Sound(cfg, s) && Enabled(cfg, s, Finish(w, outcome))
    ensures s.workers[w].row < |s.ops| && Sound(cfg, FinishJob(cfg, s, w, outcome))
  {
    assert WorkerOk(cfg, s, s.workers[w]);
    var s' := FinishJob(cfg, s, w, outcome);
    forall i | 0 <= i < |s'.ops| ensures RowOk(s', i) {
      FinishRow(cfg, s, w, outcome, i);
    }
    forall v | v in s'.workers ensures v in s.workers && s'.workers[v].row == s.workers[v].row && WorkerOk(cfg, s', s'.workers[v]) {
      FinishWorker(cfg, s, w, outcome, v);
    }
  }

  lemma SoundStuck(cfg: Settings, s: State, row: Row, free: bool, w: nat)
    requires cfg.Positive() && Sound(cfg, s) && Enabled(cfg, s, SweepStuck(row, free, w))
    ensures Sound(cfg, MarkStuck(cfg, s, row, free, w))
  {
    StaleIsUnattended(cfg, s, row);
    var op := s.ops[row].(state := Failed, updatedAt := s.now);
    var marked := if op.category.Update? then op else op.(deletionScheduled := Some(s.now));
    var written := s.(ops := s.ops[row := marked],
                      mitigated := if op.category.Update? then s.mitigated else s.mitigated + {row});
    forall i | 0 <= i < |s.ops| ensures RowOk(written, i) {
      assert RowOk(s, i);
    }
    forall v | v in s.workers ensures WorkerOk(cfg, written, written.workers[v]) {
      assert WorkerOk(cfg, s, s.workers[v]);
    }
    if !op.category.Update? {
      SoundSchedule(cfg, written, row, free, w);
    }
  }

  lemma SoundTick(cfg: Settings, s: State, to: int)
    requires Sound(cfg, s) && Enabled(cfg, s, Tick(to))
    ensures Sound(cfg, s.(now := to))
  {
    var s' := s.(now := to);
    forall i | 0 <= i < |s'.ops| ensures RowOk(s', i) {
      assert RowOk(s, i);
    }
    forall v | v in s'.workers ensures WorkerOk(cfg, s', s'.workers[v]) {
      assert WorkerOk(cfg, s, s.workers[v]);
    }
  }

  lemma SoundNext(cfg: Settings, s: State, e: Event)
    requires cfg.Positive() && cfg.RetriesBeforeSweep() && Sound(cfg, s) && Enabled(cfg, s, e)
    ensures Sound(cfg, Next(cfg, s, e))
  {
    match e {
      case Submit(op, free, w) => SoundSubmit(cfg, s, op, free, w);
      case SubmitTree(tree, heights) => SoundSubmitTree(cfg, s, tree, heights);
      case Poll(row, same, free, w) => SoundPoll(cfg, s, row, same, free, w);
      case Mark(w, deletion, reschedule) => SoundMark(cfg, s, w, deletion, reschedule);
      case Finish(w, outcome) => SoundFinish(cfg, s, w, outcome);
      case Wake(w, free, next) =>
        assert WorkerOk(cfg, s, s.workers[w]);
        SoundWithout(cfg, s, {w});
        SoundSchedule(cfg, s.(workers := s.workers - {w}), s.workers[w].row, free, next);
      case Continue(row, free, w) => SoundSchedule(cfg, s, row, free, w);
      case SweepUnfinished(row, free, w) =>
        StaleIsUnattended(cfg, s, row);
        SoundSchedule(cfg, s, row, free, w);
      case SweepMitigation(row, free, w) =>
        StaleIsUnattended(cfg, s, row);
        SoundSchedule(cfg, s, row, free, w);
      case SweepStuck(row, free, w) => SoundStuck(cfg, s, row, free, w);
      case Crash(lost) => SoundWithout(cfg, s, lost);
      case Tick(to) => SoundTick(cfg, s, to);
    }
  }

  /** Every state of a run is sound: in particular no operation ever has two live goroutines. */
  lemma {:induction false} RunIsSound(cfg: Settings, states: seq<State>, events: seq<Event>, i: nat)
    requires cfg.Positive() && cfg.RetriesBeforeSweep() && IsRun(cfg, states, events) && i < |states|
    ensures Sound(cfg, states[i])
  {
    if i > 0 {
      RunIsSound(cfg, states, events, i - 1);
      SoundNext(cfg, states[i - 1], events[i - 1]);
    }
  }

  // ----- what this means for whole runs -----

  /** One event keeps the rows and their identity, and terminal rows altogether. */
  lemma StepKeeps(cfg: Settings, s: State, e: Event, row: Row)
    requires Sound(cfg, s) && Enabled(cfg, s, e) && row < |s.ops|
    ensures row < |Next(cfg, s, e).ops| && SameIdentity(s.ops[row], Next(cfg, s, e).ops[row])
    ensures s.ops[row].Terminal() ==> Next(cfg, s, e).ops[row] == s.ops[row]
  {
    EventForward(cfg, s, e);
    assert ForwardAt(s, Next(cfg, s, e), row);
  }

  /** A terminal operation out of orphan mitigation is never written again. */
  lemma {:induction false} TerminalIsAbsorbing(
    cfg: Settings, states: seq<State>, events: seq<Event>, i: nat, j: nat, row: Row)
    requires cfg.Positive() && cfg.RetriesBeforeSweep() && IsRun(cfg, states, events)
    requires i <= j < |states| && row < |states[i].ops| && states[i].ops[row].Terminal()
    ensures row < |states[j].ops| && states[j].ops[row] == states[i].ops[row]
  {
    if i < j {
      TerminalIsAbsorbing(cfg, states, events, i, j - 1, row);
      RunIsSound(cfg, states, events, j - 1);
      StepKeeps(cfg, states[j - 1], events[j - 1], row);
    }
  }
}
