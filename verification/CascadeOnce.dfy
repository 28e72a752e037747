/** What every run keeps about cascade trees whatever the timeouts are: a resource is deleted for one operation only. */
module CascadeOnce {
  import opened OperationTypes
  import opened Wrappers
  import opened CascadeUtils
  import opened Protocol
  import opened Lifecycle
  import opened CascadeSafety

  /** A pending row is as it was stored; a row of a tree that left PENDING was written later than it was created; a row
      with a job was admitted, and an admitted row is not pending. */
  predicate BasicRow(s: State, i: Row)
    requires i < |s.ops|
  {
    var op := s.ops[i];
    && op.createdAt <= op.updatedAt <= s.now
    && (op.state.Pending? ==> op.root.Some? && op.category.Delete? && !op.InMitigation() && op.updatedAt == op.createdAt)
    && (op.root.Some? && !op.Virtual() && !op.state.Pending? ==> op.updatedAt > op.createdAt)
    && (op.Started() ==> i in s.scheduled)
    && (i in s.scheduled ==> !op.state.Pending?)
  }

  predicate BasicWorker(s: State, worker: Worker) {
    && worker.row < |s.ops| && worker.row in s.scheduled
    && SameIdentity(worker.op, s.ops[worker.row]) && worker.op.Started() && !worker.op.state.Pending?
  }

  ghost predicate Basic(s: State) {
    && Shaped(s.ops, s.heights)
    && (forall i | 0 <= i < |s.ops| :: BasicRow(s, i))
    && (forall w | w in s.workers :: BasicWorker(s, s.workers[w]))
    && (forall i | i in s.scheduled :: i < |s.ops|)
    && (forall i, j | i in s.scheduled && j in s.scheduled && i != j :: OnOtherTargets(s.ops, i, j))
  }

  predicate OnOtherTargets(t: Table, i: Row, j: Row) {
    i < |t| && t[i].root.Some? ==> !SameTarget(t, i, j)
  }

  // ----- an event that writes one row -----

  /** A row of a tree was created before now. */
  predicate Aged(s: State, row: Row)
    requires row < |s.ops|
  {
    s.ops[row].root.Some? && !s.ops[row].Virtual() ==> s.ops[row].createdAt < s.now
  }

  /** s' differs from s in one row that is not pending afterwards, in whether that row was admitted, and in goroutines on
      that row. */
  ghost predicate Rewrites(s: State, s': State, row: Row) {
    && row < |s.ops| == |s'.ops| && s'.heights == s.heights && s'.now == s.now
    && (forall i | 0 <= i < |s.ops| && i != row :: s'.ops[i] == s.ops[i])
    && SameIdentity(s.ops[row], s'.ops[row]) && !s'.ops[row].state.Pending? && Aged(s, row)
    && (s'.ops[row] == s.ops[row] || s'.ops[row].updatedAt == s.now)
    && (s'.scheduled == s.scheduled || s'.scheduled == s.scheduled + {row})
    && (s'.ops[row].Started() ==> row in s'.scheduled)
    && (forall w | w in s'.workers :: (w in s.workers && s'.workers[w] == s.workers[w]) || OnRow(s', s'.workers[w], row))
  }

  predicate OnRow(s: State, worker: Worker, row: Row) {
    && worker.row == row < |s.ops| && row in s.scheduled
    && SameIdentity(worker.op, s.ops[row]) && worker.op.Started() && !worker.op.state.Pending?
  }

  lemma RewriteKeepsShape(s: State, s': State, row: Row)
    requires Basic(s) && Rewrites(s, s', row)
    ensures Shaped(s'.ops, s'.heights)
  {
    assert SameIdentities(s.ops, s'.ops);
    ShapeKept(s.ops, s'.ops, s.heights);
  }

  lemma RewriteKeepsBasic(s: State, s': State, row: Row)
    requires Basic(s) && Rewrites(s, s', row)
    requires row in s'.scheduled && row !in s.scheduled ==> forall j | j in s.scheduled :: OnOtherTargets(s.ops, row, j)
    ensures Basic(s')
  {
    RewriteKeepsShape(s, s', row);
    assert BasicRow(s, row);
    forall i | 0 <= i < |s'.ops| ensures BasicRow(s', i) {
      assert BasicRow(s, i);
    }
    forall w | w in s'.workers ensures BasicWorker(s', s'.workers[w]) {
      if w in s.workers && s'.workers[w] == s.workers[w] {
        assert BasicWorker(s, s.workers[w]);
      }
    }
    forall i, j | i in s'.scheduled && j in s'.scheduled && i != j ensures OnOtherTargets(s'.ops, i, j) {
      assert SameIdentity(s.ops[i], s'.ops[i]) && SameIdentity(s.ops[j], s'.ops[j]);
      if i in s.scheduled && j in s.scheduled {
        assert OnOtherTargets(s.ops, i, j);
      } else if i in s.scheduled {
        assert OnOtherTargets(s.ops, j, i);
      } else {
        assert OnOtherTargets(s.ops, i, j);
      }
    }
  }

  // ----- the events -----

  lemma ScheduleRewrites(cfg: Settings, s: State, row: Row, op: Operation, free: bool, w: nat)
    requires row < |s.ops| && row in s.scheduled && SameIdentity(op, s.ops[row]) && op.Started() && !op.state.Pending?
    requires !s.ops[row].state.Pending? && Aged(s, row)
    requires s.ops[row].Started() ==> row in s.scheduled
    ensures Rewrites(s, Schedule(cfg, s, row, op, free, w), row)
  {
  }

  lemma FinishRewrites(cfg: Settings, s: State, w: nat, outcome: Outcome)
    requires w in s.workers && s.workers[w].Running? && BasicWorker(s, s.workers[w])
    requires !s.ops[s.workers[w].row].state.Pending? && Aged(s, s.workers[w].row)
    ensures Rewrites(s, FinishJob(cfg, s, w, outcome), s.workers[w].row)
  {
  }

  lemma StuckRewrites(cfg: Settings, s: State, row: Row, free: bool, w: nat)
    requires row < |s.ops| && row in s.scheduled && Aged(s, row)
    ensures Rewrites(s, MarkStuck(cfg, s, row, free, w), row)
  {
    var marked := s.ops[row].(state := Failed, updatedAt := s.now, deletionScheduled := Some(s.now));
    var written := s.(ops := s.ops[row := marked], mitigated := s.mitigated + {row});
    if !s.ops[row].category.Update? {
      ScheduleRewrites(cfg, written, row, marked, free, w);
    }
  }

  lemma MarkRewrites(cfg: Settings, s: State, w: nat, deletion: bool, reschedule: bool)
    requires Enabled(cfg, s, Mark(w, deletion, reschedule)) && BasicWorker(s, s.workers[w]) && Aged(s, s.workers[w].row)
    ensures Rewrites(s, Next(cfg, s, Mark(w, deletion, reschedule)), s.workers[w].row)
  {
  }

  /** The row a job, a retry or a sweep writes. */
  function Written(s: State, e: Event): Row
    requires e.Mark? || e.Finish? || e.Wake? || e.Continue? || e.SweepUnfinished? || e.SweepMitigation? || e.SweepStuck?
    requires e.Mark? || e.Finish? || e.Wake? ==> e.w in s.workers
  {
    if e.Mark? || e.Finish? || e.Wake? then s.workers[e.w].row else e.row
  }

  lemma EventRewrites(cfg: Settings, s: State, e: Event)
    requires Basic(s) && Enabled(cfg, s, e)
    requires e.Mark? || e.Finish? || e.Wake? || e.Continue? || e.SweepUnfinished? || e.SweepMitigation? || e.SweepStuck?
    ensures Rewrites(s, Next(cfg, s, e), Written(s, e)) && Written(s, e) in s.scheduled
  {
    if e.Mark? || e.Finish? || e.Wake? {
      assert BasicWorker(s, s.workers[e.w]);
    }
    assert BasicRow(s, Written(s, e));
    match e {
      case Mark(w, deletion, reschedule) => MarkRewrites(cfg, s, w, deletion, reschedule);
      case Finish(w, outcome) => FinishRewrites(cfg, s, w, outcome);
      case Wake(w, free, next) =>
        ScheduleRewrites(cfg, s.(workers := s.workers - {w}), s.workers[w].row, s.workers[w].op, free, next);
      case SweepStuck(row, free, w) => StuckRewrites(cfg, s, row, free, w);
      case Continue(row, free, w) => ScheduleRewrites(cfg, s, row, s.ops[row], free, w);
      case SweepUnfinished(row, free, w) => ScheduleRewrites(cfg, s, row, s.ops[row], free, w);
      case SweepMitigation(row, free, w) => ScheduleRewrites(cfg, s, row, s.ops[row], free, w);
      case _ =>
    }
  }

  /** When the newest operation on a target is pending, none on it was admitted. */
  lemma NewestPendingMeansNone(s: State, row: Row, same: Row, j: Row)
    requires Basic(s) && row < |s.ops| && s.ops[row].root.Some? && !s.ops[row].Virtual()
    requires IsLatest(s.ops, row, same) && s.ops[same].state.Pending? && j in s.scheduled
    ensures !SameTarget(s.ops, row, j)
  {
    assert BasicRow(s, same) && BasicRow(s, j);
    assert ShapeOk(s.ops, s.heights, same) && ShapeOk(s.ops, s.heights, j);
  }

  lemma PollRewrites(cfg: Settings, s: State, row: Row, same: Row, free: bool, w: nat)
    requires Basic(s) && Enabled(cfg, s, Poll(row, same, free, w))
    ensures PollOne(cfg, s, row, same, free, w) == s || Rewrites(s, PollOne(cfg, s, row, same, free, w), row)
  {
    assert BasicRow(s, row);
    DecisionMeaning(s.ops, row, same);
  }

  lemma PollBasic(cfg: Settings, s: State, row: Row, same: Row, free: bool, w: nat)
    requires Basic(s) && Enabled(cfg, s, Poll(row, same, free, w))
    ensures Basic(PollOne(cfg, s, row, same, free, w))
  {
    var s' := PollOne(cfg, s, row, same, free, w);
    PollRewrites(cfg, s, row, same, free, w);
    DecisionMeaning(s.ops, row, same);
    if s' != s {
      if row in s'.scheduled && row !in s.scheduled {
        assert Decide(s.ops, row, same).Launch?;
        forall j | j in s.scheduled ensures OnOtherTargets(s.ops, row, j) {
          NewestPendingMeansNone(s, row, same, j);
        }
      }
      RewriteKeepsBasic(s, s', row);
    }
  }

  lemma SubmitBasic(cfg: Settings, s: State, op: Operation, free: bool, w: nat)
    requires Basic(s) && Enabled(cfg, s, Submit(op, free, w))
    ensures Basic(Next(cfg, s, Submit(op, free, w)))
  {
    var s' := Next(cfg, s, Submit(op, free, w));
    if s' != s {
      ShapeExtended(s.ops, s.heights, [op], [0]);
      Appended(s, s', [op]);
    }
  }

  /** Rows added at the end leave the old ones as they are. */
  lemma Appended(s: State, s': State, more: Table)
    requires Basic(s) && s'.ops == s.ops + more && s'.now == s.now && Shaped(s'.ops, s'.heights)
    requires forall i | |s.ops| <= i < |s'.ops| :: BasicRow(s', i)
    requires s.scheduled <= s'.scheduled && forall i | i in s'.scheduled && i !in s.scheduled :: i < |s'.ops| && s'.ops[i].root.None?
    requires forall w | w in s'.workers :: (w in s.workers && s'.workers[w] == s.workers[w]) || BasicWorker(s', s'.workers[w])
    requires forall i | i in s'.scheduled && i !in s.scheduled :: i >= |s.ops|
    ensures Basic(s')
  {
    forall i | 0 <= i < |s'.ops| ensures BasicRow(s', i) {
      assert i < |s.ops| ==> BasicRow(s, i);
    }
    forall w | w in s'.workers ensures BasicWorker(s', s'.workers[w]) {
      assert w in s.workers ==> BasicWorker(s, s.workers[w]);
    }
    forall i, j | i in s'.scheduled && j in s'.scheduled && i != j ensures OnOtherTargets(s'.ops, i, j) {
      if i in s.scheduled && j in s.scheduled {
        assert OnOtherTargets(s.ops, i, j);
      }
    }
  }

  lemma SubmitTreeBasic(cfg: Settings, s: State, tree: Table, heights: seq<nat>)
    requires Basic(s) && Enabled(cfg, s, SubmitTree(tree, heights))
    ensures Basic(Next(cfg, s, SubmitTree(tree, heights)))
  {
    NewTreeShaped(s, tree, heights);
    Appended(s, Next(cfg, s, SubmitTree(tree, heights)), tree);
  }

  lemma BasicNext(cfg: Settings, s: State, e: Event)
    requires Basic(s) && Enabled(cfg, s, e)
    ensures Basic(Next(cfg, s, e))
  {
    match e {
      case Submit(op, free, w) => SubmitBasic(cfg, s, op, free, w);
      case SubmitTree(tree, heights) => SubmitTreeBasic(cfg, s, tree, heights);
      case Poll(row, same, free, w) => PollBasic(cfg, s, row, same, free, w);
      case Crash(lost) => QuietBasic(s, s.(workers := s.workers - lost));
      case Tick(to) => QuietBasic(s, s.(now := to));
      case _ =>
        EventRewrites(cfg, s, e);
        RewriteKeepsBasic(s, Next(cfg, s, e), Written(s, e));
    }
  }

  lemma QuietBasic(s: State, s': State)
    requires Basic(s) && s'.ops == s.ops && s'.heights == s.heights && s'.scheduled == s.scheduled && s.now <= s'.now
    requires forall w | w in s'.workers :: w in s.workers && s'.workers[w] == s.workers[w]
    ensures Basic(s')
  {
    forall i | 0 <= i < |s'.ops| ensures BasicRow(s', i) {
      assert BasicRow(s, i);
    }
    forall w | w in s'.workers ensures BasicWorker(s', s'.workers[w]) {
      assert BasicWorker(s, s.workers[w]);
    }
  }

  lemma {:induction false} RunIsBasic(cfg: Settings, states: seq<State>, events: seq<Event>, i: nat)
    requires IsRun(cfg, states, events) && i < |states|
    ensures Basic(states[i])
  {
    if i > 0 {
      RunIsBasic(cfg, states, events, i - 1);
      BasicNext(cfg, states[i - 1], events[i - 1]);
    }
  }

  /** In every run, whatever the timeouts: of all operations of one tree on the same resource at most one is ever admitted
      for execution. An operation that never was is pending or has settled, and no goroutine works on it; and an operation
      that has left PENDING was written later than every one on its resource that has not. */
  lemma OneDeletionPerResource(cfg: Settings, states: seq<State>, events: seq<Event>, i: nat, a: Row, b: Row)
    requires IsRun(cfg, states, events) && i < |states|
    requires a != b && SameTarget(states[i].ops, a, b) && states[i].ops[a].root.Some?
    ensures a !in states[i].scheduled || b !in states[i].scheduled
    ensures a !in states[i].scheduled ==>
              (states[i].ops[a].state.Pending? || states[i].ops[a].Terminal()) && Unattended(states[i], a)
    ensures !states[i].ops[a].Virtual() && !states[i].ops[a].state.Pending? && states[i].ops[b].state.Pending? ==>
              states[i].ops[a].updatedAt > states[i].ops[b].updatedAt
  {
    RunIsBasic(cfg, states, events, i);
    var s := states[i];
    assert BasicRow(s, a) && BasicRow(s, b) && ShapeOk(s.ops, s.heights, a) && ShapeOk(s.ops, s.heights, b);
    assert a in s.scheduled && b in s.scheduled ==> OnOtherTargets(s.ops, a, b);
    forall w | w in s.workers ensures BasicWorker(s, s.workers[w]) {}
  }
}
