/** Whatever the timeouts are, a create or update that was ever in orphan mitigation never succeeds. */
module Mitigation {
  import opened OperationTypes
  import opened Wrappers
  import opened Protocol

  predicate RowFine(s: State, i: Row)
    requires i < |s.ops|
  {
    var op := s.ops[i];
    && op.updatedAt <= s.now
    && (!op.category.Delete? ==>
          && (op.InMitigation() ==> i in s.mitigated)
          && (i in s.mitigated ==> !op.state.Succeeded? && (op.InMitigation() || op.state.Failed?)))
  }

  /** A goroutine on a create or update that was ever in mitigation was started to undo it; an update that was ever in
      mitigation and still has a goroutine is in mitigation; a running job ends before its row could look abandoned. */
  predicate JobFine(cfg: Settings, s: State, job: Worker) {
    && job.row < |s.ops|
    && var op := s.ops[job.row];
    && job.op.category == op.category && !job.op.state.Succeeded?
    && (job.Running? ==> s.now <= job.due <= op.updatedAt + cfg.actionTimeout)
    && (!op.category.Delete? ==>
          && (job.Waiting? ==> job.op.InMitigation())
          && (job.op.InMitigation() <==> job.row in s.mitigated)
          && (op.category.Update? && job.row in s.mitigated ==> op.InMitigation()))
  }

  /** Only a create in mitigation, or a deletion, can have several goroutines. */
  predicate Shared(s: State, row: Row) {
    row < |s.ops| && (s.ops[row].category.Delete? || (s.ops[row].category.Create? && row in s.mitigated))
  }

  predicate PairFine(s: State, v: Worker, w: Worker) {
    v.row == w.row ==> Shared(s, v.row)
  }

  ghost predicate Undoing(cfg: Settings, s: State) {
    && (forall i | 0 <= i < |s.ops| :: RowFine(s, i))
    && (forall i | i in s.mitigated :: i < |s.ops|)
    && (forall w | w in s.workers :: JobFine(cfg, s, s.workers[w]))
    && (forall v, w | v in s.workers && w in s.workers && v != w :: PairFine(s, s.workers[v], s.workers[w]))
  }

  /** s' differs from s in one row, in whether that row was ever in mitigation, and in goroutines on that row. */
  ghost predicate Touches(s: State, s': State, row: Row) {
    && row < |s.ops| == |s'.ops| && s'.now == s.now
    && (forall i | 0 <= i < |s.ops| && i != row :: s'.ops[i] == s.ops[i])
    && s'.ops[row].category == s.ops[row].category
    && s.mitigated <= s'.mitigated <= s.mitigated + {row}
    && (forall w | w in s'.workers :: (w in s.workers && s'.workers[w] == s.workers[w]) || s'.workers[w].row == row)
  }

  lemma TouchKeeps(cfg: Settings, s: State, s': State, row: Row)
    requires Undoing(cfg, s) && Touches(s, s', row) && RowFine(s', row)
    requires forall w | w in s'.workers && s'.workers[w].row == row :: JobFine(cfg, s', s'.workers[w])
    requires Shared(s', row) ||
             forall v, w | v in s'.workers && w in s'.workers && s'.workers[v].row == row == s'.workers[w].row :: v == w
    ensures Undoing(cfg, s')
  {
    forall i | 0 <= i < |s'.ops| ensures RowFine(s', i) {
      assert RowFine(s, i);
    }
    forall w | w in s'.workers ensures JobFine(cfg, s', s'.workers[w]) {
    }
    forall v, w | v in s'.workers && w in s'.workers && v != w ensures PairFine(s', s'.workers[v], s'.workers[w]) {
      if s'.workers[v].row == s'.workers[w].row && s'.workers[v].row != row {
        assert PairFine(s, s.workers[v], s.workers[w]);
      }
    }
  }

  // ----- each event -----

  /** A job is started to undo an operation that was in mitigation, or as the only goroutine of one that never was. */
  lemma ScheduleKeeps(cfg: Settings, s: State, row: Row, op: Operation, free: bool, w: nat)
    requires cfg.Positive() && Undoing(cfg, s) && row < |s.ops| && op.category == s.ops[row].category && w !in s.workers
    requires !op.category.Delete? ==> (op.InMitigation() <==> row in s.mitigated)
    requires Shared(s, row) || Unattended(s, row)
    ensures Undoing(cfg, Schedule(cfg, s, row, op, free, w))
  {
    var s' := Schedule(cfg, s, row, op, free, w);
    assert RowFine(s, row);
    forall v | v in s'.workers && s'.workers[v].row == row ensures JobFine(cfg, s', s'.workers[v]) {
      assert v != w ==> JobFine(cfg, s, s.workers[v]);
    }
    TouchKeeps(cfg, s, s', row);
  }

  lemma SubmitKeeps(cfg: Settings, s: State, op: Operation, free: bool, w: nat)
    requires cfg.Positive() && Undoing(cfg, s) && Enabled(cfg, s, Submit(op, free, w))
    ensures Undoing(cfg, Next(cfg, s, Submit(op, free, w)))
  {
    var s' := Next(cfg, s, Submit(op, free, w));
    forall i | 0 <= i < |s'.ops| ensures RowFine(s', i) {
      assert i < |s.ops| ==> RowFine(s, i);
    }
    forall v | v in s'.workers ensures JobFine(cfg, s', s'.workers[v]) {
      assert v != w ==> JobFine(cfg, s, s.workers[v]);
    }
    forall u, v | u in s'.workers && v in s'.workers && u != v ensures PairFine(s', s'.workers[u], s'.workers[v]) {
      if u != w && v != w {
        assert PairFine(s, s.workers[u], s.workers[v]);
      } else {
        assert u != w ==> JobFine(cfg, s, s.workers[u]);
        assert v != w ==> JobFine(cfg, s, s.workers[v]);
      }
    }
  }

  lemma SubmitTreeKeeps(cfg: Settings, s: State, tree: Table, heights: seq<nat>)
    requires Undoing(cfg, s) && Enabled(cfg, s, SubmitTree(tree, heights))
    ensures Undoing(cfg, Next(cfg, s, SubmitTree(tree, heights)))
  {
    var s' := Next(cfg, s, SubmitTree(tree, heights));
    assert s'.ops[..|s.ops|] == s.ops;
    forall i | 0 <= i < |s'.ops| ensures RowFine(s', i) {
      assert i < |s.ops| ==> RowFine(s, i);
    }
    forall w | w in s'.workers ensures JobFine(cfg, s', s'.workers[w]) {
      assert JobFine(cfg, s, s.workers[w]);
    }
    forall v, w | v in s'.workers && w in s'.workers && v != w ensures PairFine(s', s'.workers[v], s'.workers[w]) {
      assert PairFine(s, s.workers[v], s.workers[w]) && JobFine(cfg, s, s.workers[v]);
    }
  }

  lemma PollKeeps(cfg: Settings, s: State, row: Row, same: Row, free: bool, w: nat)
    requires cfg.Positive() && Undoing(cfg, s) && Enabled(cfg, s, Poll(row, same, free, w))
    ensures Undoing(cfg, PollOne(cfg, s, row, same, free, w))
  {
    match Decide(s.ops, row, same)
    case Leave =>
    case Launch => ScheduleKeeps(cfg, s, row, s.ops[row].(state := InProgress), free, w);
    case Settle(state, errors) =>
      var s' := PollOne(cfg, s, row, same, free, w);
      forall v | v in s'.workers && s'.workers[v].row == row ensures JobFine(cfg, s', s'.workers[v]) {
        assert JobFine(cfg, s, s.workers[v]) && RowFine(s, row);
      }
      TouchKeeps(cfg, s, s', row);
  }

  lemma MarkKeeps(cfg: Settings, s: State, w: nat, deletion: bool, reschedule: bool)
    requires Undoing(cfg, s) && Enabled(cfg, s, Mark(w, deletion, reschedule))
    ensures Undoing(cfg, Next(cfg, s, Mark(w, deletion, reschedule)))
  {
    var s', row := Next(cfg, s, Mark(w, deletion, reschedule)), s.workers[w].row;
    assert JobFine(cfg, s, s.workers[w]) && RowFine(s, row);
    forall v | v in s'.workers && s'.workers[v].row == row ensures JobFine(cfg, s', s'.workers[v]) {
      assert JobFine(cfg, s, s.workers[v]);
      assert v != w ==> PairFine(s, s.workers[v], s.workers[w]);
    }
    assert forall v | v in s.workers && v != w && s.workers[v].row == row :: PairFine(s, s.workers[v], s.workers[w]);
    TouchKeeps(cfg, s, s', row);
  }

  /** A job has left its row: not in mitigation, or failed and still in it, with its own goroutine asleep. */
  ghost predicate Leaves(s: State, s': State, row: Row, w: nat) {
    && Touches(s, s', row) && RowFine(s', row) && s'.mitigated == s.mitigated
    && s.ops[row].updatedAt <= s'.ops[row].updatedAt
    && (forall v | v in s'.workers && v != w :: v in s.workers && s'.workers[v] == s.workers[v])
    && (w in s'.workers ==> s'.workers[w].Waiting? && s'.workers[w].row == row && s'.workers[w].op == s'.ops[row]
                            && s'.ops[row].InMitigation() && !s'.ops[row].state.Succeeded?)
  }

  lemma DoneLeaves(cfg: Settings, s: State, w: nat)
    requires Undoing(cfg, s) && Enabled(cfg, s, Finish(w, ActionDone))
    ensures Leaves(s, FinishJob(cfg, s, w, ActionDone), s.workers[w].row, w)
  {
    assert JobFine(cfg, s, s.workers[w]) && RowFine(s, s.workers[w].row);
  }

  lemma FailedLeaves(cfg: Settings, s: State, w: nat, outcome: Outcome)
    requires Undoing(cfg, s) && Enabled(cfg, s, Finish(w, outcome)) && !outcome.ActionDone?
    ensures Leaves(s, FinishJob(cfg, s, w, outcome), s.workers[w].row, w)
  {
    assert JobFine(cfg, s, s.workers[w]) && RowFine(s, s.workers[w].row);
  }

  lemma FinishLeaves(cfg: Settings, s: State, w: nat, outcome: Outcome)
    requires Undoing(cfg, s) && Enabled(cfg, s, Finish(w, outcome))
    ensures Leaves(s, FinishJob(cfg, s, w, outcome), s.workers[w].row, w)
  {
    if outcome.ActionDone? {
      DoneLeaves(cfg, s, w);
    } else {
      FailedLeaves(cfg, s, w, outcome);
    }
  }

  lemma LeavingKeeps(cfg: Settings, s: State, s': State, row: Row, w: nat)
    requires Undoing(cfg, s) && w in s.workers && s.workers[w].row == row && Leaves(s, s', row, w)
    ensures Undoing(cfg, s')
  {
    forall v | v in s'.workers && s'.workers[v].row == row ensures JobFine(cfg, s', s'.workers[v]) {
      if v != w {
        assert JobFine(cfg, s, s.workers[v]) && PairFine(s, s.workers[v], s.workers[w]);
      }
    }
    assert forall v | v in s.workers && v != w && s.workers[v].row == row :: PairFine(s, s.workers[v], s.workers[w]);
    TouchKeeps(cfg, s, s', row);
  }

  lemma WakeKeeps(cfg: Settings, s: State, w: nat, free: bool, next: nat)
    requires cfg.Positive() && Undoing(cfg, s) && Enabled(cfg, s, Wake(w, free, next))
    ensures Undoing(cfg, Next(cfg, s, Wake(w, free, next)))
  {
    var woken, row := s.(workers := s.workers - {w}), s.workers[w].row;
    assert JobFine(cfg, s, s.workers[w]);
    forall v | v in woken.workers ensures JobFine(cfg, woken, woken.workers[v]) {
      assert JobFine(cfg, s, s.workers[v]);
    }
    forall u, v | u in woken.workers && v in woken.workers && u != v ensures PairFine(woken, woken.workers[u], woken.workers[v]) {
      assert PairFine(s, s.workers[u], s.workers[v]);
    }
    forall i | 0 <= i < |s.ops| ensures RowFine(woken, i) {
      assert RowFine(s, i);
    }
    assert forall v | v in s.workers && v != w && s.workers[v].row == row :: PairFine(s, s.workers[v], s.workers[w]);
    ScheduleKeeps(cfg, woken, row, s.workers[w].op, free, next);
  }

  /** No goroutine is left on an abandoned create or update that is in progress. */
  lemma AbandonedIsUnattended(cfg: Settings, s: State, row: Row)
    requires Undoing(cfg, s) && Stale(cfg, s, row) && !s.ops[row].category.Delete?
    requires s.ops[row].state.InProgress? && !s.ops[row].InMitigation()
    ensures row !in s.mitigated && Unattended(s, row)
  {
    assert RowFine(s, row);
    forall w | w in s.workers ensures s.workers[w].row != row {
      assert JobFine(cfg, s, s.workers[w]);
    }
  }

  lemma StuckKeeps(cfg: Settings, s: State, row: Row, free: bool, w: nat)
    requires cfg.Positive() && Undoing(cfg, s) && Enabled(cfg, s, SweepStuck(row, free, w))
    ensures Undoing(cfg, MarkStuck(cfg, s, row, free, w))
  {
    assert RowFine(s, row);
    if !s.ops[row].category.Delete? {
      AbandonedIsUnattended(cfg, s, row);
    }
    var failed := s.ops[row].(state := Failed, updatedAt := s.now);
    var marked := failed.(deletionScheduled := Some(s.now));
    var written := if failed.category.Update? then s.(ops := s.ops[row := failed])
                   else s.(ops := s.ops[row := marked], mitigated := s.mitigated + {row});
    forall v | v in written.workers && written.workers[v].row == row ensures JobFine(cfg, written, written.workers[v]) {
      assert JobFine(cfg, s, s.workers[v]);
    }
    TouchKeeps(cfg, s, written, row);
    if !failed.category.Update? {
      ScheduleKeeps(cfg, written, row, marked, free, w);
    }
  }

  lemma UndoingNext(cfg: Settings, s: State, e: Event)
    requires cfg.Positive() && Undoing(cfg, s) && Enabled(cfg, s, e)
    ensures Undoing(cfg, Next(cfg, s, e))
  {
    match e
    case Submit(op, free, w) => SubmitKeeps(cfg, s, op, free, w);
    case SubmitTree(tree, heights) => SubmitTreeKeeps(cfg, s, tree, heights);
    case Poll(row, same, free, w) => PollKeeps(cfg, s, row, same, free, w);
    case Mark(w, deletion, reschedule) => MarkKeeps(cfg, s, w, deletion, reschedule);
    case Finish(w, outcome) =>
      FinishLeaves(cfg, s, w, outcome);
      LeavingKeeps(cfg, s, Next(cfg, s, e), s.workers[w].row, w);
    case Wake(w, free, next) => WakeKeeps(cfg, s, w, free, next);
    case Continue(row, free, w) =>
      assert RowFine(s, row);
      ScheduleKeeps(cfg, s, row, s.ops[row], free, w);
    case SweepUnfinished(row, free, w) =>
      if !s.ops[row].category.Delete? {
        AbandonedIsUnattended(cfg, s, row);
      }
      ScheduleKeeps(cfg, s, row, s.ops[row], free, w);
    case SweepMitigation(row, free, w) =>
      assert RowFine(s, row);
      ScheduleKeeps(cfg, s, row, s.ops[row], free, w);
    case SweepStuck(row, free, w) => StuckKeeps(cfg, s, row, free, w);
    case Crash(lost) => QuietKeeps(cfg, s, Next(cfg, s, e));
    case Tick(to) => QuietKeeps(cfg, s, Next(cfg, s, e));
  }

  /** Losing goroutines, or waiting for none of them to be late, keeps everything. */
  lemma QuietKeeps(cfg: Settings, s: State, s': State)
    requires Undoing(cfg, s) && s'.ops == s.ops && s'.mitigated == s.mitigated && s.now <= s'.now
    requires forall w | w in s'.workers :: w in s.workers && s'.workers[w] == s.workers[w]
    requires forall w | w in s'.workers :: s'.now <= s'.workers[w].due || s'.now == s.now
    ensures Undoing(cfg, s')
  {
    forall i | 0 <= i < |s'.ops| ensures RowFine(s', i) {
      assert RowFine(s, i);
    }
    forall w | w in s'.workers ensures JobFine(cfg, s', s'.workers[w]) {
      assert JobFine(cfg, s, s.workers[w]);
    }
    forall v, w | v in s'.workers && w in s'.workers && v != w ensures PairFine(s', s'.workers[v], s'.workers[w]) {
      assert PairFine(s, s.workers[v], s.workers[w]);
    }
  }

  // ----- whole runs -----

  lemma {:induction false} RunIsUndoing(cfg: Settings, states: seq<State>, events: seq<Event>, i: nat)
    requires cfg.Positive() && IsRun(cfg, states, events) && i < |states|
    ensures Undoing(cfg, states[i])
  {
    if i > 0 {
      RunIsUndoing(cfg, states, events, i - 1);
      UndoingNext(cfg, states[i - 1], events[i - 1]);
    }
  }

  lemma ScheduleStays(cfg: Settings, s: State, row: Row, op: Operation, free: bool, w: nat)
    requires row < |s.ops| && op.category == s.ops[row].category
    ensures var s' := Schedule(cfg, s, row, op, free, w);
            && |s'.ops| == |s.ops| && s'.mitigated == s.mitigated
            && forall i | 0 <= i < |s.ops| :: s'.ops[i].category == s.ops[i].category
  {
  }

  lemma StepStays(cfg: Settings, s: State, e: Event, row: Row)
    requires Undoing(cfg, s) && Enabled(cfg, s, e) && row < |s.ops|
    ensures var s' := Next(cfg, s, e);
            row < |s'.ops| && s'.ops[row].category == s.ops[row].category && s.mitigated <= s'.mitigated
  {
    match e
    case Finish(w, outcome) => FinishLeaves(cfg, s, w, outcome);
    case Mark(w, _, _) => assert JobFine(cfg, s, s.workers[w]);
    case Wake(w, free, next) =>
      assert JobFine(cfg, s, s.workers[w]);
      ScheduleStays(cfg, s.(workers := s.workers - {w}), s.workers[w].row, s.workers[w].op, free, next);
    case Continue(r, free, w) => ScheduleStays(cfg, s, r, s.ops[r], free, w);
    case SweepUnfinished(r, free, w) => ScheduleStays(cfg, s, r, s.ops[r], free, w);
    case SweepMitigation(r, free, w) => ScheduleStays(cfg, s, r, s.ops[r], free, w);
    case _ =>
  }

  lemma {:induction false} RowStays(cfg: Settings, states: seq<State>, events: seq<Event>, i: nat, j: nat, row: Row)
    requires cfg.Positive() && IsRun(cfg, states, events) && i <= j < |states| && row < |states[i].ops|
    ensures row < |states[j].ops| && states[j].ops[row].category == states[i].ops[row].category
    ensures states[i].mitigated <= states[j].mitigated
  {
    if i < j {
      RowStays(cfg, states, events, i, j - 1, row);
      RunIsUndoing(cfg, states, events, j - 1);
      StepStays(cfg, states[j - 1], events[j - 1], row);
    }
  }

  /** In every run, a create or update that is in orphan mitigation at some point is from then on in mitigation or
      failed: it never succeeds, however and by whichever goroutines the mitigation ends. */
  lemma MitigatedNeverSucceeds(cfg: Settings, states: seq<State>, events: seq<Event>, i: nat, j: nat, row: Row)
    requires cfg.Positive() && IsRun(cfg, states, events) && i <= j < |states| && row < |states[i].ops|
    requires states[i].ops[row].InMitigation() && !states[i].ops[row].category.Delete?
    ensures row < |states[j].ops| && !states[j].ops[row].state.Succeeded?
    ensures states[j].ops[row].InMitigation() || states[j].ops[row].GaveUp()
  {
    RunIsUndoing(cfg, states, events, i);
    RunIsUndoing(cfg, states, events, j);
    RowStays(cfg, states, events, i, j, row);
    assert RowFine(states[i], row) && RowFine(states[j], row);
  }
}
