/** What every run keeps about the deletions themselves, whatever the timeouts are: those below come first. */
module CascadeDeletions {
  import opened OperationTypes
  import opened Wrappers
  import opened CascadeUtils
  import opened Protocol
  import opened Lifecycle
  import opened CascadeSafety
  import opened CascadeOnce

  /** The row's deletion was carried out, or there is nothing behind it to delete and it has succeeded. */
  predicate Carried(s: State, m: Row) {
    m in s.executed || (m < |s.ops| && s.ops[m].Virtual() && s.ops[m].state.Succeeded?)
  }

  /** The resource of row i is gone: some row of the tree on it was carried out. */
  predicate Gone(s: State, i: Row) {
    exists m :: 0 <= m < |s.ops| && SameTarget(s.ops, i, m) && Carried(s, m)
  }

  predicate ChildrenGone(s: State, i: Row) {
    forall k | 0 <= k < |s.ops| && ChildOf(s.ops, k, i) :: Gone(s, k)
  }

  predicate GoneRow(s: State, i: Row)
    requires i < |s.ops|
  {
    var op := s.ops[i];
    op.root.Some? ==>
      && (op.Virtual() ==> i !in s.scheduled)
      && (op.state.Succeeded? ==> Gone(s, i))
      && (i in s.scheduled || (op.Virtual() && op.state.Succeeded?) ==> ChildrenGone(s, i))
  }

  ghost predicate InSequence(s: State) {
    && s.executed <= s.scheduled
    && (forall w | w in s.workers :: !s.workers[w].op.state.Succeeded?)
    && (forall i | 0 <= i < |s.ops| :: GoneRow(s, i))
  }

  // ----- what is gone stays gone -----

  /** Old rows keep their identity, deletions stay carried out, and new rows do not hang below old ones. */
  ghost predicate Grows(s: State, s': State) {
    && |s.ops| <= |s'.ops| && s.executed <= s'.executed
    && (forall i | 0 <= i < |s.ops| :: SameIdentity(s.ops[i], s'.ops[i]))
    && (forall i | 0 <= i < |s.ops| && s.ops[i].root.Some? && s.ops[i].Virtual() && s.ops[i].state.Succeeded? ::
          s'.ops[i].state.Succeeded?)
    && (forall k, i | |s.ops| <= k < |s'.ops| && 0 <= i < |s.ops| :: !ChildOf(s'.ops, k, i))
  }

  lemma GoneStays(s: State, s': State, i: Row)
    requires Grows(s, s') && i < |s.ops| && s.ops[i].root.Some? && Gone(s, i)
    ensures Gone(s', i)
  {
    var m :| 0 <= m < |s.ops| && SameTarget(s.ops, i, m) && Carried(s, m);
    assert SameIdentity(s.ops[i], s'.ops[i]) && SameIdentity(s.ops[m], s'.ops[m]);
    assert SameTarget(s'.ops, i, m) && Carried(s', m);
  }

  lemma ChildrenStayGone(s: State, s': State, i: Row)
    requires Basic(s) && Grows(s, s') && i < |s.ops| && ChildrenGone(s, i)
    ensures ChildrenGone(s', i)
  {
    forall k | 0 <= k < |s'.ops| && ChildOf(s'.ops, k, i) ensures Gone(s', k) {
      assert k < |s.ops| && SameIdentity(s.ops[k], s'.ops[k]);
      assert ChildOf(s.ops, k, i) && ShapeOk(s.ops, s.heights, k);
      GoneStays(s, s', k);
    }
  }

  /** Rows on one target are gone together. */
  lemma GoneTogether(s: State, i: Row, j: Row)
    requires SameTarget(s.ops, i, j) && Gone(s, j)
    ensures Gone(s, i)
  {
    var m :| 0 <= m < |s.ops| && SameTarget(s.ops, j, m) && Carried(s, m);
    assert SameTarget(s.ops, i, m);
  }

  /** An event that writes one row. */
  lemma RewriteInSequence(s: State, s': State, row: Row)
    requires Basic(s) && InSequence(s) && Rewrites(s, s', row) && Grows(s, s') && s'.executed <= s'.scheduled
    requires forall w | w in s'.workers :: !s'.workers[w].op.state.Succeeded?
    requires s.ops[row].root.Some? && s'.ops[row].state.Succeeded? ==> Gone(s', row)
    requires s.ops[row].root.Some? && s.ops[row].Virtual() ==> row !in s'.scheduled
    requires row in s'.scheduled || (s.ops[row].Virtual() && s'.ops[row].state.Succeeded?) ==>
               s.ops[row].root.Some? ==> ChildrenGone(s, row)
    ensures InSequence(s')
  {
    forall i | 0 <= i < |s'.ops| ensures GoneRow(s', i) {
      assert GoneRow(s, i) && SameIdentity(s.ops[i], s'.ops[i]);
      if s.ops[i].root.Some? {
        if i != row && Gone(s, i) {
          GoneStays(s, s', i);
        }
        if ChildrenGone(s, i) {
          ChildrenStayGone(s, s', i);
        }
      }
    }
  }

  // ----- each event -----

  lemma ScheduleWrites(cfg: Settings, s: State, row: Row, op: Operation, free: bool, w: nat)
    requires row < |s.ops|
    ensures var s' := Schedule(cfg, s, row, op, free, w);
            && s'.executed == s.executed && (s'.ops[row] == s.ops[row] || !s'.ops[row].state.Succeeded?)
            && (w in s'.workers && !(w in s.workers && s'.workers[w] == s.workers[w]) ==> !s'.workers[w].op.state.Succeeded?)
            && forall v | v in s'.workers && v != w :: v in s.workers && s'.workers[v] == s.workers[v]
  {
  }

  lemma FinishWrites(cfg: Settings, s: State, w: nat, outcome: Outcome)
    requires Enabled(cfg, s, Finish(w, outcome))
    ensures var s', row := FinishJob(cfg, s, w, outcome), s.workers[w].row;
            && s.executed <= s'.executed <= s.executed + {row}
            && (s'.ops[row].state.Succeeded? ==> row in s'.executed || s'.ops[row] == s.ops[row])
            && (w in s'.workers ==> !s'.workers[w].op.state.Succeeded?)
            && forall v | v in s'.workers && v != w :: v in s.workers && s'.workers[v] == s.workers[v]
  {
  }

  /** A job, a retry or a sweep: a row that succeeds now was carried out, and goroutines hold no copy that has. */
  ghost predicate Works(s: State, s': State, row: Row) {
    && row < |s.ops| && row < |s'.ops|
    && s.executed <= s'.executed <= s.executed + {row}
    && (s'.ops[row].state.Succeeded? ==> row in s'.executed || s.ops[row].state.Succeeded?)
    && (forall v | v in s'.workers :: !s'.workers[v].op.state.Succeeded?)
  }

  lemma StuckWorks(cfg: Settings, s: State, row: Row, free: bool, w: nat)
    requires InSequence(s) && row < |s.ops| && w !in s.workers
    ensures Works(s, MarkStuck(cfg, s, row, free, w), row)
  {
    var marked := s.ops[row].(state := Failed, updatedAt := s.now, deletionScheduled := Some(s.now));
    var written := s.(ops := s.ops[row := marked], mitigated := s.mitigated + {row});
    ScheduleWrites(cfg, written, row, marked, free, w);
  }

  lemma EventWorks(cfg: Settings, s: State, e: Event)
    requires Basic(s) && InSequence(s) && Enabled(cfg, s, e)
    requires e.Mark? || e.Finish? || e.Wake? || e.Continue? || e.SweepUnfinished? || e.SweepMitigation? || e.SweepStuck?
    ensures Works(s, Next(cfg, s, e), Written(s, e))
  {
    match e {
      case Mark(w, deletion, reschedule) =>
      case Finish(w, outcome) => FinishWrites(cfg, s, w, outcome);
      case Wake(w, free, next) =>
        ScheduleWrites(cfg, s.(workers := s.workers - {w}), s.workers[w].row, s.workers[w].op, free, next);
      case SweepStuck(row, free, w) => StuckWorks(cfg, s, row, free, w);
      case Continue(row, free, w) => ScheduleWrites(cfg, s, row, s.ops[row], free, w);
      case SweepUnfinished(row, free, w) => ScheduleWrites(cfg, s, row, s.ops[row], free, w);
      case SweepMitigation(row, free, w) => ScheduleWrites(cfg, s, row, s.ops[row], free, w);
      case _ =>
    }
  }

  lemma WorkInSequence(cfg: Settings, s: State, e: Event)
    requires Basic(s) && InSequence(s) && Enabled(cfg, s, e)
    requires e.Mark? || e.Finish? || e.Wake? || e.Continue? || e.SweepUnfinished? || e.SweepMitigation? || e.SweepStuck?
    ensures InSequence(Next(cfg, s, e))
  {
    var s', row := Next(cfg, s, e), Written(s, e);
    EventRewrites(cfg, s, e);
    EventWorks(cfg, s, e);
    WorkedInSequence(s, s', row);
  }

  lemma WorkedInSequence(s: State, s': State, row: Row)
    requires Basic(s) && InSequence(s) && row in s.scheduled && Rewrites(s, s', row) && Works(s, s', row)
    ensures InSequence(s')
  {
    assert GoneRow(s, row);
    forall i | 0 <= i < |s.ops| ensures SameIdentity(s.ops[i], s'.ops[i]) {}
    assert Grows(s, s');
    if s.ops[row].root.Some? && s'.ops[row].state.Succeeded? {
      if row in s'.executed {
        assert SameTarget(s'.ops, row, row) && Carried(s', row);
      } else {
        GoneStays(s, s', row);
      }
    }
    RewriteInSequence(s, s', row);
  }

  /** Children that have succeeded are gone. */
  lemma DoneAreGone(s: State, row: Row)
    requires Basic(s) && InSequence(s) && ChildrenDone(s.ops, row)
    ensures ChildrenGone(s, row)
  {
    forall k | 0 <= k < |s.ops| && ChildOf(s.ops, k, row) ensures Gone(s, k) {
      assert GoneRow(s, k) && ShapeOk(s.ops, s.heights, k);
    }
  }

  lemma PollInSequence(cfg: Settings, s: State, row: Row, same: Row, free: bool, w: nat)
    requires Basic(s) && InSequence(s) && Enabled(cfg, s, Poll(row, same, free, w))
    ensures InSequence(PollOne(cfg, s, row, same, free, w))
  {
    var s' := PollOne(cfg, s, row, same, free, w);
    PollRewrites(cfg, s, row, same, free, w);
    DecisionMeaning(s.ops, row, same);
    if s' != s {
      assert BasicRow(s, row) && GoneRow(s, row);
      if Decide(s.ops, row, same).Launch? {
        ScheduleWrites(cfg, s, row, s.ops[row].(state := InProgress), free, w);
      }
      assert Grows(s, s');
      if ChildrenDone(s.ops, row) {
        DoneAreGone(s, row);
      }
      if s'.ops[row].state.Succeeded? {
        SettledIsGone(s, s', row, same);
      }
      RewriteInSequence(s, s', row);
    }
  }

  /** A row that succeeds without a job of its own is virtual, or copies one whose resource is gone. */
  lemma SettledIsGone(s: State, s': State, row: Row, same: Row)
    requires Basic(s) && InSequence(s) && Grows(s, s') && row < |s.ops| && s.ops[row].root.Some?
    requires IsLatest(s.ops, row, same) && s'.ops[row].state.Succeeded? && (s.ops[row].Virtual() || s.ops[same].Done())
    ensures Gone(s', row)
  {
    if s.ops[row].Virtual() {
      assert SameTarget(s'.ops, row, row) && Carried(s', row);
    } else {
      assert GoneRow(s, same);
      GoneTogether(s, row, same);
      GoneStays(s, s', row);
    }
  }

  lemma AppendInSequence(s: State, s': State)
    requires Basic(s) && InSequence(s) && Grows(s, s') && s'.executed <= s'.scheduled
    requires forall i | 0 <= i < |s.ops| :: s'.ops[i] == s.ops[i] && (i in s'.scheduled <==> i in s.scheduled)
    requires forall i | |s.ops| <= i < |s'.ops| :: GoneRow(s', i)
    requires forall w | w in s'.workers :: !s'.workers[w].op.state.Succeeded?
    ensures InSequence(s')
  {
    forall i | 0 <= i < |s'.ops| ensures GoneRow(s', i) {
      if i < |s.ops| {
        assert GoneRow(s, i);
        if s.ops[i].root.Some? {
          if Gone(s, i) {
            GoneStays(s, s', i);
          }
          if ChildrenGone(s, i) {
            ChildrenStayGone(s, s', i);
          }
        }
      }
    }
  }

  lemma SubmitInSequence(cfg: Settings, s: State, op: Operation, free: bool, w: nat)
    requires Basic(s) && InSequence(s) && Enabled(cfg, s, Submit(op, free, w))
    ensures InSequence(Next(cfg, s, Submit(op, free, w)))
  {
    var s' := Next(cfg, s, Submit(op, free, w));
    if s' != s {
      assert |s.ops| !in s.scheduled;
      AppendInSequence(s, s');
    }
  }

  lemma SubmitTreeInSequence(cfg: Settings, s: State, tree: Table, heights: seq<nat>)
    requires Basic(s) && InSequence(s) && Enabled(cfg, s, SubmitTree(tree, heights))
    ensures InSequence(Next(cfg, s, SubmitTree(tree, heights)))
  {
    var s' := Next(cfg, s, SubmitTree(tree, heights));
    assert s'.ops[..|s.ops|] == s.ops;
    forall i | |s.ops| <= i < |s'.ops| ensures GoneRow(s', i) {
      if s'.ops[i].state.Succeeded? {
        assert SameTarget(s'.ops, i, i) && Carried(s', i);
        forall k | 0 <= k < |s'.ops| ensures !ChildOf(s'.ops, k, i) {
          assert k < |s.ops| ==> ShapeOk(s.ops, s.heights, k);
        }
      }
    }
    AppendInSequence(s, s');
  }

  lemma InSequenceNext(cfg: Settings, s: State, e: Event)
    requires Basic(s) && InSequence(s) && Enabled(cfg, s, e)
    ensures InSequence(Next(cfg, s, e))
  {
    match e {
      case Submit(op, free, w) => SubmitInSequence(cfg, s, op, free, w);
      case SubmitTree(tree, heights) => SubmitTreeInSequence(cfg, s, tree, heights);
      case Poll(row, same, free, w) => PollInSequence(cfg, s, row, same, free, w);
      case Crash(lost) => AppendInSequence(s, Next(cfg, s, e));
      case Tick(to) => AppendInSequence(s, Next(cfg, s, e));
      case _ => WorkInSequence(cfg, s, e);
    }
  }

  // ----- the theorems -----

  lemma {:induction false} RunIsInSequence(cfg: Settings, states: seq<State>, events: seq<Event>, i: nat)
    requires IsRun(cfg, states, events) && i < |states|
    ensures Basic(states[i]) && InSequence(states[i])
  {
    RunIsBasic(cfg, states, events, i);
    if i > 0 {
      RunIsInSequence(cfg, states, events, i - 1);
      InSequenceNext(cfg, states[i - 1], events[i - 1]);
    }
  }

  /** Where a resource is gone, so are the resources of its children: those of the row that was carried out, and these are
      the same. */
  lemma GoneWithChildren(s: State, i: Row, k: Row)
    requires Basic(s) && InSequence(s) && i < |s.ops| && s.ops[i].root.Some? && Gone(s, i)
    requires k < |s.ops| && ChildOf(s.ops, k, i)
    ensures Gone(s, k)
  {
    var m :| 0 <= m < |s.ops| && SameTarget(s.ops, i, m) && Carried(s, m);
    assert GoneRow(s, m) && Mirrors(s.ops, m, k);
    var l :| 0 <= l < |s.ops| && ChildOf(s.ops, l, m) && s.ops[l].resource == s.ops[k].resource;
    assert ShapeOk(s.ops, s.heights, k) && ShapeOk(s.ops, s.heights, l);
    GoneTogether(s, k, l);
  }

  lemma {:induction false} SubtreeGone(s: State, x: Row, y: Row, k: nat)
    requires Basic(s) && InSequence(s) && x < |s.ops| && y < |s.ops| && s.ops[x].root.Some?
    requires ChildrenGone(s, x) && k > 0 && Ancestor(s.ops, y, k) == Some(x)
    ensures Gone(s, y)
    decreases k
  {
    var p := s.ops[y].parent.value;
    assert ChildOf(s.ops, y, p) && ShapeOk(s.ops, s.heights, y);
    if k > 1 {
      SubtreeGone(s, x, p, k - 1);
      GoneWithChildren(s, p, y);
    }
  }

  /** What was carried out on a resource that is not virtual. */
  lemma GoneWasDeleted(s: State, y: Row) returns (m: Row)
    requires InSequence(s) && y < |s.ops| && s.ops[y].root.Some? && !s.ops[y].Virtual() && Gone(s, y)
    ensures SameTarget(s.ops, y, m) && m in s.executed && m in s.scheduled
  {
    m :| 0 <= m < |s.ops| && SameTarget(s.ops, y, m) && Carried(s, m);
  }

  /** Deletions come in order, for every setting: once an operation of a cascade tree has been admitted, or has succeeded,
      the deletion of every resource below it has been carried out by an operation of the tree on that resource. */
  lemma DeletionsInOrder(cfg: Settings, states: seq<State>, events: seq<Event>, i: nat, x: Row, y: Row, k: nat)
    returns (m: Row)
    requires IsRun(cfg, states, events) && i < |states|
    requires x < |states[i].ops| && y < |states[i].ops| && states[i].ops[x].root.Some?
    requires k > 0 && Ancestor(states[i].ops, y, k) == Some(x) && !states[i].ops[y].Virtual()
    requires states[i].ops[x].state.Succeeded? || x in states[i].scheduled
    ensures SameTarget(states[i].ops, y, m) && m in states[i].executed && m in states[i].scheduled
  {
    RunIsInSequence(cfg, states, events, i);
    var s := states[i];
    assert GoneRow(s, x);
    if x !in s.scheduled {
      forall c | 0 <= c < |s.ops| && ChildOf(s.ops, c, x) ensures Gone(s, c) {
        GoneWithChildren(s, x, c);
      }
    }
    SubtreeGone(s, x, y, k);
    TreeOf(s, x, y, k);
    m := GoneWasDeleted(s, y);
  }

  lemma {:induction false} TreeOf(s: State, x: Row, y: Row, k: nat)
    requires Basic(s) && y < |s.ops| && x < |s.ops| && s.ops[x].root.Some? && Ancestor(s.ops, y, k) == Some(x)
    ensures s.ops[y].root.Some?
    decreases k
  {
    if k > 0 {
      assert ShapeOk(s.ops, s.heights, y);
    }
  }

  /** A started operation, and one that a goroutine works on, was admitted. */
  lemma StartedWasAdmitted(cfg: Settings, states: seq<State>, events: seq<Event>, i: nat, x: Row)
    requires IsRun(cfg, states, events) && i < |states| && x < |states[i].ops|
    requires states[i].ops[x].Started() || !Unattended(states[i], x)
    ensures x in states[i].scheduled
  {
    RunIsBasic(cfg, states, events, i);
    var s := states[i];
    assert BasicRow(s, x);
    if !Unattended(s, x) {
      var w :| w in s.workers && s.workers[w].row == x;
      assert BasicWorker(s, s.workers[w]);
    }
  }

  /** A cascade deletion counts as succeeded only if, in the same tree, an operation on that very resource was admitted
      and its job, or the forced deletion after it, removed the resource. Where retries come before the sweep the row of
      that operation says so. */
  lemma SucceededWasDeleted(cfg: Settings, states: seq<State>, events: seq<Event>, i: nat, a: Row) returns (m: Row)
    requires IsRun(cfg, states, events) && i < |states|
    requires a < |states[i].ops| && states[i].ops[a].root.Some? && !states[i].ops[a].Virtual()
    requires states[i].ops[a].state.Succeeded?
    ensures SameTarget(states[i].ops, a, m) && m in states[i].executed && m in states[i].scheduled
    ensures cfg.Positive() && cfg.RetriesBeforeSweep() ==> states[i].ops[m].Done()
  {
    RunIsInSequence(cfg, states, events, i);
    var s := states[i];
    assert GoneRow(s, a);
    m := GoneWasDeleted(s, a);
    assert ShapeOk(s.ops, s.heights, a);
    if cfg.Positive() && cfg.RetriesBeforeSweep() {
      RunIsSound(cfg, states, events, i);
      assert RowOk(s, m);
    }
  }
}
