/** Whatever the timeouts are, a goroutine that keeps scheduling the deletion of its operation again gives up. */
module RetryChain {
  import opened OperationTypes
  import opened Wrappers
  import opened Scheduler
  import opened Protocol
  import opened DeleteExclusion
  import RetryBound

  // ----- all goroutines of one operation agree on when its mitigation began -----

  predicate RowDated(s: State, i: Row)
    requires i < |s.ops|
  {
    var op := s.ops[i];
    op.updatedAt <= s.now && (op.InMitigation() ==> op.deletionScheduled.value <= s.now && !op.state.Pending?)
  }

  /** A goroutine that undoes its operation agrees with the row on the time, if the row has one, and the row is not put
      in progress again; any other goroutine runs, and alone. */
  predicate JobDated(cfg: Settings, s: State, w: nat)
    requires w in s.workers
  {
    var job := s.workers[w];
    && job.row < |s.ops|
    && var op := s.ops[job.row];
    && !job.op.state.Pending? && !op.state.Pending?
    && (job.Waiting? ==> job.op.InMitigation())
    && (job.Running? ==> s.now <= job.due <= op.updatedAt + cfg.actionTimeout)
    && (if job.op.InMitigation()
        then job.op.deletionScheduled.value <= s.now && !Ongoing(op)
             && (op.InMitigation() ==> op.deletionScheduled == job.op.deletionScheduled)
        else Alone(s, w))
  }

  predicate PairDated(v: Worker, w: Worker) {
    v.row == w.row && v.op.InMitigation() && w.op.InMitigation() ==> v.op.deletionScheduled == w.op.deletionScheduled
  }

  ghost predicate Dated(cfg: Settings, s: State) {
    && (forall i | 0 <= i < |s.ops| :: RowDated(s, i))
    && (forall w | w in s.workers :: JobDated(cfg, s, w))
    && (forall v, w | v in s.workers && w in s.workers :: PairDated(s.workers[v], s.workers[w]))
  }

  ghost predicate Touches(s: State, s': State, row: Row) {
    && row < |s.ops| == |s'.ops| && s'.now == s.now
    && (forall i | 0 <= i < |s.ops| && i != row :: s'.ops[i] == s.ops[i])
    && (forall w | w in s'.workers :: (w in s.workers && s'.workers[w] == s.workers[w]) || s'.workers[w].row == row)
  }

  lemma TouchKeeps(cfg: Settings, s: State, s': State, row: Row)
    requires Dated(cfg, s) && Touches(s, s', row) && RowDated(s', row)
    requires forall w | w in s'.workers && s'.workers[w].row == row :: JobDated(cfg, s', w)
    requires forall v, w | v in s'.workers && w in s'.workers && s'.workers[v].row == row == s'.workers[w].row ::
               PairDated(s'.workers[v], s'.workers[w])
    ensures Dated(cfg, s')
  {
    forall i | 0 <= i < |s'.ops| ensures RowDated(s', i) {
      assert RowDated(s, i);
    }
    forall w | w in s'.workers ensures JobDated(cfg, s', w) {
      if s'.workers[w].row != row {
        assert JobDated(cfg, s, w);
        assert !s.workers[w].op.InMitigation() ==> Alone(s, w) && Alone(s', w);
      }
    }
    forall v, w | v in s'.workers && w in s'.workers ensures PairDated(s'.workers[v], s'.workers[w]) {
      if s'.workers[v].row == s'.workers[w].row != row {
        assert PairDated(s.workers[v], s.workers[w]);
      }
    }
  }

  // ----- each event -----

  lemma ScheduleKeeps(cfg: Settings, s: State, row: Row, op: Operation, free: bool, w: nat)
    requires cfg.Positive() && Dated(cfg, s) && row < |s.ops| && w !in s.workers && !op.state.Pending?
    requires op.InMitigation() ==> op.deletionScheduled.value <= s.now
    requires Unattended(s, row) ||
             (op.InMitigation() && forall v | v in s.workers && s.workers[v].row == row ::
                                     s.workers[v].op.deletionScheduled == op.deletionScheduled)
    ensures Dated(cfg, Schedule(cfg, s, row, op, free, w))
  {
    var s' := Schedule(cfg, s, row, op, free, w);
    assert RowDated(s, row);
    forall v | v in s'.workers && s'.workers[v].row == row ensures JobDated(cfg, s', v) {
      assert v != w ==> JobDated(cfg, s, v);
    }
    TouchKeeps(cfg, s, s', row);
  }

  /** Rows come after those that were there; at most one of them has a goroutine, a new one. */
  lemma AppendKeeps(cfg: Settings, s: State, s': State, w: nat)
    requires cfg.Positive() && Dated(cfg, s) && s.ops <= s'.ops && s'.now == s.now
    requires forall i | |s.ops| <= i < |s'.ops| :: RowDated(s', i)
    requires forall v | v in s'.workers && v != w :: v in s.workers && s'.workers[v] == s.workers[v]
    requires w in s'.workers && !(w in s.workers && s'.workers[w] == s.workers[w]) ==>
               && s'.workers[w].Running? && s'.workers[w].row == |s.ops| < |s'.ops| && s'.workers[w].op == s'.ops[|s.ops|]
               && s'.workers[w].due == s.now + cfg.actionTimeout && s'.ops[|s.ops|].updatedAt == s.now
               && !s'.ops[|s.ops|].state.Pending? && !s'.ops[|s.ops|].InMitigation()
    ensures Dated(cfg, s')
  {
    forall i | 0 <= i < |s'.ops| ensures RowDated(s', i) {
      assert i < |s.ops| ==> RowDated(s, i) && s'.ops[i] == s.ops[i];
    }
    forall v | v in s.workers ensures s.workers[v].row < |s.ops| {
      assert JobDated(cfg, s, v);
    }
    forall v | v in s'.workers ensures JobDated(cfg, s', v) {
      if v in s.workers && s'.workers[v] == s.workers[v] {
        assert JobDated(cfg, s, v);
        assert !s.workers[v].op.InMitigation() ==> Alone(s, v) && Alone(s', v);
      }
    }
    forall u, v | u in s'.workers && v in s'.workers ensures PairDated(s'.workers[u], s'.workers[v]) {
      if u in s.workers && s'.workers[u] == s.workers[u] && v in s.workers && s'.workers[v] == s.workers[v] {
        assert PairDated(s.workers[u], s.workers[v]);
      }
    }
  }

  lemma PollKeeps(cfg: Settings, s: State, row: Row, same: Row, free: bool, w: nat)
    requires cfg.Positive() && Dated(cfg, s) && Enabled(cfg, s, Poll(row, same, free, w))
    ensures Dated(cfg, PollOne(cfg, s, row, same, free, w))
  {
    assert RowDated(s, row);
    forall v | v in s.workers ensures s.workers[v].row != row {
      assert JobDated(cfg, s, v);
    }
    match Decide(s.ops, row, same)
    case Leave =>
    case Launch => ScheduleKeeps(cfg, s, row, s.ops[row].(state := InProgress), free, w);
    case Settle(state, errors) =>
      var s' := PollOne(cfg, s, row, same, free, w);
      assert Unattended(s', row);
      TouchKeeps(cfg, s, s', row);
  }

  lemma MarkKeeps(cfg: Settings, s: State, w: nat, deletion: bool, reschedule: bool)
    requires Dated(cfg, s) && Enabled(cfg, s, Mark(w, deletion, reschedule))
    ensures Dated(cfg, Next(cfg, s, Mark(w, deletion, reschedule)))
  {
    var s', row := Next(cfg, s, Mark(w, deletion, reschedule)), s.workers[w].row;
    assert JobDated(cfg, s, w) && RowDated(s, row);
    forall v | v in s'.workers && s'.workers[v].row == row ensures JobDated(cfg, s', v) {
      assert JobDated(cfg, s, v) && PairDated(s.workers[v], s.workers[w]);
      assert Alone(s, w) ==> Alone(s', w);
    }
    forall u, v | u in s'.workers && v in s'.workers && s'.workers[u].row == row == s'.workers[v].row
      ensures PairDated(s'.workers[u], s'.workers[v])
    {
      assert PairDated(s.workers[u], s.workers[v]) && JobDated(cfg, s, u) && JobDated(cfg, s, v);
    }
    TouchKeeps(cfg, s, s', row);
  }

  /** How a job leaves its row: not in mitigation, or with the time it had, and then possibly asleep with that copy. */
  ghost predicate Leaves(s: State, s': State, row: Row, w: nat) {
    && Touches(s, s', row) && RowDated(s', row) && s.ops[row].updatedAt <= s'.ops[row].updatedAt
    && !s'.ops[row].state.Pending? && (Ongoing(s'.ops[row]) ==> Ongoing(s.ops[row]))
    && (s'.ops[row].InMitigation() ==> s'.ops[row].deletionScheduled == s.ops[row].deletionScheduled)
    && (forall v | v in s'.workers && v != w :: v in s.workers && s'.workers[v] == s.workers[v])
    && (w in s'.workers ==> s'.workers[w].Waiting? && s'.workers[w].row == row && s'.workers[w].op == s'.ops[row]
                            && s'.ops[row].InMitigation())
  }

  lemma DoneLeaves(cfg: Settings, s: State, w: nat)
    requires Dated(cfg, s) && Enabled(cfg, s, Finish(w, ActionDone))
    ensures Leaves(s, FinishJob(cfg, s, w, ActionDone), s.workers[w].row, w)
  {
    assert JobDated(cfg, s, w) && RowDated(s, s.workers[w].row);
  }

  lemma FailedLeaves(cfg: Settings, s: State, w: nat, outcome: Outcome)
    requires Dated(cfg, s) && Enabled(cfg, s, Finish(w, outcome)) && !outcome.ActionDone?
    ensures Leaves(s, FinishJob(cfg, s, w, outcome), s.workers[w].row, w)
  {
    assert JobDated(cfg, s, w) && RowDated(s, s.workers[w].row);
  }

  lemma LeavingKeeps(cfg: Settings, s: State, s': State, row: Row, w: nat)
    requires Dated(cfg, s) && w in s.workers && s.workers[w].row == row && Leaves(s, s', row, w)
    ensures Dated(cfg, s')
  {
    assert JobDated(cfg, s, w);
    forall v | v in s'.workers && s'.workers[v].row == row ensures JobDated(cfg, s', v) {
      if v != w {
        assert JobDated(cfg, s, v);
      }
    }
    forall u, v | u in s'.workers && v in s'.workers && s'.workers[u].row == row == s'.workers[v].row
      ensures PairDated(s'.workers[u], s'.workers[v])
    {
      assert u != w ==> JobDated(cfg, s, u);
      assert v != w ==> JobDated(cfg, s, v);
      assert u != w && v != w ==> PairDated(s.workers[u], s.workers[v]);
    }
    TouchKeeps(cfg, s, s', row);
  }

  lemma WakeKeeps(cfg: Settings, s: State, w: nat, free: bool, next: nat)
    requires cfg.Positive() && Dated(cfg, s) && Enabled(cfg, s, Wake(w, free, next))
    ensures Dated(cfg, Next(cfg, s, Wake(w, free, next)))
  {
    var woken, job := s.(workers := s.workers - {w}), s.workers[w];
    assert JobDated(cfg, s, w);
    QuietKeeps(cfg, s, woken);
    forall v | v in woken.workers && woken.workers[v].row == job.row
      ensures woken.workers[v].op.deletionScheduled == job.op.deletionScheduled
    {
      assert JobDated(cfg, s, v) && PairDated(s.workers[v], s.workers[w]);
    }
    ScheduleKeeps(cfg, woken, job.row, job.op, free, next);
  }

  /** Losing goroutines, or waiting for none of them to be late, keeps everything. */
  lemma QuietKeeps(cfg: Settings, s: State, s': State)
    requires Dated(cfg, s) && s'.ops == s.ops && s.now <= s'.now
    requires forall w | w in s'.workers :: w in s.workers && s'.workers[w] == s.workers[w]
    requires forall w | w in s'.workers :: s'.now <= s'.workers[w].due || s'.now == s.now
    ensures Dated(cfg, s')
  {
    forall i | 0 <= i < |s'.ops| ensures RowDated(s', i) {
      assert RowDated(s, i);
    }
    forall w | w in s'.workers ensures JobDated(cfg, s', w) {
      assert JobDated(cfg, s, w);
      assert !s.workers[w].op.InMitigation() ==> Alone(s, w) && Alone(s', w);
    }
    forall v, w | v in s'.workers && w in s'.workers ensures PairDated(s'.workers[v], s'.workers[w]) {
      assert PairDated(s.workers[v], s.workers[w]);
    }
  }

  /** No goroutine is left on an abandoned operation that is in progress. */
  lemma AbandonedIsUnattended(cfg: Settings, s: State, row: Row)
    requires Dated(cfg, s) && Stale(cfg, s, row) && Ongoing(s.ops[row])
    ensures Unattended(s, row)
  {
    forall w | w in s.workers ensures s.workers[w].row != row {
      assert JobDated(cfg, s, w);
    }
  }

  lemma StuckKeeps(cfg: Settings, s: State, row: Row, free: bool, w: nat)
    requires cfg.Positive() && Dated(cfg, s) && Enabled(cfg, s, SweepStuck(row, free, w))
    ensures Dated(cfg, MarkStuck(cfg, s, row, free, w))
  {
    AbandonedIsUnattended(cfg, s, row);
    var failed := s.ops[row].(state := Failed, updatedAt := s.now);
    var marked := failed.(deletionScheduled := Some(s.now));
    var written := if failed.category.Update? then s.(ops := s.ops[row := failed])
                   else s.(ops := s.ops[row := marked], mitigated := s.mitigated + {row});
    assert RowDated(s, row) && Unattended(written, row);
    TouchKeeps(cfg, s, written, row);
    if !failed.category.Update? {
      ScheduleKeeps(cfg, written, row, marked, free, w);
    }
  }

  lemma MitigationKeeps(cfg: Settings, s: State, row: Row, free: bool, w: nat)
    requires cfg.Positive() && Dated(cfg, s) && Enabled(cfg, s, SweepMitigation(row, free, w))
    ensures Dated(cfg, Schedule(cfg, s, row, s.ops[row], free, w))
  {
    assert RowDated(s, row);
    forall v | v in s.workers && s.workers[v].row == row
      ensures s.workers[v].op.deletionScheduled == s.ops[row].deletionScheduled
    {
      assert JobDated(cfg, s, v);
    }
    ScheduleKeeps(cfg, s, row, s.ops[row], free, w);
  }

  lemma DatedNext(cfg: Settings, s: State, e: Event)
    requires cfg.Positive() && Dated(cfg, s) && Enabled(cfg, s, e)
    ensures Dated(cfg, Next(cfg, s, e))
  {
    match e
    case Submit(op, free, w) => AppendKeeps(cfg, s, Next(cfg, s, e), w);
    case SubmitTree(tree, heights) =>
      var s' := Next(cfg, s, e);
      forall i | |s.ops| <= i < |s'.ops| ensures RowDated(s', i) {}
      AppendKeeps(cfg, s, s', 0);
    case Poll(row, same, free, w) => PollKeeps(cfg, s, row, same, free, w);
    case Mark(w, deletion, reschedule) => MarkKeeps(cfg, s, w, deletion, reschedule);
    case Finish(w, outcome) =>
      if outcome.ActionDone? {
        DoneLeaves(cfg, s, w);
      } else {
        FailedLeaves(cfg, s, w, outcome);
      }
      LeavingKeeps(cfg, s, Next(cfg, s, e), s.workers[w].row, w);
    case Wake(w, free, next) => WakeKeeps(cfg, s, w, free, next);
    case Continue(row, free, w) => ScheduleKeeps(cfg, s, row, s.ops[row], free, w);
    case SweepUnfinished(row, free, w) =>
      AbandonedIsUnattended(cfg, s, row);
      ScheduleKeeps(cfg, s, row, s.ops[row], free, w);
    case SweepMitigation(row, free, w) => MitigationKeeps(cfg, s, row, free, w);
    case SweepStuck(row, free, w) => StuckKeeps(cfg, s, row, free, w);
    case Crash(lost) => QuietKeeps(cfg, s, Next(cfg, s, e));
    case Tick(to) => QuietKeeps(cfg, s, Next(cfg, s, e));
  }

  lemma {:induction false} RunIsDated(cfg: Settings, states: seq<State>, events: seq<Event>, i: nat)
    requires cfg.Positive() && IsRun(cfg, states, events) && i < |states|
    ensures Dated(cfg, states[i])
  {
    if i > 0 {
      RunIsDated(cfg, states, events, i - 1);
      DatedNext(cfg, states[i - 1], events[i - 1]);
    }
  }

  // ----- one goroutine that tries again and again -----

  /** One attempt: goroutine w, woken by one event of the run, fails at another and goes to sleep for a retry. */
  datatype Try = Try(w: nat, woke: nat, failed: nat)

  ghost predicate IsTry(states: seq<State>, events: seq<Event>, t: Try) {
    && |states| == |events| + 1 && t.failed < |events|
    && events[t.failed].Finish? && events[t.failed].w == t.w
    && t.w in states[t.failed + 1].workers && states[t.failed + 1].workers[t.w].Waiting?
  }

  ghost predicate Sleeps(states: seq<State>, t: Try, until: nat) {
    && t.failed + 1 <= until < |states|
    && forall k | t.failed + 1 <= k <= until ::
         t.w in states[k].workers && t.w in states[t.failed + 1].workers
         && states[k].workers[t.w] == states[t.failed + 1].workers[t.w]
  }

  ghost predicate Runs(states: seq<State>, t: Try) {
    && t.woke < t.failed < |states|
    && forall k | t.woke + 1 <= k <= t.failed :: t.w in states[k].workers && states[k].workers[t.w].Running?
  }

  /** The goroutine of a sleeps until it wakes as that of b, which runs until it fails in turn. */
  ghost predicate LeadsTo(states: seq<State>, events: seq<Event>, a: Try, b: Try) {
    && |states| == |events| + 1 && Sleeps(states, a, b.woke) && Runs(states, b)
    && events[b.woke].Wake? && events[b.woke].w == a.w && events[b.woke].next == b.w
  }

  ghost predicate IsChain(states: seq<State>, events: seq<Event>, tries: seq<Try>) {
    && (forall i | 0 <= i < |tries| :: IsTry(states, events, tries[i]))
    && (forall i | 0 < i < |tries| :: LeadsTo(states, events, tries[i - 1], tries[i]))
  }

  /** The operation the goroutine sleeps with, and when it failed. */
  ghost function Asleep(states: seq<State>, events: seq<Event>, t: Try): Worker
    requires IsTry(states, events, t)
  {
    states[t.failed + 1].workers[t.w]
  }

  ghost function TimeOf(states: seq<State>, events: seq<Event>, t: Try): int
    requires IsTry(states, events, t)
  {
    states[t.failed].now
  }

  lemma TryFacts(cfg: Settings, states: seq<State>, events: seq<Event>, t: Try)
    requires cfg.Positive() && IsRun(cfg, states, events) && IsTry(states, events, t)
    ensures var job, now := Asleep(states, events, t), TimeOf(states, events, t);
            && job.op.InMitigation()
            && var d := job.op.deletionScheduled.value;
            && d <= now < d + cfg.reconciliationTimeout && job.due == now + RetryDelay(cfg, now, d)
    ensures t.w in states[t.failed].workers
            && var before := states[t.failed].workers[t.w].op;
            before.InMitigation() ==> before.deletionScheduled == Asleep(states, events, t).op.deletionScheduled
  {
    RunIsDated(cfg, states, events, t.failed);
    var s := states[t.failed];
    assert Enabled(cfg, s, events[t.failed]) && states[t.failed + 1] == Next(cfg, s, events[t.failed]);
    assert JobDated(cfg, s, t.w) && RowDated(s, s.workers[t.w].row);
  }

  /** While it runs, a goroutine that undoes its operation keeps the time at which that began. */
  lemma RunningKeepsTime(cfg: Settings, s: State, e: Event, w: nat)
    requires Enabled(cfg, s, e) && w in s.workers && s.workers[w].Running? && s.workers[w].op.InMitigation()
    requires w in Next(cfg, s, e).workers && Next(cfg, s, e).workers[w].Running?
    ensures Next(cfg, s, e).workers[w].op.deletionScheduled == s.workers[w].op.deletionScheduled
  {
  }

  ghost predicate KeepsTimeAt(states: seq<State>, w: nat, k: nat) {
    k + 1 < |states| && w in states[k].workers && w in states[k + 1].workers && states[k].workers[w].Running?
    && states[k + 1].workers[w].Running? && states[k].workers[w].op.InMitigation() ==>
      states[k + 1].workers[w].op.deletionScheduled == states[k].workers[w].op.deletionScheduled
  }

  lemma StepKeepsTime(cfg: Settings, states: seq<State>, events: seq<Event>, w: nat, k: nat)
    requires IsRun(cfg, states, events) && k < |events|
    ensures KeepsTimeAt(states, w, k)
  {
    assert Enabled(cfg, states[k], events[k]) && states[k + 1] == Next(cfg, states[k], events[k]);
    if w in states[k].workers && w in states[k + 1].workers && states[k].workers[w].Running?
       && states[k + 1].workers[w].Running? && states[k].workers[w].op.InMitigation()
    {
      RunningKeepsTime(cfg, states[k], events[k], w);
    }
  }

  lemma {:induction false} RunKeepsTime(states: seq<State>, t: Try, k: nat)
    requires Runs(states, t) && t.woke + 1 <= k <= t.failed && states[t.woke + 1].workers[t.w].op.InMitigation()
    requires forall j | t.woke < j < t.failed :: KeepsTimeAt(states, t.w, j)
    ensures states[k].workers[t.w].op.deletionScheduled == states[t.woke + 1].workers[t.w].op.deletionScheduled
  {
    if k > t.woke + 1 {
      RunKeepsTime(states, t, k - 1);
      assert KeepsTimeAt(states, t.w, k - 1);
    }
  }

  lemma StepPasses(cfg: Settings, states: seq<State>, events: seq<Event>, k: nat)
    requires IsRun(cfg, states, events) && k < |events|
    ensures states[k].now <= states[k + 1].now
  {
    assert Enabled(cfg, states[k], events[k]) && states[k + 1] == Next(cfg, states[k], events[k]);
  }

  lemma {:induction false} TimePasses(cfg: Settings, states: seq<State>, events: seq<Event>, i: nat, j: nat)
    requires IsRun(cfg, states, events) && i <= j < |states|
    ensures states[i].now <= states[j].now
  {
    if i < j {
      TimePasses(cfg, states, events, i, j - 1);
      StepPasses(cfg, states, events, j - 1);
    }
  }

  lemma LeadFacts(cfg: Settings, states: seq<State>, events: seq<Event>, a: Try, b: Try)
    requires cfg.Positive() && IsRun(cfg, states, events)
    requires IsTry(states, events, a) && IsTry(states, events, b) && LeadsTo(states, events, a, b)
    ensures Asleep(states, events, b).op.deletionScheduled == Asleep(states, events, a).op.deletionScheduled
    ensures TimeOf(states, events, b) >= Asleep(states, events, a).due
  {
    TryFacts(cfg, states, events, a);
    TryFacts(cfg, states, events, b);
    var s := states[b.woke];
    assert Enabled(cfg, s, events[b.woke]) && states[b.woke + 1] == Next(cfg, s, events[b.woke]);
    assert s.workers[a.w] == Asleep(states, events, a);
    forall j | b.woke < j < b.failed ensures KeepsTimeAt(states, b.w, j) {
      StepKeepsTime(cfg, states, events, b.w, j);
    }
    RunKeepsTime(states, b, b.failed);
    TimePasses(cfg, states, events, b.woke, b.failed);
  }

  lemma {:induction false} OneTime(cfg: Settings, states: seq<State>, events: seq<Event>, tries: seq<Try>, i: nat)
    requires cfg.Positive() && IsRun(cfg, states, events) && IsChain(states, events, tries) && i < |tries|
    ensures Asleep(states, events, tries[i]).op.deletionScheduled == Asleep(states, events, tries[0]).op.deletionScheduled
  {
    if i > 0 {
      OneTime(cfg, states, events, tries, i - 1);
      LeadFacts(cfg, states, events, tries[i - 1], tries[i]);
    }
  }

  /** In every run, and for every setting: a goroutine whose job fails again and again, each time to sleep and to wake
      for another attempt, does so at most floor(2A/s) + 1 + ceil(max(0, R - 2A)/l) times. */
  lemma TriesAreBounded(cfg: Settings, states: seq<State>, events: seq<Event>, tries: seq<Try>)
    requires cfg.Positive() && IsRun(cfg, states, events) && IsChain(states, events, tries)
    ensures |tries| <= RetryBound.Bound(cfg)
  {
    if tries == [] {
      RetryBound.ChainIsBounded(cfg, 0, []);
    } else {
      TryFacts(cfg, states, events, tries[0]);
      var d := Asleep(states, events, tries[0]).op.deletionScheduled.value;
      var times := seq(|tries|, i requires 0 <= i < |tries| => TimeOf(states, events, tries[i]));
      forall i | 0 <= i < |times| ensures d <= times[i] < d + cfg.reconciliationTimeout {
        TryFacts(cfg, states, events, tries[i]);
        OneTime(cfg, states, events, tries, i);
      }
      forall i | 0 < i < |times| ensures times[i] >= times[i - 1] + RetryDelay(cfg, times[i - 1], d) {
        TryFacts(cfg, states, events, tries[i - 1]);
        OneTime(cfg, states, events, tries, i - 1);
        LeadFacts(cfg, states, events, tries[i - 1], tries[i]);
      }
      RetryBound.ChainIsBounded(cfg, d, times);
    }
  }
}
