/** Whatever the timeouts are, an operation retries its own deletion a bounded number of times, over all its goroutines. */
module RetryTotal {
  import opened OperationTypes
  import opened Wrappers
  import opened Scheduler
  import opened Protocol
  import opened DeleteExclusion
  import opened RetryBound
  import RetryChain

  // ----- sums over goroutines -----

  ghost function Sum(m: map<nat, nat>): nat
    decreases |m|
  {
    if m == map[] then 0
    else
      var k :| k in m;
      m[k] + Sum(m - {k})
  }

  lemma {:induction false} SumTake(m: map<nat, nat>, k: nat)
    requires k in m
    ensures Sum(m) == m[k] + Sum(m - {k})
    decreases |m|
  {
    var j :| j in m && Sum(m) == m[j] + Sum(m - {j});
    if j != k {
      SumTake(m - {j}, k);
      SumTake(m - {k}, j);
      assert m - {j} - {k} == m - {k} - {j};
    }
  }

  lemma {:induction false} SumLess(m: map<nat, nat>, m': map<nat, nat>)
    requires forall k | k in m' :: k in m && m'[k] <= m[k]
    ensures Sum(m') <= Sum(m)
    decreases |m'|
  {
    if m' != map[] {
      var k :| k in m';
      SumTake(m', k);
      SumTake(m, k);
      SumLess(m - {k}, m' - {k});
    }
  }

  // ----- how often one goroutine can still fail, and how often the sweep can still come -----

  /** The failures a goroutine can have from time t on, where the mitigation began at d. */
  function Left(cfg: Settings, d: int, t: int): int
    requires cfg.Positive()
  {
    if t >= d + cfg.reconciliationTimeout then 0
    else if t > d + 2 * cfg.actionTimeout then (d + cfg.reconciliationTimeout - t + cfg.longDelay - 1) / cfg.longDelay
    else (d + 2 * cfg.actionTimeout - t) / cfg.shortDelay + 1 + LongBound(cfg)
  }

  lemma DivOrder(a: int, b: int, unit: int)
    requires a <= b && unit > 0
    ensures a / unit <= b / unit
  {
    if a / unit > b / unit {
      MulOrder(b / unit + 1, a / unit, unit);
    }
  }

  lemma DivStep(a: int, unit: int)
    requires unit > 0
    ensures (a - unit) / unit == a / unit - 1
  {
    var q := (a - unit) / unit;
    assert a == (q + 1) * unit + (a - unit) % unit;
    QuotientIs(a, q + 1, unit, (a - unit) % unit);
  }

  lemma QuotientIs(n: int, q: int, unit: int, r: int)
    requires unit > 0 && n == q * unit + r && 0 <= r < unit
    ensures n / unit == q
  {
    if n / unit < q {
      MulOrder(n / unit + 1, q, unit);
    } else if n / unit > q {
      MulOrder(q + 1, n / unit, unit);
    }
  }

  lemma LeftIsNat(cfg: Settings, d: int, t: int)
    requires cfg.Positive()
    ensures 0 <= LongBound(cfg) && 0 <= Left(cfg, d, t)
  {
    var long := cfg.reconciliationTimeout - 2 * cfg.actionTimeout + cfg.longDelay - 1;
    if long >= 0 {
      DivOrder(0, long, cfg.longDelay);
    }
    var short := d + 2 * cfg.actionTimeout - t;
    if short >= 0 {
      DivOrder(0, short, cfg.shortDelay);
    }
    var rest := d + cfg.reconciliationTimeout - t + cfg.longDelay - 1;
    if rest >= 0 {
      DivOrder(0, rest, cfg.longDelay);
    }
  }

  /** In the time of long delays no more is left than the bound allows for it. */
  lemma LongLeft(cfg: Settings, d: int, t: int)
    requires cfg.Positive() && t > d + 2 * cfg.actionTimeout
    ensures Left(cfg, d, t) <= LongBound(cfg)
  {
    LeftIsNat(cfg, d, t);
    if t < d + cfg.reconciliationTimeout {
      DivOrder(d + cfg.reconciliationTimeout - t + cfg.longDelay - 1,
               cfg.reconciliationTimeout - 2 * cfg.actionTimeout + cfg.longDelay - 1, cfg.longDelay);
    }
  }

  lemma LeftLater(cfg: Settings, d: int, t: int, t': int)
    requires cfg.Positive() && t <= t'
    ensures Left(cfg, d, t') <= Left(cfg, d, t)
  {
    LeftIsNat(cfg, d, t);
    if t' > d + 2 * cfg.actionTimeout && t <= d + 2 * cfg.actionTimeout {
      LongLeft(cfg, d, t');
      if t < d + cfg.reconciliationTimeout {
        DivOrder(0, d + 2 * cfg.actionTimeout - t, cfg.shortDelay);
      }
    } else if t' > d + 2 * cfg.actionTimeout {
      DivOrder(d + cfg.reconciliationTimeout - t' + cfg.longDelay - 1, d + cfg.reconciliationTimeout - t + cfg.longDelay - 1, cfg.longDelay);
    } else {
      DivOrder(d + 2 * cfg.actionTimeout - t', d + 2 * cfg.actionTimeout - t, cfg.shortDelay);
    }
  }

  /** A failure that leads to a retry uses one up. */
  lemma LeftDrops(cfg: Settings, d: int, t: int)
    requires cfg.Positive() && t < d + cfg.reconciliationTimeout
    ensures Left(cfg, d, t + RetryDelay(cfg, t, d)) + 1 <= Left(cfg, d, t)
  {
    LeftIsNat(cfg, d, t);
    if t > d + 2 * cfg.actionTimeout {
      var rest := d + cfg.reconciliationTimeout - t + cfg.longDelay - 1;
      DivStep(rest, cfg.longDelay);
      DivOrder(0, rest - cfg.longDelay, cfg.longDelay);
    } else {
      var short := d + 2 * cfg.actionTimeout - t;
      DivOrder(0, short, cfg.shortDelay);
      if t + cfg.shortDelay > d + 2 * cfg.actionTimeout {
        LongLeft(cfg, d, t + cfg.shortDelay);
      } else {
        DivStep(short, cfg.shortDelay);
      }
    }
  }

  lemma LeftAtMost(cfg: Settings, d: int, t: int)
    requires cfg.Positive() && d <= t
    ensures Left(cfg, d, t) <= Bound(cfg)
  {
    LeftLater(cfg, d, d, t);
  }

  /** The sweeps that can still come, after a write at time u. */
  function Sweeps(cfg: Settings, d: int, u: int): int
    requires cfg.Positive()
  {
    if u >= d + cfg.reconciliationTimeout then 0 else (d + cfg.reconciliationTimeout - u) / (cfg.actionTimeout + 1)
  }

  lemma SweepsLater(cfg: Settings, d: int, u: int, u': int)
    requires cfg.Positive() && u <= u'
    ensures 0 <= Sweeps(cfg, d, u') <= Sweeps(cfg, d, u)
  {
    if u < d + cfg.reconciliationTimeout {
      DivOrder(0, d + cfg.reconciliationTimeout - u, cfg.actionTimeout + 1);
    }
    if u' < d + cfg.reconciliationTimeout {
      DivOrder(0, d + cfg.reconciliationTimeout - u', cfg.actionTimeout + 1);
      DivOrder(d + cfg.reconciliationTimeout - u', d + cfg.reconciliationTimeout - u, cfg.actionTimeout + 1);
    }
  }

  lemma SweepsDrop(cfg: Settings, d: int, u: int, now: int)
    requires cfg.Positive() && u + cfg.actionTimeout + 1 <= now < d + cfg.reconciliationTimeout
    ensures Sweeps(cfg, d, now) + 1 <= Sweeps(cfg, d, u)
  {
    var rest := d + cfg.reconciliationTimeout - u;
    DivStep(rest, cfg.actionTimeout + 1);
    DivOrder(d + cfg.reconciliationTimeout - now, rest - (cfg.actionTimeout + 1), cfg.actionTimeout + 1);
  }

  /** One goroutine for the operation itself, and one for each sweep. */
  function Total(cfg: Settings): int
    requires cfg.Positive()
  {
    (1 + cfg.reconciliationTimeout / (cfg.actionTimeout + 1)) * Bound(cfg)
  }

  // ----- the account of one row -----

  type Jobs = map<nat, Worker>

  function JobsOn(s: State, row: Row): Jobs {
    map w | w in s.workers && s.workers[w].row == row :: s.workers[w]
  }

  lemma JobsLess(s: State, s': State, row: Row, w: nat)
    requires s'.workers == s.workers - {w}
    ensures JobsOn(s', row) == JobsOn(s, row) - {w}
  {
  }

  lemma JobsPut(s: State, s': State, row: Row, w: nat, job: Worker)
    requires s'.workers == s.workers[w := job] && job.row == row
    ensures JobsOn(s', row) == JobsOn(s, row)[w := job]
  {
  }

  ghost function Weight(cfg: Settings, d: int, now: int, job: Worker): nat
    requires cfg.Positive()
  {
    LeftIsNat(cfg, d, now);
    LeftIsNat(cfg, d, job.due);
    if job.Running? then Left(cfg, d, now) else Left(cfg, d, job.due)
  }

  ghost function Weights(cfg: Settings, d: int, now: int, jobs: Jobs): map<nat, nat>
    requires cfg.Positive()
  {
    map w | w in jobs :: Weight(cfg, d, now, jobs[w])
  }

  /** The operation was never marked for deletion. */
  ghost predicate Unmarked(op: Operation, n: nat, jobs: Jobs) {
    n == 0 && !op.InMitigation() && forall w | w in jobs :: !jobs[w].op.InMitigation()
  }

  /** It was, at time d: n retries so far, and those its goroutines and the sweep can still cause, are within the total. */
  ghost predicate MarkedAt(cfg: Settings, d: int, now: int, op: Operation, n: nat, jobs: Jobs)
    requires cfg.Positive()
  {
    && d <= now && !Ongoing(op) && !op.state.Pending?
    && (op.InMitigation() ==> op.deletionScheduled == Some(d))
    && (forall w | w in jobs :: jobs[w].op.deletionScheduled == Some(d))
    && n + Sum(Weights(cfg, d, now, jobs)) + Sweeps(cfg, d, op.updatedAt) * Bound(cfg) <= Total(cfg)
  }

  ghost predicate Account(cfg: Settings, now: int, op: Operation, n: nat, jobs: Jobs)
    requires cfg.Positive()
  {
    Unmarked(op, n, jobs) || exists d :: MarkedAt(cfg, d, now, op, n, jobs)
  }

  ghost predicate Accounted(cfg: Settings, s: State, row: Row)
    requires cfg.Positive() && row < |s.ops|
  {
    Account(cfg, s.now, s.ops[row], |RetriesOf(s, row)|, JobsOn(s, row))
  }

  lemma BoundIsNat(cfg: Settings)
    requires cfg.Positive()
    ensures 0 <= Bound(cfg)
  {
    LeftIsNat(cfg, 0, 0);
  }

  /** A later time, a later write and fewer goroutines only lower the account. */
  lemma MarkedLater(cfg: Settings, d: int, now: int, now': int, op: Operation, op': Operation, n: nat, jobs: Jobs, jobs': Jobs)
    requires cfg.Positive() && MarkedAt(cfg, d, now, op, n, jobs) && now <= now' && op.updatedAt <= op'.updatedAt
    requires !Ongoing(op') && !op'.state.Pending? && (op'.InMitigation() ==> op'.deletionScheduled == Some(d))
    requires forall w | w in jobs' :: w in jobs && jobs'[w].op.deletionScheduled == Some(d)
                                      && jobs'[w].Running? == jobs[w].Running? && jobs'[w].due == jobs[w].due
    ensures MarkedAt(cfg, d, now', op', n, jobs')
  {
    forall w | w in jobs' ensures Weight(cfg, d, now', jobs'[w]) <= Weight(cfg, d, now, jobs[w]) {
      LeftLater(cfg, d, now, now');
    }
    SumLess(Weights(cfg, d, now, jobs), Weights(cfg, d, now', jobs'));
    SweepsLater(cfg, d, op.updatedAt, op'.updatedAt);
    BoundIsNat(cfg);
    MulOrder(Sweeps(cfg, d, op'.updatedAt), Sweeps(cfg, d, op.updatedAt), Bound(cfg));
  }

  lemma AccountLater(cfg: Settings, now: int, now': int, op: Operation, n: nat, jobs: Jobs, jobs': Jobs)
    requires cfg.Positive() && Account(cfg, now, op, n, jobs) && now <= now'
    requires forall w | w in jobs' :: w in jobs && jobs'[w] == jobs[w]
    ensures Account(cfg, now', op, n, jobs')
  {
    if !Unmarked(op, n, jobs) {
      var d :| MarkedAt(cfg, d, now, op, n, jobs);
      MarkedLater(cfg, d, now, now', op, op, n, jobs, jobs');
    }
  }

  lemma WeightsWithout(cfg: Settings, d: int, now: int, jobs: Jobs, w: nat)
    requires cfg.Positive()
    ensures Weights(cfg, d, now, jobs - {w}) == Weights(cfg, d, now, jobs) - {w}
  {
  }

  lemma WeightsTake(cfg: Settings, d: int, now: int, jobs: Jobs, w: nat)
    requires cfg.Positive() && w in jobs
    ensures Sum(Weights(cfg, d, now, jobs)) == Weight(cfg, d, now, jobs[w]) + Sum(Weights(cfg, d, now, jobs - {w}))
  {
    SumTake(Weights(cfg, d, now, jobs), w);
    WeightsWithout(cfg, d, now, jobs, w);
  }

  /** The mark: one goroutine at most, and time starts to run. */
  lemma MarkedNow(cfg: Settings, now: int, op: Operation, jobs: Jobs, w: nat)
    requires cfg.Positive() && op.updatedAt == now && !Ongoing(op) && !op.state.Pending?
    requires op.InMitigation() ==> op.deletionScheduled == Some(now)
    requires jobs.Keys <= {w} && (w in jobs ==> jobs[w].Running? && jobs[w].op.deletionScheduled == Some(now))
    ensures MarkedAt(cfg, now, now, op, 0, jobs)
  {
    BoundIsNat(cfg);
    var weights := Weights(cfg, now, now, jobs);
    if w in jobs {
      WeightsTake(cfg, now, now, jobs, w);
      assert jobs - {w} == map[];
      assert Weights(cfg, now, now, jobs - {w}) == map[];
      LeftAtMost(cfg, now, now);
    } else {
      assert weights == map[];
    }
    assert Sum(weights) <= Bound(cfg);
    var k := cfg.reconciliationTimeout / (cfg.actionTimeout + 1);
    assert (1 + k) * Bound(cfg) == Bound(cfg) + k * Bound(cfg);
  }

  /** A failure with a retry. */
  lemma MarkedRetry(cfg: Settings, d: int, now: int, op: Operation, op': Operation, n: nat, jobs: Jobs, w: nat, job': Worker)
    requires cfg.Positive() && MarkedAt(cfg, d, now, op, n, jobs) && w in jobs && jobs[w].Running?
    requires now < d + cfg.reconciliationTimeout && op.updatedAt <= op'.updatedAt
    requires !Ongoing(op') && !op'.state.Pending? && op'.deletionScheduled == Some(d)
    requires job'.Waiting? && job'.due == now + RetryDelay(cfg, now, d) && job'.op.deletionScheduled == Some(d)
    ensures MarkedAt(cfg, d, now, op', n + 1, jobs[w := job'])
  {
    MarkedLater(cfg, d, now, now, op, op', n, jobs, jobs);
    WeightsTake(cfg, d, now, jobs, w);
    WeightsTake(cfg, d, now, jobs[w := job'], w);
    assert jobs[w := job'] - {w} == jobs - {w};
    LeftDrops(cfg, d, now);
  }

  /** A goroutine wakes and goes on under another name. */
  lemma MarkedWake(cfg: Settings, d: int, now: int, op: Operation, op': Operation, n: nat, jobs: Jobs, w: nat, next: nat, job': Worker)
    requires cfg.Positive() && MarkedAt(cfg, d, now, op, n, jobs) && w in jobs && jobs[w].Waiting? && jobs[w].due == now
    requires next !in jobs && op.updatedAt <= op'.updatedAt
    requires !Ongoing(op') && !op'.state.Pending? && op'.deletionScheduled == Some(d)
    requires job'.Running? && job'.op.deletionScheduled == Some(d)
    ensures MarkedAt(cfg, d, now, op', n, (jobs - {w})[next := job'])
  {
    MarkedLater(cfg, d, now, now, op, op', n, jobs, jobs);
    var jobs' := (jobs - {w})[next := job'];
    WeightsTake(cfg, d, now, jobs, w);
    WeightsTake(cfg, d, now, jobs', next);
    assert jobs' - {next} == jobs - {w};
  }

  /** The sweep starts one more. */
  lemma MarkedSweep(cfg: Settings, d: int, now: int, op: Operation, op': Operation, n: nat, jobs: Jobs, w: nat, job: Worker)
    requires cfg.Positive() && MarkedAt(cfg, d, now, op, n, jobs) && w !in jobs
    requires op.updatedAt + cfg.actionTimeout + 1 <= now == op'.updatedAt
    requires !Ongoing(op') && !op'.state.Pending? && op'.deletionScheduled == Some(d)
    requires job.Running? && job.op.deletionScheduled == Some(d)
    ensures MarkedAt(cfg, d, now, op', n, jobs[w := job])
  {
    WeightsTake(cfg, d, now, jobs[w := job], w);
    assert jobs[w := job] - {w} == jobs;
    BoundIsNat(cfg);
    SweepsLater(cfg, d, op.updatedAt, now);
    if now < d + cfg.reconciliationTimeout {
      SweepsDrop(cfg, d, op.updatedAt, now);
      LeftAtMost(cfg, d, now);
      MulOrder(Sweeps(cfg, d, now) + 1, Sweeps(cfg, d, op.updatedAt), Bound(cfg));
      assert (Sweeps(cfg, d, now) + 1) * Bound(cfg) == Sweeps(cfg, d, now) * Bound(cfg) + Bound(cfg);
    } else {
      MulOrder(0, Sweeps(cfg, d, op.updatedAt), Bound(cfg));
    }
  }

  // ----- rows that an event does not write -----

  function Touched(s: State, e: Event): Option<Row>
    requires e.Mark? || e.Finish? || e.Wake? ==> e.w in s.workers
  {
    match e
    case Poll(row, _, _, _) => Some(row)
    case Mark(w, _, _) => Some(s.workers[w].row)
    case Finish(w, _) => Some(s.workers[w].row)
    case Wake(w, _, _) => Some(s.workers[w].row)
    case Continue(row, _, _) => Some(row)
    case SweepUnfinished(row, _, _) => Some(row)
    case SweepMitigation(row, _, _) => Some(row)
    case SweepStuck(row, _, _) => Some(row)
    case _ => None
  }

  /** Nothing about the row changes, except that goroutines may be lost and time may pass. */
  ghost predicate Kept(s: State, s': State, row: Row) {
    && row < |s.ops| && row < |s'.ops| && s'.ops[row] == s.ops[row] && RetriesOf(s', row) == RetriesOf(s, row)
    && s.now <= s'.now && forall w | w in JobsOn(s', row) :: w in JobsOn(s, row) && JobsOn(s', row)[w] == JobsOn(s, row)[w]
  }

  lemma KeptAccounted(cfg: Settings, s: State, s': State, row: Row)
    requires cfg.Positive() && Kept(s, s', row) && Accounted(cfg, s, row)
    ensures Accounted(cfg, s', row)
  {
    AccountLater(cfg, s.now, s'.now, s.ops[row], |RetriesOf(s, row)|, JobsOn(s, row), JobsOn(s', row));
  }

  lemma ScheduleKeepsOthers(cfg: Settings, s: State, row: Row, op: Operation, free: bool, w: nat, i: Row)
    requires row <= |s.ops| && i < |s.ops| && i != row && w !in s.workers
    ensures Kept(s, Schedule(cfg, s, row, op, free, w), i)
  {
  }

  lemma FinishKeepsOthers(cfg: Settings, s: State, w: nat, outcome: Outcome, i: Row)
    requires Enabled(cfg, s, Finish(w, outcome)) && i < |s.ops| && i != s.workers[w].row
    ensures Kept(s, FinishJob(cfg, s, w, outcome), i)
  {
  }

  lemma StuckKeepsOthers(cfg: Settings, s: State, row: Row, free: bool, w: nat, i: Row)
    requires Enabled(cfg, s, SweepStuck(row, free, w)) && i < |s.ops| && i != row
    ensures Kept(s, MarkStuck(cfg, s, row, free, w), i)
  {
    var marked := s.ops[row].(state := Failed, updatedAt := s.now, deletionScheduled := Some(s.now));
    var written := s.(ops := s.ops[row := marked], mitigated := s.mitigated + {row});
    assert Kept(s, written, i);
    ScheduleKeepsOthers(cfg, written, row, marked, free, w, i);
  }

  lemma WakeKeepsOthers(cfg: Settings, s: State, w: nat, free: bool, next: nat, i: Row)
    requires Enabled(cfg, s, Wake(w, free, next)) && i < |s.ops| && i != s.workers[w].row
    ensures Kept(s, Next(cfg, s, Wake(w, free, next)), i)
  {
    var woken := s.(workers := s.workers - {w});
    assert Kept(s, woken, i);
    ScheduleKeepsOthers(cfg, woken, s.workers[w].row, s.workers[w].op, free, next, i);
  }

  lemma OthersKept(cfg: Settings, s: State, e: Event, i: Row)
    requires Enabled(cfg, s, e) && i < |s.ops| && Touched(s, e) != Some(i)
    ensures Kept(s, Next(cfg, s, e), i)
  {
    match e
    case Submit(op, free, w) => ScheduleKeepsOthers(cfg, s, |s.ops|, op, free, w, i);
    case Poll(row, same, free, w) => ScheduleKeepsOthers(cfg, s, row, s.ops[row].(state := InProgress), free, w, i);
    case Finish(w, outcome) => FinishKeepsOthers(cfg, s, w, outcome, i);
    case Wake(w, free, next) => WakeKeepsOthers(cfg, s, w, free, next, i);
    case Continue(row, free, w) => ScheduleKeepsOthers(cfg, s, row, s.ops[row], free, w, i);
    case SweepUnfinished(row, free, w) => ScheduleKeepsOthers(cfg, s, row, s.ops[row], free, w, i);
    case SweepMitigation(row, free, w) => ScheduleKeepsOthers(cfg, s, row, s.ops[row], free, w, i);
    case SweepStuck(row, free, w) => StuckKeepsOthers(cfg, s, row, free, w, i);
    case _ =>
  }

  // ----- the row that an event writes -----

  /** What scheduling can do to its row: nothing, give it up, or store the copy and start a goroutine. */
  ghost predicate Scheduled(cfg: Settings, s: State, s': State, row: Row, op: Operation, w: nat) {
    && row < |s.ops| == |s'.ops| && s'.now == s.now && s'.retries == s.retries
    && (|| (s'.ops[row] == s.ops[row] && s'.workers == s.workers)
        || (s'.ops[row] == Expired(op, s.now) && s'.workers == s.workers)
        || (s'.ops[row] == op.(updatedAt := s.now)
            && s'.workers == s.workers[w := Running(row, s.now + cfg.actionTimeout, op.(updatedAt := s.now))]))
  }

  lemma ScheduleOutcome(cfg: Settings, s: State, row: Row, op: Operation, free: bool, w: nat)
    requires row < |s.ops|
    ensures Scheduled(cfg, s, Schedule(cfg, s, row, op, free, w), row, op, w)
  {
  }

  /** The same for its goroutines. */
  lemma ScheduledJobs(cfg: Settings, s: State, s': State, row: Row, op: Operation, w: nat)
    requires Scheduled(cfg, s, s', row, op, w)
    ensures RetriesOf(s', row) == RetriesOf(s, row)
    ensures || (s'.ops[row] == s.ops[row] && JobsOn(s', row) == JobsOn(s, row))
            || (s'.ops[row] == Expired(op, s.now) && JobsOn(s', row) == JobsOn(s, row))
            || (s'.ops[row] == op.(updatedAt := s.now)
                && JobsOn(s', row) == JobsOn(s, row)[w := Running(row, s.now + cfg.actionTimeout, op.(updatedAt := s.now))])
  {
    if s'.workers != s.workers {
      JobsPut(s, s', row, w, Running(row, s.now + cfg.actionTimeout, op.(updatedAt := s.now)));
    }
  }

  lemma ScheduleUnmarked(cfg: Settings, s: State, row: Row, op: Operation, free: bool, w: nat)
    requires cfg.Positive() && row < |s.ops| && w !in s.workers && !op.InMitigation()
    requires Unmarked(s.ops[row], |RetriesOf(s, row)|, JobsOn(s, row))
    ensures Accounted(cfg, Schedule(cfg, s, row, op, free, w), row)
  {
    ScheduleOutcome(cfg, s, row, op, free, w);
    ScheduledJobs(cfg, s, Schedule(cfg, s, row, op, free, w), row, op, w);
  }

  lemma PollAccounted(cfg: Settings, s: State, row: Row, same: Row, free: bool, w: nat)
    requires cfg.Positive() && Enabled(cfg, s, Poll(row, same, free, w)) && RetryChain.RowDated(s, row) && Accounted(cfg, s, row)
    ensures Accounted(cfg, PollOne(cfg, s, row, same, free, w), row)
  {
    assert Unmarked(s.ops[row], |RetriesOf(s, row)|, JobsOn(s, row));
    match Decide(s.ops, row, same)
    case Leave =>
    case Launch => ScheduleUnmarked(cfg, s, row, s.ops[row].(state := InProgress), free, w);
    case Settle(state, errors) =>
      assert JobsOn(PollOne(cfg, s, row, same, free, w), row) == JobsOn(s, row);
  }

  lemma MarkAccounted(cfg: Settings, s: State, w: nat, deletion: bool, reschedule: bool)
    requires cfg.Positive() && RetryChain.Dated(cfg, s) && Enabled(cfg, s, Mark(w, deletion, reschedule))
    requires Accounted(cfg, s, s.workers[w].row)
    ensures Accounted(cfg, Next(cfg, s, Mark(w, deletion, reschedule)), s.workers[w].row)
  {
    var s', row := Next(cfg, s, Mark(w, deletion, reschedule)), s.workers[w].row;
    var jobs, marked := JobsOn(s, row), Marked(s.workers[w].op, s.now, deletion, reschedule);
    assert RetryChain.JobDated(cfg, s, w) && RetryChain.RowDated(s, row);
    assert !jobs[w].op.InMitigation() ==> jobs.Keys == {w};
    JobsPut(s, s', row, w, s.workers[w].(op := marked));
    assert RetriesOf(s', row) == RetriesOf(s, row);
    MarkedAccount(cfg, s.now, s.ops[row], |RetriesOf(s, row)|, jobs, w, deletion, reschedule);
  }

  lemma MarkedAccount(cfg: Settings, now: int, op: Operation, n: nat, jobs: Jobs, w: nat, deletion: bool, reschedule: bool)
    requires cfg.Positive() && Account(cfg, now, op, n, jobs) && op.updatedAt <= now
    requires w in jobs && jobs[w].Running? && !jobs[w].op.state.Pending? && (!jobs[w].op.InMitigation() ==> jobs.Keys == {w})
    ensures var marked := Marked(jobs[w].op, now, deletion, reschedule);
            Account(cfg, now, marked, n, jobs[w := jobs[w].(op := marked)])
  {
    var marked := Marked(jobs[w].op, now, deletion, reschedule);
    var jobs' := jobs[w := jobs[w].(op := marked)];
    if Unmarked(op, n, jobs) {
      if deletion {
        MarkedNow(cfg, now, marked, jobs', w);
      }
    } else {
      var d :| MarkedAt(cfg, d, now, op, n, jobs);
      MarkedLater(cfg, d, now, now, op, marked, n, jobs, jobs');
    }
  }

  /** How a job leaves its row and its goroutine. */
  ghost predicate Finished(cfg: Settings, s: State, s': State, row: Row, w: nat) {
    && row < |s.ops| && row < |s'.ops| && s'.now == s.now
    && var op, op' := s.ops[row], s'.ops[row];
    && op.updatedAt <= op'.updatedAt && !op'.state.Pending? && (Ongoing(op') ==> Ongoing(op))
    && (op'.InMitigation() ==> op'.deletionScheduled == op.deletionScheduled)
    && w in s.workers && s.workers[w].Running? && s.workers[w].row == row
    && (|| (s'.workers == s.workers - {w} && RetriesOf(s', row) == RetriesOf(s, row))
        || (&& op'.InMitigation() && s.now < op'.deletionScheduled.value + cfg.reconciliationTimeout
            && s'.workers == s.workers[w := Waiting(row, s.now + RetryDelay(cfg, s.now, op'.deletionScheduled.value), op')]
            && |RetriesOf(s', row)| == |RetriesOf(s, row)| + 1))
  }

  lemma DoneFinished(cfg: Settings, s: State, w: nat)
    requires RetryChain.Dated(cfg, s) && Enabled(cfg, s, Finish(w, ActionDone))
    ensures Finished(cfg, s, FinishJob(cfg, s, w, ActionDone), s.workers[w].row, w)
  {
    assert RetryChain.JobDated(cfg, s, w) && RetryChain.RowDated(s, s.workers[w].row);
  }

  lemma FailedFinished(cfg: Settings, s: State, w: nat, outcome: Outcome)
    requires RetryChain.Dated(cfg, s) && Enabled(cfg, s, Finish(w, outcome)) && !outcome.ActionDone?
    ensures Finished(cfg, s, FinishJob(cfg, s, w, outcome), s.workers[w].row, w)
  {
    assert RetryChain.JobDated(cfg, s, w) && RetryChain.RowDated(s, s.workers[w].row);
  }

  lemma FinishedAccounted(cfg: Settings, s: State, s': State, row: Row, w: nat)
    requires cfg.Positive() && Finished(cfg, s, s', row, w) && Accounted(cfg, s, row)
    ensures Accounted(cfg, s', row)
  {
    var jobs, op, op', n := JobsOn(s, row), s.ops[row], s'.ops[row], |RetriesOf(s, row)|;
    if w in s'.workers {
      JobsPut(s, s', row, w, s'.workers[w]);
      assert !Unmarked(op, n, jobs);
      var d :| MarkedAt(cfg, d, s.now, op, n, jobs);
      MarkedRetry(cfg, d, s.now, op, op', n, jobs, w, s'.workers[w]);
    } else {
      JobsLess(s, s', row, w);
      if !Unmarked(op, n, jobs) {
        var d :| MarkedAt(cfg, d, s.now, op, n, jobs);
        MarkedLater(cfg, d, s.now, s.now, op, op', n, jobs, jobs - {w});
      }
    }
  }

  lemma FinishAccounted(cfg: Settings, s: State, w: nat, outcome: Outcome)
    requires cfg.Positive() && RetryChain.Dated(cfg, s) && Enabled(cfg, s, Finish(w, outcome))
    requires Accounted(cfg, s, s.workers[w].row)
    ensures s.workers[w].row < |FinishJob(cfg, s, w, outcome).ops| && Accounted(cfg, FinishJob(cfg, s, w, outcome), s.workers[w].row)
  {
    if outcome.ActionDone? {
      DoneFinished(cfg, s, w);
    } else {
      FailedFinished(cfg, s, w, outcome);
    }
    FinishedAccounted(cfg, s, FinishJob(cfg, s, w, outcome), s.workers[w].row, w);
  }

  lemma WakeAccounted(cfg: Settings, s: State, w: nat, free: bool, next: nat)
    requires cfg.Positive() && RetryChain.Dated(cfg, s) && Enabled(cfg, s, Wake(w, free, next))
    requires Accounted(cfg, s, s.workers[w].row)
    ensures Accounted(cfg, Next(cfg, s, Wake(w, free, next)), s.workers[w].row)
  {
    var woken, row, copy := s.(workers := s.workers - {w}), s.workers[w].row, s.workers[w].op;
    var s' := Schedule(cfg, woken, row, copy, free, next);
    assert RetryChain.JobDated(cfg, s, w) && RetryChain.RowDated(s, row);
    JobsLess(s, woken, row, w);
    ScheduleOutcome(cfg, woken, row, copy, free, next);
    ScheduledJobs(cfg, woken, s', row, copy, next);
    WokenAccount(cfg, s.now, s.ops[row], s'.ops[row], |RetriesOf(s, row)|, JobsOn(s, row), JobsOn(s', row), w, next);
  }

  lemma WokenAccount(cfg: Settings, now: int, op: Operation, op': Operation, n: nat, jobs: Jobs, jobs': Jobs, w: nat, next: nat)
    requires cfg.Positive() && Account(cfg, now, op, n, jobs) && op.updatedAt <= now && next !in jobs
    requires w in jobs && jobs[w].Waiting? && jobs[w].due == now && jobs[w].op.InMitigation() && !jobs[w].op.state.Pending?
    requires || (op' == op && jobs' == jobs - {w})
             || (op' == Expired(jobs[w].op, now) && jobs' == jobs - {w})
             || (op' == jobs[w].op.(updatedAt := now) && next in jobs' && jobs'[next].Running? && jobs'[next].op == op'
                 && jobs' == (jobs - {w})[next := jobs'[next]])
    ensures Account(cfg, now, op', n, jobs')
  {
    var d :| MarkedAt(cfg, d, now, op, n, jobs);
    if jobs' == jobs - {w} {
      MarkedLater(cfg, d, now, now, op, op', n, jobs, jobs');
    } else {
      MarkedWake(cfg, d, now, op, op', n, jobs, w, next, jobs'[next]);
    }
  }

  lemma SweepAccounted(cfg: Settings, s: State, row: Row, free: bool, w: nat)
    requires cfg.Positive() && RetryChain.Dated(cfg, s) && Enabled(cfg, s, SweepMitigation(row, free, w)) && Accounted(cfg, s, row)
    ensures Accounted(cfg, Schedule(cfg, s, row, s.ops[row], free, w), row)
  {
    var s', jobs, n := Schedule(cfg, s, row, s.ops[row], free, w), JobsOn(s, row), |RetriesOf(s, row)|;
    assert RetryChain.RowDated(s, row);
    var d :| MarkedAt(cfg, d, s.now, s.ops[row], n, jobs);
    ScheduleOutcome(cfg, s, row, s.ops[row], free, w);
    ScheduledJobs(cfg, s, s', row, s.ops[row], w);
    if JobsOn(s', row) == jobs {
      MarkedLater(cfg, d, s.now, s.now, s.ops[row], s'.ops[row], n, jobs, jobs);
    } else {
      MarkedSweep(cfg, d, s.now, s.ops[row], s'.ops[row], n, jobs, w, JobsOn(s', row)[w]);
    }
  }

  lemma StuckAccounted(cfg: Settings, s: State, row: Row, free: bool, w: nat)
    requires cfg.Positive() && RetryChain.Dated(cfg, s) && Enabled(cfg, s, SweepStuck(row, free, w)) && Accounted(cfg, s, row)
    ensures Accounted(cfg, MarkStuck(cfg, s, row, free, w), row)
  {
    RetryChain.AbandonedIsUnattended(cfg, s, row);
    var s' := MarkStuck(cfg, s, row, free, w);
    assert JobsOn(s, row) == map[];
    if s.ops[row].category.Update? {
      assert JobsOn(s', row) == map[];
    } else {
      var marked := s.ops[row].(state := Failed, updatedAt := s.now, deletionScheduled := Some(s.now));
      var written := s.(ops := s.ops[row := marked], mitigated := s.mitigated + {row});
      assert JobsOn(written, row) == map[];
      ScheduleOutcome(cfg, written, row, marked, free, w);
      ScheduledJobs(cfg, written, s', row, marked, w);
      MarkedNow(cfg, s.now, s'.ops[row], JobsOn(s', row), w);
    }
  }

  lemma JobAccounted(cfg: Settings, s: State, e: Event)
    requires cfg.Positive() && RetryChain.Dated(cfg, s) && Enabled(cfg, s, e) && (e.Mark? || e.Finish? || e.Wake?)
    requires Accounted(cfg, s, s.workers[e.w].row)
    ensures s.workers[e.w].row < |Next(cfg, s, e).ops| && Accounted(cfg, Next(cfg, s, e), s.workers[e.w].row)
  {
    match e
    case Mark(w, deletion, reschedule) => MarkAccounted(cfg, s, w, deletion, reschedule);
    case Finish(w, outcome) => FinishAccounted(cfg, s, w, outcome);
    case Wake(w, free, next) => WakeAccounted(cfg, s, w, free, next);
  }

  lemma TouchedAccounted(cfg: Settings, s: State, e: Event, i: Row)
    requires cfg.Positive() && RetryChain.Dated(cfg, s) && Enabled(cfg, s, e) && i < |s.ops| && Accounted(cfg, s, i)
    requires Touched(s, e) == Some(i)
    ensures i < |Next(cfg, s, e).ops| && Accounted(cfg, Next(cfg, s, e), i)
  {
    match e
    case Poll(row, same, free, w) =>
      assert RetryChain.RowDated(s, i);
      PollAccounted(cfg, s, row, same, free, w);
    case Continue(row, free, w) => ScheduleUnmarked(cfg, s, row, s.ops[row], free, w);
    case SweepUnfinished(row, free, w) => ScheduleUnmarked(cfg, s, row, s.ops[row], free, w);
    case SweepMitigation(row, free, w) => SweepAccounted(cfg, s, row, free, w);
    case SweepStuck(row, free, w) => StuckAccounted(cfg, s, row, free, w);
    case _ => JobAccounted(cfg, s, e);
  }

  lemma OldAccounted(cfg: Settings, s: State, e: Event, i: Row)
    requires cfg.Positive() && RetryChain.Dated(cfg, s) && Enabled(cfg, s, e) && i < |s.ops| && Accounted(cfg, s, i)
    ensures i < |Next(cfg, s, e).ops| && Accounted(cfg, Next(cfg, s, e), i)
  {
    if Touched(s, e) == Some(i) {
      TouchedAccounted(cfg, s, e, i);
    } else {
      OthersKept(cfg, s, e, i);
      KeptAccounted(cfg, s, Next(cfg, s, e), i);
    }
  }

  ghost predicate AllAccounted(cfg: Settings, s: State)
    requires cfg.Positive()
  {
    && (forall i | 0 <= i < |s.ops| :: Accounted(cfg, s, i))
    && (forall i | i in s.retries :: i < |s.ops|)
  }

  lemma NewAccounted(cfg: Settings, s: State, e: Event, i: Row)
    requires cfg.Positive() && RetryChain.Dated(cfg, s) && Enabled(cfg, s, e) && (e.Submit? || e.SubmitTree?)
    requires AllAccounted(cfg, s) && |s.ops| <= i < |Next(cfg, s, e).ops|
    ensures Accounted(cfg, Next(cfg, s, e), i)
  {
    var s' := Next(cfg, s, e);
    forall w | w in s.workers ensures s.workers[w].row < |s.ops| {
      assert RetryChain.JobDated(cfg, s, w);
    }
    assert RetriesOf(s', i) == [];
    assert Unmarked(s'.ops[i], 0, JobsOn(s', i));
  }

  lemma RetriesOfRows(cfg: Settings, s: State, e: Event, i: Row)
    requires Enabled(cfg, s, e) && (forall k | k in s.retries :: k < |s.ops|)
    ensures |s.ops| <= |Next(cfg, s, e).ops|
    ensures i in Next(cfg, s, e).retries ==> i < |Next(cfg, s, e).ops|
    ensures !e.Submit? && !e.SubmitTree? ==> |Next(cfg, s, e).ops| == |s.ops|
  {
  }

  lemma AccountedNext(cfg: Settings, s: State, e: Event)
    requires cfg.Positive() && RetryChain.Dated(cfg, s) && AllAccounted(cfg, s) && Enabled(cfg, s, e)
    ensures AllAccounted(cfg, Next(cfg, s, e))
  {
    var s' := Next(cfg, s, e);
    RetriesOfRows(cfg, s, e, 0);
    forall i | 0 <= i < |s'.ops| ensures Accounted(cfg, s', i) {
      if i < |s.ops| {
        OldAccounted(cfg, s, e, i);
      } else {
        NewAccounted(cfg, s, e, i);
      }
    }
    forall i | i in s'.retries ensures i < |s'.ops| {
      RetriesOfRows(cfg, s, e, i);
    }
  }

  lemma {:induction false} RunIsAccounted(cfg: Settings, states: seq<State>, events: seq<Event>, i: nat)
    requires cfg.Positive() && IsRun(cfg, states, events) && i < |states|
    ensures AllAccounted(cfg, states[i])
  {
    if i > 0 {
      RunIsAccounted(cfg, states, events, i - 1);
      RetryChain.RunIsDated(cfg, states, events, i - 1);
      AccountedNext(cfg, states[i - 1], events[i - 1]);
    }
  }

  /** In every run and for every setting, whatever the jobs take, whichever sweeps come and however often goroutines are
      lost, one operation retries its own deletion a bounded number of times: floor(2A/s) + 1 + ceil(max(0, R - 2A)/l) for
      the goroutine it was marked by, and for each sweep; and that many altogether where retries come before the sweep. */
  lemma RetriesAreBounded(cfg: Settings, states: seq<State>, events: seq<Event>, i: nat, row: Row)
    requires cfg.Positive() && IsRun(cfg, states, events) && i < |states| && row < |states[i].ops|
    ensures |RetriesOf(states[i], row)| <= Total(cfg)
    ensures cfg.RetriesBeforeSweep() ==> |RetriesOf(states[i], row)| <= Bound(cfg)
  {
    RunIsAccounted(cfg, states, events, i);
    assert Accounted(cfg, states[i], row);
    BoundIsNat(cfg);
    SpentIsWithin(cfg, states[i], row);
    if cfg.RetriesBeforeSweep() {
      RetriesOfOne(cfg, states, events, i, row);
    }
  }

  lemma SpentIsWithin(cfg: Settings, s: State, row: Row)
    requires cfg.Positive() && row < |s.ops| && Accounted(cfg, s, row)
    ensures |RetriesOf(s, row)| <= Total(cfg)
  {
    BoundIsNat(cfg);
    var op, n, jobs := s.ops[row], |RetriesOf(s, row)|, JobsOn(s, row);
    if Unmarked(op, n, jobs) {
      DivOrder(0, cfg.reconciliationTimeout, cfg.actionTimeout + 1);
      MulOrder(0, 1 + cfg.reconciliationTimeout / (cfg.actionTimeout + 1), Bound(cfg));
    } else {
      var d :| MarkedAt(cfg, d, s.now, op, n, jobs);
      SweepsLater(cfg, d, op.updatedAt, op.updatedAt);
      MulOrder(0, Sweeps(cfg, d, op.updatedAt), Bound(cfg));
    }
  }
}
