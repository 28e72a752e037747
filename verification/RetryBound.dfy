/** Self-rescheduled orphan mitigation ends: how often one operation can retry its own deletion. */
module RetryBound {
  import opened OperationTypes
  import opened Wrappers
  import opened Scheduler
  import opened Protocol
  import opened Lifecycle

  /** Failure times of one operation marked for deletion at scheduledAt: each asks for a retry, and the next failure
      comes no sooner than the delay after it. */
  predicate Chain(cfg: Settings, scheduledAt: int, times: seq<int>) {
    && (forall i | 0 <= i < |times| :: scheduledAt <= times[i] < scheduledAt + cfg.reconciliationTimeout)
    && (forall i | 0 < i < |times| ::
          times[i] >= times[i - 1] + RetryDelay(cfg, times[i - 1], scheduledAt))
  }

  function Bound(cfg: Settings): int
    requires cfg.Positive()
  {
    2 * cfg.actionTimeout / cfg.shortDelay + 1 + LongBound(cfg)
  }

  function LongBound(cfg: Settings): int
    requires cfg.Positive()
  {
    var long := cfg.reconciliationTimeout - 2 * cfg.actionTimeout;
    if long > 0 then (long + cfg.longDelay - 1) / cfg.longDelay else 0
  }

  /** While the delay is short, the i-th failure is at least i short delays after the marking. */
  lemma {:induction false} ShortSpacing(cfg: Settings, d: int, times: seq<int>, i: nat)
    requires cfg.Positive() && Chain(cfg, d, times) && i < |times| && times[i] <= d + 2 * cfg.actionTimeout
    ensures times[i] >= d + i * cfg.shortDelay
  {
    if i > 0 {
      ShortSpacing(cfg, d, times, i - 1);
      assert (i - 1) * cfg.shortDelay + cfg.shortDelay == i * cfg.shortDelay;
    }
  }

  lemma {:induction false} LongSpacing(cfg: Settings, d: int, times: seq<int>, m: nat, i: nat)
    requires cfg.Positive() && Chain(cfg, d, times) && m <= i < |times| && times[m] > d + 2 * cfg.actionTimeout
    ensures times[i] >= times[m] + (i - m) * cfg.longDelay
    ensures times[i] > d + 2 * cfg.actionTimeout
    decreases i
  {
    if i == m {
      assert (i - m) * cfg.longDelay == 0;
    } else {
      LongSpacing(cfg, d, times, m, i - 1);
      assert (i - 1 - m) * cfg.longDelay + cfg.longDelay == (i - m) * cfg.longDelay;
    }
  }

  lemma MulOrder(a: int, b: int, unit: int)
    requires a <= b && unit >= 0
    ensures a * unit <= b * unit
  {
    assert (b - a) * unit >= 0;
  }

  lemma QuotientBounds(n: int, k: nat, unit: int)
    requires unit > 0 && k * unit <= n
    ensures k <= n / unit
  {
    var q := n / unit;
    assert n == q * unit + n % unit < (q + 1) * unit;
    if q < k {
      MulOrder(q + 1, k, unit);
    }
  }

  lemma {:induction false} FirstLong(cfg: Settings, d: int, times: seq<int>) returns (m: nat)
    requires cfg.Positive() && Chain(cfg, d, times)
    ensures m <= |times|
    ensures m > 0 ==> times[m - 1] <= d + 2 * cfg.actionTimeout
    ensures m < |times| ==> times[m] > d + 2 * cfg.actionTimeout
  {
    m := 0;
    while m < |times| && times[m] <= d + 2 * cfg.actionTimeout
      invariant m <= |times|
      invariant m > 0 ==> times[m - 1] <= d + 2 * cfg.actionTimeout
    {
      m := m + 1;
    }
  }

  lemma ShortCount(cfg: Settings, d: int, times: seq<int>, m: nat)
    requires cfg.Positive() && Chain(cfg, d, times) && m <= |times|
    requires m > 0 ==> times[m - 1] <= d + 2 * cfg.actionTimeout
    ensures m <= 2 * cfg.actionTimeout / cfg.shortDelay + 1
  {
    if m > 0 {
      ShortSpacing(cfg, d, times, m - 1);
      QuotientBounds(2 * cfg.actionTimeout, m - 1, cfg.shortDelay);
    } else {
      QuotientBounds(2 * cfg.actionTimeout, 0, cfg.shortDelay);
    }
  }

  lemma LongCount(cfg: Settings, d: int, times: seq<int>, m: nat)
    requires cfg.Positive() && Chain(cfg, d, times) && m <= |times|
    requires m < |times| ==> times[m] > d + 2 * cfg.actionTimeout
    ensures |times| - m <= LongBound(cfg)
  {
    var n, long := |times|, cfg.reconciliationTimeout - 2 * cfg.actionTimeout;
    if m < n {
      LongSpacing(cfg, d, times, m, n - 1);
      assert (n - m) * cfg.longDelay == (n - 1 - m) * cfg.longDelay + cfg.longDelay;
      QuotientBounds(long + cfg.longDelay - 1, n - m, cfg.longDelay);
    } else if long > 0 {
      QuotientBounds(long + cfg.longDelay - 1, 0, cfg.longDelay);
    }
  }

  /** However it is interleaved with the sweep, one goroutine retries at most this often. */
  lemma ChainIsBounded(cfg: Settings, d: int, times: seq<int>)
    requires cfg.Positive() && Chain(cfg, d, times)
    ensures |times| <= Bound(cfg)
  {
    var m := FirstLong(cfg, d, times);
    ShortCount(cfg, d, times, m);
    LongCount(cfg, d, times, m);
  }

  // ----- every run produces such chains -----

  function NextAllowed(cfg: Settings, scheduledAt: int, times: seq<int>): int
    requires times != []
  {
    var last := times[|times| - 1];
    last + RetryDelay(cfg, last, scheduledAt)
  }

  /** The failures recorded for a row form a chain, and whoever may add to it does so late enough. */
  predicate PacedRow(cfg: Settings, s: State, row: Row)
    requires row < |s.ops|
  {
    var op, times := s.ops[row], RetriesOf(s, row);
    && (times != [] ==> op.InMitigation() || op.GaveUp() || op.Done())
    && (op.Terminal() && cfg.Positive() ==> |times| <= Bound(cfg))
    && (op.InMitigation() ==>
          && op.deletionScheduled.value <= s.now
          && Chain(cfg, op.deletionScheduled.value, times)
          && (times != [] ==> times[|times| - 1] <= op.updatedAt))
  }

  predicate PacedWorker(cfg: Settings, s: State, worker: Worker)
    requires worker.row < |s.ops|
  {
    var op, times := s.ops[worker.row], RetriesOf(s, worker.row);
    times != [] && op.InMitigation() ==>
      var next := NextAllowed(cfg, op.deletionScheduled.value, times);
      if worker.Running? then s.now >= next else worker.due == next
  }

  ghost predicate Paced(cfg: Settings, s: State) {
    && (forall row | row in s.retries :: row < |s.ops|)
    && (forall row | 0 <= row < |s.ops| :: PacedRow(cfg, s, row))
    && (forall w | w in s.workers :: s.workers[w].row < |s.ops| && PacedWorker(cfg, s, s.workers[w]))
  }

  /** The goroutine goes on with what it was doing. */
  predicate SameJob(a: Worker, b: Worker) {
    a == b || (a.Running? && b.Running? && a.row == b.row && a.due == b.due)
  }

  /** A row change that adds no failure keeps the row paced. */
  lemma PacedRowKept(cfg: Settings, s: State, s': State, row: Row)
    requires cfg.Positive() && Sound(cfg, s) && Paced(cfg, s) && row < |s.ops| && row < |s'.ops|
    requires RetriesOf(s', row) == RetriesOf(s, row) && s.now <= s'.now && ForwardAt(s, s', row)
    ensures PacedRow(cfg, s', row)
  {
    assert PacedRow(cfg, s, row) && RowOk(s, row);
    if s.ops[row].InMitigation() {
      ChainIsBounded(cfg, s.ops[row].deletionScheduled.value, RetriesOf(s, row));
    }
  }

  /** A goroutine that goes on keeps its pace. */
  lemma PacedWorkerKept(cfg: Settings, s: State, s': State, w: nat)
    requires Sound(cfg, s) && Paced(cfg, s) && w in s.workers && w in s'.workers && SameJob(s.workers[w], s'.workers[w])
    requires s.workers[w].row < |s'.ops| && ForwardAt(s, s', s.workers[w].row) && s.now <= s'.now
    requires RetriesOf(s', s.workers[w].row) == RetriesOf(s, s.workers[w].row)
    ensures PacedWorker(cfg, s', s'.workers[w])
  {
    var row := s.workers[w].row;
    assert PacedWorker(cfg, s, s.workers[w]) && PacedRow(cfg, s, row) && WorkerOk(cfg, s, s.workers[w]) && RowOk(s, row);
  }

  /** Only the row whose failure is recorded, and the goroutines that start or begin to wait, need a look. */
  lemma PacedTransfer(cfg: Settings, s: State, s': State, polled: Option<Row>, failed: Option<Row>)
    requires cfg.Positive() && Sound(cfg, s) && Paced(cfg, s) && Forward(s, s', polled)
    requires forall row | row in s'.retries :: row < |s'.ops|
    requires forall row | 0 <= row < |s'.ops| && Some(row) != failed :: RetriesOf(s', row) == RetriesOf(s, row)
    requires forall row | |s.ops| <= row < |s'.ops| :: !s'.ops[row].InMitigation()
    requires failed.Some? ==> failed.value < |s'.ops| && PacedRow(cfg, s', failed.value)
    requires forall w | w in s'.workers :: s'.workers[w].row < |s'.ops|
    requires forall w | w in s'.workers && !(w in s.workers && SameJob(s.workers[w], s'.workers[w])) ::
               PacedWorker(cfg, s', s'.workers[w])
    requires forall w | w in s'.workers && w in s.workers && SameJob(s.workers[w], s'.workers[w]) ::
               Some(s.workers[w].row) != failed
    ensures Paced(cfg, s')
  {
    forall row | 0 <= row < |s'.ops| ensures PacedRow(cfg, s', row) {
      if Some(row) != failed {
        if row < |s.ops| {
          assert ForwardAt(s, s', row);
          PacedRowKept(cfg, s, s', row);
        } else {
          ChainIsBounded(cfg, 0, []);
        }
      }
    }
    forall w | w in s'.workers ensures PacedWorker(cfg, s', s'.workers[w]) {
      if w in s.workers && SameJob(s.workers[w], s'.workers[w]) {
        assert WorkerOk(cfg, s, s.workers[w]);
        assert ForwardAt(s, s', s.workers[w].row);
        PacedWorkerKept(cfg, s, s', w);
      }
    }
  }

  /** The end of a job touches one goroutine and at most the failures of one row. */
  lemma FinishTouches(cfg: Settings, s: State, w: nat, outcome: Outcome)
    requires Sound(cfg, s) && Enabled(cfg, s, Finish(w, outcome)) && s.workers[w].row < |s.ops|
    ensures var s', row := FinishJob(cfg, s, w, outcome), s.workers[w].row;
            && |s'.ops| == |s.ops| && (forall v | v in s'.workers && v != w :: v in s.workers && s'.workers[v] == s.workers[v])
            && (forall i | 0 <= i < |s.ops| && i != row :: RetriesOf(s', i) == RetriesOf(s, i))
            && (forall i | i in s'.retries :: i in s.retries || i == row)
            && (if s'.retries == s.retries then w !in s'.workers else w in s'.workers)
  {
    var s', row := FinishJob(cfg, s, w, outcome), s.workers[w].row;
    if w in s'.workers {
      assert |RetriesOf(s', row)| == |RetriesOf(s, row)| + 1;
    }
  }

  /** A failure that will be retried comes no earlier than the delay of the last one allows, and sets the next wait. */
  lemma FailurePaced(cfg: Settings, s: State, w: nat, outcome: Outcome)
    requires cfg.Positive() && cfg.RetriesBeforeSweep() && Sound(cfg, s) && Paced(cfg, s)
    requires Enabled(cfg, s, Finish(w, outcome)) && s.workers[w].row < |s.ops|
    requires FinishJob(cfg, s, w, outcome).retries != s.retries
    ensures var s' := FinishJob(cfg, s, w, outcome);
            && PacedRow(cfg, s', s.workers[w].row)
            && w in s'.workers && s'.workers[w].row == s.workers[w].row && PacedWorker(cfg, s', s'.workers[w])
  {
    var row := s.workers[w].row;
    assert WorkerOk(cfg, s, s.workers[w]) && RowOk(s, row) && PacedWorker(cfg, s, s.workers[w]) && PacedRow(cfg, s, row);
  }

  lemma PacedFinish(cfg: Settings, s: State, w: nat, outcome: Outcome)
    requires cfg.Positive() && cfg.RetriesBeforeSweep() && Sound(cfg, s) && Paced(cfg, s)
    requires Enabled(cfg, s, Finish(w, outcome))
    ensures s.workers[w].row < |s.ops| && Paced(cfg, FinishJob(cfg, s, w, outcome))
  {
    ForwardFinish(cfg, s, w, outcome);
    FinishTouches(cfg, s, w, outcome);
    var s' := FinishJob(cfg, s, w, outcome);
    if s'.retries != s.retries {
      FailurePaced(cfg, s, w, outcome);
    }
    PacedTransfer(cfg, s, s', None, if s'.retries == s.retries then None else Some(s.workers[w].row));
  }

  /** A job that starts on an operation in mitigation does so after the delay of its last failure. */
  lemma PacedStart(cfg: Settings, s: State, s': State, row: Row, op: Operation)
    requires cfg.Positive() && cfg.RetriesBeforeSweep() && Sound(cfg, s) && Paced(cfg, s)
    requires row < |s.ops| && row < |s'.ops| && s'.retries == s.retries && s'.now == s.now && ForwardAt(s, s', row)
    requires s.ops[row].InMitigation() ==>
               Stale(cfg, s, row) || (exists w :: w in s.workers && s.workers[w].Waiting?
                                                  && s.workers[w].row == row && s.workers[w].due == s.now)
    ensures PacedWorker(cfg, s', Running(row, s.now + cfg.actionTimeout, op))
  {
    assert PacedRow(cfg, s, row) && RowOk(s, row);
    if s.ops[row].InMitigation() && !Stale(cfg, s, row) {
      var w :| w in s.workers && s.workers[w].Waiting? && s.workers[w].row == row && s.workers[w].due == s.now;
      assert PacedWorker(cfg, s, s.workers[w]) && WorkerOk(cfg, s, s.workers[w]);
    }
  }

  /** A goroutine started by an event other than the end of a job: on the row it adds, on a row out of mitigation, on
      an abandoned row, or on the row of a goroutine whose wait is over. */
  ghost predicate StartsInTime(cfg: Settings, s: State, s': State, w: nat)
    requires w in s'.workers
  {
    var worker := s'.workers[w];
    && worker.Running? && worker.due == s.now + cfg.actionTimeout && worker.row < |s'.ops| && s'.now == s.now
    && (worker.row < |s.ops| && s.ops[worker.row].InMitigation() ==>
          Stale(cfg, s, worker.row)
          || exists v :: v in s.workers && s.workers[v].Waiting? && s.workers[v].row == worker.row
                         && s.workers[v].due == s.now)
  }

  /** Rescheduling, of a row of the table. */
  lemma ScheduleStartsInTime(cfg: Settings, s: State, s0: State, row: Row, op: Operation, free: bool, next: nat, w: nat)
    requires row < |s.ops| && s0.ops == s.ops && s0.now == s.now && (forall v | v in s0.workers :: v in s.workers && s0.workers[v] == s.workers[v])
    requires s.ops[row].InMitigation() ==>
               Stale(cfg, s, row) || exists v :: v in s.workers && s.workers[v].Waiting? && s.workers[v].row == row
                                                 && s.workers[v].due == s.now
    requires w in Schedule(cfg, s0, row, op, free, next).workers
    requires w !in s.workers || !SameJob(s.workers[w], Schedule(cfg, s0, row, op, free, next).workers[w])
    ensures StartsInTime(cfg, s, Schedule(cfg, s0, row, op, free, next), w)
  {
  }

  lemma PollStartsInTime(cfg: Settings, s: State, row: Row, same: Row, free: bool, next: nat, w: nat)
    requires Sound(cfg, s) && Enabled(cfg, s, Poll(row, same, free, next)) && w in PollOne(cfg, s, row, same, free, next).workers
    requires w !in s.workers || !SameJob(s.workers[w], PollOne(cfg, s, row, same, free, next).workers[w])
    ensures StartsInTime(cfg, s, PollOne(cfg, s, row, same, free, next), w)
  {
    assert RowOk(s, row);
  }

  lemma EventStartsInTime(cfg: Settings, s: State, e: Event, w: nat)
    requires Sound(cfg, s) && Enabled(cfg, s, e) && !e.Finish? && w in Next(cfg, s, e).workers
    requires w !in s.workers || !SameJob(s.workers[w], Next(cfg, s, e).workers[w])
    ensures StartsInTime(cfg, s, Next(cfg, s, e), w)
  {
    match e {
      case Poll(row, same, free, next) => PollStartsInTime(cfg, s, row, same, free, next, w);
      case Wake(v, free, next) =>
        ScheduleStartsInTime(cfg, s, s.(workers := s.workers - {v}), s.workers[v].row, s.workers[v].op, free, next, w);
      case Continue(row, free, next) => ScheduleStartsInTime(cfg, s, s, row, s.ops[row], free, next, w);
      case SweepUnfinished(row, free, next) => ScheduleStartsInTime(cfg, s, s, row, s.ops[row], free, next, w);
      case SweepMitigation(row, free, next) => ScheduleStartsInTime(cfg, s, s, row, s.ops[row], free, next, w);
      case _ =>
    }
  }

  lemma PacedWithoutFailure(cfg: Settings, s: State, s': State, polled: Option<Row>)
    requires cfg.Positive() && cfg.RetriesBeforeSweep() && Sound(cfg, s) && Paced(cfg, s) && Forward(s, s', polled)
    requires s'.retries == s.retries
    requires forall row | |s.ops| <= row < |s'.ops| :: !s'.ops[row].InMitigation()
    requires forall w | w in s'.workers && !(w in s.workers && SameJob(s.workers[w], s'.workers[w])) :: StartsInTime(cfg, s, s', w)
    ensures Paced(cfg, s')
  {
    forall w | w in s'.workers && !(w in s.workers && SameJob(s.workers[w], s'.workers[w]))
      ensures s'.workers[w].row < |s'.ops| && PacedWorker(cfg, s', s'.workers[w])
    {
      assert StartsInTime(cfg, s, s', w);
      var row := s'.workers[w].row;
      if row < |s.ops| {
        assert ForwardAt(s, s', row);
        PacedStart(cfg, s, s', row, s'.workers[w].op);
      }
    }
    forall w | w in s'.workers && w in s.workers && SameJob(s.workers[w], s'.workers[w]) ensures s'.workers[w].row < |s'.ops| {
      assert WorkerOk(cfg, s, s.workers[w]);
    }
    PacedTransfer(cfg, s, s', polled, None);
  }

  lemma NewRowsUnmarked(cfg: Settings, s: State, e: Event, row: Row)
    requires Sound(cfg, s) && Enabled(cfg, s, e) && |s.ops| <= row < |Next(cfg, s, e).ops|
    ensures !Next(cfg, s, e).ops[row].InMitigation()
  {
  }

  lemma OnlyFinishRetries(cfg: Settings, s: State, e: Event)
    requires Enabled(cfg, s, e) && !e.Finish?
    ensures Next(cfg, s, e).retries == s.retries
  {
  }

  lemma PacedNext(cfg: Settings, s: State, e: Event)
    requires cfg.Positive() && cfg.RetriesBeforeSweep() && Sound(cfg, s) && Paced(cfg, s) && Enabled(cfg, s, e)
    ensures Paced(cfg, Next(cfg, s, e))
  {
    var s' := Next(cfg, s, e);
    if e.Finish? {
      PacedFinish(cfg, s, e.w, e.outcome);
    } else {
      EventForward(cfg, s, e);
      forall w | w in s'.workers && !(w in s.workers && SameJob(s.workers[w], s'.workers[w])) ensures StartsInTime(cfg, s, s', w) {
        EventStartsInTime(cfg, s, e, w);
      }
      forall row | |s.ops| <= row < |s'.ops| ensures !s'.ops[row].InMitigation() {
        NewRowsUnmarked(cfg, s, e, row);
      }
      OnlyFinishRetries(cfg, s, e);
      PacedWithoutFailure(cfg, s, s', if e.Poll? then Some(e.row) else None);
    }
  }

  lemma {:induction false} RunIsPaced(cfg: Settings, states: seq<State>, events: seq<Event>, i: nat)
    requires cfg.Positive() && cfg.RetriesBeforeSweep() && IsRun(cfg, states, events) && i < |states|
    ensures Sound(cfg, states[i]) && Paced(cfg, states[i])
  {
    RunIsSound(cfg, states, events, i);
    if i > 0 {
      RunIsPaced(cfg, states, events, i - 1);
      PacedNext(cfg, states[i - 1], events[i - 1]);
    }
  }

  /** Where retries come before the sweep an operation has one goroutine at a time, and one chain. */
  lemma RetriesOfOne(cfg: Settings, states: seq<State>, events: seq<Event>, i: nat, row: Row)
    requires cfg.Positive() && cfg.RetriesBeforeSweep() && IsRun(cfg, states, events) && i < |states|
    requires row < |states[i].ops|
    ensures |RetriesOf(states[i], row)| <= Bound(cfg)
  {
    RunIsPaced(cfg, states, events, i);
    assert PacedRow(cfg, states[i], row);
    var op := states[i].ops[row];
    ChainIsBounded(cfg, if op.InMitigation() then op.deletionScheduled.value else 0,
                   if op.InMitigation() then RetriesOf(states[i], row) else []);
  }
}
