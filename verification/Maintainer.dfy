/** One pass of pollPendingCascadeOperations (operations/maintainer.go). */
module Maintainer {
  import opened OperationTypes
  import opened Wrappers
  import opened Scheduler
  import opened CascadeUtils
  import opened Protocol

  /** The pending cascade deletions among the first n rows, in listing order. */
  function PendingUpTo(t: Table, n: nat): (rows: seq<Row>)
    requires n <= |t|
    ensures forall i: Row :: i in rows <==> i < n && t[i].state.Pending? && t[i].root.Some? && t[i].category.Delete?
    ensures forall a, b | 0 <= a < b < |rows| :: rows[a] < rows[b]
    ensures forall a | 0 <= a < |rows| :: rows[a] < n
  {
    if n == 0 then []
    else if t[n - 1].state.Pending? && t[n - 1].root.Some? && t[n - 1].category.Delete? then
      PendingUpTo(t, n - 1) + [n - 1]
    else PendingUpTo(t, n - 1)
  }

  function PendingRows(t: Table): seq<Row> {
    PendingUpTo(t, |t|)
  }

  /** Another operation on the same target is at work, so its resource is left alone for the rest of the pass. */
  predicate SkipsDuplicate(t: Table, row: Row, same: Row)
    requires row < |t| && same < |t|
  {
    SubOperationsOf(t, row).AllSucceeded() && !t[row].Virtual() && HandleDuplicates(t[same]).Skip?
  }

  predicate Launched(s: State, s': State) {
    s'.workers != s.workers
  }

  /** The pass over the listed rows: the rows with these resource ids are skipped, this many workers are free, and the
      next goroutine gets number w. */
  function PollPass(cfg: Settings, s: State, rows: seq<Row>, skip: set<string>, slots: nat, w: nat): State
    requires forall k | 0 <= k < |rows| :: rows[k] < |s.ops|
    decreases |rows|
  {
    if rows == [] then s
    else
      var row, rest := rows[0], rows[1..];
      if s.ops[row].resource.id in skip then PollPass(cfg, s, rest, skip, slots, w)
      else
        var same := LatestOnTarget(s.ops, row);
        var s' := PollOne(cfg, s, row, same, slots > 0, w);
        var launched := Launched(s, s');
        var skip' := if launched || SkipsDuplicate(s.ops, row, same) then skip + {s.ops[row].resource.id} else skip;
        PollPass(cfg, s', rest, skip', if launched && slots > 0 then slots - 1 else slots, if launched then w + 1 else w)
  }

  /** One step of the pass. */
  lemma PassStep(cfg: Settings, s: State, rows: seq<Row>, i: nat, skip: set<string>, slots: nat, w: nat)
    requires (forall k | 0 <= k < |rows| :: rows[k] < |s.ops|) && i < |rows|
    ensures s.ops[rows[i]].resource.id in skip ==>
              PollPass(cfg, s, rows[i..], skip, slots, w) == PollPass(cfg, s, rows[i + 1..], skip, slots, w)
    ensures s.ops[rows[i]].resource.id !in skip ==>
              var same := LatestOnTarget(s.ops, rows[i]);
              var s' := PollOne(cfg, s, rows[i], same, slots > 0, w);
              var launched := Launched(s, s');
              && |s'.ops| == |s.ops|
              && (forall v | v in s'.workers :: v in s.workers || (launched && v == w))
              && PollPass(cfg, s, rows[i..], skip, slots, w)
                 == PollPass(cfg, s', rows[i + 1..],
                             if launched || SkipsDuplicate(s.ops, rows[i], same) then skip + {s.ops[rows[i]].resource.id} else skip,
                             if launched && slots > 0 then slots - 1 else slots, if launched then w + 1 else w)
  {
    assert rows[i..][1..] == rows[i + 1..];
  }

  /** The maintainer with the operations table, the goroutines and the worker pool of the cascade poller. */
  class CascadePoller {
    const settings: Settings
    var state: State
    var freeWorkers: nat
    var nextWorker: nat

    constructor (settings: Settings, state: State, freeWorkers: nat, nextWorker: nat)
      ensures this.settings == settings && this.state == state
      ensures this.freeWorkers == freeWorkers && this.nextWorker == nextWorker
    {
      this.settings, this.state := settings, state;
      this.freeWorkers, this.nextWorker := freeWorkers, nextWorker;
    }

    /** ScheduleAsyncStorageAction of the cascade pool. */
    method ScheduleAsync(row: Row, op: Operation) returns (accepted: bool)
      requires row < |state.ops| && nextWorker !in state.workers
      modifies this
      ensures state == Schedule(settings, old(state), row, op, old(freeWorkers) > 0, old(nextWorker))
      ensures accepted == Launched(old(state), state)
      ensures freeWorkers == old(freeWorkers) - (if accepted then 1 else 0)
      ensures nextWorker == old(nextWorker) + (if accepted then 1 else 0)
    {
      accepted := false;
      if freeWorkers > 0 {
        var verdict := Preconditions(settings, state.now, state.ops, row, op);
        match verdict {
          case Refused =>
          case TimedOut =>
            state := state.(ops := state.ops[row := Expired(op, state.now)]);
          case Admitted =>
            accepted := true;
            state := state.(ops := state.ops[row := op.(updatedAt := state.now)],
                            workers := state.workers[nextWorker := Running(row, state.now + settings.actionTimeout, op.(updatedAt := state.now))],
                            scheduled := state.scheduled + {row});
            freeWorkers, nextWorker := freeWorkers - 1, nextWorker + 1;
        }
      }
      assert accepted ==> nextWorker - 1 in state.workers;
    }

    /** The loop body for one operation; skip tells whether its resource is left alone for the rest of the pass. */
    method PollOperation(row: Row) returns (skip: bool)
      requires row < |state.ops| && nextWorker !in state.workers
      modifies this
      ensures var same := LatestOnTarget(old(state.ops), row);
              && state == PollOne(settings, old(state), row, same, old(freeWorkers) > 0, old(nextWorker))
              && skip == (Launched(old(state), state) || SkipsDuplicate(old(state.ops), row, same))
      ensures freeWorkers == old(freeWorkers) - (if Launched(old(state), state) then 1 else 0)
      ensures nextWorker == old(nextWorker) + (if Launched(old(state), state) then 1 else 0)
    {
      skip := false;
      var operation := state.ops[row];
      var subOperations := GetSubOperations(state.ops, row);
      if subOperations.AllSucceeded() {
        if operation.Virtual() {
          state := Write(state, row, operation.(state := Succeeded));
        } else {
          match HandleDuplicates(state.ops[LatestOnTarget(state.ops, row)]) {
            case Skip => skip := true;
            case Copy(sameState) => state := Write(state, row, operation.(state := sameState));
            case Proceed => skip := ScheduleAsync(row, operation.(state := InProgress));
          }
        }
      } else if subOperations.SomeFailedRestSucceeded() {
        if !operation.IsForceCascadeDelete() {
          FailedAreRows(state.ops, row);
          var errors := PrepareAggregatedErrorsArray(state.ops, subOperations.failed, operation.resource);
          operation := operation.(errors := Aggregated(errors));
        } else if operation.root == Some(row) {
          operation := operation.(errors := Plain("failed to force cascade delete"));
        }
        state := Write(state, row, operation.(state := Failed));
      }
    }

    /** The i-th operation of the list, unless its resource is left alone. */
    method PollListed(operations: seq<Row>, i: nat, skipSameResources: set<string>) returns (skip: set<string>)
      requires i < |operations| && forall k | 0 <= k < |operations| :: operations[k] < |state.ops|
      requires forall v | v in state.workers :: v < nextWorker
      modifies this
      ensures |state.ops| == |old(state.ops)| && forall v | v in state.workers :: v < nextWorker
      ensures PollPass(settings, old(state), operations[i..], skipSameResources, old(freeWorkers), old(nextWorker))
           == PollPass(settings, state, operations[i + 1..], skip, freeWorkers, nextWorker)
    {
      skip := skipSameResources;
      var row := operations[i];
      PassStep(settings, state, operations, i, skipSameResources, freeWorkers, nextWorker);
      if state.ops[row].resource.id !in skipSameResources {
        var resource := state.ops[row].resource.id;
        var skipped := PollOperation(row);
        if skipped {
          skip := skipSameResources + {resource};
        }
      }
    }

    /** pollPendingCascadeOperations. */
    method PollPendingCascadeOperations()
      requires forall v | v in state.workers :: v < nextWorker
      modifies this
      ensures state == PollPass(settings, old(state), PendingRows(old(state.ops)), {}, old(freeWorkers), old(nextWorker))
    {
      var operations := PendingRows(state.ops);
      var skipSameResources: set<string> := {};
      assert operations[0..] == operations;
      for i := 0 to |operations|
        invariant |state.ops| == |old(state.ops)| && forall v | v in state.workers :: v < nextWorker
        invariant PollPass(settings, old(state), operations, {}, old(freeWorkers), old(nextWorker))
               == PollPass(settings, state, operations[i..], skipSameResources, freeWorkers, nextWorker)
      {
        skipSameResources := PollListed(operations, i, skipSameResources);
      }
    }
  }
}
