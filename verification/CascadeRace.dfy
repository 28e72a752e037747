/** A retry that sleeps longer than the action timeout also breaks what the rows of cascade trees are to tell: parents after
    children, agreement on one resource, and every failure reported. */
module CascadeRace {
  import opened OperationTypes
  import opened Wrappers
  import opened Scheduler
  import opened CascadeUtils
  import opened Protocol
  import opened Lifecycle
  import opened CascadeSafety
  import opened CascadeErrors
  import RetryRace

  // ----- one leaf of a tree: deleted by the sweep while its goroutine sleeps, then overwritten -----

  /** The timeouts leave room for three actions. */
  ghost predicate Roomy(cfg: Settings) {
    cfg.Positive() && cfg.reconciliationTimeout >= 3 * cfg.actionTimeout + 3
    && cfg.cascadeMitigationTimeout >= 3 * cfg.actionTimeout + 3
  }

  /** Nothing on the resource of row c keeps its deletion out. */
  predicate Open(t: Table, c: Row)
    requires c < |t|
  {
    forall j | 0 <= j < |t| && t[j].resource == t[c].resource :: t[j].category.Delete? && !t[j].state.InProgress?
  }

  /** Row c is a leaf that was never polled, and the other rows on its resource were not either. */
  predicate Unpolled(t: Table, c: Row) {
    && c < |t| && Open(t, c)
    && t[c].state.Pending? && t[c].category.Delete? && t[c].resource.id != "" && t[c].root.Some? && t[c].parent.Some?
    && !t[c].Virtual() && !t[c].force && t[c].createdAt == 0 && !t[c].InMitigation() && !t[c].reschedule
    && t[c].errors.NoErrors?
    && (forall k | 0 <= k < |t| :: !ChildOf(t, k, c))
    && (forall j | 0 <= j < |t| && SameTarget(t, c, j) :: t[j].updatedAt <= t[c].updatedAt < 1)
  }

  /** The leaf once its deletion has failed. */
  function FailedLeaf(op: Operation, now: int): Operation {
    op.(state := Failed, updatedAt := now, deletionScheduled := Some(1), errors := Plain("broker error"))
  }

  /** A leaf without pending duplicates that were polled is launched. */
  lemma LeafLaunches(t: Table, row: Row)
    requires row < |t| && t[row].state.Pending? && !t[row].InMitigation() && !t[row].Virtual()
    requires forall i | 0 <= i < |t| && ChildOf(t, i, row) :: t[i].Done()
    ensures Decide(t, row, row).Launch?
  {
    DecisionMeaning(t, row, row);
    assert ChildrenDone(t, row);
  }

  /** An operation of a tree that is in time and not ended is admitted where its resource is open. */
  lemma Admits(cfg: Settings, t: Table, row: Row, op: Operation, now: int)
    requires row < |t| && SameIdentity(op, t[row]) && Open(t, row) && t[row].createdAt == 0
    requires op.category.Delete? && op.resource.id != "" && op.root.Some? && (op.parent.None? ==> op.root == Some(row))
    requires op.Started() && !op.state.Pending? && !op.state.Succeeded?
    requires now <= cfg.reconciliationTimeout && (op.InMitigation() ==> now <= cfg.cascadeMitigationTimeout)
    ensures Preconditions(cfg, now, t, row, op).Admitted?
  {
  }

  /** The leaf's deletion runs, and is marked for mitigation. */
  lemma LeafRuns(cfg: Settings, states0: seq<State>, events0: seq<Event>, c: Row)
    returns (states: seq<State>, events: seq<Event>)
    requires cfg.Positive() && 1 <= cfg.reconciliationTimeout && IsRun(cfg, states0, events0)
    requires states0[|events0|].now == 1 && states0[|events0|].workers == map[] && Unpolled(states0[|events0|].ops, c)
    ensures IsRun(cfg, states, events)
    ensures var s, t := states[|events|], states0[|events0|].ops;
            && s.ops == t[c := t[c].(state := InProgress, updatedAt := 1, deletionScheduled := Some(1))]
            && s.now == 1 && s.workers == map[0 := Running(c, 1 + cfg.actionTimeout, s.ops[c])]
  {
    var t := states0[|events0|].ops;
    LeafLaunches(t, c);
    Admits(cfg, t, c, t[c].(state := InProgress), 1);
    states, events := RetryRace.Extend(cfg, states0, events0, Poll(c, c, true, 0));
    states, events := RetryRace.Extend(cfg, states, events, Mark(0, true, false));
  }

  /** The leaf failed, is in mitigation, and its goroutine sleeps past the moment the sweep takes over. */
  ghost predicate LeafAsleep(cfg: Settings, s: State, t: Table, c: Row, w: nat) {
    && c < |t| && s.ops == t[c := FailedLeaf(t[c], s.now)]
    && w in s.workers && s.workers == map[w := Waiting(c, s.workers[w].due, s.ops[c])]
    && 1 <= s.now && s.now + cfg.actionTimeout + 1 <= s.workers[w].due
    && s.now + cfg.actionTimeout + 1 <= cfg.reconciliationTimeout && s.now + cfg.actionTimeout + 1 <= cfg.cascadeMitigationTimeout
  }

  lemma LeafFails(cfg: Settings, states0: seq<State>, events0: seq<Event>, c: Row, at: int)
    returns (states: seq<State>, events: seq<Event>)
    requires Roomy(cfg) && IsRun(cfg, states0, events0) && 1 <= at <= 1 + cfg.actionTimeout
    requires states0[|events0|].now == 1 && states0[|events0|].workers == map[] && Unpolled(states0[|events0|].ops, c)
    ensures IsRun(cfg, states, events)
    ensures var s, t := states[|events|], states0[|events0|].ops;
            && s.now == at && s.ops == t[c := FailedLeaf(t[c], at)]
            && s.workers == map[0 := Waiting(c, at + cfg.shortDelay, s.ops[c])]
  {
    states, events := LeafRuns(cfg, states0, events0, c);
    states, events := RetryRace.Extend(cfg, states, events, Tick(at));
    states, events := RetryRace.Extend(cfg, states, events, Finish(0, ActionFailed("broker error", false)));
  }

  lemma LeafRetries(cfg: Settings, states0: seq<State>, events0: seq<Event>, c: Row)
    returns (states: seq<State>, events: seq<Event>)
    requires Roomy(cfg) && cfg.shortDelay <= cfg.actionTimeout && IsRun(cfg, states0, events0)
    requires states0[|events0|].now == 1 && states0[|events0|].workers == map[] && Unpolled(states0[|events0|].ops, c)
    ensures IsRun(cfg, states, events)
    ensures var s, t, a := states[|events|], states0[|events0|].ops, cfg.actionTimeout;
            && s.now == 1 + a + cfg.shortDelay && s.ops == t[c := FailedLeaf(t[c], s.now)]
            && s.workers == map[1 := Running(c, 1 + 2 * a + cfg.shortDelay, s.ops[c])]
  {
    states, events := LeafFails(cfg, states0, events0, c, 1 + cfg.actionTimeout);
    states, events := RetryRace.Extend(cfg, states, events, Tick(1 + cfg.actionTimeout + cfg.shortDelay));
    var s := states[|events|];
    Admits(cfg, s.ops, c, s.workers[0].op, s.now);
    states, events := RetryRace.Extend(cfg, states, events, Wake(0, true, 1));
  }

  lemma LeafSleeps(cfg: Settings, states0: seq<State>, events0: seq<Event>, c: Row)
    returns (states: seq<State>, events: seq<Event>, w: nat)
    requires Roomy(cfg) && !cfg.RetriesBeforeSweep() && IsRun(cfg, states0, events0)
    requires states0[|events0|].now == 1 && states0[|events0|].workers == map[] && Unpolled(states0[|events0|].ops, c)
    ensures IsRun(cfg, states, events) && LeafAsleep(cfg, states[|events|], states0[|events0|].ops, c, w)
  {
    if cfg.shortDelay > cfg.actionTimeout {
      w := 0;
      states, events := LeafFails(cfg, states0, events0, c, 1);
    } else {
      w := 1;
      states, events := LeafRetries(cfg, states0, events0, c);
      states, events := RetryRace.Extend(cfg, states, events, Tick(2 * cfg.actionTimeout + 2));
      states, events := RetryRace.Extend(cfg, states, events, Finish(1, ActionFailed("broker error", false)));
    }
  }

  /** The leaf is deleted, and its goroutine still holds the copy that says failed. */
  ghost predicate LeafSwept(s: State, c: Row, w: nat) {
    && c < |s.ops| && s.ops[c].Done() && s.ops[c].category.Delete? && s.ops[c].resource.id != "" && s.ops[c].root.Some?
    && s.ops[c].parent.Some? && s.ops[c].createdAt == 0 && !s.ops[c].force && s.ops[c].updatedAt <= s.now && Open(s.ops, c)
    && w in s.workers && s.workers == map[w := Waiting(c, s.workers[w].due, s.workers[w].op)]
    && SameIdentity(s.workers[w].op, s.ops[c]) && !s.workers[w].op.reschedule
    && s.workers[w].op == FailedLeaf(s.workers[w].op, s.workers[w].op.updatedAt)
    && 1 < s.now <= s.workers[w].due
  }

  lemma SweepDeletes(cfg: Settings, states0: seq<State>, events0: seq<Event>, c: Row)
    returns (states: seq<State>, events: seq<Event>, w: nat)
    requires Roomy(cfg) && !cfg.RetriesBeforeSweep() && IsRun(cfg, states0, events0)
    requires states0[|events0|].now == 1 && states0[|events0|].workers == map[] && Unpolled(states0[|events0|].ops, c)
    ensures IsRun(cfg, states, events) && LeafSwept(states[|events|], c, w)
    ensures var s, t := states[|events|], states0[|events0|].ops;
            && |s.ops| == |t| && s.ops == t[c := s.ops[c]] && SameIdentity(t[c], s.ops[c])
            && s.ops[c].updatedAt == s.now <= cfg.reconciliationTimeout
  {
    states, events, w := LeafSleeps(cfg, states0, events0, c);
    var s := states[|events|];
    states, events := RetryRace.Extend(cfg, states, events, Tick(s.now + cfg.actionTimeout + 1));
    Admits(cfg, s.ops, c, s.ops[c], s.now + cfg.actionTimeout + 1);
    states, events := RetryRace.Extend(cfg, states, events, SweepMitigation(c, true, w + 1));
    states, events := RetryRace.Extend(cfg, states, events, Finish(w + 1, ActionDone));
    assert states[|events|].workers == s.workers;
  }

  /** The goroutine wakes and writes its old copy over the result. */
  lemma LeafOverwritten(cfg: Settings, states0: seq<State>, events0: seq<Event>, c: Row, w: nat)
    returns (states: seq<State>, events: seq<Event>)
    requires cfg.Positive() && IsRun(cfg, states0, events0) && LeafSwept(states0[|events0|], c, w)
    ensures IsRun(cfg, states, events)
    ensures var s, before := states[|events|], states0[|events0|];
            && |s.ops| == |before.ops| && s.ops == before.ops[c := s.ops[c]] && SameIdentity(before.ops[c], s.ops[c])
            && s.ops[c].state.Failed? && s.ops[c].errors == Plain("broker error")
            && s.now >= 1 && s.ops[c].updatedAt == s.now && s.workers.Keys <= {w + 3}
  {
    var s := states0[|events0|];
    var due, op := s.workers[w].due, s.workers[w].op;
    states, events := RetryRace.Extend(cfg, states0, events0, Tick(due));
    if !ExceedsTimeouts(cfg, due, op) {
      Admits(cfg, s.ops, c, op, due);
    }
    states, events := RetryRace.Extend(cfg, states, events, Wake(w, true, w + 3));
  }

  /** The rewritten leaf runs out of time. */
  lemma LeafExpires(cfg: Settings, states0: seq<State>, events0: seq<Event>, c: Row, w: nat)
    returns (states: seq<State>, events: seq<Event>)
    requires cfg.Positive() && IsRun(cfg, states0, events0)
    requires var s := states0[|events0|];
             && c < |s.ops| && s.ops[c].state.Failed? && s.ops[c].errors == Plain("broker error") && s.ops[c].category.Delete?
             && s.ops[c].createdAt == 0 && s.now >= 1 && s.ops[c].updatedAt == s.now && s.workers.Keys <= {w}
    ensures IsRun(cfg, states, events)
    ensures var s, before := states[|events|], states0[|events0|];
            && |s.ops| == |before.ops| && s.ops == before.ops[c := s.ops[c]] && SameIdentity(before.ops[c], s.ops[c])
            && FailedItself(s.ops[c])
  {
    var s := states0[|events0|];
    if s.ops[c].GaveUp() {
      return states0, events0;
    }
    states, events := RetryRace.Extend(cfg, states0, events0, Crash({w}));
    states, events := RetryRace.Extend(cfg, states, events, Tick(s.now + cfg.actionTimeout + cfg.reconciliationTimeout + 1));
    states, events := RetryRace.Extend(cfg, states, events, SweepMitigation(c, true, w));
  }

  // ----- one parent with two children -----

  const SIBLING := Operation(Delete, Pending, Resource("a", ServiceBinding), Some(2), Some(2), false, 0, 0, None, false, NoErrors)
  const CHILD := Operation(Delete, Pending, Resource("b", ServiceBinding), Some(2), Some(2), false, 0, 0, None, false, NoErrors)
  const PARENT := Operation(Delete, Pending, Resource("p", ServiceInstance), None, Some(2), false, 0, 0, None, false, NoErrors)

  /** The first child once its job has ended, in failure or in success. */
  function Sibling(fails: bool): Operation {
    if fails then SIBLING.(state := Failed, errors := Plain("broker error"), updatedAt := 1)
    else SIBLING.(state := Succeeded, updatedAt := 1)
  }

  lemma TreeIsNew()
    ensures NewTree([], 0, [SIBLING, CHILD, PARENT], [0, 0, 1])
  {
    var all := [] + [SIBLING, CHILD, PARENT];
    assert all == [SIBLING, CHILD, PARENT];
    forall i, j, k | 0 <= i < |all| && 0 <= j < |all| && 0 <= k < |all| && SameTarget(all, i, j) && ChildOf(all, k, i)
      ensures HasChildRow(all, 0, j, all[k].resource)
    {
      assert i == j && ChildOf(all, k, j);
    }
  }

  /** A tree is stored, and time passes. */
  lemma Plant(cfg: Settings, tree: Table, heights: seq<nat>) returns (states: seq<State>, events: seq<Event>)
    requires NewTree([], 0, tree, heights)
    ensures IsRun(cfg, states, events)
    ensures var s := states[|events|]; s.ops == tree && s.now == 1 && s.workers == map[]
  {
    states, events := [RetryRace.START], [];
    states, events := RetryRace.Extend(cfg, states, events, SubmitTree(tree, heights));
    states, events := RetryRace.Extend(cfg, states, events, Tick(1));
    assert [] + tree == tree;
  }

  /** The first child is deleted, or fails. */
  lemma SiblingEnds(cfg: Settings, fails: bool) returns (states: seq<State>, events: seq<Event>)
    requires cfg.Positive() && 1 <= cfg.reconciliationTimeout
    ensures IsRun(cfg, states, events)
    ensures var s := states[|events|];
            s.ops == [Sibling(fails), CHILD, PARENT] && s.now == 1 && s.workers == map[]
  {
    TreeIsNew();
    states, events := Plant(cfg, [SIBLING, CHILD, PARENT], [0, 0, 1]);
    var t := states[|events|].ops;
    LeafLaunches(t, 0);
    Admits(cfg, t, 0, SIBLING.(state := InProgress), 1);
    states, events := RetryRace.Extend(cfg, states, events, Poll(0, 0, true, 0));
    states, events := RetryRace.Extend(cfg, states, events, Finish(0, if fails then ActionFailed("broker error", false) else ActionDone));
    assert states[|events|].workers == map[];
  }

  /** The second child is deleted while its goroutine sleeps. */
  lemma ChildSwept(cfg: Settings, fails: bool) returns (states: seq<State>, events: seq<Event>, w: nat)
    requires Roomy(cfg) && !cfg.RetriesBeforeSweep()
    ensures IsRun(cfg, states, events) && LeafSwept(states[|events|], 1, w)
    ensures var s := states[|events|];
            s.ops == [Sibling(fails), s.ops[1], PARENT] && SameIdentity(CHILD, s.ops[1]) && s.now <= cfg.reconciliationTimeout
  {
    states, events := SiblingEnds(cfg, fails);
    states, events, w := SweepDeletes(cfg, states, events, 1);
  }

  // ----- parents before children -----

  /** What ParentsAfterChildren states, of one state. */
  ghost predicate InOrder(s: State) {
    forall x: Row, y: Row, k: nat |
      x < |s.ops| && y < |s.ops| && s.ops[x].root.Some? && k > 0 && Ancestor(s.ops, y, k) == Some(x)
      && (s.ops[x].state.Succeeded? || s.ops[x].Started() || !Unattended(s, x)) ::
      s.ops[y].Done()
  }

  ghost predicate AlwaysInOrder(cfg: Settings) {
    forall states: seq<State>, events: seq<Event> | IsRun(cfg, states, events) ::
      forall i | 0 <= i < |states| :: InOrder(states[i])
  }

  lemma ParentDeleted(cfg: Settings, states0: seq<State>, events0: seq<Event>, w: nat)
    returns (states: seq<State>, events: seq<Event>)
    requires cfg.Positive() && IsRun(cfg, states0, events0) && LeafSwept(states0[|events0|], 1, w)
    requires var s := states0[|events0|];
             && s.ops == [Sibling(false), s.ops[1], PARENT] && SameIdentity(CHILD, s.ops[1])
             && s.now <= cfg.reconciliationTimeout
    ensures IsRun(cfg, states, events) && LeafSwept(states[|events|], 1, w)
    ensures var s := states[|events|]; |s.ops| == 3 && SameIdentity(CHILD, s.ops[1]) && SameIdentity(PARENT, s.ops[2]) && s.ops[2].Done()
  {
    var s := states0[|events0|];
    LeafLaunches(s.ops, 2);
    Admits(cfg, s.ops, 2, PARENT.(state := InProgress), s.now);
    states, events := RetryRace.Extend(cfg, states0, events0, Poll(2, 2, true, w + 2));
    states, events := RetryRace.Extend(cfg, states, events, Finish(w + 2, ActionDone));
    assert states[|events|].workers == s.workers;
  }

  lemma OutOfOrder(cfg: Settings) returns (states: seq<State>, events: seq<Event>)
    requires Roomy(cfg) && !cfg.RetriesBeforeSweep()
    ensures IsRun(cfg, states, events) && !InOrder(states[|events|])
  {
    var w;
    states, events, w := ChildSwept(cfg, false);
    states, events := ParentDeleted(cfg, states, events, w);
    states, events := LeafOverwritten(cfg, states, events, 1, w);
    var t := states[|events|].ops;
    assert Ancestor(t, 1, 1) == Some(2) && !t[1].Done();
  }

  /** The rows of parents follow those of their children in every run if and only if no retry sleeps past the sweep. The
      deletions themselves are in order either way. */
  lemma InOrderIff(cfg: Settings)
    requires Roomy(cfg)
    ensures AlwaysInOrder(cfg) <==> cfg.RetriesBeforeSweep()
  {
    if cfg.RetriesBeforeSweep() {
      forall states: seq<State>, events: seq<Event>, i | IsRun(cfg, states, events) && 0 <= i < |states|
        ensures InOrder(states[i])
      {
        var s := states[i];
        forall x: Row, y: Row, k: nat |
          x < |s.ops| && y < |s.ops| && s.ops[x].root.Some? && k > 0 && Ancestor(s.ops, y, k) == Some(x)
          && (s.ops[x].state.Succeeded? || s.ops[x].Started() || !Unattended(s, x))
          ensures s.ops[y].Done()
        {
          ParentsAfterChildren(cfg, states, events, i, x, y, k);
        }
      }
    } else {
      var states, events := OutOfOrder(cfg);
    }
  }

  // ----- failures that are not reported -----

  /** What FailuresReportedOnce states, of one state. */
  ghost predicate AllReported(s: State) {
    forall x: Row | x < |s.ops| && s.ops[x].root.Some? && !s.ops[x].force && s.ops[x].GaveUp() && HasFailedChild(s.ops, x) ::
      exists rows :: Reports(s.ops, x, rows)
  }

  ghost predicate AlwaysReported(cfg: Settings) {
    forall states: seq<State>, events: seq<Event> | IsRun(cfg, states, events) ::
      forall i | 0 <= i < |states| :: AllReported(states[i])
  }

  /** What the three rows are at any time. */
  predicate Family(t: Table) {
    && |t| == 3 && SameIdentity(SIBLING, t[0]) && SameIdentity(CHILD, t[1]) && SameIdentity(PARENT, t[2])
  }

  lemma OnlySiblingFailed(t: Table)
    requires Family(t) && t[0] == Sibling(true) && t[1].Done() && t[2] == PARENT
    ensures SubOperationsOf(t, 2).failed == [0]
  {
    assert SubOperationsUpTo(t, 2, 0) == NoSubOperations;
    assert SubOperationsUpTo(t, 2, 1) == Filed(NoSubOperations, 0, t[0]);
    assert SubOperationsUpTo(t, 2, 2) == Filed(SubOperationsUpTo(t, 2, 1), 1, t[1]);
  }

  lemma OneEntry(t: Table, parent: Resource)
    requires |t| > 0 && t[0] == Sibling(true)
    ensures |AggregatedErrors(t, [0], parent)| == 1
  {
    assert [0][..0] == [];
    assert AggregatedErrors(t, [], parent) == [];
    assert AggregatedErrors(t, [0], parent) == [] + ErrorsOfChild(parent, t[0]);
  }

  lemma OneFailure(t: Table)
    requires Family(t) && t[0] == Sibling(true) && t[1].Done() && t[2] == PARENT
    ensures Decide(t, 2, 2).Settle? && Decide(t, 2, 2).state == Failed
    ensures Decide(t, 2, 2).errors.Aggregated? && |Decide(t, 2, 2).errors.list| == 1
  {
    CountsDecide(t, 2);
    assert ChildOf(t, 0, 2) && t[0].GaveUp();
    OnlySiblingFailed(t);
    OneEntry(t, t[2].resource);
  }

  lemma ParentFails(cfg: Settings, states0: seq<State>, events0: seq<Event>, w: nat)
    returns (states: seq<State>, events: seq<Event>)
    requires cfg.Positive() && IsRun(cfg, states0, events0) && LeafSwept(states0[|events0|], 1, w)
    requires var s := states0[|events0|]; s.ops == [Sibling(true), s.ops[1], PARENT] && SameIdentity(CHILD, s.ops[1])
    ensures IsRun(cfg, states, events) && LeafSwept(states[|events|], 1, w)
    ensures var s := states[|events|];
            && |s.ops| == 3 && s.ops[0] == Sibling(true) && Family(s.ops) && s.ops[2].GaveUp()
            && s.ops[2].errors.Aggregated? && |s.ops[2].errors.list| == 1
  {
    var s := states0[|events0|];
    OneFailure(s.ops);
    states, events := RetryRace.Extend(cfg, states0, events0, Poll(2, 2, true, w + 2));
  }

  lemma NotReported(t: Table)
    requires Family(t) && t[0] == Sibling(true) && FailedItself(t[1])
    requires t[2].errors.Aggregated? && |t[2].errors.list| == 1
    ensures HasFailedChild(t, 2) && forall rows :: !Reports(t, 2, rows)
  {
    assert ChildOf(t, 0, 2) && t[0].GaveUp();
    assert Below(t, 0, 2, 1) && Below(t, 1, 2, 1);
    forall rows ensures !Reports(t, 2, rows) {
      assert Reports(t, 2, rows) ==> 0 in rows && 1 in rows;
      assert 0 in rows && 1 in rows ==> |rows| != 1;
    }
  }

  lemma Unreported(cfg: Settings) returns (states: seq<State>, events: seq<Event>)
    requires Roomy(cfg) && !cfg.RetriesBeforeSweep()
    ensures IsRun(cfg, states, events) && !AllReported(states[|events|])
  {
    var w;
    states, events, w := ChildSwept(cfg, true);
    states, events := ParentFails(cfg, states, events, w);
    states, events := LeafOverwritten(cfg, states, events, 1, w);
    states, events := LeafExpires(cfg, states, events, 1, w + 3);
    NotReported(states[|events|].ops);
  }

  /** Every failure below a failed parent is reported, in every run, if and only if no retry sleeps past the sweep. */
  lemma ReportedIff(cfg: Settings)
    requires Roomy(cfg)
    ensures AlwaysReported(cfg) <==> cfg.RetriesBeforeSweep()
  {
    if cfg.RetriesBeforeSweep() {
      forall states: seq<State>, events: seq<Event>, i | IsRun(cfg, states, events) && 0 <= i < |states|
        ensures AllReported(states[i])
      {
        var s := states[i];
        forall x: Row | x < |s.ops| && s.ops[x].root.Some? && !s.ops[x].force && s.ops[x].GaveUp() && HasFailedChild(s.ops, x)
          ensures exists rows :: Reports(s.ops, x, rows)
        {
          var rows := FailuresReportedOnce(cfg, states, events, i, x);
        }
      }
    } else {
      var states, events := Unreported(cfg);
    }
  }

  // ----- two parents that share a child -----

  const SHARED := Resource("b", ServiceBinding)
  const FIRST := Operation(Delete, Pending, SHARED, Some(2), Some(4), false, 0, 0, None, false, NoErrors)
  const SECOND := Operation(Delete, Pending, SHARED, Some(3), Some(4), false, 0, 0, None, false, NoErrors)
  const LEFT := Operation(Delete, Pending, Resource("l", ServiceInstance), Some(4), Some(4), false, 0, 0, None, false, NoErrors)
  const RIGHT := Operation(Delete, Pending, Resource("r", ServiceInstance), Some(4), Some(4), false, 0, 0, None, false, NoErrors)
  const TOP := Operation(Delete, Pending, Resource("t", Platform), None, Some(4), false, 0, 0, None, false, NoErrors)
  const SHARING := [FIRST, SECOND, LEFT, RIGHT, TOP]

  lemma SharingMirrors(i: Row, j: Row, k: Row)
    requires SameTarget(SHARING, i, j) && ChildOf(SHARING, k, i)
    ensures HasChildRow(SHARING, 0, j, SHARING[k].resource)
  {
    assert 2 <= i && i == j && ChildOf(SHARING, k, j);
  }

  lemma SharingIsNew()
    ensures NewTree([], 0, SHARING, [0, 0, 1, 1, 2])
  {
    var all := [] + SHARING;
    assert all == SHARING;
    forall i, j, k | 0 <= i < |all| && 0 <= j < |all| && 0 <= k < |all| && SameTarget(all, i, j) && ChildOf(all, k, i)
      ensures HasChildRow(all, 0, j, all[k].resource)
    {
      SharingMirrors(i, j, k);
    }
  }

  /** What DuplicatesAgree states, of one state. */
  ghost predicate Agree(s: State) {
    forall a: Row, b: Row | SameTarget(s.ops, a, b) && s.ops[a].root.Some? && s.ops[a].Terminal() && s.ops[b].Terminal() ::
      s.ops[a].state == s.ops[b].state
  }

  ghost predicate AlwaysAgree(cfg: Settings) {
    forall states: seq<State>, events: seq<Event> | IsRun(cfg, states, events) ::
      forall i | 0 <= i < |states| :: Agree(states[i])
  }

  /** The second row on the shared child copies the success of the first. */
  lemma SecondCopies(cfg: Settings, states0: seq<State>, events0: seq<Event>, w: nat)
    returns (states: seq<State>, events: seq<Event>)
    requires cfg.Positive() && IsRun(cfg, states0, events0) && LeafSwept(states0[|events0|], 0, w)
    requires var s := states0[|events0|];
             s.ops == SHARING[0 := s.ops[0]] && SameIdentity(FIRST, s.ops[0]) && s.ops[0].updatedAt == s.now
    ensures IsRun(cfg, states, events) && LeafSwept(states[|events|], 0, w)
    ensures var s := states[|events|];
            |s.ops| == 5 && SameIdentity(FIRST, s.ops[0]) && SameIdentity(SECOND, s.ops[1]) && s.ops[1].Done()
  {
    var t := states0[|events0|].ops;
    assert ChildrenDone(t, 1);
    DecisionMeaning(t, 1, 0);
    states, events := RetryRace.Extend(cfg, states0, events0, Poll(1, 0, true, w + 1));
  }

  lemma Disagreement(cfg: Settings) returns (states: seq<State>, events: seq<Event>)
    requires Roomy(cfg) && !cfg.RetriesBeforeSweep()
    ensures IsRun(cfg, states, events) && !Agree(states[|events|])
  {
    SharingIsNew();
    var w;
    states, events := Plant(cfg, SHARING, [0, 0, 1, 1, 2]);
    states, events, w := SweepDeletes(cfg, states, events, 0);
    states, events := SecondCopies(cfg, states, events, w);
    states, events := LeafOverwritten(cfg, states, events, 0, w);
    states, events := LeafExpires(cfg, states, events, 0, w + 3);
    assert SameTarget(states[|events|].ops, 0, 1);
  }

  /** Operations of one tree on one resource agree in every run if and only if no retry sleeps past the sweep. */
  lemma DuplicatesAgreeIff(cfg: Settings)
    requires Roomy(cfg)
    ensures AlwaysAgree(cfg) <==> cfg.RetriesBeforeSweep()
  {
    if cfg.RetriesBeforeSweep() {
      forall states: seq<State>, events: seq<Event>, i | IsRun(cfg, states, events) && 0 <= i < |states|
        ensures Agree(states[i])
      {
        var s := states[i];
        forall a: Row, b: Row | SameTarget(s.ops, a, b) && s.ops[a].root.Some? && s.ops[a].Terminal() && s.ops[b].Terminal()
          ensures s.ops[a].state == s.ops[b].state
        {
          DuplicatesAgree(cfg, states, events, i, a, b);
        }
      }
    } else {
      var states, events := Disagreement(cfg);
    }
  }

  /** With the default settings none of the three holds. */
  lemma DefaultsFallShort()
    ensures !AlwaysInOrder(RetryRace.DEFAULT_SETTINGS) && !AlwaysAgree(RetryRace.DEFAULT_SETTINGS)
    ensures !AlwaysReported(RetryRace.DEFAULT_SETTINGS)
  {
    InOrderIff(RetryRace.DEFAULT_SETTINGS);
    DuplicatesAgreeIff(RetryRace.DEFAULT_SETTINGS);
    ReportedIff(RetryRace.DEFAULT_SETTINGS);
  }
}
