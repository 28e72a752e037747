/** What every run keeps about the rows of cascade trees when retries come before the sweep: parents after children. */
module CascadeSafety {
  import opened OperationTypes
  import opened Wrappers
  import opened CascadeUtils
  import opened Protocol
  import opened Lifecycle

  // ----- the shape of the trees, which no event changes -----

  predicate ShapeOk(t: Table, heights: seq<nat>, i: Row)
    requires i < |t| && |heights| == |t|
  {
    var op := t[i];
    && (op.root.None? ==> op.parent.None?)
    && (op.root.Some? ==>
          && op.category.Delete? && op.resource.id != "" && op.root.value < |t|
          && t[op.root.value].createdAt == op.createdAt && t[op.root.value].force == op.force
          && (op.parent.None? ==> op.root == Some(i))
          && (op.parent.Some? ==>
                op.parent.value < |t| && t[op.parent.value].root == op.root && heights[i] < heights[op.parent.value]))
  }

  /** Rows of one tree on the same resource have children on the same resources. */
  predicate Mirrors(t: Table, j: Row, k: Row)
    requires k < |t|
  {
    exists m :: 0 <= m < |t| && ChildOf(t, m, j) && t[m].resource == t[k].resource
  }

  ghost predicate Shaped(t: Table, heights: seq<nat>) {
    && |heights| == |t|
    && (forall i | 0 <= i < |t| :: ShapeOk(t, heights, i))
    && (forall i, j, k | 0 <= i < |t| && 0 <= j < |t| && 0 <= k < |t| && SameTarget(t, i, j) && ChildOf(t, k, i) ::
          Mirrors(t, j, k))
  }

  // ----- what holds of single rows and of pairs of rows -----

  predicate TreeRowOk(s: State, i: Row)
    requires i < |s.ops|
  {
    var op := s.ops[i];
    op.root.Some? ==>
      && (op.Started() ==> ChildrenDone(s.ops, i) && !op.Virtual())
      && (op.Done() ==> ChildrenDone(s.ops, i))
      && (op.GaveUp() && op.Virtual() ==> HasFailedChild(s.ops, i))
      && (!op.Virtual() && op.state.Pending? ==> op.updatedAt == op.createdAt)
      && (!op.Virtual() && !op.state.Pending? ==> op.updatedAt > op.createdAt)
  }

  predicate PairOk(s: State, i: Row, j: Row)
    requires i < |s.ops| && j < |s.ops|
  {
    i != j && SameTarget(s.ops, i, j) && s.ops[i].root.Some? ==>
      && (s.ops[i].Started() ==> s.ops[j].state.Pending?)
      && (s.ops[i].Terminal() && s.ops[j].Terminal() ==> s.ops[i].state == s.ops[j].state)
  }

  ghost predicate Tidy(s: State) {
    && Shaped(s.ops, s.heights)
    && (forall i | 0 <= i < |s.ops| :: TreeRowOk(s, i))
    && (forall i, j | 0 <= i < |s.ops| && 0 <= j < |s.ops| :: PairOk(s, i, j))
  }

  // ----- shape -----

  ghost predicate SameIdentities(t: Table, t': Table) {
    |t| == |t'| && forall i | 0 <= i < |t| :: SameIdentity(t[i], t'[i])
  }

  lemma ShapeKept(t: Table, t': Table, heights: seq<nat>)
    requires Shaped(t, heights) && SameIdentities(t, t')
    ensures Shaped(t', heights)
  {
    forall i | 0 <= i < |t'| ensures ShapeOk(t', heights, i) {
      assert ShapeOk(t, heights, i) && SameIdentity(t[i], t'[i]);
      assert t[i].root.Some? ==> SameIdentity(t[t[i].root.value], t'[t[i].root.value]);
    }
    forall i, j, k | 0 <= i < |t'| && 0 <= j < |t'| && 0 <= k < |t'| && SameTarget(t', i, j) && ChildOf(t', k, i)
      ensures Mirrors(t', j, k)
    {
      assert SameIdentity(t[i], t'[i]) && SameIdentity(t[j], t'[j]) && SameIdentity(t[k], t'[k]);
      assert SameTarget(t, i, j) && ChildOf(t, k, i);
      assert Mirrors(t, j, k);
      var m :| 0 <= m < |t| && ChildOf(t, m, j) && t[m].resource == t[k].resource;
      assert SameIdentity(t[m], t'[m]);
      assert ChildOf(t', m, j);
    }
  }

  lemma ShapeExtended(t: Table, heights: seq<nat>, tree: Table, more: seq<nat>)
    requires Shaped(t, heights) && |more| == |tree|
    requires forall i | |t| <= i < |t + tree| :: ShapeOk(t + tree, heights + more, i)
    requires forall i | |t| <= i < |t + tree| && (t + tree)[i].root.Some? ::
               (t + tree)[i].root.value >= |t| && ((t + tree)[i].parent.Some? ==> (t + tree)[i].parent.value >= |t|)
    requires forall i, j, k | |t| <= i < |t + tree| && |t| <= j < |t + tree| && |t| <= k < |t + tree|
                              && SameTarget(t + tree, i, j) && ChildOf(t + tree, k, i) :: Mirrors(t + tree, j, k)
    ensures Shaped(t + tree, heights + more)
  {
    var t' := t + tree;
    forall i | 0 <= i < |t'| ensures ShapeOk(t', heights + more, i) {
      if i < |t| {
        assert ShapeOk(t, heights, i);
      }
    }
    forall i, j, k | 0 <= i < |t'| && 0 <= j < |t'| && 0 <= k < |t'| && SameTarget(t', i, j) && ChildOf(t', k, i)
      ensures Mirrors(t', j, k)
    {
      assert ShapeOk(t', heights + more, i) && ShapeOk(t', heights + more, j) && ShapeOk(t', heights + more, k);
      assert t'[k].root.Some? && t'[i].root == t'[k].root == t'[j].root;
      if i < |t| {
        assert ShapeOk(t, heights, i);
        assert k < |t| && j < |t|;
        assert SameTarget(t, i, j) && ChildOf(t, k, i);
        assert Mirrors(t, j, k);
        var m :| 0 <= m < |t| && ChildOf(t, m, j) && t[m].resource == t[k].resource;
        assert ChildOf(t', m, j);
      } else {
        assert k < |t| ==> ShapeOk(t, heights, k);
        assert j < |t| ==> ShapeOk(t, heights, j);
        assert k >= |t| && j >= |t|;
      }
    }
  }

  // ----- events other than polls -----

  lemma ChildrenDoneKept(s: State, s': State, i: Row, polled: Option<Row>)
    requires Forward(s, s', polled) && i < |s.ops| && ChildrenDone(s.ops, i)
    requires forall k | |s.ops| <= k < |s'.ops| :: !ChildOf(s'.ops, k, i)
    ensures ChildrenDone(s'.ops, i)
  {
    forall k | 0 <= k < |s'.ops| && ChildOf(s'.ops, k, i) ensures s'.ops[k].Done() {
      assert ForwardAt(s, s', k);
      assert ChildOf(s.ops, k, i);
    }
  }

  lemma FailedChildKept(s: State, s': State, i: Row, polled: Option<Row>)
    requires Forward(s, s', polled) && i < |s.ops| && HasFailedChild(s.ops, i)
    ensures HasFailedChild(s'.ops, i)
  {
    var k :| 0 <= k < |s.ops| && ChildOf(s.ops, k, i) && s.ops[k].GaveUp();
    assert ForwardAt(s, s', k);
    assert ChildOf(s'.ops, k, i) && s'.ops[k].GaveUp();
  }

  lemma OldRowKept(cfg: Settings, s: State, e: Event, i: Row)
    requires Sound(cfg, s) && Tidy(s) && Enabled(cfg, s, e) && !e.Poll? && i < |s.ops|
    requires forall k | |s.ops| <= k < |Next(cfg, s, e).ops| :: !ChildOf(Next(cfg, s, e).ops, k, i)
    ensures i < |Next(cfg, s, e).ops| && TreeRowOk(Next(cfg, s, e), i)
  {
    var s' := Next(cfg, s, e);
    EventForward(cfg, s, e);
    assert TreeRowOk(s, i) && ForwardAt(s, s', i) && RowOk(s, i);
    if s.ops[i].root.Some? {
      if ChildrenDone(s.ops, i) {
        ChildrenDoneKept(s, s', i, None);
      }
      if HasFailedChild(s.ops, i) {
        FailedChildKept(s, s', i, None);
      }
    }
  }

  lemma OldPairKept(cfg: Settings, s: State, e: Event, i: Row, j: Row)
    requires Sound(cfg, s) && Tidy(s) && Enabled(cfg, s, e) && !e.Poll? && i < |s.ops| && j < |s.ops|
    ensures |s.ops| <= |Next(cfg, s, e).ops| && PairOk(Next(cfg, s, e), i, j)
  {
    var s' := Next(cfg, s, e);
    EventForward(cfg, s, e);
    assert PairOk(s, i, j) && PairOk(s, j, i) && ForwardAt(s, s', i) && ForwardAt(s, s', j);
    assert RowOk(s, i) && RowOk(s, j);
  }

  lemma TidyOther(cfg: Settings, s: State, e: Event)
    requires Sound(cfg, s) && Tidy(s) && Enabled(cfg, s, e) && !e.Poll? && |Next(cfg, s, e).ops| == |s.ops|
    ensures Tidy(Next(cfg, s, e))
  {
    var s' := Next(cfg, s, e);
    EventForward(cfg, s, e);
    assert s'.heights == s.heights;
    forall i | 0 <= i < |s.ops| ensures SameIdentity(s.ops[i], s'.ops[i]) {
      assert ForwardAt(s, s', i);
    }
    ShapeKept(s.ops, s'.ops, s.heights);
    forall i | 0 <= i < |s'.ops| ensures TreeRowOk(s', i) {
      OldRowKept(cfg, s, e, i);
    }
    forall i, j | 0 <= i < |s'.ops| && 0 <= j < |s'.ops| ensures PairOk(s', i, j) {
      OldPairKept(cfg, s, e, i, j);
    }
  }

  // ----- new rows -----

  /** Rows appended to the table leave the old rows alone, so only the new ones remain to be looked at. */
  lemma TidyAppended(cfg: Settings, s: State, e: Event)
    requires Sound(cfg, s) && Tidy(s) && Enabled(cfg, s, e) && !e.Poll?
    requires var s' := Next(cfg, s, e);
             && |s.ops| <= |s'.ops| && Shaped(s'.ops, s'.heights)
             && (forall i | |s.ops| <= i < |s'.ops| && s'.ops[i].root.Some? ::
                   s'.ops[i].root.value >= |s.ops| && (s'.ops[i].parent.Some? ==> s'.ops[i].parent.value >= |s.ops|))
             && (forall i | |s.ops| <= i < |s'.ops| :: TreeRowOk(s', i))
             && (forall i, j | |s.ops| <= i < |s'.ops| && |s.ops| <= j < |s'.ops| :: PairOk(s', i, j))
    ensures Tidy(Next(cfg, s, e))
  {
    var s' := Next(cfg, s, e);
    EventForward(cfg, s, e);
    forall i, k | 0 <= i < |s.ops| <= k < |s'.ops| ensures !ChildOf(s'.ops, k, i) {
      assert ShapeOk(s'.ops, s'.heights, k);
    }
    forall i | 0 <= i < |s'.ops| ensures TreeRowOk(s', i) {
      if i < |s.ops| {
        OldRowKept(cfg, s, e, i);
        }
    }
    forall i, j | 0 <= i < |s'.ops| && 0 <= j < |s'.ops| ensures PairOk(s', i, j) {
      if i < |s.ops| && j < |s.ops| {
        OldPairKept(cfg, s, e, i, j);
      } else if i < |s.ops| || j < |s.ops| {
        var earlier := if i < |s.ops| then i else j;
        assert ForwardAt(s, s', earlier) && ShapeOk(s.ops, s.heights, earlier);
      }
    }
  }

  lemma TidySubmit(cfg: Settings, s: State, op: Operation, free: bool, w: nat)
    requires Sound(cfg, s) && Tidy(s) && Enabled(cfg, s, Submit(op, free, w))
    ensures Tidy(Next(cfg, s, Submit(op, free, w)))
  {
    var e := Submit(op, free, w);
    var s' := Next(cfg, s, e);
    if |s'.ops| == |s.ops| {
      TidyOther(cfg, s, e);
    } else {
      assert s'.ops == s.ops + [op] && s'.heights == s.heights + [0];
      forall k | 0 <= k < |s'.ops| ensures !ChildOf(s'.ops, k, |s.ops|) {
        assert k < |s.ops| ==> ShapeOk(s.ops, s.heights, k);
      }
      ShapeExtended(s.ops, s.heights, [op], [0]);
      TidyAppended(cfg, s, e);
    }
  }

  lemma NewTreeShaped(s: State, tree: Table, heights: seq<nat>)
    requires Shaped(s.ops, s.heights) && |s.heights| == |s.ops| && NewTree(s.ops, s.now, tree, heights)
    ensures Shaped(s.ops + tree, s.heights + heights)
  {
    var all, base := s.ops + tree, |s.ops|;
    forall i | base <= i < |all| ensures ShapeOk(all, s.heights + heights, i) {
      assert (s.heights + heights)[i] == heights[i - base];
    }
    forall j, k | base <= j < |all| && base <= k < |all| && HasChildRow(all, base, j, all[k].resource)
      ensures Mirrors(all, j, k)
    {
      var m :| base <= m < |all| && ChildOf(all, m, j) && all[m].resource == all[k].resource;
    }
    ShapeExtended(s.ops, s.heights, tree, heights);
  }

  lemma TidySubmitTree(cfg: Settings, s: State, tree: Table, heights: seq<nat>)
    requires Sound(cfg, s) && Tidy(s) && Enabled(cfg, s, SubmitTree(tree, heights))
    ensures Tidy(Next(cfg, s, SubmitTree(tree, heights)))
  {
    var e := SubmitTree(tree, heights);
    var s' := Next(cfg, s, e);
    var base := |s.ops|;
    NewTreeShaped(s, tree, heights);
    forall i | base <= i < |s'.ops| ensures TreeRowOk(s', i) {
      if s'.ops[i].state.Succeeded? {
        forall k | 0 <= k < |s'.ops| ensures !ChildOf(s'.ops, k, i) {
          assert k < base ==> ShapeOk(s.ops, s.heights, k);
        }
      }
    }
    TidyAppended(cfg, s, e);
  }

  // ----- polls -----

  /** Two rows of one tree on the same resource cannot have one child that is done and one that gave up. */
  lemma ChildrenAgree(s: State, i: Row, j: Row)
    requires Tidy(s) && i < |s.ops| && j < |s.ops| && SameTarget(s.ops, i, j)
    requires HasFailedChild(s.ops, i)
    ensures !ChildrenDone(s.ops, j)
  {
    var k :| 0 <= k < |s.ops| && ChildOf(s.ops, k, i) && s.ops[k].GaveUp();
    assert Mirrors(s.ops, j, k);
    var m :| 0 <= m < |s.ops| && ChildOf(s.ops, m, j) && s.ops[m].resource == s.ops[k].resource;
    assert ShapeOk(s.ops, s.heights, k) && ShapeOk(s.ops, s.heights, m);
    assert SameTarget(s.ops, k, m);
    assert PairOk(s, k, m);
  }

  /** When the newest operation on a target is pending, all of them are. */
  lemma NewestPendingMeansAllPending(s: State, row: Row, same: Row, j: Row)
    requires Tidy(s) && row < |s.ops| && s.ops[row].root.Some? && !s.ops[row].Virtual()
    requires IsLatest(s.ops, row, same) && s.ops[same].state.Pending? && j < |s.ops| && SameTarget(s.ops, row, j)
    ensures s.ops[j].state.Pending?
  {
    assert TreeRowOk(s, same) && TreeRowOk(s, j);
    assert ShapeOk(s.ops, s.heights, same) && ShapeOk(s.ops, s.heights, j);
  }

  /** A pending row that takes a terminal state agrees with the other operations on its target. */
  lemma SettledAgrees(cfg: Settings, s: State, row: Row, same: Row, state: OpState, j: Row)
    requires Sound(cfg, s) && Tidy(s) && row < |s.ops| && s.ops[row].state.Pending? && s.ops[row].root.Some?
    requires IsLatest(s.ops, row, same) && Decide(s.ops, row, same).Settle? && Decide(s.ops, row, same).state == state
    requires j < |s.ops| && SameTarget(s.ops, row, j)
    ensures !s.ops[j].Started()
    ensures s.ops[j].Terminal() ==> s.ops[j].state == state
  {
    DecisionMeaning(s.ops, row, same);
    assert TreeRowOk(s, j) && PairOk(s, j, same) && PairOk(s, same, j);
    if state.Failed? && HasFailedChild(s.ops, row) {
      ChildrenAgree(s, row, j);
    }
    if s.ops[j].GaveUp() && s.ops[j].Virtual() {
      assert SameTarget(s.ops, j, row);
      ChildrenAgree(s, j, row);
    }
  }

  /** One row leaves PENDING; the operations on its target do not contradict its new state. */
  lemma TidyLeaves(cfg: Settings, s: State, s': State, row: Row)
    requires Sound(cfg, s) && Tidy(s) && row < |s.ops| && s.ops[row].state.Pending? && s.ops[row].root.Some?
    requires |s'.ops| == |s.ops| && s'.ops == s.ops[row := s'.ops[row]] && s'.heights == s.heights && s'.now == s.now
    requires ForwardAt(s, s', row) && s.ops[row].updatedAt < s.now
    requires s'.ops[row].updatedAt == s.now && !s'.ops[row].state.Pending?
    requires forall j | 0 <= j < |s.ops| && SameTarget(s.ops, row, j) ::
               && !s.ops[j].Started()
               && (s.ops[j].Terminal() ==> s'.ops[row].Terminal() && s.ops[j].state == s'.ops[row].state)
               && (s'.ops[row].Started() ==> s.ops[j].state.Pending?)
    requires s'.ops[row].Started() ==> ChildrenDone(s.ops, row) && !s.ops[row].Virtual()
    requires s'.ops[row].Done() ==> ChildrenDone(s.ops, row)
    requires s'.ops[row].GaveUp() && s.ops[row].Virtual() ==> HasFailedChild(s.ops, row)
    ensures Tidy(s')
  {
    ForwardOneRow(s, s', row, Some(row));
    forall i | 0 <= i < |s.ops| ensures SameIdentity(s.ops[i], s'.ops[i]) {
      assert ForwardAt(s, s', i);
    }
    ShapeKept(s.ops, s'.ops, s.heights);
    forall i | 0 <= i < |s'.ops| ensures TreeRowOk(s', i) {
      assert TreeRowOk(s, i) && RowOk(s, i) && ForwardAt(s, s', i);
      if ChildrenDone(s.ops, i) {
        ChildrenDoneKept(s, s', i, Some(row));
      }
      if HasFailedChild(s.ops, i) {
        FailedChildKept(s, s', i, Some(row));
      }
    }
    forall i, j | 0 <= i < |s'.ops| && 0 <= j < |s'.ops| ensures PairOk(s', i, j) {
      assert PairOk(s, i, j) && RowOk(s, i) && RowOk(s, j);
      assert SameTarget(s'.ops, i, j) ==> SameTarget(s.ops, i, j) && SameTarget(s.ops, j, i);
    }
  }

  lemma TidyPoll(cfg: Settings, s: State, row: Row, same: Row, free: bool, w: nat)
    requires Sound(cfg, s) && Tidy(s) && Enabled(cfg, s, Poll(row, same, free, w))
    ensures Tidy(PollOne(cfg, s, row, same, free, w))
  {
    var s' := PollOne(cfg, s, row, same, free, w);
    DecisionMeaning(s.ops, row, same);
    ForwardPoll(cfg, s, row, same, free, w);
    assert RowOk(s, row);
    match Decide(s.ops, row, same) {
      case Leave =>
      case Settle(state, errors) =>
        forall j | 0 <= j < |s.ops| && SameTarget(s.ops, row, j)
          ensures !s.ops[j].Started() && (s.ops[j].Terminal() ==> s.ops[j].state == state)
        {
          SettledAgrees(cfg, s, row, same, state, j);
        }
        assert ForwardAt(s, s', row);
        TidyLeaves(cfg, s, s', row);
      case Launch =>
        forall j | 0 <= j < |s.ops| && SameTarget(s.ops, row, j) ensures s.ops[j].state.Pending? && RowOk(s, j) {
          NewestPendingMeansAllPending(s, row, same, j);
        }
        if s'.ops != s.ops {
          assert ForwardAt(s, s', row);
          TidyLeaves(cfg, s, s', row);
        }
    }
  }

  lemma TidyNext(cfg: Settings, s: State, e: Event)
    requires Sound(cfg, s) && Tidy(s) && Enabled(cfg, s, e)
    ensures Tidy(Next(cfg, s, e))
  {
    match e {
      case Submit(op, free, w) => TidySubmit(cfg, s, op, free, w);
      case SubmitTree(tree, heights) => TidySubmitTree(cfg, s, tree, heights);
      case Poll(row, same, free, w) => TidyPoll(cfg, s, row, same, free, w);
      case _ => TidyOther(cfg, s, e);
    }
  }

  lemma {:induction false} RunIsTidy(cfg: Settings, states: seq<State>, events: seq<Event>, i: nat)
    requires cfg.Positive() && cfg.RetriesBeforeSweep() && IsRun(cfg, states, events) && i < |states|
    ensures Sound(cfg, states[i]) && Tidy(states[i])
  {
    RunIsSound(cfg, states, events, i);
    if i > 0 {
      RunIsTidy(cfg, states, events, i - 1);
      TidyNext(cfg, states[i - 1], events[i - 1]);
    }
  }

  // ----- the theorems -----

  /** The k-th ancestor of a row. */
  function Ancestor(t: Table, y: Row, k: nat): Option<Row>
    decreases k
  {
    if k == 0 then Some(y)
    else if y < |t| && t[y].parent.Some? then Ancestor(t, t[y].parent.value, k - 1)
    else None
  }

  lemma {:induction false} SubtreeDone(s: State, x: Row, y: Row, k: nat)
    requires Tidy(s) && x < |s.ops| && y < |s.ops| && s.ops[x].root.Some?
    requires ChildrenDone(s.ops, x) && k > 0 && Ancestor(s.ops, y, k) == Some(x)
    ensures s.ops[y].Done()
    decreases k
  {
    var p := s.ops[y].parent.value;
    assert ChildOf(s.ops, y, p) && ShapeOk(s.ops, s.heights, y);
    if k > 1 {
      SubtreeDone(s, x, p, k - 1);
      assert TreeRowOk(s, p);
    }
  }

  /** Parents after children, as the rows tell it: once an operation of a cascade tree has succeeded, or its own deletion
      has been started, every operation below it has succeeded and is out of orphan mitigation. */
  lemma ParentsAfterChildren(
    cfg: Settings, states: seq<State>, events: seq<Event>, i: nat, x: Row, y: Row, k: nat)
    requires cfg.Positive() && cfg.RetriesBeforeSweep() && IsRun(cfg, states, events) && i < |states|
    requires x < |states[i].ops| && y < |states[i].ops| && states[i].ops[x].root.Some?
    requires k > 0 && Ancestor(states[i].ops, y, k) == Some(x)
    requires states[i].ops[x].state.Succeeded? || states[i].ops[x].Started() || !Unattended(states[i], x)
    ensures states[i].ops[y].Done()
  {
    RunIsTidy(cfg, states, events, i);
    var s := states[i];
    assert RowOk(s, x) && TreeRowOk(s, x);
    if !Unattended(s, x) {
      var w :| w in s.workers && s.workers[w].row == x;
      assert WorkerOk(cfg, s, s.workers[w]);
    }
    SubtreeDone(s, x, y, k);
  }

  /** Operations of one tree on the same resource that have settled agree on the outcome. */
  lemma DuplicatesAgree(cfg: Settings, states: seq<State>, events: seq<Event>, i: nat, a: Row, b: Row)
    requires cfg.Positive() && cfg.RetriesBeforeSweep() && IsRun(cfg, states, events) && i < |states|
    requires SameTarget(states[i].ops, a, b) && states[i].ops[a].root.Some?
    requires states[i].ops[a].Terminal() && states[i].ops[b].Terminal()
    ensures states[i].ops[a].state == states[i].ops[b].state
  {
    RunIsTidy(cfg, states, events, i);
    assert PairOk(states[i], a, b);
  }
}
