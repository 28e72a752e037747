/** The error list of a failed cascade: every failure below it, once, with the parent it failed under. */
module CascadeErrors {
  import opened OperationTypes
  import opened Wrappers
  import opened CascadeUtils
  import opened Protocol
  import opened Lifecycle
  import opened CascadeSafety

  /** What the subtree of a failed child c contributes: its own failures if it has failed children, else its error. */
  ghost function Share(t: Table, heights: seq<nat>, c: Row): seq<CascadeError>
    requires Shaped(t, heights) && c < |t| && t[c].parent.Some?
    decreases heights[c], |t| + 1
  {
    if HasFailedChild(t, c) then Gathered(t, heights, c, |t|)
    else if t[c].errors.Plain? then
      assert ShapeOk(t, heights, c);
      [CascadeError(t[t[c].parent.value].resource, t[c].resource, t[c].errors.message)]
    else []
  }

  /** The reference list: the shares of the failed children among the first n rows, in listing order. */
  ghost function Gathered(t: Table, heights: seq<nat>, x: Row, n: nat): seq<CascadeError>
    requires Shaped(t, heights) && x < |t| && n <= |t|
    decreases heights[x], n
  {
    if n == 0 then []
    else
      var before := Gathered(t, heights, x, n - 1);
      assert ShapeOk(t, heights, n - 1);
      if ChildOf(t, n - 1, x) && t[n - 1].GaveUp() then before + Share(t, heights, n - 1) else before
  }

  predicate RecordedRow(s: State, i: Row)
    requires i < |s.ops|
  {
    var op := s.ops[i];
    op.root.Some? ==>
      && (op.Terminal() ==> ChildrenTerminal(s.ops, i))
      && (op.state.Pending? ==> op.errors.NoErrors?)
      && (op.Started() ==> !op.errors.Aggregated?)
      && (op.GaveUp() && !HasFailedChild(s.ops, i) ==> !op.errors.Aggregated?)
  }

  ghost predicate ListsOk(s: State, i: Row)
    requires Shaped(s.ops, s.heights) && i < |s.ops|
  {
    var op := s.ops[i];
    op.root.Some? && !op.force && op.GaveUp() && HasFailedChild(s.ops, i) ==>
      op.errors == Aggregated(Gathered(s.ops, s.heights, i, |s.ops|))
  }

  ghost predicate Recorded(s: State) {
    && Shaped(s.ops, s.heights)
    && (forall i | 0 <= i < |s.ops| :: RecordedRow(s, i))
    && (forall i | 0 <= i < |s.ops| :: ListsOk(s, i))
  }

  // ----- settled subtrees do not change -----

  /** s' has the rows of s, changed only forward, and possibly new rows that are nobody's children among the old ones. */
  ghost predicate Extends(s: State, s': State, polled: Option<Row>) {
    && Shaped(s.ops, s.heights) && Shaped(s'.ops, s'.heights) && Forward(s, s', polled)
    && s.heights <= s'.heights
    && forall i, k | 0 <= i < |s.ops| <= k < |s'.ops| :: !ChildOf(s'.ops, k, i)
  }

  lemma FailedChildStable(s: State, s': State, polled: Option<Row>, i: Row)
    requires Extends(s, s', polled) && i < |s.ops| && ChildrenTerminal(s.ops, i)
    ensures ChildrenTerminal(s'.ops, i)
    ensures HasFailedChild(s'.ops, i) <==> HasFailedChild(s.ops, i)
  {
    forall k | 0 <= k < |s'.ops| && ChildOf(s'.ops, k, i) ensures k < |s.ops| && ChildOf(s.ops, k, i) && s'.ops[k] == s.ops[k] {
      assert ForwardAt(s, s', k);
      assert ChildOf(s.ops, k, i);
    }
    if HasFailedChild(s.ops, i) {
      FailedChildKept(s, s', i, polled);
    }
  }

  lemma {:induction false} NothingBeyond(s: State, s': State, polled: Option<Row>, x: Row, n: nat)
    requires Extends(s, s', polled) && x < |s.ops| <= n <= |s'.ops|
    ensures Gathered(s'.ops, s'.heights, x, n) == Gathered(s'.ops, s'.heights, x, |s.ops|)
  {
    if n > |s.ops| {
      NothingBeyond(s, s', polled, x, n - 1);
      assert !ChildOf(s'.ops, n - 1, x);
    }
  }

  lemma {:induction false} GatheredStable(s: State, s': State, polled: Option<Row>, x: Row, n: nat)
    requires Extends(s, s', polled) && Recorded(s) && x < |s.ops| && n <= |s.ops| && ChildrenTerminal(s.ops, x)
    ensures Gathered(s'.ops, s'.heights, x, n) == Gathered(s.ops, s.heights, x, n)
    decreases s.heights[x], n
  {
    if n > 0 {
      GatheredStable(s, s', polled, x, n - 1);
      var c := n - 1;
      assert ForwardAt(s, s', c) && ForwardAt(s, s', x);
      if ChildOf(s.ops, c, x) && s.ops[c].GaveUp() {
        assert ShapeOk(s.ops, s.heights, c) && RecordedRow(s, c);
        assert s.heights[c] < s.heights[x];
        FailedChildStable(s, s', polled, c);
        if HasFailedChild(s.ops, c) {
          GatheredStable(s, s', polled, c, |s.ops|);
          NothingBeyond(s, s', polled, c, |s'.ops|);
        }
      }
    }
  }

  // ----- events -----

  lemma OldRecordKept(s: State, s': State, polled: Option<Row>, i: Row)
    requires Extends(s, s', polled) && Recorded(s) && Tidy(s) && i < |s.ops|
    requires Some(i) != polled || s'.ops[i] == s.ops[i]
    ensures RecordedRow(s', i) && ListsOk(s', i)
  {
    assert RecordedRow(s, i) && ListsOk(s, i) && TreeRowOk(s, i) && ForwardAt(s, s', i);
    if s.ops[i].root.Some? {
      if ChildrenDone(s.ops, i) || s.ops[i].Terminal() {
        FailedChildStable(s, s', polled, i);
      }
      if s.ops[i].GaveUp() && HasFailedChild(s.ops, i) {
        GatheredStable(s, s', polled, i, |s.ops|);
        NothingBeyond(s, s', polled, i, |s'.ops|);
      }
    }
  }

  lemma ChildShare(s: State, row: Row, c: Row)
    requires Recorded(s) && row < |s.ops| && s.ops[row].root.Some? && !s.ops[row].force
    requires c < |s.ops| && ChildOf(s.ops, c, row) && s.ops[c].GaveUp()
    ensures ErrorsOfChild(s.ops[row].resource, s.ops[c]) == Share(s.ops, s.heights, c)
  {
    assert ShapeOk(s.ops, s.heights, c) && ShapeOk(s.ops, s.heights, row) && RecordedRow(s, c) && ListsOk(s, c);
  }

  /** Aggregating the recorded lists of the children gives the reference list of the parent. */
  lemma {:induction false} AggregateIsGathered(s: State, row: Row, n: nat)
    requires Recorded(s) && row < |s.ops| && s.ops[row].root.Some? && !s.ops[row].force && n <= |s.ops|
    ensures forall k | 0 <= k < |SubOperationsUpTo(s.ops, row, n).failed| :: SubOperationsUpTo(s.ops, row, n).failed[k] < n
    ensures AggregatedErrors(s.ops, SubOperationsUpTo(s.ops, row, n).failed, s.ops[row].resource)
            == Gathered(s.ops, s.heights, row, n)
  {
    if n > 0 {
      AggregateIsGathered(s, row, n - 1);
      var c, before := n - 1, SubOperationsUpTo(s.ops, row, n - 1).failed;
      if ChildOf(s.ops, c, row) && s.ops[c].GaveUp() {
        assert SubOperationsUpTo(s.ops, row, n).failed == before + [c];
        assert (before + [c])[..|before|] == before;
        ChildShare(s, row, c);
      }
    }
  }

  lemma RecordedPoll(cfg: Settings, s: State, row: Row, same: Row, free: bool, w: nat)
    requires Sound(cfg, s) && Tidy(s) && Recorded(s) && Enabled(cfg, s, Poll(row, same, free, w))
    ensures Recorded(PollOne(cfg, s, row, same, free, w))
  {
    var s' := PollOne(cfg, s, row, same, free, w);
    ForwardPoll(cfg, s, row, same, free, w);
    TidyPoll(cfg, s, row, same, free, w);
    assert Extends(s, s', Some(row));
    DecisionMeaning(s.ops, row, same);
    PolledRowRecorded(cfg, s, row, same, free, w);
    forall i | 0 <= i < |s'.ops| ensures RecordedRow(s', i) && ListsOk(s', i) {
      if i != row {
        assert ForwardAt(s, s', i);
        OldRecordKept(s, s', Some(row), i);
      }
    }
  }

  lemma PolledRowRecorded(cfg: Settings, s: State, row: Row, same: Row, free: bool, w: nat)
    requires Sound(cfg, s) && Tidy(s) && Recorded(s) && Enabled(cfg, s, Poll(row, same, free, w))
    requires Extends(s, PollOne(cfg, s, row, same, free, w), Some(row))
    ensures RecordedRow(PollOne(cfg, s, row, same, free, w), row) && ListsOk(PollOne(cfg, s, row, same, free, w), row)
  {
    var s' := PollOne(cfg, s, row, same, free, w);
    DecisionMeaning(s.ops, row, same);
    assert RecordedRow(s, row) && ListsOk(s, row) && RowOk(s, row) && ShapeOk(s.ops, s.heights, row);
    if s'.ops[row].state.Pending? {
      assert s' == s;
    } else {
      FailedChildStable(s, s', Some(row), row);
      if HasFailedChild(s.ops, row) && !s.ops[row].force {
        AggregateIsGathered(s, row, |s.ops|);
        GatheredStable(s, s', Some(row), row, |s.ops|);
      }
    }
  }

  /** Events other than polls: old rows keep their records, new rows have nothing to record. */
  lemma RecordedOther(cfg: Settings, s: State, e: Event)
    requires Sound(cfg, s) && Tidy(s) && Recorded(s) && Enabled(cfg, s, e) && !e.Poll?
    ensures Recorded(Next(cfg, s, e))
  {
    var s' := Next(cfg, s, e);
    EventForward(cfg, s, e);
    TidyNext(cfg, s, e);
    forall i, k | 0 <= i < |s.ops| <= k < |s'.ops| ensures !ChildOf(s'.ops, k, i) {
      NewRowsApart(cfg, s, e, k);
    }
    HeightsGrow(cfg, s, e);
    assert Extends(s, s', None);
    forall i | 0 <= i < |s'.ops| ensures RecordedRow(s', i) && ListsOk(s', i) {
      if i < |s.ops| {
        OldRecordKept(s, s', None, i);
      } else {
        NewRowsApart(cfg, s, e, i);
        assert TreeRowOk(s', i);
      }
    }
  }

  lemma HeightsGrow(cfg: Settings, s: State, e: Event)
    requires Sound(cfg, s) && Enabled(cfg, s, e)
    ensures s.heights <= Next(cfg, s, e).heights
  {
  }

  lemma NewRowsApart(cfg: Settings, s: State, e: Event, k: Row)
    requires Sound(cfg, s) && Enabled(cfg, s, e) && |s.ops| <= k < |Next(cfg, s, e).ops|
    ensures var op := Next(cfg, s, e).ops[k];
            && (op.parent.Some? ==> op.parent.value >= |s.ops|)
            && (op.root.Some? ==> op.state.Pending? || op.Done()) && !op.GaveUp() && op.errors.NoErrors?
  {
  }

  lemma {:induction false} RunIsRecorded(cfg: Settings, states: seq<State>, events: seq<Event>, i: nat)
    requires cfg.Positive() && cfg.RetriesBeforeSweep() && IsRun(cfg, states, events) && i < |states|
    ensures Sound(cfg, states[i]) && Tidy(states[i]) && Recorded(states[i])
  {
    RunIsTidy(cfg, states, events, i);
    if i > 0 {
      RunIsRecorded(cfg, states, events, i - 1);
      RecordedNext(cfg, states[i - 1], events[i - 1]);
    }
  }

  lemma RecordedNext(cfg: Settings, s: State, e: Event)
    requires Sound(cfg, s) && Tidy(s) && Recorded(s) && Enabled(cfg, s, e)
    ensures Recorded(Next(cfg, s, e))
  {
    if e.Poll? {
      RecordedPoll(cfg, s, e.row, e.same, e.free, e.w);
    } else {
      RecordedOther(cfg, s, e);
    }
  }

  // ----- each failure appears exactly once -----

  /** The operation failed by itself: it has a recorded error of its own. */
  predicate FailedItself(op: Operation) {
    op.GaveUp() && op.errors.Plain?
  }

  ghost function SourcesOfChild(t: Table, heights: seq<nat>, c: Row): seq<Row>
    requires Shaped(t, heights) && c < |t| && t[c].parent.Some?
    decreases heights[c], |t| + 1
  {
    if HasFailedChild(t, c) then Sources(t, heights, c, |t|) else if t[c].errors.Plain? then [c] else []
  }

  /** The rows behind the entries of the reference list. */
  ghost function Sources(t: Table, heights: seq<nat>, x: Row, n: nat): seq<Row>
    requires Shaped(t, heights) && x < |t| && n <= |t|
    decreases heights[x], n
  {
    if n == 0 then []
    else
      var before := Sources(t, heights, x, n - 1);
      assert ShapeOk(t, heights, n - 1);
      if ChildOf(t, n - 1, x) && t[n - 1].GaveUp() then before + SourcesOfChild(t, heights, n - 1) else before
  }

  /** An entry names the failed resource, its error, and the resource of its immediate parent. */
  predicate IsEntry(t: Table, y: Row, entry: CascadeError) {
    && y < |t| && FailedItself(t[y]) && t[y].parent.Some? && t[y].parent.value < |t|
    && entry == CascadeError(t[t[y].parent.value].resource, t[y].resource, t[y].errors.message)
  }

  predicate Below(t: Table, y: Row, c: Row, k: nat) {
    Ancestor(t, y, k) == Some(c)
  }

  /** y lies below a child of x, or is one, among the first n rows. */
  ghost predicate UnderChild(t: Table, y: Row, x: Row, n: nat) {
    exists c: Row, k: nat :: c < n && ChildOf(t, c, x) && Below(t, y, c, k)
  }

  /** Entry by entry, the reference list belongs to its sources. */
  lemma {:induction false} SourcesMatch(t: Table, heights: seq<nat>, x: Row, n: nat)
    requires Shaped(t, heights) && x < |t| && n <= |t|
    ensures |Sources(t, heights, x, n)| == |Gathered(t, heights, x, n)|
    ensures forall i | 0 <= i < |Sources(t, heights, x, n)| ::
              IsEntry(t, Sources(t, heights, x, n)[i], Gathered(t, heights, x, n)[i])
    decreases heights[x], n
  {
    if n > 0 {
      SourcesMatch(t, heights, x, n - 1);
      var c := n - 1;
      if ChildOf(t, c, x) && t[c].GaveUp() {
        assert ShapeOk(t, heights, c);
        if HasFailedChild(t, c) {
          SourcesMatch(t, heights, c, |t|);
        }
        assert Sources(t, heights, x, n) == Sources(t, heights, x, n - 1) + SourcesOfChild(t, heights, c);
        assert Gathered(t, heights, x, n) == Gathered(t, heights, x, n - 1) + Share(t, heights, c);
      }
    }
  }

  /** Each source lies below a child among the first n. */
  lemma {:induction false} SourcesUnder(t: Table, heights: seq<nat>, x: Row, n: nat, i: nat)
    requires Shaped(t, heights) && x < |t| && n <= |t| && i < |Sources(t, heights, x, n)|
    ensures UnderChild(t, Sources(t, heights, x, n)[i], x, n)
    decreases heights[x], n
  {
    var c, before, y := n - 1, Sources(t, heights, x, n - 1), Sources(t, heights, x, n)[i];
    if i < |before| {
      SourcesUnder(t, heights, x, n - 1, i);
      var d: Row, k: nat :| d < n - 1 && ChildOf(t, d, x) && Below(t, y, d, k);
    } else {
      assert ShapeOk(t, heights, c);
      if HasFailedChild(t, c) {
        SourcesUnder(t, heights, c, |t|, i - |before|);
        var d: Row, k: nat :| d < |t| && ChildOf(t, d, c) && Below(t, y, d, k);
        AncestorStep(t, y, d, k);
      } else {
        assert y == c && Below(t, c, c, 0);
      }
    }
  }

  /** One more step up. */
  lemma {:induction false} AncestorStep(t: Table, y: Row, d: Row, k: nat)
    requires Below(t, y, d, k) && d < |t| && t[d].parent.Some?
    ensures Below(t, y, t[d].parent.value, k + 1)
    decreases k
  {
    if k > 0 {
      AncestorStep(t, t[y].parent.value, d, k - 1);
    }
  }

  lemma {:induction false} AncestorsAreHigher(t: Table, heights: seq<nat>, y: Row, c: Row, k: nat)
    requires Shaped(t, heights) && y < |t| && Below(t, y, c, k)
    ensures c < |t| && heights[y] <= heights[c] && (k > 0 ==> heights[y] < heights[c])
    decreases k
  {
    assert ShapeOk(t, heights, y);
    if k > 0 {
      AncestorsAreHigher(t, heights, t[y].parent.value, c, k - 1);
    }
  }

  /** A row lies below at most one child of an operation. */
  lemma {:induction false} BelowOneChild(t: Table, heights: seq<nat>, y: Row, x: Row, c: Row, d: Row, k: nat, m: nat)
    requires Shaped(t, heights) && y < |t| && Below(t, y, c, k) && Below(t, y, d, m)
    requires ChildOf(t, c, x) && ChildOf(t, d, x)
    ensures c == d
    decreases k
  {
    assert ShapeOk(t, heights, y) && ShapeOk(t, heights, c) && ShapeOk(t, heights, d);
    if k == 0 && m > 0 {
      AncestorsAreHigher(t, heights, x, d, m - 1);
    } else if m == 0 && k > 0 {
      AncestorsAreHigher(t, heights, x, c, k - 1);
    } else if k > 0 {
      BelowOneChild(t, heights, t[y].parent.value, x, c, d, k - 1, m - 1);
    }
  }

  lemma {:induction false} SourcesDistinct(t: Table, heights: seq<nat>, x: Row, n: nat)
    requires Shaped(t, heights) && x < |t| && n <= |t|
    ensures forall i, j | 0 <= i < j < |Sources(t, heights, x, n)| ::
              Sources(t, heights, x, n)[i] != Sources(t, heights, x, n)[j]
    decreases heights[x], n
  {
    if n > 0 {
      SourcesDistinct(t, heights, x, n - 1);
      var c, before, all := n - 1, Sources(t, heights, x, n - 1), Sources(t, heights, x, n);
      if ChildOf(t, c, x) && t[c].GaveUp() {
        var rows := SourcesOfChild(t, heights, c);
        assert ShapeOk(t, heights, c);
        if HasFailedChild(t, c) {
          SourcesDistinct(t, heights, c, |t|);
        }
        forall i, j | 0 <= i < |before| && 0 <= j < |rows| ensures before[i] != rows[j] {
          var k := RowBelow(t, heights, c, j);
          SourcesUnder(t, heights, x, n - 1, i);
          var d: Row, m: nat :| d < n - 1 && ChildOf(t, d, x) && Below(t, before[i], d, m);
          if before[i] == rows[j] {
            BelowOneChild(t, heights, rows[j], x, c, d, k, m);
          }
        }
        assert all == before + rows;
      }
    }
  }

  lemma RowBelow(t: Table, heights: seq<nat>, c: Row, j: nat) returns (k: nat)
    requires Shaped(t, heights) && c < |t| && t[c].parent.Some? && j < |SourcesOfChild(t, heights, c)|
    ensures SourcesOfChild(t, heights, c)[j] < |t| && Below(t, SourcesOfChild(t, heights, c)[j], c, k)
  {
    if HasFailedChild(t, c) {
      SourcesMatch(t, heights, c, |t|);
      var y := Sources(t, heights, c, |t|)[j];
      SourcesUnder(t, heights, c, |t|, j);
      var d: Row, m: nat :| d < |t| && ChildOf(t, d, c) && Below(t, y, d, m);
      AncestorStep(t, y, d, m);
      k := m + 1;
    } else {
      k := 0;
    }
  }

  /** The child of x on the way from y up to x. */
  lemma {:induction false} TopOfPath(t: Table, y: Row, x: Row, k: nat) returns (c: Row)
    requires k > 0 && Below(t, y, x, k)
    ensures Below(t, y, c, k - 1) && ChildOf(t, c, x)
    decreases k
  {
    if k == 1 {
      c := y;
    } else {
      c := TopOfPath(t, t[y].parent.value, x, k - 1);
    }
  }

  /** Below a settled operation, a failure makes every operation above it fail. */
  lemma {:induction false} FailureSpreads(s: State, y: Row, a: Row, k: nat)
    requires Tidy(s) && Recorded(s) && y < |s.ops| && a < |s.ops| && k > 0 && Below(s.ops, y, a, k)
    requires s.ops[y].GaveUp() && s.ops[a].Terminal() && s.ops[a].root.Some?
    ensures s.ops[a].GaveUp() && HasFailedChild(s.ops, a)
    decreases k
  {
    var c := TopOfPath(s.ops, y, a, k);
    assert RecordedRow(s, a) && TreeRowOk(s, a) && ShapeOk(s.ops, s.heights, c);
    if k > 1 {
      FailureSpreads(s, y, c, k - 1);
    }
  }

  lemma {:induction false} SourceOfChildIncluded(t: Table, heights: seq<nat>, x: Row, c: Row, n: nat, y: Row)
    requires Shaped(t, heights) && x < |t| && c < n <= |t| && ChildOf(t, c, x) && t[c].GaveUp()
    requires y in SourcesOfChild(t, heights, c)
    ensures y in Sources(t, heights, x, n)
    decreases n
  {
    if c < n - 1 {
      SourceOfChildIncluded(t, heights, x, c, n - 1, y);
    }
  }

  lemma {:induction false} SourcesComplete(s: State, y: Row, x: Row, k: nat)
    requires Tidy(s) && Recorded(s) && y < |s.ops| && x < |s.ops| && k > 0 && Below(s.ops, y, x, k)
    requires FailedItself(s.ops[y]) && s.ops[x].Terminal() && s.ops[x].root.Some? && !s.ops[y].force
    ensures y in Sources(s.ops, s.heights, x, |s.ops|)
    decreases k
  {
    var c := TopOfPath(s.ops, y, x, k);
    assert RecordedRow(s, x) && ShapeOk(s.ops, s.heights, c) && ShapeOk(s.ops, s.heights, y) && ListsOk(s, y);
    if k > 1 {
      FailureSpreads(s, y, c, k - 1);
      SourcesComplete(s, y, c, k - 1);
    }
    SourceOfChildIncluded(s.ops, s.heights, x, c, |s.ops|, y);
  }

  /** The errors of row x name the given rows in turn, and these are all the operations below it that failed by
      themselves, each once. */
  ghost predicate Reports(t: Table, x: Row, rows: seq<Row>)
    requires x < |t|
  {
    && t[x].errors.Aggregated? && |t[x].errors.list| == |rows|
    && (forall k | 0 <= k < |rows| :: IsEntry(t, rows[k], t[x].errors.list[k]))
    && (forall k, m | 0 <= k < m < |rows| :: rows[k] != rows[m])
    && (forall y: Row :: y in rows <==> y < |t| && FailedItself(t[y]) && exists k: nat :: k > 0 && Below(t, y, x, k))
  }

  /** In every run, a failed operation of a tree that is not forced and has a failed child reports every operation below
      it that failed by itself: exactly once, with its own error and its immediate parent, and nothing else. */
  lemma FailuresReportedOnce(cfg: Settings, states: seq<State>, events: seq<Event>, i: nat, x: Row)
    returns (rows: seq<Row>)
    requires cfg.Positive() && cfg.RetriesBeforeSweep() && IsRun(cfg, states, events) && i < |states|
    requires x < |states[i].ops| && states[i].ops[x].root.Some? && !states[i].ops[x].force
    requires states[i].ops[x].GaveUp() && HasFailedChild(states[i].ops, x)
    ensures Reports(states[i].ops, x, rows)
  {
    RunIsRecorded(cfg, states, events, i);
    var s := states[i];
    rows := Sources(s.ops, s.heights, x, |s.ops|);
    SourcesMatch(s.ops, s.heights, x, |s.ops|);
    SourcesDistinct(s.ops, s.heights, x, |s.ops|);
    assert ListsOk(s, x);
    forall y: Row | y in rows
      ensures y < |s.ops| && FailedItself(s.ops[y]) && exists k: nat :: k > 0 && Below(s.ops, y, x, k)
    {
      var j :| 0 <= j < |rows| && rows[j] == y;
      assert IsEntry(s.ops, rows[j], Gathered(s.ops, s.heights, x, |s.ops|)[j]);
      SourcesUnder(s.ops, s.heights, x, |s.ops|, j);
      var c: Row, k: nat :| c < |s.ops| && ChildOf(s.ops, c, x) && Below(s.ops, rows[j], c, k);
      AncestorStep(s.ops, y, c, k);
    }
    forall y: Row, k: nat | y < |s.ops| && FailedItself(s.ops[y]) && k > 0 && Below(s.ops, y, x, k) ensures y in rows {
      SameForce(s.ops, s.heights, y, x, k);
      SourcesComplete(s, y, x, k);
    }
  }

  lemma {:induction false} SameForce(t: Table, heights: seq<nat>, y: Row, x: Row, k: nat)
    requires Shaped(t, heights) && y < |t| && x < |t| && t[x].root.Some? && Below(t, y, x, k)
    ensures t[y].root == t[x].root && t[y].force == t[x].force
    decreases k
  {
    assert ShapeOk(t, heights, y) && ShapeOk(t, heights, x);
    if k > 0 {
      SameForce(t, heights, t[y].parent.value, x, k - 1);
    }
  }
}
