/** Queries over one cascade tree (operations/cascade_utils.go). */
module CascadeUtils {
  import opened OperationTypes
  import opened Wrappers

  predicate ChildOf(t: Table, i: Row, row: Row) {
    i < |t| && t[i].parent == Some(row)
  }

  predicate ChildrenDone(t: Table, row: Row) {
    forall i | 0 <= i < |t| && ChildOf(t, i, row) :: t[i].Done()
  }

  predicate ChildrenTerminal(t: Table, row: Row) {
    forall i | 0 <= i < |t| && ChildOf(t, i, row) :: t[i].Terminal()
  }

  predicate HasFailedChild(t: Table, row: Row) {
    exists i | 0 <= i < |t| && ChildOf(t, i, row) :: t[i].GaveUp()
  }

  datatype SubOperations = SubOperations(
    all: nat,
    succeeded: seq<Row>,
    failed: seq<Row>,
    inProgress: seq<Row>,
    pending: seq<Row>,
    mitigation: seq<Row>)
  {
    predicate AllSucceeded() {
      all == |succeeded|
    }

    predicate SomeFailedRestSucceeded() {
      |failed| > 0 && |failed| + |succeeded| == all
    }
  }

  const NoSubOperations := SubOperations(0, [], [], [], [], [])

  /** Files one child under the list that its mitigation flag and state select. */
  function Filed(subs: SubOperations, i: Row, op: Operation): SubOperations {
    var counted := subs.(all := subs.all + 1);
    if op.InMitigation() then counted.(mitigation := subs.mitigation + [i])
    else match op.state
      case Succeeded => counted.(succeeded := subs.succeeded + [i])
      case InProgress => counted.(inProgress := subs.inProgress + [i])
      case Pending => counted.(pending := subs.pending + [i])
      case Failed => counted.(failed := subs.failed + [i])
  }

  /** The children of a row among the first n rows. */
  function SubOperationsUpTo(t: Table, row: Row, n: nat): SubOperations
    requires n <= |t|
  {
    if n == 0 then NoSubOperations
    else
      var subs := SubOperationsUpTo(t, row, n - 1);
      if ChildOf(t, n - 1, row) then Filed(subs, n - 1, t[n - 1]) else subs
  }

  function SubOperationsOf(t: Table, row: Row): SubOperations {
    SubOperationsUpTo(t, row, |t|)
  }

  /** GetSubOperations: one pass over the listed children. */
  method GetSubOperations(t: Table, row: Row) returns (subs: SubOperations)
    ensures subs == SubOperationsOf(t, row)
  {
    subs := NoSubOperations;
    for n := 0 to |t|
      invariant subs == SubOperationsUpTo(t, row, n)
    {
      if t[n].parent == Some(row) {
        subs := Filed(subs, n, t[n]);
      }
    }
  }

  /** The lists partition the children, each in listing order. */
  lemma {:induction false} SubOperationsPartition(t: Table, row: Row, n: nat)
    requires n <= |t|
    ensures var subs := SubOperationsUpTo(t, row, n);
            && subs.all == |subs.succeeded| + |subs.failed| + |subs.inProgress| + |subs.pending| + |subs.mitigation|
            && (forall i: Row :: i in subs.succeeded <==> i < n && ChildOf(t, i, row) && t[i].Done())
            && (forall i: Row :: i in subs.failed <==> i < n && ChildOf(t, i, row) && t[i].GaveUp())
            && (forall i | 0 <= i < n && ChildOf(t, i, row) && !t[i].Terminal() ::
                  |subs.inProgress| + |subs.pending| + |subs.mitigation| > 0)
            && (|subs.inProgress| + |subs.pending| + |subs.mitigation| > 0 ==>
                  exists i | 0 <= i < n && ChildOf(t, i, row) :: !t[i].Terminal())
  {
    if n > 0 {
      SubOperationsPartition(t, row, n - 1);
      var before, subs := SubOperationsUpTo(t, row, n - 1), SubOperationsUpTo(t, row, n);
      if ChildOf(t, n - 1, row) {
        assert forall i :: i in before.succeeded + [n - 1] <==> i in before.succeeded || i == n - 1;
        assert forall i :: i in before.failed + [n - 1] <==> i in before.failed || i == n - 1;
      }
    }
  }

  lemma FailedAreRows(t: Table, row: Row)
    ensures forall k | 0 <= k < |SubOperationsOf(t, row).failed| :: SubOperationsOf(t, row).failed[k] < |t|
  {
    SubOperationsPartition(t, row, |t|);
    var failed := SubOperationsOf(t, row).failed;
    assert forall k | 0 <= k < |failed| :: failed[k] in failed;
  }

  /** The two counting tests of the poller decide what they are meant to decide. */
  lemma CountsDecide(t: Table, row: Row)
    ensures SubOperationsOf(t, row).AllSucceeded() <==> ChildrenDone(t, row)
    ensures SubOperationsOf(t, row).SomeFailedRestSucceeded() <==> HasFailedChild(t, row) && ChildrenTerminal(t, row)
  {
    SubOperationsPartition(t, row, |t|);
    var subs := SubOperationsOf(t, row);
    if HasFailedChild(t, row) {
      var i :| 0 <= i < |t| && ChildOf(t, i, row) && t[i].GaveUp();
      assert i in subs.failed;
    }
    if |subs.failed| > 0 {
      assert subs.failed[0] in subs.failed;
    }
  }

  // ----- operations of one tree on the same resource -----

  /** The rows of handleDuplicateOperations' query: same resource, category and tree. */
  predicate SameTarget(t: Table, i: Row, j: Row) {
    && i < |t| && j < |t|
    && t[i].resource == t[j].resource
    && t[i].category == t[j].category
    && t[i].root == t[j].root
  }

  /** The first row of that query: its order is by updated_at, newest first, and ties are left open. */
  predicate IsLatest(t: Table, row: Row, same: Row) {
    && SameTarget(t, row, same)
    && forall j | 0 <= j < |t| && SameTarget(t, row, j) :: t[j].updatedAt <= t[same].updatedAt
  }

  datatype Duplicate = Skip | Copy(state: OpState) | Proceed

  /** handleDuplicateOperations, given the newest operation on the same target. */
  function HandleDuplicates(same: Operation): Duplicate {
    if same.InMitigation() then Skip
    else match same.state
      case InProgress => Skip
      case Succeeded => Copy(Succeeded)
      case Failed => Copy(Failed)
      case Pending => Proceed
  }

  /** Among the first n rows, the latest operation on the target of row; the lowest such row on a tie. */
  function LatestUpTo(t: Table, row: Row, n: nat): (r: Option<Row>)
    requires row < |t| && n <= |t|
    ensures r.None? ==> forall j | 0 <= j < n :: !SameTarget(t, row, j)
    ensures r.Some? ==> r.value < n && SameTarget(t, row, r.value)
    ensures r.Some? ==> forall j | 0 <= j < n && SameTarget(t, row, j) :: t[j].updatedAt <= t[r.value].updatedAt
  {
    if n == 0 then None
    else
      var best := LatestUpTo(t, row, n - 1);
      if SameTarget(t, row, n - 1) && (best.None? || t[best.value].updatedAt < t[n - 1].updatedAt)
      then Some(n - 1) else best
  }

  function LatestOnTarget(t: Table, row: Row): (same: Row)
    requires row < |t|
    ensures IsLatest(t, row, same)
  {
    var best := LatestUpTo(t, row, |t|);
    assert SameTarget(t, row, row);
    best.value
  }

  // ----- error aggregation -----

  /** What one failed child adds to the list of its parent. */
  function ErrorsOfChild(parent: Resource, child: Operation): seq<CascadeError> {
    match child.errors
    case Aggregated(list) => list
    case Plain(message) => [CascadeError(parent, child.resource, message)]
    case NoErrors => []
  }

  function AggregatedErrors(t: Table, failed: seq<Row>, parent: Resource): seq<CascadeError>
    requires forall k | 0 <= k < |failed| :: failed[k] < |t|
  {
    if failed == [] then []
    else
      var last := failed[|failed| - 1];
      AggregatedErrors(t, failed[..|failed| - 1], parent) + ErrorsOfChild(parent, t[last])
  }

  /** PrepareAggregatedErrorsArray: splice the lists of the children, wrap their plain errors. */
  method PrepareAggregatedErrorsArray(t: Table, failed: seq<Row>, parent: Resource) returns (errors: seq<CascadeError>)
    requires forall k | 0 <= k < |failed| :: failed[k] < |t|
    ensures errors == AggregatedErrors(t, failed, parent)
  {
    errors := [];
    for k := 0 to |failed|
      invariant errors == AggregatedErrors(t, failed[..k], parent)
    {
      var child := t[failed[k]];
      assert failed[..k + 1][..k] == failed[..k];
      match child.errors {
        case Aggregated(list) => errors := errors + list;
        case Plain(message) => errors := errors + [CascadeError(parent, child.resource, message)];
        case NoErrors =>
      }
    }
    assert failed[..|failed|] == failed;
  }
}
