/** Batched removal of old finished operations (operations/maintainer.go). */
module Cleanup {
  import opened Division
  import opened OperationTypes

  /** A stored operation: internal when it belongs to the Service Manager platform. */
  datatype Entry = Entry(op: Operation, internal: bool)

  /** The operations table by paging sequence: a larger number is a newer operation. */
  type Rows = map<nat, Entry>

  datatype Criteria = ExternalBefore(cutoff: int) | SuccessfulBefore(cutoff: int) | FailedBefore(cutoff: int)

  /** The conditions that look at the row alone. */
  predicate Eligible(e: Entry, c: Criteria) {
    && e.op.updatedAt < c.cutoff && e.internal == !c.ExternalBefore?
    && match c
       case ExternalBefore(_) => true
       case SuccessfulBefore(_) => e.op.state.Succeeded? && e.op.root.None?
       case FailedBefore(_) =>
         e.op.state.Failed? && !e.op.reschedule && e.op.deletionScheduled.None? && e.op.root.None?
  }

  /** k is the last operation of its resource. */
  predicate Newest(t: Rows, k: nat)
    requires k in t
  {
    forall j | j in t && t[j].op.resource == t[k].op.resource :: j <= k
  }

  /** The rows the criteria select: eligible, and not the last operation of their resource. */
  function Matching(t: Rows, c: Criteria): set<nat> {
    set k | k in t && Eligible(t[k], c) && !Newest(t, k)
  }

  function Above(t: Rows, k: nat): set<nat> {
    set j | j in t && k < j
  }

  /** Every row has a last operation of its resource above it. */
  lemma {:induction false} NewestAbove(t: Rows, k: nat) returns (n: nat)
    requires k in t
    ensures n in t && k <= n && t[n].op.resource == t[k].op.resource && Newest(t, n)
    decreases Above(t, k)
  {
    if Newest(t, k) {
      n := k;
    } else {
      var j :| j in t && t[j].op.resource == t[k].op.resource && k < j;
      assert j in Above(t, k) && j !in Above(t, j);
      assert Above(t, j) <= Above(t, k);
      n := NewestAbove(t, j);
    }
  }

  /** Removing some of the selected rows leaves exactly the others selected, although "not the last" is asked again of
      the smaller table. */
  lemma SelectionShrinks(t: Rows, c: Criteria, gone: set<nat>)
    requires gone <= Matching(t, c)
    ensures Matching(t - gone, c) == Matching(t, c) - gone
  {
    forall k | k in t - gone ensures Newest(t - gone, k) == Newest(t, k) {
      var n := NewestAbove(t, k);
      assert n !in Matching(t, c) && n in t - gone;
      if Newest(t - gone, k) {
        assert n <= k;
      }
    }
  }

  /** A resource keeps its last operation, and gets no other one. */
  lemma NewestSurvive(t: Rows, c: Criteria, k: nat)
    ensures (k in t && Newest(t, k)) <==> (k in t - Matching(t, c) && Newest(t - Matching(t, c), k))
    ensures k in t - Matching(t, c) ==> (t - Matching(t, c))[k] == t[k]
  {
    if k in t - Matching(t, c) {
      var n := NewestAbove(t, k);
      assert n !in Matching(t, c) && n in t - Matching(t, c);
      if Newest(t - Matching(t, c), k) {
        assert n <= k;
      }
    }
  }

  /** Whatever cleanups follow each other, the last operation of every resource is the one it was. */
  ghost function AfterCleanups(t: Rows, cs: seq<Criteria>): Rows {
    if cs == [] then t else AfterCleanups(t - Matching(t, cs[0]), cs[1..])
  }

  lemma {:induction false} CleanupsKeepTheNewest(t: Rows, cs: seq<Criteria>, k: nat)
    ensures (k in t && Newest(t, k)) <==> (k in AfterCleanups(t, cs) && Newest(AfterCleanups(t, cs), k))
    ensures k in AfterCleanups(t, cs) ==> k in t && AfterCleanups(t, cs)[k] == t[k]
    ensures k in t && k !in AfterCleanups(t, cs) ==> exists c :: c in cs && Eligible(t[k], c)
    decreases |cs|
  {
    if cs != [] {
      NewestSurvive(t, cs[0], k);
      CleanupsKeepTheNewest(t - Matching(t, cs[0]), cs[1..], k);
      assert cs[0] in cs;
      assert forall c :: c in cs[1..] ==> c in cs;
    }
  }

  /** Where the loop stands: the rows in gone are deleted, and the rest of the selection is still to go. */
  ghost predicate Progressed(start: Rows, t: Rows, c: Criteria, gone: set<nat>) {
    gone <= Matching(start, c) && t == start - gone && Matching(t, c) == Matching(start, c) - gone
  }

  /** One round takes a full batch, or all that is left; the list it deletes is not empty. */
  lemma BatchCounts(selected: set<nat>, ids: set<nat>, batchSize: nat)
    requires batchSize > 0 && ids <= selected && CeilDiv(|selected|, batchSize) > 0
    requires |ids| == if |selected| <= batchSize then |selected| else batchSize
    ensures ids != {} && CeilDiv(|selected|, batchSize) == 1 + CeilDiv(|selected - ids|, batchSize)
  {
    assert selected == (selected - ids) + ids;
    assert |selected| == |selected - ids| + |ids|;
  }

  lemma BatchProgresses(start: Rows, t: Rows, c: Criteria, gone: set<nat>, ids: set<nat>)
    requires Progressed(start, t, c, gone) && ids <= Matching(t, c)
    ensures Progressed(start, t - ids, c, gone + ids) && Matching(t - ids, c) == Matching(t, c) - ids
  {
    SelectionShrinks(t, c, ids);
    assert start - gone - ids == start - (gone + ids);
    assert Matching(start, c) - gone - ids == Matching(start, c) - (gone + ids);
  }

  class OperationsTable {
    var rows: Rows

    constructor (rows: Rows)
      ensures this.rows == rows
    {
      this.rows := rows;
    }

    /** The list query with a limit; which of the selected rows come first is left open. */
    method List(c: Criteria, limit: nat) returns (ids: set<nat>)
      ensures ids <= Matching(rows, c)
      ensures |ids| == if |Matching(rows, c)| <= limit then |Matching(rows, c)| else limit
    {
      ids := {};
      var left := Matching(rows, c);
      while left != {} && |ids| < limit
        invariant ids !! left && ids + left == Matching(rows, c) && |ids| <= limit
        decreases left
      {
        var k :| k in left;
        ids, left := ids + {k}, left - {k};
      }
      assert |ids + left| == |ids| + |left|;
    }

    /** batchDeleteOperation: with a positive batch size exactly the selected rows go, a batch per round; with any other
        batch size nothing is deleted. */
    method BatchDelete(c: Criteria, batchSize: int) returns (rounds: nat)
      modifies this
      ensures batchSize > 0 ==> rows == old(rows) - Matching(old(rows), c)
      ensures batchSize > 0 ==> rounds == CeilDiv(|Matching(old(rows), c)|, batchSize)
      ensures batchSize <= 0 ==> rows == old(rows) && rounds == 0
    {
      var count := |Matching(rows, c)|;
      rounds := 0;
      if batchSize <= 0 {
        return;
      }
      ghost var start, gone: set<nat> := rows, {};
      while rounds < CeilDiv(count, batchSize)
        invariant Progressed(start, rows, c, gone)
        invariant rounds + CeilDiv(|Matching(rows, c)|, batchSize) == CeilDiv(count, batchSize)
        decreases CeilDiv(count, batchSize) - rounds
      {
        var ids := List(c, batchSize);
        BatchCounts(Matching(rows, c), ids, batchSize);
        BatchProgresses(start, rows, c, gone, ids);
        rows := rows - ids;
        gone := gone + ids;
        rounds := rounds + 1;
      }
      assert gone == Matching(start, c);
    }
  }
}
