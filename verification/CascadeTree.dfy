/** Building the operations of a cascade tree (operations/cascade_utils.go and the create interceptors). */
module CascadeTree {
  import opened OperationTypes
  import opened Wrappers
  import opened CascadeUtils
  import opened Protocol

  /** The children of each resource, as GetObjectChildren lists them within the transaction. */
  type Children = map<Resource, seq<Resource>>

  /** Following children comes to an end. */
  ghost predicate Acyclic(f: Children, rank: map<Resource, nat>) {
    && (forall r | r in f :: r in rank && r.id != "")
    && (forall r, k | r in f && 0 <= k < |f[r]| :: f[r][k] in f && f[r][k] in rank && r in rank && rank[f[r][k]] < rank[r])
  }

  ghost predicate Known(f: Children, rank: map<Resource, nat>, kids: seq<Resource>, bound: nat) {
    forall k | 0 <= k < |kids| :: kids[k] in f && kids[k] in rank && rank[kids[k]] < bound
  }

  /** makeCascadeOperationForChild. */
  function ChildOperation(child: Resource, parent: Row, root: Row, now: int, force: bool): Operation {
    Operation(Delete, Pending, child, Some(parent), Some(root), force, now, now, None, false, NoErrors)
  }

  /** How many operations the resources and everything below them need. */
  ghost function ForestSize(f: Children, rank: map<Resource, nat>, kids: seq<Resource>, bound: nat): nat
    requires Acyclic(f, rank) && Known(f, rank, kids, bound)
    decreases bound, |kids|
  {
    if kids == [] then 0
    else
      var last := kids[|kids| - 1];
      ForestSize(f, rank, kids[..|kids| - 1], bound) + 1 + ForestSize(f, rank, f[last], rank[last])
  }

  /** The operations for the resources below one parent, stored from row base on: each child, then all below it. */
  ghost function Forest(f: Children, rank: map<Resource, nat>, kids: seq<Resource>, bound: nat,
                        parent: Row, root: Row, base: Row, now: int, force: bool): (ops: Table)
    requires Acyclic(f, rank) && Known(f, rank, kids, bound)
    ensures |ops| == ForestSize(f, rank, kids, bound)
    decreases bound, |kids|
  {
    if kids == [] then []
    else
      var last := kids[|kids| - 1];
      var before := Forest(f, rank, kids[..|kids| - 1], bound, parent, root, base, now, force);
      var row := base + |before|;
      before + [ChildOperation(last, parent, root, now, force)]
      + Forest(f, rank, f[last], rank[last], row, root, row + 1, now, force)
  }

  lemma ForestStep(f: Children, rank: map<Resource, nat>, kids: seq<Resource>, bound: nat,
                   parent: Row, root: Row, base: Row, now: int, force: bool, i: nat)
    requires Acyclic(f, rank) && Known(f, rank, kids, bound) && i < |kids|
    ensures Known(f, rank, kids[..i], bound) && Known(f, rank, kids[..i + 1], bound) && Known(f, rank, f[kids[i]], rank[kids[i]])
    ensures var before := Forest(f, rank, kids[..i], bound, parent, root, base, now, force);
            Forest(f, rank, kids[..i + 1], bound, parent, root, base, now, force)
            == before + [ChildOperation(kids[i], parent, root, now, force)]
               + Forest(f, rank, f[kids[i]], rank[kids[i]], base + |before|, root, base + |before| + 1, now, force)
  {
    assert kids[..i + 1][..i] == kids[..i];
  }

  /** recursiveGetAllLevelsCascadeOperations: the recursion and the appends of the source. */
  method RecursiveGetAllLevels(f: Children, ghost rank: map<Resource, nat>, kids: seq<Resource>, ghost bound: nat,
                               parent: Row, root: Row, base: Row, now: int, force: bool) returns (operations: Table)
    requires Acyclic(f, rank) && Known(f, rank, kids, bound)
    ensures operations == Forest(f, rank, kids, bound, parent, root, base, now, force)
    decreases bound, |kids|
  {
    operations := [];
    for i := 0 to |kids|
      invariant Known(f, rank, kids[..i], bound)
      invariant operations == Forest(f, rank, kids[..i], bound, parent, root, base, now, force)
    {
      operations := AppendChild(f, rank, kids, bound, parent, root, base, now, force, i, operations);
    }
    assert kids[..|kids|] == kids;
  }

  /** One child, followed by everything below it. */
  method AppendChild(f: Children, ghost rank: map<Resource, nat>, kids: seq<Resource>, ghost bound: nat,
                     parent: Row, root: Row, base: Row, now: int, force: bool, i: nat, before: Table) returns (operations: Table)
    requires Acyclic(f, rank) && Known(f, rank, kids, bound) && i < |kids| && Known(f, rank, kids[..i], bound)
    requires before == Forest(f, rank, kids[..i], bound, parent, root, base, now, force)
    ensures Known(f, rank, kids[..i + 1], bound)
    ensures operations == Forest(f, rank, kids[..i + 1], bound, parent, root, base, now, force)
    decreases bound, |kids|, 0
  {
    var child, row := kids[i], base + |before|;
    ForestStep(f, rank, kids, bound, parent, root, base, now, force, i);
    var below := RecursiveGetAllLevels(f, rank, f[child], rank[child], row, root, row + 1, now, force);
    operations := before + [ChildOperation(child, parent, root, now, force)] + below;
  }

  // ----- what the forest looks like -----

  /** Row i hangs under the parent outside, as one of its children, or under a row of the forest, as one of its. */
  predicate HangsOk(f: Children, kids: seq<Resource>, ops: Table, parent: Row, base: Row, i: nat)
    requires i < |ops|
  {
    && ops[i].resource in f && ops[i].parent.Some?
    && var p := ops[i].parent.value;
       if p == parent then ops[i].resource in kids
       else base <= p < base + |ops| && ops[p - base].resource in f && ops[i].resource in f[ops[p - base].resource]
  }

  predicate HasChildOn(ops: Table, parent: Row, r: Resource) {
    exists m :: 0 <= m < |ops| && ops[m].parent == Some(parent) && ops[m].resource == r
  }

  ghost predicate ForestOk(f: Children, kids: seq<Resource>, ops: Table, parent: Row, base: Row) {
    && (forall i | 0 <= i < |ops| :: HangsOk(f, kids, ops, parent, base, i))
    && (forall k | 0 <= k < |kids| :: HasChildOn(ops, parent, kids[k]))
    && (forall i, r | 0 <= i < |ops| && ops[i].resource in f && r in f[ops[i].resource] :: HasChildOn(ops, base + i, r))
  }

  lemma HasChildMonotone(a: Table, b: Table, c: Table, parent: Row, r: Resource)
    requires HasChildOn(b, parent, r)
    ensures HasChildOn(a + b + c, parent, r)
  {
    var m :| 0 <= m < |b| && b[m].parent == Some(parent) && b[m].resource == r;
    assert (a + b + c)[|a| + m] == b[m];
  }

  lemma Joined(f: Children, kids: seq<Resource>, last: Resource, before: Table, child: Operation, below: Table,
               parent: Row, base: Row)
    requires last in f && child.resource == last && child.parent == Some(parent)
    requires ForestOk(f, kids, before, parent, base)
    requires ForestOk(f, f[last], below, base + |before|, base + |before| + 1)
    requires parent < base || parent >= base + |before| + 1 + |below|
    ensures ForestOk(f, kids + [last], before + [child] + below, parent, base)
  {
    var ops, row := before + [child] + below, base + |before|;
    forall i | 0 <= i < |ops| ensures HangsOk(f, kids + [last], ops, parent, base, i) {
      if i < |before| {
        assert HangsOk(f, kids, before, parent, base, i);
      } else if i > |before| {
        assert HangsOk(f, f[last], below, row, row + 1, i - |before| - 1);
      }
    }
    forall k | 0 <= k < |kids + [last]| ensures HasChildOn(ops, parent, (kids + [last])[k]) {
      if k < |kids| {
        HasChildMonotone([], before, [child] + below, parent, kids[k]);
        assert [] + before + ([child] + below) == ops;
      } else {
        assert ops[|before|] == child;
      }
    }
    forall i, r | 0 <= i < |ops| && ops[i].resource in f && r in f[ops[i].resource] ensures HasChildOn(ops, base + i, r) {
      if i < |before| {
        assert before[i] == ops[i];
        HasChildMonotone([], before, [child] + below, base + i, r);
        assert [] + before + ([child] + below) == ops;
      } else {
        if i > |before| {
          assert below[i - |before| - 1] == ops[i];
          assert HasChildOn(below, row + 1 + (i - |before| - 1), r);
        } else {
          var k :| 0 <= k < |f[last]| && f[last][k] == r;
          assert HasChildOn(below, row, f[last][k]);
        }
        HasChildMonotone(before + [child], below, [], base + i, r);
        assert before + [child] + below + [] == ops;
      }
    }
  }

  lemma {:induction false} ForestIsOk(f: Children, rank: map<Resource, nat>, kids: seq<Resource>, bound: nat,
                                      parent: Row, root: Row, base: Row, now: int, force: bool)
    requires Acyclic(f, rank) && Known(f, rank, kids, bound)
    requires parent < base || parent >= base + ForestSize(f, rank, kids, bound)
    ensures ForestOk(f, kids, Forest(f, rank, kids, bound, parent, root, base, now, force), parent, base)
    decreases bound, |kids|
  {
    if kids != [] {
      ForestIsOkStep(f, rank, kids, bound, parent, root, base, now, force, kids[..|kids| - 1], kids[|kids| - 1]);
    }
  }

  lemma {:induction false} ForestIsOkStep(f: Children, rank: map<Resource, nat>, kids: seq<Resource>, bound: nat,
                                          parent: Row, root: Row, base: Row, now: int, force: bool,
                                          rest: seq<Resource>, last: Resource)
    requires Acyclic(f, rank) && Known(f, rank, kids, bound) && kids == rest + [last]
    requires parent < base || parent >= base + ForestSize(f, rank, kids, bound)
    ensures ForestOk(f, kids, Forest(f, rank, kids, bound, parent, root, base, now, force), parent, base)
    decreases bound, |kids|, 0
  {
    assert kids[|kids| - 1] == last && kids[..|kids| - 1] == rest;
    assert Known(f, rank, rest, bound) && Known(f, rank, f[last], rank[last]);
    var before := Forest(f, rank, rest, bound, parent, root, base, now, force);
    var row := base + |before|;
    var below := Forest(f, rank, f[last], rank[last], row, root, row + 1, now, force);
    assert Forest(f, rank, kids, bound, parent, root, base, now, force)
        == before + [ChildOperation(last, parent, root, now, force)] + below;
    ForestIsOk(f, rank, rest, bound, parent, root, base, now, force);
    ForestIsOk(f, rank, f[last], rank[last], row, root, row + 1, now, force);
    Joined(f, rest, last, before, ChildOperation(last, parent, root, now, force), below, parent, base);
  }

  /** All of the operations are child operations of this tree. */
  predicate ChildRows(ops: Table, root: Row, now: int, force: bool) {
    forall i | 0 <= i < |ops| ::
      ops[i].parent.Some? && ops[i] == ChildOperation(ops[i].resource, ops[i].parent.value, root, now, force)
  }

  lemma {:induction false} ForestRows(f: Children, rank: map<Resource, nat>, kids: seq<Resource>, bound: nat,
                                      parent: Row, root: Row, base: Row, now: int, force: bool)
    requires Acyclic(f, rank) && Known(f, rank, kids, bound)
    ensures ChildRows(Forest(f, rank, kids, bound, parent, root, base, now, force), root, now, force)
    decreases bound, |kids|
  {
    if kids != [] {
      var last, rest := kids[|kids| - 1], kids[..|kids| - 1];
      var before := Forest(f, rank, rest, bound, parent, root, base, now, force);
      var row, child := base + |before|, ChildOperation(last, parent, root, now, force);
      var below := Forest(f, rank, f[last], rank[last], row, root, row + 1, now, force);
      ForestRows(f, rank, rest, bound, parent, root, base, now, force);
      ForestRows(f, rank, f[last], rank[last], row, root, row + 1, now, force);
      assert ChildRows(before + [child] + below, root, now, force);
    }
  }

  // ----- the whole tree -----

  /** The rows stored for a cascade deletion of r: everything below it, then r itself. A virtual resource without
      children has nothing to delete and succeeds at once. */
  ghost function TreeRows(f: Children, rank: map<Resource, nat>, r: Resource, base: Row, now: int, force: bool): Table
    requires Acyclic(f, rank) && r in f
  {
    var root := base + ForestSize(f, rank, f[r], rank[r]);
    var state := if r.typ.Tenant? && f[r] == [] then Succeeded else Pending;
    Forest(f, rank, f[r], rank[r], root, root, base, now, force)
    + [Operation(Delete, state, r, None, Some(root), force, now, now, None, false, NoErrors)]
  }

  ghost function Heights(rank: map<Resource, nat>, tree: Table): seq<nat> {
    seq(|tree|, i requires 0 <= i < |tree| => if tree[i].resource in rank then rank[tree[i].resource] else 0)
  }

  /** The rows of the tree above the root's, as a forest. */
  lemma TreeForest(f: Children, rank: map<Resource, nat>, r: Resource, t: Table, now: int, force: bool)
    returns (forest: Table, root: Row)
    requires Acyclic(f, rank) && r in f
    ensures root == |t| + |forest| && ForestOk(f, f[r], forest, root, |t|)
    ensures var all := t + TreeRows(f, rank, r, |t|, now, force);
            && |all| == root + 1 && all[root].resource == r && all[root].parent.None?
            && (forall i | |t| <= i < root :: all[i] == forest[i - |t|])
            && ChildRows(forest, root, now, force)
  {
    root := |t| + ForestSize(f, rank, f[r], rank[r]);
    forest := Forest(f, rank, f[r], rank[r], root, root, |t|, now, force);
    ForestIsOk(f, rank, f[r], rank[r], root, root, |t|, now, force);
    ForestRows(f, rank, f[r], rank[r], root, root, |t|, now, force);
  }

  /** The children of a row of the new tree are on child resources of its resource. */
  lemma ChildIsKid(f: Children, rank: map<Resource, nat>, r: Resource, t: Table, now: int, force: bool, i: Row, k: Row)
    requires Acyclic(f, rank) && r in f
    requires var all := t + TreeRows(f, rank, r, |t|, now, force); |t| <= i < |all| && |t| <= k < |all| && ChildOf(all, k, i)
    ensures var all := t + TreeRows(f, rank, r, |t|, now, force);
            all[i].resource in f && all[k].resource in f[all[i].resource]
  {
    var forest, root := TreeForest(f, rank, r, t, now, force);
    assert HangsOk(f, f[r], forest, root, |t|, k - |t|);
  }

  /** Each child resource has its row. */
  lemma KidHasChild(f: Children, rank: map<Resource, nat>, r: Resource, t: Table, now: int, force: bool, i: Row, c: Resource)
    requires Acyclic(f, rank) && r in f
    requires var all := t + TreeRows(f, rank, r, |t|, now, force);
             |t| <= i < |all| && all[i].resource in f && c in f[all[i].resource]
    ensures HasChildRow(t + TreeRows(f, rank, r, |t|, now, force), |t|, i, c)
  {
    var all := t + TreeRows(f, rank, r, |t|, now, force);
    var forest, root := TreeForest(f, rank, r, t, now, force);
    if i == root {
      var k :| 0 <= k < |f[r]| && f[r][k] == c;
      assert HasChildOn(forest, root, f[r][k]);
    } else {
      assert forest[i - |t|].resource in f && c in f[forest[i - |t|].resource];
      assert HasChildOn(forest, |t| + (i - |t|), c);
    }
    var m :| 0 <= m < |forest| && forest[m].parent == Some(i) && forest[m].resource == c;
    assert all[|t| + m] == forest[m];
    assert ChildOf(all, |t| + m, i);
  }

  /** Each row but the root's is a child operation below a higher row of the tree. */
  lemma RowsOfTree(f: Children, rank: map<Resource, nat>, r: Resource, t: Table, now: int, force: bool, i: Row)
    requires Acyclic(f, rank) && r in f && |t| <= i < |t| + |TreeRows(f, rank, r, |t|, now, force)| - 1
    ensures var tree := TreeRows(f, rank, r, |t|, now, force); var all, heights := t + tree, Heights(rank, tree);
            && all[i].parent.Some? && |t| <= all[i].parent.value < |all| && all[i].resource.id != ""
            && all[i] == ChildOperation(all[i].resource, all[i].parent.value, |all| - 1, now, force)
            && heights[i - |t|] < heights[all[i].parent.value - |t|]
  {
    var all := t + TreeRows(f, rank, r, |t|, now, force);
    var forest, root := TreeForest(f, rank, r, t, now, force);
    assert HangsOk(f, f[r], forest, root, |t|, i - |t|);
    var p := all[i].parent.value;
    var k :| 0 <= k < |f[all[p].resource]| && f[all[p].resource][k] == all[i].resource;
  }

  /** Two rows on one resource have children on the same resources. */
  lemma TreeMirrors(f: Children, rank: map<Resource, nat>, r: Resource, t: Table, now: int, force: bool, i: Row, j: Row, k: Row)
    requires Acyclic(f, rank) && r in f
    requires var all := t + TreeRows(f, rank, r, |t|, now, force);
             && |t| <= i < |all| && |t| <= j < |all| && |t| <= k < |all| && SameTarget(all, i, j) && ChildOf(all, k, i)
    ensures var all := t + TreeRows(f, rank, r, |t|, now, force); HasChildRow(all, |t|, j, all[k].resource)
  {
    var all := t + TreeRows(f, rank, r, |t|, now, force);
    ChildIsKid(f, rank, r, t, now, force, i, k);
    KidHasChild(f, rank, r, t, now, force, j, all[k].resource);
  }

  /** The tree that is built is one the protocol may start from: every row but the root hangs below a higher row of the
      tree, and rows on one resource have children on the same resources. */
  lemma BuiltTreeIsNew(f: Children, rank: map<Resource, nat>, r: Resource, t: Table, now: int, force: bool)
    requires Acyclic(f, rank) && r in f
    ensures var tree := TreeRows(f, rank, r, |t|, now, force); NewTree(t, now, tree, Heights(rank, tree))
  {
    var base, tree := |t|, TreeRows(f, rank, r, |t|, now, force);
    var all, heights := t + tree, Heights(rank, tree);
    RootRow(f, rank, r, t, now, force);
    forall i | base <= i < |all| - 1
      ensures all[i].parent.Some? && base <= all[i].parent.value < |all| && all[i].resource.id != ""
              && all[i] == ChildOperation(all[i].resource, all[i].parent.value, |all| - 1, now, force)
              && heights[i - base] < heights[all[i].parent.value - base]
    {
      RowsOfTree(f, rank, r, t, now, force, i);
    }
    forall i, j, k | base <= i < |all| && base <= j < |all| && base <= k < |all| && SameTarget(all, i, j) && ChildOf(all, k, i)
      ensures HasChildRow(all, base, j, all[k].resource)
    {
      TreeMirrors(f, rank, r, t, now, force, i, j, k);
    }
  }

  lemma RootRow(f: Children, rank: map<Resource, nat>, r: Resource, t: Table, now: int, force: bool)
    requires Acyclic(f, rank) && r in f
    ensures var tree := TreeRows(f, rank, r, |t|, now, force); var all := t + tree;
            && all[|all| - 1] == Operation(Delete, all[|all| - 1].state, r, None, Some(|all| - 1), force, now, now, None, false, NoErrors)
            && (all[|all| - 1].state.Pending? || (all[|all| - 1].state.Succeeded? && r.typ.Tenant? && |tree| == 1))
  {
  }
}
