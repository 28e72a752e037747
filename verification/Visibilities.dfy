/** Keeping the visibilities of a broker's plans in line with its catalog
    (storage/interceptors/broker_public_plans_interceptor.go). */
module Visibilities {
  import opened Wrappers

  datatype Visibility = Visibility(planID: string, platformID: string, labelled: bool)

  type Rows = map<nat, Visibility>

  /** A plan: public or not, and, when not all platforms are supported, the supported ones with whether each is scoped to
      a tenant. */
  datatype Plan = Plan(id: string, public: bool, supported: Option<map<string, bool>>) {
    ghost predicate Valid() {
      supported.Some? ==> "" !in supported.value
    }

    /** On this supported platform the plan is shown by label-less visibilities. */
    predicate Open(platformID: string)
      requires supported.Some? && platformID in supported.value
    {
      public || supported.value[platformID]
    }
  }

  /** The visibilities of one plan. */
  function Of(rows: Rows, planID: string): Rows {
    map k | k in rows && rows[k].planID == planID :: rows[k]
  }

  // ----- the target -----

  predicate Shows(v: Rows, platformID: string) {
    exists k | k in v :: v[k].platformID == platformID && !v[k].labelled
  }

  /** What the visibilities of a plan should look like. */
  ghost predicate Target(v: Rows, plan: Plan) {
    match plan.supported
    case None =>
      if plan.public then v != map[] && (forall k | k in v :: v[k].platformID == "")
      else forall k | k in v :: v[k].platformID != ""
    case Some(platforms) =>
      && (forall k | k in v :: v[k].platformID in platforms && v[k].labelled == !plan.Open(v[k].platformID))
      && (forall k, l | k in v && l in v && k != l && v[k].platformID == v[l].platformID :: v[k].labelled)
      && (plan.public ==> forall p | p in platforms :: Shows(v, p))
  }

  /** A row that may go: it does not fit, or another row that stays says the same. */
  ghost predicate Dispensable(before: Rows, after: Rows, plan: Plan, k: nat)
    requires k in before
  {
    var p := before[k].platformID;
    match plan.supported
    case None => plan.public == (p != "")
    case Some(platforms) =>
      || p !in platforms
      || before[k].labelled == plan.Open(p)
      || (plan.Open(p) && exists l | l in after :: l != k && l in before && before[l] == before[k])
  }

  /** A row that is made: a public plan lacked it. */
  ghost predicate Needed(before: Rows, plan: Plan, v: Visibility) {
    && plan.public && v.planID == plan.id && !v.labelled
    && match plan.supported
       case None => v.platformID == "" && forall k | k in before :: before[k].platformID != ""
       case Some(platforms) => v.platformID in platforms && !Shows(before, v.platformID)
  }

  /** From one set of rows of a plan to the other: the target is met, and no row came or went without need. */
  ghost predicate Resynced(before: Rows, after: Rows, plan: Plan) {
    && Target(after, plan)
    && (forall k | k in before && k in after :: after[k] == before[k])
    && (forall k | k in before && k !in after :: Dispensable(before, after, plan, k))
    && (forall k | k in after && k !in before :: Needed(before, plan, after[k]))
  }

  lemma TargetNeedsNothing(before: Rows, after: Rows, plan: Plan, k: nat, v: Visibility)
    requires Target(before, plan)
    ensures k in before && (forall l | l in after && l in before :: after[l] == before[l]) ==>
              !Dispensable(before, after, plan, k)
    ensures !Needed(before, plan, v)
  {
    if plan.supported.None? && plan.public {
      var l :| l in before;
    }
  }

  /** Idempotence: a plan that meets its target is left alone. */
  lemma SecondTimeNothing(before: Rows, after: Rows, plan: Plan)
    requires Target(before, plan) && Resynced(before, after, plan)
    ensures after == before
  {
    forall k | k in before ensures k in after {
      TargetNeedsNothing(before, after, plan, k, before[k]);
    }
    forall k | k in after ensures k in before {
      TargetNeedsNothing(before, after, plan, k, after[k]);
    }
  }

  // ----- the loop over the visibilities of a plan with supported platforms -----

  /** Whether the loop keeps a visibility, left being the supported platforms not matched yet. */
  predicate Keeps(plan: Plan, left: map<string, bool>, v: Visibility) {
    var found := v.platformID in left;
    if plan.public || (found && left[v.platformID]) then found && !v.labelled
    else found && v.labelled
  }

  /** A kept visibility that shows the plan takes its platform out of those left. */
  function Matched(plan: Plan, left: map<string, bool>, v: Visibility): map<string, bool> {
    if Keeps(plan, left, v) && !v.labelled then left - {v.platformID} else left
  }

  /** Where that loop stands: of the rows in done, those in kept stay. */
  ghost predicate Midway(before: Rows, kept: Rows, plan: Plan, left: map<string, bool>, done: set<nat>)
    requires plan.supported.Some?
  {
    var platforms := plan.supported.value;
    && done <= before.Keys
    && (forall k | k in kept :: k in done && kept[k] == before[k])
    && (forall k | k in done && k !in kept :: Dispensable(before, kept, plan, k))
    && (forall p | p in left :: p in platforms && left[p] == platforms[p])
    && (forall p | p in platforms && p !in left :: plan.Open(p) && Shows(kept, p))
    && (forall k | k in kept :: Fits(plan, left, kept[k]))
    && (forall k, l | k in kept && l in kept && k != l && kept[k].platformID == kept[l].platformID :: kept[k].labelled)
    && (forall k | k in done && before[k].platformID in left && plan.Open(before[k].platformID) :: before[k].labelled)
  }

  ghost predicate Fits(plan: Plan, left: map<string, bool>, v: Visibility)
    requires plan.supported.Some?
  {
    && v.platformID in plan.supported.value && v.labelled == !plan.Open(v.platformID)
    && (plan.Open(v.platformID) ==> v.platformID !in left)
  }

  lemma DispensableStays(before: Rows, after: Rows, k: nat, v: Visibility, plan: Plan, i: nat)
    requires i in before && Dispensable(before, after, plan, i) && k !in after && k != i
    ensures Dispensable(before, after[k := v], plan, i)
  {
    if plan.supported.Some? && before[i].platformID in plan.supported.value && before[i].labelled != plan.Open(before[i].platformID) {
      var l :| l in after && l != i && l in before && before[l] == before[i];
      assert l in after[k := v];
    }
  }

  lemma KeepStep(before: Rows, kept: Rows, plan: Plan, left: map<string, bool>, done: set<nat>, k: nat)
    requires plan.supported.Some? && Midway(before, kept, plan, left, done) && k in before && k !in done
    requires Keeps(plan, left, before[k])
    ensures Midway(before, kept[k := before[k]], plan, Matched(plan, left, before[k]), done + {k})
  {
    var kept', left' := kept[k := before[k]], Matched(plan, left, before[k]);
    forall i | i in done + {k} && i !in kept' ensures Dispensable(before, kept', plan, i) {
      DispensableStays(before, kept, k, before[k], plan, i);
    }
    forall p | p in plan.supported.value && p !in left' ensures plan.Open(p) && Shows(kept', p) {
      if p in left {
        assert kept'[k].platformID == p;
      } else {
        var l :| l in kept && kept[l].platformID == p && !kept[l].labelled;
        assert kept'[l] == kept[l];
      }
    }
  }

  lemma DropStep(before: Rows, kept: Rows, plan: Plan, left: map<string, bool>, done: set<nat>, k: nat)
    requires plan.supported.Some? && Midway(before, kept, plan, left, done) && k in before && k !in done
    requires forall i | i in before :: before[i].planID == plan.id
    requires !Keeps(plan, left, before[k])
    ensures Midway(before, kept, plan, left, done + {k})
  {
    var p := before[k].platformID;
    if p in plan.supported.value && p !in left && !before[k].labelled {
      var l :| l in kept && kept[l].platformID == p && !kept[l].labelled;
      assert before[l] == before[k];
    }
    assert Dispensable(before, kept, plan, k);
  }

  /** A plan that is not public is done with its loop. */
  lemma FinishPrivate(before: Rows, kept: Rows, plan: Plan, left: map<string, bool>)
    requires plan.supported.Some? && !plan.public && Midway(before, kept, plan, left, before.Keys)
    ensures Resynced(before, kept, plan)
  {
  }

  /** A public plan gets a visibility for each missing platform: those still to do, and the rows made so far. */
  ghost predicate Making(before: Rows, kept: Rows, made: Rows, plan: Plan, missing: map<string, bool>, todo: set<string>)
    requires plan.supported.Some?
  {
    && plan.public && Midway(before, kept, plan, missing, before.Keys)
    && todo <= missing.Keys && made.Keys !! before.Keys
    && (forall k | k in made ::
          made[k] == Visibility(plan.id, made[k].platformID, false) && made[k].platformID in missing.Keys - todo)
    && (forall k, l | k in made && l in made && k != l :: made[k].platformID != made[l].platformID)
    && (forall p | p in missing.Keys - todo :: Shows(made, p))
  }

  lemma MakeStep(before: Rows, kept: Rows, made: Rows, plan: Plan, missing: map<string, bool>, todo: set<string>, p: string, k: nat)
    requires plan.supported.Some? && Making(before, kept, made, plan, missing, todo)
    requires p in todo && k !in before && k !in made
    ensures Making(before, kept, made[k := Visibility(plan.id, p, false)], plan, missing, todo - {p})
  {
    var made' := made[k := Visibility(plan.id, p, false)];
    forall q | q in missing.Keys - (todo - {p}) ensures Shows(made', q) {
      if q == p {
        assert made'[k].platformID == p;
      } else {
        assert q in missing.Keys - todo && Shows(made, q);
        var l :| l in made && made[l].platformID == q && !made[l].labelled;
        assert made'[l] == made[l];
      }
    }
  }

  lemma MadeNeeded(before: Rows, kept: Rows, made: Rows, plan: Plan, missing: map<string, bool>, k: nat)
    requires plan.supported.Some? && Making(before, kept, made, plan, missing, {}) && k in made
    ensures Needed(before, plan, made[k])
  {
    var p := made[k].platformID;
    assert p in missing;
    forall l | l in before && before[l].platformID == p ensures before[l].labelled {}
  }

  lemma MadeDispensable(before: Rows, kept: Rows, made: Rows, plan: Plan, missing: map<string, bool>, k: nat)
    requires plan.supported.Some? && Making(before, kept, made, plan, missing, {}) && k in before && k !in kept
    ensures Dispensable(before, kept + made, plan, k)
  {
    assert Dispensable(before, kept, plan, k);
    var p := before[k].platformID;
    if p in plan.supported.value && before[k].labelled != plan.Open(p) {
      var l :| l in kept && l != k && l in before && before[l] == before[k];
      assert l in kept + made;
    }
  }

  lemma MadeShows(before: Rows, kept: Rows, made: Rows, plan: Plan, missing: map<string, bool>, p: string)
    requires plan.supported.Some? && Making(before, kept, made, plan, missing, {}) && p in plan.supported.value
    ensures Shows(kept + made, p)
  {
    var after := kept + made;
    if p in missing {
      assert p in missing.Keys - {} && Shows(made, p);
      var l :| l in made && made[l].platformID == p && !made[l].labelled;
      assert after[l] == made[l];
    } else {
      assert Shows(kept, p);
      var l :| l in kept && kept[l].platformID == p && !kept[l].labelled;
      assert l !in made && after[l] == kept[l];
    }
  }

  lemma MadeTarget(before: Rows, kept: Rows, made: Rows, plan: Plan, missing: map<string, bool>)
    requires plan.supported.Some? && Making(before, kept, made, plan, missing, {})
    ensures Target(kept + made, plan)
  {
    var after := kept + made;
    forall k | k in after
      ensures after[k].platformID in plan.supported.value && !after[k].labelled
      ensures after[k].platformID in missing <==> k in made
    {
      assert k in kept ==> Fits(plan, missing, kept[k]);
    }
    forall p | p in plan.supported.value ensures Shows(after, p) {
      MadeShows(before, kept, made, plan, missing, p);
    }
  }

  lemma FinishPublic(before: Rows, kept: Rows, made: Rows, plan: Plan, missing: map<string, bool>)
    requires plan.supported.Some? && Making(before, kept, made, plan, missing, {})
    ensures Resynced(before, kept + made, plan)
  {
    var after := kept + made;
    MadeTarget(before, kept, made, plan, missing);
    forall k | k in after && k !in before ensures Needed(before, plan, after[k]) {
      MadeNeeded(before, kept, made, plan, missing, k);
    }
    forall k | k in before && k !in after ensures Dispensable(before, after, plan, k) {
      MadeDispensable(before, kept, made, plan, missing, k);
    }
  }

  // ----- the store -----

  class VisibilityStore {
    var rows: Rows
    var next: nat
    var writes: nat

    ghost predicate Valid()
      reads this
    {
      forall k | k in rows :: k < next
    }

    constructor ()
      ensures Valid() && rows == map[] && writes == 0
    {
      rows, next, writes := map[], 0, 0;
    }

    /** The visibilities of a plan, in some order. */
    method ListByPlan(planID: string) returns (ids: seq<nat>)
      ensures forall i, j | 0 <= i < j < |ids| :: ids[i] != ids[j]
      ensures forall k :: k in ids <==> k in Of(rows, planID)
    {
      var todo := Of(rows, planID).Keys;
      ids := [];
      while todo != {}
        invariant todo <= Of(rows, planID).Keys
        invariant forall i, j | 0 <= i < j < |ids| :: ids[i] != ids[j]
        invariant forall k :: k in ids <==> k in Of(rows, planID) && k !in todo
        decreases todo
      {
        var k :| k in todo;
        ids, todo := ids + [k], todo - {k};
      }
    }

    method DeleteRow(id: nat)
      requires Valid()
      modifies this
      ensures Valid() && rows == old(rows) - {id} && next == old(next) && writes == old(writes) + 1
    {
      rows, writes := rows - {id}, writes + 1;
    }

    method PersistVisibility(platformID: string, planID: string)
      requires Valid()
      modifies this
      ensures Valid() && rows == old(rows)[old(next) := Visibility(planID, platformID, false)]
      ensures next == old(next) + 1 && writes == old(writes) + 1
    {
      rows, next, writes := rows[next := Visibility(planID, platformID, false)], next + 1, writes + 1;
    }

    method MakeOne(plan: Plan, p: string, ghost start: Rows, ghost kept: Rows, ghost made: Rows,
                   ghost missing: map<string, bool>, ghost todo: set<string>) returns (ghost made': Rows)
      requires Valid() && plan.supported.Some? && (forall k | k in start :: k < next) && p in todo
      requires Making(Of(start, plan.id), kept, made, plan, missing, todo)
      requires Of(rows, plan.id) == kept + made && Elsewhere(start, rows, plan.id)
      modifies this
      ensures Valid() && next == old(next) + 1 && writes == old(writes) + 1
      ensures Making(Of(start, plan.id), kept, made', plan, missing, todo - {p}) && made' != map[]
      ensures Of(rows, plan.id) == kept + made' && Elsewhere(start, rows, plan.id)
    {
      ghost var id, was := next, rows;
      ghost var v := Visibility(plan.id, p, false);
      MadeFresh(was, plan.id, kept, made, id, v);
      MakeStep(Of(start, plan.id), kept, made, plan, missing, todo, p, id);
      PersistVisibility(p, plan.id);
      ElsewhereChain(start, was, rows, plan.id);
      made' := made[id := v];
    }

    /** The loop that creates a visibility for each platform left. */
    method MakeMissing(plan: Plan, ghost start: Rows, ghost kept: Rows, left: map<string, bool>)
      requires Valid() && plan.supported.Some? && plan.public && (forall k | k in start :: k < next)
      requires var before := Of(start, plan.id); Midway(before, kept, plan, left, before.Keys)
      requires Of(rows, plan.id) == kept && Elsewhere(start, rows, plan.id)
      modifies this
      ensures Valid() && Resynced(Of(start, plan.id), Of(rows, plan.id), plan) && Elsewhere(start, rows, plan.id)
      ensures left == map[] ==> rows == old(rows) && writes == old(writes)
      ensures left != map[] ==> Of(rows, plan.id) != Of(start, plan.id)
    {
      ghost var made: Rows := map[];
      assert kept + made == kept;
      var todo := left.Keys;
      while todo != {}
        invariant Valid() && next >= old(next)
        invariant Making(Of(start, plan.id), kept, made, plan, left, todo)
        invariant Of(rows, plan.id) == kept + made && Elsewhere(start, rows, plan.id)
        invariant if todo == left.Keys then rows == old(rows) && writes == old(writes) else made != map[]
        decreases todo
      {
        var p :| p in todo;
        made := MakeOne(plan, p, start, kept, made, left, todo);
        todo := todo - {p};
      }
      FinishPublic(Of(start, plan.id), kept, made, plan, left);
      if left != map[] {
        ghost var k :| k in made;
        assert k in Of(rows, plan.id) && k !in Of(start, plan.id);
      }
    }

    /** One turn of the loop over the visibilities of a plan with supported platforms. */
    method Visit(plan: Plan, labelLess: set<nat>, left: map<string, bool>, id: nat,
                 ghost start: Rows, ghost kept: Rows, ghost done: set<nat>)
      returns (left': map<string, bool>, ghost kept': Rows)
      requires Valid() && plan.supported.Some? && id in Of(start, plan.id) && id !in done
      requires id in labelLess <==> !start[id].labelled
      requires Midway(Of(start, plan.id), kept, plan, left, done) && rows == start - (done - kept.Keys)
      modifies this
      ensures Valid() && next == old(next)
      ensures Midway(Of(start, plan.id), kept', plan, left', done + {id}) && rows == start - (done + {id} - kept'.Keys)
      ensures if rows == old(rows) then writes == old(writes) else id !in rows
    {
      ghost var before := Of(start, plan.id);
      var visibility := rows[id];
      var found := visibility.platformID in left;
      var delete := true;
      left', kept' := left, kept;
      if plan.public || (found && left[visibility.platformID]) {
        if found && id in labelLess {
          left' := left - {visibility.platformID};
          delete := false;
        }
      } else if found && id !in labelLess {
        delete := false;
      }
      assert delete == !Keeps(plan, left, before[id]) && left' == Matched(plan, left, before[id]);
      if delete {
        DropStep(before, kept, plan, left, done, id);
        DropRow(start, done, kept.Keys, id);
        DeleteRow(id);
      } else {
        KeepStep(before, kept, plan, left, done, id);
        kept' := kept[id := before[id]];
        KeepRow(start, done, kept.Keys, id);
      }
    }

    /** The loop over the visibilities of the plan. */
    method VisitAll(plan: Plan, labelLess: set<nat>) returns (left: map<string, bool>, ghost kept: Rows)
      requires Valid() && plan.supported.Some?
      requires forall k | k in Of(rows, plan.id) :: k in labelLess <==> !rows[k].labelled
      modifies this
      ensures Valid() && next == old(next)
      ensures var before := Of(old(rows), plan.id);
              Midway(before, kept, plan, left, before.Keys) && rows == old(rows) - (before.Keys - kept.Keys)
      ensures if rows == old(rows) then writes == old(writes) else Of(rows, plan.id) != Of(old(rows), plan.id)
    {
      ghost var start := rows;
      var ids := ListByPlan(plan.id);
      left := plan.supported.value;
      kept := map[];
      ghost var done: set<nat> := {};
      for i := 0 to |ids|
        invariant Valid() && next == old(next) && done == (set k | k in ids[..i])
        invariant Midway(Of(start, plan.id), kept, plan, left, done) && rows == start - (done - kept.Keys)
        invariant if rows == start then writes == old(writes) else Of(rows, plan.id) != Of(start, plan.id)
      {
        assert ids[i] in Of(start, plan.id) && ids[i] !in done;
        assert ids[..i + 1] == ids[..i] + [ids[i]];
        left, kept := Visit(plan, labelLess, left, ids[i], start, kept, done);
        done := done + {ids[i]};
      }
      assert ids[..|ids|] == ids;
      assert done == Of(start, plan.id).Keys;
    }

    /** resyncPlanVisibilitiesWithSupportedPlatforms. */
    method ResyncWithSupportedPlatforms(plan: Plan, labelLess: set<nat>)
      requires Valid() && plan.Valid() && plan.supported.Some?
      requires forall k | k in Of(rows, plan.id) :: k in labelLess <==> !rows[k].labelled
      modifies this
      ensures Valid() && Resynced(Of(old(rows), plan.id), Of(rows, plan.id), plan)
      ensures Elsewhere(old(rows), rows, plan.id) && (rows == old(rows) ==> writes == old(writes))
    {
      ghost var start := rows;
      var left;
      ghost var kept;
      left, kept := VisitAll(plan, labelLess);
      KeptRows(start, rows, plan.id, Of(start, plan.id).Keys, kept);
      if plan.public {
        MakeMissing(plan, start, kept, left);
      } else {
        FinishPrivate(Of(start, plan.id), kept, plan, left);
      }
    }

    /** The loop that deletes what does not fit a plan on all platforms. */
    method DeleteUnfit(plan: Plan) returns (publicExists: bool)
      requires Valid()
      modifies this
      ensures Valid() && next == old(next) && rows == old(rows) - Unfit(Of(old(rows), plan.id), plan)
      ensures publicExists <==> plan.public && exists k :: k in Of(old(rows), plan.id) && old(rows)[k].platformID == ""
      ensures Unfit(Of(old(rows), plan.id), plan) == {} ==> writes == old(writes)
    {
      ghost var start, before := rows, Of(rows, plan.id);
      var ids := ListByPlan(plan.id);
      publicExists := false;
      ghost var gone: set<nat> := {};
      for i := 0 to |ids|
        invariant Valid() && next == old(next) && rows == start - gone
        invariant gone == set k | k in ids[..i] && k in Unfit(before, plan)
        invariant publicExists <==> plan.public && exists k :: k in ids[..i] && k in before && before[k].platformID == ""
        invariant gone == {} ==> writes == old(writes)
      {
        var id := ids[i];
        assert ids[..i + 1] == ids[..i] + [id];
        assert id in before && id !in gone;
        var platformID := rows[id].platformID;
        var delete := true;
        if plan.public {
          if platformID == "" {
            publicExists := true;
            delete := false;
          }
        } else if platformID != "" {
          delete := false;
        }
        if delete {
          DeleteRow(id);
          gone := gone + {id};
        }
      }
      assert ids[..|ids|] == ids;
      assert gone == Unfit(before, plan);
    }

    /** resyncPublicPlanVisibilities: the plan supports all platforms. */
    method ResyncAllPlatforms(plan: Plan)
      requires Valid() && plan.supported.None?
      modifies this
      ensures Valid() && Resynced(Of(old(rows), plan.id), Of(rows, plan.id), plan)
      ensures Elsewhere(old(rows), rows, plan.id) && (rows == old(rows) ==> writes == old(writes))
    {
      ghost var start, before := rows, Of(rows, plan.id);
      var publicExists := DeleteUnfit(plan);
      GoneRows(start, rows, plan.id, Unfit(before, plan));
      if plan.public && !publicExists {
        ghost var id, was := next, rows;
        assert Of(was, plan.id) == map[] + map[];
        MadeFresh(was, plan.id, map[], map[], id, Visibility(plan.id, "", false));
        PersistVisibility("", plan.id);
        ElsewhereChain(start, was, rows, plan.id);
        FinishAllMade(before, Of(rows, plan.id), plan, id);
        assert id in Of(rows, plan.id) && id !in before;
      } else {
        FinishAll(before, Of(rows, plan.id), plan);
      }
    }

    /** resync: every plan of the broker in turn. Each meets its target with no row touched without need, no other plan's
        rows change, and where all targets are met already nothing is written. */
    method Resync(plans: seq<Plan>)
      requires Valid() && forall i | 0 <= i < |plans| :: plans[i].Valid()
      requires forall i, j | 0 <= i < j < |plans| :: plans[i].id != plans[j].id
      modifies this
      ensures Valid()
      ensures forall i | 0 <= i < |plans| :: Resynced(Of(old(rows), plans[i].id), Of(rows, plans[i].id), plans[i])
      ensures forall q | (forall i | 0 <= i < |plans| :: plans[i].id != q) :: Of(rows, q) == Of(old(rows), q)
      ensures (forall i | 0 <= i < |plans| :: Target(Of(old(rows), plans[i].id), plans[i])) ==>
                rows == old(rows) && writes == old(writes)
    {
      ghost var start := rows;
      var labelLess := set k | k in rows && !rows[k].labelled;
      for i := 0 to |plans|
        invariant Valid()
        invariant forall j | 0 <= j < i :: Resynced(Of(start, plans[j].id), Of(rows, plans[j].id), plans[j])
        invariant forall q | (forall j | 0 <= j < i :: plans[j].id != q) :: Of(rows, q) == Of(start, q)
        invariant (forall j | 0 <= j < i :: Target(Of(start, plans[j].id), plans[j])) ==> rows == start && writes == old(writes)
      {
        var plan := plans[i];
        ghost var was := rows;
        assert Of(rows, plan.id) == Of(start, plan.id);
        if plan.supported.None? {
          ResyncAllPlatforms(plan);
        } else {
          assert forall k | k in Of(rows, plan.id) :: rows[k] == Of(start, plan.id)[k];
          ResyncWithSupportedPlatforms(plan, labelLess);
        }
        if Target(Of(start, plan.id), plan) {
          SecondTimeNothing(Of(was, plan.id), Of(rows, plan.id), plan);
          SameRows(was, rows, plan.id);
        }
      }
    }
  }

  /** The other plans' visibilities are as they were. */
  ghost predicate Elsewhere(before: Rows, after: Rows, planID: string) {
    forall q | q != planID :: Of(after, q) == Of(before, q)
  }

  lemma MadeFresh(was: Rows, planID: string, kept: Rows, made: Rows, id: nat, v: Visibility)
    requires id !in was && v.planID == planID && Of(was, planID) == kept + made
    ensures id !in made && id in made[id := v]
    ensures Of(was[id := v], planID) == kept + made[id := v] && Elsewhere(was, was[id := v], planID)
  {
    assert id !in kept + made;
    var now := was[id := v];
    assert kept + made[id := v] == (kept + made)[id := v];
    forall q | q != planID ensures Of(now, q) == Of(was, q) {}
  }

  lemma ElsewhereChain(a: Rows, b: Rows, c: Rows, planID: string)
    requires Elsewhere(a, b, planID) && Elsewhere(b, c, planID)
    ensures Elsewhere(a, c, planID)
  {
  }

  lemma DropRow(start: Rows, done: set<nat>, kept: set<nat>, id: nat)
    requires id !in done && id !in kept
    ensures start - (done - kept) - {id} == start - (done + {id} - kept)
  {
    assert done + {id} - kept == (done - kept) + {id};
  }

  lemma KeepRow(start: Rows, done: set<nat>, kept: set<nat>, id: nat)
    requires id !in done
    ensures start - (done + {id} - (kept + {id})) == start - (done - kept)
  {
  }

  lemma KeptRows(start: Rows, rows: Rows, planID: string, done: set<nat>, kept: Rows)
    requires done == Of(start, planID).Keys && rows == start - (done - kept.Keys)
    requires forall k | k in kept :: k in done && kept[k] == start[k]
    ensures Of(rows, planID) == kept && Elsewhere(start, rows, planID)
  {
  }

  /** What does not fit a plan on all platforms. */
  function Unfit(v: Rows, plan: Plan): set<nat> {
    set k | k in v && plan.public == (v[k].platformID != "")
  }

  lemma FinishAll(before: Rows, after: Rows, plan: Plan)
    requires plan.supported.None? && after == before - Unfit(before, plan)
    requires plan.public ==> exists k :: k in before && before[k].platformID == ""
    ensures Resynced(before, after, plan)
  {
    if plan.public {
      var k :| k in before && before[k].platformID == "";
      assert k in after;
    }
  }

  lemma FinishAllMade(before: Rows, after: Rows, plan: Plan, id: nat)
    requires plan.supported.None? && plan.public && after == map[id := Visibility(plan.id, "", false)] && id !in before
    requires forall k | k in before :: before[k].platformID != ""
    ensures Resynced(before, after, plan)
  {
    assert id in after;
  }

  lemma GoneRows(start: Rows, rows: Rows, planID: string, gone: set<nat>)
    requires gone <= Of(start, planID).Keys && rows == start - gone
    ensures Of(rows, planID) == Of(start, planID) - gone && Elsewhere(start, rows, planID)
  {
  }

  lemma SameRows(a: Rows, b: Rows, planID: string)
    requires Of(a, planID) == Of(b, planID) && Elsewhere(a, b, planID)
    ensures a == b
  {
    forall k | k in a ensures k in b && b[k] == a[k] {
      assert k in Of(a, a[k].planID);
      assert Of(a, a[k].planID) == Of(b, a[k].planID);
    }
    forall k | k in b ensures k in a {
      assert k in Of(b, b[k].planID);
      assert Of(a, b[k].planID) == Of(b, b[k].planID);
    }
  }
}
